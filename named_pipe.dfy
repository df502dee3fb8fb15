/** The server end of a duplex named pipe. The pipe's bytes in flight are
    one stream (`channel`): `Write` appends at its tail and `Read` consumes
    from its head, so a `Read` after a `Write` on the same object sees what
    the peer would see. */
module NamedPipes {

  import opened Packets
  import opened Handles
  import opened Streams

  class NamedPipe {
    /** pipe_handle_ */
    var handle: Handle
    /** The bytes written and not yet read, oldest first. */
    var channel: seq<uint8>

    constructor()
      ensures handle == InvalidHandle && channel == []
    {
      handle := InvalidHandle;
      channel := [];
    }

    /** `created` is what CreateNamedPipeW returned; it is stored whatever
        it is, and a new pipe starts empty. */
    method Create(created: Handle) returns (ok: bool)
      modifies this
      ensures handle == created
      ensures ok == (created != InvalidHandle)
      ensures channel == if ok then [] else old(channel)
    {
      handle := created;
      ok := handle != InvalidHandle;
      if ok {
        channel := [];
      }
    }

    /** `clientArrived` is what ConnectNamedPipe reported; it is asked only
        when the pipe is open. */
    method Connect(clientArrived: bool) returns (ok: bool)
      ensures ok == (handle != InvalidHandle && clientArrived)
    {
      ok := false;
      if handle != InvalidHandle {
        if clientArrived {
          ok := true;
        }
      }
    }

    /** The header block, then the payload, as two ordered writes joined by
        `&&`. `headerWritten` and `payloadWritten` are what the two WriteFile
        calls report (on a pipe no client has connected to, or a broken one,
        they fail); the payload is attempted only after the header went out,
        so a failed payload write leaves a bare header in the stream. */
    method Write(p: Packet, headerWritten: bool, payloadWritten: bool) returns (ok: bool)
      modifies this`channel
      ensures ok == (handle != InvalidHandle && headerWritten && payloadWritten)
      ensures channel == old(channel)
                         + (if handle != InvalidHandle && headerWritten then EncodeHeader(p.header) else [])
                         + (if ok then WrittenPayload(p.data) else [])
    {
      ok := false;
      if handle != InvalidHandle && headerWritten {
        channel := channel + EncodeHeader(p.header);
        if payloadWritten {
          channel := channel + WrittenPayload(p.data);
          ok := true;
        }
      }
    }

    /** The header block first; then the payload buffer is resized to the
        announced length and that many bytes are read into it. */
    method Read(prior: Packet) returns (ok: bool, packet: Packet)
      modifies this`channel
      ensures handle == InvalidHandle ==> !ok && packet == prior && channel == old(channel)
      ensures handle != InvalidHandle ==>
        ReadOutcome(ok, packet, channel) == ReadFrame(old(channel), prior)
    {
      ok, packet := false, prior;
      if handle == InvalidHandle || |channel| < HeaderSize {
        return;
      }
      var header := DecodeHeader(channel[..HeaderSize]);
      channel := channel[HeaderSize..];
      packet := Packet(header, Resize(packet.data, header.length as int));
      if header.length as int <= |channel| {
        packet := packet.(data := channel[..header.length]);
        channel := channel[header.length..];
        ok := true;
      }
    }

    /** Disconnects and closes an open pipe, then forgets its handle; on a
        closed pipe it does nothing, so a second call releases nothing. */
    method Close() returns (calls: seq<OsCall>)
      modifies this`handle
      ensures handle == InvalidHandle
      ensures calls == if old(handle) != InvalidHandle
                       then [DisconnectNamedPipe(old(handle)), CloseHandle(old(handle))]
                       else []
    {
      calls := [];
      if handle != InvalidHandle {
        calls := calls + [DisconnectNamedPipe(handle)];
        calls := calls + [CloseHandle(handle)];
        handle := InvalidHandle;
      }
    }
  }
}
