/** A unidirectional anonymous pipe: one read end and one write end over
    the same stream (`channel`). `Write` always goes through the write end
    and `Read` through the read end. */
module AnonymousPipes {

  import opened Packets
  import opened Handles
  import opened Streams

  class AnonymousPipe {
    /** read_pipe_ */
    var readHandle: Handle
    /** write_pipe_ */
    var writeHandle: Handle
    /** The bytes written and not yet read, oldest first. */
    var channel: seq<uint8>

    constructor()
      ensures readHandle == InvalidHandle && writeHandle == InvalidHandle && channel == []
    {
      readHandle, writeHandle := InvalidHandle, InvalidHandle;
      channel := [];
    }

    /** `created` is what CreatePipe reported and `readEnd`, `writeEnd` the
        handles it hands back; on failure nothing is stored. */
    method Create(created: bool, readEnd: Handle, writeEnd: Handle) returns (ok: bool)
      modifies this
      ensures ok == created
      ensures ok ==> readHandle == readEnd && writeHandle == writeEnd && channel == []
      ensures !ok ==> readHandle == old(readHandle) && writeHandle == old(writeHandle) && channel == old(channel)
    {
      ok := false;
      if created {
        readHandle, writeHandle := readEnd, writeEnd;
        channel := [];
        ok := true;
      }
    }

    /** The header block, then the payload, through the write end, as two
        writes joined by `&&`. `headerWritten` and `payloadWritten` are what
        the two WriteFile calls report; a failed payload write leaves a bare
        header in the stream. */
    method Write(p: Packet, headerWritten: bool, payloadWritten: bool) returns (ok: bool)
      modifies this`channel
      ensures ok == (writeHandle != InvalidHandle && headerWritten && payloadWritten)
      ensures channel == old(channel)
                         + (if writeHandle != InvalidHandle && headerWritten then EncodeHeader(p.header) else [])
                         + (if ok then WrittenPayload(p.data) else [])
    {
      ok := false;
      if writeHandle != InvalidHandle && headerWritten {
        channel := channel + EncodeHeader(p.header);
        if payloadWritten {
          channel := channel + WrittenPayload(p.data);
          ok := true;
        }
      }
    }

    /** The header block, then `length` payload bytes, from the read end. */
    method Read(prior: Packet) returns (ok: bool, packet: Packet)
      modifies this`channel
      ensures readHandle == InvalidHandle ==> !ok && packet == prior && channel == old(channel)
      ensures readHandle != InvalidHandle ==>
        ReadOutcome(ok, packet, channel) == ReadFrame(old(channel), prior)
    {
      ok, packet := false, prior;
      if readHandle == InvalidHandle || |channel| < HeaderSize {
        return;
      }
      var header := DecodeHeader(channel[..HeaderSize]);
      channel := channel[HeaderSize..];
      packet := Packet(header, Resize(packet.data, header.length as int));
      if header.length as int <= |channel| {
        packet := packet.(data := channel[..header.length]);
        channel := channel[header.length..];
        ok := true;
      }
    }

    /** Closes each end that is open, read end first, and forgets it; a
        second call releases nothing. */
    method Close() returns (calls: seq<OsCall>)
      modifies this`readHandle, this`writeHandle
      ensures readHandle == InvalidHandle && writeHandle == InvalidHandle
      ensures calls == (if old(readHandle) != InvalidHandle then [CloseHandle(old(readHandle))] else [])
                     + (if old(writeHandle) != InvalidHandle then [CloseHandle(old(writeHandle))] else [])
    {
      calls := [];
      if readHandle != InvalidHandle {
        calls := calls + [CloseHandle(readHandle)];
        readHandle := InvalidHandle;
      }
      if writeHandle != InvalidHandle {
        calls := calls + [CloseHandle(writeHandle)];
        writeHandle := InvalidHandle;
      }
    }
  }
}
