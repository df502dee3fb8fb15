/** A connected TCP socket. As with the pipes, the connection's bytes in
    flight are one stream (`channel`). `Write` sends the whole frame in one
    buffer; `Read` as written does not read the frame back: it takes one
    4-byte quantity as the total packet length and never reads the type or
    the sequence number. */
module Sockets {

  import opened Packets
  import opened Handles
  import opened Streams

  /** Unsigned 32-bit subtraction: wraps around below zero. */
  function WrapSub(a: uint32, b: uint32): (r: uint32)
    ensures (r as int + b as int) % Modulus32 == a as int
    ensures b <= a ==> r == a - b
  {
    ((a as int - b as int) % Modulus32) as uint32
  }

  /** Socket `Read` from `stream` into an out-parameter holding `prior`:
      a 4-byte total length, rejected when zero; the payload length is that
      total minus 12, modulo 2^32; that many bytes are then received. */
  function ReceivePacket(stream: seq<uint8>, prior: Packet): (r: ReadOutcome)
    ensures r.packet.header.kind == prior.header.kind
    ensures r.packet.header.sequenceNum == prior.header.sequenceNum
    ensures |r.rest| <= |stream| && r.rest == stream[|stream| - |r.rest|..]
    ensures r.ok ==> WellFormed(r.packet) && 4 <= |stream| &&
                     DecodeU32(stream[..4]) != 0 &&
                     (r.packet.header.length as int + HeaderSize) % Modulus32 == DecodeU32(stream[..4]) as int &&
                     stream == stream[..4] + r.packet.data + r.rest
    ensures |stream| < 4 ==> !r.ok && r.packet == prior && r.rest == stream
    ensures 4 <= |stream| && DecodeU32(stream[..4]) == 0 ==> !r.ok && r.packet == prior && r.rest == stream[4..]
    ensures 4 <= |stream| && DecodeU32(stream[..4]) != 0 ==>
              r.packet.header.length == WrapSub(DecodeU32(stream[..4]), HeaderSize as uint32) &&
              (r.ok <==> r.packet.header.length as int <= |stream| - 4) &&
              (!r.ok ==> r.packet.data == Resize(prior.data, r.packet.header.length as int) && r.rest == stream[4..])
  {
    if |stream| < 4 then ReadOutcome(false, prior, stream)
    else
      var total := DecodeU32(stream[..4]);
      var body := stream[4..];
      if total == 0 then ReadOutcome(false, prior, body)
      else
        var n := WrapSub(total, HeaderSize as uint32);
        var header := prior.header.(length := n);
        if n as int <= |body| then
          assert stream == stream[..4] + body[..n] + body[n..];
          ReadOutcome(true, Packet(header, body[..n]), body[n..])
        else
          ReadOutcome(false, Packet(header, Resize(prior.data, n as int)), body)
  }

  /** What the reader makes of a frame the writer sent: the type tag is
      taken for the total length. A zero tag (`Unknown`) is rejected after
      consuming it; any other tag becomes a payload length of tag - 12
      modulo 2^32, taken from the rest of the header block, the payload
      and whatever follows, while the type and sequence number stay as
      they were. */
  lemma ReceiveOfSentFrame(p: Packet, rest: seq<uint8>, prior: Packet)
    ensures var r := ReceivePacket(Frame(p) + rest, prior);
            var after := Frame(p)[4..] + rest;
            var n := WrapSub(p.header.kind, HeaderSize as uint32);
            var header := prior.header.(length := n);
            if p.header.kind == 0 then r == ReadOutcome(false, prior, after)
            else if n as int <= |after| then r == ReadOutcome(true, Packet(header, after[..n]), after[n..])
            else r == ReadOutcome(false, Packet(header, Resize(prior.data, n as int)), after)
  {
    var stream := Frame(p) + rest;
    assert stream[..4] == EncodeU32(p.header.kind);
    assert stream[4..] == Frame(p)[4..] + rest;
    U32RoundTrip(p.header.kind);
  }

  /** For a packet of any declared type that `Write` can send, `Read` does
      not return it: a successful read announces more payload than was
      written, since tags 1 to 3 become lengths of 2^32 - 11 to 2^32 - 9. */
  lemma SentPacketNotReceived(p: Packet, rest: seq<uint8>, prior: Packet)
    requires FromTag(p.header.kind).Some?
    requires HeaderSize + |p.data| < Modulus32
    ensures var r := ReceivePacket(Frame(p) + rest, prior);
            r.ok ==> r.packet.header.length as int > |p.data| && r.packet != p
  {
    ReceiveOfSentFrame(p, rest, prior);
  }

  class Socket {
    /** socket_ */
    var handle: Handle
    /** The bytes in flight on the connection, oldest first. */
    var channel: seq<uint8>

    constructor()
      ensures handle == InvalidSocket && channel == []
    {
      handle := InvalidSocket;
      channel := [];
    }

    /** `created` is what socket() returned; it is stored whatever it is. */
    method Create(created: Handle) returns (ok: bool)
      modifies this
      ensures handle == created
      ensures ok == (created != InvalidSocket)
      ensures channel == if ok then [] else old(channel)
    {
      handle := created;
      ok := handle != InvalidSocket;
      if ok {
        channel := [];
      }
    }

    /** bind() on this socket; `bound` is its outcome, and it fails on a
        socket that is not open. */
    method Bind(bound: bool) returns (ok: bool)
      ensures ok == (handle != InvalidSocket && bound)
    {
      ok := handle != InvalidSocket && bound;
    }

    /** listen() on this socket; `listening` is its outcome. */
    method Listen(listening: bool) returns (ok: bool)
      ensures ok == (handle != InvalidSocket && listening)
    {
      ok := handle != InvalidSocket && listening;
    }

    /** connect() on this socket; `connected` is its outcome. */
    method Connect(connected: bool) returns (ok: bool)
      ensures ok == (handle != InvalidSocket && connected)
    {
      ok := handle != InvalidSocket && connected;
    }

    /** accept() on this socket returned `accepted`; only a valid result is
        stored, and only in `client`. Nothing else changes, this socket
        included (unless it is `client`). */
    method Accept(client: Socket, accepted: Handle) returns (ok: bool)
      modifies client`handle
      ensures ok == (old(handle) != InvalidSocket && accepted != InvalidSocket)
      ensures client.handle == if ok then accepted else old(client.handle)
    {
      var incoming := if handle == InvalidSocket then InvalidSocket else accepted;
      ok := false;
      if incoming != InvalidSocket {
        client.handle := incoming;
        ok := true;
      }
    }

    /** One buffer of 12 + |data| bytes, header block then payload, sent
        with one call; `sent` is whether send() succeeded (it fails, for one,
        on a socket that is not connected). The length is a uint32, so the
        frame must fit in one. */
    method Write(p: Packet, sent: bool) returns (ok: bool)
      requires HeaderSize + |p.data| < Modulus32
      modifies this`channel
      ensures ok == (handle != InvalidSocket && sent)
      ensures channel == if ok then old(channel) + Frame(p) else old(channel)
    {
      var packetLength := HeaderSize + |p.data|;
      var buffer := new uint8[packetLength];
      var header := EncodeHeader(p.header);
      forall i | 0 <= i < HeaderSize {
        buffer[i] := header[i];
      }
      forall i | 0 <= i < |p.data| {
        buffer[HeaderSize + i] := p.data[i];
      }
      assert buffer[..] == Frame(p);
      ok := false;
      if handle != InvalidSocket && sent {
        channel := channel + buffer[..];
        ok := true;
      }
    }

    /** As written: a 4-byte total length, then total - 12 payload bytes;
        the header's type and sequence number are never received. */
    method Read(prior: Packet) returns (ok: bool, packet: Packet)
      modifies this`channel
      ensures handle == InvalidSocket ==> !ok && packet == prior && channel == old(channel)
      ensures handle != InvalidSocket ==>
        ReadOutcome(ok, packet, channel) == ReceivePacket(old(channel), prior)
    {
      ok, packet := false, prior;
      if handle == InvalidSocket || |channel| < 4 {
        return;
      }
      var packetLength := DecodeU32(channel[..4]);
      channel := channel[4..];
      if packetLength == 0 {
        return;
      }
      packet := packet.(header := packet.header.(length := WrapSub(packetLength, HeaderSize as uint32)));
      packet := packet.(data := Resize(packet.data, packet.header.length as int));
      if packet.header.length as int <= |channel| {
        packet := packet.(data := channel[..packet.header.length]);
        channel := channel[packet.header.length..];
        ok := true;
      }
    }

    /** `Read` receiving what `Write` sends: the whole header block, then
        the payload it announces. */
    method ReadFramed(prior: Packet) returns (ok: bool, packet: Packet)
      modifies this`channel
      ensures handle == InvalidSocket ==> !ok && packet == prior && channel == old(channel)
      ensures handle != InvalidSocket ==>
        ReadOutcome(ok, packet, channel) == ReadFrame(old(channel), prior)
    {
      ok, packet := false, prior;
      if handle == InvalidSocket || |channel| < HeaderSize {
        return;
      }
      var header := DecodeHeader(channel[..HeaderSize]);
      channel := channel[HeaderSize..];
      packet := Packet(header, Resize(packet.data, header.length as int));
      if header.length as int <= |channel| {
        packet := packet.(data := channel[..header.length]);
        channel := channel[header.length..];
        ok := true;
      }
    }

    /** Closes an open socket and forgets it; a second call releases
        nothing. */
    method Close() returns (calls: seq<OsCall>)
      modifies this`handle
      ensures handle == InvalidSocket
      ensures calls == if old(handle) != InvalidSocket then [CloseSocket(old(handle))] else []
    {
      calls := [];
      if handle != InvalidSocket {
        calls := [CloseSocket(handle)];
        handle := InvalidSocket;
      }
    }
  }
}
