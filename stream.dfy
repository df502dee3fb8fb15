/** Two-phase packet framing over a byte stream, the skeleton both pipe
    transports share: the header block first, then exactly `length`
    payload bytes. A stream is the sequence of bytes in flight, oldest
    first; each transfer either moves all of its bytes or fails. */
module Streams {

  import opened Packets

  /** What a `Read` leaves behind: its result, the out-parameter packet as
      it stands afterwards, and the bytes still unread. */
  datatype ReadOutcome = ReadOutcome(ok: bool, packet: Packet, rest: seq<uint8>)

  /** The payload bytes `WriteFile` is asked for: the byte count is a DWORD,
      so `data.size()` is taken modulo 2^32. */
  function WrittenPayload(data: seq<uint8>): (r: seq<uint8>)
    ensures r <= data
    ensures |data| < Modulus32 ==> r == data
  {
    data[..|data| % Modulus32]
  }

  /** A pipe `Read` starting from `stream` into an out-parameter that holds
      `prior`: the header is consumed when 12 bytes are there; the payload
      buffer is then resized to the announced length and filled when that
      many bytes follow. */
  function ReadFrame(stream: seq<uint8>, prior: Packet): (r: ReadOutcome)
    ensures |r.rest| <= |stream| && r.rest == stream[|stream| - |r.rest|..]
    ensures r.ok ==> WellFormed(r.packet) && stream == Frame(r.packet) + r.rest
    ensures !r.ok && |stream| < HeaderSize ==> r.packet == prior && r.rest == stream
    ensures !r.ok && HeaderSize <= |stream| ==>
      r.packet.header == DecodeHeader(stream[..HeaderSize]) &&
      r.packet.data == Resize(prior.data, r.packet.header.length as int) &&
      r.rest == stream[HeaderSize..] && |r.rest| < r.packet.header.length as int
  {
    if |stream| < HeaderSize then ReadOutcome(false, prior, stream)
    else
      var h := DecodeHeader(stream[..HeaderSize]);
      var body := stream[HeaderSize..];
      var n := h.length as int;
      if n <= |body| then
        HeaderBytesRoundTrip(stream[..HeaderSize]);
        assert stream == stream[..HeaderSize] + body[..n] + body[n..];
        ReadOutcome(true, Packet(h, body[..n]), body[n..])
      else
        ReadOutcome(false, Packet(h, Resize(prior.data, n)), body)
  }

  /** What a reader makes of a writer's header and payload, whatever the
      payload's size: it trusts the header's length, so it takes that many
      bytes from the payload and from whatever follows it. */
  lemma ReadOfWrittenFrame(h: PacketHeader, payload: seq<uint8>, rest: seq<uint8>, prior: Packet)
    ensures var after := payload + rest;
            var r := ReadFrame(EncodeHeader(h) + after, prior);
            if h.length as int <= |after|
            then r == ReadOutcome(true, Packet(h, after[..h.length]), after[h.length..])
            else r == ReadOutcome(false, Packet(h, Resize(prior.data, h.length as int)), after)
  {
    var stream := EncodeHeader(h) + (payload + rest);
    assert stream[..HeaderSize] == EncodeHeader(h);
    assert stream[HeaderSize..] == payload + rest;
    HeaderRoundTrip(h);
  }

  /** Reading back a well-formed packet yields that packet and leaves the
      bytes written after it untouched. */
  lemma FrameRoundTrip(p: Packet, rest: seq<uint8>, prior: Packet)
    requires WellFormed(p)
    ensures ReadFrame(Frame(p) + rest, prior) == ReadOutcome(true, p, rest)
  {
    ReadOfWrittenFrame(p.header, p.data, rest, prior);
    assert EncodeHeader(p.header) + (p.data + rest) == Frame(p) + rest;
    assert (p.data + rest)[..p.header.length] == p.data;
    assert (p.data + rest)[p.header.length..] == rest;
  }

  /** The frames of `ps`, back to back, in writing order. */
  function Frames(ps: seq<Packet>): seq<uint8> {
    if ps == [] then [] else Frame(ps[0]) + Frames(ps[1..])
  }

  /** `k` successive reads, each reusing the packet the previous one left;
      the packets read so far, in order, and whether all `k` succeeded. */
  function ReadFrames(stream: seq<uint8>, k: nat, prior: Packet): (bool, seq<Packet>, seq<uint8>) {
    if k == 0 then (true, [], stream)
    else
      var first := ReadFrame(stream, prior);
      if !first.ok then (false, [], first.rest)
      else
        var more := ReadFrames(first.rest, k - 1, first.packet);
        (more.0, [first.packet] + more.1, more.2)
  }

  /** Within one stream, packets are read in the order they were written,
      and each comes back intact. */
  lemma {:induction false} FramesReadInOrder(ps: seq<Packet>, rest: seq<uint8>, prior: Packet)
    requires forall i :: 0 <= i < |ps| ==> WellFormed(ps[i])
    ensures ReadFrames(Frames(ps) + rest, |ps|, prior) == (true, ps, rest)
  {
    if ps != [] {
      assert Frames(ps) + rest == Frame(ps[0]) + (Frames(ps[1..]) + rest);
      FrameRoundTrip(ps[0], Frames(ps[1..]) + rest, prior);
      FramesReadInOrder(ps[1..], rest, ps[0]);
      assert [ps[0]] + ps[1..] == ps;
    } else {
      assert Frames(ps) + rest == rest;
    }
  }
}
