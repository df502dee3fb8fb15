/** The wire unit shared by every transport: a 12-byte header of three
    unsigned 32-bit fields, stored in the host's (little-endian) byte order
    exactly as a `memcpy` of the header record lays it out, followed by the
    payload bytes. */
module Packets {

  newtype uint8 = x: int | 0 <= x < 0x100
  newtype uint32 = x: int | 0 <= x < 0x1_0000_0000

  /** 2^32: the modulus of unsigned 32-bit arithmetic. */
  const Modulus32: int := 0x1_0000_0000

  /** sizeof(PacketHeader): three 4-byte fields, no padding. */
  const HeaderSize: nat := 12

  datatype Option<+T> = None | Some(value: T)

  /** The closed set of tags an application may put in a header. */
  datatype PacketType = Unknown | Message | Data | Command

  /** The underlying uint32_t of each enumerator, in declaration order. */
  function Tag(t: PacketType): (r: uint32)
    ensures r < 4
    ensures FromTag(r) == Some(t)
  {
    match t
    case Unknown => 0
    case Message => 1
    case Data => 2
    case Command => 3
  }

  /** The enumerator a raw tag names, if any: a header copied in from the
      wire may carry any 32-bit value in its type field. */
  function FromTag(x: uint32): (r: Option<PacketType>)
    ensures r.Some? <==> x < 4
  {
    if x == 0 then Some(Unknown)
    else if x == 1 then Some(Message)
    else if x == 2 then Some(Data)
    else if x == 3 then Some(Command)
    else None
  }

  /** `kind` is the raw type tag (see `Tag`), `length` the payload size and
      `sequenceNum` a caller-supplied token passed through untouched. */
  datatype PacketHeader = PacketHeader(kind: uint32, length: uint32, sequenceNum: uint32)

  datatype Packet = Packet(header: PacketHeader, data: seq<uint8>)

  /** The invariant a writer is expected to keep: the header announces
      exactly the payload it travels with. */
  predicate WellFormed(p: Packet) {
    |p.data| == p.header.length as int
  }

  /** A uint32 as its four bytes, least significant first. */
  function EncodeU32(x: uint32): (r: seq<uint8>)
    ensures |r| == 4
  {
    var n0 := x as int;
    var n1 := n0 / 0x100;
    var n2 := n1 / 0x100;
    [(n0 % 0x100) as uint8, (n1 % 0x100) as uint8, (n2 % 0x100) as uint8, (n2 / 0x100) as uint8]
  }

  /** Four bytes, least significant first, read back as a uint32. */
  function DecodeU32(b: seq<uint8>): (r: uint32)
    requires |b| == 4
  {
    (b[0] as int + 0x100 * (b[1] as int + 0x100 * (b[2] as int + 0x100 * b[3] as int))) as uint32
  }

  lemma U32RoundTrip(x: uint32)
    ensures DecodeU32(EncodeU32(x)) == x
  {
    var n0 := x as int;
    var n1 := n0 / 0x100;
    var n2 := n1 / 0x100;
    assert n0 == n0 % 0x100 + 0x100 * n1;
    assert n1 == n1 % 0x100 + 0x100 * n2;
    assert n2 == n2 % 0x100 + 0x100 * (n2 / 0x100);
  }

  lemma U32BytesRoundTrip(b: seq<uint8>)
    requires |b| == 4
    ensures EncodeU32(DecodeU32(b)) == b
  {
    var n2 := b[2] as int + 0x100 * b[3] as int;
    var n1 := b[1] as int + 0x100 * n2;
    var n0 := b[0] as int + 0x100 * n1;
    assert n0 / 0x100 == n1 && n0 % 0x100 == b[0] as int;
    assert n1 / 0x100 == n2 && n1 % 0x100 == b[1] as int;
    assert n2 / 0x100 == b[3] as int && n2 % 0x100 == b[2] as int;
  }

  /** The header block as `memcpy` copies it: type, length, sequence number. */
  function EncodeHeader(h: PacketHeader): (r: seq<uint8>)
    ensures |r| == HeaderSize
  {
    EncodeU32(h.kind) + EncodeU32(h.length) + EncodeU32(h.sequenceNum)
  }

  /** A header block copied back into the record: each field is the
      little-endian word whose bytes sit at its offset (0, 4 and 8). */
  function DecodeHeader(b: seq<uint8>): (r: PacketHeader)
    requires |b| == HeaderSize
    ensures EncodeU32(r.kind) == b[0..4]
    ensures EncodeU32(r.length) == b[4..8]
    ensures EncodeU32(r.sequenceNum) == b[8..12]
  {
    U32BytesRoundTrip(b[0..4]);
    U32BytesRoundTrip(b[4..8]);
    U32BytesRoundTrip(b[8..12]);
    PacketHeader(DecodeU32(b[0..4]), DecodeU32(b[4..8]), DecodeU32(b[8..12]))
  }

  lemma HeaderRoundTrip(h: PacketHeader)
    ensures DecodeHeader(EncodeHeader(h)) == h
  {
    var b := EncodeHeader(h);
    assert b[0..4] == EncodeU32(h.kind);
    assert b[4..8] == EncodeU32(h.length);
    assert b[8..12] == EncodeU32(h.sequenceNum);
    U32RoundTrip(h.kind);
    U32RoundTrip(h.length);
    U32RoundTrip(h.sequenceNum);
  }

  lemma HeaderBytesRoundTrip(b: seq<uint8>)
    requires |b| == HeaderSize
    ensures EncodeHeader(DecodeHeader(b)) == b
  {
    assert b == b[0..4] + b[4..8] + b[8..12];
  }

  /** The bytes one packet occupies on the wire: header block, then payload. */
  function Frame(p: Packet): (r: seq<uint8>)
    ensures |r| == HeaderSize + |p.data|
  {
    EncodeHeader(p.header) + p.data
  }

  /** `std::vector<char>::resize`: the common prefix is kept, any new
      elements are zero. */
  function Resize(v: seq<uint8>, n: nat): (r: seq<uint8>)
    ensures |r| == n
    ensures forall i :: 0 <= i < n && i < |v| ==> r[i] == v[i]
    ensures forall i :: |v| <= i < n ==> r[i] == 0
  {
    if n <= |v| then v[..n] else v + seq(n - |v|, _ => 0)
  }
}
