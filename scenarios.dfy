/** End-to-end uses of the transports through their method contracts only:
    what a caller can rely on when it writes a packet on one end and reads
    on the other. */
module Scenarios {

  import opened Packets
  import opened Handles
  import opened Streams
  import NamedPipes
  import AnonymousPipes
  import SharedMemories
  import Sockets

  /** The bytes of "hello world". */
  const HelloWorld: seq<uint8> := [104, 101, 108, 108, 111, 32, 119, 111, 114, 108, 100]

  /** A packet with nothing in it, as a reader declares it before `Read`. */
  const EmptyPacket: Packet := Packet(PacketHeader(0, 0, 0), [])

  /** A named pipe server sends {Data, 11, 1, "hello world"}; the reader
      gets back all three header fields and the 11 payload bytes. */
  method NamedPipeHelloWorld(server: Handle) returns (ok: bool, received: Packet)
    requires server != InvalidHandle
    ensures ok && received == Packet(PacketHeader(Tag(Data), 11, 1), HelloWorld)
  {
    var sent := Packet(PacketHeader(Tag(Data), 11, 1), HelloWorld);
    var pipe := new NamedPipes.NamedPipe();
    var created := pipe.Create(server);
    var connected := pipe.Connect(true);
    var written := pipe.Write(sent, true, true);
    FrameRoundTrip(sent, [], EmptyPacket);
    ok, received := pipe.Read(EmptyPacket);
  }

  /** The payload write of `p` fails after its header went out, and `q` is
      then written in full. The reader trusts `p`'s header: when it
      announces as many bytes as `q`'s frame holds, it reads `q`'s whole
      frame as `p`'s payload and reports success, and `q` is lost. */
  method NamedPipeTornWrite(server: Handle, p: Packet, q: Packet)
    returns (firstOk: bool, secondOk: bool, readOk: bool, received: Packet)
    requires server != InvalidHandle
    requires WellFormed(q) && p.header.length as int == HeaderSize + |q.data|
    ensures !firstOk && secondOk
    ensures readOk && received == Packet(p.header, Frame(q))
  {
    var pipe := new NamedPipes.NamedPipe();
    var created := pipe.Create(server);
    firstOk := pipe.Write(p, true, false);
    assert pipe.channel == EncodeHeader(p.header);
    secondOk := pipe.Write(q, true, true);
    assert pipe.channel == EncodeHeader(p.header) + (Frame(q) + []);
    ReadOfWrittenFrame(p.header, Frame(q), [], EmptyPacket);
    readOk, received := pipe.Read(EmptyPacket);
  }

  /** Two packets written through an anonymous pipe come out of its read
      end in the order they went in, and the pipe is empty afterwards. */
  method AnonymousPipeInOrder(readEnd: Handle, writeEnd: Handle, p: Packet, q: Packet)
    returns (first: Packet, second: Packet, drained: bool)
    requires readEnd != InvalidHandle && writeEnd != InvalidHandle
    requires WellFormed(p) && WellFormed(q)
    ensures first == p && second == q && drained
  {
    var pipe := new AnonymousPipes.AnonymousPipe();
    var created := pipe.Create(true, readEnd, writeEnd);
    var ok := pipe.Write(p, true, true);
    assert pipe.channel == Frame(p);
    ok := pipe.Write(q, true, true);
    assert pipe.channel == Frame(p) + (Frame(q) + []);
    FrameRoundTrip(p, Frame(q) + [], EmptyPacket);
    ok, first := pipe.Read(EmptyPacket);
    assert first == p && pipe.channel == Frame(q) + [];
    FrameRoundTrip(q, [], first);
    ok, second := pipe.Read(first);
    drained := pipe.channel == [];
  }

  /** One process creates a region of a new name and writes; another opens
      the same region by name and reads the packet back. */
  method SharedMemoryRoundTrip(owner: Handle, peer: Handle, capacity: uint32, p: Packet)
    returns (ok: bool, received: Packet)
    requires owner != InvalidHandle && peer != InvalidHandle
    requires WellFormed(p) && HeaderSize + |p.data| <= capacity as int
    ensures ok && received == p
  {
    var writer := new SharedMemories.SharedMemory();
    var created := writer.Create(owner, capacity, null, true);
    var reader := new SharedMemories.SharedMemory();
    var attached := reader.Open(peer, writer.view, capacity);
    ghost var before := writer.view[..];
    var written := writer.WriteChecked(p);
    SharedMemories.RegionRoundTrip(before, p);
    assert reader.view[..reader.size] == reader.view[..];
    ok, received := reader.ReadChecked(EmptyPacket);
  }

  /** A new 64-byte region and a packet whose frame needs 70 bytes: the check as
      written lets it through (so the copy would run past the region), the
      corrected check refuses it and the region stays zero. */
  method SharedMemoryOverCapacity(mapping: Handle) returns (acceptedAsWritten: bool, ok: bool, region: seq<uint8>)
    requires mapping != InvalidHandle
    ensures acceptedAsWritten && !ok && region == seq(64, _ => 0)
  {
    var p := Packet(PacketHeader(Tag(Data), 58, 0), seq(58, _ => 0));
    var memory := new SharedMemories.SharedMemory();
    var created := memory.Create(mapping, 64, null, true);
    acceptedAsWritten := SharedMemories.WriteAccepted(p, memory.size);
    ok := memory.WriteChecked(p);
    region := memory.view[..];
  }

  /** {Command, 3, 7, "run"} over a socket. The read as written takes the
      type tag 3 as the total length, asks for 2^32 - 9 payload bytes and
      fails, with type and sequence number still those of the empty packet;
      the read that receives the full header gets the packet back. */
  method SocketCommandRun(connection: Handle) returns (okAsWritten: bool, asWritten: Packet, okFramed: bool, received: Packet)
    requires connection != InvalidSocket
    ensures !okAsWritten && asWritten.header == PacketHeader(0, 0xFFFF_FFF7, 0)
    ensures okFramed && received == Packet(PacketHeader(Tag(Command), 3, 7), [114, 117, 110])
  {
    var sent := Packet(PacketHeader(Tag(Command), 3, 7), [114, 117, 110]);
    var client := new Sockets.Socket();
    var created := client.Create(connection);
    var written := client.Write(sent, true);
    Sockets.ReceiveOfSentFrame(sent, [], EmptyPacket);
    assert client.channel == Frame(sent) + [];
    okAsWritten, asWritten := client.Read(EmptyPacket);

    var fixed := new Sockets.Socket();
    created := fixed.Create(connection);
    written := fixed.Write(sent, true);
    FrameRoundTrip(sent, [], EmptyPacket);
    assert fixed.channel == Frame(sent) + [];
    okFramed, received := fixed.ReadFramed(EmptyPacket);
  }

  /** Closing a named pipe twice releases its handle once; closing one that
      was never opened releases nothing. */
  method NamedPipeCloseTwice(created: Handle) returns (first: seq<OsCall>, second: seq<OsCall>)
    ensures first == if created != InvalidHandle
                     then [DisconnectNamedPipe(created), CloseHandle(created)] else []
    ensures second == []
  {
    var pipe := new NamedPipes.NamedPipe();
    var ok := pipe.Create(created);
    first := pipe.Close();
    second := pipe.Close();
  }
}
