# CommunicationSDK packet transports, modelled in Dafny

CommunicationSDK moves typed, length-delimited packets between processes
over four transports: a duplex named pipe, an anonymous pipe pair, a named
shared-memory region and a TCP socket. A packet is a 12-byte header
(`type`, `length`, `sequence_num`, three unsigned 32-bit fields) followed by
`length` payload bytes. Each transport wraps one or two operating-system
handles, guards them with an invalid sentinel, and frames packets onto its
byte transfer primitive.

This model covers:

- **`Packets`** (`packet.dfy`): the header's byte layout, as a `memcpy` of the
  record produces it on a little-endian Windows host. It has encode/decode
  functions with both round trips, plus `std::vector::resize` as the reader
  applies it to the payload buffer.
- **`Handles`** (`handles.dfy`): handle values and their sentinels. It also
  defines `OsCall`, the release calls a `Close` makes. `Close` returns these
  calls, so releasing twice is visible.
- **`Streams`** (`stream.dfy`): the two-phase read both pipes share, as a
  function on the stream of bytes in flight. It proves that reading after
  writing gives back the packet and leaves later bytes untouched. It also
  proves that successive packets are read in the order written.
- **`NamedPipes`, `AnonymousPipes`** (`named_pipe.dfy`, `anonymous_pipe.dfy`):
  one class per transport, with its handle fields and a `channel` stream. The
  classes' methods are proved against the functions in `Streams`.
- **`SharedMemories`** (`shared_memory.dfy`): a class whose mapped view is an
  `array` (null when unmapped), with `memory_size_` kept separately. `Write`
  and `Read` copy in place, and store/load functions on the region specify
  them. Two objects may hold the same array, as two processes mapping one
  region do.
- **`Sockets`** (`socket.dfy`): the socket class. The module states, for
  every packet and every following bytes, the whole outcome of the
  4-byte-prefix `Read` on what `Write` sends: result, packet and unread bytes.
- **`Scenarios`** (`scenarios.dfy`): callers that use only the classes'
  contracts. They cover a named-pipe hello-world exchange, ordered delivery
  on an anonymous pipe, a shared region written by its creator and read by a
  process that opened it, the over-capacity write, a pipe write torn between
  header and payload, the socket `Command` packet, and closing twice.

Each operating-system call that creates, maps, connects or writes becomes a
parameter carrying its result: the handle or view returned, or whether the
call succeeded. The model then follows the code's own checks of that result.
A pipe `Write` makes two `WriteFile` calls joined by `&&`, so it has two such
parameters, and a failed payload write leaves the header alone in the stream.
Reads are the exception: a read fails exactly when the stream lacks the bytes
it asks for (see Left out).

The stream transports carry one stream per object. `Write` appends at its
tail and `Read` consumes from its head, so a `Read` after a `Write` on the same
object sees what the peer would. Each transfer moves all of its bytes or
fails. A read that asks for more bytes than the stream holds fails and
consumes nothing more.

Where the design intent and the code differ, the model follows
the code:

- The pipes write `data.size()` payload bytes, not `header.length` bytes. Their
  byte count is a 32-bit DWORD (`Streams.WrittenPayload`).
- The shared-memory write check compares `header.length` alone with
  `memory_size_`. So the 64-byte region and 70-byte frame scenario is accepted
  as written, and only the corrected check refuses it.

## Model

| member | source | states |
|---|---|---|
| `Packets.Tag` | code/interface/CommunicationSDK.hpp:21-26 | each `PacketType` enumerator's underlying value is below 4 and names that enumerator back |
| `Packets.FromTag` | code/interface/CommunicationSDK.hpp:21-26 | a raw 32-bit tag names an enumerator exactly when it is below 4 |
| `Packets.U32RoundTrip` | code/interface/CommunicationSDK.hpp:29-33 | a uint32 field copied to its 4 host-order bytes and back is unchanged |
| `Packets.U32BytesRoundTrip` | code/interface/CommunicationSDK.hpp:29-33 | any 4 bytes read as a uint32 field and copied out again are unchanged |
| `Packets.EncodeHeader` | code/interface/CommunicationSDK.hpp:29-33 | the header block is sizeof(PacketHeader) = 12 bytes |
| `Packets.DecodeHeader` | code/interface/CommunicationSDK.hpp:80 | copying 12 bytes into the header record sets each field to the little-endian word at its offset: type from bytes 0-3, length from 4-7, sequence number from 8-11 |
| `Packets.HeaderRoundTrip` | code/interface/CommunicationSDK.hpp:29-33 | a header copied out as 12 bytes and back has the same type, length and sequence number |
| `Packets.HeaderBytesRoundTrip` | code/interface/CommunicationSDK.hpp:29-33 | any 12 bytes copied into a header and out again are unchanged, so a reader accepts every byte pattern as a header |
| `Packets.Frame` | code/interface/CommunicationSDK.hpp:272-275 | a packet on the wire takes 12 + data.size() bytes |
| `Packets.Resize` | code/interface/CommunicationSDK.hpp:81 | resizing the payload buffer keeps the common prefix and zero-fills new elements |
| `Streams.WrittenPayload` | code/interface/CommunicationSDK.hpp:72 | the pipe payload write sends a prefix of the payload, and the whole payload when its size fits a DWORD |
| `Streams.ReadFrame` | code/interface/CommunicationSDK.hpp:78-87 | a pipe read consumes only a prefix of the stream; on success the returned packet is well formed and its frame is exactly the bytes consumed; it fails leaving the packet untouched when fewer than 12 bytes are there; it fails with the header set and the payload buffer resized, the header consumed, when the announced payload is not all there |
| `Streams.ReadOfWrittenFrame` | code/interface/CommunicationSDK.hpp:69-87 | a reader given a writer's header takes exactly `length` bytes from the payload and what follows it, whatever the payload's real size |
| `Streams.FrameRoundTrip` | code/interface/CommunicationSDK.hpp:69-87 | reading after writing a packet whose length equals its payload size yields that packet and leaves the following bytes untouched |
| `Streams.FramesReadInOrder` | code/interface/CommunicationSDK.hpp:69-87 | packets written one after another on a stream are read back intact and in writing order |
| `NamedPipes.NamedPipe.constructor` | code/interface/CommunicationSDK.hpp:44 | a new pipe object holds the invalid handle |
| `NamedPipes.NamedPipe.Create` | code/interface/CommunicationSDK.hpp:47-58 | the handle CreateNamedPipeW returned is stored unconditionally; success means it is not the invalid sentinel |
| `NamedPipes.NamedPipe.Connect` | code/interface/CommunicationSDK.hpp:60-67 | succeeds exactly when the pipe is open and a client connects; on a closed pipe it fails without consulting the connection |
| `NamedPipes.NamedPipe.Write` | code/interface/CommunicationSDK.hpp:69-76 | succeeds exactly when the pipe is open and both WriteFile calls succeed; the header block is appended when the pipe is open and the header write succeeds, the payload only after it and only when its own write succeeds, so a failed payload write leaves a bare header; on a closed pipe nothing changes |
| `NamedPipes.NamedPipe.Read` | code/interface/CommunicationSDK.hpp:78-87 | on an open pipe behaves as `Streams.ReadFrame` on the stream; on a closed one fails and changes nothing |
| `NamedPipes.NamedPipe.Close` | code/interface/CommunicationSDK.hpp:89-95 | disconnects and closes an open handle once and resets it; on a closed pipe releases nothing |
| `AnonymousPipes.AnonymousPipe.constructor` | code/interface/CommunicationSDK.hpp:104 | both ends start invalid |
| `AnonymousPipes.AnonymousPipe.Create` | code/interface/CommunicationSDK.hpp:107-113 | on success stores both ends CreatePipe returned; on failure changes nothing |
| `AnonymousPipes.AnonymousPipe.Write` | code/interface/CommunicationSDK.hpp:115-122 | through the write end, succeeds exactly when that end is valid and both WriteFile calls succeed; the header block is appended when the header write succeeds, the payload only after it and when its write succeeds; an invalid end changes nothing |
| `AnonymousPipes.AnonymousPipe.Read` | code/interface/CommunicationSDK.hpp:124-133 | through the read end, behaves as `Streams.ReadFrame`; fails and changes nothing when that end is invalid |
| `AnonymousPipes.AnonymousPipe.Close` | code/interface/CommunicationSDK.hpp:135-144 | closes each open end once, read end first, and resets both; a second call releases nothing |
| `SharedMemories.StoreFrame` | code/interface/CommunicationSDK.hpp:190-191 | after a write the region starts with the packet's frame and every byte beyond it is unchanged |
| `SharedMemories.LoadFrame` | code/interface/CommunicationSDK.hpp:198-200 | the packet read from a region is well formed and its frame is exactly the region's first 12 + length bytes |
| `SharedMemories.RegionRoundTrip` | code/interface/CommunicationSDK.hpp:188-201 | writing a packet whose length equals its payload size and reading the region back yields that packet |
| `SharedMemories.WriteAccepted` | code/interface/CommunicationSDK.hpp:189 | the write check never refuses a well-formed packet whose frame fits the region |
| `SharedMemories.AcceptedWriteOverruns` | code/interface/CommunicationSDK.hpp:189-191 | for every capacity, some well-formed packet passes the write check yet needs 12 bytes more than the region has |
| `SharedMemories.UncheckedReadOverruns` | code/interface/CommunicationSDK.hpp:198-200 | for every capacity of at least 12, some region of that size announces more payload than it holds |
| `SharedMemories.SharedMemory.constructor` | code/interface/CommunicationSDK.hpp:157 | invalid handle, no view, size 0 |
| `SharedMemories.SharedMemory.Create` | code/interface/CommunicationSDK.hpp:160-174 | stores the mapping handle unconditionally; on success records the requested size and maps the region: a region of that name that already exists is mapped as it is, a new one as a fresh zero-filled view of the requested size; a failed, unchecked mapping leaves no view |
| `SharedMemories.SharedMemory.Open` | code/interface/CommunicationSDK.hpp:176-186 | stores the handle; when it is valid adopts the existing view; succeeds and takes the reported size only when that view is non-null |
| `SharedMemories.SharedMemory.Write` | code/interface/CommunicationSDK.hpp:188-195 | succeeds exactly when `length <= memory_size_`, then the view holds the frame followed by its old bytes; when refused the view is byte-for-byte unchanged |
| `SharedMemories.SharedMemory.Read` | code/interface/CommunicationSDK.hpp:197-202 | always succeeds and yields the packet whose frame starts the view |
| `SharedMemories.SharedMemory.WriteChecked` | code/interface/CommunicationSDK.hpp:188-195 | succeeds exactly when a view is mapped and 12 + data.size() fits in `memory_size_`; otherwise the view is unchanged |
| `SharedMemories.SharedMemory.ReadChecked` | code/interface/CommunicationSDK.hpp:197-202 | succeeds exactly when the first `memory_size_` bytes hold a header and its payload, and then yields that packet; otherwise leaves the packet as it was |
| `SharedMemories.SharedMemory.Close` | code/interface/CommunicationSDK.hpp:204-214 | unmaps a mapped view and closes an open handle once each, then leaves no view, the invalid handle and size 0; a second call releases nothing |
| `Sockets.WrapSub` | code/interface/CommunicationSDK.hpp:284 | unsigned 32-bit subtraction: the result plus the subtrahend is the minuend modulo 2^32 |
| `Sockets.ReceivePacket` | code/interface/CommunicationSDK.hpp:280-290 | a socket read never changes the packet's type or sequence number and consumes only a prefix of the stream; fewer than 4 bytes fail consuming nothing; a zero prefix fails after consuming it, leaving the packet as it was; a nonzero prefix sets length to prefix - 12 modulo 2^32, and the read succeeds exactly when that many bytes follow, consuming the prefix and the payload; otherwise it fails with the buffer resized and only the prefix consumed |
| `Sockets.ReceiveOfSentFrame` | code/interface/CommunicationSDK.hpp:271-290 | fed what `Write` sends and any bytes after it, the reader takes the type tag as the total length: tag 0 fails consuming the tag only; any other gives length = tag - 12 modulo 2^32 with type and sequence number untouched, and the read's whole outcome (result, payload, unread bytes) is stated for both cases of whether that many bytes follow |
| `Sockets.SentPacketNotReceived` | code/interface/CommunicationSDK.hpp:271-290 | for a packet of a declared type that `Write` can send, a successful `Read` announces more payload than was sent and never returns the packet |
| `Sockets.Socket.constructor` | code/interface/CommunicationSDK.hpp:225 | a new socket object holds INVALID_SOCKET |
| `Sockets.Socket.Create` | code/interface/CommunicationSDK.hpp:228-231 | stores what socket() returned; success means it is valid |
| `Sockets.Socket.Bind` | code/interface/CommunicationSDK.hpp:233-242 | succeeds exactly when the socket is open and bind() succeeds |
| `Sockets.Socket.Listen` | code/interface/CommunicationSDK.hpp:244-249 | succeeds exactly when the socket is open and listen() succeeds |
| `Sockets.Socket.Accept` | code/interface/CommunicationSDK.hpp:251-258 | changes only the target socket's handle, and only on success, to the accepted connection |
| `Sockets.Socket.Connect` | code/interface/CommunicationSDK.hpp:260-269 | succeeds exactly when the socket is open and connect() succeeds |
| `Sockets.Socket.Write` | code/interface/CommunicationSDK.hpp:271-278 | succeeds exactly when the socket is open and send() succeeds, and then appends one buffer, the header block then the payload; otherwise changes nothing |
| `Sockets.Socket.Read` | code/interface/CommunicationSDK.hpp:280-290 | on an open socket behaves as `Sockets.ReceivePacket`; otherwise fails and changes nothing |
| `Sockets.Socket.ReadFramed` | code/interface/CommunicationSDK.hpp:280-290 | receives the full header block and then its payload, as `Streams.ReadFrame`, so it inverts `Write` |
| `Sockets.Socket.Close` | code/interface/CommunicationSDK.hpp:292-297 | closes an open socket once and resets it; a second call releases nothing |
| `Scenarios.NamedPipeHelloWorld` | code/interface/CommunicationSDK.hpp:47-87 | {Data, 11, 1, "hello world"} written on a named pipe is read back with all three header fields and the payload |
| `Scenarios.NamedPipeTornWrite` | code/interface/CommunicationSDK.hpp:69-87 | when a payload write fails after its header went out and the next packet is written in full, a reader trusting the bare header takes the next packet's whole frame as payload and reports success |
| `Scenarios.AnonymousPipeInOrder` | code/interface/CommunicationSDK.hpp:107-133 | two packets written on an anonymous pipe are read back intact, in order, and the pipe is then empty |
| `Scenarios.SharedMemoryRoundTrip` | code/interface/CommunicationSDK.hpp:160-202 | a packet written by the region's creator is read back by another object that opened the same region |
| `Scenarios.SharedMemoryOverCapacity` | code/interface/CommunicationSDK.hpp:188-195 | a 70-byte frame and a 64-byte region: the check as written accepts it, the corrected check refuses it and the region stays zero |
| `Scenarios.SocketCommandRun` | code/interface/CommunicationSDK.hpp:271-290 | {Command, 3, 7, "run"}: the read as written asks for 2^32 - 9 bytes and fails with type and sequence untouched; the full-header read returns the packet |
| `Scenarios.NamedPipeCloseTwice` | code/interface/CommunicationSDK.hpp:89-95 | a second `Close` releases nothing; closing a never-opened pipe releases nothing |

## Left out

- The Win32 and Winsock calls are not modelled. The result of each call that creates, maps, connects or writes is a parameter, and the model follows the code's check of it; reads are covered by the lines below. A call on an invalid handle is taken to fail.
- Failure conventions of those calls are outside the model. CreateFileMappingW and OpenFileMappingW report failure with a null handle, not the invalid sentinel the code compares against. GetFileSize is given a mapping handle rather than a file handle.
- Pipe and mapping names, and socket addresses and ports, are not modelled. `inet_pton`, `htons` and the `sockaddr_in` set-up are not modelled either. Bind, Listen and Connect keep only their outcome.
- Partial transfers are not modelled. `bytes_written`, `bytes_read` and the `recv` count are ignored by the code. A `recv` that returns 0 at an orderly shutdown is treated like a read short of bytes.
- Blocking is not modelled, nor are message-mode pipe semantics, the 1024-byte pipe buffers and the instance limit.
- The peer process is not modelled. Each stream transport is one stream per object (a loopback view): the duplex named pipe's two directions, and the two endpoints of a socket connection, are not separate.
- Concurrent access and cross-process races on the shared region are not modelled. The code has no synchronisation.
- Destructors are not modelled. They call `Close`, which is modelled. Implicit copying of the transport objects, which would release a handle twice, is not modelled either.
- `AnonymousPipe::GetReadHandle` and `GetWriteHandle` are not separate members. The model's handle fields are readable directly.
- `std::vector::resize` failing to allocate for a huge announced length is not modelled.
- NamedPipes.NamedPipe.Read: a ReadFile that fails for another reason than missing bytes (a broken pipe, an error) is not modelled; the read fails only when the stream lacks the bytes it asks for.
- AnonymousPipes.AnonymousPipe.Read: as `NamedPipes.NamedPipe.Read`, a ReadFile failure other than missing bytes is not modelled.
- Sockets.Socket.Read: a `recv` that returns SOCKET_ERROR with bytes still in flight (a reset connection) is not modelled; the read fails only when the stream lacks the bytes.
- Sockets.Socket.ReadFramed: as `Sockets.Socket.Read`, a `recv` error other than missing bytes is not modelled.
- `send` and `recv` take an `int` byte count, so counts of 2^31 bytes or more are not modelled. Those calls are opaque.
- example/example.cpp is not part of this model. It uses a different header and API.
- Sockets.Socket.Write: requires 12 + data.size() < 2^32. Otherwise `packet_length` wraps, the buffer is too small and the copies overrun it.
- SharedMemories.SharedMemory.Write: requires that a view is mapped and holds 12 + data.size() bytes whenever the code's check passes. The code does not ensure this; see Findings.
- SharedMemories.SharedMemory.Read: requires a mapped view that holds the announced frame. The code checks nothing; see Findings.

## Findings

| source | as written | input that shows it | evidently intended | confidence | as-written member | corrected member |
|---|---|---|---|---|---|---|
| code/interface/CommunicationSDK.hpp:189-191 | checks `header.length <= memory_size_`, then copies 12 + `data.size()` bytes | `memory_size_` 64, header length 58 with a 58-byte payload: accepted, and 70 bytes are copied into 64 | check 12 + `data.size()` against `memory_size_` | high; not executed | `SharedMemories.AcceptedWriteOverruns` (with `SharedMemories.SharedMemory.Write`) | `SharedMemories.SharedMemory.WriteChecked` |
| code/interface/CommunicationSDK.hpp:198-200 | copies 12 + the stored length out of the region with no bound | a 64-byte region whose header announces a 64-byte payload: 76 bytes are read | fail unless 12 + length fits in `memory_size_` | high; not executed | `SharedMemories.UncheckedReadOverruns` (with `SharedMemories.SharedMemory.Read`) | `SharedMemories.SharedMemory.ReadChecked` |
| code/interface/CommunicationSDK.hpp:271-290 | `Write` sends the whole header; `Read` takes the first 4 bytes (the type tag) as the total length | {Command, 3, 7, "run"}: the reader asks for 2^32 - 9 payload bytes and fails; an `Unknown` packet is rejected | `Read` receives the 12-byte header, then `length` payload bytes | high; not executed | `Sockets.SentPacketNotReceived` (with `Sockets.Socket.Read`) | `Sockets.Socket.ReadFramed` |
