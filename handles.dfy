/** Operating-system resources as the transports see them: opaque handle
    values compared against an invalid sentinel, and the release calls a
    `Close` makes. */
module Handles {

  import opened Packets

  /** A HANDLE or SOCKET value returned by the operating system. */
  type Handle = int

  /** INVALID_HANDLE_VALUE: the "no pipe / no mapping" sentinel. */
  const InvalidHandle: Handle := -1

  /** INVALID_SOCKET: the "no socket" sentinel. */
  const InvalidSocket: Handle := -1

  /** One release call handed to the operating system. */
  datatype OsCall =
    | DisconnectNamedPipe(pipe: Handle)
    | CloseHandle(handle: Handle)
    | UnmapViewOfFile(view: array<uint8>)
    | CloseSocket(socket: Handle)
}
