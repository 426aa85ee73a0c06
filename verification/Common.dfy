// What several parts of the model share: bytes, the two state enumerations, what a system call
// can answer, and the ends of a sequence.

module Common {
  newtype Byte = x: int | 0 <= x < 256

  datatype Option<+T> = None | Some(value: T)

  // TcpConnection::StateE.
  datatype StateE = Disconnected | Connecting | Connected | Disconnecting

  // Channel::index_: kNew, kAdded, kDeleted.
  datatype Index = New | Added | Deleted

  // The errno values the program distinguishes; every other one is EOther.
  datatype Errno = EWouldBlock | EPipe | EConnReset | EOther

  // The answer of write, sendfile or shutdown: a count, or -1 with errno.
  datatype IoResult = Done(n: nat) | Failed(errno: Errno)

  // EPIPE and ECONNRESET are the two errors the connection gives up on.
  predicate IsFault(r: IoResult) {
    r.Failed? && (r.errno == EPipe || r.errno == EConnReset)
  }

  function Max(a: nat, b: nat): nat {
    if a < b then b else a
  }

  function Front<T>(s: seq<T>): seq<T>
    requires s != []
  {
    s[..|s| - 1]
  }

  function Last<T>(s: seq<T>): T
    requires s != []
  {
    s[|s| - 1]
  }
}
