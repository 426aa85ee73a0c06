// src/Socket.cc and the kernel's end of a connected socket: the bytes it has taken, in order,
// and what it had taken at each call that shuts down the write side.

module Sockets {
  import opened Common

  class Socket {
    const fd: nat
    var wire: seq<Byte>
    var halfCloses: seq<seq<Byte>>

    constructor (fd: nat)
      ensures this.fd == fd && wire == [] && halfCloses == []
    {
      this.fd := fd;
      wire, halfCloses := [], [];
    }

    // write(2) with the kernel's answer given: it takes a prefix of what it is offered, or nothing.
    method Write(data: seq<Byte>, answer: IoResult) returns (n: int)
      requires answer.Done? ==> answer.n <= |data|
      modifies this`wire
      ensures n == if answer.Done? then answer.n else -1
      ensures wire == old(wire) + if answer.Done? then data[..answer.n] else []
    {
      n := -1;
      if answer.Done? {
        wire := wire + data[..answer.n];
        n := answer.n;
      }
    }

    // sendfile(2): a stretch of the file from offset on, or nothing.
    method Sendfile(file: seq<Byte>, offset: int, count: nat, answer: IoResult) returns (n: int, newOffset: int)
      requires answer.Done? ==> answer.n <= count
      requires answer.Done? && 0 < answer.n ==> 0 <= offset && offset + answer.n <= |file|
      modifies this`wire
      ensures n == if answer.Done? then answer.n else -1
      ensures newOffset == offset + if answer.Done? then answer.n else 0
      ensures wire == old(wire) +
        if answer.Done? && 0 < answer.n then file[offset..offset + answer.n] else []
    {
      n, newOffset := -1, offset;
      if answer.Done? {
        if 0 < answer.n {
          wire := wire + file[offset..offset + answer.n];
        }
        n, newOffset := answer.n, offset + answer.n;
      }
    }

    method ShutdownWrite()
      modifies this`halfCloses
      ensures halfCloses == old(halfCloses) + [wire]
    {
      halfCloses := halfCloses + [wire];
    }
  }
}
