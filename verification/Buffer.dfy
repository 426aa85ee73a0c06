// include/Buffer.h and src/Buffer.cc: the growable byte array with reader and writer indices.
// Contents() is the FIFO byte queue the array stands for; Shape() is where its indices are.

module Buffers {
  import opened Common
  import opened BufferLayout
  import opened Sockets

  const EXTRA_BUF_SIZE: nat := 65536

  // What readv answers: the bytes that arrived, or an error.
  datatype ReadResult = Bytes(data: seq<Byte>) | ReadError(errno: Errno)

  // The most bytes readFd offers room for: the vector's tail, and the stack buffer if that is short.
  function ReadRoom(writable: nat): nat {
    if writable < EXTRA_BUF_SIZE then writable + EXTRA_BUF_SIZE else writable
  }

  // A forward element-by-element copy inside one array, which is what std::copy does. Like
  // std::copy it must not be given a destination inside the source range.
  method CopyForward(a: array<Byte>, first: nat, last: nat, dest: nat)
    requires dest < first <= last <= a.Length
    modifies a
    ensures forall k :: dest <= k < dest + last - first ==> a[k] == old(a[k - dest + first])
    ensures forall k :: 0 <= k < dest ==> a[k] == old(a[k])
    ensures forall k :: dest + last - first <= k < a.Length ==> a[k] == old(a[k])
  {
    var n := 0;
    while n < last - first
      invariant 0 <= n <= last - first
      invariant forall k :: dest <= k < dest + n ==> a[k] == old(a[k - dest + first])
      invariant forall k :: 0 <= k < dest ==> a[k] == old(a[k])
      invariant forall k :: dest + n <= k < a.Length ==> a[k] == old(a[k])
    {
      a[dest + n] := a[first + n];
      n := n + 1;
    }
  }

  // std::copy from outside memory, and the kernel filling an iovec.
  method CopyIn(a: array<Byte>, at: nat, data: seq<Byte>)
    requires at + |data| <= a.Length
    modifies a
    ensures a[at..at + |data|] == data
    ensures forall k :: 0 <= k < a.Length && !(at <= k < at + |data|) ==> a[k] == old(a[k])
  {
    var n := 0;
    while n < |data|
      invariant 0 <= n <= |data|
      invariant forall k :: 0 <= k < n ==> a[at + k] == data[k]
      invariant forall k :: 0 <= k < a.Length && !(at <= k < at + n) ==> a[k] == old(a[k])
    {
      a[at + n] := data[n];
      n := n + 1;
    }
  }

  class Buffer {
    var buffer: array<Byte>
    var readerIndex: nat
    var writerIndex: nat

    ghost function Shape(): Layout
      reads this
    {
      Layout(buffer.Length, readerIndex, writerIndex)
    }

    ghost predicate Valid()
      reads this
    {
      Shape().Valid()
    }

    ghost function Contents(): (s: seq<Byte>)
      reads this, buffer
      requires Valid()
      ensures |s| == Shape().Readable()
    {
      buffer[readerIndex..writerIndex]
    }

    constructor (initialSize: nat := INITIAL_SIZE)
      ensures Valid() && fresh(buffer)
      ensures Contents() == [] && Shape() == Fresh(initialSize)
    {
      buffer := new Byte[CHEAP_PREPEND + initialSize](_ => 0);
      readerIndex := CHEAP_PREPEND;
      writerIndex := CHEAP_PREPEND;
    }

    function ReadableBytes(): (n: nat)
      reads this, buffer
      requires Valid()
      ensures n == |Contents()|
    {
      writerIndex - readerIndex
    }

    function WritableBytes(): nat
      reads this
      requires Valid()
    {
      buffer.Length - writerIndex
    }

    function PrependableBytes(): nat
      reads this
    {
      readerIndex
    }

    method RetrieveAll()
      requires Valid()
      modifies this`readerIndex, this`writerIndex
      ensures Valid() && Contents() == []
      ensures Shape() == Layout(buffer.Length, CHEAP_PREPEND, CHEAP_PREPEND)
    {
      readerIndex := CHEAP_PREPEND;
      writerIndex := CHEAP_PREPEND;
    }

    // Drops a prefix of the queue; asking for more than there is empties it.
    method Retrieve(len: nat)
      requires Valid()
      modifies this`readerIndex, this`writerIndex
      ensures Valid()
      ensures Contents() == if len < |old(Contents())| then old(Contents())[len..] else []
      ensures Shape() == old(Shape()).Retrieve(len)
    {
      if len < ReadableBytes() {
        readerIndex := readerIndex + len;
      } else {
        RetrieveAll();
      }
    }

    // The source copies len bytes from peek() whatever readableBytes() is, so the only demand on
    // the caller is that they lie inside the vector.
    method RetrieveAsString(len: nat) returns (result: seq<Byte>)
      requires Valid() && readerIndex + len <= buffer.Length
      modifies this`readerIndex, this`writerIndex
      ensures Valid() && |result| == len
      ensures len <= |old(Contents())| ==> result + Contents() == old(Contents())
      ensures |old(Contents())| <= len ==> old(Contents()) <= result && Contents() == []
      ensures Shape() == old(Shape()).Retrieve(len)
    {
      result := buffer[readerIndex..readerIndex + len];
      Retrieve(len);
    }

    method RetrieveAllAsString() returns (result: seq<Byte>)
      requires Valid()
      modifies this`readerIndex, this`writerIndex
      ensures Valid() && result == old(Contents()) && Contents() == []
      ensures Shape() == old(Shape()).Retrieve(|result|)
    {
      result := RetrieveAsString(ReadableBytes());
    }

    // Private in the source and called only when the tail is too short.
    method MakeSpace(len: nat)
      requires Valid() && WritableBytes() < len
      modifies this, buffer
      ensures Valid() && Contents() == old(Contents())
      ensures Shape() == old(Shape()).Reserve(len)
      ensures buffer == old(buffer) || fresh(buffer)
    {
      if WritableBytes() + PrependableBytes() < len + CHEAP_PREPEND {
        Resize(writerIndex + len);
      } else {
        var readable := ReadableBytes();
        CopyForward(buffer, readerIndex, writerIndex, CHEAP_PREPEND);
        assert buffer[CHEAP_PREPEND..CHEAP_PREPEND + readable] == old(Contents());
        readerIndex := CHEAP_PREPEND;
        writerIndex := readerIndex + readable;
      }
    }

    // vector::resize to a larger size: the old elements stay and the new ones are zero.
    method Resize(size: nat)
      requires Valid() && buffer.Length <= size
      modifies this`buffer
      ensures Valid() && Contents() == old(Contents()) && fresh(buffer)
      ensures Shape() == old(Shape()).(size := size)
    {
      var grown := new Byte[size](_ => 0);
      CopyIn(grown, 0, buffer[..]);
      assert grown[readerIndex..writerIndex] == grown[..buffer.Length][readerIndex..writerIndex];
      buffer := grown;
    }

    method EnsureWritableBytes(len: nat)
      requires Valid()
      modifies this, buffer
      ensures Valid() && Contents() == old(Contents()) && len <= WritableBytes()
      ensures Shape() == old(Shape()).Reserve(len)
      ensures buffer == old(buffer) || fresh(buffer)
    {
      if WritableBytes() < len {
        MakeSpace(len);
      }
    }

    // The copy into the tail, which has room.
    method Fill(data: seq<Byte>)
      requires Valid() && |data| <= WritableBytes()
      modifies this`writerIndex, buffer
      ensures Valid() && Contents() == old(Contents()) + data
      ensures Shape() == old(Shape()).(writer := old(writerIndex) + |data|)
    {
      ghost var before := Contents();
      CopyIn(buffer, writerIndex, data);
      assert buffer[readerIndex..writerIndex] == before;
      writerIndex := writerIndex + |data|;
      assert Contents() == buffer[readerIndex..writerIndex - |data|] + buffer[writerIndex - |data|..writerIndex];
    }

    method Append(data: seq<Byte>)
      requires Valid()
      modifies this, buffer
      ensures Valid() && Contents() == old(Contents()) + data
      ensures Shape() == old(Shape()).Append(|data|)
      ensures buffer == old(buffer) || fresh(buffer)
    {
      EnsureWritableBytes(|data|);
      Fill(data);
    }

    // readv fills the tail of the vector first and the 64 KB stack buffer after it.
    method Readv(extrabuf: array<Byte>, data: seq<Byte>)
      requires Valid() && extrabuf != buffer
      requires |data| <= WritableBytes() + extrabuf.Length
      modifies buffer, extrabuf
      ensures Contents() == old(Contents())
      ensures |data| <= WritableBytes() ==> buffer[writerIndex..writerIndex + |data|] == data
      ensures WritableBytes() < |data| ==>
        buffer[writerIndex..] + extrabuf[..|data| - WritableBytes()] == data
    {
      if |data| <= WritableBytes() {
        CopyIn(buffer, writerIndex, data);
      } else {
        CopyIn(buffer, writerIndex, data[..WritableBytes()]);
        CopyIn(extrabuf, 0, data[WritableBytes()..]);
      }
      assert buffer[readerIndex..writerIndex] == old(buffer[readerIndex..writerIndex]);
    }

    // The tail of the vector has been filled up to `end`.
    method Advance(end: nat)
      requires Valid() && writerIndex <= end <= buffer.Length
      modifies this`writerIndex
      ensures Valid() && writerIndex == end
      ensures Contents() == old(Contents()) + old(buffer[writerIndex..end])
    {
      assert buffer[readerIndex..end] == buffer[readerIndex..writerIndex] + buffer[writerIndex..end];
      writerIndex := end;
    }

    // readFd after a readv that brought data.
    method Received(data: seq<Byte>)
      requires Valid() && |data| <= ReadRoom(WritableBytes())
      modifies this, buffer
      ensures Valid() && Contents() == old(Contents()) + data
      ensures Shape() == old(Shape()).Receive(|data|)
      ensures buffer == old(buffer) || fresh(buffer)
    {
      var extrabuf := new Byte[EXTRA_BUF_SIZE](_ => 0);
      var n, writable := |data|, WritableBytes();
      Readv(extrabuf, data);
      if n <= writable {
        Advance(writerIndex + n);
      } else {
        Overflow(extrabuf, data, n - writable);
      }
    }

    // The vector is full, and the rest of the data is in the stack buffer.
    method Overflow(extrabuf: array<Byte>, ghost data: seq<Byte>, extra: nat)
      requires Valid() && extrabuf != buffer && extra <= extrabuf.Length
      requires buffer[writerIndex..] + extrabuf[..extra] == data
      modifies this, buffer
      ensures Valid() && Contents() == old(Contents()) + data
      ensures Shape() == old(Shape()).(writer := old(buffer.Length)).Append(extra)
      ensures buffer == old(buffer) || fresh(buffer)
    {
      ghost var before, tail := Contents(), buffer[writerIndex..];
      Advance(buffer.Length);
      Append(extrabuf[..extra]);
      assert before + tail + extrabuf[..extra] == before + (tail + extrabuf[..extra]);
    }

    // Appends exactly the received bytes, wherever the two-part read left them.
    method ReadFd(arrived: ReadResult) returns (n: int, savedErrno: Option<Errno>)
      requires Valid()
      requires arrived.Bytes? ==> |arrived.data| <= ReadRoom(WritableBytes())
      modifies this, buffer
      ensures Valid()
      ensures arrived.Bytes? ==>
        && n == |arrived.data| && savedErrno == None
        && Contents() == old(Contents()) + arrived.data
        && Shape() == old(Shape()).Receive(n)
      ensures arrived.ReadError? ==>
        && n == -1 && savedErrno == Some(arrived.errno)
        && Contents() == old(Contents()) && Shape() == old(Shape())
      ensures buffer == old(buffer) || fresh(buffer)
    {
      savedErrno := None;
      match arrived {
        case ReadError(errno) =>
          n := -1;
          savedErrno := Some(errno);
        case Bytes(data) =>
          n := |data|;
          Received(data);
      }
    }

    // Offers the whole queue to the socket; what was taken stays until it is retrieved.
    method WriteFd(fd: Socket, answer: IoResult) returns (n: int, savedErrno: Option<Errno>)
      requires Valid()
      requires answer.Done? ==> answer.n <= |Contents()|
      modifies fd`wire
      ensures n == if answer.Done? then answer.n else -1
      ensures savedErrno == if answer.Failed? then Some(answer.errno) else None
      ensures fd.wire == old(fd.wire) + if answer.Done? then Contents()[..answer.n] else []
    {
      savedErrno := None;
      n := fd.Write(buffer[readerIndex..writerIndex], answer);
      if n < 0 {
        savedErrno := Some(answer.errno);
      }
    }
  }

  // ---------------------------------------------------------------- any sequence of operations

  datatype BufferOp = Append(data: seq<Byte>) | Read(data: seq<Byte>) | Retrieve(len: nat)

  // The FIFO byte queue after the operations, with no array and no indices.
  function Queue(ops: seq<BufferOp>): seq<Byte> {
    if ops == [] then []
    else
      var q := Queue(Front(ops));
      match Last(ops)
      case Append(data) => q + data
      case Read(data) => q + data
      case Retrieve(len) => if len < |q| then q[len..] else []
  }

  // What the operations are to the layout.
  function Sizes(ops: seq<BufferOp>): (sizes: seq<Op>)
    ensures |sizes| == |ops|
  {
    if ops == [] then []
    else
      var op := match Last(ops)
        case Append(data) => Op.Append(|data|)
        case Read(data) => Op.Receive(|data|)
        case Retrieve(len) => Op.Retrieve(len);
      Sizes(Front(ops)) + [op]
  }

  // No read brings more than readFd offers room for at that moment.
  predicate ReadsFit(initialSize: nat, ops: seq<BufferOp>) {
    ops == []
    || (ReadsFit(initialSize, Front(ops))
        && (Last(ops).Read? ==> |Last(ops).data| <= ReadRoom(Run(initialSize, Sizes(Front(ops))).Writable())))
  }

  lemma {:induction false} QueueHasItsLength(ops: seq<BufferOp>)
    ensures |Queue(ops)| == QueueLength(Sizes(ops))
  {
    if ops != [] {
      QueueHasItsLength(Front(ops));
      assert Front(Sizes(ops)) == Sizes(Front(ops));
    }
  }

  lemma {:induction false} ReadsFitPrefix(initialSize: nat, ops: seq<BufferOp>, i: nat)
    requires ReadsFit(initialSize, ops) && i <= |ops|
    ensures ReadsFit(initialSize, ops[..i])
  {
    if i < |ops| {
      ReadsFitPrefix(initialSize, Front(ops), i);
      assert Front(ops)[..i] == ops[..i];
    } else {
      assert ops[..i] == ops;
    }
  }

  // The object holds the queue, laid out as the layout machine says.
  ghost predicate Follows(b: Buffer, initialSize: nat, ops: seq<BufferOp>)
    reads b, b.buffer
  {
    b.Valid() && b.Contents() == Queue(ops) && b.Shape() == Run(initialSize, Sizes(ops))
  }

  method Use(b: Buffer, ghost initialSize: nat, ops: seq<BufferOp>)
    requires ops != [] && Follows(b, initialSize, Front(ops)) && ReadsFit(initialSize, ops)
    modifies b, b.buffer
    ensures Follows(b, initialSize, ops)
    ensures b.buffer == old(b.buffer) || fresh(b.buffer)
  {
    assert Front(Sizes(ops)) == Sizes(Front(ops));
    match Last(ops) {
      case Append(data) => b.Append(data);
      case Read(data) => var _, _ := b.ReadFd(Bytes(data));
      case Retrieve(len) => b.Retrieve(len);
    }
  }

  // Whatever is appended, read and retrieved, in any order, the array holds the FIFO queue, and is
  // never longer than the longest that queue has been calls for.
  method AnyUse(initialSize: nat, ops: seq<BufferOp>) returns (b: Buffer)
    requires ReadsFit(initialSize, ops)
    ensures b.Valid() && b.Contents() == Queue(ops)
    ensures b.buffer.Length <= Bound(initialSize, Peak(Sizes(ops)))
  {
    b := new Buffer(initialSize);
    for i := 0 to |ops|
      invariant fresh(b) && fresh(b.buffer) && Follows(b, initialSize, ops[..i])
    {
      hide Follows;
      ReadsFitPrefix(initialSize, ops, i + 1);
      assert Front(ops[..i + 1]) == ops[..i];
      Use(b, initialSize, ops[..i + 1]);
    }
    assert ops[..|ops|] == ops;
    CapacityBound(initialSize, Sizes(ops));
  }
}
