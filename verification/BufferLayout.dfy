// The index arithmetic of include/Buffer.h and Buffer::readFd without the bytes: where the
// reader and writer indices are and how long the vector is. Buffer.dfy proves that the
// array-level methods move the indices exactly as these functions say.

module BufferLayout {
  import opened Common

  const CHEAP_PREPEND: nat := 8
  const INITIAL_SIZE: nat := 1024

  datatype Layout = Layout(size: nat, reader: nat, writer: nat)
  {
    // An empty buffer always has its indices back at the start: retrieve of everything resets
    // them, and nothing else moves the reader index forward.
    ghost predicate Valid() {
      && CHEAP_PREPEND <= reader <= writer <= size
      && (reader == writer ==> reader == CHEAP_PREPEND)
    }

    function Readable(): nat
      requires Valid()
    {
      writer - reader
    }

    function Writable(): nat
      requires Valid()
    {
      size - writer
    }

    function Retrieve(len: nat): (l: Layout)
      requires Valid()
      ensures l.Valid() && l.size == size
      ensures l.Readable() == if len < Readable() then Readable() - len else 0
      ensures len < Readable() ==> l.writer == writer
    {
      if len < Readable() then this.(reader := reader + len)
      else Layout(size, CHEAP_PREPEND, CHEAP_PREPEND)
    }

    // ensureWritableBytes and makeSpace: nothing, compaction, or growth.
    function Reserve(len: nat): (l: Layout)
      requires Valid()
      ensures l.Valid() && l.Readable() == Readable()
      ensures len <= l.Writable()
      ensures size <= l.size
      ensures len <= Writable() ==> l == this
      ensures Writable() < len ==>
        if size - Readable() - CHEAP_PREPEND < len then l.reader == reader && l.Writable() == len
        else l.reader == CHEAP_PREPEND && l.size == size
    {
      if len <= Writable() then this
      else if Writable() + reader < len + CHEAP_PREPEND then this.(size := writer + len)
      else Layout(size, CHEAP_PREPEND, CHEAP_PREPEND + Readable())
    }

    function Append(len: nat): (l: Layout)
      requires Valid()
      ensures l.Valid() && l.Readable() == Readable() + len
      ensures l.size == Reserve(len).size && l.reader == Reserve(len).reader
    {
      var r := Reserve(len);
      r.(writer := r.writer + len)
    }

    // readFd that received n bytes: into the vector, and past its end by append.
    function Receive(n: nat): (l: Layout)
      requires Valid()
      ensures l.Valid() && l.Readable() == Readable() + n
      ensures n <= Writable() ==> l.reader == reader && l.size == size
      ensures Writable() < n ==> size < l.size || l.reader == CHEAP_PREPEND
    {
      if n <= Writable() then this.(writer := writer + n)
      else this.(writer := size).Append(n - Writable())
    }
  }

  function Fresh(initialSize: nat): (l: Layout)
    ensures l.Valid() && l.Readable() == 0
  {
    Layout(CHEAP_PREPEND + initialSize, CHEAP_PREPEND, CHEAP_PREPEND)
  }

  // ---------------------------------------------------------------- runs

  datatype Op = Append(len: nat) | Receive(n: nat) | Retrieve(len: nat)

  function Apply(l: Layout, op: Op): (l': Layout)
    requires l.Valid()
    ensures l'.Valid()
  {
    match op
    case Append(len) => l.Append(len)
    case Receive(n) => l.Receive(n)
    case Retrieve(len) => l.Retrieve(len)
  }

  function Run(initialSize: nat, ops: seq<Op>): (l: Layout)
    ensures l.Valid()
  {
    if ops == [] then Fresh(initialSize)
    else Apply(Run(initialSize, Front(ops)), Last(ops))
  }

  // How long a plain FIFO queue is after the same operations, with no indices involved.
  function QueueLength(ops: seq<Op>): nat {
    if ops == [] then 0
    else
      var before := QueueLength(Front(ops));
      match Last(ops)
      case Append(len) => before + len
      case Receive(n) => before + n
      case Retrieve(len) => if len < before then before - len else 0
  }

  // The longest the queue has ever been.
  function Peak(ops: seq<Op>): nat {
    if ops == [] then 0 else Max(Peak(Front(ops)), QueueLength(ops))
  }

  // The least capacity that suffices for every history with this peak.
  function Bound(initialSize: nat, peak: nat): nat {
    CHEAP_PREPEND + Max(initialSize, if peak < 2 then peak else 2 * peak - 2)
  }

  lemma {:induction false} RunHoldsQueue(initialSize: nat, ops: seq<Op>)
    ensures Run(initialSize, ops).Readable() == QueueLength(ops)
  {
    if ops != [] {
      RunHoldsQueue(initialSize, Front(ops));
    }
  }

  // Growing on the compact-or-grow test never overshoots: fewer than len bytes were reclaimable.
  lemma AppendWithinBound(l: Layout, len: nat, initialSize: nat, peak: nat)
    requires l.Valid() && l.size <= Bound(initialSize, peak)
    requires l.Readable() + len <= peak
    ensures l.Append(len).size <= Bound(initialSize, peak)
  {
    if l.Writable() < len && l.Writable() + l.reader < len + CHEAP_PREPEND {
      assert l.Append(len).size == l.reader + l.Readable() + len;
      if l.Readable() == 0 {
        assert l.reader == CHEAP_PREPEND;
      }
    }
  }

  lemma ReceiveWithinBound(l: Layout, n: nat, initialSize: nat, peak: nat)
    requires l.Valid() && l.size <= Bound(initialSize, peak)
    requires l.Readable() + n <= peak
    ensures l.Receive(n).size <= Bound(initialSize, peak)
  {
    if l.Writable() < n {
      AppendWithinBound(l.(writer := l.size), n - l.Writable(), initialSize, peak);
    }
  }

  // Over any sequence of appends, reads and retrieves the vector stays within the bound.
  lemma {:induction false} CapacityBound(initialSize: nat, ops: seq<Op>)
    ensures Run(initialSize, ops).size <= Bound(initialSize, Peak(ops))
  {
    if ops != [] {
      var front, peak := Front(ops), Peak(ops);
      var before := Run(initialSize, front);
      CapacityBound(initialSize, front);
      RunHoldsQueue(initialSize, front);
      assert before.size <= Bound(initialSize, peak);
      match Last(ops) {
        case Append(len) => AppendWithinBound(before, len, initialSize, peak);
        case Receive(n) => ReceiveWithinBound(before, n, initialSize, peak);
        case Retrieve(_) =>
      }
    }
  }

  // The bound is attained, so it cannot be lowered: fill, leave one byte, append again.
  lemma CapacityBoundIsTight(initialSize: nat, peak: nat)
    requires 2 <= peak && initialSize < peak
    ensures var ops := [Append(peak - 1), Retrieve(peak - 2), Append(peak - 1)];
      Peak(ops) == peak && Run(initialSize, ops).size == Bound(initialSize, peak)
  {
    var ops := [Append(peak - 1), Retrieve(peak - 2), Append(peak - 1)];
    var ops2, ops1 := ops[..2], ops[..1];
    assert Front(ops) == ops2 && Front(ops2) == ops1 && Front(ops1) == [];
    assert Run(initialSize, ops1) == Fresh(initialSize).Append(peak - 1);
    assert Run(initialSize, ops2) == Run(initialSize, ops1).Retrieve(peak - 2);
    assert QueueLength(ops1) == peak - 1 && QueueLength(ops2) == 1 && QueueLength(ops) == peak;
    assert Peak(ops1) == peak - 1 && Peak(ops2) == peak - 1;
  }
}
