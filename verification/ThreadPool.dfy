// src/EventLoopThreadPool.cc: the round-robin choice of a loop for each new connection.

module ThreadPool {
  class EventLoopThreadPool<L> {
    const baseLoop: L
    var loops: seq<L>
    var next: nat
    var numThreads: nat
    var started: bool

    ghost predicate Valid()
      reads this
    {
      if loops == [] then next == 0 else next < |loops|
    }

    constructor (baseLoop: L)
      ensures Valid() && loops == [] && numThreads == 0 && !started && this.baseLoop == baseLoop
    {
      this.baseLoop := baseLoop;
      loops, next, numThreads, started := [], 0, 0, false;
    }

    method SetThreadNum(n: nat)
      modifies this`numThreads
      ensures numThreads == n
    {
      numThreads := n;
    }

    // start(): one thread after the other, each with the loop it comes up with; i's is spawned[i].
    // If there is a callback every loop gets it, each on its own thread, and with no threads the base
    // loop does; inits are those loops.
    method Start(spawned: seq<L>, cb: bool) returns (inits: seq<L>)
      requires Valid() && |spawned| == numThreads
      modifies this`loops, this`started
      ensures Valid() && started && loops == old(loops) + spawned
      ensures inits == if !cb then [] else if numThreads == 0 then [baseLoop] else spawned
    {
      started := true;
      inits := [];
      for i := 0 to numThreads
        invariant Valid() && started && loops == old(loops) + spawned[..i]
        invariant inits == if cb then spawned[..i] else []
      {
        if cb {
          inits := inits + [spawned[i]];
        }
        loops := loops + [spawned[i]];
        assert spawned[..i + 1] == spawned[..i] + [spawned[i]];
      }
      assert spawned[..|spawned|] == spawned;
      if numThreads == 0 && cb {
        inits := inits + [baseLoop];
      }
    }

    method GetNextLoop() returns (loop: L)
      requires Valid()
      modifies this`next
      ensures Valid()
      ensures loops == [] ==> loop == baseLoop
      ensures loops != [] ==> loop == loops[old(next)] && next == Slot(old(next), |loops|, 1)
    {
      loop := baseLoop;
      if loops != [] {
        loop := loops[next];
        next := next + 1;
        if next >= |loops| {
          next := 0;
        }
      }
    }

    // Any number of calls in a row: the k-th takes the k-th slot round the ring.
    method Assign(calls: nat) returns (chosen: seq<L>)
      requires Valid()
      modifies this`next
      ensures Valid() && |chosen| == calls
      ensures loops == [] ==> forall k :: 0 <= k < calls ==> chosen[k] == baseLoop
      ensures loops != [] ==>
        forall k :: 0 <= k < calls ==> chosen[k] == loops[Slot(old(next), |loops|, k)]
    {
      chosen := [];
      for i := 0 to calls
        invariant Valid() && |chosen| == i
        invariant loops == [] ==> forall k :: 0 <= k < i ==> chosen[k] == baseLoop
        invariant loops != [] ==> next == Slot(old(next), |loops|, i)
        invariant loops != [] ==> forall k :: 0 <= k < i ==> chosen[k] == loops[Slot(old(next), |loops|, k)]
      {
        var loop := GetNextLoop();
        chosen := chosen + [loop];
        if loops != [] {
          NextSlot(old(next), |loops|, i);
        }
      }
    }
  }

  // The position used by the k-th call after next_ was start.
  function Slot(start: nat, n: nat, k: nat): (p: nat)
    requires start < n
    ensures p < n
  {
    (start + k) % n
  }

  lemma NextSlot(start: nat, n: nat, k: nat)
    requires start < n
    ensures Slot(Slot(start, n, k), n, 1) == Slot(start, n, k + 1)
  {
    var p := Slot(start, n, k);
    Successor(start + k, n);
    if p == n - 1 {
      Quotient(1, n, 0, p + 1);
    } else {
      Quotient(0, n, p + 1, p + 1);
    }
  }

  // One step on moves the remainder on, or round.
  lemma Successor(m: nat, n: nat)
    requires 0 < n
    ensures if m % n == n - 1 then (m + 1) % n == 0 && (m + 1) / n == m / n + 1
            else (m + 1) % n == m % n + 1 && (m + 1) / n == m / n
  {
    var q, r := m / n, m % n;
    if r == n - 1 {
      assert m + 1 == (q + 1) * n;
      Quotient(q + 1, n, 0, m + 1);
    } else {
      Quotient(q, n, r + 1, m + 1);
    }
  }

  lemma Quotient(q: nat, n: nat, r: nat, m: nat)
    requires r < n && m == q * n + r
    ensures m / n == q && m % n == r
  {
    var d := m / n - q;
    assert d * n == r - m % n;
    assert d >= 1 ==> d * n >= n;
    assert d <= -1 ==> d * n <= -(n as int);
  }

  // How many of `calls` calls in a row use position p.
  function Uses(start: nat, n: nat, calls: nat, p: nat): nat
    requires start < n
  {
    if calls == 0 then 0
    else Uses(start, n, calls - 1, p) + if Slot(start, n, calls - 1) == p then 1 else 0
  }

  // How far round the ring p is from start.
  function Distance(start: nat, n: nat, p: nat): (d: nat)
    requires start < n && p < n
    ensures d < n
  {
    if start <= p then p - start else p + n - start
  }

  lemma {:induction false} SlotAtDistance(start: nat, n: nat, k: nat, p: nat)
    requires start < n && p < n
    ensures Slot(start, n, k) == p <==> k % n == Distance(start, n, p)
    decreases k
  {
    if k == 0 {
      Quotient(0, n, start, start);
    } else {
      var back := if p == 0 then n - 1 else p - 1;
      SlotAtDistance(start, n, k - 1, back);
      Successor(start + k - 1, n);
      Successor(k - 1, n);
    }
  }

  lemma {:induction false} UsesFormula(start: nat, n: nat, calls: nat, p: nat)
    requires start < n && p < n
    ensures Uses(start, n, calls, p) == calls / n + if Distance(start, n, p) < calls % n then 1 else 0
  {
    if calls == 0 {
      Quotient(0, n, 0, 0);
    } else {
      UsesFormula(start, n, calls - 1, p);
      SlotAtDistance(start, n, calls - 1, p);
      Successor(calls - 1, n);
    }
  }

  // Over any number of calls, from any point on, no position is used twice more than another; and
  // any n calls in a row use every position exactly once.
  lemma RoundRobinBalance(start: nat, n: nat, calls: nat, p: nat, q: nat)
    requires start < n && p < n && q < n
    ensures Uses(start, n, calls, p) <= Uses(start, n, calls, q) + 1
    ensures Uses(start, n, n, p) == 1
  {
    UsesFormula(start, n, calls, p);
    UsesFormula(start, n, calls, q);
    UsesFormula(start, n, n, p);
    Quotient(1, n, 0, n);
  }
}
