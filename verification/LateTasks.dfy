// The other half of RawTasks: a bare task queued too late can find its connection gone. From any
// such state the loops are driven on until it does.

module LateTasks {
  import opened Common
  import opened Lifecycle
  import opened LifecycleInvariant
  import opened LifecycleTheorems
  import opened RawTasks
  import opened Driving

  // ---------------------------------------------------------------- a doomed connection

  // A bare task of c waits on loop l, and nothing that waits there or is still to come holds c.
  predicate Doomed(s: Server, l: Lid, c: Cid) {
    && Known(s, c) && s.conns[c].home == l && s.conns[c].alive
    && Raw(c) in s.loops[l].pending && !HeldBy(s.loops[l].pending, c) && !Upstream(s, c)
  }

  lemma PostedLate(s: Server, l: Lid, c: Cid)
    requires Enabled(s, PostRaw(l, c)) && !InTime(s, c)
    ensures Doomed(Next(s, PostRaw(l, c)), l, c)
  {
    var x, x' := s.loops[l], Next(s, PostRaw(l, c)).loops[l];
    assert x'.pending == x.pending + [Raw(c)];
  }

  lemma SettledKeepsDoomed(s: Server, s': Server, l: Lid, c: Cid)
    requires Settled(s, s') && Doomed(s, l, c)
    ensures Doomed(s', l, c) && NoneRemoving(s')
  {
    assert Raw(c) in s'.loops[l].pending;
  }

  lemma RanKeepsDoomed(s: Server, s': Server, m: Lid, l: Lid, c: Cid)
    requires Ran(s, s', m) && NoneRemoving(s) && Doomed(s, l, c) && (m == l || m == MAIN)
    requires forall t :: t in Rest(s.loops[m]) && t.Remove? ==> m == MAIN
    ensures Doomed(s', l, c)
  {
    assert Raw(c) in s'.loops[l].pending;
    if l != MAIN {
      assert s'.loops[MAIN].frame == s.loops[MAIN].frame;
    }
  }

  // Removals are in the main loop's batches only.
  lemma RemovalsAreMains(s: Server, m: Lid)
    requires Inv(s) && m < |s.loops|
    ensures forall t :: t in Rest(s.loops[m]) && t.Remove? ==> m == MAIN
  {
    assert LoopOk(s, m);
    forall t | t in Rest(s.loops[m]) && t.Remove? ensures m == MAIN {
      Facts(s, t.c);
      assert 0 < Count(s.loops[m], t);
    }
  }

  lemma Finish(nLoops: nat, steps: seq<Step>, m: Lid, l: Lid, c: Cid) returns (done: seq<Step>)
    requires 0 < nLoops && Legal(nLoops, steps) && (m == l || m == MAIN)
    requires var s := Run(nLoops, steps);
      m < |s.loops| && s.loops[m].phase.Draining? && NoneRemoving(s) && Doomed(s, l, c)
    ensures Calmly(steps, done) && Legal(nLoops, done)
    ensures var s, s' := Run(nLoops, steps), Run(nLoops, done);
      && |s'.loops| == |s.loops| && NoneRemoving(s') && Doomed(s', l, c) && s'.loops[m].phase == Polling
      && forall i: Lid :: i < |s.loops| && i != m ==> s'.loops[i].phase == s.loops[i].phase
  {
    InvOverRuns(nLoops, steps);
    RemovalsAreMains(Run(nLoops, steps), m);
    done := FinishBatch(nLoops, steps, m);
    RanKeepsDoomed(Run(nLoops, steps), Run(nLoops, done), m, l, c);
    hide Inv;
  }

  // Both loops come between batches, with c's own dispatch, if it is under way, over.
  lemma BetweenBatches(nLoops: nat, steps: seq<Step>, l: Lid, c: Cid) returns (done: seq<Step>)
    requires 0 < nLoops && Legal(nLoops, steps) && Doomed(Run(nLoops, steps), l, c)
    ensures Calmly(steps, done) && Legal(nLoops, done)
    ensures var s' := Run(nLoops, done);
      && NoneRemoving(s') && Doomed(s', l, c) && MAIN < |s'.loops|
      && !s'.loops[l].phase.Draining? && !s'.loops[MAIN].phase.Draining? && s'.loops[l].frame == Idle
  {
    hide Run, Legal, Doomed, Settled, NoneRemoving, Next, Enabled, Inv;
    InvOverRuns(nLoops, steps);
    OnlyMainRemoves(Run(nLoops, steps));
    done := Settle(nLoops, steps);
    SettledKeepsDoomed(Run(nLoops, steps), Run(nLoops, done), l, c);
    InvOverRuns(nLoops, done);
    OnlyMainRemoves(Run(nLoops, done));
    DoomedHome(Run(nLoops, done), l, c);
    if Run(nLoops, done).loops[l].phase.Draining? {
      done := Finish(nLoops, done, l, l, c);
    }
    if Run(nLoops, done).loops[MAIN].phase.Draining? {
      done := Finish(nLoops, done, MAIN, l, c);
    }
    if Run(nLoops, done).loops[l].frame.InEvent? {
      EventEnds(Run(nLoops, done), l, c);
      Extend(nLoops, done, EndEvent(l));
      done := done + [EndEvent(l)];
    }
  }

  lemma DoomedHome(s: Server, l: Lid, c: Cid)
    requires Doomed(s, l, c)
    ensures l < |s.loops|
  {
  }

  lemma EventEnds(s: Server, l: Lid, c: Cid)
    requires Doomed(s, l, c) && NoneRemoving(s) && s.loops[l].frame.InEvent?
    ensures Enabled(s, EndEvent(l))
    ensures var s' := Next(s, EndEvent(l));
      && |s'.loops| == |s.loops| && NoneRemoving(s') && Doomed(s', l, c) && s'.loops[l].frame == Idle
      && forall m: Lid :: m < |s.loops| ==> s'.loops[m].phase == s.loops[m].phase
  {
  }

  // ---------------------------------------------------------------- the task runs

  predicate Gone(s: Server, c: Cid) {
    c < |s.conns| && !s.conns[c].alive
  }

  lemma ReleaseIt(nLoops: nat, steps: seq<Step>, l: Lid, c: Cid) returns (done: seq<Step>)
    requires 0 < nLoops && Legal(nLoops, steps)
    requires var s := Run(nLoops, steps);
      && NoneRemoving(s) && Doomed(s, l, c) && MAIN < |s.loops|
      && !s.loops[l].phase.Draining? && !s.loops[MAIN].phase.Draining? && s.loops[l].frame == Idle
    ensures Calmly(steps, done) && Legal(nLoops, done)
    ensures var s' := Run(nLoops, done);
      && NoneRemoving(s') && Gone(s', c) && l < |s'.loops|
      && !s'.loops[l].phase.Draining? && Raw(c) in s'.loops[l].pending
  {
    var s := Run(nLoops, steps);
    InvOverRuns(nLoops, steps);
    NobodyHolds(s, c);
    hide Inv;
    Extend(nLoops, steps, Release(c));
    done := steps + [Release(c)];
  }

  lemma {:induction false} RunUpToRaw(nLoops: nat, steps: seq<Step>, l: Lid, c: Cid) returns (done: seq<Step>)
    requires 0 < nLoops && Legal(nLoops, steps)
    requires var s := Run(nLoops, steps);
      l < |s.loops| && Raw(c) in Rest(s.loops[l]) && NoneRemoving(s) && Gone(s, c)
    ensures Calmly(steps, done) && Legal(nLoops, done)
    ensures var s' := Run(nLoops, done); NextIsRaw(s', l) && s'.loops[l].phase.rest[0] == Raw(c) && Gone(s', c)
    decreases |Rest(Run(nLoops, steps).loops[l])|
  {
    InvOverRuns(nLoops, steps);
    CanRun(Run(nLoops, steps), l);
    done := steps;
    if Run(nLoops, steps).loops[l].phase.rest[0] != Raw(c) {
      done := RunFirst(nLoops, steps, l);
      done := RunUpToRaw(nLoops, done, l, c);
    }
    hide Inv, Next;
  }

  // ---------------------------------------------------------------- exactly when it is safe

  predicate NextIsRaw(s: Server, l: Lid) {
    Enabled(s, RunTask(l)) && s.loops[l].phase.rest[0].Raw?
  }

  predicate FindsAlive(s: Server, l: Lid)
    requires NextIsRaw(s, l)
  {
    var c := s.loops[l].phase.rest[0].c; c < |s.conns| && s.conns[c].alive
  }

  // In every continuation in which further bare tasks, if any, are queued in time, every bare task
  // that runs finds its connection alive.
  ghost predicate AlwaysFound(nLoops: nat, steps: seq<Step>) {
    forall done, l: Lid :: GoesOn(nLoops, steps, done) && NextIsRaw(Run(nLoops, done), l) ==>
      FindsAlive(Run(nLoops, done), l)
  }

  predicate GoesOn(nLoops: nat, steps: seq<Step>, done: seq<Step>) {
    steps <= done && Legal(nLoops, done) && InTimeSince(nLoops, |steps|, done)
  }

  lemma {:induction false} CalmlyGoesOn(nLoops: nat, steps: seq<Step>, done: seq<Step>)
    requires Legal(nLoops, done) && Calmly(steps, done)
    ensures GoesOn(nLoops, steps, done)
    decreases |done|
  {
    if |steps| < |done| {
      assert Calmly(steps, Front(done)) && Last(done) == done[|done| - 1];
      CalmlyGoesOn(nLoops, steps, Front(done));
    }
  }

  lemma {:induction false} InTimeThroughout(nLoops: nat, steps: seq<Step>, done: seq<Step>)
    requires Legal(nLoops, steps) && InTimeSince(nLoops, 0, steps) && GoesOn(nLoops, steps, done)
    ensures InTimeSince(nLoops, 0, done)
    decreases |done|
  {
    if |steps| < |done| {
      assert steps <= Front(done);
      InTimeThroughout(nLoops, steps, Front(done));
    } else {
      assert steps == done;
    }
  }

  // Queued too late: the loops can go on so that the task runs with its connection gone.
  lemma LateFindsItGone(nLoops: nat, steps: seq<Step>, l: Lid, c: Cid) returns (done: seq<Step>)
    requires 0 < nLoops && Legal(nLoops, steps) && Enabled(Run(nLoops, steps), PostRaw(l, c))
    requires !InTime(Run(nLoops, steps), c)
    ensures Calmly(steps + [PostRaw(l, c)], done) && Legal(nLoops, done)
    ensures NextIsRaw(Run(nLoops, done), l) && !FindsAlive(Run(nLoops, done), l)
  {
    hide Inv, Next, InTime, Doomed, Run, Legal;
    done := steps + [PostRaw(l, c)];
    Extend(nLoops, steps, PostRaw(l, c));
    PostedLate(Run(nLoops, steps), l, c);
    done := BetweenBatches(nLoops, done, l, c);
    done := ReleaseIt(nLoops, done, l, c);
    done := NextBatch(nLoops, done, l);
    done := RunUpToRaw(nLoops, done, l, c);
  }

  // Whether a bare task is safe is settled when it is queued.
  lemma BareTaskIsSafeExactly(nLoops: nat, steps: seq<Step>, l: Lid, c: Cid)
    requires 0 < nLoops && Legal(nLoops, steps) && InTimeSince(nLoops, 0, steps)
    requires Enabled(Run(nLoops, steps), PostRaw(l, c))
    ensures AlwaysFound(nLoops, steps + [PostRaw(l, c)]) <==> InTime(Run(nLoops, steps), c)
  {
    var called := steps + [PostRaw(l, c)];
    Extend(nLoops, steps, PostRaw(l, c));
    assert Front(called) == steps;
    hide InTime, Next, Inv;
    if InTime(Run(nLoops, steps), c) {
      forall done, m: Lid | GoesOn(nLoops, called, done) && NextIsRaw(Run(nLoops, done), m)
        ensures FindsAlive(Run(nLoops, done), m)
      {
        InTimeThroughout(nLoops, called, done);
        InTimeFindsConnection(nLoops, done, m);
      }
    } else {
      var done := LateFindsItGone(nLoops, steps, l, c);
      CalmlyGoesOn(nLoops, called, done);
    }
  }

  // A send or shutdown whose test of the state still holds when it queues is in time.
  lemma ConnectedIsInTime(nLoops: nat, steps: seq<Step>, c: Cid)
    requires 0 < nLoops && Legal(nLoops, steps) && c < |Run(nLoops, steps).conns|
    requires Run(nLoops, steps).conns[c].state == Connected
    ensures c in Run(nLoops, steps).connections && Known(Run(nLoops, steps), c)
    ensures InTime(Run(nLoops, steps), c)
  {
    InvOverRuns(nLoops, steps);
    Facts(Run(nLoops, steps), c);
  }
}
