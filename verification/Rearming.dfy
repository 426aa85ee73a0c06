// A sendInLoop that another thread queued can run after the close; if it finds the socket full it
// registers the closed channel again. Exactly when that lets the connection be closed a second time,
// and exactly when it can leave a released object in the poller's map.

module Rearming {
  import opened Common
  import opened Lifecycle
  import opened LifecycleInvariant
  import opened LifecycleTheorems
  import opened RawTasks
  import opened Driving

  // The connection whose sendInLoop is next on loop l.
  function Sender(s: Server, l: Lid): Cid
    requires Enabled(s, Rearm(l))
  {
    s.loops[l].phase.rest[0].c
  }

  // ---------------------------------------------------------------- closed again

  // In some continuation the user hears of another down: each comes from one more handleClose, which
  // makes one more removal and one more destruction.
  ghost predicate CanCloseAgain(nLoops: nat, steps: seq<Step>, c: Cid)
    requires Legal(nLoops, steps) && c < |Run(nLoops, steps).conns|
  {
    exists done :: steps <= done && ClosesAgain(nLoops, done, c, Run(nLoops, steps).conns[c])
  }

  predicate ClosesAgain(nLoops: nat, done: seq<Step>, c: Cid, k: ConnState) {
    Legal(nLoops, done) && c < |Run(nLoops, done).conns|
    && var k' := Run(nLoops, done).conns[c]; k.closes < k'.closes && k.log + [Down] <= k'.log
  }

  // Armed, and its destruction still to run in the batch under way, or over.
  predicate Spent(s: Server, c: Cid) {
    && Known(s, c) && s.conns[c].state == Disconnected && s.conns[c].armed
    && (s.conns[c].index == New || Destroy(c) in Rest(s.loops[s.conns[c].home]))
  }

  // Neither handled nor to be handled: its loop is in a batch, or its channel is out of the poller.
  lemma SpentIsNotHandled(s: Server, c: Cid, l: Lid)
    requires Inv(s) && Spent(s, c) && l < |s.loops| && s.loops[l].frame.InEvent? && !s.loops[l].frame.acted
    ensures s.loops[l].frame.c != c
  {
    assert LoopOk(s, l);
  }

  lemma SpentTask(s: Server, l: Lid, c: Cid)
    requires Inv(s) && Enabled(s, RunTask(l)) && Spent(s, c)
    ensures var s' := Next(s, RunTask(l)); Spent(s', c) && s'.conns[c].closes == s.conns[c].closes
  {
    hide Inv, InvBut, TasksFit, Count, CountsMoved, ConnOk, LoopOk;
    var t := s.loops[l].phase.rest[0];
    if !t.Raw? {
      PopPiece(s, l);
      Facts(s, t.c);
      TokenTells(s, l, t);
    }
  }

  lemma SpentStep(s: Server, step: Step, c: Cid)
    requires Inv(s) && Enabled(s, step) && Spent(s, c)
    ensures Spent(Next(s, step), c) && Next(s, step).conns[c].closes == s.conns[c].closes
  {
    match step {
      case RunTask(l) => SpentTask(s, l, c);
      case OnClose(l) => SpentEvent(s, step, l, c);
      case OnWrite(l) => SpentEvent(s, step, l, c);
      case OnMessage(l) => SpentEvent(s, step, l, c);
      case Accept(fd, home) => SpentAccept(s, fd, home, c);
      case Rearm(l) => SpentRearm(s, l, c);
      case _ => SpentPlain(s, step, c);
    }
  }

  lemma SpentEvent(s: Server, step: Step, l: Lid, c: Cid)
    requires Inv(s) && Enabled(s, step) && Spent(s, c)
    requires step == OnClose(l) || step == OnWrite(l) || step == OnMessage(l)
    ensures Spent(Next(s, step), c) && Next(s, step).conns[c].closes == s.conns[c].closes
  {
    SpentIsNotHandled(s, c, l);
    hide Inv;
  }

  lemma SpentAccept(s: Server, fd: Fd, home: Lid, c: Cid)
    requires Enabled(s, Accept(fd, home)) && Spent(s, c)
    ensures var s' := Next(s, Accept(fd, home)); Spent(s', c) && s'.conns[c].closes == s.conns[c].closes
  {
  }

  lemma SpentRearm(s: Server, l: Lid, c: Cid)
    requires Enabled(s, Rearm(l)) && Spent(s, c)
    ensures var s' := Next(s, Rearm(l)); Spent(s', c) && s'.conns[c].closes == s.conns[c].closes
  {
  }

  lemma SpentPlain(s: Server, step: Step, c: Cid)
    requires Enabled(s, step) && Spent(s, c)
    requires !step.RunTask? && !step.OnClose? && !step.OnWrite? && !step.OnMessage? && !step.Accept? && !step.Rearm?
    ensures Spent(Next(s, step), c) && Next(s, step).conns[c].closes == s.conns[c].closes
  {
  }

  lemma {:induction false} SpentForEver(nLoops: nat, steps: seq<Step>, done: seq<Step>, c: Cid)
    requires 0 < nLoops && Legal(nLoops, steps) && Spent(Run(nLoops, steps), c) && steps <= done && Legal(nLoops, done)
    ensures Spent(Run(nLoops, done), c) && Run(nLoops, done).conns[c].closes == Run(nLoops, steps).conns[c].closes
    decreases |done|
  {
    if |steps| < |done| {
      assert steps <= Front(done);
      SpentForEver(nLoops, steps, Front(done), c);
      InvOverRuns(nLoops, Front(done));
      SpentStep(Run(nLoops, Front(done)), Last(done), c);
    } else {
      assert steps == done;
    }
  }

  // ---------------------------------------------------------------- the second close

  // A registered connection whose loop polls can hang up.
  lemma HangsUp(nLoops: nat, steps: seq<Step>, l: Lid, c: Cid) returns (done: seq<Step>)
    requires 0 < nLoops && Legal(nLoops, steps)
    requires var s := Run(nLoops, steps);
      && Known(s, c) && s.conns[c].home == l && s.conns[c].alive && s.conns[c].index == Added
      && s.loops[l].phase == Polling && NoneRemoving(s)
    ensures steps <= done && ClosesAgain(nLoops, done, c, Run(nLoops, steps).conns[c])
  {
    var s := Run(nLoops, steps);
    InvOverRuns(nLoops, steps);
    PolledIsIdle(s, l, c);
    hide Inv, Legal, Run;
    var s1 := Next(s, PollReturns(l, [c]));
    Extend(nLoops, steps, PollReturns(l, [c]));
    done := steps + [PollReturns(l, [c])];
    Extend(nLoops, done, BeginEvent(l));
    done := done + [BeginEvent(l)];
    var s2 := Next(s1, BeginEvent(l));
    assert s2.loops[l].frame == InEvent(c, false) && s2.conns == s.conns;
    HungUp(s2, l, c);
    Extend(nLoops, done, OnClose(l));
    done := done + [OnClose(l)];
  }

  lemma PolledIsIdle(s: Server, l: Lid, c: Cid)
    requires Inv(s) && Known(s, c) && s.conns[c].home == l && s.conns[c].alive && s.conns[c].index == Added
    requires s.loops[l].phase == Polling
    ensures Reportable(s.loops[l], s, c) && s.loops[l].frame == Idle
  {
    assert ConnOk(s, c) && LoopOk(s, l);
  }

  lemma HungUp(s: Server, l: Lid, c: Cid)
    requires 0 < |s.loops| && Known(s, c) && s.conns[c].home == l && s.loops[l].frame == InEvent(c, false)
    ensures Enabled(s, OnClose(l)) && c < |Next(s, OnClose(l)).conns|
    ensures var k, k' := s.conns[c], Next(s, OnClose(l)).conns[c];
      k'.closes == k.closes + 1 && k'.log == k.log + [Down]
  {
  }

  // What rearming makes of its connection.
  lemma Rearmed(s: Server, l: Lid)
    requires Inv(s) && Enabled(s, Rearm(l))
    ensures var c, s' := Sender(s, l), Next(s, Rearm(l));
      && Known(s', c) && s'.conns[c] == s.conns[c].(index := Added, armed := true) && s.conns[c].home == l
      && |s'.loops| == |s.loops| && s'.loops[l].phase == Popped(s, l).loops[l].phase
      && s'.connections == s.connections
  {
    RearmPlace(s, l, Sender(s, l));
    hide Inv;
  }

  lemma NotAheadClosesAgain(nLoops: nat, steps: seq<Step>, l: Lid, c: Cid)
    requires 0 < nLoops && Legal(nLoops, steps)
    requires var s := Run(nLoops, steps);
      && Known(s, c) && s.conns[c].home == l && s.conns[c].alive
      && s.conns[c].state == Disconnected && s.conns[c].index == Added
      && s.loops[l].phase.Draining? && Destroy(c) !in Rest(s.loops[l])
    ensures CanCloseAgain(nLoops, steps, c)
  {
    var k := Run(nLoops, steps).conns[c];
    var done := Settle(nLoops, steps);
    assert Run(nLoops, done).loops[l].phase == Run(nLoops, steps).loops[l].phase;
    assert Run(nLoops, done).conns[c] == k;
    var polling := FinishBatch(nLoops, done, l);
    assert Run(nLoops, polling).conns[c] == k;
    hide Inv, Next, Legal, Run;
    done := HangsUp(nLoops, polling, l, c);
  }

  // From any reachable state: a closed connection that a sendInLoop registers again can be closed
  // again exactly if its destruction is not still to run in the same batch.
  lemma RearmClosesAgainExactly(nLoops: nat, steps: seq<Step>, l: Lid)
    requires 0 < nLoops && Legal(nLoops, steps) && Enabled(Run(nLoops, steps), Rearm(l))
    ensures Legal(nLoops, steps + [Rearm(l)])
    ensures Sender(Run(nLoops, steps), l) < |Run(nLoops, steps + [Rearm(l)]).conns|
    ensures CanCloseAgain(nLoops, steps + [Rearm(l)], Sender(Run(nLoops, steps), l))
       <==> !DestroyAhead(Run(nLoops, steps), l)
  {
    var s, called := Run(nLoops, steps), steps + [Rearm(l)];
    var c := Sender(s, l);
    InvOverRuns(nLoops, steps);
    Extend(nLoops, steps, Rearm(l));
    Rearmed(s, l);
    hide Inv, Next;
    if DestroyAhead(s, l) {
      forall done | called <= done ensures !ClosesAgain(nLoops, done, c, Run(nLoops, called).conns[c]) {
        if Legal(nLoops, done) {
          SpentForEver(nLoops, called, done, c);
        }
      }
    } else {
      NotAheadClosesAgain(nLoops, called, l, c);
    }
  }

  // ---------------------------------------------------------------- released, and still mapped

  // The history after its first n steps rearms c no more.
  predicate NoRearmSince(nLoops: nat, n: nat, steps: seq<Step>, c: Cid)
    requires Legal(nLoops, steps)
  {
    |steps| <= n
    || (NoRearmSince(nLoops, n, Front(steps), c)
        && (Last(steps).Rearm? ==> Sender(Run(nLoops, Front(steps)), Last(steps).l) != c))
  }

  // The object is gone, and the poller's map has its channel.
  predicate Dangles(s: Server, c: Cid) {
    Known(s, c) && !s.conns[c].alive && MappedTo(s.loops[s.conns[c].home].channels, s.conns[c].fd, c)
  }

  ghost predicate CanDangle(nLoops: nat, steps: seq<Step>, c: Cid) {
    exists done :: DanglesLater(nLoops, steps, done, c)
  }

  predicate DanglesLater(nLoops: nat, steps: seq<Step>, done: seq<Step>, c: Cid) {
    steps <= done && Legal(nLoops, done) && NoRearmSince(nLoops, |steps|, done, c) && Dangles(Run(nLoops, done), c)
  }

  lemma {:induction false} CalmlyRearmsNothing(nLoops: nat, steps: seq<Step>, done: seq<Step>, c: Cid)
    requires Legal(nLoops, done) && Calmly(steps, done)
    ensures NoRearmSince(nLoops, |steps|, done, c)
    decreases |done|
  {
    if |steps| < |done| {
      assert Calmly(steps, Front(done)) && Last(done) == done[|done| - 1];
      CalmlyRearmsNothing(nLoops, steps, Front(done), c);
    }
  }

  lemma {:induction false} CoveredFromHereOn(nLoops: nat, steps: seq<Step>, done: seq<Step>, c: Cid)
    requires 0 < nLoops && Legal(nLoops, steps) && steps <= done && Legal(nLoops, done)
    requires c < |Run(nLoops, steps).conns| && Covered(Run(nLoops, steps).conns[c])
    requires NoRearmSince(nLoops, |steps|, done, c)
    ensures c < |Run(nLoops, done).conns| && Covered(Run(nLoops, done).conns[c])
    decreases |done|
  {
    if |steps| < |done| {
      assert steps <= Front(done);
      CoveredFromHereOn(nLoops, steps, Front(done), c);
      InvOverRuns(nLoops, Front(done));
      CoveredStep(Run(nLoops, Front(done)), Last(done), c);
    } else {
      assert steps == done;
    }
  }

  lemma CoveredDoesNotDangle(s: Server, c: Cid)
    requires Inv(s) && c < |s.conns| && Covered(s.conns[c])
    ensures !Dangles(s, c)
  {
    Facts(s, c);
    assert LoopOk(s, s.conns[c].home);
  }

  // Seen through, but registered: nothing of the handoff is queued for it any more.
  predicate Orphan(s: Server, l: Lid, c: Cid) {
    Known(s, c) && s.conns[c].home == l && s.conns[c].alive && IsDone(s.conns[c]) && s.conns[c].index == Added
  }

  lemma OrphanHasNoToken(s: Server, l: Lid, c: Cid)
    requires Inv(s) && Orphan(s, l, c)
    ensures !Upstream(s, c)
    ensures forall m: Lid :: m < |s.loops| ==> Remove(c) !in Rest(s.loops[m]) && Destroy(c) !in Rest(s.loops[m])
    ensures forall m: Lid :: m < |s.loops| ==> Destroy(c) !in s.loops[m].pending
  {
    Facts(s, c);
    forall m: Lid | m < |s.loops|
      ensures Remove(c) !in Rest(s.loops[m]) && Destroy(c) !in Rest(s.loops[m]) && Destroy(c) !in s.loops[m].pending
    {
      assert Count(s.loops[m], Remove(c)) == 0 && Count(s.loops[m], Destroy(c)) == 0;
    }
    assert Count(s.loops[MAIN], Remove(c)) == 0;
  }

  lemma OrphanStays(s: Server, s': Server, m: Lid, l: Lid, c: Cid)
    requires Inv(s) && Orphan(s, l, c) && Ran(s, s', m)
    ensures Orphan(s', l, c)
  {
    OrphanHasNoToken(s, l, c);
    hide Inv;
  }

  // Two batches of its own loop and one of the main loop, and nobody holds it.
  lemma OrphanIsLeft(nLoops: nat, steps: seq<Step>, l: Lid, c: Cid) returns (done: seq<Step>)
    requires 0 < nLoops && Legal(nLoops, steps)
    requires var s := Run(nLoops, steps); Orphan(s, l, c) && s.loops[l].phase.Draining?
    ensures Calmly(steps, done) && Legal(nLoops, done)
    ensures var s' := Run(nLoops, done);
      && NoneRemoving(s') && Orphan(s', l, c) && MAIN < |s'.loops|
      && s'.loops[l].phase == Polling && !HeldBy(s'.loops[l].pending, c) && !s'.loops[MAIN].phase.Draining?
  {
    done := Settle(nLoops, steps);
    done := OwnBatch(nLoops, done, l, c);
    done := NextBatch(nLoops, done, l);
    done := OwnBatch(nLoops, done, l, c);
    LoopsStay(nLoops, done);
    if Run(nLoops, done).loops[MAIN].phase.Draining? {
      done := MainBatch(nLoops, done, l, c);
    }
    hide Inv, Next, Run, Legal;
  }

  lemma OwnBatch(nLoops: nat, steps: seq<Step>, l: Lid, c: Cid) returns (done: seq<Step>)
    requires 0 < nLoops && Legal(nLoops, steps)
    requires var s := Run(nLoops, steps); NoneRemoving(s) && Orphan(s, l, c) && s.loops[l].phase.Draining?
    ensures Calmly(steps, done) && Legal(nLoops, done)
    ensures var s, s' := Run(nLoops, steps), Run(nLoops, done);
      && |s'.loops| == |s.loops| && NoneRemoving(s') && Orphan(s', l, c) && s'.loops[l].phase == Polling
      && (!HeldBy(s.loops[l].pending, c) ==> !HeldBy(s'.loops[l].pending, c))
  {
    InvOverRuns(nLoops, steps);
    OrphanHasNoToken(Run(nLoops, steps), l, c);
    done := FinishBatch(nLoops, steps, l);
    OrphanStays(Run(nLoops, steps), Run(nLoops, done), l, l, c);
    hide Inv, Next, Run, Legal;
  }

  lemma MainBatch(nLoops: nat, steps: seq<Step>, l: Lid, c: Cid) returns (done: seq<Step>)
    requires 0 < nLoops && Legal(nLoops, steps)
    requires var s := Run(nLoops, steps);
      && NoneRemoving(s) && Orphan(s, l, c) && s.loops[l].phase == Polling && !HeldBy(s.loops[l].pending, c)
      && MAIN < |s.loops| && s.loops[MAIN].phase.Draining?
    ensures Calmly(steps, done) && Legal(nLoops, done)
    ensures var s' := Run(nLoops, done);
      && NoneRemoving(s') && Orphan(s', l, c) && MAIN < |s'.loops|
      && s'.loops[l].phase == Polling && !HeldBy(s'.loops[l].pending, c) && !s'.loops[MAIN].phase.Draining?
  {
    InvOverRuns(nLoops, steps);
    OrphanHasNoToken(Run(nLoops, steps), l, c);
    done := FinishBatch(nLoops, steps, MAIN);
    OrphanStays(Run(nLoops, steps), Run(nLoops, done), MAIN, l, c);
    hide Inv, Next, Run, Legal;
  }

  lemma LetGo(s: Server, l: Lid, c: Cid)
    requires Inv(s) && NoneRemoving(s) && Orphan(s, l, c) && MAIN < |s.loops|
    requires s.loops[l].phase == Polling && !HeldBy(s.loops[l].pending, c) && !s.loops[MAIN].phase.Draining?
    ensures Enabled(s, Release(c)) && Dangles(Next(s, Release(c)), c)
  {
    OrphanHasNoToken(s, l, c);
    assert LoopOk(s, l) && ConnOk(s, c);
    NobodyHolds(s, c);
    hide Inv;
  }

  lemma OrphanCanDangle(nLoops: nat, steps: seq<Step>, l: Lid, c: Cid)
    requires 0 < nLoops && Legal(nLoops, steps)
    requires var s := Run(nLoops, steps); Orphan(s, l, c) && s.loops[l].phase.Draining?
    ensures CanDangle(nLoops, steps, c)
  {
    var left := OrphanIsLeft(nLoops, steps, l, c);
    InvOverRuns(nLoops, left);
    LetGo(Run(nLoops, left), l, c);
    Extend(nLoops, left, Release(c));
    var done := left + [Release(c)];
    hide Inv, Next;
    CalmlyRearmsNothing(nLoops, steps, done, c);
    assert DanglesLater(nLoops, steps, done, c);
  }

  // From any reachable state: if c is rearmed no further, its object can be released with its channel
  // in the poller's map exactly if none of its closes is still to be seen through.
  lemma RearmDanglesExactly(nLoops: nat, steps: seq<Step>, l: Lid)
    requires 0 < nLoops && Legal(nLoops, steps) && Enabled(Run(nLoops, steps), Rearm(l))
    ensures Legal(nLoops, steps + [Rearm(l)])
    ensures CanDangle(nLoops, steps + [Rearm(l)], Sender(Run(nLoops, steps), l)) <==> !StillToGo(Run(nLoops, steps), l)
  {
    var s, called := Run(nLoops, steps), steps + [Rearm(l)];
    var c := Sender(s, l);
    InvOverRuns(nLoops, steps);
    Facts(s, c);
    Extend(nLoops, steps, Rearm(l));
    Rearmed(s, l);
    hide Inv, Next, TasksFit;
    if StillToGo(s, l) {
      forall done ensures !DanglesLater(nLoops, called, done, c) {
        if called <= done && Legal(nLoops, done) && NoRearmSince(nLoops, |called|, done, c) {
          CoveredFromHereOn(nLoops, called, done, c);
          InvOverRuns(nLoops, done);
          CoveredDoesNotDangle(Run(nLoops, done), c);
        }
      }
    } else {
      OrphanCanDangle(nLoops, called, l, c);
    }
  }
}
