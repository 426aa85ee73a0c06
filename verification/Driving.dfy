// How the loops can always go on: from any reachable state a loop can be taken to the end of its
// batch and into the next one. The constructions of LateTasks.dfy and Rearming.dfy are made of these.

module Driving {
  import opened Common
  import opened Lifecycle
  import opened LifecycleInvariant
  import opened RawTasks

  ghost predicate NoneRemoving(s: Server) {
    forall m: Lid :: m < |s.loops| ==> s.loops[m].removing == None
  }

  // ---------------------------------------------------------------- what a batch leaves alone

  // Loop l has run tasks of its batch: connections are as they were unless they were established or
  // destroyed by it, other loops are where they were, and what is new in the queues are the
  // destructions that its removals queued.
  ghost predicate Ran(s: Server, s': Server, l: Lid) {
    && l < |s.loops| && |s'.loops| == |s.loops| && |s'.conns| == |s.conns| && NoneRemoving(s')
    && s'.connections <= s.connections
    && (forall d: Cid :: d < |s.conns| ==>
          && s'.conns[d].alive == s.conns[d].alive && s'.conns[d].home == s.conns[d].home
          && (s.conns[d].state != Connecting && Destroy(d) !in Rest(s.loops[l]) ==> s'.conns[d] == s.conns[d]))
    && (forall t :: t in Rest(s'.loops[l]) ==> t in Rest(s.loops[l]))
    && (forall m: Lid :: m < |s.loops| ==>
          && (m != l ==> s'.loops[m].phase == s.loops[m].phase)
          && s'.loops[m].frame == s.loops[m].frame
          && s.loops[m].pending <= s'.loops[m].pending
          && (forall t :: t in s'.loops[m].pending ==>
                t in s.loops[m].pending || (t.Destroy? && Remove(t.c) in Rest(s.loops[l]))))
  }

  lemma RanOn(s: Server, s1: Server, s': Server, l: Lid)
    requires Ran(s, s1, l) && Ran(s1, s', l)
    ensures Ran(s, s', l)
  {
    forall d: Cid | d < |s.conns| && s.conns[d].state != Connecting && Destroy(d) !in Rest(s.loops[l])
      ensures s'.conns[d] == s.conns[d]
    {
      assert s1.conns[d] == s.conns[d];
    }
    forall m: Lid | m < |s.loops| ensures s.loops[m].pending <= s'.loops[m].pending {
      assert s.loops[m].pending <= s1.loops[m].pending <= s'.loops[m].pending;
    }
  }

  // ---------------------------------------------------------------- one task

  lemma CanRun(s: Server, l: Lid)
    requires Inv(s) && l < |s.loops| && s.loops[l].phase.Draining? && s.loops[l].phase.rest != []
    requires s.loops[l].removing == None
    ensures Enabled(s, RunTask(l))
    ensures s.loops[l].phase.rest[0].Remove? ==> l == MAIN
  {
    assert LoopOk(s, l);
    var t := s.loops[l].phase.rest[0];
    assert t in s.loops[l].phase.rest;
    Facts(s, t.c);
    if t.Remove? {
      PopPiece(s, l);
      TokenTells(s, l, t);
    }
  }

  lemma EstablishRan(s: Server, l: Lid)
    requires Enabled(s, RunTask(l)) && s.loops[l].phase.rest[0].Establish? && NoneRemoving(s)
    requires s.conns[s.loops[l].phase.rest[0].c].state == Connecting
    ensures Ran(s, Next(s, RunTask(l)), l)
  {
  }

  lemma DestroyRan(s: Server, l: Lid)
    requires Enabled(s, RunTask(l)) && s.loops[l].phase.rest[0].Destroy? && NoneRemoving(s)
    requires s.conns[s.loops[l].phase.rest[0].c].state == Disconnected
    ensures Ran(s, Next(s, RunTask(l)), l)
  {
    assert s.loops[l].phase.rest[0] in s.loops[l].phase.rest;
  }

  lemma PlainRan(s: Server, l: Lid)
    requires Enabled(s, RunTask(l)) && NoneRemoving(s)
    requires s.loops[l].phase.rest[0].User? || s.loops[l].phase.rest[0].Raw?
    ensures Ran(s, Next(s, RunTask(l)), l)
  {
  }

  lemma RemoveRan(s: Server)
    requires Enabled(s, RunTask(MAIN)) && s.loops[MAIN].phase.rest[0].Remove? && NoneRemoving(s)
    ensures var s' := Next(s, RunTask(MAIN));
      && Enabled(s', QueueDestroy) && Ran(s, Next(s', QueueDestroy), MAIN)
      && Next(s', QueueDestroy).loops[MAIN].phase == Popped(s, MAIN).loops[MAIN].phase
  {
    assert s.loops[MAIN].phase.rest[0] in s.loops[MAIN].phase.rest;
  }

  lemma TaskRan(s: Server, l: Lid)
    requires Inv(s) && Enabled(s, RunTask(l)) && !s.loops[l].phase.rest[0].Remove? && NoneRemoving(s)
    ensures Ran(s, Next(s, RunTask(l)), l)
    ensures Next(s, RunTask(l)).loops[l].phase == Popped(s, l).loops[l].phase
  {
    var t := s.loops[l].phase.rest[0];
    TaskTaken(s, RunTask(l), l);
    match t {
      case Establish(_) =>
        PopPiece(s, l);
        Facts(s, t.c);
        TokenTells(s, l, t);
        EstablishRan(s, l);
      case Destroy(_) =>
        PopPiece(s, l);
        Facts(s, t.c);
        TokenTells(s, l, t);
        DestroyRan(s, l);
      case _ => PlainRan(s, l);
    }
    hide Inv, InvBut, Next, Ran;
  }

  lemma RunFirst(nLoops: nat, steps: seq<Step>, l: Lid) returns (done: seq<Step>)
    requires 0 < nLoops && Legal(nLoops, steps)
    requires var s := Run(nLoops, steps);
      l < |s.loops| && s.loops[l].phase.Draining? && s.loops[l].phase.rest != [] && NoneRemoving(s)
    ensures Calmly(steps, done) && Legal(nLoops, done) && Ran(Run(nLoops, steps), Run(nLoops, done), l)
    ensures Run(nLoops, done).loops[l].phase == Popped(Run(nLoops, steps), l).loops[l].phase
  {
    hide Inv, Next, Enabled, Ran;
    var s := Run(nLoops, steps);
    InvOverRuns(nLoops, steps);
    CanRun(s, l);
    Extend(nLoops, steps, RunTask(l));
    done := steps + [RunTask(l)];
    if s.loops[l].phase.rest[0].Remove? {
      RemoveRan(s);
      Extend(nLoops, done, QueueDestroy);
      done := done + [QueueDestroy];
    } else {
      TaskRan(s, l);
    }
  }

  // A longer history in which no further bare task is queued, and none rearms its connection.
  predicate Calmly(steps: seq<Step>, done: seq<Step>) {
    steps <= done && forall i :: |steps| <= i < |done| ==> !done[i].PostRaw? && !done[i].Rearm?
  }

  // ---------------------------------------------------------------- a whole batch

  lemma DrainEnds(s: Server, l: Lid)
    requires Inv(s) && l < |s.loops| && s.loops[l].phase.Draining? && s.loops[l].phase.rest == [] && NoneRemoving(s)
    ensures Enabled(s, EndDrain(l)) && Ran(s, Next(s, EndDrain(l)), l)
    ensures Next(s, EndDrain(l)).loops[l].phase == Polling
  {
    assert LoopOk(s, l);
  }

  lemma {:induction false} FinishBatch(nLoops: nat, steps: seq<Step>, l: Lid) returns (done: seq<Step>)
    requires 0 < nLoops && Legal(nLoops, steps)
    requires var s := Run(nLoops, steps); l < |s.loops| && s.loops[l].phase.Draining? && NoneRemoving(s)
    ensures Calmly(steps, done) && Legal(nLoops, done) && Ran(Run(nLoops, steps), Run(nLoops, done), l)
    ensures Run(nLoops, done).loops[l].phase == Polling
    decreases |Run(nLoops, steps).loops[l].phase.rest|
  {
    var s := Run(nLoops, steps);
    InvOverRuns(nLoops, steps);
    if s.loops[l].phase.rest == [] {
      DrainEnds(s, l);
      Extend(nLoops, steps, EndDrain(l));
      done := steps + [EndDrain(l)];
    } else {
      var first := RunFirst(nLoops, steps, l);
      done := FinishBatch(nLoops, first, l);
      RanOn(s, Run(nLoops, first), Run(nLoops, done), l);
    }
    hide Inv, Next, Enabled, Ran;
  }

  // ---------------------------------------------------------------- the step after a removal

  // At most a destruction has been queued that the main loop was about to.
  ghost predicate Settled(s: Server, s': Server) {
    && 0 < |s.loops| && |s'.loops| == |s.loops| && s'.conns == s.conns && s'.connections == s.connections
    && NoneRemoving(s')
    && forall m: Lid :: m < |s.loops| ==>
         && s'.loops[m].phase == s.loops[m].phase && s'.loops[m].frame == s.loops[m].frame
         && s.loops[m].pending <= s'.loops[m].pending
         && (forall t :: t in s'.loops[m].pending ==>
               t in s.loops[m].pending || (t.Destroy? && Erasing(s, t.c)))
  }

  lemma Settle(nLoops: nat, steps: seq<Step>) returns (done: seq<Step>)
    requires 0 < nLoops && Legal(nLoops, steps)
    ensures Calmly(steps, done) && Legal(nLoops, done) && Settled(Run(nLoops, steps), Run(nLoops, done))
  {
    var s := Run(nLoops, steps);
    InvOverRuns(nLoops, steps);
    OnlyMainRemoves(s);
    done := steps;
    if s.loops[MAIN].removing.Some? {
      MainIsBusy(s);
      Facts(s, s.loops[MAIN].removing.value);
      hide Inv, Next;
      QueueSettles(s);
      Extend(nLoops, steps, QueueDestroy);
      done := steps + [QueueDestroy];
    }
  }

  lemma QueueSettles(s: Server)
    requires Enabled(s, QueueDestroy) && forall m: Lid :: 0 < m < |s.loops| ==> s.loops[m].removing == None
    ensures Settled(s, Next(s, QueueDestroy))
  {
  }

  lemma OnlyMainRemoves(s: Server)
    requires Inv(s)
    ensures 0 < |s.loops| && forall m: Lid :: 0 < m < |s.loops| ==> s.loops[m].removing == None
  {
    forall m: Lid | 0 < m < |s.loops| ensures s.loops[m].removing == None {
      assert LoopOk(s, m);
    }
  }

  // ---------------------------------------------------------------- the next batch

  // How many steps at least a loop that handles no more events is from its next batch.
  function StepsToBatch(x: LoopState): nat {
    match x.phase
    case Polling => 1
    case Dispatching(active) => 2 * |active| + if x.frame.InEvent? then 1 else 0
    case Draining(_, _) => 0
  }

  // A loop between batches can let its events pass and take the next batch; nothing else changes.
  lemma {:induction false} NextBatch(nLoops: nat, steps: seq<Step>, l: Lid) returns (done: seq<Step>)
    requires 0 < nLoops && Legal(nLoops, steps)
    requires var s := Run(nLoops, steps); l < |s.loops| && !s.loops[l].phase.Draining? && NoneRemoving(s)
    ensures Calmly(steps, done) && Legal(nLoops, done)
    ensures var s, s' := Run(nLoops, steps), Run(nLoops, done);
      && |s'.loops| == |s.loops| && s'.conns == s.conns && s'.connections == s.connections && NoneRemoving(s')
      && s'.loops[l].phase == Draining(s.loops[l].pending, s.loops[l].pending) && s'.loops[l].pending == []
      && (forall m: Lid :: m < |s.loops| && m != l ==> s'.loops[m] == s.loops[m])
    decreases StepsToBatch(Run(nLoops, steps).loops[l])
  {
    var s := Run(nLoops, steps);
    InvOverRuns(nLoops, steps);
    assert LoopOk(s, l);
    hide Inv;
    var x := s.loops[l];
    var step :=
      if x.phase == Polling then PollReturns(l, [])
      else if x.frame.InEvent? then EndEvent(l)
      else if x.phase.active != [] then BeginEvent(l)
      else StartDrain(l);
    Extend(nLoops, steps, step);
    done := steps + [step];
    if step != StartDrain(l) {
      done := NextBatch(nLoops, done, l);
    }
  }

  // ---------------------------------------------------------------- the last reference

  // With its own loop and the main loop between batches, and nothing of the handoff waiting, nothing
  // holds a connection that no task in its loop's queue does.
  lemma NobodyHolds(s: Server, c: Cid)
    requires Inv(s) && Known(s, c) && NoneRemoving(s) && !Upstream(s, c)
    requires var x := s.loops[s.conns[c].home];
      !x.phase.Draining? && !HeldBy(x.pending, c) && (x.frame.InEvent? ==> x.frame.c != c)
    requires !s.loops[MAIN].phase.Draining?
    ensures !Referenced(s, c)
  {
    var h := s.conns[c].home;
    forall l: Lid | l < |s.loops| ensures !Held(s.loops[l], c) {
      assert LoopOk(s, l);
      assert l != h ==> forall t :: t in s.loops[l].pending && t.c == c ==> Fits(s, l, t);
    }
  }
}
