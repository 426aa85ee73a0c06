// Tasks bound to a bare `this`: a sendInLoop or shutdownInLoop that another thread queues does not
// hold its connection. If it is queued in time, it finds its connection alive.

module RawTasks {
  import opened Common
  import opened Lifecycle
  import opened LifecycleInvariant

  // The connection has a destruction to come that has not been queued yet.
  predicate Upstream(s: Server, c: Cid)
    requires 0 < |s.loops|
  {
    || c in s.connections
    || Remove(c) in s.loops[MAIN].pending || Remove(c) in Rest(s.loops[MAIN]) || Erasing(s, c)
  }

  // In time: that, or something that waits for the same next batch holds the connection until that
  // batch is over.
  predicate InTime(s: Server, c: Cid)
    requires Known(s, c)
  {
    Upstream(s, c) || HeldBy(s.loops[s.conns[c].home].pending, c)
  }

  // Every bare task that a history queues after its first n steps is queued in time.
  predicate InTimeSince(nLoops: nat, n: nat, steps: seq<Step>)
    requires Legal(nLoops, steps)
  {
    |steps| <= n
    || (InTimeSince(nLoops, n, Front(steps))
        && (Last(steps).PostRaw? ==> InTime(Run(nLoops, Front(steps)), Last(steps).c)))
  }

  // ---------------------------------------------------------------- the invariant

  predicate WaitsSafely(s: Server, t: Task) {
    t.Raw? ==> Known(s, t.c) && InTime(s, t.c)
  }

  predicate RunsSafely(s: Server, l: Lid, t: Task)
    requires l < |s.loops| && s.loops[l].phase.Draining?
  {
    t.Raw? ==> Known(s, t.c) && (InTime(s, t.c) || HeldBy(s.loops[l].phase.held, t.c))
  }

  predicate RawOk(s: Server, l: Lid) {
    && l < |s.loops|
    && (forall t :: t in s.loops[l].pending ==> WaitsSafely(s, t))
    && (forall t :: t in Rest(s.loops[l]) ==> RunsSafely(s, l, t))
  }

  ghost predicate RawInv(s: Server) {
    forall l: Lid :: l < |s.loops| ==> RawOk(s, l)
  }

  // ---------------------------------------------------------------- staying in time

  lemma HeldByMore(tasks: seq<Task>, more: seq<Task>, c: Cid)
    requires tasks <= more && HeldBy(tasks, c)
    ensures HeldBy(more, c)
  {
    var t :| t in tasks && t.c == c && !t.Raw?;
    assert t in more;
  }

  // What a step may do to the loops' queues.
  predicate QueueMove(s: Server, s': Server, step: Step, l: Lid)
    requires l < |s.loops| && l < |s'.loops|
  {
    var x, x' := s.loops[l], s'.loops[l];
    if step == StartDrain(l) then x'.pending == [] && x'.phase == Draining(x.pending, x.pending)
    else
      && x.pending <= x'.pending
      && (forall t :: t in x'.pending && t !in x.pending && t.Raw? ==> step == PostRaw(l, t.c))
      && (forall t :: t in Rest(x') ==> t in Rest(x))
      && (Rest(x') != [] ==> x.phase.Draining? && x'.phase.held == x.phase.held)
  }

  ghost predicate QueuesMove(s: Server, s': Server, step: Step) {
    && |s'.loops| == |s.loops| && |s.conns| <= |s'.conns|
    && (forall c: Cid :: c < |s.conns| ==> s'.conns[c].home == s.conns[c].home)
    && (forall l: Lid :: l < |s.loops| ==> QueueMove(s, s', step, l))
  }

  lemma PlainMoves(s: Server, step: Step)
    requires Enabled(s, step) && !step.RunTask? && !step.OnClose? && !step.Accept? && !step.Rearm?
    requires !step.Release? && !step.OnWrite? && !step.QueueDestroy?
    ensures QueuesMove(s, Next(s, step), step)
  {
  }

  lemma PollerMoves(s: Server, step: Step)
    requires Enabled(s, step) && (step.Release? || step.OnWrite? || step.QueueDestroy?)
    ensures QueuesMove(s, Next(s, step), step)
  {
  }

  lemma AcceptMoves(s: Server, fd: Fd, home: Lid)
    requires Enabled(s, Accept(fd, home))
    ensures QueuesMove(s, Next(s, Accept(fd, home)), Accept(fd, home))
  {
  }

  lemma CloseMoves(s: Server, l: Lid)
    requires Enabled(s, OnClose(l))
    ensures QueuesMove(s, Next(s, OnClose(l)), OnClose(l))
  {
  }

  // A task taken, and what it does to the poller, leaves every other queue.
  predicate Taken(s: Server, s': Server, l: Lid) {
    && l < |s.loops| && s.loops[l].phase.Draining? && s.loops[l].phase.rest != []
    && |s'.loops| == |s.loops| && |s'.conns| == |s.conns|
    && (forall c: Cid :: c < |s.conns| ==> s'.conns[c].home == s.conns[c].home)
    && (forall m: Lid :: m < |s.loops| ==> s'.loops[m].pending == s.loops[m].pending)
    && (forall m: Lid :: m < |s.loops| && m != l ==> s'.loops[m].phase == s.loops[m].phase)
    && s'.loops[l].phase == Draining(s.loops[l].phase.held, s.loops[l].phase.rest[1..])
  }

  lemma EstablishTaken(s: Server, l: Lid)
    requires Enabled(s, RunTask(l)) && s.loops[l].phase.rest[0].Establish?
    ensures var s' := Next(s, RunTask(l));
      Taken(s, s', l) && s'.connections == s.connections && s'.loops[MAIN].removing == s.loops[MAIN].removing
  {
  }

  lemma DestroyTaken(s: Server, l: Lid)
    requires Enabled(s, RunTask(l)) && s.loops[l].phase.rest[0].Destroy?
    ensures var s' := Next(s, RunTask(l));
      Taken(s, s', l) && s'.connections == s.connections && s'.loops[MAIN].removing == s.loops[MAIN].removing
  {
  }

  lemma RearmTaken(s: Server, l: Lid)
    requires Enabled(s, Rearm(l))
    ensures var s' := Next(s, Rearm(l));
      Taken(s, s', l) && s'.connections == s.connections && s'.loops[MAIN].removing == s.loops[MAIN].removing
  {
  }

  lemma OtherTaken(s: Server, l: Lid)
    requires Enabled(s, RunTask(l)) && !s.loops[l].phase.rest[0].Establish? && !s.loops[l].phase.rest[0].Destroy?
    ensures var s', t := Next(s, RunTask(l)), s.loops[l].phase.rest[0];
      && Taken(s, s', l)
      && s'.connections == (if t.Remove? then s.connections - {t.c} else s.connections)
      && s'.loops[MAIN].removing == (if t.Remove? then Some(t.c) else s.loops[MAIN].removing)
  {
  }

  lemma TaskTaken(s: Server, step: Step, l: Lid)
    requires Enabled(s, step) && (step == RunTask(l) || step == Rearm(l))
    ensures var s', t := Next(s, step), s.loops[l].phase.rest[0];
      && Taken(s, s', l)
      && s'.connections == (if t.Remove? then s.connections - {t.c} else s.connections)
      && s'.loops[MAIN].removing == (if t.Remove? then Some(t.c) else s.loops[MAIN].removing)
  {
    if step == Rearm(l) {
      RearmTaken(s, l);
    } else {
      match s.loops[l].phase.rest[0] {
        case Establish(_) => EstablishTaken(s, l);
        case Destroy(_) => DestroyTaken(s, l);
        case _ => OtherTaken(s, l);
      }
    }
  }

  lemma TaskMoves(s: Server, step: Step, l: Lid)
    requires Enabled(s, step) && (step == RunTask(l) || step == Rearm(l))
    ensures QueuesMove(s, Next(s, step), step)
  {
    TaskTaken(s, step, l);
    hide Next, Enabled;
  }

  lemma StepMoves(s: Server, step: Step)
    requires Enabled(s, step)
    ensures QueuesMove(s, Next(s, step), step)
  {
    hide Next, Enabled;
    match step {
      case RunTask(l) => TaskMoves(s, step, l);
      case Rearm(l) => TaskMoves(s, step, l);
      case OnClose(l) => CloseMoves(s, l);
      case Accept(fd, home) => AcceptMoves(s, fd, home);
      case Release(_) => PollerMoves(s, step);
      case OnWrite(_) => PollerMoves(s, step);
      case QueueDestroy => PollerMoves(s, step);
      case _ => PlainMoves(s, step);
    }
  }

  // A connection upstream stays there until its destruction is queued on its own loop.
  lemma UpstreamStep(s: Server, step: Step, c: Cid)
    requires Inv(s) && Enabled(s, step) && Known(s, c) && Upstream(s, c)
    ensures 0 < |Next(s, step).loops| && Known(Next(s, step), c)
    ensures Upstream(Next(s, step), c) || HeldBy(Next(s, step).loops[s.conns[c].home].pending, c)
  {
    StepMoves(s, step);
    match step {
      case QueueDestroy => UpstreamQueued(s, c);
      case RunTask(l) => UpstreamTask(s, step, l, c);
      case Rearm(l) => UpstreamTask(s, step, l, c);
      case OnClose(l) => UpstreamClose(s, l, c);
      case _ => UpstreamPlain(s, step, c);
    }
  }

  lemma UpstreamQueued(s: Server, c: Cid)
    requires Enabled(s, QueueDestroy) && Known(s, c) && Upstream(s, c)
    ensures var s' := Next(s, QueueDestroy);
      0 < |s'.loops| && Known(s', c) && (Upstream(s', c) || HeldBy(s'.loops[s.conns[c].home].pending, c))
  {
    var s', home := Next(s, QueueDestroy), s.conns[c].home;
    if Erasing(s, c) {
      assert s'.loops[home].pending[|s.loops[home].pending|] == Destroy(c);
    }
  }

  lemma UpstreamTask(s: Server, step: Step, l: Lid, c: Cid)
    requires Inv(s) && Enabled(s, step) && (step == RunTask(l) || step == Rearm(l)) && Known(s, c) && Upstream(s, c)
    ensures var s' := Next(s, step); 0 < |s'.loops| && Known(s', c) && Upstream(s', c)
  {
    TaskTaken(s, step, l);
    TakenReady(s, step, l);
    hide Inv, Next, Enabled;
    var rest := s.loops[l].phase.rest;
    assert rest == [rest[0]] + rest[1..];
  }

  lemma TakenReady(s: Server, step: Step, l: Lid)
    requires Inv(s) && Enabled(s, step) && (step == RunTask(l) || step == Rearm(l))
    ensures s.loops[l].removing == None
    ensures s.loops[l].phase.rest[0].Remove? ==> l == MAIN
  {
    var t := s.loops[l].phase.rest[0];
    if t.Remove? {
      PopPiece(s, l);
      Facts(s, t.c);
      TokenTells(s, l, t);
    }
  }

  lemma UpstreamClose(s: Server, l: Lid, c: Cid)
    requires Inv(s) && Enabled(s, OnClose(l)) && Known(s, c) && Upstream(s, c)
    ensures var s' := Next(s, OnClose(l)); 0 < |s'.loops| && Known(s', c) && Upstream(s', c)
  {
    FrameFacts(s, l);
    hide Inv;
  }

  lemma UpstreamPlain(s: Server, step: Step, c: Cid)
    requires Enabled(s, step) && !step.QueueDestroy? && !step.RunTask? && !step.Rearm? && !step.OnClose?
    requires Known(s, c) && Upstream(s, c)
    ensures var s' := Next(s, step); 0 < |s'.loops| && Known(s', c) && Upstream(s', c)
  {
  }

  lemma InTimeStep(s: Server, step: Step, c: Cid)
    requires Inv(s) && Enabled(s, step) && Known(s, c) && InTime(s, c)
    ensures var s', home := Next(s, step), s.conns[c].home;
      && Known(s', c) && s'.conns[c].home == home
      && (InTime(s', c) || (step == StartDrain(home) && HeldBy(s.loops[home].pending, c)))
  {
    StepMoves(s, step);
    if Upstream(s, c) {
      UpstreamStep(s, step, c);
    } else {
      hide Next, Enabled;
      var home := s.conns[c].home;
      assert QueueMove(s, Next(s, step), step, home);
      if step != StartDrain(home) {
        HeldByMore(s.loops[home].pending, Next(s, step).loops[home].pending, c);
      }
    }
  }

  lemma WaitingStays(s: Server, step: Step, l: Lid, t: Task)
    requires Inv(s) && RawInv(s) && Enabled(s, step) && l < |s.loops|
    requires step.PostRaw? ==> InTime(s, step.c)
    requires l < |Next(s, step).loops| && t in Next(s, step).loops[l].pending
    ensures WaitsSafely(Next(s, step), t)
  {
    if t.Raw? {
      StepMoves(s, step);
      assert QueueMove(s, Next(s, step), step, l) && RawOk(s, l) && LoopOk(s, l);
      if t in s.loops[l].pending {
        assert WaitsSafely(s, t);
      }
      hide Inv, RawInv, Next, Enabled;
      PostedWhere(s, step, l, t);
      InTimeStep(s, step, t.c);
    }
  }

  lemma PostedWhere(s: Server, step: Step, l: Lid, t: Task)
    requires Enabled(s, step) && (step == PostRaw(l, t.c) ==> InTime(s, t.c))
    ensures step == PostRaw(l, t.c) ==> Known(s, t.c) && s.conns[t.c].home == l
  {
  }

  lemma RunningStays(s: Server, step: Step, l: Lid, t: Task)
    requires Inv(s) && RawInv(s) && Enabled(s, step) && l < |s.loops|
    requires l < |Next(s, step).loops| && t in Rest(Next(s, step).loops[l])
    ensures RunsSafely(Next(s, step), l, t)
  {
    if t.Raw? {
      StepMoves(s, step);
      assert QueueMove(s, Next(s, step), step, l) && RawOk(s, l) && LoopOk(s, l);
      if step == StartDrain(l) {
        assert WaitsSafely(s, t);
        hide Inv, RawInv, Next, Enabled;
        InTimeStep(s, step, t.c);
      } else {
        assert RunsSafely(s, l, t);
        hide Inv, RawInv, Next, Enabled;
        if InTime(s, t.c) {
          InTimeStep(s, step, t.c);
        } else {
          HomesStay(s, step, t.c);
        }
      }
    }
  }

  lemma HomesStay(s: Server, step: Step, c: Cid)
    requires Enabled(s, step) && Known(s, c)
    ensures Known(Next(s, step), c)
  {
    StepMoves(s, step);
  }

  lemma RawStep(s: Server, step: Step)
    requires Inv(s) && RawInv(s) && Enabled(s, step)
    requires step.PostRaw? ==> InTime(s, step.c)
    ensures RawInv(Next(s, step))
  {
    StepMoves(s, step);
    hide Inv, Next, Enabled;
    var s' := Next(s, step);
    forall l: Lid | l < |s'.loops| ensures RawOk(s', l) {
      forall t | t in s'.loops[l].pending ensures WaitsSafely(s', t) {
        WaitingStays(s, step, l, t);
      }
      forall t | t in Rest(s'.loops[l]) ensures RunsSafely(s', l, t) {
        RunningStays(s, step, l, t);
      }
    }
  }

  lemma {:induction false} RawOverRuns(nLoops: nat, steps: seq<Step>)
    requires 0 < nLoops && Legal(nLoops, steps) && InTimeSince(nLoops, 0, steps)
    ensures RawInv(Run(nLoops, steps))
  {
    if steps != [] {
      RawOverRuns(nLoops, Front(steps));
      InvOverRuns(nLoops, Front(steps));
      RawStep(Run(nLoops, Front(steps)), Last(steps));
    }
  }

  // If every bare task is queued in time, each finds its connection in place when it runs.
  lemma InTimeFindsConnection(nLoops: nat, steps: seq<Step>, l: Lid)
    requires 0 < nLoops && Legal(nLoops, steps) && InTimeSince(nLoops, 0, steps)
    requires var s := Run(nLoops, steps);
      l < |s.loops| && s.loops[l].phase.Draining? && s.loops[l].phase.rest != [] && s.loops[l].phase.rest[0].Raw?
    ensures var s := Run(nLoops, steps);
      var c := s.loops[l].phase.rest[0].c; c < |s.conns| && s.conns[c].home == l && s.conns[c].alive
  {
    RawOverRuns(nLoops, steps);
    InvOverRuns(nLoops, steps);
    var s := Run(nLoops, steps);
    var t := s.loops[l].phase.rest[0];
    assert RawOk(s, l) && LoopOk(s, l) && t in Rest(s.loops[l]);
    assert RunsSafely(s, l, t);
    SafeIsAlive(s, l, t.c);
  }

  lemma SafeIsAlive(s: Server, l: Lid, c: Cid)
    requires Inv(s) && Known(s, c) && s.conns[c].home == l && s.loops[l].phase.Draining?
    requires InTime(s, c) || HeldBy(s.loops[l].phase.held, c)
    ensures s.conns[c].alive
  {
    assert LoopOk(s, l) && LoopOk(s, MAIN);
    Facts(s, c);
  }
}
