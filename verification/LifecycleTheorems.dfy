// What the server keeps over every run: each accepted connection is in exactly one place of the
// handoff, every channel the loops touch belongs to a connection that is held, and no descriptor
// stands for two of them. Where a sendInLoop that another thread queued can spoil one of these, the
// theorem says for which runs it holds; Rearming.dfy shows that it fails for the others.

module LifecycleTheorems {
  import opened Common
  import opened Lifecycle
  import opened LifecycleInvariant

  // ---------------------------------------------------------------- tokens

  function One(b: bool): nat {
    if b then 1 else 0
  }

  // In every run: a connection is waiting to be established on its loop, or live, or closed. Each of
  // its closes, of which the user has been told in that order, is one removal queued on the main
  // loop, under way there, one destruction queued on its own loop, or one that is over; no other
  // loop has any of it; and connections_ has the connection exactly until a removal has run.
  lemma EveryCloseOnce(nLoops: nat, steps: seq<Step>, c: Cid)
    requires 0 < nLoops && Legal(nLoops, steps) && c < |Run(nLoops, steps).conns|
    ensures var s := Run(nLoops, steps); |s.loops| == nLoops && s.conns[c].home < nLoops
    ensures var s := Run(nLoops, steps);
      var k, home := s.conns[c], s.loops[s.conns[c].home];
      && Count(home, Establish(c)) + One(IsLive(k)) + One(k.state == Disconnected) == 1
      && Count(s.loops[MAIN], Remove(c)) + One(Erasing(s, c)) + Count(home, Destroy(c)) + k.destroyed == k.closes
      && (forall l: Lid :: l < nLoops && l != k.home ==>
            Count(s.loops[l], Establish(c)) == 0 && Count(s.loops[l], Destroy(c)) == 0)
      && (forall l: Lid :: 0 < l < nLoops ==> Count(s.loops[l], Remove(c)) == 0)
      && (c in s.connections <==> Count(s.loops[MAIN], Remove(c)) == k.closes)
      && LogFits(k)
  {
    InvOverRuns(nLoops, steps);
    LoopsStay(nLoops, steps);
    Tokens(Run(nLoops, steps), c);
  }

  lemma Tokens(s: Server, c: Cid)
    requires Inv(s) && c < |s.conns|
    ensures Known(s, c)
    ensures var k, home := s.conns[c], s.loops[s.conns[c].home];
      && Count(home, Establish(c)) + One(IsLive(k)) + One(k.state == Disconnected) == 1
      && Count(s.loops[MAIN], Remove(c)) + One(Erasing(s, c)) + Count(home, Destroy(c)) + k.destroyed == k.closes
      && (forall l: Lid :: l < |s.loops| && l != k.home ==>
            Count(s.loops[l], Establish(c)) == 0 && Count(s.loops[l], Destroy(c)) == 0)
      && (forall l: Lid :: 0 < l < |s.loops| ==> Count(s.loops[l], Remove(c)) == 0)
      && (c in s.connections <==> Count(s.loops[MAIN], Remove(c)) == k.closes)
      && ShapeFits(k)
  {
    Facts(s, c);
    hide Count;
  }

  lemma {:induction false} LoopsStay(nLoops: nat, steps: seq<Step>)
    requires Legal(nLoops, steps)
    ensures |Run(nLoops, steps).loops| == nLoops
  {
    if steps != [] {
      LoopsStay(nLoops, Front(steps));
      StepKeepsLoops(Run(nLoops, Front(steps)), Last(steps));
    }
  }

  lemma StepKeepsLoops(s: Server, step: Step)
    requires Enabled(s, step)
    ensures |Next(s, step).loops| == |s.loops|
  {
  }

  // ---------------------------------------------------------------- rearming that does no harm

  // The destruction of the connection a rearming send belongs to is still to run in the same batch.
  predicate DestroyAhead(s: Server, l: Lid)
    requires Enabled(s, Rearm(l))
  {
    Destroy(s.loops[l].phase.rest[0].c) in s.loops[l].phase.rest[1..]
  }

  // Every rearming of a history is of that kind; there is none if send is called on the loop's thread.
  predicate Harmless(nLoops: nat, steps: seq<Step>)
    requires Legal(nLoops, steps)
  {
    steps == []
    || (Harmless(nLoops, Front(steps))
        && (Last(steps).Rearm? ==> DestroyAhead(Run(nLoops, Front(steps)), Last(steps).l)))
  }

  // A closed connection whose channel is registered will be destroyed before its loop polls again.
  predicate SoonGone(s: Server, c: Cid) {
    Known(s, c) && (s.conns[c].state == Disconnected && s.conns[c].index == Added ==>
      Destroy(c) in Rest(s.loops[s.conns[c].home]))
  }

  // So it is not closed again.
  lemma SoonGoneStep(s: Server, step: Step, c: Cid)
    requires Inv(s) && Enabled(s, step) && c < |s.conns| && SoonGone(s, c) && s.conns[c].closes <= 1
    requires step.Rearm? ==> DestroyAhead(s, step.l)
    ensures SoonGone(Next(s, step), c) && Next(s, step).conns[c].closes <= 1
  {
    hide Inv;
    match step {
      case RunTask(l) => SoonGoneTask(s, l, c);
      case OnClose(l) => SoonGoneClose(s, l, c);
      case Rearm(l) => SoonGoneRearm(s, l, c);
      case OnWrite(l) => SoonGoneWrite(s, l, c);
      case Accept(fd, home) => SoonGoneAccept(s, fd, home, c);
      case _ => SoonGonePlain(s, step, c);
    }
  }

  lemma SoonGonePlain(s: Server, step: Step, c: Cid)
    requires Enabled(s, step) && c < |s.conns| && SoonGone(s, c)
    requires !step.RunTask? && !step.OnClose? && !step.Rearm? && !step.OnWrite? && !step.Accept?
    ensures SoonGone(Next(s, step), c) && Next(s, step).conns[c].closes == s.conns[c].closes
  {
  }

  lemma SoonGoneAccept(s: Server, fd: Fd, home: Lid, c: Cid)
    requires Enabled(s, Accept(fd, home)) && c < |s.conns| && SoonGone(s, c)
    ensures var s' := Next(s, Accept(fd, home)); SoonGone(s', c) && s'.conns[c] == s.conns[c]
  {
  }

  lemma SoonGoneTask(s: Server, l: Lid, c: Cid)
    requires Inv(s) && Enabled(s, RunTask(l)) && c < |s.conns| && SoonGone(s, c)
    ensures var s' := Next(s, RunTask(l)); SoonGone(s', c) && s'.conns[c].closes == s.conns[c].closes
  {
    hide Inv, InvBut, TasksFit, Count, CountsMoved, ConnOk, LoopOk;
    var t := s.loops[l].phase.rest[0];
    if !t.Raw? {
      PopPiece(s, l);
      Facts(s, t.c);
      TokenTells(s, l, t);
    }
  }

  lemma SoonGoneClose(s: Server, l: Lid, c: Cid)
    requires Inv(s) && Enabled(s, OnClose(l)) && c < |s.conns| && SoonGone(s, c) && s.conns[c].closes <= 1
    ensures var s' := Next(s, OnClose(l)); SoonGone(s', c) && s'.conns[c].closes <= 1
  {
    FrameFacts(s, l);
    Facts(s, s.loops[l].frame.c);
    hide Inv, TasksFit;
  }

  lemma SoonGoneRearm(s: Server, l: Lid, c: Cid)
    requires Inv(s) && Enabled(s, Rearm(l)) && c < |s.conns| && SoonGone(s, c) && DestroyAhead(s, l)
    ensures var s' := Next(s, Rearm(l)); SoonGone(s', c) && s'.conns[c].closes == s.conns[c].closes
  {
    RearmPlace(s, l, s.loops[l].phase.rest[0].c);
    hide Inv;
  }

  lemma SoonGoneWrite(s: Server, l: Lid, c: Cid)
    requires Inv(s) && Enabled(s, OnWrite(l)) && c < |s.conns| && SoonGone(s, c)
    ensures var s' := Next(s, OnWrite(l)); SoonGone(s', c) && s'.conns[c].closes == s.conns[c].closes
  {
    FrameFacts(s, l);
    hide Inv;
  }

  lemma MadeIsFresh(s: Server, fd: Fd, home: Lid)
    requires Enabled(s, Accept(fd, home))
    ensures var s' := Next(s, Accept(fd, home));
      |s'.conns| == |s.conns| + 1 && SoonGone(s', |s.conns|) && s'.conns[|s.conns|].closes == 0
  {
  }

  lemma OnlyAcceptMakes(s: Server, step: Step)
    requires Enabled(s, step) && !step.Accept?
    ensures |Next(s, step).conns| == |s.conns|
  {
  }

  // With harmless rearming only, no connection is closed twice.
  lemma {:induction false} ClosedAtMostOnce(nLoops: nat, steps: seq<Step>, c: Cid)
    requires 0 < nLoops && Legal(nLoops, steps) && Harmless(nLoops, steps) && c < |Run(nLoops, steps).conns|
    ensures SoonGone(Run(nLoops, steps), c) && Run(nLoops, steps).conns[c].closes <= 1
  {
    if steps != [] {
      hide Next, Enabled, SoonGone;
      var s, step := Run(nLoops, Front(steps)), Last(steps);
      InvOverRuns(nLoops, Front(steps));
      if step.Accept? {
        MadeIsFresh(s, step.fd, step.home);
      } else {
        OnlyAcceptMakes(s, step);
      }
      if c < |s.conns| {
        ClosedAtMostOnce(nLoops, Front(steps), c);
        SoonGoneStep(s, step, c);
      }
    }
  }

  // ---------------------------------------------------------------- exactly one status

  // Every accepted connection is in exactly one place: establishment queued on its loop, live,
  // removal queued on the main loop or under way there, destruction queued on its loop, or done;
  // on no other loop is anything of the handoff waiting; and connections_ holds it exactly until
  // its removal runs. The user has heard of at most one down.
  lemma ExactlyOneStatus(nLoops: nat, steps: seq<Step>, c: Cid)
    requires 0 < nLoops && Legal(nLoops, steps) && Harmless(nLoops, steps) && c < |Run(nLoops, steps).conns|
    ensures var s := Run(nLoops, steps); |s.loops| == nLoops && s.conns[c].home < nLoops
    ensures var s := Run(nLoops, steps);
      var k, home := s.conns[c], s.loops[s.conns[c].home];
      && Count(home, Establish(c)) + One(IsLive(k)) + Count(s.loops[MAIN], Remove(c)) + One(Erasing(s, c))
           + Count(home, Destroy(c)) + One(IsDone(k)) == 1
      && (forall l: Lid :: l < nLoops && l != k.home ==>
            Count(s.loops[l], Establish(c)) == 0 && Count(s.loops[l], Destroy(c)) == 0)
      && (forall l: Lid :: 0 < l < nLoops ==> Count(s.loops[l], Remove(c)) == 0)
      && (c in s.connections <==>
            Count(home, Establish(c)) + One(IsLive(k)) + Count(s.loops[MAIN], Remove(c)) == 1)
      && k.closes == One(k.state == Disconnected) && LogFits(k)
  {
    InvOverRuns(nLoops, steps);
    LoopsStay(nLoops, steps);
    ClosedAtMostOnce(nLoops, steps, c);
    Tokens(Run(nLoops, steps), c);
    hide Count, Run;
  }

  // ---------------------------------------------------------------- one connection over time

  function Rank(state: StateE): nat {
    match state
    case Connecting => 0
    case Connected => 1
    case Disconnecting => 2
    case Disconnected => 3
  }

  // What a step may do to a connection that already exists.
  predicate MovesOn(k: ConnState, k': ConnState) {
    && k'.home == k.home && k'.fd == k.fd
    && Rank(k.state) <= Rank(k'.state)
    && k.log <= k'.log && k.closes <= k'.closes && k.destroyed <= k'.destroyed
    && (k'.alive ==> k.alive)
    && (k.alive && !k'.alive ==> IsDone(k))
  }

  lemma TaskMovesOn(s: Server, l: Lid, c: Cid)
    requires Inv(s) && Enabled(s, RunTask(l)) && c < |s.conns|
    ensures var s' := Next(s, RunTask(l)); c < |s'.conns| && MovesOn(s.conns[c], s'.conns[c])
  {
    hide Inv, InvBut, TasksFit, Count, CountsMoved, ConnOk, LoopOk;
    var t := s.loops[l].phase.rest[0];
    if !t.Raw? {
      PopPiece(s, l);
      Facts(s, t.c);
      TokenTells(s, l, t);
    }
  }

  lemma CloseMovesOn(s: Server, l: Lid, c: Cid)
    requires Inv(s) && Enabled(s, OnClose(l)) && c < |s.conns|
    ensures var s' := Next(s, OnClose(l)); c < |s'.conns| && MovesOn(s.conns[c], s'.conns[c])
  {
    hide Inv;
    FrameFacts(s, l);
  }

  lemma AcceptMovesOn(s: Server, fd: Fd, home: Lid, c: Cid)
    requires Enabled(s, Accept(fd, home)) && c < |s.conns|
    ensures var s' := Next(s, Accept(fd, home)); c < |s'.conns| && MovesOn(s.conns[c], s'.conns[c])
  {
  }

  lemma StepMovesOn(s: Server, step: Step, c: Cid)
    requires Inv(s) && Enabled(s, step) && c < |s.conns|
    ensures c < |Next(s, step).conns| && MovesOn(s.conns[c], Next(s, step).conns[c])
  {
    hide Inv, DoEstablish, DoDestroy, DoClose;
    match step {
      case RunTask(l) => TaskMovesOn(s, l, c);
      case OnClose(l) => CloseMovesOn(s, l, c);
      case Accept(fd, home) => AcceptMovesOn(s, fd, home, c);
      case Release(d) => UnreferencedIsDone(s, d);
      case _ =>
    }
  }

  // In every run the state only moves forward along connecting, connected, disconnecting, disconnected;
  // what the user has been told stays told, and is always one up, then messages, then a down for
  // each close.
  lemma ConnectionMovesForward(nLoops: nat, steps: seq<Step>, c: Cid)
    requires 0 < nLoops && Legal(nLoops, steps) && steps != []
    requires c < |Run(nLoops, Front(steps)).conns|
    ensures c < |Run(nLoops, steps).conns|
    ensures var k, k' := Run(nLoops, Front(steps)).conns[c], Run(nLoops, steps).conns[c];
      MovesOn(k, k') && LogFits(k')
  {
    InvOverRuns(nLoops, Front(steps));
    InvOverRuns(nLoops, steps);
    StepMovesOn(Run(nLoops, Front(steps)), Last(steps), c);
    Facts(Run(nLoops, steps), c);
  }

  // ---------------------------------------------------------------- lifetime

  // A rearming send finds its connection with a destruction still to come, in whatever batch.
  predicate StillToGo(s: Server, l: Lid)
    requires Enabled(s, Rearm(l))
  {
    IsClosing(s.conns[s.loops[l].phase.rest[0].c])
  }

  predicate InHand(nLoops: nat, steps: seq<Step>)
    requires Legal(nLoops, steps)
  {
    steps == []
    || (InHand(nLoops, Front(steps))
        && (Last(steps).Rearm? ==> StillToGo(Run(nLoops, Front(steps)), Last(steps).l)))
  }

  lemma AheadIsStillToGo(s: Server, l: Lid)
    requires Inv(s) && Enabled(s, Rearm(l)) && DestroyAhead(s, l)
    ensures StillToGo(s, l)
  {
    var c := s.loops[l].phase.rest[0].c;
    Facts(s, c);
    assert 0 < Count(s.loops[l], Destroy(c));
    TokenTells(s, l, Destroy(c));
  }

  lemma {:induction false} HarmlessIsInHand(nLoops: nat, steps: seq<Step>)
    requires 0 < nLoops && Legal(nLoops, steps) && Harmless(nLoops, steps)
    ensures InHand(nLoops, steps)
  {
    if steps != [] {
      HarmlessIsInHand(nLoops, Front(steps));
      InvOverRuns(nLoops, Front(steps));
      if Last(steps).Rearm? {
        AheadIsStillToGo(Run(nLoops, Front(steps)), Last(steps).l);
      }
    }
  }

  // A connection whose channel is in the poller has not been seen through.
  predicate Covered(k: ConnState) {
    k.index != New ==> !IsDone(k)
  }

  lemma CoveredStep(s: Server, step: Step, c: Cid)
    requires Inv(s) && Enabled(s, step) && c < |s.conns| && Covered(s.conns[c])
    requires step.Rearm? ==> StillToGo(s, step.l) || s.loops[step.l].phase.rest[0].c != c
    ensures c < |Next(s, step).conns| && Covered(Next(s, step).conns[c])
  {
    match step {
      case RunTask(l) => CoveredTask(s, l, c);
      case OnClose(l) => CoveredEvent(s, step, l, c);
      case OnWrite(l) => CoveredEvent(s, step, l, c);
      case Accept(fd, home) => CoveredAccept(s, fd, home, c);
      case _ => hide Inv;
    }
  }

  lemma CoveredAccept(s: Server, fd: Fd, home: Lid, c: Cid)
    requires Enabled(s, Accept(fd, home)) && c < |s.conns|
    ensures var s' := Next(s, Accept(fd, home)); c < |s'.conns| && s'.conns[c] == s.conns[c]
  {
  }

  lemma CoveredTask(s: Server, l: Lid, c: Cid)
    requires Inv(s) && Enabled(s, RunTask(l)) && c < |s.conns| && Covered(s.conns[c])
    ensures var s' := Next(s, RunTask(l)); c < |s'.conns| && Covered(s'.conns[c])
  {
    hide Inv, InvBut, TasksFit, Count, CountsMoved, ConnOk, LoopOk;
    var t := s.loops[l].phase.rest[0];
    if !t.Raw? {
      PopPiece(s, l);
      Facts(s, t.c);
      TokenTells(s, l, t);
    }
  }

  lemma CoveredEvent(s: Server, step: Step, l: Lid, c: Cid)
    requires Inv(s) && Enabled(s, step) && (step == OnClose(l) || step == OnWrite(l))
    requires c < |s.conns| && Covered(s.conns[c])
    ensures c < |Next(s, step).conns| && Covered(Next(s, step).conns[c])
  {
    FrameFacts(s, l);
    Facts(s, s.loops[l].frame.c);
    hide Inv, TasksFit;
  }

  lemma {:induction false} CoveredOverRuns(nLoops: nat, steps: seq<Step>, c: Cid)
    requires 0 < nLoops && Legal(nLoops, steps) && InHand(nLoops, steps) && c < |Run(nLoops, steps).conns|
    ensures Covered(Run(nLoops, steps).conns[c])
  {
    if steps != [] {
      hide Next, Enabled;
      var s, step := Run(nLoops, Front(steps)), Last(steps);
      InvOverRuns(nLoops, Front(steps));
      if step.Accept? {
        MadeIsFresh(s, step.fd, step.home);
      } else {
        OnlyAcceptMakes(s, step);
      }
      if c < |s.conns| {
        CoveredOverRuns(nLoops, Front(steps), c);
        CoveredStep(s, step, c);
      } else {
        MadeIsCovered(s, step.fd, step.home);
      }
    }
  }

  lemma MadeIsCovered(s: Server, fd: Fd, home: Lid)
    requires Enabled(s, Accept(fd, home))
    ensures var s' := Next(s, Accept(fd, home)); |s.conns| < |s'.conns| && Covered(s'.conns[|s.conns|])
  {
  }

  // A channel in a poller's map belongs to an existing connection that someone holds.
  lemma MappedIsAlive(nLoops: nat, steps: seq<Step>, l: Lid, fd: Fd)
    requires 0 < nLoops && Legal(nLoops, steps) && InHand(nLoops, steps)
    requires l < |Run(nLoops, steps).loops| && fd in Run(nLoops, steps).loops[l].channels
    ensures var s := Run(nLoops, steps); var c := s.loops[l].channels[fd];
      c < |s.conns| && s.conns[c].alive && Referenced(s, c) && s.conns[c].fd == fd && s.conns[c].home == l
  {
    InvOverRuns(nLoops, steps);
    var s := Run(nLoops, steps);
    assert LoopOk(s, l);
    var c := s.loops[l].channels[fd];
    CoveredOverRuns(nLoops, steps, c);
    Facts(s, c);
    if !Referenced(s, c) {
      UnreferencedIsDone(s, c);
    }
  }

  // Every channel a loop has in its poller, is handling, or has yet to handle in this turn belongs
  // to an existing connection that someone holds.
  lemma ChannelsAreHeld(nLoops: nat, steps: seq<Step>, l: Lid)
    requires 0 < nLoops && Legal(nLoops, steps) && InHand(nLoops, steps) && l < |Run(nLoops, steps).loops|
    ensures var s := Run(nLoops, steps);
      && (forall fd :: fd in s.loops[l].channels ==>
            var c := s.loops[l].channels[fd]; c < |s.conns| && s.conns[c].alive && Referenced(s, c))
      && (s.loops[l].phase.Dispatching? ==> forall c :: c in s.loops[l].phase.active ==>
            c < |s.conns| && s.conns[c].alive && Referenced(s, c)
            && MappedTo(s.loops[l].channels, s.conns[c].fd, c))
      && (s.loops[l].frame.InEvent? ==> var c := s.loops[l].frame.c;
            c < |s.conns| && s.conns[c].alive && MappedTo(s.loops[l].channels, s.conns[c].fd, c))
  {
    var s := Run(nLoops, steps);
    InvOverRuns(nLoops, steps);
    forall fd | fd in s.loops[l].channels
      ensures var c := s.loops[l].channels[fd]; c < |s.conns| && s.conns[c].alive && Referenced(s, c)
    {
      MappedIsAlive(nLoops, steps, l, fd);
    }
    assert LoopOk(s, l);
    forall c | s.loops[l].phase.Dispatching? && c in s.loops[l].phase.active
      ensures c < |s.conns| && s.conns[c].alive && MappedTo(s.loops[l].channels, s.conns[c].fd, c) && Referenced(s, c)
    {
      CoveredOverRuns(nLoops, steps, c);
      assert ConnOk(s, c);
    }
    if s.loops[l].frame.InEvent? {
      assert ConnOk(s, s.loops[l].frame.c);
    }
  }

  // With harmless rearming only, one yet to be handled is live, and still in connections_.
  lemma ActiveAreLive(nLoops: nat, steps: seq<Step>, l: Lid, c: Cid)
    requires 0 < nLoops && Legal(nLoops, steps) && Harmless(nLoops, steps) && l < |Run(nLoops, steps).loops|
    requires var x := Run(nLoops, steps).loops[l]; x.phase.Dispatching? && c in x.phase.active
    ensures var s := Run(nLoops, steps); c < |s.conns| && IsLive(s.conns[c]) && c in s.connections
  {
    var s := Run(nLoops, steps);
    InvOverRuns(nLoops, steps);
    assert LoopOk(s, l);
    ClosedAtMostOnce(nLoops, steps, c);
    Facts(s, c);
  }

  // When a connection object goes, and its descriptor closes, no poller, active list or running
  // dispatch mentions it.
  lemma NothingDangles(nLoops: nat, steps: seq<Step>, c: Cid, l: Lid)
    requires 0 < nLoops && Legal(nLoops, steps) && InHand(nLoops, steps)
    requires Enabled(Run(nLoops, steps), Release(c)) && l < |Run(nLoops, steps).loops|
    ensures var s := Run(nLoops, steps);
      && c !in s.loops[l].channels.Values && c !in s.loops[l].kernel.Values
      && (s.loops[l].phase.Dispatching? ==> c !in s.loops[l].phase.active)
      && s.loops[l].frame != InEvent(c, true) && s.loops[l].frame != InEvent(c, false)
  {
    var s := Run(nLoops, steps);
    InvOverRuns(nLoops, steps);
    UnreferencedIsDone(s, c);
    CoveredOverRuns(nLoops, steps, c);
    assert LoopOk(s, l) && !Held(s.loops[l], c);
  }

  // ---------------------------------------------------------------- no descriptor aliasing

  // The connection whose destruction a step is.
  function Destroys(s: Server, step: Step): Option<Cid>
    requires Enabled(s, step)
  {
    if step.RunTask? && s.loops[step.l].phase.rest[0].Destroy? then Some(s.loops[step.l].phase.rest[0].c) else None
  }

  // Descriptor fd of loop l stands for connection d, which exists.
  predicate StandsFor(s: Server, l: Lid, fd: Fd, d: Cid) {
    l < |s.loops| && d < |s.conns| && s.conns[d].alive && MappedTo(s.loops[l].channels, fd, d)
  }

  // An alive connection's entry is at its own descriptor, which no other alive one has.
  lemma EntryIsOwn(s: Server, l: Lid, fd: Fd, d: Cid)
    requires Inv(s) && StandsFor(s, l, fd, d)
    ensures s.conns[d].fd == fd && s.conns[d].home == l && s.conns[d].index != New
    ensures forall c: Cid :: c < |s.conns| && c != d && s.conns[c].alive ==> s.conns[c].fd != fd
  {
    assert LoopOk(s, l);
  }

  // A connection about to be established has no descriptor in common with a registered one, which
  // is the one thing an EPOLL_CTL_ADD needs.
  lemma FreeFd(s: Server, c: Cid)
    requires Inv(s) && c < |s.conns| && s.conns[c].state == Connecting
    ensures Known(s, c) && s.conns[c].fd !in s.loops[s.conns[c].home].kernel
    ensures forall d: Cid :: !StandsFor(s, s.conns[c].home, s.conns[c].fd, d)
  {
    Facts(s, c);
    var home, fd := s.conns[c].home, s.conns[c].fd;
    assert LoopOk(s, home);
    forall d: Cid ensures !StandsFor(s, home, fd, d) {
      if StandsFor(s, home, fd, d) {
        EntryIsOwn(s, home, fd, d);
      }
    }
  }

  // Registering, rearming or removing c leaves other connections' entries.
  lemma OtherEntries(s: Server, s': Server, c: Cid, l: Lid, fd: Fd, d: Cid)
    requires Known(s, c) && OnlyEntry(s, s', c) && StandsFor(s, l, fd, d) && d != c && s.conns[c].fd != fd
    ensures StandsFor(s', l, fd, d)
  {
    var home, f := s.conns[c].home, s.conns[c].fd;
    if l == home {
      var x, x' := s.loops[home], s'.loops[home];
      assert fd in x'.channels - {f} <==> fd in x.channels - {f};
      assert (x'.channels - {f})[fd] == (x.channels - {f})[fd];
    }
  }

  lemma EstablishTaskKeeps(s: Server, l: Lid, m: Lid, fd: Fd, d: Cid)
    requires Inv(s) && Enabled(s, RunTask(l)) && s.loops[l].phase.rest[0].Establish? && StandsFor(s, m, fd, d)
    ensures StandsFor(Next(s, RunTask(l)), m, fd, d)
  {
    var t := s.loops[l].phase.rest[0];
    PopPiece(s, l);
    Facts(s, t.c);
    TokenTells(s, l, t);
    EntryIsOwn(s, m, fd, d);
    EstablishOnly(Popped(s, l), t.c);
    hide Inv, InvBut, ConnOk, LoopOk, TasksFit, Count, CountsMoved;
    OtherEntries(Popped(s, l), DoEstablish(Popped(s, l), t.c), t.c, m, fd, d);
  }

  lemma DestroyTaskKeeps(s: Server, l: Lid, m: Lid, fd: Fd, d: Cid)
    requires Inv(s) && Enabled(s, RunTask(l)) && s.loops[l].phase.rest[0].Destroy? && StandsFor(s, m, fd, d)
    ensures StandsFor(Next(s, RunTask(l)), m, fd, d) || (m == l && s.loops[l].phase.rest[0].c == d)
  {
    var t := s.loops[l].phase.rest[0];
    PopPiece(s, l);
    Facts(s, t.c);
    TokenTells(s, l, t);
    EntryIsOwn(s, m, fd, d);
    if t.c != d {
      AliveTask(s, l);
      DestroyOnly(Popped(s, l), t.c);
      hide Inv, InvBut, ConnOk, LoopOk, TasksFit, Count, CountsMoved;
      OtherEntries(Popped(s, l), DoDestroy(Popped(s, l), t.c), t.c, m, fd, d);
    }
  }

  lemma AliveTask(s: Server, l: Lid)
    requires Inv(s) && Enabled(s, RunTask(l)) && !s.loops[l].phase.rest[0].Raw?
    ensures s.conns[s.loops[l].phase.rest[0].c].alive
  {
    assert LoopOk(s, l) && s.loops[l].phase.rest[0] in s.loops[l].phase.rest;
  }

  lemma TaskKeepsEntries(s: Server, l: Lid, m: Lid, fd: Fd, d: Cid)
    requires Inv(s) && Enabled(s, RunTask(l)) && StandsFor(s, m, fd, d)
    ensures StandsFor(Next(s, RunTask(l)), m, fd, d) || (m == l && Destroys(s, RunTask(l)) == Some(d))
  {
    hide Inv;
    match s.loops[l].phase.rest[0] {
      case Establish(_) => EstablishTaskKeeps(s, l, m, fd, d);
      case Destroy(_) => DestroyTaskKeeps(s, l, m, fd, d);
      case _ =>
    }
  }

  lemma RearmKeepsEntries(s: Server, l: Lid, m: Lid, fd: Fd, d: Cid)
    requires Inv(s) && Enabled(s, Rearm(l)) && StandsFor(s, m, fd, d)
    ensures StandsFor(Next(s, Rearm(l)), m, fd, d)
  {
    var c := s.loops[l].phase.rest[0].c;
    EntryIsOwn(s, m, fd, d);
    RearmPlace(s, l, c);
    hide Inv;
  }

  lemma EventKeepsEntries(s: Server, step: Step, l: Lid, m: Lid, fd: Fd, d: Cid)
    requires Inv(s) && Enabled(s, step) && (step == OnClose(l) || step == OnWrite(l)) && StandsFor(s, m, fd, d)
    ensures StandsFor(Next(s, step), m, fd, d)
  {
    FrameFacts(s, l);
    EntryIsOwn(s, m, fd, d);
    hide Inv;
  }

  lemma AcceptKeepsEntries(s: Server, f: Fd, home: Lid, m: Lid, fd: Fd, d: Cid)
    requires Inv(s) && Enabled(s, Accept(f, home)) && StandsFor(s, m, fd, d)
    ensures StandsFor(Next(s, Accept(f, home)), m, fd, d)
  {
    EntryIsOwn(s, m, fd, d);
    hide Inv;
  }

  lemma ReleaseKeepsEntries(s: Server, c: Cid, m: Lid, fd: Fd, d: Cid)
    requires Inv(s) && Enabled(s, Release(c)) && StandsFor(s, m, fd, d) && d != c
    ensures StandsFor(Next(s, Release(c)), m, fd, d)
  {
    hide Inv;
  }

  lemma StepKeepsEntries(s: Server, step: Step, l: Lid, fd: Fd, d: Cid)
    requires Inv(s) && Enabled(s, step) && StandsFor(s, l, fd, d)
    ensures StandsFor(Next(s, step), l, fd, d) || step == Release(d)
         || (Destroys(s, step) == Some(d) && step.l == l && s.loops[l].phase.Draining?)
  {
    hide Inv;
    match step {
      case RunTask(m) => TaskKeepsEntries(s, m, l, fd, d);
      case Accept(f, home) => AcceptKeepsEntries(s, f, home, l, fd, d);
      case OnClose(m) => EventKeepsEntries(s, step, m, l, fd, d);
      case OnWrite(m) => EventKeepsEntries(s, step, m, l, fd, d);
      case Rearm(m) => RearmKeepsEntries(s, m, l, fd, d);
      case Release(c) => if c != d { ReleaseKeepsEntries(s, c, l, fd, d); }
      case _ =>
    }
  }

  // In every run, the entry of an existing connection in a poller's map is never overwritten: it goes
  // only when its own connection is destroyed on its own loop, between dispatches, or is released
  // with its entry, which by NothingDangles does not happen while the closes are in hand.
  lemma EntriesStay(nLoops: nat, steps: seq<Step>, l: Lid, fd: Fd, d: Cid)
    requires 0 < nLoops && Legal(nLoops, steps) && steps != []
    requires StandsFor(Run(nLoops, Front(steps)), l, fd, d)
    ensures var s, s' := Run(nLoops, Front(steps)), Run(nLoops, steps);
      || StandsFor(s', l, fd, d)
      || (Last(steps) == Release(d) && !InHand(nLoops, Front(steps)))
      || (Destroys(s, Last(steps)) == Some(d) && Last(steps).l == l && s.loops[l].phase.Draining?)
  {
    InvOverRuns(nLoops, Front(steps));
    StepKeepsEntries(Run(nLoops, Front(steps)), Last(steps), l, fd, d);
    hide Inv, Next;
    if Last(steps) == Release(d) && InHand(nLoops, Front(steps)) {
      NothingDangles(nLoops, Front(steps), d, l);
    }
  }

  // connectDestroyed always finds its connection disconnected, so it does not tell the user again;
  // and out of the epoll set, unless a send has rearmed it.
  lemma DestroyFindsClosed(nLoops: nat, steps: seq<Step>, l: Lid)
    requires 0 < nLoops && Legal(nLoops, steps) && Enabled(Run(nLoops, steps), RunTask(l))
    requires Run(nLoops, steps).loops[l].phase.rest[0].Destroy?
    ensures var s := Run(nLoops, steps); var c := s.loops[l].phase.rest[0].c;
      && s.conns[c].home == l && s.conns[c].state == Disconnected
      && Next(s, RunTask(l)).conns[c].log == s.conns[c].log
      && (s.conns[c].fd !in s.loops[l].kernel || s.conns[c].armed)
  {
    var s := Run(nLoops, steps);
    InvOverRuns(nLoops, steps);
    var t := s.loops[l].phase.rest[0];
    PopPiece(s, l);
    Facts(s, t.c);
    TokenTells(s, l, t);
    AliveTask(s, l);
    OutOfKernel(s, l, t.c);
  }

  lemma OutOfKernel(s: Server, l: Lid, c: Cid)
    requires Inv(s) && Known(s, c) && s.conns[c].home == l && s.conns[c].alive && s.conns[c].state == Disconnected
    ensures s.conns[c].fd !in s.loops[l].kernel || s.conns[c].armed
  {
    Facts(s, c);
    assert LoopOk(s, l) && ConnOk(s, c);
  }

  // ---------------------------------------------------------------- what each step does

  // Only loop l is different.
  predicate OnlyLoop(s: Server, s': Server, l: Lid) {
    l < |s.loops| && |s'.loops| == |s.loops| && s' == s.(loops := s.loops[l := s'.loops[l]])
  }

  // A turn: the reported channels, handled one after the other, each held while it is; then a batch of
  // exactly what waits.
  lemma TurnSteps(s: Server, step: Step)
    requires Enabled(s, step)
    requires step.PollReturns? || step.BeginEvent? || step.EndEvent? || step.StartDrain? || step.EndDrain?
    ensures var s', l := Next(s, step), step.l;
      && OnlyLoop(s, s', l)
      && var x, x' := s.loops[l], s'.loops[l];
         match step
         case PollReturns(_, active) => x' == x.(phase := Dispatching(active))
         case BeginEvent(_) =>
           var c := x.phase.active[0];
           && x'.phase == Dispatching(x.phase.active[1..])
           && (c < |s.conns| && s.conns[c].alive ==> x'.frame == InEvent(c, false))
           && x' == x.(phase := x'.phase, frame := x'.frame)
         case EndEvent(_) => x' == x.(frame := Idle)
         case StartDrain(_) => x' == x.(pending := [], phase := Draining(x.pending, x.pending))
         case EndDrain(_) => x' == x.(phase := Polling)
         case _ => true
  {
  }

  // What is queued goes behind everything there.
  lemma PostSteps(s: Server, step: Step)
    requires Enabled(s, step) && (step.PostUser? || step.PostRaw?)
    ensures var s', l := Next(s, step), step.l;
      && OnlyLoop(s, s', l)
      && var posted := if step.PostUser? then User(step.c) else Raw(step.c);
         s'.loops[l] == s.loops[l].(pending := s.loops[l].pending + [posted])
  {
  }

  // Only connection c and loop l's frame are different.
  lemma MessageTells(s: Server, l: Lid)
    requires Enabled(s, OnMessage(l))
    ensures var s', c := Next(s, OnMessage(l)), s.loops[l].frame.c;
      && |s'.conns| == |s.conns| && |s'.loops| == |s.loops| && s'.connections == s.connections
      && s'.conns[c] == s.conns[c].(log := s.conns[c].log + [Message])
      && (forall d: Cid :: d < |s.conns| && d != c ==> s'.conns[d] == s.conns[d])
      && s'.loops[l] == s.loops[l].(frame := InEvent(c, true))
      && (forall m: Lid :: m < |s.loops| && m != l ==> s'.loops[m] == s.loops[m])
  {
  }

  // A connection established: up, registered, and told so, and nothing else of it changed.
  lemma EstablishTells(s: Server, l: Lid)
    requires Inv(s) && Enabled(s, RunTask(l)) && s.loops[l].phase.rest[0].Establish?
    ensures var s', c := Next(s, RunTask(l)), s.loops[l].phase.rest[0].c;
      && Known(s', c) && s'.conns[c] == s.conns[c].(state := Connected, index := Added, log := [Up])
      && MappedTo(s'.loops[l].channels, s.conns[c].fd, c) && MappedTo(s'.loops[l].kernel, s.conns[c].fd, c)
      && (forall d: Cid :: d < |s.conns| && d != c ==> s'.conns[d] == s.conns[d])
  {
    var t := s.loops[l].phase.rest[0];
    PopPiece(s, l);
    Facts(s, t.c);
    TokenTells(s, l, t);
    hide Inv, InvBut, ConnOk, LoopOk, TasksFit, Count, CountsMoved;
  }

  // Shutdown changes the state alone, a release the life alone.
  lemma ConnSteps(s: Server, step: Step)
    requires Enabled(s, step) && (step.Shutdown? || step.Release?)
    ensures var s', c := Next(s, step), step.c;
      && |s'.conns| == |s.conns| && s'.connections == s.connections
      && s'.conns[c] == (if step.Shutdown? then s.conns[c].(state := Disconnecting) else s.conns[c].(alive := false))
      && (forall d: Cid :: d < |s.conns| && d != c ==> s'.conns[d] == s.conns[d])
      && (step.Shutdown? ==> s'.loops == s.loops)
  {
  }

  // EPOLLOUT of a closed connection on, and off again: the channel is in the epoll set with it.
  lemma ArmSteps(s: Server, step: Step)
    requires Inv(s) && Enabled(s, step) && (step.Rearm? || step.OnWrite?)
    ensures var s' := Next(s, step);
      var c := if step.Rearm? then s.loops[step.l].phase.rest[0].c else s.loops[step.l].frame.c;
      && Known(s, c) && s.conns[c].home == step.l && |s'.loops| == |s.loops| && |s'.conns| == |s.conns|
      && s'.conns[c] == s.conns[c].(index := if step.Rearm? then Added else Deleted, armed := step.Rearm?)
      && (if step.Rearm? then MappedTo(s'.loops[step.l].kernel, s.conns[c].fd, c)
          else s.conns[c].fd !in s'.loops[step.l].kernel)
      && (forall d: Cid :: d < |s.conns| && d != c ==> s'.conns[d] == s.conns[d])
  {
    if step.Rearm? {
      RearmPlace(s, step.l, s.loops[step.l].phase.rest[0].c);
    } else {
      FrameFacts(s, step.l);
    }
    hide Inv;
  }
}
