// What holds in every reachable state of the server, whatever the loops and the other threads do:
// where each connection's tasks are, what the pollers know of it, and what its user has been told.

module LifecycleInvariant {
  import opened Common
  import opened Lifecycle

  // ---------------------------------------------------------------- one connection

  // Closed, with a destruction to come; and with none.
  predicate IsClosing(k: ConnState) {
    k.state == Disconnected && k.destroyed < k.closes
  }

  predicate IsDone(k: ConnState) {
    k.state == Disconnected && k.destroyed == k.closes
  }

  predicate IsUp(log: seq<Callback>) {
    log != [] && log[0] == Up && forall i :: 0 < i < |log| ==> log[i] == Message
  }

  // One up, then messages, then so many downs.
  predicate IsStory(log: seq<Callback>, downs: nat) {
    && downs < |log| && IsUp(log[..|log| - downs])
    && forall i :: |log| - downs <= i < |log| ==> log[i] == Down
  }

  predicate LogFits(k: ConnState) {
    match k.state
    case Connecting => k.log == [] && k.closes == 0
    case Disconnected => 0 < k.closes && IsStory(k.log, k.closes)
    case _ => IsUp(k.log) && k.closes == 0
  }

  predicate ShapeFits(k: ConnState) {
    && LogFits(k) && k.destroyed <= k.closes
    && (k.state == Connecting ==> k.index == New)
    && (IsLive(k) ==> k.index == Added)
    && (k.state == Disconnected && k.destroyed == 0 ==> k.index != New)
    && (k.state == Disconnected && k.index == Added ==> k.armed)
    && (k.armed ==> k.state == Disconnected)
    && (!IsDone(k) ==> k.alive)
  }

  // ---------------------------------------------------------------- its tasks

  function Rest(x: LoopState): seq<Task> {
    if x.phase.Draining? then x.phase.rest else []
  }

  // How many copies of a task have yet to run on a loop.
  function Count(x: LoopState, t: Task): nat {
    multiset(x.pending)[t] + multiset(Rest(x))[t]
  }

  predicate Erasing(s: Server, c: Cid)
    requires 0 < |s.loops|
  {
    s.loops[MAIN].removing == Some(c)
  }

  // Establish waits on the home loop while connecting. Each close makes a token, which is a removal,
  // then the step after it, then a destruction that ends it; connections_ has the connection until
  // one of its removals has run.
  ghost predicate TasksFit(s: Server, c: Cid)
    requires Known(s, c) && 0 < |s.loops|
  {
    var k := s.conns[c];
    && (forall l: Lid :: l < |s.loops| ==>
          Count(s.loops[l], Establish(c)) == if l == k.home && k.state == Connecting then 1 else 0)
    && (forall l: Lid :: 0 < l < |s.loops| ==> Count(s.loops[l], Remove(c)) == 0)
    && (forall l: Lid :: l < |s.loops| && l != k.home ==> Count(s.loops[l], Destroy(c)) == 0)
    && Count(s.loops[MAIN], Remove(c)) + (if Erasing(s, c) then 1 else 0) + Count(s.loops[k.home], Destroy(c))
         + k.destroyed == k.closes
    && (c in s.connections <==> Count(s.loops[MAIN], Remove(c)) == k.closes)
  }

  // ---------------------------------------------------------------- its place in the poller

  predicate MappedTo(m: map<Fd, Cid>, fd: Fd, c: Cid) {
    fd in m && m[fd] == c
  }

  predicate PollerFits(s: Server, c: Cid)
    requires Known(s, c)
  {
    var k, x := s.conns[c], s.loops[s.conns[c].home];
    k.alive ==>
      && (k.index != New ==> MappedTo(x.channels, k.fd, c))
      && (k.index == Added ==> MappedTo(x.kernel, k.fd, c))
      && (k.index == Deleted ==> k.fd !in x.kernel)
  }

  ghost predicate ConnOk(s: Server, c: Cid) {
    && Known(s, c) && 0 < |s.loops|
    && ShapeFits(s.conns[c]) && TasksFit(s, c) && PollerFits(s, c)
  }

  // ---------------------------------------------------------------- one loop

  predicate EntriesOk(s: Server, l: Lid)
    requires l < |s.loops|
  {
    var x := s.loops[l];
    && (forall fd :: fd in x.channels ==>
          && x.channels[fd] < |s.conns|
          && s.conns[x.channels[fd]].home == l && s.conns[x.channels[fd]].fd == fd
          && s.conns[x.channels[fd]].index != New)
    && (forall fd :: fd in x.kernel ==>
          MappedTo(x.channels, fd, x.kernel[fd])
          && s.conns[x.kernel[fd]].alive && s.conns[x.kernel[fd]].index == Added)
  }

  // The active channels still to be handled were registered when the poll returned, and the one being
  // handled is none of them and its connection exists.
  predicate DispatchOk(s: Server, l: Lid)
    requires l < |s.loops|
  {
    var x := s.loops[l];
    && (x.phase.Dispatching? ==>
          && Distinct(x.phase.active)
          && (forall c :: c in x.phase.active ==> c < |s.conns| && s.conns[c].home == l && s.conns[c].index == Added))
    && (x.frame.InEvent? ==>
          && x.phase.Dispatching? && x.frame.c !in x.phase.active
          && x.frame.c < |s.conns| && s.conns[x.frame.c].home == l
          && s.conns[x.frame.c].alive && s.conns[x.frame.c].index != New
          && (!x.frame.acted ==> s.conns[x.frame.c].index == Added))
    && (x.removing.Some? ==>
          && l == MAIN && x.phase != Polling && x.removing.value < |s.conns| && s.conns[x.removing.value].alive
          && (x.frame.InEvent? ==> x.frame.acted))
  }

  // A connection's tasks are in its own loop's hands, and its removal in the main loop's.
  predicate Fits(s: Server, l: Lid, t: Task) {
    t.c < |s.conns| && (s.conns[t.c].home == l || (l == MAIN && t.Remove?))
  }

  predicate AllFit(s: Server, l: Lid, tasks: seq<Task>) {
    forall t :: t in tasks ==> Fits(s, l, t) && (t.Raw? || s.conns[t.c].alive)
  }

  predicate QueuesOk(s: Server, l: Lid)
    requires l < |s.loops|
  {
    var x := s.loops[l];
    && AllFit(s, l, x.pending)
    && (x.phase.Draining? ==> AllFit(s, l, x.phase.held) && forall t :: t in x.phase.rest ==> t in x.phase.held)
  }

  predicate LoopOk(s: Server, l: Lid) {
    l < |s.loops| && EntriesOk(s, l) && DispatchOk(s, l) && QueuesOk(s, l)
  }

  predicate FdsDistinct(s: Server) {
    forall c: Cid, d: Cid :: c < d < |s.conns| && s.conns[c].alive && s.conns[d].alive ==>
      s.conns[c].fd != s.conns[d].fd
  }

  ghost predicate Inv(s: Server) {
    && 0 < |s.loops|
    && (forall c: Cid :: c < |s.conns| ==> ConnOk(s, c))
    && (forall c :: c in s.connections ==> c < |s.conns|)
    && (forall l: Lid :: l < |s.loops| ==> LoopOk(s, l))
    && FdsDistinct(s)
  }

  // ---------------------------------------------------------------- counting

  lemma CountPush(x: LoopState, t: Task, u: Task)
    ensures Count(x.(pending := x.pending + [t]), u) == Count(x, u) + if t == u then 1 else 0
  {
  }

  lemma CountPop(x: LoopState, u: Task)
    requires x.phase.Draining? && x.phase.rest != []
    ensures Count(x, u) == Count(x.(phase := Draining(x.phase.held, x.phase.rest[1..])), u)
                           + if x.phase.rest[0] == u then 1 else 0
  {
    assert x.phase.rest == [x.phase.rest[0]] + x.phase.rest[1..];
  }

  // ---------------------------------------------------------------- connections a step leaves alone

  // Everything ConnOk looks at is the same for d.
  ghost predicate SameFor(s: Server, s': Server, d: Cid)
    requires Known(s, d) && 0 < |s.loops|
  {
    && d < |s'.conns| && s'.conns[d] == s.conns[d] && |s'.loops| == |s.loops|
    && (forall l: Lid :: l < |s.loops| ==>
          && Count(s'.loops[l], Establish(d)) == Count(s.loops[l], Establish(d))
          && Count(s'.loops[l], Remove(d)) == Count(s.loops[l], Remove(d))
          && Count(s'.loops[l], Destroy(d)) == Count(s.loops[l], Destroy(d)))
    && (Erasing(s', d) <==> Erasing(s, d))
    && (d in s'.connections <==> d in s.connections)
    && (PollerFits(s, d) ==> PollerFits(s', d))
  }

  lemma SameMeansOk(s: Server, s': Server, d: Cid)
    requires ConnOk(s, d) && SameFor(s, s', d)
    ensures ConnOk(s', d)
  {
  }

  // ---------------------------------------------------------------- steps of one loop by itself

  // A step that changes where one loop is, and no token, connection or poller entry.
  lemma LoopOnly(s: Server, l: Lid, x: LoopState)
    requires Inv(s) && l < |s.loops|
    requires x.channels == s.loops[l].channels && x.kernel == s.loops[l].kernel && x.removing == s.loops[l].removing
    requires forall t: Task :: !t.User? && !t.Raw? ==> Count(x, t) == Count(s.loops[l], t)
    requires DispatchOk(SetLoop(s, l, x), l) && QueuesOk(SetLoop(s, l, x), l)
    ensures Inv(SetLoop(s, l, x))
  {
    var s' := SetLoop(s, l, x);
    forall c: Cid | c < |s'.conns| ensures ConnOk(s', c) {
      assert ConnOk(s, c);
      LoopOnlyConns(s, l, x, c);
    }
    forall m: Lid | m < |s'.loops| ensures LoopOk(s', m) {
      LoopOnlyLoops(s, l, x, m);
    }
    hide ConnOk, LoopOk;
  }

  lemma LoopOnlyConns(s: Server, l: Lid, x: LoopState, c: Cid)
    requires ConnOk(s, c) && l < |s.loops|
    requires x.channels == s.loops[l].channels && x.kernel == s.loops[l].kernel && x.removing == s.loops[l].removing
    requires forall t: Task :: !t.User? && !t.Raw? ==> Count(x, t) == Count(s.loops[l], t)
    ensures ConnOk(SetLoop(s, l, x), c)
  {
    hide Count;
    SameMeansOk(s, SetLoop(s, l, x), c);
  }

  lemma LoopOnlyLoops(s: Server, l: Lid, x: LoopState, m: Lid)
    requires Inv(s) && l < |s.loops| && m < |s.loops|
    requires x.channels == s.loops[l].channels && x.kernel == s.loops[l].kernel
    requires DispatchOk(SetLoop(s, l, x), l) && QueuesOk(SetLoop(s, l, x), l)
    ensures LoopOk(SetLoop(s, l, x), m)
  {
    hide ConnOk;
    assert LoopOk(s, m);
  }

  lemma PollStep(s: Server, l: Lid, active: seq<Cid>)
    requires Inv(s) && Enabled(s, PollReturns(l, active))
    ensures Inv(Next(s, PollReturns(l, active)))
  {
    assert LoopOk(s, l);
    forall c | c in active ensures c < |s.conns| && s.conns[c].home == l && s.conns[c].index == Added {
      assert Reportable(s.loops[l], s, c);
    }
    LoopOnly(s, l, s.loops[l].(phase := Dispatching(active)));
  }

  lemma BeginEventStep(s: Server, l: Lid)
    requires Inv(s) && Enabled(s, BeginEvent(l))
    ensures Inv(Next(s, BeginEvent(l)))
  {
    assert LoopOk(s, l);
    var active := s.loops[l].phase.active;
    assert active[0] in active && forall c :: c in active[1..] ==> c in active;
    var frame := if s.conns[active[0]].alive then InEvent(active[0], false) else Idle;
    LoopOnly(s, l, s.loops[l].(phase := Dispatching(active[1..]), frame := frame));
  }

  lemma PhaseSteps(s: Server, step: Step)
    requires Inv(s) && Enabled(s, step)
    requires step.EndEvent? || step.StartDrain? || step.EndDrain?
    ensures Inv(Next(s, step))
  {
    var l := step.l;
    assert LoopOk(s, l);
    match step {
      case EndEvent(_) => LoopOnly(s, l, s.loops[l].(frame := Idle));
      case StartDrain(_) =>
        var batch := s.loops[l].pending;
        LoopOnly(s, l, s.loops[l].(pending := [], phase := Draining(batch, batch)));
      case EndDrain(_) => LoopOnly(s, l, s.loops[l].(phase := Polling));
    }
  }

  lemma PostStep(s: Server, l: Lid, t: Task)
    requires Inv(s) && l < |s.loops| && (t.User? || t.Raw?)
    requires t.c < |s.conns| && s.conns[t.c].alive && s.conns[t.c].home == l
    ensures Inv(Push(s, l, t))
  {
    assert LoopOk(s, l);
    LoopOnly(s, l, s.loops[l].(pending := s.loops[l].pending + [t]));
  }

  lemma PostUserStep(s: Server, l: Lid, c: Cid)
    requires Inv(s) && Enabled(s, PostUser(l, c))
    ensures Inv(Next(s, PostUser(l, c)))
  {
    PostStep(s, l, User(c));
  }

  lemma PostRawStep(s: Server, l: Lid, c: Cid)
    requires Inv(s) && Enabled(s, PostRaw(l, c))
    ensures Inv(Next(s, PostRaw(l, c)))
  {
    PostStep(s, l, Raw(c));
  }

  lemma UserTaskStep(s: Server, l: Lid)
    requires Inv(s) && Enabled(s, RunTask(l)) && (s.loops[l].phase.rest[0].User? || s.loops[l].phase.rest[0].Raw?)
    ensures Inv(Next(s, RunTask(l)))
  {
    RawPops(s, l);
  }

  // A task of the user's, or a bare one, is taken.
  lemma RawPops(s: Server, l: Lid)
    requires Inv(s) && l < |s.loops| && s.loops[l].phase.Draining? && s.loops[l].phase.rest != []
    requires s.loops[l].phase.rest[0].User? || s.loops[l].phase.rest[0].Raw?
    ensures Inv(Popped(s, l))
  {
    assert LoopOk(s, l);
    var x := s.loops[l];
    var x' := x.(phase := Draining(x.phase.held, x.phase.rest[1..]));
    forall t: Task | !t.User? && !t.Raw? ensures Count(x', t) == Count(x, t) {
      CountPop(x, t);
    }
    LoopOnly(s, l, x');
  }

  // ---------------------------------------------------------------- steps of one connection by itself

  // A step that changes one connection's state or log, with everything still in place.
  lemma ConnOnly(s: Server, c: Cid, k: ConnState)
    requires Inv(s) && c < |s.conns| && SamePlace(s.conns[c], k) && ShapeFits(k)
    ensures Inv(SetConn(s, c, k))
  {
    var s' := SetConn(s, c, k);
    forall d: Cid | d < |s'.conns| ensures ConnOk(s', d) {
      ConnOnlyConns(s, c, k, d);
    }
    forall m: Lid | m < |s'.loops| ensures LoopOk(s', m) {
      ConnOnlyLoops(s, c, k, m);
    }
  }

  // What the loops and the tasks see of a connection.
  predicate SamePlace(k: ConnState, k': ConnState) {
    && k'.home == k.home && k'.fd == k.fd && k'.index == k.index && k'.alive == k.alive
    && k'.closes == k.closes && k'.destroyed == k.destroyed
    && (k'.state == Connecting <==> k.state == Connecting)
  }

  lemma ConnOnlyConns(s: Server, c: Cid, k: ConnState, d: Cid)
    requires Inv(s) && c < |s.conns| && d < |s.conns| && SamePlace(s.conns[c], k) && ShapeFits(k)
    ensures ConnOk(SetConn(s, c, k), d)
  {
    assert ConnOk(s, d);
    if d != c {
      SameMeansOk(s, SetConn(s, c, k), d);
    } else {
      assert TasksFit(SetConn(s, c, k), c);
    }
  }

  lemma ConnOnlyLoops(s: Server, c: Cid, k: ConnState, m: Lid)
    requires Inv(s) && c < |s.conns| && m < |s.loops| && SamePlace(s.conns[c], k)
    ensures LoopOk(SetConn(s, c, k), m)
  {
    hide ConnOk;
    assert LoopOk(s, m);
  }

  lemma MessageLog(log: seq<Callback>)
    requires IsUp(log)
    ensures IsUp(log + [Message])
  {
  }

  lemma MessageStep(s: Server, l: Lid)
    requires Inv(s) && Enabled(s, OnMessage(l))
    ensures Inv(Next(s, OnMessage(l)))
  {
    assert LoopOk(s, l);
    var c := s.loops[l].frame.c;
    assert ConnOk(s, c);
    var x := s.loops[l].(frame := InEvent(c, true));
    LoopOnly(s, l, x);
    MessageLog(s.conns[c].log);
    ConnOnly(SetLoop(s, l, x), c, s.conns[c].(log := s.conns[c].log + [Message]));
  }

  lemma ShutdownStep(s: Server, l: Lid, c: Cid)
    requires Inv(s) && Enabled(s, Shutdown(l, c))
    ensures Inv(Next(s, Shutdown(l, c)))
  {
    assert ConnOk(s, c);
    ConnOnly(s, c, s.conns[c].(state := Disconnecting));
  }

  // ---------------------------------------------------------------- pieces of the handoff

  // The invariant, saying nothing about where c's token is.
  ghost predicate InvBut(s: Server, c: Cid) {
    && 0 < |s.loops| && Known(s, c)
    && ShapeFits(s.conns[c]) && PollerFits(s, c) && s.conns[c].alive
    && (forall d: Cid :: d < |s.conns| && d != c ==> ConnOk(s, d))
    && (forall d :: d in s.connections ==> d < |s.conns|)
    && (forall l: Lid :: l < |s.loops| ==> LoopOk(s, l))
    && FdsDistinct(s)
  }

  ghost predicate SameCounts(s: Server, s': Server) {
    |s'.loops| == |s.loops| && forall l: Lid, t: Task :: l < |s.loops| ==> Count(s'.loops[l], t) == Count(s.loops[l], t)
  }

  lemma Leave(s: Server, c: Cid)
    requires Inv(s) && c < |s.conns| && s.conns[c].alive
    ensures InvBut(s, c)
  {
    assert ConnOk(s, c);
  }

  lemma Return(s: Server, c: Cid)
    requires InvBut(s, c) && TasksFit(s, c)
    ensures Inv(s)
  {
    hide LoopOk;
    forall d: Cid | d < |s.conns| ensures ConnOk(s, d) {
    }
  }

  // What a change to c and to its entry in its loop's poller leaves of the others.
  lemma OthersKept(s: Server, s': Server, c: Cid, d: Cid)
    requires InvBut(s, c) && d < |s.conns| && d != c
    requires |s'.conns| == |s.conns| && s'.conns[d] == s.conns[d] && s'.conns[c].home == s.conns[c].home
    requires SameCounts(s, s') && s'.connections == s.connections
    requires forall l: Lid :: l < |s.loops| ==> s'.loops[l].removing == s.loops[l].removing
    requires forall l: Lid :: l < |s.loops| && l != s.conns[c].home ==>
      s'.loops[l].channels == s.loops[l].channels && s'.loops[l].kernel == s.loops[l].kernel
    requires var x, x', fd := s.loops[s.conns[c].home], s'.loops[s.conns[c].home], s.conns[c].fd;
      && x'.channels - {fd} == x.channels - {fd} && x'.kernel - {fd} == x.kernel - {fd}
    ensures ConnOk(s', d)
  {
    assert ConnOk(s, d);
    var x, x', fd := s.loops[s.conns[c].home], s'.loops[s.conns[c].home], s.conns[c].fd;
    if s.conns[d].alive && s.conns[d].index != New {
      var f := s.conns[d].fd;
      assert f != fd;
      assert f in x.channels <==> f in x.channels - {fd};
      assert f in x'.channels <==> f in x'.channels - {fd};
      assert f in x.kernel <==> f in x.kernel - {fd};
      assert f in x'.kernel <==> f in x'.kernel - {fd};
      assert f in x.channels ==> (x.channels - {fd})[f] == x.channels[f];
      assert f in x'.channels ==> (x'.channels - {fd})[f] == x'.channels[f];
      assert f in x.kernel ==> (x.kernel - {fd})[f] == x.kernel[f];
      assert f in x'.kernel ==> (x'.kernel - {fd})[f] == x'.kernel[f];
    }
    assert SameFor(s, s', d);
    SameMeansOk(s, s', d);
  }

  // Only c's own loop has c among its dispatched channels, so only there a change to c matters.
  lemma LoopsKept(s: Server, s': Server, c: Cid)
    requires InvBut(s, c) && |s'.conns| == |s.conns| && |s'.loops| == |s.loops|
    requires var home := s.conns[c].home;
      s' == s.(conns := s.conns[c := s'.conns[c]], loops := s.loops[home := s'.loops[home]])
    requires s'.conns[c].home == s.conns[c].home && s'.conns[c].alive
    requires LoopOk(s', s.conns[c].home)
    ensures forall l: Lid :: l < |s'.loops| ==> LoopOk(s', l)
  {
    forall l: Lid | l < |s'.loops| && l != s.conns[c].home ensures LoopOk(s', l) {
      assert LoopOk(s, l);
    }
  }

  // ---------------------------------------------------------------- the last reference

  // An object goes only when each of its closes has been seen through.
  lemma UnreferencedIsDone(s: Server, c: Cid)
    requires Inv(s) && c < |s.conns| && !Referenced(s, c)
    ensures IsDone(s.conns[c])
  {
    assert ConnOk(s, c);
    var k := s.conns[c];
    assert !Held(s.loops[MAIN], c) && !Held(s.loops[k.home], c);
    assert LoopOk(s, MAIN) && LoopOk(s, k.home);
    NoneWaiting(s.loops[MAIN], Remove(c), s);
    NoneWaiting(s.loops[k.home], Destroy(c), s);
  }

  lemma NoneWaiting(x: LoopState, t: Task, s: Server)
    requires !Held(x, t.c) && !t.Raw?
    requires x.phase.Draining? ==> forall u :: u in x.phase.rest ==> u in x.phase.held
    ensures Count(x, t) == 0
  {
  }

  lemma ReleaseEntries(s: Server, c: Cid, m: Lid)
    requires Inv(s) && Enabled(s, Release(c)) && m < |s.loops|
    ensures EntriesOk(DoRelease(s, c), m)
  {
    hide ConnOk, DispatchOk, QueuesOk;
    assert LoopOk(s, m);
  }

  lemma ReleaseLoops(s: Server, c: Cid, m: Lid)
    requires Inv(s) && Enabled(s, Release(c)) && m < |s.loops|
    ensures LoopOk(DoRelease(s, c), m)
  {
    ReleaseEntries(s, c, m);
    hide ConnOk, EntriesOk;
    assert LoopOk(s, m) && !Held(s.loops[m], c);
  }

  lemma ReleaseFds(s: Server, c: Cid)
    requires Inv(s) && Enabled(s, Release(c))
    ensures FdsDistinct(DoRelease(s, c)) && DoRelease(s, c).connections == s.connections
    ensures |DoRelease(s, c).conns| == |s.conns| && |DoRelease(s, c).loops| == |s.loops|
  {
    hide ConnOk, LoopOk;
  }

  lemma ReleaseConns(s: Server, c: Cid, d: Cid)
    requires Inv(s) && Enabled(s, Release(c)) && d < |s.conns|
    ensures ConnOk(DoRelease(s, c), d)
  {
    if d == c {
      UnreferencedIsDone(s, c);
      ReleaseSelf(s, c);
    } else {
      Leave(s, c);
      ReleaseOnly(s, c);
      hide ConnOk, LoopOk, InvBut, DoRelease;
      OthersKept(s, DoRelease(s, c), c, d);
    }
  }

  lemma ReleaseSelf(s: Server, c: Cid)
    requires ConnOk(s, c) && IsDone(s.conns[c])
    ensures ConnOk(DoRelease(s, c), c)
  {
  }

  lemma ReleaseOnly(s: Server, c: Cid)
    requires Known(s, c)
    ensures var s' := DoRelease(s, c);
      && |s'.conns| == |s.conns| && s'.conns[c].home == s.conns[c].home
      && (forall d: Cid :: d < |s.conns| && d != c ==> s'.conns[d] == s.conns[d])
      && SameCounts(s, s') && s'.connections == s.connections
      && (forall l: Lid :: l < |s.loops| ==> s'.loops[l].removing == s.loops[l].removing)
      && (forall l: Lid :: l < |s.loops| && l != s.conns[c].home ==>
            s'.loops[l].channels == s.loops[l].channels && s'.loops[l].kernel == s.loops[l].kernel)
      && var x, x', fd := s.loops[s.conns[c].home], s'.loops[s.conns[c].home], s.conns[c].fd;
         x'.channels - {fd} == x.channels - {fd} && x'.kernel - {fd} == x.kernel - {fd}
  {
    var home, fd := s.conns[c].home, s.conns[c].fd;
    assert s.loops[home].kernel - {fd} - {fd} == s.loops[home].kernel - {fd};
  }

  lemma ReleaseStep(s: Server, c: Cid)
    requires Inv(s) && Enabled(s, Release(c))
    ensures Inv(Next(s, Release(c)))
  {
    var s' := DoRelease(s, c);
    ReleaseFds(s, c);
    forall d: Cid | d < |s.conns| ensures ConnOk(s', d) {
      ReleaseConns(s, c, d);
    }
    forall m: Lid | m < |s.loops| ensures LoopOk(s', m) {
      ReleaseLoops(s, c, m);
    }
    hide ConnOk, LoopOk, DoRelease;
  }

  // ---------------------------------------------------------------- a connection and its poller entry

  // Only c and its descriptor's entries in its own loop's poller are different.
  predicate OnlyEntry(s: Server, s': Server, c: Cid)
    requires Known(s, c)
  {
    var home, fd := s.conns[c].home, s.conns[c].fd;
    && |s'.conns| == |s.conns| && |s'.loops| == |s.loops| && s'.connections == s.connections
    && s' == s.(conns := s.conns[c := s'.conns[c]], loops := s.loops[home := s'.loops[home]])
    && s'.conns[c].home == home && s'.conns[c].fd == fd && s'.conns[c].alive
    && var x, x' := s.loops[home], s'.loops[home];
       && x' == x.(channels := x'.channels, kernel := x'.kernel)
       && x'.channels - {fd} == x.channels - {fd} && x'.kernel - {fd} == x.kernel - {fd}
  }

  // Where c stands in its loop's dispatch, its new index_ allows.
  predicate StillDispatched(s: Server, c: Cid, k: ConnState)
    requires Known(s, c)
  {
    var x := s.loops[s.conns[c].home];
    && (x.phase.Dispatching? && c in x.phase.active ==> k.index == Added)
    && (x.frame.InEvent? && x.frame.c == c ==> k.index != New && (!x.frame.acted ==> k.index == Added))
  }

  lemma DispatchKept(s: Server, s': Server, c: Cid)
    requires Known(s, c) && OnlyEntry(s, s', c) && LoopOk(s, s.conns[c].home) && StillDispatched(s, c, s'.conns[c])
    requires s.conns[c].alive
    ensures DispatchOk(s', s.conns[c].home) && QueuesOk(s', s.conns[c].home)
  {
  }

  lemma EntryPiece(s: Server, s': Server, c: Cid)
    requires InvBut(s, c) && OnlyEntry(s, s', c) && StillDispatched(s, c, s'.conns[c])
    requires ShapeFits(s'.conns[c]) && PollerFits(s', c) && EntriesOk(s', s.conns[c].home)
    ensures InvBut(s', c) && SameCounts(s, s') && s'.loops[MAIN].removing == s.loops[MAIN].removing
    ensures forall l: Lid :: l < |s.loops| ==> s'.loops[l].phase == s.loops[l].phase
  {
    DispatchKept(s, s', c);
    assert LoopOk(s', s.conns[c].home);
    hide ConnOk, LoopOk, PollerFits, ShapeFits;
    forall d: Cid | d < |s.conns| && d != c ensures ConnOk(s', d) {
      OthersKept(s, s', c, d);
    }
    LoopsKept(s, s', c);
  }

  // The connection being handled is not among those still to be, and nobody is handled in a batch.
  lemma HandledAlone(s: Server, c: Cid)
    requires InvBut(s, c)
    ensures var x := s.loops[s.conns[c].home];
      && (x.frame.InEvent? ==> x.phase.Dispatching?)
      && (x.frame.InEvent? && x.frame.c == c ==> c !in x.phase.active)
  {
    assert LoopOk(s, s.conns[c].home);
  }

  lemma EstablishOnly(s: Server, c: Cid)
    requires InvBut(s, c) && s.conns[c].state == Connecting
    ensures OnlyEntry(s, DoEstablish(s, c), c)
  {
    var x, fd := s.loops[s.conns[c].home], s.conns[c].fd;
    assert x.channels[fd := c] - {fd} == x.channels - {fd} && x.kernel[fd := c] - {fd} == x.kernel - {fd};
  }

  lemma EstablishedLoop(s: Server, c: Cid)
    requires InvBut(s, c) && s.conns[c].state == Connecting
    ensures var s' := DoEstablish(s, c); |s'.loops| == |s.loops| && EntriesOk(s', s.conns[c].home)
  {
    hide ConnOk, DispatchOk, QueuesOk;
    assert LoopOk(s, s.conns[c].home);
  }

  lemma EstablishPiece(s: Server, c: Cid)
    requires InvBut(s, c) && s.conns[c].state == Connecting
    ensures var s' := DoEstablish(s, c);
      && InvBut(s', c) && SameCounts(s, s') && s'.connections == s.connections
      && s'.conns[c] == s.conns[c].(state := Connected, index := Added, log := [Up])
      && s'.loops[MAIN].removing == s.loops[MAIN].removing
  {
    EstablishOnly(s, c);
    EstablishedLoop(s, c);
    hide ConnOk, LoopOk;
    EntryPiece(s, DoEstablish(s, c), c);
  }

  lemma DownAgain(log: seq<Callback>, downs: nat)
    requires IsStory(log, downs)
    ensures IsStory(log + [Down], downs + 1)
  {
    assert (log + [Down])[..|log| - downs] == log[..|log| - downs];
  }

  lemma ClosedShape(k: ConnState)
    requires ShapeFits(k) && k.index == Added && k.alive
    ensures ShapeFits(k.(state := Disconnected, index := Deleted, armed := false,
                         log := k.log + [Down], closes := k.closes + 1))
  {
    assert IsLive(k) ==> k.log[..|k.log|] == k.log && IsStory(k.log, 0);
    DownAgain(k.log, k.closes);
  }

  lemma ClosedOnly(s: Server, c: Cid)
    requires InvBut(s, c) && s.conns[c].index == Added
    ensures var k, s' := s.conns[c], Closed(s, c);
      && OnlyEntry(s, s', c) && s.conns[c].fd !in s'.loops[k.home].kernel
      && s'.conns[c] == k.(state := Disconnected, index := Deleted, armed := false,
                           log := k.log + [Down], closes := k.closes + 1)
  {
    var x, fd := s.loops[s.conns[c].home], s.conns[c].fd;
    assert x.kernel - {fd} - {fd} == x.kernel - {fd};
  }

  lemma ClosedLoop(s: Server, c: Cid)
    requires InvBut(s, c) && s.conns[c].index == Added
    requires var x := s.loops[s.conns[c].home]; x.frame == InEvent(c, true)
    ensures var s' := Closed(s, c); |s'.loops| == |s.loops| && EntriesOk(s', s.conns[c].home)
  {
    hide ConnOk, DispatchOk, QueuesOk;
    assert LoopOk(s, s.conns[c].home);
  }

  // The close callback's work up to removeConnection, in a dispatch of c that has acted.
  lemma ClosePiece(s: Server, c: Cid)
    requires InvBut(s, c) && s.conns[c].index == Added
    requires var x := s.loops[s.conns[c].home]; x.frame == InEvent(c, true)
    ensures var k, s' := s.conns[c], Closed(s, c);
      && InvBut(s', c) && SameCounts(s, s') && s'.connections == s.connections
      && s'.conns[c] == k.(state := Disconnected, index := Deleted, armed := false,
                           log := k.log + [Down], closes := k.closes + 1)
      && (forall l: Lid :: l < |s.loops| ==>
            s'.loops[l].removing == s.loops[l].removing && s'.loops[l].phase == s.loops[l].phase)
  {
    ClosedOnly(s, c);
    ClosedLoop(s, c);
    ClosedShape(s.conns[c]);
    HandledAlone(s, c);
    hide ConnOk, LoopOk, ShapeFits, Closed;
    EntryPiece(s, Closed(s, c), c);
  }

  lemma DestroyOnly(s: Server, c: Cid)
    requires InvBut(s, c) && IsClosing(s.conns[c])
    ensures var k, s' := s.conns[c], DoDestroy(s, c);
      && OnlyEntry(s, s', c) && s'.conns[c] == k.(index := New, destroyed := k.destroyed + 1)
  {
    var x, fd := s.loops[s.conns[c].home], s.conns[c].fd;
    assert x.channels - {fd} - {fd} == x.channels - {fd};
    assert x.kernel - {fd} - {fd} == x.kernel - {fd};
  }

  lemma DestroyedLoop(s: Server, c: Cid)
    requires InvBut(s, c) && IsClosing(s.conns[c])
    requires s.loops[s.conns[c].home].phase.Draining?
    ensures var s' := DoDestroy(s, c); |s'.loops| == |s.loops| && EntriesOk(s', s.conns[c].home)
  {
    hide ConnOk, DispatchOk, QueuesOk;
    assert LoopOk(s, s.conns[c].home);
  }

  // connectDestroyed finds the connection closed, and its channel out of nobody's dispatch.
  lemma DestroyPiece(s: Server, c: Cid)
    requires InvBut(s, c) && IsClosing(s.conns[c])
    requires s.loops[s.conns[c].home].phase.Draining?
    ensures var k, s' := s.conns[c], DoDestroy(s, c);
      && InvBut(s', c) && SameCounts(s, s') && s'.connections == s.connections
      && s'.conns[c] == k.(index := New, destroyed := k.destroyed + 1)
      && s'.loops[MAIN].removing == s.loops[MAIN].removing
  {
    DestroyOnly(s, c);
    DestroyedLoop(s, c);
    HandledAlone(s, c);
    hide ConnOk, LoopOk, DoDestroy;
    EntryPiece(s, DoDestroy(s, c), c);
  }

  // ---------------------------------------------------------------- EPOLLOUT of a closed connection

  // enableWriting or disableWriting on it: its place in the handoff stays as it is.
  lemma ArmPiece(s: Server, c: Cid, on: bool)
    requires InvBut(s, c) && s.conns[c].state == Disconnected && TasksFit(s, c)
    requires if on then !s.conns[c].armed && s.loops[s.conns[c].home].phase.Draining?
             else s.conns[c].index == Added && s.loops[s.conns[c].home].frame == InEvent(c, true)
    ensures Inv(UpdateChannel(s, c, on, on))
  {
    var s' := UpdateChannel(s, c, on, on);
    ArmOnly(s, c, on);
    ArmLoop(s, c, on);
    HandledAlone(s, c);
    hide ConnOk, LoopOk, Count, UpdateChannel;
    EntryPiece(s, s', c);
    hide InvBut;
    assert TasksFit(s', c);
    Return(s', c);
  }

  lemma ArmOnly(s: Server, c: Cid, on: bool)
    requires InvBut(s, c) && s.conns[c].state == Disconnected
    requires if on then !s.conns[c].armed else s.conns[c].index == Added
    ensures var s' := UpdateChannel(s, c, on, on);
      OnlyEntry(s, s', c) && s'.conns[c] == s.conns[c].(index := if on then Added else Deleted, armed := on)
  {
    var x, fd := s.loops[s.conns[c].home], s.conns[c].fd;
    assert x.channels[fd := c] - {fd} == x.channels - {fd} && x.kernel[fd := c] - {fd} == x.kernel - {fd};
    assert x.kernel - {fd} - {fd} == x.kernel - {fd};
  }

  lemma ArmLoop(s: Server, c: Cid, on: bool)
    requires InvBut(s, c) && s.conns[c].state == Disconnected
    requires if on then !s.conns[c].armed && s.loops[s.conns[c].home].phase.Draining?
             else s.conns[c].index == Added && s.loops[s.conns[c].home].frame == InEvent(c, true)
    ensures var s' := UpdateChannel(s, c, on, on); |s'.loops| == |s.loops| && EntriesOk(s', s.conns[c].home)
  {
    hide ConnOk, DispatchOk, QueuesOk;
    assert LoopOk(s, s.conns[c].home);
  }

  // ---------------------------------------------------------------- moving the token

  ghost predicate CountsMoved(s: Server, s': Server, l: Lid, t: Task, delta: int)
  {
    && |s'.loops| == |s.loops| && l < |s.loops|
    && (forall m: Lid, u: Task :: m < |s.loops| && !(m == l && u == t) ==>
          Count(s'.loops[m], u) == Count(s.loops[m], u))
    && Count(s'.loops[l], t) == Count(s.loops[l], t) + delta
  }

  // A loop keeps its part of the invariant if it is left alone, or is only told what it erases.
  lemma SameLoop(s: Server, s': Server, m: Lid)
    requires LoopOk(s, m) && m < |s'.loops| && s'.conns == s.conns
    requires s'.loops[m] == s.loops[m].(removing := s'.loops[m].removing)
    requires s'.loops[m].removing.Some? && s'.loops[m].removing != s.loops[m].removing ==>
      && m == MAIN && s.loops[m].phase != Polling
      && s'.loops[m].removing.value < |s.conns| && s.conns[s'.loops[m].removing.value].alive
      && (s.loops[m].frame.InEvent? ==> s.loops[m].frame.acted)
    ensures LoopOk(s', m)
  {
  }

  lemma QueueKeeps(s: Server, c: Cid, l: Lid, x: LoopState, t: Task, delta: int, d: Cid)
    requires ConnOk(s, d) && d != c && l < |s.loops| && t.c == c
    requires x.removing == s.loops[l].removing
    requires x.channels == s.loops[l].channels && x.kernel == s.loops[l].kernel
    requires CountsMoved(s, SetLoop(s, l, x), l, t, delta)
    ensures ConnOk(SetLoop(s, l, x), d)
  {
    SameMeansOk(s, SetLoop(s, l, x), d);
  }

  // A loop's queue changes by one task of c's.
  lemma QueuePiece(s: Server, c: Cid, l: Lid, x: LoopState, t: Task, delta: int)
    requires InvBut(s, c) && l < |s.loops| && t.c == c
    requires x.frame == s.loops[l].frame && x.removing == s.loops[l].removing
    requires x.channels == s.loops[l].channels && x.kernel == s.loops[l].kernel
    requires CountsMoved(s, SetLoop(s, l, x), l, t, delta)
    requires LoopOk(SetLoop(s, l, x), l)
    ensures InvBut(SetLoop(s, l, x), c)
  {
    hide ConnOk, LoopOk, CountsMoved;
    var s' := SetLoop(s, l, x);
    forall d: Cid | d < |s.conns| && d != c ensures ConnOk(s', d) {
      QueueKeeps(s, c, l, x, t, delta, d);
    }
    forall m: Lid | m < |s.loops| ensures LoopOk(s', m) {
      if m != l {
        SameLoop(s, s', m);
      }
    }
  }

  lemma PushPiece(s: Server, c: Cid, l: Lid, t: Task)
    requires InvBut(s, c) && l < |s.loops| && t.c == c && Fits(s, l, t)
    ensures InvBut(Push(s, l, t), c) && CountsMoved(s, Push(s, l, t), l, t, 1)
  {
    assert LoopOk(s, l);
    PushLoop(s, l, t);
    forall u: Task ensures Count(Push(s, l, t).loops[l], u) == Count(s.loops[l], u) + if t == u then 1 else 0 {
      CountPush(s.loops[l], t, u);
    }
    hide ConnOk, LoopOk, Count;
    QueuePiece(s, c, l, Push(s, l, t).loops[l], t, 1);
  }

  lemma PushLoop(s: Server, l: Lid, t: Task)
    requires LoopOk(s, l) && Fits(s, l, t) && s.conns[t.c].alive
    ensures LoopOk(Push(s, l, t), l)
  {
  }

  lemma PopPiece(s: Server, l: Lid)
    requires Inv(s) && Enabled(s, RunTask(l)) && !s.loops[l].phase.rest[0].Raw?
    ensures var t := s.loops[l].phase.rest[0];
      && InvBut(s, t.c) && InvBut(Popped(s, l), t.c) && CountsMoved(s, Popped(s, l), l, t, -1)
      && 0 < Count(s.loops[l], t)
  {
    assert LoopOk(s, l);
    var t := s.loops[l].phase.rest[0];
    assert t in s.loops[l].phase.rest;
    Leave(s, t.c);
    forall u: Task ensures Count(s.loops[l], u) == Count(Popped(s, l).loops[l], u) + if t == u then 1 else 0 {
      CountPop(s.loops[l], u);
    }
    assert LoopOk(Popped(s, l), l);
    QueuePiece(s, t.c, l, Popped(s, l).loops[l], t, -1);
  }

  function Removing(s: Server, r: Option<Cid>, connections: set<Cid>): Server
    requires 0 < |s.loops|
  {
    SetLoop(s, MAIN, s.loops[MAIN].(removing := r)).(connections := connections)
  }

  lemma RemovingKeeps(s: Server, c: Cid, r: Option<Cid>, connections: set<Cid>, d: Cid)
    requires ConnOk(s, d) && d != c
    requires (s.loops[MAIN].removing.Some? ==> s.loops[MAIN].removing.value == c) && (r.Some? ==> r.value == c)
    requires connections == s.connections || connections == s.connections - {c}
    ensures ConnOk(Removing(s, r, connections), d)
  {
    forall l: Lid, t: Task | l < |s.loops|
      ensures Count(Removing(s, r, connections).loops[l], t) == Count(s.loops[l], t)
    {
    }
    hide Count;
    SameMeansOk(s, Removing(s, r, connections), d);
  }

  // removing_ becomes, or stops being, c.
  lemma RemovingPiece(s: Server, c: Cid, r: Option<Cid>, connections: set<Cid>)
    requires InvBut(s, c) && s.loops[MAIN].phase != Polling
    requires (s.loops[MAIN].removing.Some? ==> s.loops[MAIN].removing.value == c) && (r.Some? ==> r.value == c)
    requires r.Some? && s.loops[MAIN].frame.InEvent? ==> s.loops[MAIN].frame.acted
    requires connections == s.connections || connections == s.connections - {c}
    ensures InvBut(Removing(s, r, connections), c) && SameCounts(s, Removing(s, r, connections))
  {
    hide ConnOk, LoopOk;
    var s' := Removing(s, r, connections);
    forall d: Cid | d < |s.conns| && d != c ensures ConnOk(s', d) {
      RemovingKeeps(s, c, r, connections, d);
    }
    forall m: Lid | m < |s.loops| ensures LoopOk(s', m) {
      SameLoop(s, s', m);
    }
  }

  // ---------------------------------------------------------------- the handoff's steps

  // Where a waiting task is says where its connection is.
  lemma TokenTells(s: Server, l: Lid, t: Task)
    requires 0 < |s.loops| && Known(s, t.c) && TasksFit(s, t.c) && ShapeFits(s.conns[t.c])
    requires l < |s.loops| && 0 < Count(s.loops[l], t)
    ensures var k := s.conns[t.c];
      && (t.Establish? ==> l == k.home && k.state == Connecting)
      && (t.Remove? ==> l == MAIN && IsClosing(k))
      && (t.Destroy? ==> l == k.home && IsClosing(k))
  {
  }

  // From s to s' one task of c's is added or taken, and c moves on: is its token in place again?
  lemma TokenMoves(s: Server, s': Server, c: Cid, l: Lid, t: Task, delta: int)
    requires 0 < |s.loops| && Known(s, c) && TasksFit(s, c) && t.c == c && l < |s.loops|
    requires CountsMoved(s, s', l, t, delta) && |s'.conns| == |s.conns| && s'.conns[c].home == s.conns[c].home
    requires var k, k' := s.conns[c], s'.conns[c];
      match t
      case Establish(_) =>
        && l == k.home && delta == -1 && k.state == Connecting && IsLive(k')
        && k'.closes == k.closes && k'.destroyed == k.destroyed
        && s'.connections == s.connections && Erasing(s, c) == Erasing(s', c)
      case Remove(_) =>
        && l == MAIN && k'.destroyed == k.destroyed && (k'.state == Connecting <==> k.state == Connecting)
        && if delta == -1 then
             k'.closes == k.closes && !Erasing(s, c) && Erasing(s', c) && c !in s'.connections
           else
             && k'.closes == k.closes + 1 && (delta == 0 || delta == 1)
             && (delta == 0 ==> !Erasing(s, c) && Erasing(s', c) && c !in s'.connections)
             && (delta == 1 ==> Erasing(s', c) == Erasing(s, c) && (c in s'.connections <==> c in s.connections))
      case Destroy(_) =>
        && l == k.home && s'.connections == s.connections && k'.closes == k.closes
        && (k'.state == Connecting <==> k.state == Connecting)
        && if delta == -1 then k'.destroyed == k.destroyed + 1 && Erasing(s', c) == Erasing(s, c)
           else delta == 1 && k'.destroyed == k.destroyed && Erasing(s, c) && !Erasing(s', c)
      case _ => false
    ensures TasksFit(s', c)
  {
    hide Count;
    forall m: Lid | m < |s.loops|
      ensures Count(s'.loops[m], Establish(c))
           == if m == s'.conns[c].home && s'.conns[c].state == Connecting then 1 else 0
      ensures 0 < m ==> Count(s'.loops[m], Remove(c)) == 0
      ensures m != s'.conns[c].home ==> Count(s'.loops[m], Destroy(c)) == 0
    {
    }
  }

  lemma CountsThrough(s: Server, s1: Server, s': Server, l: Lid, t: Task, delta: int)
    requires l < |s.loops| && CountsMoved(s, s1, l, t, delta) && SameCounts(s1, s')
    ensures CountsMoved(s, s', l, t, delta)
  {
  }

  lemma CountsAfter(s: Server, s1: Server, s': Server, l: Lid, t: Task, delta: int)
    requires l < |s.loops| && SameCounts(s, s1) && CountsMoved(s1, s', l, t, delta)
    ensures CountsMoved(s, s', l, t, delta)
  {
  }

  lemma CountOf(s: Server, s': Server, l: Lid, t: Task, delta: int)
    requires CountsMoved(s, s', l, t, delta)
    ensures |s'.loops| == |s.loops| && l < |s.loops| && Count(s'.loops[l], t) == Count(s.loops[l], t) + delta
  {
  }

  lemma Facts(s: Server, c: Cid)
    requires Inv(s) && c < |s.conns|
    ensures 0 < |s.loops| && Known(s, c) && TasksFit(s, c) && ShapeFits(s.conns[c])
  {
    assert ConnOk(s, c);
  }

  lemma EstablishStep(s: Server, l: Lid)
    requires Inv(s) && Enabled(s, RunTask(l)) && s.loops[l].phase.rest[0].Establish?
    ensures Inv(Next(s, RunTask(l)))
    ensures var t, s' := s.loops[l].phase.rest[0], Next(s, RunTask(l));
      && l < |s'.loops| && Count(s'.loops[l], t) == Count(s.loops[l], t) - 1
      && Known(s, t.c) && s.conns[t.c].state == Connecting && Known(s', t.c) && IsLive(s'.conns[t.c])
  {
    hide Inv, InvBut, ConnOk, LoopOk, TasksFit, Count, CountsMoved, SameCounts;
    var t := s.loops[l].phase.rest[0];
    var popped := Popped(s, l);
    PopPiece(s, l);
    Facts(s, t.c);
    TokenTells(s, l, t);
    EstablishPiece(popped, t.c);
    var s' := DoEstablish(popped, t.c);
    CountsThrough(s, popped, s', l, t, -1);
    CountOf(s, s', l, t, -1);
    TokenMoves(s, s', t.c, l, t, -1);
    Return(s', t.c);
  }

  lemma RemoveStep(s: Server, l: Lid)
    requires Inv(s) && Enabled(s, RunTask(l)) && s.loops[l].phase.rest[0].Remove?
    ensures Inv(Next(s, RunTask(l)))
    ensures var t, s' := s.loops[l].phase.rest[0], Next(s, RunTask(l));
      && l == MAIN && |s'.loops| == |s.loops| && Count(s'.loops[MAIN], t) == Count(s.loops[MAIN], t) - 1
      && !Erasing(s, t.c) && Erasing(s', t.c) && s'.connections == s.connections - {t.c} && s'.conns == s.conns
  {
    hide Inv, InvBut, ConnOk, LoopOk, TasksFit, Count, CountsMoved, SameCounts;
    var t := s.loops[l].phase.rest[0];
    var popped := Popped(s, l);
    PopPiece(s, l);
    Facts(s, t.c);
    TokenTells(s, l, t);
    RemovingPiece(popped, t.c, Some(t.c), popped.connections - {t.c});
    var s' := Removing(popped, Some(t.c), popped.connections - {t.c});
    CountsThrough(s, popped, s', l, t, -1);
    CountOf(s, s', l, t, -1);
    TokenMoves(s, s', t.c, l, t, -1);
    Return(s', t.c);
  }

  // connectDestroyed runs for a connection that is closed already, so its own close is not taken.
  lemma DestroyStep(s: Server, l: Lid)
    requires Inv(s) && Enabled(s, RunTask(l)) && s.loops[l].phase.rest[0].Destroy?
    ensures Inv(Next(s, RunTask(l)))
    ensures var t, s' := s.loops[l].phase.rest[0], Next(s, RunTask(l));
      && |s'.loops| == |s.loops| && Count(s'.loops[l], t) == Count(s.loops[l], t) - 1
      && Known(s, t.c) && Known(s', t.c)
      && var k, k' := s.conns[t.c], s'.conns[t.c];
         IsClosing(k) && k' == k.(index := New, destroyed := k.destroyed + 1)
  {
    hide Inv, InvBut, ConnOk, LoopOk, TasksFit, Count, CountsMoved, SameCounts;
    var t := s.loops[l].phase.rest[0];
    var popped := Popped(s, l);
    PopPiece(s, l);
    Facts(s, t.c);
    TokenTells(s, l, t);
    DestroyPiece(popped, t.c);
    var s' := DoDestroy(popped, t.c);
    CountsThrough(s, popped, s', l, t, -1);
    CountOf(s, s', l, t, -1);
    TokenMoves(s, s', t.c, l, t, -1);
    Return(s', t.c);
  }

  // A sendInLoop of a closed connection turns EPOLLOUT on.
  lemma RearmStep(s: Server, l: Lid)
    requires Inv(s) && Enabled(s, Rearm(l))
    ensures Inv(Next(s, Rearm(l)))
  {
    var c := s.loops[l].phase.rest[0].c;
    RawPops(s, l);
    Facts(Popped(s, l), c);
    Leave(Popped(s, l), c);
    RearmPlace(s, l, c);
    hide Inv, InvBut, TasksFit;
    ArmPiece(Popped(s, l), c, true);
  }

  lemma RearmPlace(s: Server, l: Lid, c: Cid)
    requires Inv(s) && Enabled(s, Rearm(l)) && c == s.loops[l].phase.rest[0].c
    ensures s.conns[c].home == l
  {
    assert LoopOk(s, l);
  }

  lemma WriteStep(s: Server, l: Lid)
    requires Inv(s) && Enabled(s, OnWrite(l))
    ensures Inv(Next(s, OnWrite(l)))
  {
    var c := s.loops[l].frame.c;
    FrameFacts(s, l);
    var acted := SetLoop(s, l, s.loops[l].(frame := InEvent(c, true)));
    Facts(acted, c);
    Leave(acted, c);
    hide Inv, InvBut, TasksFit;
    ArmPiece(acted, c, false);
  }

  lemma QueueDestroyStep(s: Server)
    requires Inv(s) && Enabled(s, QueueDestroy)
    ensures Inv(Next(s, QueueDestroy))
    ensures var c, s' := s.loops[MAIN].removing.value, Next(s, QueueDestroy);
      && |s'.loops| == |s.loops| && Known(s, c) && !Erasing(s', c) && s'.conns == s.conns
      && var home := s.conns[c].home; Count(s'.loops[home], Destroy(c)) == Count(s.loops[home], Destroy(c)) + 1
  {
    hide InvBut, ConnOk, LoopOk, TasksFit, Count, CountsMoved, SameCounts;
    var c := s.loops[MAIN].removing.value;
    var home := s.conns[c].home;
    MainIsBusy(s);
    Facts(s, c);
    Leave(s, c);
    RemovingPiece(s, c, None, s.connections);
    var idle := Removing(s, None, s.connections);
    PushPiece(idle, c, home, Destroy(c));
    var s' := Push(idle, home, Destroy(c));
    CountsAfter(s, idle, s', home, Destroy(c), 1);
    CountOf(s, s', home, Destroy(c), 1);
    TokenMoves(s, s', c, home, Destroy(c), 1);
    Return(s', c);
  }

  lemma MainIsBusy(s: Server)
    requires Inv(s) && s.loops[MAIN].removing.Some?
    ensures s.loops[MAIN].phase != Polling
    ensures var c := s.loops[MAIN].removing.value; c < |s.conns| && s.conns[c].alive
  {
    assert LoopOk(s, MAIN);
  }

  lemma FrameFacts(s: Server, l: Lid)
    requires Inv(s) && l < |s.loops| && s.loops[l].frame.InEvent? && !s.loops[l].frame.acted
    ensures var c := s.loops[l].frame.c;
      && c < |s.conns| && s.conns[c].home == l && s.conns[c].alive && s.conns[c].index == Added
      && (l == MAIN ==> s.loops[MAIN].removing == None) && s.loops[l].phase.Dispatching?
    ensures Inv(SetLoop(s, l, s.loops[l].(frame := InEvent(s.loops[l].frame.c, true))))
  {
    assert LoopOk(s, l);
    LoopOnly(s, l, s.loops[l].(frame := InEvent(s.loops[l].frame.c, true)));
  }

  lemma CloseStep(s: Server, l: Lid)
    requires Inv(s) && Enabled(s, OnClose(l))
    ensures Inv(Next(s, OnClose(l)))
    ensures var c, s' := s.loops[l].frame.c, Next(s, OnClose(l));
      && |s'.loops| == |s.loops| && Known(s, c) && Known(s', c)
      && s'.conns[c].state == Disconnected && s'.conns[c].closes == s.conns[c].closes + 1
      && s'.conns[c].log == s.conns[c].log + [Down]
      && if l == MAIN then !Erasing(s, c) && Erasing(s', c) && c !in s'.connections
         else Count(s'.loops[MAIN], Remove(c)) == Count(s.loops[MAIN], Remove(c)) + 1
  {
    hide Inv, InvBut, ConnOk, LoopOk, TasksFit, Count, CountsMoved, SameCounts;
    var c := s.loops[l].frame.c;
    FrameFacts(s, l);
    var acted := SetLoop(s, l, s.loops[l].(frame := InEvent(c, true)));
    Facts(acted, c);
    Leave(acted, c);
    ClosePiece(acted, c);
    CloseEnds(acted, Closed(acted, c), l, c);
    if l != MAIN {
      ActedCounts(s, l, c);
    }
  }

  lemma ActedCounts(s: Server, l: Lid, c: Cid)
    requires 0 < l < |s.loops|
    ensures var acted := SetLoop(s, l, s.loops[l].(frame := InEvent(c, true)));
      Count(acted.loops[MAIN], Remove(c)) == Count(s.loops[MAIN], Remove(c))
  {
  }

  // The last act of handleClose: removeConnection, at once on the main loop and queued elsewhere.
  lemma CloseEnds(acted: Server, told: Server, l: Lid, c: Cid)
    requires 0 < |acted.loops| && l < |acted.loops| && Known(acted, c) && TasksFit(acted, c)
    requires InvBut(told, c) && SameCounts(acted, told) && |told.conns| == |acted.conns|
    requires told.connections == acted.connections && told.loops[MAIN].removing == acted.loops[MAIN].removing
    requires told.conns[c].home == acted.conns[c].home
    requires acted.conns[c].state != Connecting && told.conns[c].state != Connecting
    requires told.conns[c].closes == acted.conns[c].closes + 1 && told.conns[c].destroyed == acted.conns[c].destroyed
    requires l == MAIN ==>
      && told.loops[MAIN].phase != Polling && told.loops[MAIN].removing == None
      && (told.loops[MAIN].frame.InEvent? ==> told.loops[MAIN].frame.acted)
    ensures Inv(if l == MAIN then Erase(told, c) else Push(told, MAIN, Remove(c)))
    ensures var queued := Push(told, MAIN, Remove(c));
      l != MAIN ==> Count(queued.loops[MAIN], Remove(c)) == Count(acted.loops[MAIN], Remove(c)) + 1
  {
    hide Inv, InvBut, ConnOk, LoopOk, TasksFit;
    var s' := if l == MAIN then Erase(told, c) else Push(told, MAIN, Remove(c));
    if l == MAIN {
      RemovingPiece(told, c, Some(c), told.connections - {c});
      TokenMoves(acted, s', c, MAIN, Remove(c), 0);
    } else {
      PushPiece(told, c, MAIN, Remove(c));
      CountsAfter(acted, told, s', MAIN, Remove(c), 1);
      CountOf(acted, s', MAIN, Remove(c), 1);
      TokenMoves(acted, s', c, MAIN, Remove(c), 1);
    }
    Return(s', c);
  }

  // A connection being made: it has no tasks, and its descriptor is nobody else's.
  function Made(s: Server, fd: Fd, home: Lid): Server {
    s.(conns := s.conns + [ConnState(home, fd, Connecting, New, true, false, [], 0, 0)],
       connections := s.connections + {|s.conns|})
  }

  lemma MadeKeeps(s: Server, fd: Fd, home: Lid, d: Cid)
    requires ConnOk(s, d)
    ensures ConnOk(Made(s, fd, home), d)
  {
    SameMeansOk(s, Made(s, fd, home), d);
  }

  lemma MadeLoop(s: Server, fd: Fd, home: Lid, l: Lid)
    requires LoopOk(s, l)
    ensures LoopOk(Made(s, fd, home), l)
    ensures forall t: Task :: |s.conns| <= t.c ==> Count(Made(s, fd, home).loops[l], t) == 0
    ensures s.loops[l].removing != Some(|s.conns|)
  {
  }

  lemma MadePiece(s: Server, fd: Fd, home: Lid)
    requires Inv(s) && Enabled(s, Accept(fd, home))
    ensures var made, c := Made(s, fd, home), |s.conns|;
      && InvBut(made, c)
      && (forall l: Lid, t: Task :: l < |made.loops| && t.c == c ==> Count(made.loops[l], t) == 0)
      && !Erasing(made, c)
  {
    hide ConnOk, LoopOk;
    var made, c := Made(s, fd, home), |s.conns|;
    forall d: Cid | d < |s.conns| ensures ConnOk(made, d) {
      MadeKeeps(s, fd, home, d);
    }
    forall l: Lid | l < |s.loops|
      ensures LoopOk(made, l) && forall t: Task :: c <= t.c ==> Count(made.loops[l], t) == 0
    {
      MadeLoop(s, fd, home, l);
    }
    MadeLoop(s, fd, home, MAIN);
  }

  lemma AcceptHereStep(s: Server, fd: Fd)
    requires Inv(s) && Enabled(s, Accept(fd, MAIN))
    ensures Inv(Next(s, Accept(fd, MAIN)))
    ensures var c, s' := |s.conns|, Next(s, Accept(fd, MAIN));
      && Known(s', c) && s'.conns[c].fd == fd && s'.conns[c].home == MAIN && IsLive(s'.conns[c])
      && c in s'.connections && Count(s'.loops[MAIN], Establish(c)) == 0
  {
    var made, c := Made(s, fd, MAIN), |s.conns|;
    MadePiece(s, fd, MAIN);
    hide Inv, ConnOk, LoopOk;
    EstablishPiece(made, c);
    Return(DoEstablish(made, c), c);
    Facts(DoEstablish(made, c), c);
  }

  lemma AcceptElsewhereStep(s: Server, fd: Fd, home: Lid)
    requires Inv(s) && home != MAIN && Enabled(s, Accept(fd, home))
    ensures Inv(Next(s, Accept(fd, home)))
    ensures var c, s' := |s.conns|, Next(s, Accept(fd, home));
      && Known(s', c) && s'.conns[c].fd == fd && s'.conns[c].home == home && s'.conns[c].state == Connecting
      && c in s'.connections && Count(s'.loops[home], Establish(c)) == 1
  {
    var made, c := Made(s, fd, home), |s.conns|;
    MadePiece(s, fd, home);
    hide Inv, ConnOk, LoopOk;
    PushPiece(made, c, home, Establish(c));
    Return(Push(made, home, Establish(c)), c);
    Facts(Push(made, home, Establish(c)), c);
  }

  // ---------------------------------------------------------------- every reachable state

  lemma InvStep(s: Server, step: Step)
    requires Inv(s) && Enabled(s, step)
    ensures Inv(Next(s, step))
  {
    hide Inv, Next;
    match step {
      case Accept(fd, home) => if home == MAIN { AcceptHereStep(s, fd); } else { AcceptElsewhereStep(s, fd, home); }
      case PollReturns(l, active) => PollStep(s, l, active);
      case BeginEvent(l) => BeginEventStep(s, l);
      case OnMessage(l) => MessageStep(s, l);
      case OnClose(l) => CloseStep(s, l);
      case OnWrite(l) => WriteStep(s, l);
      case Rearm(l) => RearmStep(s, l);
      case QueueDestroy => QueueDestroyStep(s);
      case PostUser(l, c) => PostUserStep(s, l, c);
      case PostRaw(l, c) => PostRawStep(s, l, c);
      case Shutdown(l, c) => ShutdownStep(s, l, c);
      case Release(c) => ReleaseStep(s, c);
      case RunTask(l) =>
        match s.loops[l].phase.rest[0] {
          case Establish(_) => EstablishStep(s, l);
          case Remove(_) => RemoveStep(s, l);
          case Destroy(_) => DestroyStep(s, l);
          case _ => UserTaskStep(s, l);
        }
      case _ => PhaseSteps(s, step);
    }
  }

  lemma {:induction false} InvOverRuns(nLoops: nat, steps: seq<Step>)
    requires 0 < nLoops && Legal(nLoops, steps)
    ensures Inv(Run(nLoops, steps))
  {
    if steps == [] {
      forall l: Lid | l < nLoops ensures LoopOk(Init(nLoops), l) {
      }
    } else {
      InvOverRuns(nLoops, Front(steps));
      InvStep(Run(nLoops, Front(steps)), Last(steps));
    }
  }
}
