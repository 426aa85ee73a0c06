// src/TcpServer.cc with the loops it spans: accept on the main loop, establish on the
// connection's own loop, close there, removal from connections_ on the main loop, destruction on
// the connection's loop again. Any number of loops and connections, every interleaving of the
// loop threads; each step is one action of one thread.

module Lifecycle {
  import opened Common
  import PollerTables

  type Lid = nat
  type Cid = nat
  type Fd = nat

  // loop_ of TcpServer. With no sub loop it is every connection's loop too.
  const MAIN: Lid := 0

  datatype Callback = Up | Message | Down

  // Queued functors of a connection. The three of the handoff hold it, and so do the user's (write
  // complete, high water, a step of a file transfer); a sendInLoop or shutdownInLoop queued by
  // another thread is bound to a bare `this` and does not.
  datatype Task = Establish(c: Cid) | Remove(c: Cid) | Destroy(c: Cid) | User(c: Cid) | Raw(c: Cid)

  // A loop between polls handles active channels, then drains a batch: held is the vector
  // functors, which keeps its elements until it goes, and rest is what of it has yet to run.
  datatype Phase =
    | Polling
    | Dispatching(active: seq<Cid>)
    | Draining(held: seq<Task>, rest: seq<Task>)

  // handleEvent of one connection's channel; acted once its read or close callback has done
  // something. tie_.lock() holds the connection meanwhile.
  datatype Frame = Idle | InEvent(c: Cid, acted: bool)

  datatype LoopState = LoopState(
    pending: seq<Task>,
    phase: Phase,
    frame: Frame,
    removing: Option<Cid>,      // inside removeConnectionInLoop, between erase and queueInLoop
    channels: map<Fd, Cid>,     // the poller's map
    kernel: map<Fd, Cid>)       // the epoll set, by data.ptr

  // alive means that the object, and with it its socket's descriptor, exists. armed is EPOLLOUT in
  // the mask of a closed connection, whose other interest is off; before the close reading keeps
  // the channel registered whatever becomes of EPOLLOUT. The last three fields are kept by the
  // model: what the user has been told, how often handleClose has run, and connectDestroyed.
  datatype ConnState = ConnState(
    home: Lid,
    fd: Fd,
    state: StateE,
    index: Index,
    alive: bool,
    armed: bool,
    log: seq<Callback>,
    closes: nat,
    destroyed: nat)

  predicate IsLive(k: ConnState) {
    k.state == Connected || k.state == Disconnecting
  }

  // A connection's id is nextConnId_ when it was made; connections is the key set of connections_.
  datatype Server = Server(loops: seq<LoopState>, conns: seq<ConnState>, connections: set<Cid>)

  function Init(nLoops: nat): Server {
    Server(seq(nLoops, _ => LoopState([], Polling, Idle, None, map[], map[])), [], {})
  }

  // ---------------------------------------------------------------- pieces of steps

  function SetLoop(s: Server, l: Lid, x: LoopState): Server
    requires l < |s.loops|
  {
    s.(loops := s.loops[l := x])
  }

  function SetConn(s: Server, c: Cid, x: ConnState): Server
    requires c < |s.conns|
  {
    s.(conns := s.conns[c := x])
  }

  function Push(s: Server, l: Lid, t: Task): Server
    requires l < |s.loops|
  {
    SetLoop(s, l, s.loops[l].(pending := s.loops[l].pending + [t]))
  }

  predicate Known(s: Server, c: Cid) {
    c < |s.conns| && s.conns[c].home < |s.loops|
  }

  // EPollPoller::updateChannel for connection c, whose channel now wants events or none.
  function UpdateChannel(s: Server, c: Cid, wants: bool, armed: bool): Server
    requires Known(s, c)
  {
    var k := s.conns[c];
    var x := s.loops[k.home];
    var (e, index) := PollerTables.Update(PollerTables.Tables(x.channels, x.kernel), k.index, k.fd, c, wants);
    SetConn(SetLoop(s, k.home, x.(channels := e.channels, kernel := e.kernel)), c, k.(index := index, armed := armed))
  }

  function RemoveChannel(s: Server, c: Cid): Server
    requires Known(s, c)
  {
    var k := s.conns[c];
    var x := s.loops[k.home];
    var e := PollerTables.Remove(PollerTables.Tables(x.channels, x.kernel), k.index, k.fd);
    SetConn(SetLoop(s, k.home, x.(channels := e.channels, kernel := e.kernel)), c, k.(index := New))
  }

  function Tell(s: Server, c: Cid, state: StateE, cb: Callback): Server
    requires c < |s.conns|
  {
    SetConn(s, c, s.conns[c].(state := state, log := s.conns[c].log + [cb]))
  }

  // connectEstablished
  function DoEstablish(s: Server, c: Cid): Server
    requires Known(s, c)
  {
    Tell(UpdateChannel(s, c, true, false), c, Connected, Up)
  }

  // What handleClose does before its close callback, and connectDestroyed to a connected one.
  function Closed(s: Server, c: Cid): Server
    requires Known(s, c)
  {
    var told := Tell(UpdateChannel(s, c, false, false), c, Disconnected, Down);
    SetConn(told, c, told.conns[c].(closes := told.conns[c].closes + 1))
  }

  // connectDestroyed
  function DoDestroy(s: Server, c: Cid): Server
    requires Known(s, c)
  {
    var gone := RemoveChannel(if s.conns[c].state == Connected then Closed(s, c) else s, c);
    SetConn(gone, c, gone.conns[c].(destroyed := gone.conns[c].destroyed + 1))
  }

  // removeConnectionInLoop up to the erase; what it queues is a step of its own.
  function Erase(s: Server, c: Cid): Server
    requires 0 < |s.loops|
  {
    SetLoop(s, MAIN, s.loops[MAIN].(removing := Some(c))).(connections := s.connections - {c})
  }

  // handleClose on loop l, with removeConnection as the close callback: on the main loop's own
  // thread it runs at once.
  function DoClose(s: Server, l: Lid, c: Cid): Server
    requires Known(s, c) && 0 < |s.loops|
  {
    if l == MAIN then Erase(Closed(s, c), c) else Push(Closed(s, c), MAIN, Remove(c))
  }

  // The last reference goes. Closing the descriptor takes it out of the epoll set.
  function DoRelease(s: Server, c: Cid): Server
    requires Known(s, c)
  {
    var k := s.conns[c];
    var released := SetConn(s, c, k.(alive := false));
    if k.index == Added then
      var x := released.loops[k.home];
      SetLoop(released, k.home, x.(kernel := x.kernel - {k.fd}))
    else released
  }

  // The next task of loop l's batch is taken.
  function Popped(s: Server, l: Lid): Server
    requires l < |s.loops| && s.loops[l].phase.Draining? && s.loops[l].phase.rest != []
  {
    SetLoop(s, l, s.loops[l].(phase := Draining(s.loops[l].phase.held, s.loops[l].phase.rest[1..])))
  }

  // ---------------------------------------------------------------- steps

  datatype Step =
    | Accept(fd: Fd, home: Lid)
    | PollReturns(l: Lid, active: seq<Cid>)
    | BeginEvent(l: Lid)
    | OnMessage(l: Lid)
    | OnClose(l: Lid)
    | OnWrite(l: Lid)
    | EndEvent(l: Lid)
    | StartDrain(l: Lid)
    | RunTask(l: Lid)
    | Rearm(l: Lid)
    | QueueDestroy
    | EndDrain(l: Lid)
    | PostUser(l: Lid, c: Cid)
    | PostRaw(l: Lid, c: Cid)
    | Shutdown(l: Lid, c: Cid)
    | Release(c: Cid)

  predicate Ready(x: LoopState) {
    x.frame == Idle && x.removing == None
  }

  // Some task of these holds the connection.
  predicate HeldBy(tasks: seq<Task>, c: Cid) {
    exists t :: t in tasks && t.c == c && !t.Raw?
  }

  // Someone holds a shared_ptr to the connection.
  predicate Held(x: LoopState, c: Cid) {
    || HeldBy(x.pending, c)
    || (x.phase.Draining? && HeldBy(x.phase.held, c))
    || (x.frame.InEvent? && x.frame.c == c)
    || x.removing == Some(c)
  }

  predicate Referenced(s: Server, c: Cid) {
    c in s.connections || exists l: Lid :: l < |s.loops| && Held(s.loops[l], c)
  }

  predicate Distinct(ids: seq<Cid>) {
    forall i, j :: 0 <= i < j < |ids| ==> ids[i] != ids[j]
  }

  // epoll reports registered descriptors, each once.
  predicate Reportable(x: LoopState, s: Server, c: Cid) {
    c < |s.conns| && s.conns[c].fd in x.kernel && x.kernel[s.conns[c].fd] == c
  }

  predicate Enabled(s: Server, step: Step) {
    match step
    // The accept channel's callback; the kernel never hands out a descriptor that is still open.
    case Accept(fd, home) =>
      && home < |s.loops| && s.loops[MAIN].phase.Dispatching? && Ready(s.loops[MAIN])
      && forall c: Cid :: c < |s.conns| && s.conns[c].alive ==> s.conns[c].fd != fd
    case PollReturns(l, active) =>
      && l < |s.loops| && s.loops[l].phase == Polling && Distinct(active)
      && forall c :: c in active ==> Reportable(s.loops[l], s, c)
    case BeginEvent(l) =>
      l < |s.loops| && s.loops[l].phase.Dispatching? && s.loops[l].phase.active != [] && Ready(s.loops[l])
    case OnMessage(l) =>
      && l < |s.loops| && s.loops[l].frame.InEvent? && !s.loops[l].frame.acted && Known(s, s.loops[l].frame.c)
      && IsLive(s.conns[s.loops[l].frame.c])
    case OnClose(l) =>
      l < |s.loops| && s.loops[l].frame.InEvent? && !s.loops[l].frame.acted && Known(s, s.loops[l].frame.c)
    // handleWrite takes the last of a closed connection's backlog.
    case OnWrite(l) =>
      && l < |s.loops| && s.loops[l].frame.InEvent? && !s.loops[l].frame.acted && Known(s, s.loops[l].frame.c)
      && s.conns[s.loops[l].frame.c].state == Disconnected && s.conns[s.loops[l].frame.c].armed
    case EndEvent(l) => l < |s.loops| && s.loops[l].frame.InEvent? && s.loops[l].removing == None
    case StartDrain(l) => l < |s.loops| && s.loops[l].phase == Dispatching([]) && Ready(s.loops[l])
    case RunTask(l) =>
      && l < |s.loops| && s.loops[l].phase.Draining? && s.loops[l].phase.rest != [] && Ready(s.loops[l])
      && Known(s, s.loops[l].phase.rest[0].c)
    // The task is a sendInLoop of a closed connection that finds the socket full: enableWriting. That
    // of a connection that is up changes nothing here, and is a RunTask.
    case Rearm(l) =>
      && l < |s.loops| && s.loops[l].phase.Draining? && s.loops[l].phase.rest != [] && Ready(s.loops[l])
      && s.loops[l].phase.rest[0].Raw? && Known(s, s.loops[l].phase.rest[0].c)
      && var k := s.conns[s.loops[l].phase.rest[0].c]; k.alive && k.state == Disconnected && !k.armed
    case QueueDestroy => 0 < |s.loops| && s.loops[MAIN].removing.Some? && Known(s, s.loops[MAIN].removing.value)
    case EndDrain(l) => l < |s.loops| && s.loops[l].phase.Draining? && s.loops[l].phase.rest == [] && Ready(s.loops[l])
    // On whichever thread: the caller has a reference of its own for the length of the call. The
    // connection was up when send() or shutdown() tested its state, but need not be any more.
    case PostUser(l, c) => l < |s.loops| && c < |s.conns| && s.conns[c].home == l && s.conns[c].alive
    case PostRaw(l, c) =>
      && l < |s.loops| && c < |s.conns| && s.conns[c].home == l && s.conns[c].alive
      && s.conns[c].state != Connecting
    case Shutdown(l, c) =>
      && l < |s.loops| && c < |s.conns| && s.conns[c].home == l && s.conns[c].alive
      && s.conns[c].state == Connected
    // The last reference may also be the user's, so this may come any time later.
    case Release(c) => Known(s, c) && s.conns[c].alive && !Referenced(s, c)
  }

  function Next(s: Server, step: Step): Server
    requires Enabled(s, step)
  {
    match step
    case Accept(fd, home) =>
      var c := |s.conns|;
      var made := s.(
        conns := s.conns + [ConnState(home, fd, Connecting, New, true, false, [], 0, 0)],
        connections := s.connections + {c});
      if home == MAIN then DoEstablish(made, c) else Push(made, home, Establish(c))
    case PollReturns(l, active) => SetLoop(s, l, s.loops[l].(phase := Dispatching(active)))
    case BeginEvent(l) =>
      var active := s.loops[l].phase.active;
      var c := active[0];
      // What a dispatch to a released channel does is undefined; here it is passed over.
      var frame := if c < |s.conns| && s.conns[c].alive then InEvent(c, false) else Idle;
      SetLoop(s, l, s.loops[l].(phase := Dispatching(active[1..]), frame := frame))
    case OnMessage(l) =>
      var c := s.loops[l].frame.c;
      var acted := SetLoop(s, l, s.loops[l].(frame := InEvent(c, true)));
      Tell(acted, c, s.conns[c].state, Message)
    case OnClose(l) =>
      var c := s.loops[l].frame.c;
      DoClose(SetLoop(s, l, s.loops[l].(frame := InEvent(c, true))), l, c)
    case OnWrite(l) =>
      var c := s.loops[l].frame.c;
      UpdateChannel(SetLoop(s, l, s.loops[l].(frame := InEvent(c, true))), c, false, false)
    case EndEvent(l) => SetLoop(s, l, s.loops[l].(frame := Idle))
    case StartDrain(l) =>
      var batch := s.loops[l].pending;
      SetLoop(s, l, s.loops[l].(pending := [], phase := Draining(batch, batch)))
    case RunTask(l) =>
      var popped := Popped(s, l);
      (match s.loops[l].phase.rest[0]
       case Establish(c) => DoEstablish(popped, c)
       case Remove(c) => Erase(popped, c)
       case Destroy(c) => DoDestroy(popped, c)
       case User(_) => popped
       case Raw(_) => popped)
    case Rearm(l) => UpdateChannel(Popped(s, l), s.loops[l].phase.rest[0].c, true, true)
    case QueueDestroy =>
      var c := s.loops[MAIN].removing.value;
      Push(SetLoop(s, MAIN, s.loops[MAIN].(removing := None)), s.conns[c].home, Destroy(c))
    case EndDrain(l) => SetLoop(s, l, s.loops[l].(phase := Polling))
    case PostUser(l, c) => Push(s, l, User(c))
    case PostRaw(l, c) => Push(s, l, Raw(c))
    case Shutdown(l, c) => SetConn(s, c, s.conns[c].(state := Disconnecting))
    case Release(c) => DoRelease(s, c)
  }

  predicate Legal(nLoops: nat, steps: seq<Step>)
    decreases |steps|, 0
  {
    steps == [] || (Legal(nLoops, Front(steps)) && Enabled(Run(nLoops, Front(steps)), Last(steps)))
  }

  function Run(nLoops: nat, steps: seq<Step>): Server
    requires Legal(nLoops, steps)
    decreases |steps|, 1
  {
    if steps == [] then Init(nLoops) else Next(Run(nLoops, Front(steps)), Last(steps))
  }

  lemma Extend(nLoops: nat, steps: seq<Step>, step: Step)
    requires Legal(nLoops, steps) && Enabled(Run(nLoops, steps), step)
    ensures Legal(nLoops, steps + [step]) && Run(nLoops, steps + [step]) == Next(Run(nLoops, steps), step)
  {
    assert Front(steps + [step]) == steps;
  }
}
