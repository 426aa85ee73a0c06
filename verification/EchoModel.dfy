// example/testserver.cc as a run of the connection model: every message read is drained from the
// input buffer and sent back. Output is what was read, byte for byte, unless a write faulted.

module EchoModel {
  import opened Common
  import opened ConnModel
  import opened ConnTheorems
  import opened TaskQueue

  // A message event is handleRead with onMessage inside it; w is the answer of the direct write,
  // if send makes one. The server makes no other user call, and its loop runs only the tasks
  // its own connection posted.
  datatype EchoEvent =
    | Up
    | Message(data: seq<Byte>, w: IoResult)
    | Flush(w: IoResult)
    | Callback
    | Down
    | Gone

  // retrieveAllAsString, then send.
  function OnMessage(c: Conn, w: IoResult): seq<Event> {
    [Consume(|c.input|), UserSend(c.input, w)]
  }

  function Steps(c: Conn, ev: EchoEvent): seq<Event> {
    match ev
    case Up => [Establish]
    case Message(data, w) => [Readable(data)] + OnMessage(c.(input := c.input + data), w)
    case Flush(w) => [Writable(w)]
    case Callback => [Event.Task(Done(0))]
    case Down => [Close]
    case Gone => [Destroy]
  }

  predicate EchoEnabled(c: Conn, ev: EchoEvent) {
    match ev
    case Up => c.state == Connecting
    case Message(data, w) => c.reading && c.index == Added && data != [] && WriteLegal(c, c.input + data, w)
    case Flush(w) => c.state != Connecting && (c.writing ==> c.index == Added) && FlushLegal(c, w)
    case Callback => c.ran < |c.posted|
    case Down => c.index != New
    case Gone => c.state != Connecting
  }

  // The event history behind a run of the echo server.
  function History(cfg: Config, evs: seq<EchoEvent>): seq<Event>
    requires EchoLegal(cfg, evs)
    decreases |evs|, 1
  {
    if evs == [] then []
    else
      var es := History(cfg, Front(evs));
      es + Steps(EchoRun(cfg, Front(evs)), Last(evs))
  }

  predicate EchoLegal(cfg: Config, evs: seq<EchoEvent>)
    decreases |evs|, 0
  {
    evs == [] || (EchoLegal(cfg, Front(evs)) && EchoEnabled(EchoRun(cfg, Front(evs)), Last(evs)))
  }

  function EchoRun(cfg: Config, evs: seq<EchoEvent>): Conn
    requires EchoLegal(cfg, evs)
    decreases |evs|, 1
  {
    if evs == [] then Init(cfg) else EchoNext(EchoRun(cfg, Front(evs)), Last(evs))
  }

  function EchoNext(c: Conn, ev: EchoEvent): Conn
    requires EchoEnabled(c, ev)
  {
    match ev
    case Up => ConnectEstablished(c)
    case Message(data, w) =>
      var drained := c.(input := []);
      if c.state == Connected then SendInLoop(drained, c.input + data, w) else drained
    case Flush(w) => HandleWrite(c, w)
    case Callback => c.(ran := c.ran + 1)
    case Down => HandleClose(c)
    case Gone => ConnectDestroyed(c)
  }

  // Everything read from the socket.
  function Received(evs: seq<EchoEvent>): seq<Byte> {
    if evs == [] then []
    else Received(Front(evs)) + if Last(evs).Message? then Last(evs).data else []
  }

  // Some message of the run was dropped by EPIPE or ECONNRESET.
  predicate Faults(cfg: Config, evs: seq<EchoEvent>)
    requires EchoLegal(cfg, evs)
  {
    evs != [] && (Faults(cfg, Front(evs))
      || (Last(evs).Message? && SendFaults(EchoRun(cfg, Front(evs)), Last(evs).w)))
  }

  // Everything read, without the dropped messages.
  function Kept(cfg: Config, evs: seq<EchoEvent>): seq<Byte>
    requires EchoLegal(cfg, evs)
  {
    if evs == [] then []
    else
      var kept := Last(evs).Message? && !SendFaults(EchoRun(cfg, Front(evs)), Last(evs).w);
      Kept(cfg, Front(evs)) + if kept then Last(evs).data else []
  }

  // Between events the input buffer is empty, reading means up, and only callbacks are queued.
  predicate Idle(c: Conn) {
    && Consistent(c)
    && c.input == []
    && (c.reading ==> c.state == Connected)
    && c.state != Disconnecting
    && (forall t :: t in c.posted ==> t.WriteCompleteTask? || t.HighWaterTask?)
  }

  lemma PostsCallback(c: Conn, c': Conn)
    requires forall t :: t in c.posted ==> t.WriteCompleteTask? || t.HighWaterTask?
    requires PostsAtMostOne(c, c')
    requires NewTask(c, c').Some? ==> NewTask(c, c').value.WriteCompleteTask? || NewTask(c, c').value.HighWaterTask?
    ensures forall t :: t in c'.posted ==> t.WriteCompleteTask? || t.HighWaterTask?
  {
    assert c'.posted == c.posted || c'.posted == Front(c'.posted) + [Last(c'.posted)];
  }

  lemma EchoStep(c: Conn, ev: EchoEvent)
    requires Idle(c) && EchoEnabled(c, ev)
    ensures var c' := EchoNext(c, ev);
      && Idle(c')
      && c'.wire + c'.output ==
           c.wire + c.output + if ev.Message? && !SendFaults(c, ev.w) then ev.data else []
  {
    match ev {
      case Message(data, w) => EchoMessage(c, data, w);
      case Flush(w) => EchoFlush(c, w);
      case _ =>
    }
  }

  lemma EchoMessage(c: Conn, data: seq<Byte>, w: IoResult)
    requires Idle(c) && EchoEnabled(c, Message(data, w))
    ensures var c' := EchoNext(c, Message(data, w));
      Idle(c') && c'.wire + c'.output == c.wire + c.output + if SendFaults(c, w) then [] else data
  {
    assert c.(input := []) == c && c.input + data == data;
    SendIsSound(c, data, w);
    SendIsQuiet(c, data, w);
    SendLeavesInput(c, data, w);
    hide SendInLoop;
    PostsCallback(c, SendInLoop(c, data, w));
  }

  lemma SendLeavesInput(c: Conn, data: seq<Byte>, w: IoResult)
    requires WriteLegal(c, data, w)
    ensures var c' := SendInLoop(c, data, w); c'.input == c.input && c'.reading == c.reading
    ensures var c' := SendInLoop(c, data, w);
      NewTask(c, c').Some? ==> NewTask(c, c').value.WriteCompleteTask? || NewTask(c, c').value.HighWaterTask?
  {
    SendIsQuiet(c, data, w);
  }

  lemma EchoFlush(c: Conn, w: IoResult)
    requires Idle(c) && EchoEnabled(c, Flush(w))
    ensures var c' := EchoNext(c, Flush(w)); Idle(c') && c'.wire + c'.output == c.wire + c.output
  {
    FlushIsSound(c, w);
    PostsCallback(c, HandleWrite(c, w));
  }

  lemma {:induction false} EchoConservation(cfg: Config, evs: seq<EchoEvent>)
    requires EchoLegal(cfg, evs)
    ensures Idle(EchoRun(cfg, evs))
    ensures EchoRun(cfg, evs).wire + EchoRun(cfg, evs).output == Kept(cfg, evs)
  {
    if evs != [] {
      EchoConservation(cfg, Front(evs));
      EchoStep(EchoRun(cfg, Front(evs)), Last(evs));
    }
  }

  lemma {:induction false} KeptLength(cfg: Config, evs: seq<EchoEvent>)
    requires EchoLegal(cfg, evs)
    ensures !Faults(cfg, evs) ==> Kept(cfg, evs) == Received(evs)
    ensures Faults(cfg, evs) ==> |Kept(cfg, evs)| < |Received(evs)|
    ensures |Kept(cfg, evs)| <= |Received(evs)|
  {
    if evs != [] {
      KeptLength(cfg, Front(evs));
    }
  }

  // End to end: the wire followed by the backlog is everything read, exactly when no write has
  // faulted; then what the peer has been sent is a prefix of what it sent.
  lemma EchoEndToEnd(cfg: Config, evs: seq<EchoEvent>)
    requires EchoLegal(cfg, evs)
    ensures EchoRun(cfg, evs).wire + EchoRun(cfg, evs).output == Received(evs) <==> !Faults(cfg, evs)
    ensures !Faults(cfg, evs) ==> EchoRun(cfg, evs).wire <= Received(evs)
    ensures EchoRun(cfg, evs).input == []
  {
    EchoConservation(cfg, evs);
    KeptLength(cfg, evs);
  }

  // A run of the echo server is a run of the connection model, so all its theorems apply.
  lemma {:induction false} EchoRunsAreRuns(cfg: Config, evs: seq<EchoEvent>)
    requires EchoLegal(cfg, evs)
    ensures Legal(cfg, History(cfg, evs))
    ensures Run(cfg, History(cfg, evs)) == EchoRun(cfg, evs)
  {
    if evs != [] {
      var es, c := History(cfg, Front(evs)), EchoRun(cfg, Front(evs));
      EchoRunsAreRuns(cfg, Front(evs));
      EchoConservation(cfg, Front(evs));
      match Last(evs) {
        case Message(data, w) => MessageIsThreeSteps(cfg, es, data, w);
        case Callback =>
          assert c.posted[c.ran] in c.posted;
          Extend(cfg, es, Event.Task(Done(0)));
        case _ => Extend(cfg, es, Steps(c, Last(evs))[0]);
      }
    }
  }

  lemma MessageIsThreeSteps(cfg: Config, es: seq<Event>, data: seq<Byte>, w: IoResult)
    requires Legal(cfg, es) && EchoEnabled(Run(cfg, es), Message(data, w))
    ensures var es' := es + Steps(Run(cfg, es), Message(data, w));
      Legal(cfg, es') && Run(cfg, es') == EchoNext(Run(cfg, es), Message(data, w))
  {
    var c := Run(cfg, es);
    var msg := c.input + data;
    Extend(cfg, es, Readable(data));
    var es1 := es + [Readable(data)];
    assert Run(cfg, es1) == c.(input := msg);
    Extend(cfg, es1, Consume(|msg|));
    var es2 := es1 + [Consume(|msg|)];
    assert msg[|msg|..] == [];
    assert Run(cfg, es2) == c.(input := []);
    Extend(cfg, es2, UserSend(msg, w));
    assert es2 + [UserSend(msg, w)] == es + Steps(c, Message(data, w));
  }
}
