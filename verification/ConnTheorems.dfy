// What holds of a connection's output path over every legal run, whatever the socket answers:
// the write interest tracks the backlog, no accepted byte is lost, repeated or reordered, and
// the user's callbacks are posted exactly when they should be.

module ConnTheorems {
  import opened Common
  import opened ConnModel

  // ---------------------------------------------------------------- the invariant

  predicate Live(c: Conn) {
    c.state == Connected || c.state == Disconnecting
  }

  predicate Untouched(c: Conn) {
    && !c.reading && !c.writing && c.index == New && c.output == [] && c.wire == []
    && c.posted == [] && c.jobs == [] && c.halfCloses == []
  }

  predicate Consistent(c: Conn) {
    && c.ran <= |c.posted|
    && (c.writing ==> c.output != [])
    && (Live(c) ==> (c.writing <==> c.output != []))
    && (c.state == Connecting ==> Untouched(c))
    && (c.state == Connected ==> c.reading && c.index == Added)
    && (c.state == Disconnecting ==> c.reading && c.index != Deleted)
    && (c.state == Disconnected ==> !c.reading)
    && (c.writing ==> c.index != Deleted)
  }

  // ---------------------------------------------------------------- what one event does

  datatype Source = FromSend | FromFile(id: nat)
  datatype Segment = Segment(source: Source, bytes: seq<Byte>)

  // What an event adds to the data the connection has taken responsibility for: a send's whole
  // data unless the write faulted, and the part of a file that sendfile took.
  function Accepts(c: Conn, e: Event): (added: seq<Segment>)
    requires Enabled(c, e)
    ensures |added| <= 1
  {
    match e
    case UserSend(data, w) => if c.state == Connected then SendSegment(c, data, w) else []
    case UserSendFile(file, offset, count, w) =>
      if c.state == Connected then
        [Segment(FromFile(|c.jobs|), FileChunk(c, NewJob(c, file, offset, count), w))]
      else []
    case Task(w) =>
      (match c.posted[c.ran]
       case SendTask(data) => SendSegment(c, data, w)
       case SendFileTask(job) => [Segment(FromFile(job.id), FileChunk(c, job, w))]
       case _ => [])
    case _ => []
  }

  function SendSegment(c: Conn, data: seq<Byte>, w: IoResult): seq<Segment> {
    if SendFaults(c, w) then [] else [Segment(FromSend, data)]
  }

  function BytesOf(added: seq<Segment>): seq<Byte>
    requires |added| <= 1
  {
    if added == [] then [] else added[0].bytes
  }

  // At most one task posted on the way from c to c', behind all the earlier ones.
  predicate PostsAtMostOne(c: Conn, c': Conn) {
    c'.posted == c.posted || (|c'.posted| == |c.posted| + 1 && Front(c'.posted) == c.posted)
  }

  function NewTask(c: Conn, c': Conn): Option<ConnModel.Task>
    requires PostsAtMostOne(c, c')
  {
    if c'.posted == c.posted then None else Some(Last(c'.posted))
  }

  predicate Crosses(c: Conn, c': Conn) {
    |c.output| < c.cfg.highWaterMark <= |c'.output|
  }

  // The facts every handler establishes, given the bytes it accepted.
  ghost predicate Sound(c: Conn, c': Conn, accepted: seq<Byte>) {
    && Consistent(c') && c'.cfg == c.cfg
    // the stream: what the kernel has stays, and nothing is lost behind it
    && c.wire <= c'.wire
    && c'.wire + c'.output == c.wire + c.output + accepted
    // the write side is closed only when EPOLLOUT is off
    && (c'.halfCloses == c.halfCloses || (!c'.writing && c'.halfCloses == c.halfCloses + [c'.wire]))
    // the posted tasks
    && PostsAtMostOne(c, c')
    && (NewTask(c, c') == Some(WriteCompleteTask) ==> c'.output == [] && !c'.writing && c.cfg.writeCompleteCb)
    && (c.writing && !c'.writing && Live(c') && c.cfg.writeCompleteCb ==> NewTask(c, c') == Some(WriteCompleteTask))
    && (if Crosses(c, c') && c.cfg.highWaterCb then NewTask(c, c') == Some(HighWaterTask(|c'.output|))
        else NewTask(c, c').Some? ==> !NewTask(c, c').value.HighWaterTask?)
  }

  lemma EnqueueIsSound(c: Conn, rest: seq<Byte>)
    requires Consistent(c) && c.state != Connecting
    ensures Sound(c, Enqueue(c, rest), rest)
  {
  }

  lemma DirectSendIsSound(c: Conn, data: seq<Byte>, n: nat)
    requires Consistent(c) && c.state != Connecting && CanWriteDirectly(c) && WriteLegal(c, data, Done(n))
    ensures Sound(c, SendInLoop(c, data, Done(n)), data)
  {
    var written := c.(wire := c.wire + data[..n]);
    assert data == data[..n] + data[n..];
    if n < |data| {
      EnqueueIsSound(written, data[n..]);
    }
  }

  lemma SendIsSound(c: Conn, data: seq<Byte>, w: IoResult)
    requires Consistent(c) && c.state != Connecting && WriteLegal(c, data, w)
    ensures Sound(c, SendInLoop(c, data, w), BytesOf(SendSegment(c, data, w)))
  {
    if CanWriteDirectly(c) && w.Done? {
      DirectSendIsSound(c, data, w.n);
    } else if !SendFaults(c, w) {
      EnqueueIsSound(c, data);
    }
  }

  lemma SendFileIsSound(c: Conn, job: FileJob, w: IoResult)
    requires Consistent(c) && c.state != Connecting && SendfileLegal(c, job, w)
    ensures Sound(c, SendFileInLoop(c, job, w), FileChunk(c, job, w))
  {
  }

  lemma FlushIsSound(c: Conn, w: IoResult)
    requires Consistent(c) && c.state != Connecting && FlushLegal(c, w)
    ensures Sound(c, HandleWrite(c, w), [])
  {
    if c.writing && w.Done? {
      assert c.output == c.output[..w.n] + c.output[w.n..];
    }
  }

  // Control events change no byte of the stream.
  lemma ControlIsSound(c: Conn, c': Conn)
    requires Consistent(c) && Consistent(c') && c'.cfg == c.cfg
    requires c'.wire == c.wire && c'.output == c.output
    requires PostsAtMostOne(c, c')
    requires c'.posted != c.posted ==> var t := Last(c'.posted); t.ShutdownTask? || t.SendTask? || t.SendFileTask?
    requires c'.writing == c.writing || !Live(c')
    requires c'.halfCloses == c.halfCloses || (!c'.writing && c'.halfCloses == c.halfCloses + [c.wire])
    ensures Sound(c, c', [])
  {
  }

  // Sound does not look at how many tasks have run or which transfers were requested.
  lemma SoundSince(c: Conn, d: Conn, c': Conn, accepted: seq<Byte>)
    requires d == c.(ran := d.ran, jobs := d.jobs) && Sound(d, c', accepted)
    ensures Sound(c, c', accepted)
  {
  }

  lemma RunTaskIsSound(c: Conn, w: IoResult)
    requires Consistent(c) && TaskLegal(c, w)
    ensures Sound(c, RunTask(c, w), BytesOf(Accepts(c, Event.Task(w))))
  {
    var popped := c.(ran := c.ran + 1);
    assert Consistent(popped) && c.state != Connecting;
    hide Sound;
    match c.posted[c.ran] {
      case SendTask(data) =>
        SendIsSound(popped, data, w);
        SoundSince(c, popped, RunTask(c, w), BytesOf(SendSegment(popped, data, w)));
      case SendFileTask(job) =>
        SendFileIsSound(popped, job, w);
        SoundSince(c, popped, RunTask(c, w), FileChunk(popped, job, w));
      case ShutdownTask =>
        ControlIsSound(popped, RunTask(c, w));
        SoundSince(c, popped, RunTask(c, w), []);
      case WriteCompleteTask => ControlIsSound(c, popped);
      case HighWaterTask(_) => ControlIsSound(c, popped);
    }
  }

  lemma NextIsSound(c: Conn, e: Event)
    requires Consistent(c) && Enabled(c, e)
    ensures Sound(c, Next(c, e), BytesOf(Accepts(c, e)))
  {
    hide Sound;
    match e {
      case UserSend(data, w) =>
        if c.state == Connected { SendIsSound(c, data, w); } else { ControlIsSound(c, c); }
      case UserSendFile(file, offset, count, w) =>
        if c.state == Connected {
          var job := NewJob(c, file, offset, count);
          var d := c.(jobs := c.jobs + [job]);
          SendFileIsSound(d, job, w);
          SoundSince(c, d, Next(c, e), FileChunk(d, job, w));
        } else { ControlIsSound(c, c); }
      case Writable(w) => FlushIsSound(c, w);
      case Task(w) => RunTaskIsSound(c, w);
      case _ => ControlIsSound(c, Next(c, e));
    }
  }

  // ---------------------------------------------------------------- over every run

  lemma {:induction false} RunIsConsistent(cfg: Config, es: seq<Event>)
    requires Legal(cfg, es)
    ensures Consistent(Run(cfg, es)) && Run(cfg, es).cfg == cfg
  {
    if es != [] {
      RunIsConsistent(cfg, Front(es));
      NextIsSound(Run(cfg, Front(es)), Last(es));
    }
  }

  // EPOLLOUT is on only with a backlog, and while the connection is up exactly with one.
  lemma WriteInterestTracksBacklog(cfg: Config, es: seq<Event>)
    requires Legal(cfg, es)
    ensures var c := Run(cfg, es);
      && (c.writing ==> c.output != [])
      && (Live(c) ==> (c.writing <==> c.output != []))
  {
    RunIsConsistent(cfg, es);
  }

  // Everything accepted during a run, in order.
  function Accepted(cfg: Config, es: seq<Event>): seq<Segment>
    requires Legal(cfg, es)
  {
    if es == [] then [] else Accepted(cfg, Front(es)) + Accepts(Run(cfg, Front(es)), Last(es))
  }

  function Flatten(log: seq<Segment>): seq<Byte> {
    if log == [] then [] else Flatten(Front(log)) + Last(log).bytes
  }

  lemma FlattenSnoc(log: seq<Segment>, more: seq<Segment>)
    requires |more| <= 1
    ensures Flatten(log + more) == Flatten(log) + BytesOf(more)
  {
    if more == [] {
      assert log + more == log;
    } else {
      assert Front(log + more) == log && Last(log + more) == more[0];
    }
  }

  // The wire followed by the backlog is exactly the accepted data, in order, and an event only
  // ever extends the wire.
  lemma {:induction false} StreamConservation(cfg: Config, es: seq<Event>)
    requires Legal(cfg, es)
    ensures var c := Run(cfg, es); c.wire + c.output == Flatten(Accepted(cfg, es))
    ensures es != [] ==> Run(cfg, Front(es)).wire <= Run(cfg, es).wire
  {
    if es != [] {
      var c := Run(cfg, Front(es));
      StreamConservation(cfg, Front(es));
      RunIsConsistent(cfg, Front(es));
      NextIsSound(c, Last(es));
      FlattenSnoc(Accepted(cfg, Front(es)), Accepts(c, Last(es)));
    }
  }

  // ---------------------------------------------------------------- the user's notifications

  // The socket takes a request of n bytes whole, straight away.
  predicate TakesAll(c: Conn, w: IoResult, n: nat) {
    CanWriteDirectly(c) && w == Done(n)
  }

  // The events that finish something: a request the socket takes whole, the last chunk of a
  // file, a flush that leaves nothing behind.
  predicate Completes(c: Conn, e: Event)
    requires Enabled(c, e)
  {
    match e
    case UserSend(data, w) => c.state == Connected && TakesAll(c, w, |data|)
    case UserSendFile(_, _, count, w) => c.state == Connected && TakesAll(c, w, count)
    case Writable(w) => c.writing && w == Done(|c.output|)
    case Task(w) =>
      (match c.posted[c.ran]
       case SendTask(data) => TakesAll(c, w, |data|)
       case SendFileTask(job) => c.state != Disconnecting && TakesAll(c, w, job.remaining)
       case _ => false)
    case _ => false
  }

  lemma SendCompletes(c: Conn, data: seq<Byte>, w: IoResult)
    requires WriteLegal(c, data, w)
    ensures var c' := SendInLoop(c, data, w);
      && PostsAtMostOne(c, c')
      && (NewTask(c, c') == Some(WriteCompleteTask) <==> c.cfg.writeCompleteCb && TakesAll(c, w, |data|))
  {
  }

  lemma SendFileCompletes(c: Conn, job: FileJob, w: IoResult)
    requires SendfileLegal(c, job, w)
    ensures var c' := SendFileInLoop(c, job, w);
      && PostsAtMostOne(c, c')
      && (NewTask(c, c') == Some(WriteCompleteTask) <==>
            c.cfg.writeCompleteCb && c.state != Disconnecting && TakesAll(c, w, job.remaining))
  {
  }

  lemma FlushCompletes(c: Conn, w: IoResult)
    requires Consistent(c) && FlushLegal(c, w)
    ensures var c' := HandleWrite(c, w);
      && PostsAtMostOne(c, c')
      && (NewTask(c, c') == Some(WriteCompleteTask) <==>
            c.cfg.writeCompleteCb && c.writing && w == Done(|c.output|))
  {
  }

  lemma OthersPostNothingSuch(c: Conn, d: Conn, t: ConnModel.Task)
    requires d.posted == c.posted || d.posted == c.posted + [t]
    requires t != WriteCompleteTask
    ensures PostsAtMostOne(c, d) && NewTask(c, d) != Some(WriteCompleteTask)
  {
  }

  lemma SameTasks(c: Conn, d: Conn, c': Conn)
    requires d.posted == c.posted && PostsAtMostOne(d, c')
    ensures PostsAtMostOne(c, c') && NewTask(c, c') == NewTask(d, c')
  {
  }

  lemma CompletionIsPosted(c: Conn, e: Event)
    requires Consistent(c) && Enabled(c, e)
    ensures var c' := Next(c, e);
      && PostsAtMostOne(c, c')
      && (NewTask(c, c') == Some(WriteCompleteTask) <==> c.cfg.writeCompleteCb && Completes(c, e))
  {
    hide SendInLoop, SendFileInLoop, HandleWrite, PostsAtMostOne, NewTask;
    match e {
      case UserSend(data, w) =>
        if c.state == Connected { SendCompletes(c, data, w); } else { OthersPostNothingSuch(c, c, ShutdownTask); }
      case UserSendFile(file, offset, count, w) =>
        if c.state == Connected {
          var job := NewJob(c, file, offset, count);
          var d := c.(jobs := c.jobs + [job]);
          SendFileCompletes(d, job, w);
          SameTasks(c, d, Next(c, e));
        } else { OthersPostNothingSuch(c, c, ShutdownTask); }
      case Task(w) =>
        var popped := c.(ran := c.ran + 1);
        match c.posted[c.ran] {
          case SendTask(data) => SendCompletes(popped, data, w);
          case SendFileTask(job) => SendFileCompletes(popped, job, w);
          case _ => OthersPostNothingSuch(c, RunTask(c, w), ShutdownTask);
        }
        SameTasks(c, popped, RunTask(c, w));
      case Writable(w) => FlushCompletes(c, w);
      case UserQueueSend(data) => OthersPostNothingSuch(c, Next(c, e), SendTask(data));
      case UserQueueSendFile(file, offset, count) =>
        OthersPostNothingSuch(c, Next(c, e), SendFileTask(NewJob(c, file, offset, count)));
      case _ => OthersPostNothingSuch(c, Next(c, e), ShutdownTask);
    }
  }

  // Write-complete is posted exactly by the events that finish something, and only at a moment
  // when the backlog is empty and EPOLLOUT is off.
  lemma WriteCompleteMeansDrained(cfg: Config, es: seq<Event>)
    requires Legal(cfg, es) && es != []
    ensures var c, c' := Run(cfg, Front(es)), Run(cfg, es);
      && PostsAtMostOne(c, c')
      && (NewTask(c, c') == Some(WriteCompleteTask) ==> c'.output == [] && !c'.writing && cfg.writeCompleteCb)
      && (NewTask(c, c') == Some(WriteCompleteTask) <==> cfg.writeCompleteCb && Completes(c, Last(es)))
      && (c.writing && !c'.writing && Live(c') && cfg.writeCompleteCb ==> NewTask(c, c') == Some(WriteCompleteTask))
  {
    var c := Run(cfg, Front(es));
    RunIsConsistent(cfg, Front(es));
    NextIsSound(c, Last(es));
    CompletionIsPosted(c, Last(es));
  }

  // How often the backlog has risen through the mark from below.
  function Crossings(cfg: Config, es: seq<Event>): nat
    requires Legal(cfg, es)
  {
    if es == [] then 0
    else
      var before, after := |Run(cfg, Front(es)).output|, |Run(cfg, es).output|;
      Crossings(cfg, Front(es)) + if before < cfg.highWaterMark <= after then 1 else 0
  }

  function HighWaters(tasks: seq<ConnModel.Task>): nat {
    if tasks == [] then 0 else HighWaters(Front(tasks)) + if Last(tasks).HighWaterTask? then 1 else 0
  }

  // The high-water tasks posted are exactly the upward crossings, each of which starts from a
  // backlog below the mark.
  lemma {:induction false} HighWaterEdgeTriggered(cfg: Config, es: seq<Event>)
    requires Legal(cfg, es)
    ensures HighWaters(Run(cfg, es).posted) == if cfg.highWaterCb then Crossings(cfg, es) else 0
  {
    if es != [] {
      var c, c' := Run(cfg, Front(es)), Run(cfg, es);
      HighWaterEdgeTriggered(cfg, Front(es));
      RunIsConsistent(cfg, Front(es));
      NextIsSound(c, Last(es));
    }
  }
}
