// Exactly which calls of shutdown() are graceful: whether every half-close that can follow, in any
// continuation, finds all that was ever handed to send() on the wire is settled at the call.

module ShutdownCalls {
  import opened Common
  import opened ConnModel
  import opened ConnTheorems
  import opened TaskQueue
  import opened HalfClose

  // ---------------------------------------------------------------- what a half-close may find

  // The last event closes the write side of a connection that is not closed.
  predicate HalfClosesLast(cfg: Config, es: seq<Event>)
    requires Legal(cfg, es)
  {
    && es != [] && Run(cfg, es).state != Disconnected
    && Run(cfg, Front(es)).halfCloses != Run(cfg, es).halfCloses
  }

  ghost predicate HalfClosesAfter(cfg: Config, es: seq<Event>, fs: seq<Event>) {
    Legal(cfg, es + fs) && HalfClosesLast(cfg, es + fs)
  }

  // All accepted data is on the wire, and so is all that was handed to send(), faults apart.
  predicate AllSent(cfg: Config, es: seq<Event>)
    requires Legal(cfg, es)
  {
    && Run(cfg, es).wire == Flatten(Accepted(cfg, es))
    && Issued(cfg, es) == Faulted(cfg, es) + |SendBytes(Accepted(cfg, es))|
  }

  // Whatever happens from es on, no half-close leaves a byte of send() behind.
  ghost predicate Graceful(cfg: Config, es: seq<Event>) {
    forall fs :: HalfClosesAfter(cfg, es, fs) ==> AllSent(cfg, es + fs)
  }

  lemma GracefulFromHereOn(cfg: Config, es: seq<Event>, gs: seq<Event>)
    requires Graceful(cfg, es)
    ensures Graceful(cfg, es + gs)
  {
    hide Legal, Run, AllSent, HalfClosesLast;
    forall fs | HalfClosesAfter(cfg, es + gs, fs) ensures AllSent(cfg, es + gs + fs) {
      assert es + gs + fs == es + (gs + fs);
      assert HalfClosesAfter(cfg, es, gs + fs);
    }
  }

  // A half-close leaves nothing behind exactly when no send waits.
  lemma HalfCloseDebt(cfg: Config, es: seq<Event>)
    requires Legal(cfg, es) && HalfClosesLast(cfg, es)
    ensures Run(cfg, es).wire == Flatten(Accepted(cfg, es))
    ensures AllSent(cfg, es) <==> NoSendQueued(Run(cfg, es))
  {
    RunIsConsistent(cfg, Front(es));
    NextIsSound(Run(cfg, Front(es)), Last(es));
    StreamConservation(cfg, es);
    IssuedConservation(cfg, es);
    NoSendMeansNoDebt(Run(cfg, es));
  }

  // ---------------------------------------------------------------- safe from the call on

  ghost predicate SendsBeforeShutdown(c: Conn) {
    forall i: nat, k: nat :: ShutdownAt(c, i) && SendAt(c, k) ==> k < i
  }

  // Nothing of send() waits; or one send does, ahead of the queued shutdown, and no backlog can be
  // flushed before it runs.
  ghost predicate Safe(c: Conn) {
    || c.state == Disconnected
    || (c.state == Disconnecting
        && (NoSendQueued(c) || (!c.writing && AtMostOneSend(c) && SendsBeforeShutdown(c))))
  }

  lemma SafeTask(c: Conn, w: IoResult)
    requires Consistent(c) && Safe(c) && TaskLegal(c, w)
    ensures var c' := RunTask(c, w);
      Safe(c') && (c'.halfCloses != c.halfCloses && c'.state != Disconnected ==> NoSendQueued(c'))
  {
    QueueMoves(c, w);
    if c.posted[c.ran].ShutdownTask? {
      assert ShutdownAt(c, c.ran);
    } else {
      hide RunTask;
      TaskLeavesShutdown(c, w);
      assert SendsData(c.posted[c.ran]) ==> SendAt(c, c.ran);
    }
  }

  // A safe connection stays safe, and closes its write side only with no send waiting.
  lemma SafeStep(c: Conn, e: Event)
    requires Consistent(c) && Safe(c) && Enabled(c, e)
    ensures var c' := Next(c, e);
      Safe(c') && (c'.halfCloses != c.halfCloses && c'.state != Disconnected ==> NoSendQueued(c'))
  {
    if e.Task? {
      SafeTask(c, e.w);
    } else {
      var c' := Next(c, e);
      if !e.UserQueueSend? && !e.UserQueueShutdown? {
        OwnStep(c, e);
        QueueKept(c, c');
      }
      assert c.state == Disconnecting && !e.Writable? ==> c'.writing == c.writing || c'.state == Disconnected;
    }
  }

  lemma {:induction false} SafeOverRuns(cfg: Config, es: seq<Event>, fs: seq<Event>)
    requires Legal(cfg, es) && Safe(Run(cfg, es)) && Legal(cfg, es + fs)
    ensures Safe(Run(cfg, es + fs))
    ensures fs != [] && HalfClosesLast(cfg, es + fs) ==> NoSendQueued(Run(cfg, es + fs))
  {
    if fs == [] {
      assert es + fs == es;
    } else {
      assert Front(es + fs) == es + Front(fs);
      SafeOverRuns(cfg, es, Front(fs));
      RunIsConsistent(cfg, es + Front(fs));
      SafeStep(Run(cfg, es + Front(fs)), Last(fs));
    }
  }

  // Safe after the call, and nothing left behind by the call itself: graceful.
  lemma SafeIsGraceful(cfg: Config, es: seq<Event>)
    requires Legal(cfg, es) && Safe(Run(cfg, es))
    requires HalfClosesLast(cfg, es) ==> NoSendQueued(Run(cfg, es))
    ensures Graceful(cfg, es)
  {
    forall fs | HalfClosesAfter(cfg, es, fs) ensures AllSent(cfg, es + fs) {
      SafeOverRuns(cfg, es, fs);
      if fs == [] {
        assert es + fs == es;
      }
      HalfCloseDebt(cfg, es + fs);
    }
  }

  // ---------------------------------------------------------------- and overtaken otherwise

  // The write side has just been closed with a send waiting.
  lemma OvertakenAtOnce(cfg: Config, es: seq<Event>)
    requires Legal(cfg, es) && HalfClosesLast(cfg, es) && !NoSendQueued(Run(cfg, es))
    ensures !Graceful(cfg, es)
  {
    HalfCloseDebt(cfg, es);
    assert es + [] == es;
    assert HalfClosesAfter(cfg, es, []);
  }

  // A flush that takes the whole backlog closes the write side, whatever waits in the queue.
  lemma FlushOvertakes(cfg: Config, es: seq<Event>)
    requires Legal(cfg, es)
    requires var c := Run(cfg, es);
      c.state == Disconnecting && c.writing && c.index == Added && c.halfCloses == [] && !NoSendQueued(c)
    ensures !Graceful(cfg, es)
  {
    RunIsConsistent(cfg, es);
    var c := Run(cfg, es);
    var flush := Writable(Done(|c.output|));
    Extend(cfg, es, flush);
    OwnStep(c, flush);
    QueueKept(c, Next(c, flush));
    assert Front(es + [flush]) == es;
    OvertakenAtOnce(cfg, es + [flush]);
    if Graceful(cfg, es) {
      GracefulFromHereOn(cfg, es, [flush]);
    }
  }

  lemma FullSocket(c: Conn)
    requires c.ran < |c.posted| && SendsData(c.posted[c.ran]) && !c.writing
    ensures var c' := RunTask(c, Failed(EWouldBlock));
      c'.writing && c'.index == Added && c'.state == c.state && c'.halfCloses == c.halfCloses
  {
  }

  // Of two sends waiting the first may meet a full socket; the flush of what it buffers then
  // overtakes the second.
  lemma FirstOfTwoOvertakes(cfg: Config, es: seq<Event>, i: nat, k: nat)
    requires Legal(cfg, es)
    requires var c := Run(cfg, es);
      && c.state == Disconnecting && !c.writing && c.index == Added && c.halfCloses == []
      && SendAt(c, i) && SendAt(c, k) && i < k
      && forall j: nat :: ShutdownAt(c, j) ==> i < j
    ensures !Graceful(cfg, es)
  {
    var c := Run(cfg, es);
    var first := FirstSend(c, i);
    forall j | c.ran <= j < first ensures !SendsData(c.posted[j]) && !c.posted[j].ShutdownTask? {
      assert !SendAt(c, j) && !ShutdownAt(c, j);
    }
    var fs := SkipTasks(cfg, es, first - c.ran);
    var d, full := Run(cfg, es + fs), Event.Task(Failed(EWouldBlock));
    RunIsConsistent(cfg, es + fs);
    assert d.posted[d.ran] == c.posted[first];
    Extend(cfg, es + fs, full);
    QueueMoves(d, Failed(EWouldBlock));
    assert SendAt(d, k);
    FullSocket(d);
    FlushOvertakes(cfg, es + fs + [full]);
    if Graceful(cfg, es) {
      GracefulFromHereOn(cfg, es, fs);
      GracefulFromHereOn(cfg, es + fs, [full]);
    }
  }

  // ---------------------------------------------------------------- exactly which calls are graceful

  // On the loop's thread: exactly when no send with data is in the queue at the call.
  lemma ShutdownIsGracefulExactly(cfg: Config, es: seq<Event>)
    requires Legal(cfg, es) && Run(cfg, es).state == Connected
    ensures Legal(cfg, es + [UserShutdown])
    ensures Graceful(cfg, es + [UserShutdown]) <==> NoSendQueued(Run(cfg, es))
  {
    var c, called := Run(cfg, es), es + [UserShutdown];
    RunIsConsistent(cfg, es);
    NoShutdownYet(cfg, es);
    Extend(cfg, es, UserShutdown);
    var c' := Run(cfg, called);
    assert Front(called) == es;
    assert forall i: nat :: SendAt(c', i) == SendAt(c, i);
    if NoSendQueued(c) {
      SafeIsGraceful(cfg, called);
    } else if c.writing {
      FlushOvertakes(cfg, called);
    } else {
      OvertakenAtOnce(cfg, called);
    }
  }

  // From another thread: exactly when none is, or a single one and no backlog.
  lemma QueuedShutdownIsGracefulExactly(cfg: Config, es: seq<Event>)
    requires Legal(cfg, es) && Run(cfg, es).state == Connected
    ensures Legal(cfg, es + [UserQueueShutdown])
    ensures var c := Run(cfg, es);
      Graceful(cfg, es + [UserQueueShutdown]) <==> NoSendQueued(c) || (AtMostOneSend(c) && !c.writing)
  {
    var c, called := Run(cfg, es), es + [UserQueueShutdown];
    RunIsConsistent(cfg, es);
    Extend(cfg, es, UserQueueShutdown);
    var c' := Run(cfg, called);
    assert Front(called) == es;
    assert c'.posted == c.posted + [ShutdownTask];
    assert forall i: nat :: SendAt(c', i) == SendAt(c, i);
    NoShutdownYet(cfg, es);
    assert forall i: nat :: i < |c.posted| ==> ShutdownAt(c', i) == ShutdownAt(c, i);
    if NoSendQueued(c) || (AtMostOneSend(c) && !c.writing) {
      SafeIsGraceful(cfg, called);
    } else if c.writing {
      FlushOvertakes(cfg, called);
    } else {
      var i: nat, k: nat :| SendAt(c, i) && SendAt(c, k) && i != k;
      FirstOfTwoOvertakes(cfg, called, if i < k then i else k, if i < k then k else i);
    }
  }

  // ---------------------------------------------------------------- an instance

  // A send and a shutdown from another thread: the write side closes with the send still queued.
  lemma OffThreadShutdownOvertakesSend(cfg: Config, b: Byte) returns (es: seq<Event>)
    requires !cfg.highWaterCb
    ensures Legal(cfg, es)
    ensures var c := Run(cfg, es);
      && c.state == Disconnecting && c.halfCloses == [[b]] && c.ran < |c.posted|
      && c.posted[c.ran] == SendTask([b, b])
  {
    var c;
    es, c := BackloggedSend(cfg, b);
    Extend(cfg, es, UserQueueSend([b, b]));
    es := es + [UserQueueSend([b, b])];
    Extend(cfg, es, UserQueueShutdown);
    es := es + [UserQueueShutdown];
    c := c.(state := Disconnecting, posted := [SendTask([b, b]), ShutdownTask]);
    assert Run(cfg, es) == c;
    LastFlush(c, b);
    Extend(cfg, es, Writable(Done(1)));
    es := es + [Writable(Done(1))];
  }

  lemma LastFlush(c: Conn, b: Byte)
    requires c.state == Disconnecting && c.writing && c.output == [b] && c.wire == [] && c.halfCloses == []
    ensures var c' := HandleWrite(c, Done(1));
      c'.state == Disconnecting && c'.halfCloses == [[b]] && c'.ran == c.ran && c.posted <= c'.posted
  {
    assert [b][..1] == [b] && [b][1..] == [] && [] + [b] == [b];
  }

  lemma BackloggedSend(cfg: Config, b: Byte) returns (es: seq<Event>, c: Conn)
    requires !cfg.highWaterCb
    ensures Legal(cfg, es) && Run(cfg, es) == c
    ensures c == Init(cfg).(state := Connected, reading := true, output := [b], writing := true, index := Added)
  {
    es := [];
    Extend(cfg, es, Establish);
    es := es + [Establish];
    var send := UserSend([b], Failed(EWouldBlock));
    assert Run(cfg, es) == ConnectEstablished(Init(cfg));
    Extend(cfg, es, send);
    es, c := es + [send], Enqueue(ConnectEstablished(Init(cfg)), [b]);
  }
}
