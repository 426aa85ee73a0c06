// shutdown(): what is on the wire when the write side is closed. Whether a shutdown is graceful is
// settled by the sends waiting in the loop's queue at the call, and by the call's thread.

module HalfClose {
  import opened Common
  import opened ConnModel
  import opened ConnTheorems
  import opened TaskQueue

  // ---------------------------------------------------------------- a graceful half-close

  // The call of shutdown() that took effect: the connection then, what it had accepted, and
  // whether the call was on the loop's own thread.
  datatype Call = Call(before: Conn, log: seq<Segment>, onThread: bool)

  function AtShutdown(cfg: Config, es: seq<Event>): Option<Call>
    requires Legal(cfg, es)
  {
    if es == [] then None
    else if AtShutdown(cfg, Front(es)).Some? then AtShutdown(cfg, Front(es))
    else
      var c := Run(cfg, Front(es));
      if (Last(es).UserShutdown? || Last(es).UserQueueShutdown?) && c.state == Connected
      then Some(Call(c, Accepted(cfg, Front(es)), Last(es).UserShutdown?))
      else None
  }

  // On the loop's thread, with nothing of send() still in the queue.
  ghost predicate Unhurried(at: Option<Call>) {
    at.Some? ==> at.value.onThread && NoSendQueued(at.value.before)
  }

  // A shutdown in progress, in the connection alone.
  ghost predicate Closing(c: Conn) {
    && (forall t :: t in c.posted ==> !t.ShutdownTask?)
    && |c.halfCloses| <= 1
    && (c.state == Connecting || c.state == Connected ==> c.halfCloses == [])
    && (c.state == Disconnecting ==> NoSendQueued(c) && (c.halfCloses == [] <==> c.writing))
    && (c.state == Disconnecting && c.halfCloses != [] ==> c.wire == c.halfCloses[0])
  }

  // The call, if this is it, is unhurried.
  ghost predicate Patient(c: Conn, e: Event) {
    c.state == Connected ==> !e.UserQueueShutdown? && (e.UserShutdown? ==> NoSendQueued(c))
  }

  // A task other than a queued shutdown leaves the shutdown alone, and without data to send it
  // leaves a closing connection's stream alone as well.
  lemma TaskLeavesShutdown(c: Conn, w: IoResult)
    requires TaskLegal(c, w) && !c.posted[c.ran].ShutdownTask?
    ensures var c' := RunTask(c, w);
      && c'.halfCloses == c.halfCloses && c'.state == c.state && c'.ran == c.ran + 1
      && (c.state == Disconnecting && !SendsData(c.posted[c.ran]) ==>
            c'.wire == c.wire && c'.writing == c.writing && c'.output == c.output)
  {
    var popped := c.(ran := c.ran + 1);
    hide SendInLoop, SendFileInLoop;
    match c.posted[c.ran] {
      case SendTask(data) =>
        SendIsQuiet(popped, data, w);
        if data == [] {
          EmptySend(popped, w);
        }
      case SendFileTask(job) => SendFileIsQuiet(popped, job, w);
      case _ =>
    }
  }

  lemma EmptySend(c: Conn, w: IoResult)
    requires WriteLegal(c, [], w)
    ensures var c' := SendInLoop(c, [], w); c'.wire == c.wire && c'.writing == c.writing && c'.output == c.output
  {
  }

  lemma TaskWhileClosing(c: Conn, w: IoResult)
    requires Consistent(c) && Closing(c) && TaskLegal(c, w)
    ensures var c' := RunTask(c, w);
      && Closing(c') && c'.halfCloses == c.halfCloses && c'.state == c.state
      && (NoSendQueued(c) ==> NoSendQueued(c'))
  {
    hide RunTask;
    var popped, c' := c.(ran := c.ran + 1), RunTask(c, w);
    assert c.posted[c.ran] in c.posted && (SendsData(c.posted[c.ran]) ==> SendAt(c, c.ran));
    TaskLeavesShutdown(c, w);
    TaskPostsOwn(c, w);
    OwnPostsKeepSends(popped, c');
    assert forall i: nat :: SendAt(popped, i) ==> SendAt(c, i);
    assert c'.posted == c.posted || c'.posted == c.posted + [Last(c'.posted)];
  }

  lemma FlushWhileClosing(c: Conn, w: IoResult)
    requires Consistent(c) && Closing(c) && c.state != Connecting && FlushLegal(c, w)
    ensures var c' := HandleWrite(c, w);
      && Closing(c') && c'.state == c.state
      && (NoSendQueued(c) ==> NoSendQueued(c'))
      && (c'.halfCloses == c.halfCloses
          || (c'.halfCloses == [c'.wire] && c'.output == [] && c.state == Disconnecting && c.halfCloses == []))
  {
    var c' := HandleWrite(c, w);
    assert c'.posted == c.posted || c'.posted == c.posted + [WriteCompleteTask];
    assert forall i: nat :: SendAt(c', i) == SendAt(c, i);
  }

  lemma CallWhileConnected(c: Conn, e: Event)
    requires Consistent(c) && Closing(c) && Enabled(c, e) && c.state == Connected
    requires e.UserSend? || e.UserSendFile? || e.UserQueueSend? || e.UserQueueSendFile?
    ensures var c' := Next(c, e); Closing(c') && c'.halfCloses == c.halfCloses && c'.state == c.state
  {
    var c' := Next(c, e);
    if e.UserQueueSend? {
      assert c'.posted == c.posted + [SendTask(e.data)];
    } else {
      match e {
        case UserSend(data, w) => SendIsQuiet(c, data, w);
        case UserSendFile(file, offset, count, w) =>
          var job := NewJob(c, file, offset, count);
          SendFileIsQuiet(c.(jobs := c.jobs + [job]), job, w);
        case UserQueueSendFile(file, offset, count) =>
      }
      assert c'.posted == c.posted || c'.posted == c.posted + [Last(c'.posted)];
    }
  }

  // A half-close happens only in kDisconnecting, with nothing left behind the wire.
  lemma ClosingStep(c: Conn, e: Event)
    requires Consistent(c) && Closing(c) && Enabled(c, e) && Patient(c, e)
    ensures var c' := Next(c, e);
      && Closing(c')
      && c.halfCloses <= c'.halfCloses
      && (c'.halfCloses != c.halfCloses ==>
            c'.halfCloses == [c'.wire] && c'.output == [] && c'.state == Disconnecting)
      && (c'.state == Disconnecting && c.state != Disconnecting ==> e.UserShutdown? && c.state == Connected)
      && (c.state == Disconnecting || c.state == Disconnected ==> c'.state == c.state || c'.state == Disconnected)
      && (c.state != Connected && NoSendQueued(c) ==> NoSendQueued(c'))
  {
    hide SendInLoop, SendFileInLoop, RunTask, HandleWrite;
    match e {
      case Task(w) => TaskWhileClosing(c, w);
      case Writable(w) => FlushWhileClosing(c, w);
      case _ =>
        if c.state == Connected && (e.UserSend? || e.UserSendFile? || e.UserQueueSend? || e.UserQueueSendFile?) {
          CallWhileConnected(c, e);
        } else {
          assert forall i: nat :: SendAt(Next(c, e), i) == SendAt(c, i);
        }
    }
  }

  // With no send in the queue nothing of send() is accepted outside kConnected; and while
  // kDisconnecting lasts no file chunk is either.
  lemma NothingAcceptedAfterShutdown(c: Conn, e: Event)
    requires Consistent(c) && NoSendQueued(c) && Enabled(c, e)
    ensures c.state != Connected ==> SentBy(Accepts(c, e)) == []
    ensures c.state == Disconnecting ==> BytesOf(Accepts(c, e)) == []
  {
    if e.Task? {
      assert SendsData(c.posted[c.ran]) ==> SendAt(c, c.ran);
    }
  }

  lemma {:induction false} ClosingOverRuns(cfg: Config, es: seq<Event>)
    requires Legal(cfg, es) && Unhurried(AtShutdown(cfg, es))
    ensures Closing(Run(cfg, es))
    ensures var c, at := Run(cfg, es), AtShutdown(cfg, es);
      && (c.state == Connecting || c.state == Connected ==> at == None)
      && (c.state == Disconnecting || c.halfCloses != [] ==> at.Some?)
      && (c.state == Disconnecting ==> Flatten(Accepted(cfg, es)) == Flatten(at.value.log))
      && (c.halfCloses != [] ==> c.halfCloses[0] == Flatten(at.value.log))
      && (at.Some? ==> NoSendQueued(c) && SendBytes(Accepted(cfg, es)) == SendBytes(at.value.log))
  {
    if es != [] {
      hide Closing, Next;
      var c, e := Run(cfg, Front(es)), Last(es);
      ClosingOverRuns(cfg, Front(es));
      RunIsConsistent(cfg, Front(es));
      ClosingStep(c, e);
      if AtShutdown(cfg, Front(es)).Some? {
        NothingAcceptedAfterShutdown(c, e);
      }
      FlattenSnoc(Accepted(cfg, Front(es)), Accepts(c, e));
      SendBytesSnoc(Accepted(cfg, Front(es)), Accepts(c, e));
      StreamConservation(cfg, es);
    }
  }

  // After an unhurried shutdown the write side is closed at most once, when exactly what was accepted
  // before shutdown() is on the wire; it is closed as soon as the backlog is gone; nothing reaches the
  // wire after it while the connection is closing; and no send is accepted after shutdown(), ever.
  lemma GracefulHalfClose(cfg: Config, es: seq<Event>)
    requires Legal(cfg, es) && Unhurried(AtShutdown(cfg, es))
    ensures var c, at := Run(cfg, es), AtShutdown(cfg, es);
      && |c.halfCloses| <= 1
      && (c.halfCloses != [] ==> at.Some? && c.halfCloses[0] == Flatten(at.value.log))
      && (c.state == Disconnecting ==> (c.halfCloses == [] <==> c.output != []))
      && (c.state == Disconnecting && c.halfCloses != [] ==> c.wire == c.halfCloses[0])
      && (at.Some? ==> SendBytes(Accepted(cfg, es)) == SendBytes(at.value.log))
  {
    ClosingOverRuns(cfg, es);
    RunIsConsistent(cfg, es);
  }

  // ---------------------------------------------------------------- programs that keep to the loop's thread

  predicate OnThread(e: Event) {
    !e.UserQueueSend? && !e.UserQueueShutdown?
  }

  // send and shutdown are never called from another thread; sendFile may be.
  predicate AllOnThread(es: seq<Event>) {
    forall e :: e in es ==> OnThread(e)
  }

  // Such a program's shutdown is always unhurried.
  lemma {:induction false} OnThreadIsUnhurried(cfg: Config, es: seq<Event>)
    requires Legal(cfg, es) && AllOnThread(es)
    ensures Unhurried(AtShutdown(cfg, es))
    ensures forall t :: t in Run(cfg, es).posted ==> OwnTask(t)
  {
    if es != [] {
      var c, e := Run(cfg, Front(es)), Last(es);
      OnThreadIsUnhurried(cfg, Front(es));
      RunIsConsistent(cfg, Front(es));
      assert OnThread(e);
      if e.Task? {
        TaskPostsOwn(c, e.w);
        OnlyOwn(c.(ran := c.ran + 1), Next(c, e));
      } else {
        OwnStep(c, e);
        OnlyOwn(c, Next(c, e));
      }
    }
  }

  lemma OnlyOwn(c: Conn, c': Conn)
    requires PostsOwn(c, c') && forall t :: t in c.posted ==> OwnTask(t)
    ensures forall t :: t in c'.posted ==> OwnTask(t)
    ensures NoSendQueued(c)
  {
    assert c'.posted == c.posted || c'.posted == Front(c'.posted) + [Last(c'.posted)];
    assert forall i: nat :: SendAt(c, i) ==> c.posted[i] in c.posted;
  }
}
