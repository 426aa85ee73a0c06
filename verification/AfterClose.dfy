// A connection in kDisconnected. The log says it gives up writing; the code goes on with whatever
// is queued. When it still writes, and exactly when it has fallen silent for good.

module AfterClose {
  import opened Common
  import opened ConnModel
  import opened ConnTheorems
  import opened TaskQueue

  // ---------------------------------------------------------------- one step

  // An event by which a closed connection's socket takes bytes.
  predicate StillWrites(c: Conn, e: Event)
    requires Enabled(c, e)
  {
    match e
    case Writable(w) => c.writing && w.Done? && 0 < w.n
    case Task(w) =>
      && (c.posted[c.ran].SendTask? || c.posted[c.ran].SendFileTask?)
      && CanWriteDirectly(c) && w.Done? && 0 < w.n
    case _ => false
  }

  lemma ClosedStepWritesExactly(c: Conn, e: Event)
    requires Consistent(c) && c.state == Disconnected && Enabled(c, e)
    ensures Next(c, e).state == Disconnected
    ensures Next(c, e).wire != c.wire <==> StillWrites(c, e)
  {
    match e {
      case Writable(w) => ClosedFlush(c, w);
      case Task(w) => ClosedTask(c, w);
      case _ =>
    }
  }

  lemma Grows(a: seq<Byte>, b: seq<Byte>)
    ensures a + b != a <==> b != []
  {
    assert |a + b| == |a| + |b|;
    assert b == [] ==> a + b == a;
  }

  lemma ClosedFlush(c: Conn, w: IoResult)
    requires c.state == Disconnected && FlushLegal(c, w)
    ensures HandleWrite(c, w).state == Disconnected
    ensures HandleWrite(c, w).wire != c.wire <==> c.writing && w.Done? && 0 < w.n
  {
    if c.writing && w.Done? {
      Grows(c.wire, c.output[..w.n]);
    }
  }

  lemma ClosedTask(c: Conn, w: IoResult)
    requires c.state == Disconnected && TaskLegal(c, w)
    ensures RunTask(c, w).state == Disconnected
    ensures RunTask(c, w).wire != c.wire <==> StillWrites(c, Event.Task(w))
  {
    match c.posted[c.ran] {
      case SendTask(data) =>
        if CanWriteDirectly(c) && w.Done? {
          Grows(c.wire, data[..w.n]);
        }
      case SendFileTask(job) => Grows(c.wire, FileChunk(c, job, w));
      case _ =>
    }
  }

  // ---------------------------------------------------------------- silent for good

  // A task waits ahead of position i that will close the write side, unless EPOLLOUT is on by then.
  ghost predicate Blocked(c: Conn, i: nat) {
    exists j: nat :: j < i && ShutdownAt(c, j)
  }

  // No send with data waits, nor a file step that can send and could go straight to the socket, but
  // behind a queued shutdown. Behind a backlog no file step goes straight to the socket.
  ghost predicate NothingToSend(c: Conn) {
    && (forall i: nat :: SendAt(c, i) ==> Blocked(c, i))
    && (c.output == [] ==> forall i: nat :: FileAt(c, i) ==> Blocked(c, i))
  }

  // The write side is closed; or the channel left the poller with EPOLLOUT on, so no event comes
  // and no task turns it on again; or EPOLLOUT is off and nothing that waits can change that.
  ghost predicate Silent(c: Conn) {
    && c.state == Disconnected
    && (c.halfCloses != [] || (c.writing && c.index == New) || (!c.writing && NothingToSend(c)))
  }

  // A task of a silent connection.
  lemma SilentTask(c: Conn, w: IoResult)
    requires Consistent(c) && Silent(c) && TaskLegal(c, w)
    ensures var c' := RunTask(c, w);
      Silent(c') && c'.wire == c.wire && (c.output != [] ==> c'.output != [])
  {
    ClosedTask(c, w);
    KeepsBacklog(c, w);
    if c.halfCloses != [] {
      StaysShut(c, w);
    } else if c.writing {
      StaysOut(c, w);
    } else {
      QuietTask(c, w);
    }
  }

  lemma KeepsBacklog(c: Conn, w: IoResult)
    requires TaskLegal(c, w)
    ensures c.output != [] ==> RunTask(c, w).output != []
  {
  }

  // A closed write side takes no more.
  lemma StaysShut(c: Conn, w: IoResult)
    requires TaskLegal(c, w) && c.halfCloses != []
    ensures RunTask(c, w).halfCloses != [] && !StillWrites(c, Event.Task(w))
  {
  }

  // With EPOLLOUT on in a removed channel every send only adds to the backlog.
  lemma StaysOut(c: Conn, w: IoResult)
    requires TaskLegal(c, w) && c.writing && c.index == New
    ensures var c' := RunTask(c, w); c'.writing && c'.index == New && c'.halfCloses == c.halfCloses
    ensures !StillWrites(c, Event.Task(w))
  {
  }

  lemma QuietTask(c: Conn, w: IoResult)
    requires TaskLegal(c, w) && c.state == Disconnected && !c.writing && NothingToSend(c) && c.halfCloses == []
    ensures var c' := RunTask(c, w); c'.halfCloses != [] || (!c'.writing && NothingToSend(c'))
    ensures !StillWrites(c, Event.Task(w))
  {
    var t, c' := c.posted[c.ran], RunTask(c, w);
    assert SendsData(t) ==> SendAt(c, c.ran) && !Blocked(c, c.ran);
    assert SendsFile(t) ==> FileAt(c, c.ran) && !Blocked(c, c.ran);
    HarmlessTask(c, w);
    if !t.ShutdownTask? {
      QueueMoves(c, w);
      forall i: nat | (SendAt(c', i) || (c.output == [] && FileAt(c', i))) ensures Blocked(c', i) {
        var j: nat :| j < i && ShutdownAt(c, j);
        assert ShutdownAt(c', j);
      }
    }
  }

  // A task that cannot send leaves nothing behind that can.
  lemma HarmlessTask(c: Conn, w: IoResult)
    requires TaskLegal(c, w) && c.state == Disconnected && !c.writing && !SendsData(c.posted[c.ran])
    requires c.output == [] ==> !SendsFile(c.posted[c.ran])
    ensures var c' := RunTask(c, w);
      && !c'.writing && c'.output == c.output && !StillWrites(c, Event.Task(w))
      && (c.posted[c.ran].ShutdownTask? ==> c'.halfCloses != [])
      && (c.output == [] ==> forall i: nat :: FileAt(c', i) ==> FileAt(c, i))
  {
  }

  lemma SilentStep(c: Conn, e: Event)
    requires Consistent(c) && Silent(c) && Enabled(c, e)
    ensures var c' := Next(c, e); Silent(c') && c'.wire == c.wire && (c.output != [] ==> c'.output != [])
  {
    hide RunTask;
    ClosedStepWritesExactly(c, e);
    if e.Task? {
      SilentTask(c, e.w);
    } else {
      var c' := Next(c, e);
      assert forall i: nat :: SendAt(c', i) == SendAt(c, i);
      assert forall i: nat :: FileAt(c', i) == FileAt(c, i);
      assert forall i: nat :: ShutdownAt(c', i) == ShutdownAt(c, i);
      assert forall i: nat :: Blocked(c', i) == Blocked(c, i);
    }
  }

  lemma {:induction false} SilentOverRuns(cfg: Config, es: seq<Event>, fs: seq<Event>)
    requires Legal(cfg, es) && Silent(Run(cfg, es)) && Legal(cfg, es + fs)
    ensures Silent(Run(cfg, es + fs)) && Run(cfg, es + fs).wire == Run(cfg, es).wire
    ensures Run(cfg, es).output != [] ==> Run(cfg, es + fs).output != []
  {
    if fs == [] {
      assert es + fs == es;
    } else {
      assert Front(es + fs) == es + Front(fs);
      SilentOverRuns(cfg, es, Front(fs));
      RunIsConsistent(cfg, es + Front(fs));
      SilentStep(Run(cfg, es + Front(fs)), Last(fs));
    }
  }

  // ---------------------------------------------------------------- and writing otherwise

  // No continuation of the history puts another byte on the wire.
  ghost predicate WireIsFinal(cfg: Config, es: seq<Event>)
    requires Legal(cfg, es)
  {
    forall fs :: Legal(cfg, es + fs) ==> Run(cfg, es + fs).wire == Run(cfg, es).wire
  }

  lemma NotFinal(cfg: Config, es: seq<Event>, fs: seq<Event>)
    requires Legal(cfg, es) && Legal(cfg, es + fs) && Run(cfg, es + fs).wire != Run(cfg, es).wire
    ensures !WireIsFinal(cfg, es)
  {
  }

  // One more event writes, from a later state with the same wire.
  lemma OneMoreWrites(cfg: Config, es: seq<Event>, fs: seq<Event>, e: Event)
    requires Legal(cfg, es) && Legal(cfg, es + fs) && Run(cfg, es + fs).wire == Run(cfg, es).wire
    requires var c := Run(cfg, es + fs); c.state == Disconnected && Enabled(c, e) && StillWrites(c, e)
    ensures !WireIsFinal(cfg, es)
  {
    RunIsConsistent(cfg, es + fs);
    ClosedStepWritesExactly(Run(cfg, es + fs), e);
    Extend(cfg, es + fs, e);
    assert es + fs + [e] == es + (fs + [e]);
    NotFinal(cfg, es, fs + [e]);
  }

  lemma WritingIsNotFinal(cfg: Config, es: seq<Event>, fs: seq<Event>)
    requires Legal(cfg, es) && Legal(cfg, es + fs) && Run(cfg, es + fs).wire == Run(cfg, es).wire
    requires var c := Run(cfg, es + fs);
      c.state == Disconnected && c.writing && c.index == Added && c.halfCloses == []
    ensures !WireIsFinal(cfg, es)
  {
    RunIsConsistent(cfg, es + fs);
    OneMoreWrites(cfg, es, fs, Writable(Done(1)));
  }

  // A send that meets a full socket turns EPOLLOUT on again, and the next flush writes.
  lemma QueuedSendIsNotFinal(cfg: Config, es: seq<Event>, i: nat)
    requires Legal(cfg, es)
    requires var c := Run(cfg, es);
      c.state == Disconnected && !c.writing && c.halfCloses == [] && SendAt(c, i) && !Blocked(c, i)
    ensures !WireIsFinal(cfg, es)
  {
    var c := Run(cfg, es);
    var first := FirstSend(c, i);
    forall j | c.ran <= j < first ensures !SendsData(c.posted[j]) && !c.posted[j].ShutdownTask? {
      assert !SendAt(c, j) && !ShutdownAt(c, j);
    }
    var fs := SkipTasks(cfg, es, first - c.ran);
    var d, full := Run(cfg, es + fs), Event.Task(Failed(EWouldBlock));
    assert d.posted[d.ran] == c.posted[first];
    FullSocketReenables(d);
    Extend(cfg, es + fs, full);
    assert es + fs + [full] == es + (fs + [full]);
    WritingIsNotFinal(cfg, es, fs + [full]);
  }

  // EPOLLOUT of a closed connection comes back on, and its channel back into the poller, even one
  // that connectDestroyed has taken out.
  lemma FullSocketReenables(c: Conn)
    requires c.state == Disconnected && !c.writing && c.ran < |c.posted| && SendsData(c.posted[c.ran])
    ensures TaskLegal(c, Failed(EWouldBlock))
    ensures var c' := RunTask(c, Failed(EWouldBlock));
      && c'.state == Disconnected && c'.writing && c'.index == Added && c'.halfCloses == c.halfCloses
      && c'.wire == c.wire && c'.output == c.output + c.posted[c.ran].data
  {
  }

  lemma OneByteOfFile(c: Conn)
    requires CanWriteDirectly(c) && c.halfCloses == [] && c.ran < |c.posted| && SendsFile(c.posted[c.ran])
    ensures var e := Event.Task(Done(1)); Enabled(c, e) && StillWrites(c, e)
  {
  }

  lemma QueuedFileIsNotFinal(cfg: Config, es: seq<Event>, i: nat)
    requires Legal(cfg, es)
    requires var c := Run(cfg, es);
      && c.state == Disconnected && !c.writing && c.output == [] && c.halfCloses == []
      && FileAt(c, i) && !Blocked(c, i) && forall j: nat :: j < i ==> !SendAt(c, j)
    ensures !WireIsFinal(cfg, es)
  {
    hide Enabled, StillWrites, WireIsFinal;
    var c := Run(cfg, es);
    forall j | c.ran <= j < i ensures !SendsData(c.posted[j]) && !c.posted[j].ShutdownTask? {
      assert !SendAt(c, j) && !ShutdownAt(c, j);
    }
    var fs := SkipTasks(cfg, es, i - c.ran);
    assert Run(cfg, es + fs).posted[i] == c.posted[i];
    OneByteOfFile(Run(cfg, es + fs));
    OneMoreWrites(cfg, es, fs, Event.Task(Done(1)));
  }

  // A closed connection's wire is final exactly when the connection is silent.
  lemma WireIsFinalExactly(cfg: Config, es: seq<Event>)
    requires Legal(cfg, es) && Run(cfg, es).state == Disconnected
    ensures WireIsFinal(cfg, es) <==> Silent(Run(cfg, es))
  {
    var c := Run(cfg, es);
    assert es + [] == es;
    RunIsConsistent(cfg, es);
    if Silent(c) {
      forall fs | Legal(cfg, es + fs) ensures Run(cfg, es + fs).wire == c.wire {
        SilentOverRuns(cfg, es, fs);
      }
    } else if c.writing {
      WritingIsNotFinal(cfg, es, []);
    } else if i: nat :| SendAt(c, i) && !Blocked(c, i) {
      QueuedSendIsNotFinal(cfg, es, i);
    } else {
      var i: nat :| FileAt(c, i) && !Blocked(c, i);
      forall j: nat | j < i ensures !SendAt(c, j) {
        assert SendAt(c, j) ==> Blocked(c, j);
      }
      QueuedFileIsNotFinal(cfg, es, i);
    }
  }

  // So a close is the end of writing exactly when, as it happens, the write side is closed already
  // or nothing waits to be sent.
  lemma CloseIsFinalExactly(cfg: Config, es: seq<Event>)
    requires Legal(cfg, es) && Run(cfg, es).index != New
    ensures Legal(cfg, es + [Close])
    ensures WireIsFinal(cfg, es + [Close]) <==> Run(cfg, es).halfCloses != [] || NothingToSend(Run(cfg, es))
  {
    var c := Run(cfg, es);
    Extend(cfg, es, Close);
    WireIsFinalExactly(cfg, es + [Close]);
    SameQueue(c, HandleClose(c));
  }

  lemma SameQueue(c: Conn, c': Conn)
    requires c'.posted == c.posted && c'.ran == c.ran && c'.output == c.output
    ensures NothingToSend(c') == NothingToSend(c)
  {
    assert forall i: nat :: SendAt(c', i) == SendAt(c, i);
    assert forall i: nat :: FileAt(c', i) == FileAt(c, i);
    assert forall i: nat :: ShutdownAt(c', i) == ShutdownAt(c, i);
    assert forall i: nat :: Blocked(c', i) == Blocked(c, i);
  }

  // And connectDestroyed is the end of it whatever waits if EPOLLOUT is on, else on the same condition.
  lemma DestroyIsFinalExactly(cfg: Config, es: seq<Event>)
    requires Legal(cfg, es) && Run(cfg, es).state == Disconnected
    ensures Legal(cfg, es + [Destroy])
    ensures var c := Run(cfg, es);
      WireIsFinal(cfg, es + [Destroy]) <==> c.halfCloses != [] || c.writing || NothingToSend(c)
  {
    var c := Run(cfg, es);
    Extend(cfg, es, Destroy);
    WireIsFinalExactly(cfg, es + [Destroy]);
    SameQueue(c, ConnectDestroyed(c));
  }

  // ---------------------------------------------------------------- transfers that never end

  ghost predicate Waits(c: Conn, job: FileJob) {
    exists i: nat :: c.ran <= i < |c.posted| && c.posted[i] == SendFileTask(job)
  }

  // Behind the backlog of a silent connection a file step only queues itself again.
  lemma StrandedStep(c: Conn, e: Event, job: FileJob)
    requires Consistent(c) && Silent(c) && Enabled(c, e) && c.output != [] && Waits(c, job) && 0 < job.remaining
    ensures var c' := Next(c, e); c'.output != [] && Waits(c', job)
  {
    var i: nat :| c.ran <= i < |c.posted| && c.posted[i] == SendFileTask(job);
    var c' := Next(c, e);
    if e.Task? {
      SilentTask(c, e.w);
      TaskPostsOwn(c, e.w);
      assert c.posted <= c'.posted;
      if i == c.ran {
        assert c'.posted[|c.posted|] == SendFileTask(job);
      } else {
        assert c'.posted[i] == SendFileTask(job);
      }
    } else {
      assert c'.posted[i] == SendFileTask(job);
    }
  }

  // A transfer that waits behind a backlog at a final close is never ended: its step is in the
  // queue for ever, with the connection it holds.
  lemma {:induction false} StrandedForEver(cfg: Config, es: seq<Event>, fs: seq<Event>, job: FileJob)
    requires Legal(cfg, es) && Legal(cfg, es + fs) && 0 < job.remaining
    requires var c := Run(cfg, es); Silent(c) && c.output != [] && Waits(c, job)
    ensures var c' := Run(cfg, es + fs); Silent(c') && c'.output != [] && Waits(c', job)
  {
    if fs == [] {
      assert es + fs == es;
    } else {
      assert Front(es + fs) == es + Front(fs);
      StrandedForEver(cfg, es, Front(fs), job);
      RunIsConsistent(cfg, es + Front(fs));
      StrandedStep(Run(cfg, es + Front(fs)), Last(fs), job);
      SilentStep(Run(cfg, es + Front(fs)), Last(fs));
    }
  }

  // ---------------------------------------------------------------- instances

  lemma ClosedWithTask(cfg: Config, call: Event) returns (es: seq<Event>)
    requires call.UserQueueSend? || call.UserQueueSendFile?
    ensures Legal(cfg, es)
    ensures var c := Run(cfg, es);
      && c.state == Disconnected && !c.writing && c.output == [] && c.wire == [] && c.ran == 0
      && c.halfCloses == [] && c.index == Deleted
      && c.posted == [if call.UserQueueSend? then SendTask(call.data)
                      else SendFileTask(FileJob(0, call.file, call.offset, call.count))]
  {
    es := [];
    Extend(cfg, es, Establish);
    es := es + [Establish];
    Extend(cfg, es, call);
    es := es + [call];
    Extend(cfg, es, Close);
    es := es + [Close];
  }

  // A send queued from another thread before the close reaches the socket after it.
  lemma QueuedSendOutlivesClose(cfg: Config, b: Byte) returns (es: seq<Event>)
    ensures Legal(cfg, es)
    ensures Run(cfg, es).state == Disconnected && Run(cfg, es).wire == [b]
  {
    es := ClosedWithTask(cfg, UserQueueSend([b]));
    Extend(cfg, es, Event.Task(Done(1)));
    es := es + [Event.Task(Done(1))];
  }

  // So does a file: sendFileInLoop stops in kDisconnecting only.
  lemma QueuedFileOutlivesClose(cfg: Config, b: Byte) returns (es: seq<Event>)
    ensures Legal(cfg, es)
    ensures Run(cfg, es).state == Disconnected && Run(cfg, es).wire == [b]
  {
    es := ClosedWithTask(cfg, UserQueueSendFile([b], 0, 1));
    Extend(cfg, es, Event.Task(Done(1)));
    es := es + [Event.Task(Done(1))];
  }

  // And if the socket is full, the closed connection is registered for EPOLLOUT again.
  lemma ClosedButWriting(cfg: Config, b: Byte) returns (es: seq<Event>)
    ensures Legal(cfg, es)
    ensures Run(cfg, es).state == Disconnected && Run(cfg, es).writing && Run(cfg, es).output == [b]
  {
    es := ClosedWithTask(cfg, UserQueueSend([b]));
    FullSocketReenables(Run(cfg, es));
    Extend(cfg, es, Event.Task(Failed(EWouldBlock)));
    es := es + [Event.Task(Failed(EWouldBlock))];
  }

  // After connectDestroyed that connection still has EPOLLOUT on, and its backlog is lost for good.
  lemma DestroyedWriting(cfg: Config, b: Byte) returns (es: seq<Event>)
    ensures Legal(cfg, es) && WireIsFinal(cfg, es)
    ensures var c := Run(cfg, es); c.state == Disconnected && c.writing && c.index == New && c.output == [b]
  {
    es := ClosedButWriting(cfg, b);
    Extend(cfg, es, Destroy);
    DestroyIsFinalExactly(cfg, es);
    es := es + [Destroy];
  }
}
