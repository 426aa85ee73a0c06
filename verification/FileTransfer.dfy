// sendFile over all its re-queued steps: whatever else the connection sends in between, the
// chunks of one transfer, put together, are the file from the requested offset on.

module FileTransfer {
  import opened Common
  import opened ConnModel
  import opened ConnTheorems
  import opened TaskQueue
  import opened ConnEffects

  // The chunks of one transfer, in the order they went out.
  function FileBytes(log: seq<Segment>, id: nat): seq<Byte> {
    if log == [] then []
    else FileBytes(Front(log), id) + if Last(log).source == FromFile(id) then Last(log).bytes else []
  }

  lemma FileBytesSnoc(log: seq<Segment>, more: seq<Segment>, id: nat)
    requires |more| <= 1
    ensures FileBytes(log + more, id)
         == FileBytes(log, id) + if more != [] && more[0].source == FromFile(id) then more[0].bytes else []
  {
    if more == [] {
      assert log + more == log;
    } else {
      assert Front(log + more) == log && Last(log + more) == more[0];
    }
  }

  predicate IsSlice(file: seq<Byte>, start: int, bytes: seq<Byte>) {
    bytes == [] || (0 <= start && start + |bytes| <= |file| && bytes == file[start..start + |bytes|])
  }

  // The transfers an event ends early: a step taken in kDisconnecting, or one whose sendfile
  // reported EPIPE or ECONNRESET.
  function DropsBy(c: Conn, e: Event): set<nat>
    requires Enabled(c, e)
  {
    match e
    case UserSendFile(_, _, _, w) =>
      if c.state == Connected && CanWriteDirectly(c) && IsFault(w) then {|c.jobs|} else {}
    case Task(w) =>
      (match c.posted[c.ran]
       case SendFileTask(job) => if Stops(c, w) then {job.id} else {}
       case _ => {})
    case _ => {}
  }

  predicate Stops(c: Conn, w: IoResult) {
    c.state == Disconnecting || (CanWriteDirectly(c) && IsFault(w))
  }

  function Dropped(cfg: Config, es: seq<Event>): set<nat>
    requires Legal(cfg, es)
  {
    if es == [] then {} else Dropped(cfg, Front(es)) + DropsBy(Run(cfg, Front(es)), Last(es))
  }

  // ---------------------------------------------------------------- the invariant

  // A step of the transfer is waiting in the loop's queue.
  ghost predicate Pending(c: Conn, id: nat) {
    exists i: nat :: c.ran <= i && IsStep(c, i) && c.posted[i].job.id == id
  }

  // A queued step carries the file and the end of the request it belongs to.
  predicate SameRequest(c: Conn, job: FileJob) {
    && job.id < |c.jobs|
    && job.file == c.jobs[job.id].file
    && job.offset + job.remaining == c.jobs[job.id].offset + c.jobs[job.id].remaining
  }

  // It also continues exactly where the bytes sent so far stop.
  predicate Continues(c: Conn, log: seq<Segment>, job: FileJob) {
    SameRequest(c, job) && job.offset == c.jobs[job.id].offset + |FileBytes(log, job.id)|
  }

  // The account of one transfer: nothing before it is requested, afterwards a slice of its file
  // which is the whole request unless a step is still queued or was dropped.
  ghost predicate Account(c: Conn, log: seq<Segment>, dropped: set<nat>, id: nat) {
    if |c.jobs| <= id then FileBytes(log, id) == []
    else
      && |FileBytes(log, id)| <= c.jobs[id].remaining
      && IsSlice(c.jobs[id].file, c.jobs[id].offset, FileBytes(log, id))
      && (Pending(c, id) || id in dropped || |FileBytes(log, id)| == c.jobs[id].remaining)
  }

  predicate IsStep(c: Conn, i: nat) {
    i < |c.posted| && c.posted[i].SendFileTask?
  }

  ghost predicate StepsInOrder(c: Conn, log: seq<Segment>) {
    && c.ran <= |c.posted|
    && (forall i: nat :: IsStep(c, i) ==> SameRequest(c, c.posted[i].job))
    && (forall i: nat :: c.ran <= i && IsStep(c, i) ==> Continues(c, log, c.posted[i].job))
    && (forall i: nat, k: nat :: c.ran <= i < k && IsStep(c, i) && IsStep(c, k) ==>
          c.posted[i].job.id != c.posted[k].job.id)
  }

  ghost predicate Tracks(c: Conn, log: seq<Segment>, dropped: set<nat>) {
    && StepsInOrder(c, log)
    && (forall id: nat :: Account(c, log, dropped, id))
  }

  // ---------------------------------------------------------------- one step

  lemma SendFileStep(c: Conn, job: FileJob, w: IoResult)
    requires SendfileLegal(c, job, w)
    ensures var c', chunk := SendFileInLoop(c, job, w), FileChunk(c, job, w);
      && c'.jobs == c.jobs && c'.ran == c.ran && PostsAtMostOne(c, c')
      && |chunk| <= job.remaining && IsSlice(job.file, job.offset, chunk)
      && (NewTask(c, c').Some? && NewTask(c, c').value.SendFileTask? ==>
            NewTask(c, c').value.job == job.(offset := job.offset + |chunk|, remaining := job.remaining - |chunk|))
      && (|chunk| == job.remaining || Stops(c, w)
          || (NewTask(c, c').Some? && NewTask(c, c').value.SendFileTask?))
  {
  }

  // How appending one task changes which transfers are queued.
  lemma PendingAfterPost(c: Conn, c': Conn, id: nat)
    requires c'.ran == c.ran && c.ran <= |c.posted| && PostsAtMostOne(c, c')
    ensures Pending(c', id) == (Pending(c, id)
      || (NewTask(c, c').Some? && NewTask(c, c').value.SendFileTask? && NewTask(c, c').value.job.id == id))
  {
    if Pending(c, id) {
      var i: nat :| c.ran <= i && IsStep(c, i) && c.posted[i].job.id == id;
      assert IsStep(c', i) && c'.posted[i] == c.posted[i];
    }
    if Pending(c', id) {
      var i: nat :| c'.ran <= i && IsStep(c', i) && c'.posted[i].job.id == id;
      assert i < |c.posted| ==> IsStep(c, i) && c'.posted[i] == c.posted[i];
    }
    if c'.posted != c.posted && Last(c'.posted).SendFileTask? {
      assert IsStep(c', |c.posted|);
    }
  }

  // The steps in the queue stay in order when the log grows by nothing they own.
  lemma StepsAfterPost(c: Conn, c': Conn, log: seq<Segment>, log': seq<Segment>)
    requires StepsInOrder(c, log) && c'.ran == c.ran && c'.jobs == c.jobs && PostsAtMostOne(c, c')
    requires forall id: nat :: Pending(c, id) ==> FileBytes(log', id) == FileBytes(log, id)
    requires NewTask(c, c').Some? && NewTask(c, c').value.SendFileTask? ==>
      Continues(c', log', NewTask(c, c').value.job) && !Pending(c, NewTask(c, c').value.job.id)
    ensures StepsInOrder(c', log')
  {
    forall i: nat | IsStep(c', i)
      ensures SameRequest(c', c'.posted[i].job) && (c.ran <= i ==> Continues(c', log', c'.posted[i].job))
    {
      if i < |c.posted| {
        assert IsStep(c, i) && c.posted[i] == c'.posted[i];
        assert c.ran <= i ==> Pending(c, c.posted[i].job.id);
      }
    }
    forall i: nat, k: nat | c.ran <= i < k && IsStep(c', i) && IsStep(c', k)
      ensures c'.posted[i].job.id != c'.posted[k].job.id
    {
      assert IsStep(c, i) && c.posted[i] == c'.posted[i];
      assert Pending(c, c.posted[i].job.id);
      assert k < |c.posted| ==> IsStep(c, k) && c.posted[k] == c'.posted[k];
    }
  }

  // Nothing but the queue of other tasks changed.
  lemma OtherTask(c: Conn, c': Conn, log: seq<Segment>, more: seq<Segment>, dropped: set<nat>)
    requires Tracks(c, log, dropped)
    requires c'.jobs == c.jobs && c'.ran == c.ran && PostsAtMostOne(c, c')
    requires NewTask(c, c').Some? ==> !NewTask(c, c').value.SendFileTask?
    requires |more| <= 1 && (more != [] ==> more[0].source == FromSend)
    ensures Tracks(c', log + more, dropped)
  {
    forall id: nat
      ensures FileBytes(log + more, id) == FileBytes(log, id) && Account(c', log + more, dropped, id)
    {
      FileBytesSnoc(log, more, id);
      PendingAfterPost(c, c', id);
      assert Account(c, log, dropped, id);
    }
    StepsAfterPost(c, c', log, log + more);
  }

  // The queue moves past its first task: if that was a step, its transfer is in nobody's hands.
  lemma Pop(c: Conn, log: seq<Segment>, dropped: set<nat>)
    requires Tracks(c, log, dropped) && c.ran < |c.posted|
    ensures var popped, t := c.(ran := c.ran + 1), c.posted[c.ran];
      && Tracks(popped, log, dropped + if t.SendFileTask? then {t.job.id} else {})
      && (t.SendFileTask? ==> Continues(popped, log, t.job) && !Pending(popped, t.job.id))
  {
    var popped, t := c.(ran := c.ran + 1), c.posted[c.ran];
    var dropped' := dropped + if t.SendFileTask? then {t.job.id} else {};
    assert forall i: nat :: IsStep(popped, i) <==> IsStep(c, i);
    assert t.SendFileTask? ==> IsStep(c, c.ran);
    forall id: nat ensures Account(popped, log, dropped', id) {
      assert Account(c, log, dropped, id);
      if Pending(c, id) && id !in dropped' {
        var i: nat :| c.ran <= i && IsStep(c, i) && c.posted[i].job.id == id;
        assert IsStep(popped, i);
      }
    }
    assert forall i: nat :: popped.ran <= i && IsStep(popped, i) ==> c.ran <= i && IsStep(c, i);
  }

  lemma SliceExtends(file: seq<Byte>, start: int, done: seq<Byte>, chunk: seq<Byte>)
    requires IsSlice(file, start, done) && IsSlice(file, start + |done|, chunk)
    ensures IsSlice(file, start, done + chunk)
  {
    if done != [] && chunk != [] {
      assert file[start..start + |done| + |chunk|]
          == file[start..start + |done|] + file[start + |done|..start + |done| + |chunk|];
    }
  }

  // A step of transfer `job`, which is not in the queue itself, runs.
  lemma FileStep(c: Conn, job: FileJob, w: IoResult, log: seq<Segment>, dropped: set<nat>)
    requires SendfileLegal(c, job, w) && Continues(c, log, job) && !Pending(c, job.id)
    requires Tracks(c, log, dropped + {job.id})
    ensures Tracks(SendFileInLoop(c, job, w), log + [Segment(FromFile(job.id), FileChunk(c, job, w))],
                   dropped + if Stops(c, w) then {job.id} else {})
  {
    var c', chunk := SendFileInLoop(c, job, w), FileChunk(c, job, w);
    var log' := log + [Segment(FromFile(job.id), chunk)];
    var dropped' := dropped + if Stops(c, w) then {job.id} else {};
    SendFileStep(c, job, w);
    forall id: nat
      ensures FileBytes(log', id) == FileBytes(log, id) + if id == job.id then chunk else []
      ensures Account(c', log', dropped', id)
    {
      FileBytesSnoc(log, [Segment(FromFile(job.id), chunk)], id);
      PendingAfterPost(c, c', id);
      assert Account(c, log, dropped + {job.id}, id);
      if id == job.id {
        SliceExtends(job.file, c.jobs[id].offset, FileBytes(log, id), chunk);
      }
    }
    StepsAfterPost(c, c', log, log');
  }

  // A new request is numbered, with nothing sent for it yet.
  lemma NewRequest(c: Conn, job: FileJob, log: seq<Segment>, dropped: set<nat>)
    requires Tracks(c, log, dropped) && job.id == |c.jobs|
    ensures var d := c.(jobs := c.jobs + [job]);
      Tracks(d, log, dropped + {job.id}) && Continues(d, log, job) && !Pending(d, job.id)
  {
    var d := c.(jobs := c.jobs + [job]);
    assert forall i: nat :: IsStep(d, i) <==> IsStep(c, i);
    forall id: nat ensures Pending(d, id) == Pending(c, id) && Account(d, log, dropped + {job.id}, id) {
      assert Account(c, log, dropped, id);
      if Pending(c, id) {
        var i: nat :| c.ran <= i && IsStep(c, i) && c.posted[i].job.id == id;
        assert IsStep(d, i);
      }
    }
    assert Account(c, log, dropped, job.id);
  }

  lemma QueuedRequest(c: Conn, job: FileJob, log: seq<Segment>, dropped: set<nat>)
    requires Tracks(c, log, dropped) && job.id == |c.jobs|
    ensures Tracks(Post(c.(jobs := c.jobs + [job]), true, SendFileTask(job)), log, dropped)
  {
    var d := c.(jobs := c.jobs + [job]);
    var c' := Post(d, true, SendFileTask(job));
    NewRequest(c, job, log, dropped);
    forall id: nat ensures Account(c', log, dropped, id) {
      assert Account(d, log, dropped + {job.id}, id);
      PendingAfterPost(d, c', id);
    }
    StepsAfterPost(d, c', log, log);
  }

  lemma TaskTracks(c: Conn, w: IoResult, log: seq<Segment>, dropped: set<nat>)
    requires Consistent(c) && Tracks(c, log, dropped) && TaskLegal(c, w)
    ensures Tracks(RunTask(c, w), log + Accepts(c, Event.Task(w)), dropped + DropsBy(c, Event.Task(w)))
  {
    hide Tracks, Continues;
    var popped, e := c.(ran := c.ran + 1), Event.Task(w);
    Pop(c, log, dropped);
    assert dropped + {} == dropped;
    match c.posted[c.ran] {
      case SendFileTask(job) =>
        FileStep(popped, job, w, log, dropped);
      case SendTask(data) =>
        SendPostsNoFile(popped, data, w);
        OtherTask(popped, RunTask(c, w), log, Accepts(c, e), dropped);
      case _ =>
        OtherTask(popped, RunTask(c, w), log, [], dropped);
    }
  }

  lemma SendPostsNoFile(c: Conn, data: seq<Byte>, w: IoResult)
    requires WriteLegal(c, data, w)
    ensures var c' := SendInLoop(c, data, w);
      && c'.jobs == c.jobs && c'.ran == c.ran && PostsAtMostOne(c, c')
      && (NewTask(c, c').Some? ==> !NewTask(c, c').value.SendFileTask?)
  {
  }

  lemma SendFileTracks(c: Conn, file: seq<Byte>, offset: int, count: nat, w: IoResult,
                       log: seq<Segment>, dropped: set<nat>)
    requires Tracks(c, log, dropped) && Enabled(c, UserSendFile(file, offset, count, w)) && c.state == Connected
    ensures var e := UserSendFile(file, offset, count, w);
      Tracks(Next(c, e), log + Accepts(c, e), dropped + DropsBy(c, e))
  {
    hide Tracks, Continues, SendFileInLoop;
    var job := NewJob(c, file, offset, count);
    NewRequest(c, job, log, dropped);
    FileStep(c.(jobs := c.jobs + [job]), job, w, log, dropped);
  }

  lemma NextTracks(c: Conn, e: Event, log: seq<Segment>, dropped: set<nat>)
    requires Consistent(c) && Tracks(c, log, dropped) && Enabled(c, e)
    ensures Tracks(Next(c, e), log + Accepts(c, e), dropped + DropsBy(c, e))
  {
    hide Tracks, Continues, SendInLoop, SendFileInLoop, RunTask;
    assert dropped + {} == dropped && log + [] == log;
    match e {
      case Task(w) => TaskTracks(c, w, log, dropped);
      case UserSendFile(file, offset, count, w) =>
        if c.state == Connected {
          SendFileTracks(c, file, offset, count, w, log, dropped);
        }
      case UserQueueSendFile(file, offset, count) =>
        if c.state == Connected {
          QueuedRequest(c, NewJob(c, file, offset, count), log, dropped);
        }
      case UserSend(data, w) =>
        if c.state == Connected {
          SendPostsNoFile(c, data, w);
          OtherTask(c, Next(c, e), log, Accepts(c, e), dropped);
        }
      case _ => OtherTask(c, Next(c, e), log, [], dropped);
    }
  }

  lemma {:induction false} RunTracks(cfg: Config, es: seq<Event>)
    requires Legal(cfg, es)
    ensures Tracks(Run(cfg, es), Accepted(cfg, es), Dropped(cfg, es))
  {
    if es != [] {
      var c := Run(cfg, Front(es));
      RunTracks(cfg, Front(es));
      RunIsConsistent(cfg, Front(es));
      NextTracks(c, Last(es), Accepted(cfg, Front(es)), Dropped(cfg, Front(es)));
    }
  }

  // In every run, whatever else is sent in between: the chunks of a transfer are the file from
  // the requested offset with no gap and no repeat, every posted step keeps the end of the
  // request, one still queued goes on where the bytes sent stop, and a transfer that is neither
  // queued nor dropped has sent all of it.
  lemma FileTransferExact(cfg: Config, es: seq<Event>, id: nat)
    requires Legal(cfg, es) && id < |Run(cfg, es).jobs|
    ensures var c, request, sent := Run(cfg, es), Run(cfg, es).jobs[id], FileBytes(Accepted(cfg, es), id);
      && |sent| <= request.remaining && IsSlice(request.file, request.offset, sent)
      && (forall t :: t in c.posted && t.SendFileTask? && t.job.id == id ==>
            t.job.offset + t.job.remaining == request.offset + request.remaining)
      && (forall i: nat :: c.ran <= i && IsStep(c, i) && c.posted[i].job.id == id ==>
            c.posted[i].job.offset == request.offset + |sent|)
      && (!Pending(c, id) && id !in Dropped(cfg, es) ==> |sent| == request.remaining)
  {
    RunTracks(cfg, es);
    var c := Run(cfg, es);
    assert Account(c, Accepted(cfg, es), Dropped(cfg, es), id);
    forall t | t in c.posted && t.SendFileTask? ensures SameRequest(c, t.job) {
      var i: nat :| i < |c.posted| && c.posted[i] == t;
      assert IsStep(c, i);
    }
  }

  // ---------------------------------------------------------------- which transfers can be complete

  // The request asks for bytes the file has.
  predicate InFile(request: FileJob) {
    request.remaining == 0
    || (0 <= request.offset && request.offset + request.remaining <= |request.file|)
  }

  predicate Complete(cfg: Config, es: seq<Event>, id: nat)
    requires Legal(cfg, es)
  {
    && id < |Run(cfg, es).jobs|
    && |FileBytes(Accepted(cfg, es), id)| == Run(cfg, es).jobs[id].remaining
  }

  // A request past the end of the file is never complete: a step of it waits for ever, asking for
  // what is not there, unless the transfer is dropped.
  lemma NoFitNoEnd(cfg: Config, es: seq<Event>, id: nat)
    requires Legal(cfg, es) && id < |Run(cfg, es).jobs| && !InFile(Run(cfg, es).jobs[id])
    ensures !Complete(cfg, es, id)
    ensures Pending(Run(cfg, es), id) || id in Dropped(cfg, es)
  {
    FileTransferExact(cfg, es, id);
  }

  // Whatever the connection has done, a request it accepts on the loop's thread, with the socket free
  // for it, can be complete, at once or ever, exactly if it fits.
  lemma CanCompleteExactly(cfg: Config, es: seq<Event>, request: FileJob)
    requires Legal(cfg, es)
    requires var c := Run(cfg, es); c.state == Connected && CanWriteDirectly(c) && request.id == |c.jobs|
    ensures (exists w, fs :: CompletesAfter(cfg, es, request, w, fs)) <==> InFile(request)
  {
    var c := Run(cfg, es);
    if InFile(request) {
      CompletesAtOnce(cfg, es, request);
    }
    forall w, fs | CompletesAfter(cfg, es, request, w, fs) ensures InFile(request) {
      var done := es + [Asked(request, w)] + fs;
      JobsOverRuns(cfg, es, request, w, fs);
      FileTransferExact(cfg, done, request.id);
    }
  }

  function Asked(request: FileJob, w: IoResult): Event {
    UserSendFile(request.file, request.offset, request.remaining, w)
  }

  ghost predicate CompletesAfter(cfg: Config, es: seq<Event>, request: FileJob, w: IoResult, fs: seq<Event>) {
    var done := es + [Asked(request, w)] + fs;
    Legal(cfg, done) && Complete(cfg, done, request.id)
  }

  lemma TakenWhole(c: Conn, request: FileJob)
    requires c.state == Connected && CanWriteDirectly(c) && c.halfCloses == []
    requires InFile(request) && request.id == |c.jobs|
    ensures var e := Asked(request, Done(request.remaining));
      && Enabled(c, e) && Next(c, e).jobs == c.jobs + [request]
      && |Accepts(c, e)| == 1 && Accepts(c, e)[0].source == FromFile(request.id)
      && |Accepts(c, e)[0].bytes| == request.remaining
  {
  }

  lemma CompletesAtOnce(cfg: Config, es: seq<Event>, request: FileJob)
    requires Legal(cfg, es) && InFile(request)
    requires var c := Run(cfg, es); c.state == Connected && CanWriteDirectly(c) && request.id == |c.jobs|
    ensures CompletesAfter(cfg, es, request, Done(request.remaining), [])
  {
    var c, e := Run(cfg, es), Asked(request, Done(request.remaining));
    NoShutdownYet(cfg, es);
    TakenWhole(c, request);
    Extend(cfg, es, e);
    var done := es + [e];
    assert done + [] == done && Front(done) == es;
    RunTracks(cfg, es);
    assert Account(c, Accepted(cfg, es), Dropped(cfg, es), request.id);
    hide Tracks, Account, Next, Enabled, Accepts;
    FileBytesSnoc(Accepted(cfg, es), Accepts(c, e), request.id);
  }

  lemma JobsStay(c: Conn, e: Event)
    requires Consistent(c) && Enabled(c, e)
    ensures c.jobs <= Next(c, e).jobs
  {
    EffectOfEvent(c, e);
    hide Next;
  }

  lemma {:induction false} JobsOverRuns(cfg: Config, es: seq<Event>, request: FileJob, w: IoResult, fs: seq<Event>)
    requires Legal(cfg, es) && Run(cfg, es).state == Connected && request.id == |Run(cfg, es).jobs|
    requires Legal(cfg, es + [Asked(request, w)] + fs)
    ensures request.id < |Run(cfg, es + [Asked(request, w)] + fs).jobs|
    ensures Run(cfg, es + [Asked(request, w)] + fs).jobs[request.id] == request
  {
    var asked := es + [Asked(request, w)];
    if fs == [] {
      assert asked + fs == asked && Front(asked) == es;
      var c, job := Run(cfg, es), NewJob(Run(cfg, es), request.file, request.offset, request.remaining);
      SendFileStep(c.(jobs := c.jobs + [job]), job, w);
    } else {
      assert Front(asked + fs) == asked + Front(fs);
      JobsOverRuns(cfg, es, request, w, Front(fs));
      RunIsConsistent(cfg, asked + Front(fs));
      JobsStay(Run(cfg, asked + Front(fs)), Last(fs));
    }
  }
}
