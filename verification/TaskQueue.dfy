// What waits in the loop's queue for one connection: the sends and shutdowns that other threads
// left there, the bytes those sends still owe, and how the queue moves on.

module TaskQueue {
  import opened Common
  import opened ConnModel
  import opened ConnTheorems

  // ---------------------------------------------------------------- which tasks wait

  // A sendInLoop with something to send, and a step of a file transfer that can send something.
  predicate SendsData(t: ConnModel.Task) {
    t.SendTask? && t.data != []
  }

  predicate SendsFile(t: ConnModel.Task) {
    t.SendFileTask? && 0 < t.job.remaining && 0 <= t.job.offset < |t.job.file|
  }

  // Position i of the queue is such a task, yet to run.
  predicate SendAt(c: Conn, i: nat) {
    c.ran <= i < |c.posted| && SendsData(c.posted[i])
  }

  predicate FileAt(c: Conn, i: nat) {
    c.ran <= i < |c.posted| && SendsFile(c.posted[i])
  }

  predicate ShutdownAt(c: Conn, i: nat) {
    c.ran <= i < |c.posted| && c.posted[i].ShutdownTask?
  }

  ghost predicate NoSendQueued(c: Conn) {
    forall i: nat :: !SendAt(c, i)
  }

  ghost predicate AtMostOneSend(c: Conn) {
    forall i: nat, k: nat :: SendAt(c, i) && SendAt(c, k) ==> i == k
  }

  lemma FirstSend(c: Conn, i: nat) returns (first: nat)
    requires SendAt(c, i)
    ensures SendAt(c, first) && first <= i && forall k: nat :: k < first ==> !SendAt(c, k)
  {
    first := c.ran;
    while !SendAt(c, first)
      decreases i - first
      invariant c.ran <= first <= i && forall k: nat :: k < first ==> !SendAt(c, k)
    {
      first := first + 1;
    }
  }

  // ---------------------------------------------------------------- what a handler posts

  predicate OwnTask(t: ConnModel.Task) {
    !t.SendTask? && !t.ShutdownTask?
  }

  // At most one new task, and one that only the loop thread posts.
  predicate PostsOwn(c: Conn, c': Conn) {
    && c'.ran == c.ran && PostsAtMostOne(c, c')
    && (NewTask(c, c').Some? ==> OwnTask(NewTask(c, c').value))
  }

  // A handler that leaves the shutdown alone.
  predicate Quiet(c: Conn, c': Conn) {
    c'.halfCloses == c.halfCloses && c'.state == c.state && PostsOwn(c, c')
  }

  lemma EnqueueIsQuiet(c: Conn, rest: seq<Byte>)
    ensures Quiet(c, Enqueue(c, rest))
  {
  }

  lemma SendIsQuiet(c: Conn, data: seq<Byte>, w: IoResult)
    requires WriteLegal(c, data, w)
    ensures Quiet(c, SendInLoop(c, data, w))
  {
    hide Enqueue;
    if CanWriteDirectly(c) && w.Done? && w.n < |data| {
      EnqueueIsQuiet(c.(wire := c.wire + data[..w.n]), data[w.n..]);
    } else {
      EnqueueIsQuiet(c, data);
    }
  }

  lemma SendFileIsQuiet(c: Conn, job: FileJob, w: IoResult)
    requires SendfileLegal(c, job, w)
    ensures Quiet(c, SendFileInLoop(c, job, w))
    ensures c.state == Disconnecting ==> SendFileInLoop(c, job, w) == c
  {
  }

  lemma TaskPostsOwn(c: Conn, w: IoResult)
    requires TaskLegal(c, w)
    ensures PostsOwn(c.(ran := c.ran + 1), RunTask(c, w))
  {
    hide SendInLoop, SendFileInLoop;
    var popped := c.(ran := c.ran + 1);
    match c.posted[c.ran] {
      case SendTask(data) => SendIsQuiet(popped, data, w);
      case SendFileTask(job) => SendFileIsQuiet(popped, job, w);
      case _ =>
    }
  }

  // Everything but a call from another thread posts only the loop thread's own tasks.
  lemma OwnStep(c: Conn, e: Event)
    requires Consistent(c) && Enabled(c, e)
    requires !e.Task? && !e.UserQueueSend? && !e.UserQueueShutdown?
    ensures PostsOwn(c, Next(c, e))
  {
    match e {
      case UserSend(data, w) => if c.state == Connected { SendIsQuiet(c, data, w); }
      case UserSendFile(file, offset, count, w) =>
        if c.state == Connected {
          var job := NewJob(c, file, offset, count);
          SendFileIsQuiet(c.(jobs := c.jobs + [job]), job, w);
        }
      case _ =>
    }
  }

  // Own posts change nothing of the sends that wait.
  lemma OwnPostsKeepSends(c: Conn, c': Conn)
    requires PostsOwn(c, c')
    ensures forall i: nat :: SendAt(c', i) == SendAt(c, i)
  {
    assert c'.posted == c.posted || c'.posted == Front(c'.posted) + [Last(c'.posted)];
  }

  // ---------------------------------------------------------------- how the queue moves

  lemma QueueKept(c: Conn, c': Conn)
    requires PostsOwn(c, c')
    ensures forall i: nat :: SendAt(c', i) == SendAt(c, i)
    ensures forall i: nat :: ShutdownAt(c', i) == ShutdownAt(c, i)
  {
    assert c'.posted == c.posted || c'.posted == Front(c'.posted) + [Last(c'.posted)];
  }

  // A task taken off the queue leaves the others where they are.
  lemma QueueMoves(c: Conn, w: IoResult)
    requires TaskLegal(c, w)
    ensures var c' := RunTask(c, w);
      && (forall i: nat :: SendAt(c', i) == (SendAt(c, i) && i != c.ran))
      && (forall i: nat :: ShutdownAt(c', i) == (ShutdownAt(c, i) && i != c.ran))
  {
    TaskPostsOwn(c, w);
    QueueKept(c.(ran := c.ran + 1), RunTask(c, w));
  }

  // ---------------------------------------------------------------- before shutdown()

  // Before shutdown() has taken effect nothing has closed the write side, and nothing queued is to.
  lemma {:induction false} NoShutdownYet(cfg: Config, es: seq<Event>)
    requires Legal(cfg, es)
    ensures var c := Run(cfg, es);
      c.state == Connecting || c.state == Connected ==> c.halfCloses == [] && forall i: nat :: !ShutdownAt(c, i)
  {
    if es != [] {
      NoShutdownYet(cfg, Front(es));
      RunIsConsistent(cfg, Front(es));
      NoShutdownStep(Run(cfg, Front(es)), Last(es));
    }
  }

  lemma NoShutdownStep(c: Conn, e: Event)
    requires Consistent(c) && Enabled(c, e)
    requires c.state == Connecting || c.state == Connected ==>
      c.halfCloses == [] && forall i: nat :: !ShutdownAt(c, i)
    ensures var c' := Next(c, e);
      c'.state == Connecting || c'.state == Connected ==>
        c'.halfCloses == [] && forall i: nat :: !ShutdownAt(c', i)
  {
    var c' := Next(c, e);
    if c'.state == Connecting || c'.state == Connected {
      StaysUp(c, e);
      if e.Task? {
        assert !ShutdownAt(c, c.ran);
        TaskKeepsState(c, e.w);
        QueueMoves(c, e.w);
      } else if e.UserQueueSend? {
        assert c'.posted == c.posted || c'.posted == c.posted + [SendTask(e.data)];
        assert forall i: nat :: ShutdownAt(c', i) == ShutdownAt(c, i);
      } else if e.UserQueueShutdown? {
        assert c' == c;
      } else {
        OwnStep(c, e);
        QueueKept(c, c');
      }
    }
  }

  // A connection that is up, or coming up, was so before.
  lemma StaysUp(c: Conn, e: Event)
    requires Enabled(c, e) && (Next(c, e).state == Connecting || Next(c, e).state == Connected)
    ensures c.state == Connecting || c.state == Connected
    ensures e.UserQueueShutdown? ==> c.state == Connecting
  {
    match e {
      case Task(w) => TaskKeepsState(c, w);
      case _ =>
    }
  }

  lemma TaskKeepsState(c: Conn, w: IoResult)
    requires TaskLegal(c, w)
    ensures RunTask(c, w).state == c.state
    ensures !c.posted[c.ran].ShutdownTask? ==> RunTask(c, w).halfCloses == c.halfCloses
  {
  }

  // ---------------------------------------------------------------- a closed connection's queue moves on

  // A connection past kConnected that is not writing skips a task without data when the socket
  // would block.
  lemma SkipTask(c: Conn)
    requires c.ran < |c.posted| && !SendsData(c.posted[c.ran]) && !c.posted[c.ran].ShutdownTask?
    requires c.state == Disconnecting || c.state == Disconnected
    ensures TaskLegal(c, Failed(EWouldBlock))
    ensures var c' := RunTask(c, Failed(EWouldBlock));
      && c'.state == c.state && c'.writing == c.writing && c'.output == c.output && c'.wire == c.wire
      && c'.index == c.index && c'.halfCloses == c.halfCloses
      && c'.ran == c.ran + 1 && c.posted <= c'.posted
  {
  }

  lemma {:induction false} SkipTasks(cfg: Config, es: seq<Event>, n: nat) returns (fs: seq<Event>)
    requires Legal(cfg, es)
    requires var c := Run(cfg, es);
      && (c.state == Disconnecting || c.state == Disconnected)
      && c.ran + n <= |c.posted|
      && forall i :: c.ran <= i < c.ran + n ==> !SendsData(c.posted[i]) && !c.posted[i].ShutdownTask?
    ensures Legal(cfg, es + fs)
    ensures var c, c' := Run(cfg, es), Run(cfg, es + fs);
      && c'.state == c.state && c'.writing == c.writing && c'.output == c.output && c'.wire == c.wire
      && c'.index == c.index && c'.halfCloses == c.halfCloses
      && c'.ran == c.ran + n && c.posted <= c'.posted
  {
    if n == 0 {
      fs := [];
      assert es + fs == es;
    } else {
      fs := SkipTasks(cfg, es, n - 1);
      var c, skip := Run(cfg, es + fs), Event.Task(Failed(EWouldBlock));
      assert c.posted[c.ran] == Run(cfg, es).posted[c.ran];
      SkipTask(c);
      Extend(cfg, es + fs, skip);
      assert es + fs + [skip] == es + (fs + [skip]);
      fs := fs + [skip];
    }
  }

  // ---------------------------------------------------------------- bytes owed

  // The bytes accepted from send(), without the file chunks between them.
  function SendBytes(log: seq<Segment>): seq<Byte> {
    if log == [] then []
    else SendBytes(Front(log)) + if Last(log).source == FromSend then Last(log).bytes else []
  }

  lemma SendBytesSnoc(log: seq<Segment>, more: seq<Segment>)
    requires |more| <= 1
    ensures SendBytes(log + more) == SendBytes(log) + SentBy(more)
  {
    if more == [] {
      assert log + more == log;
    } else {
      assert Front(log + more) == log && Last(log + more) == more[0];
    }
  }

  function SentBy(more: seq<Segment>): seq<Byte>
    requires |more| <= 1
  {
    if more != [] && more[0].source == FromSend then more[0].bytes else []
  }

  // Bytes handed to send() while it accepted them, on whichever thread.
  function Issued(cfg: Config, es: seq<Event>): nat
    requires Legal(cfg, es)
  {
    if es == [] then 0
    else Issued(cfg, Front(es)) + IssuedBy(Run(cfg, Front(es)), Last(es))
  }

  function IssuedBy(c: Conn, e: Event): nat {
    if c.state == Connected && e.UserSend? then |e.data|
    else if c.state == Connected && e.UserQueueSend? then |e.data|
    else 0
  }

  // Bytes dropped because the direct write reported EPIPE or ECONNRESET.
  function Faulted(cfg: Config, es: seq<Event>): nat
    requires Legal(cfg, es)
  {
    if es == [] then 0
    else Faulted(cfg, Front(es)) + FaultedBy(Run(cfg, Front(es)), Last(es))
  }

  function FaultedBy(c: Conn, e: Event): nat
    requires Enabled(c, e)
  {
    if e.UserSend? && c.state == Connected && SendFaults(c, e.w) then |e.data|
    else if e.Task? && c.posted[c.ran].SendTask? && SendFaults(c, e.w) then |c.posted[c.ran].data|
    else 0
  }

  // Bytes still waiting in the loop's queue as sendInLoop tasks.
  function Queued(tasks: seq<ConnModel.Task>): nat {
    if tasks == [] then 0
    else Queued(Front(tasks)) + if Last(tasks).SendTask? then |Last(tasks).data| else 0
  }

  function PendingSends(c: Conn): nat
    requires c.ran <= |c.posted|
  {
    Queued(c.posted[c.ran..])
  }

  lemma QueuedSnoc(tasks: seq<ConnModel.Task>, t: ConnModel.Task)
    ensures Queued(tasks + [t]) == Queued(tasks) + Queued([t])
  {
    assert Front(tasks + [t]) == tasks && Front([t]) == [];
  }

  lemma {:induction false} QueuedCons(tasks: seq<ConnModel.Task>)
    requires tasks != []
    ensures Queued(tasks) == Queued([tasks[0]]) + Queued(tasks[1..])
  {
    if |tasks| == 1 {
      assert tasks == [tasks[0]];
    } else {
      QueuedCons(Front(tasks));
      assert Front(tasks)[1..] == Front(tasks[1..]);
    }
  }

  lemma OwnPostsOweNothing(c: Conn, c': Conn)
    requires PostsOwn(c, c') && c.ran <= |c.posted|
    ensures c'.ran <= |c'.posted| && PendingSends(c') == PendingSends(c)
  {
    if c'.posted != c.posted {
      assert c'.posted[c'.ran..] == c.posted[c.ran..] + [Last(c'.posted)];
      QueuedSnoc(c.posted[c.ran..], Last(c'.posted));
    }
  }

  lemma TaskDebt(c: Conn, w: IoResult)
    requires Consistent(c) && TaskLegal(c, w)
    ensures var c' := RunTask(c, w);
      && c'.ran <= |c'.posted|
      && PendingSends(c) == PendingSends(c') + Queued([c.posted[c.ran]])
  {
    TaskPostsOwn(c, w);
    QueuedCons(c.posted[c.ran..]);
    OwnPostsOweNothing(c.(ran := c.ran + 1), RunTask(c, w));
  }

  lemma OneQueued(t: ConnModel.Task)
    ensures Queued([t]) == if t.SendTask? then |t.data| else 0
  {
    assert Front([t]) == [];
  }

  lemma QueueStep(c: Conn, c': Conn, t: ConnModel.Task)
    requires c.ran <= |c.posted| && c'.ran == c.ran && c'.posted == c.posted + [t]
    ensures PendingSends(c') == PendingSends(c) + Queued([t])
  {
    assert c'.posted[c'.ran..] == c.posted[c.ran..] + [t];
    QueuedSnoc(c.posted[c.ran..], t);
  }

  lemma DebtStep(c: Conn, e: Event)
    requires Consistent(c) && Enabled(c, e)
    ensures var c' := Next(c, e);
      && c'.ran <= |c'.posted|
      && PendingSends(c) + IssuedBy(c, e) == PendingSends(c') + FaultedBy(c, e) + |SentBy(Accepts(c, e))|
  {
    hide SendInLoop, SendFileInLoop, HandleWrite, RunTask, Queued, PendingSends, PostsOwn;
    match e {
      case Task(w) =>
        TaskDebt(c, w);
        OneQueued(c.posted[c.ran]);
      case UserQueueSend(data) =>
        if c.state == Connected {
          QueueStep(c, Next(c, e), SendTask(data));
          OneQueued(SendTask(data));
        }
      case UserQueueShutdown =>
        if c.state == Connected {
          QueueStep(c, Next(c, e), ShutdownTask);
          OneQueued(ShutdownTask);
        }
      case _ =>
        OwnStep(c, e);
        OwnPostsOweNothing(c, Next(c, e));
    }
  }

  // Every byte handed to send() has been accepted, has faulted, or is still queued.
  lemma {:induction false} IssuedConservation(cfg: Config, es: seq<Event>)
    requires Legal(cfg, es)
    ensures Run(cfg, es).ran <= |Run(cfg, es).posted|
    ensures Issued(cfg, es)
         == Faulted(cfg, es) + |SendBytes(Accepted(cfg, es))| + PendingSends(Run(cfg, es))
  {
    RunIsConsistent(cfg, es);
    if es != [] {
      var c, e := Run(cfg, Front(es)), Last(es);
      IssuedConservation(cfg, Front(es));
      RunIsConsistent(cfg, Front(es));
      DebtStep(c, e);
      SendBytesSnoc(Accepted(cfg, Front(es)), Accepts(c, e));
    }
  }

  // Nothing is owed exactly when no send waits.
  lemma {:induction false} OwesNothingExactly(tasks: seq<ConnModel.Task>)
    ensures Queued(tasks) == 0 <==> forall i :: 0 <= i < |tasks| ==> !SendsData(tasks[i])
  {
    if tasks != [] {
      OwesNothingExactly(Front(tasks));
      assert forall i :: 0 <= i < |tasks| ==> tasks[i] == if i < |tasks| - 1 then Front(tasks)[i] else Last(tasks);
    }
  }

  lemma NoSendMeansNoDebt(c: Conn)
    requires c.ran <= |c.posted|
    ensures PendingSends(c) == 0 <==> NoSendQueued(c)
  {
    OwesNothingExactly(c.posted[c.ran..]);
    assert forall i: nat :: SendAt(c, i) ==> SendsData(c.posted[c.ran..][i - c.ran]);
    assert forall i :: 0 <= i < |c.posted| - c.ran && SendsData(c.posted[c.ran..][i]) ==> SendAt(c, c.ran + i);
  }
}
