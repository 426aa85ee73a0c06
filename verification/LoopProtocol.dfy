// src/EventLoop.cc as a concurrent protocol: the loop thread and any number of other threads,
// interleaved at every lock, eventfd operation and flag. Pushing a task and waking the loop are
// separate steps, so another thread can be caught between them.

module LoopProtocol {
  import opened Common

  type Tid = nat

  const OWNER: Tid := 0

  // The largest count an eventfd holds; a write that would pass it fails and changes nothing.
  const EVENTFD_MAX: nat := 0xFFFF_FFFF_FFFF_FFFE

  // A task is known by its work, by the tasks it queues on its own loop while it runs, and by
  // whether it then calls quit() there.
  datatype Functor = Functor(work: nat, posts: seq<Functor>, quits: bool)

  // An element of pendingFunctors_, with the thread that queued it.
  datatype Entry = Entry(tid: Tid, task: Functor)

  // Where the loop thread is. Polling is "at or blocked in poll"; wakeReady says that the wakeup
  // channel is among the active channels still to be handled.
  datatype Pc =
    | NotStarted
    | Checking
    | Polling
    | Dispatching(wakeReady: bool)
    | Swapping
    | Running
    | Stopped

  datatype Loop = Loop(
    pc: Pc,
    calling: bool,             // callingPendingFunctors_
    quit: bool,                // quit_
    counter: nat,              // the eventfd
    pending: seq<Entry>,       // pendingFunctors_
    batch: seq<Entry>,         // what is left of functors in doPendingFunctors
    ownerMid: bool,            // the loop thread is between its own push and its wakeup test
    pushing: set<Tid>,         // other threads between push and wakeup in queueInLoop
    quitting: set<Tid>,        // other threads between quit_ = true and wakeup in quit
    // kept by the model only
    history: seq<Entry>,       // every task queued, in lock order
    executed: seq<Entry>,      // every queued task run, in order
    mark: nat,                 // how much of history there was when the last batch was taken
    outside: nat,              // tasks the loop thread has queued outside loop() since then
    heard: nat)                // calls of wakeup() since the eventfd was last read

  function Init(): Loop {
    Loop(NotStarted, false, false, 0, [], [], false, {}, {}, [], [], 0, 0, 0)
  }

  datatype Step =
    | Start
    | Check
    | PollReturns(wakeReady: bool)
    | HandleRead
    | EndDispatch
    | Swap
    | RunTask
    | EndBatch
    | OwnerPush(task: Functor)
    | OwnerWakeTest
    | OwnerQuit
    | EarlyPush(task: Functor)
    | Push(tid: Tid, task: Functor)
    | Quit(tid: Tid)
    | Wake(tid: Tid)

  // The loop thread is not in loop().
  predicate OutsideLoop(s: Loop) {
    s.pc == NotStarted || s.pc == Stopped
  }

  // The loop thread is inside loop() and in a callback, so user code can run on it.
  predicate InCallback(s: Loop) {
    s.pc.Dispatching? || s.pc == Running
  }

  predicate Free(s: Loop, t: Tid) {
    t != OWNER && t !in s.pushing && t !in s.quitting
  }

  predicate Enabled(s: Loop, step: Step) {
    match step
    case Start => OutsideLoop(s) && !s.ownerMid
    case Check => s.pc == Checking
    case PollReturns(wakeReady) => s.pc == Polling && (wakeReady ==> 0 < s.counter)
    case HandleRead => s.pc == Dispatching(true) && !s.ownerMid
    case EndDispatch => s.pc == Dispatching(false) && !s.ownerMid
    case Swap => s.pc == Swapping
    case RunTask => s.pc == Running && s.batch != [] && !s.ownerMid
    case EndBatch => s.pc == Running && s.batch == [] && !s.ownerMid
    case OwnerPush(_) => InCallback(s) && !s.ownerMid
    case OwnerWakeTest => s.ownerMid
    case OwnerQuit => OutsideLoop(s) || InCallback(s)
    case EarlyPush(_) => OutsideLoop(s) && !s.ownerMid
    case Push(tid, _) => Free(s, tid)
    case Quit(tid) => Free(s, tid)
    case Wake(tid) => tid in s.pushing || tid in s.quitting
  }

  function Enqueue(s: Loop, e: Entry): Loop {
    s.(pending := s.pending + [e], history := s.history + [e])
  }

  function Wakeup(s: Loop): Loop {
    s.(counter := if s.counter < EVENTFD_MAX then s.counter + 1 else s.counter, heard := s.heard + 1)
  }

  function Next(s: Loop, step: Step): Loop
    requires Enabled(s, step)
  {
    match step
    case Start => s.(pc := Checking, quit := false)
    case Check => s.(pc := if s.quit then Stopped else Polling)
    case PollReturns(wakeReady) => s.(pc := Dispatching(wakeReady))
    case HandleRead => s.(pc := Dispatching(false), counter := 0, heard := 0)
    case EndDispatch => s.(pc := Swapping, calling := true)
    case Swap => s.(pc := Running, batch := s.pending, pending := [], mark := |s.history|, outside := 0)
    case RunTask => s.(batch := s.batch[1..], executed := s.executed + [s.batch[0]])
    case EndBatch => s.(pc := Checking, calling := false)
    case OwnerPush(task) => Enqueue(s, Entry(OWNER, task)).(ownerMid := true)
    case OwnerWakeTest => if s.calling then Wakeup(s.(ownerMid := false)) else s.(ownerMid := false)
    case OwnerQuit => s.(quit := true)
    case EarlyPush(task) => Enqueue(s, Entry(OWNER, task)).(ownerMid := true, outside := s.outside + 1)
    case Push(tid, task) => Enqueue(s, Entry(tid, task)).(pushing := s.pushing + {tid})
    case Quit(tid) => s.(quit := true, quitting := s.quitting + {tid})
    case Wake(tid) => Wakeup(s.(pushing := s.pushing - {tid}, quitting := s.quitting - {tid}))
  }

  predicate Legal(s: Loop, steps: seq<Step>)
    decreases |steps|, 0
  {
    steps == [] || (Legal(s, Front(steps)) && Enabled(Run(s, Front(steps)), Last(steps)))
  }

  function Run(s: Loop, steps: seq<Step>): Loop
    requires Legal(s, steps)
    decreases |steps|, 1
  {
    if steps == [] then s else Next(Run(s, Front(steps)), Last(steps))
  }

  lemma Extend(s: Loop, steps: seq<Step>, step: Step)
    requires Legal(s, steps) && Enabled(Run(s, steps), step)
    ensures Legal(s, steps + [step]) && Run(s, steps + [step]) == Next(Run(s, steps), step)
  {
    assert Front(steps + [step]) == steps;
  }

  lemma {:induction false} Append(s: Loop, a: seq<Step>, b: seq<Step>)
    requires Legal(s, a) && Legal(Run(s, a), b)
    ensures Legal(s, a + b) && Run(s, a + b) == Run(Run(s, a), b)
  {
    hide Enabled, Next;
    if b == [] {
      assert a + b == a;
    } else {
      Append(s, a, Front(b));
      Extend(s, a + Front(b), Last(b));
      assert a + Front(b) + [Last(b)] == a + b;
    }
  }

  // ---------------------------------------------------------------- the invariant

  // Someone has written the eventfd, or is on the way to.
  predicate WakeDue(s: Loop) {
    0 < s.counter || s.pushing != {} || (s.ownerMid && s.calling)
  }

  predicate Places(s: Loop) {
    && s.executed + s.batch + s.pending == s.history
    && (s.batch != [] ==> s.pc == Running)
    && s.mark <= |s.history|
    && (s.pc == Running ==> |s.executed| + |s.batch| == s.mark)
  }

  predicate Flags(s: Loop) {
    && (s.calling <==> s.pc == Swapping || s.pc == Running)
    && (s.ownerMid ==> OutsideLoop(s) || InCallback(s))
    && (0 < s.counter <==> 0 < s.heard)
    && s.outside <= |s.pending|
  }

  // From taking a batch to the next poll's return, also over a return of loop(), every waiting task
  // is announced, unless all were queued by the loop's own thread outside loop().
  predicate Announced(s: Loop) {
    && (!s.pc.Dispatching? && s.pc != Swapping ==> WakeDue(s) || s.outside == |s.pending|)
    && (s.quit && s.pc == Polling ==> 0 < s.counter || s.quitting != {})
  }

  predicate Inv(s: Loop) {
    Places(s) && Flags(s) && Announced(s)
  }

  lemma PushKeepsPlaces(s: Loop, e: Entry)
    requires Places(s)
    ensures Places(Enqueue(s, e))
  {
    assert s.executed + s.batch + (s.pending + [e]) == s.executed + s.batch + s.pending + [e];
  }

  lemma PlacesStep(s: Loop, step: Step)
    requires Inv(s) && Enabled(s, step)
    ensures Places(Next(s, step))
  {
    match step {
      case RunTask => assert s.executed + [s.batch[0]] + s.batch[1..] == s.executed + s.batch;
      case Swap => assert s.executed + s.pending + [] == s.executed + [] + s.pending;
      case OwnerPush(task) => PushKeepsPlaces(s, Entry(OWNER, task));
      case EarlyPush(task) => PushKeepsPlaces(s, Entry(OWNER, task));
      case Push(tid, task) => PushKeepsPlaces(s, Entry(tid, task));
      case _ =>
    }
  }

  lemma InvStep(s: Loop, step: Step)
    requires Inv(s) && Enabled(s, step)
    ensures Inv(Next(s, step))
  {
    PlacesStep(s, step);
  }

  lemma {:induction false} InvOverRuns(steps: seq<Step>)
    requires Legal(Init(), steps)
    ensures Inv(Run(Init(), steps))
  {
    if steps != [] {
      InvOverRuns(Front(steps));
      InvStep(Run(Init(), Front(steps)), Last(steps));
    }
  }

  // ---------------------------------------------------------------- no lost wakeup

  predicate Disciplined(steps: seq<Step>) {
    forall step :: step in steps ==> !step.EarlyPush?
  }

  lemma {:induction false} NoEarlyTasks(steps: seq<Step>)
    requires Legal(Init(), steps) && Disciplined(steps)
    ensures Run(Init(), steps).outside == 0
  {
    if steps != [] {
      assert Disciplined(Front(steps)) && Last(steps) in steps;
      NoEarlyTasks(Front(steps));
    }
  }

  // When the loop is at or blocked in poll with a task waiting, the eventfd is readable or some
  // thread is between its push and its wakeup; and the same for a quit from another thread.
  lemma NoLostWakeup(steps: seq<Step>)
    requires Legal(Init(), steps) && Disciplined(steps)
    ensures var s := Run(Init(), steps);
      && (s.pc == Polling && s.pending != [] ==> 0 < s.counter || s.pushing != {})
      && (s.pc == Polling && s.quit ==> 0 < s.counter || s.quitting != {})
  {
    InvOverRuns(steps);
    NoEarlyTasks(steps);
  }

  // A loop that waits in poll with nothing on the way to it has run everything ever queued.
  lemma QuietMeansDone(steps: seq<Step>)
    requires Legal(Init(), steps) && Disciplined(steps)
    ensures var s := Run(Init(), steps);
      s.pc == Polling && s.counter == 0 && s.pushing == {} ==> s.executed == s.history && s.pending == []
  {
    InvOverRuns(steps);
    NoEarlyTasks(steps);
  }

  // ---------------------------------------------------------------- lost wakeups

  // The eventfd is readable, or some thread is about to write it.
  predicate WakeOnWay(s: Loop) {
    0 < s.counter || s.pushing != {} || s.quitting != {}
  }

  // The loop waits in poll, a task waits for the loop, and nothing is on the way.
  predicate Lost(s: Loop) {
    s.pc == Polling && s.pending != [] && !WakeOnWay(s)
  }

  // Since the eventfd was last read nobody has called wakeup(), and nobody is about to.
  predicate Unheard(s: Loop) {
    s.heard == 0 && s.pushing == {} && s.quitting == {}
  }

  // Without the discipline a wakeup is lost exactly in a poll where all that has been queued since
  // the last batch was queued by the loop's own thread outside loop(), with nobody else heard of.
  lemma WakeupLostExactly(steps: seq<Step>)
    requires Legal(Init(), steps)
    ensures var s := Run(Init(), steps);
      s.pc == Polling ==> (Lost(s) <==> 0 < s.outside && s.outside == |s.pending| && Unheard(s))
  {
    InvOverRuns(steps);
  }

  // Task number p of the history still waits for its batch.
  predicate Waits(s: Loop, p: nat) {
    |s.history| <= p + |s.pending| && p < |s.history|
  }

  ghost predicate CanBeLost(steps: seq<Step>, p: nat) {
    exists fs :: Legal(Init(), steps + fs) && Waits(Run(Init(), steps + fs), p) && Lost(Run(Init(), steps + fs))
  }

  // Until its batch is taken, or at least a poll has returned, something is on the way to the loop.
  predicate Expected(s: Loop, p: nat) {
    p < |s.history| && (!Waits(s, p) || s.pc.Dispatching? || s.pc == Swapping || WakeOnWay(s))
  }

  lemma ExpectedStep(s: Loop, step: Step, p: nat)
    requires Inv(s) && Enabled(s, step) && Expected(s, p)
    ensures Expected(Next(s, step), p)
  {
  }

  lemma {:induction false} ExpectedOverRuns(steps: seq<Step>, fs: seq<Step>, p: nat)
    requires Legal(Init(), steps) && Legal(Init(), steps + fs) && Expected(Run(Init(), steps), p)
    ensures Expected(Run(Init(), steps + fs), p)
  {
    if fs == [] {
      assert steps + fs == steps;
    } else {
      assert Front(steps + fs) == steps + Front(fs);
      ExpectedOverRuns(steps, Front(fs), p);
      InvOverRuns(steps + Front(fs));
      ExpectedStep(Run(Init(), steps + Front(fs)), Last(fs), p);
    }
  }

  // A task that the loop's own thread queues outside loop() can be left waiting by a poll that
  // nothing wakes exactly if, when it is queued, nothing is on the way to the loop.
  lemma EarlyTaskIsLostExactly(steps: seq<Step>, task: Functor)
    requires Legal(Init(), steps) && Enabled(Run(Init(), steps), EarlyPush(task))
    ensures Legal(Init(), steps + [EarlyPush(task)])
    ensures var s := Run(Init(), steps);
      CanBeLost(steps + [EarlyPush(task)], |s.history|) <==> !WakeOnWay(s)
  {
    var s, queued, p := Run(Init(), steps), steps + [EarlyPush(task)], |Run(Init(), steps).history|;
    Extend(Init(), steps, EarlyPush(task));
    if WakeOnWay(s) {
      forall fs | Legal(Init(), queued + fs) && Waits(Run(Init(), queued + fs), p)
        ensures !Lost(Run(Init(), queued + fs))
      {
        ExpectedOverRuns(queued, fs, p);
      }
    } else {
      IntoPoll(queued, p);
    }
  }

  lemma IntoPoll(steps: seq<Step>, p: nat)
    requires Legal(Init(), steps)
    requires var s := Run(Init(), steps); OutsideLoop(s) && s.ownerMid && Waits(s, p) && !WakeOnWay(s)
    ensures CanBeLost(steps, p)
  {
    InvOverRuns(steps);
    hide Legal, Run;
    var fs := [OwnerWakeTest] + [Start] + [Check];
    Extend(Init(), steps, OwnerWakeTest);
    Extend(Init(), steps + [OwnerWakeTest], Start);
    Extend(Init(), steps + [OwnerWakeTest] + [Start], Check);
    assert steps + [OwnerWakeTest] + [Start] + [Check] == steps + fs;
  }

  lemma EarlyTaskIsStranded(task: Functor) returns (steps: seq<Step>)
    ensures Legal(Init(), steps)
    ensures var s := Run(Init(), steps); s.pending == [Entry(OWNER, task)] && Lost(s)
  {
    steps := [];
    Extend(Init(), steps, EarlyPush(task));
    steps := steps + [EarlyPush(task)];
    Extend(Init(), steps, OwnerWakeTest);
    steps := steps + [OwnerWakeTest];
    Extend(Init(), steps, Start);
    steps := steps + [Start];
    Extend(Init(), steps, Check);
    steps := steps + [Check];
  }

  // ---------------------------------------------------------------- conservation and order

  function ByThread(entries: seq<Entry>, tid: Tid): seq<Functor> {
    if entries == [] then []
    else ByThread(Front(entries), tid) + if Last(entries).tid == tid then [Last(entries).task] else []
  }

  lemma {:induction false} ByThreadConcat(a: seq<Entry>, b: seq<Entry>, tid: Tid)
    ensures ByThread(a + b, tid) == ByThread(a, tid) + ByThread(b, tid)
  {
    if b == [] {
      assert a + b == a;
    } else {
      ByThreadConcat(a, Front(b), tid);
      assert Front(a + b) == a + Front(b);
    }
  }

  // Executed tasks, the rest of the batch and the waiting tasks are the queueing history, in lock
  // order: each task runs at most once, and each thread's tasks run in the order it queued them.
  // A batch is what was queued before it was taken; what is queued during it waits.
  lemma TaskConservation(steps: seq<Step>, tid: Tid)
    requires Legal(Init(), steps)
    ensures var s := Run(Init(), steps);
      && s.executed + s.batch + s.pending == s.history
      && ByThread(s.executed, tid) <= ByThread(s.history, tid)
      && s.mark <= |s.history|
      && (s.pc == Running ==> s.executed + s.batch == s.history[..s.mark] && s.pending == s.history[s.mark..])
  {
    InvOverRuns(steps);
    var s := Run(Init(), steps);
    assert s.history == s.executed + (s.batch + s.pending);
    ByThreadConcat(s.executed, s.batch + s.pending, tid);
  }

  // ---------------------------------------------------------------- a wakeup delivers

  // The loop thread's way through one turn with n tasks to run.
  function Turn(n: nat): seq<Step> {
    [PollReturns(true), HandleRead, EndDispatch, Swap] + seq(n, _ => RunTask)
  }

  lemma {:induction false} RunBatch(s: Loop, n: nat)
    requires s.pc == Running && !s.ownerMid && n <= |s.batch|
    ensures Legal(s, seq(n, _ => RunTask))
    ensures Run(s, seq(n, _ => RunTask)) == s.(batch := s.batch[n..], executed := s.executed + s.batch[..n])
  {
    if n == 0 {
      assert s.batch[0..] == s.batch && s.executed + s.batch[..0] == s.executed;
    } else {
      RunBatch(s, n - 1);
      var prefix := seq(n - 1, _ => RunTask);
      assert seq(n, _ => RunTask) == prefix + [RunTask];
      Extend(s, prefix, RunTask);
      assert s.batch[n - 1..][1..] == s.batch[n..];
      assert s.executed + s.batch[..n - 1] + [s.batch[n - 1]] == s.executed + s.batch[..n];
    }
  }

  // Once no thread is between push and wakeup, a loop in poll with tasks waiting can go through
  // one turn by itself, with no timeout involved, and has then run every task ever queued.
  lemma WakeupDelivers(steps: seq<Step>)
    requires Legal(Init(), steps) && Disciplined(steps)
    requires var s := Run(Init(), steps); s.pc == Polling && s.pending != [] && s.pushing == {}
    ensures var s := Run(Init(), steps);
      && Legal(s, Turn(|s.pending|))
      && Run(s, Turn(|s.pending|)).executed == s.history
  {
    var s := Run(Init(), steps);
    ReadyToPoll(steps);
    hide Inv, Next;
    var head := [PollReturns(true), HandleRead, EndDispatch, Swap];
    TurnHead(s);
    RunBatch(Run(s, head), |s.pending|);
    Append(s, head, seq(|s.pending|, _ => RunTask));
    assert s.pending[..|s.pending|] == s.pending;
  }

  lemma ReadyToPoll(steps: seq<Step>)
    requires Legal(Init(), steps) && Disciplined(steps)
    requires var s := Run(Init(), steps); s.pc == Polling && s.pending != [] && s.pushing == {}
    ensures var s := Run(Init(), steps); 0 < s.counter && !s.ownerMid && s.executed + s.pending == s.history
  {
    InvOverRuns(steps);
    NoEarlyTasks(steps);
  }

  lemma TurnHead(s: Loop)
    requires s.pc == Polling && 0 < s.counter && !s.ownerMid
    ensures var head := [PollReturns(true), HandleRead, EndDispatch, Swap];
      && Legal(s, head)
      && var t := Run(s, head);
         t.pc == Running && !t.ownerMid && t.batch == s.pending && t.executed == s.executed
  {
    hide Legal, Run;
    NoSteps(s);
    Extend(s, [], PollReturns(true));
    Extend(s, [] + [PollReturns(true)], HandleRead);
    Extend(s, [] + [PollReturns(true)] + [HandleRead], EndDispatch);
    Extend(s, [] + [PollReturns(true)] + [HandleRead] + [EndDispatch], Swap);
    assert [] + [PollReturns(true)] + [HandleRead] + [EndDispatch] + [Swap]
        == [PollReturns(true), HandleRead, EndDispatch, Swap];
  }

  lemma NoSteps(s: Loop)
    ensures Legal(s, []) && Run(s, []) == s
  {
  }
}
