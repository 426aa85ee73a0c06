// src/EventLoop.cc as code: the fields of EventLoop and the methods that change them. Every method
// records the protocol steps it takes, so each state of the object is a reachable state of
// LoopProtocol and has its guarantees.

module EventLoops {
  import opened Common
  import opened LoopProtocol

  // What other threads do between two acts of this one: they queue tasks, and perhaps one quits.
  datatype Outside = Outside(tasks: seq<Entry>, quitter: seq<Tid>)

  // One turn of loop(): the I/O channels' callbacks before and after the wakeup channel's turn,
  // whether epoll reports that channel, and what other threads do while this one polls, before
  // each callback and after the last, and before each task of the batch and after the last.
  datatype Turn = Turn(
    polling: Outside,
    before: seq<Functor>, amidBefore: seq<Outside>,
    wakeReported: bool,
    after: seq<Functor>, amidAfter: seq<Outside>,
    amidBatch: seq<Outside>)

  predicate Foreign(o: Outside) {
    OWNER !in o.quitter && forall e :: e in o.tasks ==> e.tid != OWNER
  }

  predicate AllForeign(amid: seq<Outside>) {
    forall o :: o in amid ==> Foreign(o)
  }

  predicate ForeignTurn(t: Turn) {
    Foreign(t.polling) && AllForeign(t.amidBefore) && AllForeign(t.amidAfter) && AllForeign(t.amidBatch)
  }

  function At(amid: seq<Outside>, i: nat): (o: Outside)
    ensures AllForeign(amid) ==> Foreign(o)
    ensures i < |amid| ==> o == amid[i]
  {
    if i < |amid| then amid[i] else Outside([], [])
  }

  function Queued(tid: Tid, tasks: seq<Functor>): (entries: seq<Entry>)
    ensures |entries| == |tasks|
    ensures forall i :: 0 <= i < |tasks| ==> entries[i] == Entry(tid, tasks[i])
  {
    seq(|tasks|, i requires 0 <= i < |tasks| => Entry(tid, tasks[i]))
  }

  function Works(entries: seq<Entry>): (works: seq<nat>)
    ensures |works| == |entries|
    ensures forall i :: 0 <= i < |entries| ==> works[i] == entries[i].task.work
  {
    seq(|entries|, i requires 0 <= i < |entries| => entries[i].task.work)
  }

  // What is queued while a batch runs, up to its last task: what other threads queue before each
  // task, and what the task itself does.
  function Left(batch: seq<Entry>, amid: seq<Outside>): seq<Entry> {
    if batch == [] then []
    else
      Left(Front(batch), amid) + At(amid, |batch| - 1).tasks + Queued(OWNER, Last(batch).task.posts)
  }

  // And to the end, with what other threads queue after the last.
  function LeftBehind(batch: seq<Entry>, amid: seq<Outside>): seq<Entry> {
    Left(batch, amid) + At(amid, |batch|).tasks
  }

  // Everything that was queued is there.
  lemma {:induction false} LeftHasAll(batch: seq<Entry>, amid: seq<Outside>, i: nat)
    requires i <= |batch|
    ensures forall e :: e in At(amid, i).tasks ==> e in LeftBehind(batch, amid)
    ensures i < |batch| ==> forall cb :: cb in batch[i].task.posts ==> Entry(OWNER, cb) in Left(batch, amid)
    ensures i < |batch| ==> forall e :: e in At(amid, i).tasks ==> e in Left(batch, amid)
  {
    if i < |batch| - 1 {
      LeftHasAll(Front(batch), amid, i);
    } else if i < |batch| {
      forall cb | cb in batch[i].task.posts ensures Entry(OWNER, cb) in Queued(OWNER, batch[i].task.posts) {
        var k :| 0 <= k < |batch[i].task.posts| && batch[i].task.posts[k] == cb;
        assert Queued(OWNER, batch[i].task.posts)[k] == Entry(OWNER, cb);
      }
    }
  }

  predicate SomeQuits(entries: seq<Entry>) {
    exists e :: e in entries && e.task.quits
  }

  // Another thread quits before one of the first n tasks.
  predicate Disturbed(amid: seq<Outside>, n: nat) {
    exists i :: 0 <= i < n && i < |amid| && amid[i].quitter != []
  }

  predicate Stops(batch: seq<Entry>, amid: seq<Outside>) {
    SomeQuits(batch) || Disturbed(amid, |batch| + 1)
  }

  // The batch a turn takes: what waited, what came in while polling, and what was queued around
  // the callbacks.
  function Batch(pending: seq<Entry>, t: Turn): seq<Entry> {
    pending + t.polling.tasks
      + LeftBehind(Queued(OWNER, t.before), t.amidBefore) + LeftBehind(Queued(OWNER, t.after), t.amidAfter)
  }

  // What a turn calls: the callbacks, then the batch.
  function Calls(pending: seq<Entry>, t: Turn): seq<nat> {
    Works(Queued(OWNER, t.before)) + Works(Queued(OWNER, t.after)) + Works(Batch(pending, t))
  }

  predicate Quits(pending: seq<Entry>, t: Turn) {
    || t.polling.quitter != []
    || Stops(Queued(OWNER, t.before), t.amidBefore) || Stops(Queued(OWNER, t.after), t.amidAfter)
    || Stops(Batch(pending, t), t.amidBatch)
  }

  datatype Outcome = Outcome(calls: seq<nat>, pending: seq<Entry>, quit: bool)

  // What a turn leaves for the next one.
  function Remains(pending: seq<Entry>, t: Turn): seq<Entry> {
    LeftBehind(Batch(pending, t), t.amidBatch)
  }

  // What loop() does over some turns, up to and including the one in which somebody quits.
  function LoopOutcome(pending: seq<Entry>, turns: seq<Turn>): Outcome
    decreases |turns|
  {
    if turns == [] then Outcome([], pending, false)
    else
      var calls, remains := Calls(pending, turns[0]), Remains(pending, turns[0]);
      if Quits(pending, turns[0]) then Outcome(calls, remains, true)
      else
        var rest := LoopOutcome(remains, turns[1..]);
        rest.(calls := calls + rest.calls)
  }

  function After(done: seq<nat>, o: Outcome): Outcome {
    o.(calls := done + o.calls)
  }

  lemma OutcomeStep(done: seq<nat>, pending: seq<Entry>, turns: seq<Turn>, i: nat)
    requires i < |turns|
    ensures var remains := Remains(pending, turns[i]);
      After(done, LoopOutcome(pending, turns[i..])) ==
        After(done + Calls(pending, turns[i]),
              if Quits(pending, turns[i]) then Outcome([], remains, true) else LoopOutcome(remains, turns[i + 1..]))
  {
    hide Calls, Remains, Quits;
    assert turns[i..][1..] == turns[i + 1..];
  }

  lemma OutcomeEnd(pending: seq<Entry>)
    ensures LoopOutcome(pending, []) == Outcome([], pending, false)
  {
  }

  lemma EmptyBatch(amid: seq<Outside>)
    ensures Left([], amid) == [] && Works([]) == [] && !Disturbed(amid, 0)
  {
  }

  lemma PrefixFacts(entries: seq<Entry>, amid: seq<Outside>, i: nat)
    requires i < |entries|
    ensures entries[..i] + [entries[i]] == entries[..i + 1]
    ensures Works(entries)[..i] + [entries[i].task.work] == Works(entries)[..i + 1]
    ensures Left(entries[..i + 1], amid)
         == Left(entries[..i], amid) + At(amid, i).tasks + Queued(OWNER, entries[i].task.posts)
    ensures entries[i..] == [entries[i]] + entries[i + 1..]
  {
    assert Front(entries[..i + 1]) == entries[..i] && Last(entries[..i + 1]) == entries[i];
  }

  lemma DisturbedNext(amid: seq<Outside>, i: nat)
    ensures Disturbed(amid, i + 1) == (Disturbed(amid, i) || At(amid, i).quitter != [])
  {
  }

  // From position at on, the calls are one turn's: its callbacks in the order of the active channels,
  // then what waited when it began and what came in while it polled, in the order of the queue.
  predicate TurnRuns(calls: seq<nat>, at: nat, pending: seq<Entry>, t: Turn) {
    var b, a, p, q := |t.before|, |t.after|, |pending|, |t.polling.tasks|;
    && at + b + a + p + q <= |calls|
    && (forall i :: 0 <= i < b ==> calls[at + i] == t.before[i].work)
    && (forall i :: 0 <= i < a ==> calls[at + b + i] == t.after[i].work)
    && (forall i :: 0 <= i < p ==> calls[at + b + a + i] == pending[i].task.work)
    && (forall i :: 0 <= i < q ==> calls[at + b + a + p + i] == t.polling.tasks[i].task.work)
  }

  lemma WorksInOrder(done: seq<nat>, entries: seq<Entry>)
    ensures |done + Works(entries)| == |done| + |entries|
    ensures forall i :: 0 <= i < |entries| ==> (done + Works(entries))[|done| + i] == entries[i].task.work
  {
  }

  lemma CallsInOrder(done: seq<nat>, pending: seq<Entry>, t: Turn)
    ensures TurnRuns(done + Calls(pending, t), |done|, pending, t)
  {
    hide LeftBehind;
    var before, after, batch := Works(Queued(OWNER, t.before)), Works(Queued(OWNER, t.after)), Batch(pending, t);
    var all := done + Calls(pending, t);
    assert all == done + before + after + Works(batch);
    assert forall i :: 0 <= i < |pending| ==> batch[i] == pending[i];
    assert forall i :: 0 <= i < |t.polling.tasks| ==> batch[|pending| + i] == t.polling.tasks[i];
  }

  lemma TurnIs(pending: seq<Entry>, t: Turn)
    ensures var before, after, batch := Queued(OWNER, t.before), Queued(OWNER, t.after), Batch(pending, t);
      && batch == pending + t.polling.tasks + LeftBehind(before, t.amidBefore) + LeftBehind(after, t.amidAfter)
      && (forall done: seq<nat> ::
            done + Calls(pending, t) == done + Works(before) + Works(after) + Works(batch))
      && Remains(pending, t) == LeftBehind(batch, t.amidBatch)
      && (Quits(pending, t) <==> t.polling.quitter != [] || Stops(before, t.amidBefore)
                                 || Stops(after, t.amidAfter) || Stops(batch, t.amidBatch))
  {
  }

  lemma TurnRunsOn(calls: seq<nat>, more: seq<nat>, at: nat, pending: seq<Entry>, t: Turn)
    requires TurnRuns(calls, at, pending, t)
    ensures TurnRuns(calls + more, at, pending, t)
  {
  }

  class EventLoop {
    var pendingFunctors: seq<Entry>
    var callingPendingFunctors: bool
    var quit: bool
    var wakeupFd: nat            // the eventfd's count
    var calls: seq<nat>          // the work of every functor called, in order
    ghost var trace: seq<Step>   // the protocol steps so far

    ghost function State(): Loop
      reads this
      requires Legal(Init(), trace)
    {
      Run(Init(), trace)
    }

    ghost predicate Valid()
      reads this
    {
      && Legal(Init(), trace)
      && State().pending == pendingFunctors && State().calling == callingPendingFunctors
      && State().quit == quit && State().counter == wakeupFd
      && !State().ownerMid && State().pushing == {} && State().quitting == {}
    }

    constructor ()
      ensures Valid() && State() == Init() && calls == []
    {
      pendingFunctors, callingPendingFunctors, quit := [], false, false;
      wakeupFd, calls, trace := 0, [], [];
    }

    ghost method Take(step: Step)
      requires Legal(Init(), trace) && Enabled(State(), step)
      modifies this`trace
      ensures Legal(Init(), trace) && State() == Next(old(State()), step)
    {
      Extend(Init(), trace, step);
      trace := trace + [step];
    }

    method Wakeup()
      modifies this`wakeupFd
      ensures wakeupFd == if old(wakeupFd) < EVENTFD_MAX then old(wakeupFd) + 1 else old(wakeupFd)
      ensures 0 < wakeupFd
    {
      if wakeupFd < EVENTFD_MAX {
        wakeupFd := wakeupFd + 1;
      }
    }

    // Queues behind everything there, and wakes the loop unless it is this thread's own and has
    // yet to take its batch.
    method QueueInLoop(tid: Tid, cb: Functor)
      requires Valid()
      requires tid == OWNER ==> OutsideLoop(State()) || InCallback(State())
      modifies this`pendingFunctors, this`wakeupFd, this`trace
      ensures Valid() && pendingFunctors == old(pendingFunctors) + [Entry(tid, cb)]
      ensures State().history == old(State()).history + [Entry(tid, cb)]
      ensures State().pc == old(State()).pc
      ensures State().batch == old(State()).batch && State().executed == old(State()).executed
      ensures old(wakeupFd) <= wakeupFd
      ensures tid != OWNER || callingPendingFunctors ==> 0 < wakeupFd
    {
      if tid == OWNER {
        Take(if OutsideLoop(State()) then EarlyPush(cb) else OwnerPush(cb));
      } else {
        Take(Push(tid, cb));
      }
      pendingFunctors := pendingFunctors + [Entry(tid, cb)];
      if tid != OWNER || callingPendingFunctors {
        Wakeup();
      }
      if tid == OWNER {
        Take(OwnerWakeTest);
      } else {
        Take(Wake(tid));
      }
    }

    // A functor at work on the loop's thread: it queues its tasks, and perhaps quits.
    method Call(cb: Functor)
      requires Valid() && (OutsideLoop(State()) || InCallback(State()))
      modifies this`pendingFunctors, this`quit, this`wakeupFd, this`calls, this`trace
      ensures quit == (old(quit) || cb.quits)
      ensures Valid() && calls == old(calls) + [cb.work]
      ensures pendingFunctors == old(pendingFunctors) + Queued(OWNER, cb.posts)
      ensures State().history == old(State()).history + Queued(OWNER, cb.posts)
      ensures State().pc == old(State()).pc
      ensures State().batch == old(State()).batch && State().executed == old(State()).executed
      ensures old(wakeupFd) <= wakeupFd
      ensures callingPendingFunctors && cb.posts != [] ==> 0 < wakeupFd
      ensures |pendingFunctors| == |old(pendingFunctors)| + |cb.posts|
      ensures forall i :: 0 <= i < |cb.posts| ==>
        pendingFunctors[|old(pendingFunctors)| + i] == Entry(OWNER, cb.posts[i])
    {
      calls := calls + [cb.work];
      for i := 0 to |cb.posts|
        invariant Valid() && (OutsideLoop(State()) || InCallback(State()))
        invariant calls == old(calls) + [cb.work] && quit == old(quit)
        invariant pendingFunctors == old(pendingFunctors) + Queued(OWNER, cb.posts)[..i]
        invariant State().history == old(State()).history + Queued(OWNER, cb.posts)[..i]
        invariant State().pc == old(State()).pc
        invariant State().batch == old(State()).batch && State().executed == old(State()).executed
        invariant old(wakeupFd) <= wakeupFd
        invariant callingPendingFunctors && 0 < i ==> 0 < wakeupFd
      {
        QueueInLoop(OWNER, cb.posts[i]);
        assert Queued(OWNER, cb.posts)[..i] + [Entry(OWNER, cb.posts[i])] == Queued(OWNER, cb.posts)[..i + 1];
      }
      assert Queued(OWNER, cb.posts)[..|cb.posts|] == Queued(OWNER, cb.posts);
      if cb.quits {
        Quit(OWNER);
      }
    }

    // On the loop's own thread a functor runs at once, ahead of everything queued.
    method RunInLoop(tid: Tid, cb: Functor)
      requires Valid() && (tid == OWNER ==> OutsideLoop(State()) || InCallback(State()))
      modifies this`pendingFunctors, this`quit, this`wakeupFd, this`calls, this`trace
      ensures Valid()
      ensures calls == old(calls) + if tid == OWNER then [cb.work] else []
      ensures pendingFunctors == old(pendingFunctors) +
        if tid == OWNER then Queued(OWNER, cb.posts) else [Entry(tid, cb)]
      ensures tid != OWNER ==> 0 < wakeupFd
    {
      if tid == OWNER {
        Call(cb);
      } else {
        QueueInLoop(tid, cb);
      }
    }

    method HandleRead()
      requires Valid() && State().pc == Dispatching(true)
      modifies this`wakeupFd, this`trace
      ensures Valid() && State() == old(State()).(pc := Dispatching(false), counter := 0, heard := 0)
    {
      wakeupFd := 0;
      Take(Step.HandleRead);
    }

    method Quit(tid: Tid)
      requires Valid() && (tid == OWNER ==> OutsideLoop(State()) || InCallback(State()))
      modifies this`quit, this`wakeupFd, this`trace
      ensures Valid() && quit && (tid != OWNER ==> 0 < wakeupFd) && old(wakeupFd) <= wakeupFd
      ensures State() == old(State()).(quit := true, counter := State().counter, heard := State().heard)
    {
      quit := true;
      if tid == OWNER {
        Take(OwnerQuit);
      } else {
        Take(Step.Quit(tid));
        Wakeup();
        Take(Wake(tid));
      }
    }

    // The next task of the batch.
    method RunNext(e: Entry)
      requires Valid() && State().pc == Running && callingPendingFunctors
      requires State().batch != [] && State().batch[0] == e
      modifies this`pendingFunctors, this`quit, this`wakeupFd, this`calls, this`trace
      ensures Valid() && State().pc == Running && callingPendingFunctors
      ensures quit == (old(quit) || e.task.quits) && calls == old(calls) + [e.task.work]
      ensures pendingFunctors == old(pendingFunctors) + Queued(OWNER, e.task.posts)
      ensures State().batch == old(State()).batch[1..] && State().executed == old(State()).executed + [e]
      ensures State().history == old(State()).history + Queued(OWNER, e.task.posts)
      ensures old(wakeupFd) <= wakeupFd && (e.task.posts != [] ==> 0 < wakeupFd)
    {
      Take(RunTask);
      Call(e.task);
    }

    // Other threads' calls of queueInLoop and quit.
    method Interference(o: Outside)
      requires Valid() && Foreign(o)
      modifies this`pendingFunctors, this`quit, this`wakeupFd, this`trace
      ensures Valid() && State().pc == old(State()).pc && quit == (old(quit) || o.quitter != [])
      ensures pendingFunctors == old(pendingFunctors) + o.tasks
      ensures State().history == old(State()).history + o.tasks
      ensures State().batch == old(State()).batch && State().executed == old(State()).executed
      ensures old(wakeupFd) <= wakeupFd && (o.tasks != [] || o.quitter != [] ==> 0 < wakeupFd)
    {
      for i := 0 to |o.tasks|
        invariant Valid() && State().pc == old(State()).pc && quit == old(quit)
        invariant pendingFunctors == old(pendingFunctors) + o.tasks[..i]
        invariant State().history == old(State()).history + o.tasks[..i]
        invariant State().batch == old(State()).batch && State().executed == old(State()).executed
        invariant old(wakeupFd) <= wakeupFd && (0 < i ==> 0 < wakeupFd)
      {
        assert o.tasks[i] in o.tasks;
        QueueInLoop(o.tasks[i].tid, o.tasks[i].task);
        assert o.tasks[..i] + [o.tasks[i]] == o.tasks[..i + 1];
      }
      assert o.tasks[..|o.tasks|] == o.tasks;
      if o.quitter != [] {
        assert o.quitter[0] in o.quitter;
        Quit(o.quitter[0]);
      }
    }

    // The loop over the taken batch.
    method RunFunctors(functors: seq<Entry>, amid: seq<Outside>)
      requires Valid() && State().pc == Running && callingPendingFunctors
      requires State().batch == functors && pendingFunctors == [] && AllForeign(amid)
      modifies this`pendingFunctors, this`quit, this`wakeupFd, this`calls, this`trace
      ensures quit == (old(quit) || SomeQuits(functors) || Disturbed(amid, |functors|))
      ensures Valid() && State().pc == Running && State().batch == []
      ensures calls == old(calls) + Works(functors)
      ensures pendingFunctors == Left(functors, amid)
      ensures State().executed == old(State()).executed + functors
      ensures State().history == old(State()).history + Left(functors, amid)
      ensures old(wakeupFd) <= wakeupFd && (pendingFunctors != [] ==> 0 < wakeupFd)
    {
      hide Inv, Next, Left, Works, Queued, At, Disturbed, Foreign, AllForeign;
      EmptyBatch(amid);
      for i := 0 to |functors|
        invariant Valid() && State().pc == Running
        invariant quit == (old(quit) || SomeQuits(functors[..i]) || Disturbed(amid, i))
        invariant calls == old(calls) + Works(functors)[..i]
        invariant State().batch == functors[i..]
        invariant State().executed == old(State()).executed + functors[..i]
        invariant pendingFunctors == Left(functors[..i], amid)
        invariant State().history == old(State()).history + Left(functors[..i], amid)
        invariant old(wakeupFd) <= wakeupFd && (pendingFunctors != [] ==> 0 < wakeupFd)
      {
        PrefixFacts(functors, amid, i);
        DisturbedNext(amid, i);
        Interference(At(amid, i));
        RunNext(functors[i]);
      }
      assert functors[..|functors|] == functors && Works(functors)[..|functors|] == Works(functors);
    }

    // Sets the flag and swaps the queue for an empty one.
    method TakeBatch() returns (functors: seq<Entry>)
      requires Valid() && State().pc == Dispatching(false)
      modifies this`pendingFunctors, this`callingPendingFunctors, this`trace
      ensures Valid() && State().pc == Running && callingPendingFunctors
      ensures functors == old(pendingFunctors) && State().batch == functors && pendingFunctors == []
      ensures State().executed == old(State()).executed && State().history == old(State()).history
    {
      callingPendingFunctors := true;
      Take(EndDispatch);
      functors := pendingFunctors;
      pendingFunctors := [];
      Take(Swap);
    }

    // The end of a batch that has run, with what other threads do just before.
    method LeaveBatch(o: Outside)
      requires Valid() && State().pc == Running && State().batch == [] && Foreign(o)
      modifies this`pendingFunctors, this`callingPendingFunctors, this`quit, this`wakeupFd, this`trace
      ensures Valid() && State().pc == Checking && State().batch == []
      ensures quit == (old(quit) || o.quitter != []) && pendingFunctors == old(pendingFunctors) + o.tasks
      ensures State().executed == old(State()).executed && State().history == old(State()).history + o.tasks
      ensures old(wakeupFd) <= wakeupFd && (o.tasks != [] ==> 0 < wakeupFd)
    {
      hide Inv, Foreign;
      Interference(o);
      callingPendingFunctors := false;
      Take(EndBatch);
    }

    // Runs exactly the tasks that were waiting, in order; what is queued meanwhile, by them or by
    // other threads, is left waiting, with the loop woken for it.
    method DoPendingFunctors(amid: seq<Outside>)
      requires Valid() && State().pc == Dispatching(false) && AllForeign(amid)
      modifies this
      ensures quit == (old(quit) || Stops(old(pendingFunctors), amid))
      ensures Valid() && State().pc == Checking
      ensures calls == old(calls) + Works(old(pendingFunctors))
      ensures pendingFunctors == LeftBehind(old(pendingFunctors), amid)
      ensures State().executed == old(State()).executed + old(pendingFunctors)
      ensures State().history == old(State()).history + LeftBehind(old(pendingFunctors), amid)
      ensures State().batch == [] && old(wakeupFd) <= wakeupFd
      ensures pendingFunctors != [] ==> 0 < wakeupFd
      ensures |calls| == |old(calls)| + |old(pendingFunctors)|
      ensures forall i :: 0 <= i < |old(pendingFunctors)| ==>
        calls[|old(calls)| + i] == old(pendingFunctors)[i].task.work
    {
      hide Inv, Next, Left, Works, At, Disturbed, Foreign, AllForeign, SomeQuits;
      var functors := TakeBatch();
      RunFunctors(functors, amid);
      DisturbedNext(amid, |functors|);
      LeaveBatch(At(amid, |functors|));
      WorksInOrder(old(calls), functors);
    }

    // The callbacks of active I/O channels.
    method HandleEvents(handlers: seq<Functor>, amid: seq<Outside>)
      requires Valid() && State().pc.Dispatching? && AllForeign(amid)
      modifies this`pendingFunctors, this`quit, this`wakeupFd, this`calls, this`trace
      ensures Valid() && State().pc == old(State()).pc
      ensures var entries := Queued(OWNER, handlers);
        && calls == old(calls) + Works(entries)
        && pendingFunctors == old(pendingFunctors) + LeftBehind(entries, amid)
        && quit == (old(quit) || Stops(entries, amid))
      ensures |calls| == |old(calls)| + |handlers| && old(calls) <= calls
      ensures forall i :: 0 <= i < |handlers| ==> calls[|old(calls)| + i] == handlers[i].work
    {
      hide Inv, Next, Left, Works, Queued, At, Disturbed, Foreign, AllForeign;
      var entries := Queued(OWNER, handlers);
      EmptyBatch(amid);
      for i := 0 to |handlers|
        invariant Valid() && State().pc == old(State()).pc
        invariant calls == old(calls) + Works(entries)[..i]
        invariant pendingFunctors == old(pendingFunctors) + Left(entries[..i], amid)
        invariant quit == (old(quit) || SomeQuits(entries[..i]) || Disturbed(amid, i))
      {
        PrefixFacts(entries, amid, i);
        DisturbedNext(amid, i);
        Interference(At(amid, i));
        Call(handlers[i]);
      }
      assert entries[..|handlers|] == entries && Works(entries)[..|handlers|] == Works(entries);
      DisturbedNext(amid, |handlers|);
      Interference(At(amid, |handlers|));
    }

    // The start of loop(), for the first time or after it returned: a quit called before it is forgotten.
    method Begin()
      requires Valid() && (OutsideLoop(State()))
      modifies this`quit, this`trace
      ensures Valid() && State().pc == Checking && !quit
    {
      quit := false;
      Take(Start);
    }

    // poll() is entered only while quit_ is not set.
    method EnterPoll()
      requires Valid() && State().pc == Checking && !quit
      modifies this`trace
      ensures Valid() && State().pc == Polling
    {
      Take(Check);
    }

    // loop() returns once quit_ is set.
    ghost method Leave()
      requires Valid() && State().pc == Checking && quit
      modifies this`trace
      ensures Valid() && State() == old(State()).(pc := Stopped)
    {
      Take(Check);
    }

    // poll() comes back, for whatever reason; the wakeup channel is active only if the eventfd is readable.
    method Poll(wakeReported: bool) returns (wakeReady: bool)
      requires Valid() && State().pc == Polling
      modifies this`trace
      ensures Valid() && State().pc == Dispatching(wakeReady)
      ensures wakeReady == (wakeReported && 0 < wakeupFd)
    {
      wakeReady := wakeReported && 0 < wakeupFd;
      Take(PollReturns(wakeReady));
    }

    // The active channels, with the wakeup channel among them if epoll reports it.
    method HandleActive(t: Turn, wakeReady: bool)
      requires Valid() && State().pc == Dispatching(wakeReady) && ForeignTurn(t)
      modifies this`pendingFunctors, this`quit, this`wakeupFd, this`calls, this`trace
      ensures Valid() && State().pc == Dispatching(false)
      ensures calls == old(calls) + Works(Queued(OWNER, t.before)) + Works(Queued(OWNER, t.after))
      ensures pendingFunctors == old(pendingFunctors)
        + LeftBehind(Queued(OWNER, t.before), t.amidBefore) + LeftBehind(Queued(OWNER, t.after), t.amidAfter)
      ensures quit == (old(quit) || Stops(Queued(OWNER, t.before), t.amidBefore)
                                 || Stops(Queued(OWNER, t.after), t.amidAfter))
    {
      hide Inv, Next, Works, LeftBehind, Queued, Stops, AllForeign;
      HandleEvents(t.before, t.amidBefore);
      if wakeReady {
        HandleRead();
      }
      HandleEvents(t.after, t.amidAfter);
    }

    // One turn of loop().
    method TakeTurn(t: Turn)
      requires Valid() && State().pc == Checking && !quit && ForeignTurn(t)
      modifies this
      ensures Valid() && State().pc == Checking
      ensures calls == old(calls) + Calls(old(pendingFunctors), t)
      ensures TurnRuns(calls, |old(calls)|, old(pendingFunctors), t)
      ensures pendingFunctors == Remains(old(pendingFunctors), t)
      ensures quit == Quits(old(pendingFunctors), t)
      ensures pendingFunctors != [] ==> 0 < wakeupFd
    {
      hide Inv, Next, Works, LeftBehind, Queued, Stops, AllForeign, TurnRuns;
      EnterPoll();
      Interference(t.polling);
      var wakeReady := Poll(t.wakeReported);
      HandleActive(t, wakeReady);
      TurnIs(old(pendingFunctors), t);
      hide Batch, Calls, Remains, Quits;
      assert pendingFunctors == Batch(old(pendingFunctors), t);
      DoPendingFunctors(t.amidBatch);
      CallsInOrder(old(calls), old(pendingFunctors), t);
    }

    // loop(), for as many turns as are given or until somebody quits: what it calls and what it
    // leaves waiting. Everything ever queued has then run, in order, except what was queued during
    // the last batch; and unless the loop was left for good it is woken for that. turnsRun says of
    // each turn that ran where in calls its own begin, and what waited then.
    method Loop(turns: seq<Turn>) returns (ghost turnsRun: seq<(nat, seq<Entry>)>)
      requires Valid() && (OutsideLoop(State()))
      requires forall t :: t in turns ==> ForeignTurn(t)
      modifies this
      ensures Valid() && State().pc == if quit then Stopped else Checking
      ensures var o := LoopOutcome(old(pendingFunctors), turns);
        calls == old(calls) + o.calls && pendingFunctors == o.pending && quit == o.quit
      ensures State().executed + pendingFunctors == State().history
      ensures pendingFunctors != [] && turns != [] ==> 0 < wakeupFd
      ensures |turnsRun| <= |turns| && (!quit ==> |turnsRun| == |turns|)
      ensures turns != [] ==> turnsRun != [] && turnsRun[0] == (|old(calls)|, old(pendingFunctors))
      ensures forall k :: 0 <= k < |turnsRun| ==> TurnRuns(calls, turnsRun[k].0, turnsRun[k].1, turns[k])
    {
      hide Inv, Next, LoopOutcome, Calls, Remains, Quits, ForeignTurn, TurnRuns;
      turnsRun := [];
      Begin();
      var i := 0;
      ghost var all, done := LoopOutcome(pendingFunctors, turns), [];
      assert turns[0..] == turns && all.(calls := [] + all.calls) == all;
      while !quit && i < |turns|
        invariant 0 <= i <= |turns| && Valid() && State().pc == Checking
        invariant |turnsRun| == i && (0 < i ==> turnsRun[0] == (|old(calls)|, old(pendingFunctors)))
        invariant i == 0 ==> calls == old(calls) && pendingFunctors == old(pendingFunctors)
        invariant forall k :: 0 <= k < i ==> TurnRuns(calls, turnsRun[k].0, turnsRun[k].1, turns[k])
        invariant 0 < i && pendingFunctors != [] ==> 0 < wakeupFd
        invariant calls == old(calls) + done && (quit ==> 0 < i)
        invariant all == After(done, if quit then Outcome([], pendingFunctors, true)
                                     else LoopOutcome(pendingFunctors, turns[i..]))
      {
        assert turns[i] in turns;
        OutcomeStep(done, pendingFunctors, turns, i);
        done := done + Calls(pendingFunctors, turns[i]);
        ghost var before, waiting := calls, pendingFunctors;
        TakeTurn(turns[i]);
        forall k | 0 <= k < i ensures TurnRuns(calls, turnsRun[k].0, turnsRun[k].1, turns[k]) {
          TurnRunsOn(before, Calls(waiting, turns[i]), turnsRun[k].0, turnsRun[k].1, turns[k]);
        }
        turnsRun := turnsRun + [(|before|, waiting)];
        i := i + 1;
      }
      if quit {
        Leave();
      }
      OutcomeEnd(pendingFunctors);
      assert turns[|turns|..] == [] && done + [] == done;
      NothingInTheBatch();
    }

    lemma NothingInTheBatch()
      requires Valid() && (State().pc == Checking || State().pc == Stopped)
      ensures State().executed + pendingFunctors == State().history
    {
      InvOverRuns(trace);
    }
  }
}
