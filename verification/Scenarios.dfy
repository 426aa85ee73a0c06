// Runs into the states that LateTasks.dfy and Rearming.dfy speak of.

module Scenarios {
  import opened Common
  import opened Lifecycle
  import opened RawTasks
  import opened LateTasks
  import opened LifecycleInvariant
  import opened LifecycleTheorems

  // ---------------------------------------------------------------- one loop, one connection

  function Alone(x: LoopState, k: ConnState, mapped: set<Cid>): Server {
    Server([x], [k], mapped)
  }

  predicate SameLoop(x: LoopState, y: LoopState) {
    && y.pending == x.pending && y.frame == x.frame && y.removing == x.removing
    && y.channels == x.channels && y.kernel == x.kernel
    && match y.phase
       case Polling => x.phase == Polling
       case Dispatching(active) => x.phase.Dispatching? && x.phase.active == active
       case Draining(held, rest) => x.phase.Draining? && x.phase.held == held && x.phase.rest == rest
  }

  predicate SameConn(k: ConnState, j: ConnState) {
    && j.home == k.home && j.fd == k.fd && j.state == k.state && j.index == k.index && j.alive == k.alive
    && j.armed == k.armed && j.log == k.log && j.closes == k.closes && j.destroyed == k.destroyed
  }

  lemma IsAlone(s: Server, x: LoopState, k: ConnState, mapped: set<Cid>)
    requires |s.loops| == 1 && |s.conns| == 1 && s.connections == mapped
    requires SameLoop(x, s.loops[0]) && SameConn(k, s.conns[0])
    ensures s == Alone(x, k, mapped)
  {
    assert s.loops == [s.loops[0]] && s.conns == [s.conns[0]];
  }

  lemma NoSteps()
    ensures Legal(1, []) && Run(1, []) == Server([LoopState([], Polling, Idle, None, map[], map[])], [], {})
  {
    assert Init(1).loops == [LoopState([], Polling, Idle, None, map[], map[])];
  }

  lemma Started() returns (steps: seq<Step>)
    ensures Legal(1, steps) && InTimeSince(1, 0, steps)
    ensures Run(1, steps) == Server([LoopState([], Dispatching([]), Idle, None, map[], map[])], [], {})
  {
    NoSteps();
    assert InTimeSince(1, 0, []);
    hide Legal, Run;
    Take(1, [], PollReturns(MAIN, []));
    steps := [] + [PollReturns(MAIN, [])];
    assert Run(1, steps).loops == [LoopState([], Dispatching([]), Idle, None, map[], map[])];
  }

  lemma Take(n: nat, steps: seq<Step>, step: Step)
    requires Legal(n, steps) && InTimeSince(n, 0, steps) && Enabled(Run(n, steps), step)
    requires step.PostRaw? ==> InTime(Run(n, steps), step.c)
    ensures Legal(n, steps + [step]) && InTimeSince(n, 0, steps + [step])
    ensures Run(n, steps + [step]) == Next(Run(n, steps), step)
  {
    Extend(n, steps, step);
    assert Front(steps + [step]) == steps;
  }

  lemma Opened(fd: Fd) returns (steps: seq<Step>)
    ensures Legal(1, steps) && InTimeSince(1, 0, steps)
    ensures Run(1, steps) ==
      Alone(LoopState([], Polling, Idle, None, map[fd := 0], map[fd := 0]),
            ConnState(MAIN, fd, Connected, Added, true, false, [Up], 0, 0), {0})
  {
    hide Legal, Run, InTimeSince;
    steps := Started();
    Take(1, steps, Accept(fd, MAIN));
    steps := steps + [Accept(fd, MAIN)];
    IsAlone(Run(1, steps), LoopState([], Dispatching([]), Idle, None, map[fd := 0], map[fd := 0]),
            ConnState(MAIN, fd, Connected, Added, true, false, [Up], 0, 0), {0});
    Take(1, steps, StartDrain(MAIN));
    steps := steps + [StartDrain(MAIN)];
    IsAlone(Run(1, steps), LoopState([], Draining([], []), Idle, None, map[fd := 0], map[fd := 0]),
            ConnState(MAIN, fd, Connected, Added, true, false, [Up], 0, 0), {0});
    Take(1, steps, EndDrain(MAIN));
    steps := steps + [EndDrain(MAIN)];
    IsAlone(Run(1, steps), LoopState([], Polling, Idle, None, map[fd := 0], map[fd := 0]),
            ConnState(MAIN, fd, Connected, Added, true, false, [Up], 0, 0), {0});
  }

  lemma Handled(fd: Fd) returns (steps: seq<Step>)
    ensures Legal(1, steps) && InTimeSince(1, 0, steps)
    ensures Run(1, steps) ==
      Alone(LoopState([], Dispatching([]), InEvent(0, false), None, map[fd := 0], map[fd := 0]),
            ConnState(MAIN, fd, Connected, Added, true, false, [Up], 0, 0), {0})
  {
    hide Legal, Run, InTimeSince;
    steps := Opened(fd);
    Take(1, steps, PollReturns(MAIN, [0]));
    steps := steps + [PollReturns(MAIN, [0])];
    IsAlone(Run(1, steps), LoopState([], Dispatching([0]), Idle, None, map[fd := 0], map[fd := 0]),
            ConnState(MAIN, fd, Connected, Added, true, false, [Up], 0, 0), {0});
    Take(1, steps, BeginEvent(MAIN));
    steps := steps + [BeginEvent(MAIN)];
    IsAlone(Run(1, steps), LoopState([], Dispatching([]), InEvent(0, false), None, map[fd := 0], map[fd := 0]),
            ConnState(MAIN, fd, Connected, Added, true, false, [Up], 0, 0), {0});
  }

  lemma Closing(fd: Fd) returns (steps: seq<Step>)
    ensures Legal(1, steps) && InTimeSince(1, 0, steps)
    ensures Run(1, steps) ==
      Alone(LoopState([Destroy(0)], Dispatching([]), InEvent(0, true), None, map[fd := 0], map[]),
            ConnState(MAIN, fd, Disconnected, Deleted, true, false, [Up, Down], 1, 0), {})
  {
    hide Legal, Run, InTimeSince;
    steps := Handled(fd);
    Take(1, steps, OnClose(MAIN));
    steps := steps + [OnClose(MAIN)];
    IsAlone(Run(1, steps), LoopState([], Dispatching([]), InEvent(0, true), Some(0), map[fd := 0], map[]),
            ConnState(MAIN, fd, Disconnected, Deleted, true, false, [Up, Down], 1, 0), {});
    Take(1, steps, QueueDestroy);
    steps := steps + [QueueDestroy];
    IsAlone(Run(1, steps), LoopState([Destroy(0)], Dispatching([]), InEvent(0, true), None, map[fd := 0], map[]),
            ConnState(MAIN, fd, Disconnected, Deleted, true, false, [Up, Down], 1, 0), {});
  }

  // A caller that tested the state before the close, and queues when the destruction has begun.
  lemma LateIsReachable(fd: Fd) returns (steps: seq<Step>)
    ensures Legal(1, steps) && InTimeSince(1, 0, steps)
    ensures Run(1, steps) ==
      Alone(LoopState([], Draining([Destroy(0)], [Destroy(0)]), Idle, None, map[fd := 0], map[]),
            ConnState(MAIN, fd, Disconnected, Deleted, true, false, [Up, Down], 1, 0), {})
    ensures Enabled(Run(1, steps), PostRaw(MAIN, 0)) && !InTime(Run(1, steps), 0)
  {
    hide Legal, Run, InTimeSince;
    steps := Closing(fd);
    Take(1, steps, EndEvent(MAIN));
    steps := steps + [EndEvent(MAIN)];
    IsAlone(Run(1, steps), LoopState([Destroy(0)], Dispatching([]), Idle, None, map[fd := 0], map[]),
            ConnState(MAIN, fd, Disconnected, Deleted, true, false, [Up, Down], 1, 0), {});
    Take(1, steps, StartDrain(MAIN));
    steps := steps + [StartDrain(MAIN)];
    IsAlone(Run(1, steps), LoopState([], Draining([Destroy(0)], [Destroy(0)]), Idle, None, map[fd := 0], map[]),
            ConnState(MAIN, fd, Disconnected, Deleted, true, false, [Up, Down], 1, 0), {});
  }

  lemma QueuedBehind(fd: Fd) returns (steps: seq<Step>)
    ensures Legal(1, steps) && InTimeSince(1, 0, steps)
    ensures Run(1, steps) ==
      Alone(LoopState([Destroy(0), Raw(0)], Dispatching([]), Idle, None, map[fd := 0], map[]),
            ConnState(MAIN, fd, Disconnected, Deleted, true, false, [Up, Down], 1, 0), {})
  {
    hide Legal, Run, InTimeSince;
    steps := Closing(fd);
    Take(1, steps, PostRaw(MAIN, 0));
    steps := steps + [PostRaw(MAIN, 0)];
    IsAlone(Run(1, steps),
            LoopState([Destroy(0), Raw(0)], Dispatching([]), InEvent(0, true), None, map[fd := 0], map[]),
            ConnState(MAIN, fd, Disconnected, Deleted, true, false, [Up, Down], 1, 0), {});
    Take(1, steps, EndEvent(MAIN));
    steps := steps + [EndEvent(MAIN)];
    IsAlone(Run(1, steps), LoopState([Destroy(0), Raw(0)], Dispatching([]), Idle, None, map[fd := 0], map[]),
            ConnState(MAIN, fd, Disconnected, Deleted, true, false, [Up, Down], 1, 0), {});
  }

  // A send queued in time, but behind the destruction: its task finds the object, and can register
  // its channel for good.
  lemma OrphanIsReachable(fd: Fd) returns (steps: seq<Step>)
    ensures Legal(1, steps) && InTimeSince(1, 0, steps)
    ensures Run(1, steps) ==
      Alone(LoopState([], Draining([Destroy(0), Raw(0)], [Raw(0)]), Idle, None, map[], map[]),
            ConnState(MAIN, fd, Disconnected, New, true, false, [Up, Down], 1, 1), {})
    ensures Enabled(Run(1, steps), Rearm(MAIN)) && !StillToGo(Run(1, steps), MAIN)
  {
    hide Legal, Run, InTimeSince;
    steps := QueuedBehind(fd);
    Take(1, steps, StartDrain(MAIN));
    steps := steps + [StartDrain(MAIN)];
    IsAlone(Run(1, steps),
            LoopState([], Draining([Destroy(0), Raw(0)], [Destroy(0), Raw(0)]), Idle, None, map[fd := 0], map[]),
            ConnState(MAIN, fd, Disconnected, Deleted, true, false, [Up, Down], 1, 0), {});
    Take(1, steps, RunTask(MAIN));
    steps := steps + [RunTask(MAIN)];
    IsAlone(Run(1, steps), LoopState([], Draining([Destroy(0), Raw(0)], [Raw(0)]), Idle, None, map[], map[]),
            ConnState(MAIN, fd, Disconnected, New, true, false, [Up, Down], 1, 1), {});
  }

  lemma QueuedAhead(fd: Fd) returns (steps: seq<Step>)
    ensures Legal(1, steps) && InTimeSince(1, 0, steps)
    ensures Run(1, steps) ==
      Alone(LoopState([Raw(0), Destroy(0)], Dispatching([]), InEvent(0, true), None, map[fd := 0], map[]),
            ConnState(MAIN, fd, Disconnected, Deleted, true, false, [Up, Down], 1, 0), {})
  {
    hide Legal, Run, InTimeSince;
    steps := Handled(fd);
    Take(1, steps, PostRaw(MAIN, 0));
    steps := steps + [PostRaw(MAIN, 0)];
    IsAlone(Run(1, steps), LoopState([Raw(0)], Dispatching([]), InEvent(0, false), None, map[fd := 0], map[fd := 0]),
            ConnState(MAIN, fd, Connected, Added, true, false, [Up], 0, 0), {0});
    Take(1, steps, OnClose(MAIN));
    steps := steps + [OnClose(MAIN)];
    IsAlone(Run(1, steps), LoopState([Raw(0)], Dispatching([]), InEvent(0, true), Some(0), map[fd := 0], map[]),
            ConnState(MAIN, fd, Disconnected, Deleted, true, false, [Up, Down], 1, 0), {});
    Take(1, steps, QueueDestroy);
    steps := steps + [QueueDestroy];
    IsAlone(Run(1, steps),
            LoopState([Raw(0), Destroy(0)], Dispatching([]), InEvent(0, true), None, map[fd := 0], map[]),
            ConnState(MAIN, fd, Disconnected, Deleted, true, false, [Up, Down], 1, 0), {});
  }

  // On the main loop's own connections the destruction follows in the same batch.
  lemma AheadIsReachable(fd: Fd) returns (steps: seq<Step>)
    ensures Legal(1, steps) && InTimeSince(1, 0, steps)
    ensures Run(1, steps) ==
      Alone(LoopState([], Draining([Raw(0), Destroy(0)], [Raw(0), Destroy(0)]), Idle, None, map[fd := 0], map[]),
            ConnState(MAIN, fd, Disconnected, Deleted, true, false, [Up, Down], 1, 0), {})
    ensures Enabled(Run(1, steps), Rearm(MAIN)) && DestroyAhead(Run(1, steps), MAIN)
  {
    hide Legal, Run, InTimeSince;
    steps := QueuedAhead(fd);
    Take(1, steps, EndEvent(MAIN));
    steps := steps + [EndEvent(MAIN)];
    IsAlone(Run(1, steps), LoopState([Raw(0), Destroy(0)], Dispatching([]), Idle, None, map[fd := 0], map[]),
            ConnState(MAIN, fd, Disconnected, Deleted, true, false, [Up, Down], 1, 0), {});
    Take(1, steps, StartDrain(MAIN));
    steps := steps + [StartDrain(MAIN)];
    IsAlone(Run(1, steps),
            LoopState([], Draining([Raw(0), Destroy(0)], [Raw(0), Destroy(0)]), Idle, None, map[fd := 0], map[]),
            ConnState(MAIN, fd, Disconnected, Deleted, true, false, [Up, Down], 1, 0), {});
  }

  lemma Heard(fd: Fd) returns (steps: seq<Step>)
    ensures Legal(1, steps) && InTimeSince(1, 0, steps)
    ensures Run(1, steps) ==
      Alone(LoopState([User(0)], Dispatching([]), Idle, None, map[fd := 0], map[fd := 0]),
            ConnState(MAIN, fd, Disconnecting, Added, true, false, [Up, Message], 0, 0), {0})
  {
    hide Legal, Run, InTimeSince;
    steps := Handled(fd);
    Take(1, steps, OnMessage(MAIN));
    steps := steps + [OnMessage(MAIN)];
    IsAlone(Run(1, steps), LoopState([], Dispatching([]), InEvent(0, true), None, map[fd := 0], map[fd := 0]),
            ConnState(MAIN, fd, Connected, Added, true, false, [Up, Message], 0, 0), {0});
    Take(1, steps, Shutdown(MAIN, 0));
    steps := steps + [Shutdown(MAIN, 0)];
    IsAlone(Run(1, steps), LoopState([], Dispatching([]), InEvent(0, true), None, map[fd := 0], map[fd := 0]),
            ConnState(MAIN, fd, Disconnecting, Added, true, false, [Up, Message], 0, 0), {0});
    Take(1, steps, PostUser(MAIN, 0));
    steps := steps + [PostUser(MAIN, 0)];
    IsAlone(Run(1, steps), LoopState([User(0)], Dispatching([]), InEvent(0, true), None, map[fd := 0], map[fd := 0]),
            ConnState(MAIN, fd, Disconnecting, Added, true, false, [Up, Message], 0, 0), {0});
    Take(1, steps, EndEvent(MAIN));
    steps := steps + [EndEvent(MAIN)];
    IsAlone(Run(1, steps), LoopState([User(0)], Dispatching([]), Idle, None, map[fd := 0], map[fd := 0]),
            ConnState(MAIN, fd, Disconnecting, Added, true, false, [Up, Message], 0, 0), {0});
  }

  lemma Answered(fd: Fd) returns (steps: seq<Step>)
    ensures Legal(1, steps) && InTimeSince(1, 0, steps)
    ensures Run(1, steps) ==
      Alone(LoopState([], Dispatching([0]), Idle, None, map[fd := 0], map[fd := 0]),
            ConnState(MAIN, fd, Disconnecting, Added, true, false, [Up, Message], 0, 0), {0})
  {
    hide Legal, Run, InTimeSince;
    steps := Heard(fd);
    Take(1, steps, StartDrain(MAIN));
    steps := steps + [StartDrain(MAIN)];
    IsAlone(Run(1, steps), LoopState([], Draining([User(0)], [User(0)]), Idle, None, map[fd := 0], map[fd := 0]),
            ConnState(MAIN, fd, Disconnecting, Added, true, false, [Up, Message], 0, 0), {0});
    Take(1, steps, RunTask(MAIN));
    steps := steps + [RunTask(MAIN)];
    IsAlone(Run(1, steps), LoopState([], Draining([User(0)], []), Idle, None, map[fd := 0], map[fd := 0]),
            ConnState(MAIN, fd, Disconnecting, Added, true, false, [Up, Message], 0, 0), {0});
    Take(1, steps, EndDrain(MAIN));
    steps := steps + [EndDrain(MAIN)];
    IsAlone(Run(1, steps), LoopState([], Polling, Idle, None, map[fd := 0], map[fd := 0]),
            ConnState(MAIN, fd, Disconnecting, Added, true, false, [Up, Message], 0, 0), {0});
    Take(1, steps, PollReturns(MAIN, [0]));
    steps := steps + [PollReturns(MAIN, [0])];
    IsAlone(Run(1, steps), LoopState([], Dispatching([0]), Idle, None, map[fd := 0], map[fd := 0]),
            ConnState(MAIN, fd, Disconnecting, Added, true, false, [Up, Message], 0, 0), {0});
  }

  lemma HungUp(fd: Fd) returns (steps: seq<Step>)
    ensures Legal(1, steps) && InTimeSince(1, 0, steps)
    ensures Run(1, steps) ==
      Alone(LoopState([Destroy(0)], Dispatching([]), Idle, None, map[fd := 0], map[]),
            ConnState(MAIN, fd, Disconnected, Deleted, true, false, [Up, Message, Down], 1, 0), {})
  {
    hide Legal, Run, InTimeSince;
    steps := Answered(fd);
    Take(1, steps, BeginEvent(MAIN));
    steps := steps + [BeginEvent(MAIN)];
    IsAlone(Run(1, steps), LoopState([], Dispatching([]), InEvent(0, false), None, map[fd := 0], map[fd := 0]),
            ConnState(MAIN, fd, Disconnecting, Added, true, false, [Up, Message], 0, 0), {0});
    Take(1, steps, OnClose(MAIN));
    steps := steps + [OnClose(MAIN)];
    IsAlone(Run(1, steps), LoopState([], Dispatching([]), InEvent(0, true), Some(0), map[fd := 0], map[]),
            ConnState(MAIN, fd, Disconnected, Deleted, true, false, [Up, Message, Down], 1, 0), {});
    Take(1, steps, QueueDestroy);
    steps := steps + [QueueDestroy];
    IsAlone(Run(1, steps), LoopState([Destroy(0)], Dispatching([]), InEvent(0, true), None, map[fd := 0], map[]),
            ConnState(MAIN, fd, Disconnected, Deleted, true, false, [Up, Message, Down], 1, 0), {});
    Take(1, steps, EndEvent(MAIN));
    steps := steps + [EndEvent(MAIN)];
    IsAlone(Run(1, steps), LoopState([Destroy(0)], Dispatching([]), Idle, None, map[fd := 0], map[]),
            ConnState(MAIN, fd, Disconnected, Deleted, true, false, [Up, Message, Down], 1, 0), {});
  }

  lemma Destroyed(fd: Fd) returns (steps: seq<Step>)
    ensures Legal(1, steps) && InTimeSince(1, 0, steps)
    ensures Run(1, steps) ==
      Alone(LoopState([], Polling, Idle, None, map[], map[]),
            ConnState(MAIN, fd, Disconnected, New, true, false, [Up, Message, Down], 1, 1), {})
  {
    hide Legal, Run, InTimeSince;
    steps := HungUp(fd);
    Take(1, steps, StartDrain(MAIN));
    steps := steps + [StartDrain(MAIN)];
    IsAlone(Run(1, steps), LoopState([], Draining([Destroy(0)], [Destroy(0)]), Idle, None, map[fd := 0], map[]),
            ConnState(MAIN, fd, Disconnected, Deleted, true, false, [Up, Message, Down], 1, 0), {});
    Take(1, steps, RunTask(MAIN));
    steps := steps + [RunTask(MAIN)];
    IsAlone(Run(1, steps), LoopState([], Draining([Destroy(0)], []), Idle, None, map[], map[]),
            ConnState(MAIN, fd, Disconnected, New, true, false, [Up, Message, Down], 1, 1), {});
    Take(1, steps, EndDrain(MAIN));
    steps := steps + [EndDrain(MAIN)];
    IsAlone(Run(1, steps), LoopState([], Polling, Idle, None, map[], map[]),
            ConnState(MAIN, fd, Disconnected, New, true, false, [Up, Message, Down], 1, 1), {});
  }

  // From the accept to the release: up, a message, a shutdown, a callback, down, and gone.
  lemma WholeLife(fd: Fd) returns (steps: seq<Step>)
    ensures Legal(1, steps) && InTimeSince(1, 0, steps)
    ensures Run(1, steps) ==
      Alone(LoopState([], Polling, Idle, None, map[], map[]),
            ConnState(MAIN, fd, Disconnected, New, false, false, [Up, Message, Down], 1, 1), {})
  {
    hide Legal, Run, InTimeSince;
    steps := Destroyed(fd);
    Take(1, steps, Release(0));
    steps := steps + [Release(0)];
    IsAlone(Run(1, steps), LoopState([], Polling, Idle, None, map[], map[]),
            ConnState(MAIN, fd, Disconnected, New, false, false, [Up, Message, Down], 1, 1), {});
  }

  // ---------------------------------------------------------------- two loops

  // The main loop in a dispatch with some tasks waiting, loop 1, and one connection on it.
  function Pair(x: LoopState, k: ConnState, waiting: seq<Task>): Server {
    Server([LoopState(waiting, Dispatching([]), Idle, None, map[], map[]), x], [k], {0})
  }

  lemma IsPair(s: Server, x: LoopState, k: ConnState, waiting: seq<Task>)
    requires |s.loops| == 2 && |s.conns| == 1 && s.connections == {0}
    requires SameLoop(LoopState(waiting, Dispatching([]), Idle, None, map[], map[]), s.loops[0])
    requires SameLoop(x, s.loops[1]) && SameConn(k, s.conns[0])
    ensures s == Pair(x, k, waiting)
  {
    assert s.loops == [s.loops[0], s.loops[1]] && s.conns == [s.conns[0]];
  }

  lemma NoStepsOfTwo()
    ensures Legal(2, [])
    ensures var x := LoopState([], Polling, Idle, None, map[], map[]); Run(2, []) == Server([x, x], [], {})
  {
    var x := LoopState([], Polling, Idle, None, map[], map[]);
    assert Init(2).loops == [x, x];
  }

  lemma Waiting() returns (steps: seq<Step>)
    ensures Legal(2, steps) && InTimeSince(2, 0, steps)
    ensures var x := LoopState([], Polling, Idle, None, map[], map[]);
      Run(2, steps) == Server([x.(phase := Dispatching([])), x], [], {})
  {
    NoStepsOfTwo();
    assert InTimeSince(2, 0, []);
    hide Legal, Run;
    Take(2, [], PollReturns(MAIN, []));
    steps := [] + [PollReturns(MAIN, [])];
    var x := LoopState([], Polling, Idle, None, map[], map[]);
    assert Run(2, steps).loops == [x.(phase := Dispatching([])), x];
  }

  lemma Homed(fd: Fd) returns (steps: seq<Step>)
    ensures Legal(2, steps) && InTimeSince(2, 0, steps)
    ensures Run(2, steps) ==
      Pair(LoopState([], Draining([Establish(0)], [Establish(0)]), Idle, None, map[], map[]),
           ConnState(1, fd, Connecting, New, true, false, [], 0, 0), [])
  {
    hide Legal, Run, InTimeSince;
    steps := Waiting();
    Take(2, steps, Accept(fd, 1));
    steps := steps + [Accept(fd, 1)];
    IsPair(Run(2, steps), LoopState([Establish(0)], Polling, Idle, None, map[], map[]),
            ConnState(1, fd, Connecting, New, true, false, [], 0, 0), []);
    Take(2, steps, PollReturns(1, []));
    steps := steps + [PollReturns(1, [])];
    IsPair(Run(2, steps), LoopState([Establish(0)], Dispatching([]), Idle, None, map[], map[]),
            ConnState(1, fd, Connecting, New, true, false, [], 0, 0), []);
    Take(2, steps, StartDrain(1));
    steps := steps + [StartDrain(1)];
    IsPair(Run(2, steps), LoopState([], Draining([Establish(0)], [Establish(0)]), Idle, None, map[], map[]),
            ConnState(1, fd, Connecting, New, true, false, [], 0, 0), []);
  }

  lemma UpThere(fd: Fd) returns (steps: seq<Step>)
    ensures Legal(2, steps) && InTimeSince(2, 0, steps)
    ensures Run(2, steps) ==
      Pair(LoopState([], Dispatching([]), InEvent(0, false), None, map[fd := 0], map[fd := 0]),
           ConnState(1, fd, Connected, Added, true, false, [Up], 0, 0), [])
  {
    hide Legal, Run, InTimeSince;
    steps := Homed(fd);
    Take(2, steps, RunTask(1));
    steps := steps + [RunTask(1)];
    IsPair(Run(2, steps), LoopState([], Draining([Establish(0)], []), Idle, None, map[fd := 0], map[fd := 0]),
            ConnState(1, fd, Connected, Added, true, false, [Up], 0, 0), []);
    Take(2, steps, EndDrain(1));
    steps := steps + [EndDrain(1)];
    IsPair(Run(2, steps), LoopState([], Polling, Idle, None, map[fd := 0], map[fd := 0]),
            ConnState(1, fd, Connected, Added, true, false, [Up], 0, 0), []);
    Take(2, steps, PollReturns(1, [0]));
    steps := steps + [PollReturns(1, [0])];
    IsPair(Run(2, steps), LoopState([], Dispatching([0]), Idle, None, map[fd := 0], map[fd := 0]),
            ConnState(1, fd, Connected, Added, true, false, [Up], 0, 0), []);
    Take(2, steps, BeginEvent(1));
    steps := steps + [BeginEvent(1)];
    IsPair(Run(2, steps), LoopState([], Dispatching([]), InEvent(0, false), None, map[fd := 0], map[fd := 0]),
            ConnState(1, fd, Connected, Added, true, false, [Up], 0, 0), []);
  }

  lemma SentAndClosed(fd: Fd) returns (steps: seq<Step>)
    ensures Legal(2, steps) && InTimeSince(2, 0, steps)
    ensures Run(2, steps) ==
      Pair(LoopState([Raw(0)], Dispatching([]), InEvent(0, true), None, map[fd := 0], map[]),
           ConnState(1, fd, Disconnected, Deleted, true, false, [Up, Down], 1, 0), [Remove(0)])
  {
    hide Legal, Run, InTimeSince;
    steps := UpThere(fd);
    Take(2, steps, PostRaw(1, 0));
    steps := steps + [PostRaw(1, 0)];
    IsPair(Run(2, steps), LoopState([Raw(0)], Dispatching([]), InEvent(0, false), None, map[fd := 0], map[fd := 0]),
            ConnState(1, fd, Connected, Added, true, false, [Up], 0, 0), []);
    Take(2, steps, OnClose(1));
    steps := steps + [OnClose(1)];
    IsPair(Run(2, steps), LoopState([Raw(0)], Dispatching([]), InEvent(0, true), None, map[fd := 0], map[]),
            ConnState(1, fd, Disconnected, Deleted, true, false, [Up, Down], 1, 0), [Remove(0)]);
  }

  // A send queued by another thread, in time, and a close before its turn: on a sub loop the removal is
  // still under way when the send runs.
  lemma RearmIsReachable(fd: Fd) returns (steps: seq<Step>)
    ensures Legal(2, steps) && InTimeSince(2, 0, steps)
    ensures Run(2, steps) ==
      Pair(LoopState([], Draining([Raw(0)], [Raw(0)]), Idle, None, map[fd := 0], map[]),
           ConnState(1, fd, Disconnected, Deleted, true, false, [Up, Down], 1, 0), [Remove(0)])
    ensures Enabled(Run(2, steps), Rearm(1)) && !DestroyAhead(Run(2, steps), 1) && StillToGo(Run(2, steps), 1)
  {
    hide Legal, Run, InTimeSince;
    steps := SentAndClosed(fd);
    Take(2, steps, EndEvent(1));
    steps := steps + [EndEvent(1)];
    IsPair(Run(2, steps), LoopState([Raw(0)], Dispatching([]), Idle, None, map[fd := 0], map[]),
            ConnState(1, fd, Disconnected, Deleted, true, false, [Up, Down], 1, 0), [Remove(0)]);
    Take(2, steps, StartDrain(1));
    steps := steps + [StartDrain(1)];
    IsPair(Run(2, steps), LoopState([], Draining([Raw(0)], [Raw(0)]), Idle, None, map[fd := 0], map[]),
            ConnState(1, fd, Disconnected, Deleted, true, false, [Up, Down], 1, 0), [Remove(0)]);
  }
}
