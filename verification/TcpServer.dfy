// src/TcpServer.cc as code: connections_ keyed by connection name, nextConnId_, and the round-robin
// choice of loops. The other threads' doings are steps of Lifecycle, recorded in trace, so the
// object's connections_ is the one of a reachable server state.

module TcpServers {
  import opened Common
  import opened Lifecycle
  import opened LifecycleInvariant
  import opened LifecycleTheorems
  import opened ThreadPool

  // ---------------------------------------------------------------- names

  const NAME_BUF_SIZE: nat := 64
  const LONGEST_IP_PORT: nat := 21   // 255.255.255.255:65535
  const INT_MAX: nat := 0x7FFF_FFFF

  function Digit(d: nat): char
    requires d < 10
  {
    '0' + d as char
  }

  // %d
  function Decimal(n: nat): (s: string)
    ensures 0 < |s| && (10 <= n ==> 1 < |s|)
  {
    if n < 10 then [Digit(n)] else Decimal(n / 10) + [Digit(n % 10)]
  }

  // snprintf keeps what fits before the terminating NUL.
  function Printed(full: string): string {
    if |full| < NAME_BUF_SIZE then full else full[..NAME_BUF_SIZE - 1]
  }

  function ConnName(name: string, ipPort: string, id: nat): string {
    name + Printed("-" + ipPort + "#" + Decimal(id))
  }

  lemma {:induction false} DecimalIsInjective(a: nat, b: nat)
    requires Decimal(a) == Decimal(b)
    ensures a == b
  {
    assert Decimal(a)[|Decimal(a)| - 1] == Digit(a % 10);
    assert Decimal(b)[|Decimal(b)| - 1] == Digit(b % 10);
    if 10 <= a && 10 <= b {
      assert Decimal(a)[..|Decimal(a)| - 1] == Decimal(a / 10);
      assert Decimal(b)[..|Decimal(b)| - 1] == Decimal(b / 10);
      DecimalIsInjective(a / 10, b / 10);
    }
  }

  // The number that a string of digits stands for.
  function Value(s: string): nat
    requires AllDigits(s)
  {
    if s == [] then 0 else 10 * Value(s[..|s| - 1]) + (s[|s| - 1] as nat - '0' as nat)
  }

  predicate AllDigits(s: string) {
    forall i :: 0 <= i < |s| ==> '0' <= s[i] <= '9'
  }

  // What is printed reads as the number, with no leading zero.
  lemma {:induction false} DecimalReads(n: nat)
    ensures AllDigits(Decimal(n)) && Value(Decimal(n)) == n
    ensures Decimal(n)[0] == '0' ==> n == 0
  {
    if n < 10 {
      assert Decimal(n)[..0] == "";
    } else {
      DecimalReads(n / 10);
      assert Decimal(n)[..|Decimal(n)| - 1] == Decimal(n / 10);
    }
  }

  predicate IsName(full: string, name: string, ipPort: string, id: nat) {
    var at := |name| + |ipPort| + 2;
    && at < |full| && full[..at] == name + "-" + ipPort + "#"
    && AllDigits(full[at..]) && Value(full[at..]) == id && (full[at] == '0' ==> id == 0)
  }

  // A connection's name: the server's, its address and the number, in full.
  lemma NameReads(name: string, ipPort: string, id: nat)
    requires |ipPort| <= LONGEST_IP_PORT && id <= INT_MAX
    ensures IsName(ConnName(name, ipPort, id), name, ipPort, id)
  {
    TenDigits(id);
    DecimalReads(id);
    var at := |name| + |ipPort| + 2;
    assert ConnName(name, ipPort, id) == name + "-" + ipPort + "#" + Decimal(id);
    assert ConnName(name, ipPort, id)[at..] == Decimal(id);
  }

  lemma TenDigits(id: nat)
    requires id <= INT_MAX
    ensures |Decimal(id)| <= 10
  {
    assert Power10(10) == 100_0000_0000 by {
      assert Power10(2) == 100 && Power10(4) == 1_0000 && Power10(6) == 100_0000 && Power10(8) == 1_0000_0000;
    }
    DecimalLength(id, 10);
  }

  function Power10(k: nat): nat {
    if k == 0 then 1 else 10 * Power10(k - 1)
  }

  lemma {:induction false} DecimalLength(n: nat, k: nat)
    requires 0 < k && n < Power10(k)
    ensures |Decimal(n)| <= k
  {
    assert Power10(0) == 1 && Power10(1) == 10;
    if 10 <= n {
      DecimalLength(n / 10, k - 1);
    }
  }

  // Two connections of one server never have the same name.
  lemma NamesAreDistinct(name: string, ipPort: string, a: nat, b: nat)
    requires |ipPort| <= LONGEST_IP_PORT && a <= INT_MAX && b <= INT_MAX
    ensures ConnName(name, ipPort, a) == ConnName(name, ipPort, b) <==> a == b
  {
    TenDigits(a);
    TenDigits(b);
    var prefix := "-" + ipPort + "#";
    if ConnName(name, ipPort, a) == ConnName(name, ipPort, b) {
      assert (prefix + Decimal(a)) == ConnName(name, ipPort, a)[|name|..];
      assert (prefix + Decimal(b)) == ConnName(name, ipPort, b)[|name|..];
      assert Decimal(a) == (prefix + Decimal(a))[|prefix|..];
      assert Decimal(b) == (prefix + Decimal(b))[|prefix|..];
      DecimalIsInjective(a, b);
    }
  }

  // ---------------------------------------------------------------- the server object

  class TcpServer {
    const name: string
    const ipPort: string
    const threadPool: EventLoopThreadPool<Lid>
    var connections: map<string, Cid>
    var nextConnId: nat
    ghost const nLoops: nat
    ghost var trace: seq<Step>

    ghost function State(): Server
      reads this
      requires Legal(nLoops, trace)
    {
      Run(nLoops, trace)
    }

    // Ids start at 1.
    function Name(c: Cid): string {
      ConnName(name, ipPort, c + 1)
    }

    ghost predicate Valid()
      reads this, threadPool
    {
      && |ipPort| <= LONGEST_IP_PORT
      && 0 < nLoops && Legal(nLoops, trace) && |State().loops| == nLoops
      && threadPool.Valid() && threadPool.baseLoop == MAIN
      && (forall l :: l in threadPool.loops ==> 0 < l < nLoops)
      && nextConnId == |State().conns| + 1 && nextConnId <= INT_MAX + 1
      && (forall c :: c in State().connections ==> Name(c) in connections && connections[Name(c)] == c)
      && (forall n :: n in connections ==> connections[n] in State().connections && n == Name(connections[n]))
    }

    constructor (name: string, ipPort: string, threadPool: EventLoopThreadPool<Lid>, ghost nLoops: nat)
      requires |ipPort| <= LONGEST_IP_PORT && 0 < nLoops
      requires threadPool.Valid() && threadPool.baseLoop == MAIN
      requires forall l :: l in threadPool.loops ==> 0 < l < nLoops
      ensures Valid() && State() == Init(nLoops) && connections == map[]
    {
      this.name, this.ipPort, this.threadPool, this.nLoops := name, ipPort, threadPool, nLoops;
      connections, nextConnId, trace := map[], 1, [];
    }

    // newConnection: the connection gets the next loop of the ring, a name nobody has, and its
    // entry in connections_.
    method NewConnection(sockfd: Fd) returns (ioLoop: Lid, connName: string)
      requires Valid() && nextConnId <= INT_MAX
      requires State().loops[MAIN].phase.Dispatching? && Ready(State().loops[MAIN])
      requires forall c: Cid :: c < |State().conns| && State().conns[c].alive ==> State().conns[c].fd != sockfd
      modifies this`connections, this`nextConnId, this`trace, threadPool`next
      ensures Valid()
      ensures ioLoop == old(if threadPool.loops == [] then MAIN else threadPool.loops[threadPool.next])
      ensures Enabled(old(State()), Accept(sockfd, ioLoop)) && State() == Next(old(State()), Accept(sockfd, ioLoop))
      ensures IsName(connName, name, ipPort, old(nextConnId)) && nextConnId == old(nextConnId) + 1
      ensures connName !in old(connections) && connections == old(connections)[connName := |old(State()).conns|]
    {
      hide Inv, Next, ConnName, IsName;
      InvOverRuns(nLoops, trace);
      ioLoop := threadPool.GetNextLoop();
      assert threadPool.loops != [] ==> ioLoop in threadPool.loops;
      var id := nextConnId;
      connName := ConnName(name, ipPort, id);
      nextConnId := nextConnId + 1;
      NameIsNew(id - 1);
      NameReads(name, ipPort, id);
      Accepted(sockfd, ioLoop);
      connections := connections[connName := id - 1];
      Extend(nLoops, trace, Accept(sockfd, ioLoop));
      trace := trace + [Accept(sockfd, ioLoop)];
    }

    lemma Accepted(fd: Fd, home: Lid)
      requires 0 < nLoops && Legal(nLoops, trace) && Enabled(State(), Accept(fd, home))
      ensures var s, s' := State(), Next(State(), Accept(fd, home));
        && s'.connections == s.connections + {|s.conns|} && |s'.conns| == |s.conns| + 1 && |s'.loops| == |s.loops|
    {
    }

    lemma NameIsNew(c: Cid)
      requires |ipPort| <= LONGEST_IP_PORT && Legal(nLoops, trace) && Inv(State())
      requires c == |State().conns| && c + 1 <= INT_MAX
      requires forall n :: n in connections ==> connections[n] in State().connections && n == Name(connections[n])
      ensures Name(c) !in connections
    {
      if Name(c) in connections {
        var d := connections[Name(c)];
        NamesAreDistinct(name, ipPort, c + 1, d + 1);
      }
    }

    // removeConnectionInLoop, run as a task or, on the main loop's own thread, inside handleClose:
    // exactly this connection's entry goes, and its destruction is queued on its loop. The entry is
    // there unless the connection has been closed and removed before.
    method RemoveConnectionInLoop(conn: Cid, ghost step: Step)
      requires Valid() && Enabled(State(), step)
      requires || (step == RunTask(MAIN) && State().loops[MAIN].phase.rest[0] == Remove(conn))
               || (step == OnClose(MAIN) && State().loops[MAIN].frame.c == conn)
      modifies this`connections, this`trace
      ensures Valid() && connections == old(connections) - {Name(conn)}
      ensures Name(conn) in old(connections) <==> conn in old(State()).connections
      ensures old(Harmless(nLoops, trace)) ==> Name(conn) in old(connections)
      ensures Enabled(Next(old(State()), step), QueueDestroy)
        && State() == Next(Next(old(State()), step), QueueDestroy)
    {
      hide Next, Inv, ConnName, Harmless;
      ErasesOne(conn, step);
      EntryIsThere(conn, step);
      connections := connections - {Name(conn)};
      Extend(nLoops, trace, step);
      trace := trace + [step];
      Extend(nLoops, trace, QueueDestroy);
      trace := trace + [QueueDestroy];
    }

    lemma ErasesOne(conn: Cid, step: Step)
      requires Valid() && Enabled(State(), step)
      requires || (step == RunTask(MAIN) && State().loops[MAIN].phase.rest[0] == Remove(conn))
               || (step == OnClose(MAIN) && State().loops[MAIN].frame.c == conn)
      ensures conn < |State().conns|
      ensures Next(State(), step).connections == State().connections - {conn}
      ensures |Next(State(), step).conns| == |State().conns|
      ensures Enabled(Next(State(), step), QueueDestroy)
      ensures |Next(Next(State(), step), QueueDestroy).loops| == |State().loops|
      ensures Next(Next(State(), step), QueueDestroy).connections == State().connections - {conn}
      ensures |Next(Next(State(), step), QueueDestroy).conns| == |State().conns|
      ensures forall c :: c in State().connections && c != conn ==> Name(c) != Name(conn)
    {
      hide Inv, Next, ConnName;
      var s := State();
      InvOverRuns(nLoops, trace);
      if step == OnClose(MAIN) {
        CloseErases(s, conn);
      } else {
        TaskErases(s, conn);
      }
      QueueKeepsConnections(Next(s, step));
      forall c | c in s.connections && c != conn ensures Name(c) != Name(conn) {
        InConnectionsIsMade(s, c);
        NamesAreDistinct(name, ipPort, c + 1, conn + 1);
      }
    }

    lemma EntryIsThere(conn: Cid, step: Step)
      requires Valid() && Enabled(State(), step)
      requires || (step == RunTask(MAIN) && State().loops[MAIN].phase.rest[0] == Remove(conn))
               || (step == OnClose(MAIN) && State().loops[MAIN].frame.c == conn)
      ensures Harmless(nLoops, trace) ==> conn in State().connections
      ensures Name(conn) in connections <==> conn in State().connections
    {
      hide Inv, Next, ConnName;
      InvOverRuns(nLoops, trace);
      if step == OnClose(MAIN) {
        CloseErases(State(), conn);
      } else {
        TaskErases(State(), conn);
      }
      if Harmless(nLoops, trace) {
        ClosedAtMostOnce(nLoops, trace, conn);
        FirstRemoval(State(), step, conn);
      }
      if Name(conn) in connections {
        var c := connections[Name(conn)];
        InConnectionsIsMade(State(), c);
        NamesAreDistinct(name, ipPort, c + 1, conn + 1);
      }
    }

    // Whatever the other threads do, and the main loop elsewhere, connections_ stays as it is.
    ghost method Elsewhere(step: Step)
      requires Valid() && Enabled(State(), step)
      requires !step.Accept? && step != OnClose(MAIN)
      requires step == RunTask(MAIN) ==> !State().loops[MAIN].phase.rest[0].Remove?
      modifies this`trace
      ensures Valid() && State() == Next(old(State()), step)
    {
      RemovalIsMains(step);
      StepKeepsLoops(State(), step);
      Extend(nLoops, trace, step);
      trace := trace + [step];
    }

    lemma RemovalIsMains(step: Step)
      requires Valid() && Enabled(State(), step)
      requires !step.Accept? && step != OnClose(MAIN)
      requires step == RunTask(MAIN) ==> !State().loops[MAIN].phase.rest[0].Remove?
      ensures Next(State(), step).connections == State().connections
      ensures |Next(State(), step).conns| == |State().conns|
    {
      InvOverRuns(nLoops, trace);
      hide Inv;
      if step.RunTask? {
        TaskKeepsConnections(State(), step.l);
      }
    }
  }

  // A removal is only ever queued on the main loop.
  lemma TaskKeepsConnections(s: Server, l: Lid)
    requires Inv(s) && Enabled(s, RunTask(l))
    requires l == MAIN ==> !s.loops[l].phase.rest[0].Remove?
    ensures Next(s, RunTask(l)).connections == s.connections && |Next(s, RunTask(l)).conns| == |s.conns|
  {
    hide Inv, InvBut, TasksFit, Count, CountsMoved;
    var t := s.loops[l].phase.rest[0];
    if !t.Raw? {
      PopPiece(s, l);
      Facts(s, t.c);
      TokenTells(s, l, t);
    }
  }

  lemma QueueKeepsConnections(s: Server)
    requires Enabled(s, QueueDestroy)
    ensures var s' := Next(s, QueueDestroy);
      s'.connections == s.connections && |s'.conns| == |s.conns| && |s'.loops| == |s.loops|
  {
  }

  lemma InConnectionsIsMade(s: Server, c: Cid)
    requires Inv(s) && c in s.connections
    ensures c < |s.conns|
  {
  }

  predicate ErasedOnly(s: Server, s': Server, c: Cid) {
    && c < |s.conns|
    && s'.connections == s.connections - {c} && |s'.conns| == |s.conns| && |s'.loops| == |s.loops|
    && Enabled(s', QueueDestroy)
  }

  lemma CloseErases(s: Server, c: Cid)
    requires Inv(s) && Enabled(s, OnClose(MAIN)) && s.loops[MAIN].frame.c == c
    ensures ErasedOnly(s, Next(s, OnClose(MAIN)), c)
  {
    hide Inv, TasksFit;
    FrameFacts(s, MAIN);
    Facts(s, c);
  }

  lemma TaskErases(s: Server, c: Cid)
    requires Inv(s) && Enabled(s, RunTask(MAIN)) && s.loops[MAIN].phase.rest[0] == Remove(c)
    ensures ErasedOnly(s, Next(s, RunTask(MAIN)), c)
  {
    PopPiece(s, MAIN);
    Facts(s, c);
    TokenTells(s, MAIN, Remove(c));
  }

  // A removal of a connection that has been closed only once finds it in connections_.
  lemma FirstRemoval(s: Server, step: Step, c: Cid)
    requires Inv(s) && Enabled(s, step) && SoonGone(s, c) && s.conns[c].closes <= 1
    requires || (step == RunTask(MAIN) && s.loops[MAIN].phase.rest[0] == Remove(c))
             || (step == OnClose(MAIN) && s.loops[MAIN].frame.c == c)
    ensures c in s.connections
  {
    Facts(s, c);
    if step == OnClose(MAIN) {
      FrameFacts(s, MAIN);
    } else {
      assert s.loops[MAIN].phase.rest[0] in s.loops[MAIN].phase.rest;
      assert 0 < Count(s.loops[MAIN], Remove(c));
    }
  }
}
