// Over whole runs: what callers hand over is what the loop comes to, what the kernel takes is what
// is on the wire, and a shutdown from whichever thread closes the write side.

module Handover {
  import opened Common
  import opened ConnModel
  import opened ConnTheorems
  import opened TaskQueue
  import opened ConnEffects

  // ---------------------------------------------------------------- the wire

  function WireTaken(cfg: Config, es: seq<Event>): seq<Byte>
    requires Legal(cfg, es)
  {
    if es == [] then [] else WireTaken(cfg, Front(es)) + Taken(Run(cfg, Front(es)), Last(es))
  }

  function Counts(cfg: Config, es: seq<Event>): nat
    requires Legal(cfg, es)
  {
    if es == [] then 0 else Counts(cfg, Front(es)) + Count(Run(cfg, Front(es)), Last(es))
  }

  // The wire is what the kernel took at each system call the handlers make, and as long as the counts
  // it answered.
  lemma {:induction false} WireIsWhatWasTaken(cfg: Config, es: seq<Event>)
    requires Legal(cfg, es)
    ensures Run(cfg, es).wire == WireTaken(cfg, es)
    ensures |Run(cfg, es).wire| == Counts(cfg, es)
  {
    if es != [] {
      WireIsWhatWasTaken(cfg, Front(es));
      RunIsConsistent(cfg, Front(es));
      hide Next, Enabled;
      EffectOfEvent(Run(cfg, Front(es)), Last(es));
    }
  }

  // A flush, in whatever state: exactly the bytes the kernel answered for go, from the front of the
  // backlog, if EPOLLOUT is on; otherwise nothing does.
  lemma FlushExactly(c: Conn, w: IoResult)
    requires Consistent(c) && Enabled(c, Writable(w))
    ensures var c' := Next(c, Writable(w));
      if c.writing && w.Done? && 0 < w.n then
        && c'.wire == c.wire + c.output[..w.n] && c'.output == c.output[w.n..]
        && (c'.writing <==> c'.output != [])
      else c' == c
  {
    EffectOfEvent(c, Writable(w));
    if !(c.writing && w.Done? && 0 < w.n) {
      assert c.output[0..] == c.output && c.wire + [] == c.wire && c.posted + [] == c.posted;
    }
  }

  // ---------------------------------------------------------------- messages

  // The messages of the send calls that other threads made while the connection was up.
  function QueuedCalls(cfg: Config, es: seq<Event>): seq<seq<Byte>>
    requires Legal(cfg, es)
  {
    if es == [] then []
    else
      QueuedCalls(cfg, Front(es)) +
        if Last(es).UserQueueSend? && Run(cfg, Front(es)).state == Connected then [Last(es).data] else []
  }

  // And of those made on the loop's thread.
  function DirectCalls(cfg: Config, es: seq<Event>): seq<seq<Byte>>
    requires Legal(cfg, es)
  {
    if es == [] then []
    else
      DirectCalls(cfg, Front(es)) +
        if Last(es).UserSend? && Run(cfg, Front(es)).state == Connected then [Last(es).data] else []
  }

  // The messages in a queue of tasks.
  function MessagesIn(tasks: seq<ConnModel.Task>): seq<seq<Byte>> {
    if tasks == [] then [] else MessagesIn(Front(tasks)) + if Last(tasks).SendTask? then [Last(tasks).data] else []
  }

  // What became of a message when the loop came to it.
  datatype Fate = Fate(queued: bool, data: seq<Byte>, lost: bool)

  function Fates(cfg: Config, es: seq<Event>): seq<Fate>
    requires Legal(cfg, es)
  {
    if es == [] then []
    else
      Fates(cfg, Front(es)) + FateBy(Run(cfg, Front(es)), Last(es))
  }

  function FateBy(c: Conn, e: Event): (more: seq<Fate>)
    requires Enabled(c, e)
    ensures |more| <= 1
  {
    match Sending(c, e)
    case Some(data) => [Fate(e.Task?, data, PeerGone(c, e))]
    case None => []
  }

  function MessagesOf(fates: seq<Fate>, queued: bool): seq<seq<Byte>> {
    if fates == [] then []
    else MessagesOf(Front(fates), queued) + if Last(fates).queued == queued then [Last(fates).data] else []
  }

  // The bytes of the messages that were not lost.
  function KeptOf(fates: seq<Fate>): seq<Byte> {
    if fates == [] then [] else KeptOf(Front(fates)) + if Last(fates).lost then [] else Last(fates).data
  }

  lemma FatesSnoc(fates: seq<Fate>, more: seq<Fate>)
    requires |more| <= 1
    ensures forall queued :: MessagesOf(fates + more, queued) == MessagesOf(fates, queued) + MessagesOf(more, queued)
    ensures KeptOf(fates + more) == KeptOf(fates) + KeptOf(more)
  {
    if more == [] {
      assert fates + more == fates;
    } else {
      assert Front(fates + more) == fates && Last(fates + more) == more[0] && Front(more) == [];
    }
  }

  // One event's part of the accounts.
  lemma FateIs(c: Conn, e: Event)
    requires Enabled(c, e)
    ensures MessagesOf(FateBy(c, e), true) ==
      if e.Task? && c.posted[c.ran].SendTask? then [c.posted[c.ran].data] else []
    ensures MessagesOf(FateBy(c, e), false) == if e.UserSend? && c.state == Connected then [e.data] else []
    ensures KeptOf(FateBy(c, e)) == SentBy(Accepts(c, e))
  {
    var more := FateBy(c, e);
    assert more != [] ==> Front(more) == [];
  }

  lemma {:induction false} MessagesConcat(a: seq<ConnModel.Task>, b: seq<ConnModel.Task>)
    ensures MessagesIn(a + b) == MessagesIn(a) + MessagesIn(b)
  {
    if b == [] {
      assert a + b == a;
    } else {
      MessagesConcat(a, Front(b));
      assert Front(a + b) == a + Front(b);
    }
  }

  lemma OneMessage(t: ConnModel.Task)
    ensures MessagesIn([t]) == if t.SendTask? then [t.data] else []
  {
    assert Front([t]) == [];
  }

  // Only a send call from another thread posts a message, and it posts its own.
  lemma PostedMessages(c: Conn, e: Event)
    requires Consistent(c) && Enabled(c, e)
    ensures MessagesIn(Next(c, e).posted)
         == MessagesIn(c.posted) + if e.UserQueueSend? && c.state == Connected then [e.data] else []
  {
    EffectOfEvent(c, e);
    var more := Posts(c, e, Next(c, e));
    MessagesConcat(c.posted, more);
    NewMessage(c, e);
    hide Next, Enabled, Consistent, Posts;
  }

  lemma NewMessage(c: Conn, e: Event)
    requires Enabled(c, e)
    ensures MessagesIn(Posts(c, e, Next(c, e))) == if e.UserQueueSend? && c.state == Connected then [e.data] else []
  {
    var more := Posts(c, e, Next(c, e));
    hide Next;
    assert |more| <= 1;
    if more != [] {
      assert more == [more[0]];
      OneMessage(more[0]);
    }
  }

  // The queue holds the messages of the queued calls, each as it was given and in their order.
  lemma {:induction false} QueuedAsGiven(cfg: Config, es: seq<Event>)
    requires Legal(cfg, es)
    ensures MessagesIn(Run(cfg, es).posted) == QueuedCalls(cfg, es)
  {
    if es != [] {
      QueuedAsGiven(cfg, Front(es));
      RunIsConsistent(cfg, Front(es));
      PostedMessages(Run(cfg, Front(es)), Last(es));
    }
  }

  // The messages that the loop has come to, from the queue, are those it has run.
  lemma {:induction false} RanAsQueued(cfg: Config, es: seq<Event>)
    requires Legal(cfg, es)
    ensures Run(cfg, es).ran <= |Run(cfg, es).posted|
    ensures MessagesOf(Fates(cfg, es), true) == MessagesIn(Run(cfg, es).posted[..Run(cfg, es).ran])
    ensures MessagesOf(Fates(cfg, es), false) == DirectCalls(cfg, es)
  {
    RunIsConsistent(cfg, es);
    if es != [] {
      var c, e := Run(cfg, Front(es)), Last(es);
      RanAsQueued(cfg, Front(es));
      RunIsConsistent(cfg, Front(es));
      RanStep(c, e);
      FateIs(c, e);
      FatesSnoc(Fates(cfg, Front(es)), FateBy(c, e));
      hide Next, Enabled, Consistent, FateBy, MessagesOf, KeptOf, MessagesIn;
    }
  }

  lemma RanStep(c: Conn, e: Event)
    requires Consistent(c) && Enabled(c, e)
    ensures var c' := Next(c, e);
      && c'.ran <= |c'.posted|
      && MessagesIn(c'.posted[..c'.ran]) == MessagesIn(c.posted[..c.ran]) +
           if e.Task? && c.posted[c.ran].SendTask? then [c.posted[c.ran].data] else []
  {
    EffectOfEvent(c, e);
    var c' := Next(c, e);
    if e.Task? {
      assert c'.posted[..c'.ran] == c.posted[..c.ran] + [c.posted[c.ran]];
      MessagesConcat(c.posted[..c.ran], [c.posted[c.ran]]);
      OneMessage(c.posted[c.ran]);
    } else {
      assert c'.posted[..c'.ran] == c.posted[..c.ran];
    }
  }

  // What was accepted is what was not lost.
  lemma {:induction false} KeptIsAccepted(cfg: Config, es: seq<Event>)
    requires Legal(cfg, es)
    ensures KeptOf(Fates(cfg, es)) == SendBytes(Accepted(cfg, es))
  {
    if es != [] {
      var c, e := Run(cfg, Front(es)), Last(es);
      KeptIsAccepted(cfg, Front(es));
      SendBytesSnoc(Accepted(cfg, Front(es)), Accepts(c, e));
      FateIs(c, e);
      FatesSnoc(Fates(cfg, Front(es)), FateBy(c, e));
      hide Next, Enabled, FateBy, Accepts, KeptOf, SendBytes;
    }
  }

  lemma QueueInTwo(tasks: seq<ConnModel.Task>, n: nat)
    requires n <= |tasks|
    ensures MessagesIn(tasks) == MessagesIn(tasks[..n]) + MessagesIn(tasks[n..])
  {
    MessagesConcat(tasks[..n], tasks[n..]);
    assert tasks[..n] + tasks[n..] == tasks;
  }

  // Every message handed to send() while the connection was up, on whichever thread, is as it was given:
  // the loop has come to it, in the order of its thread's calls, or it is still in the queue, in that
  // order. What was accepted of send() is the messages the loop came to, without those that found
  // the peer gone.
  lemma MessagesAsGiven(cfg: Config, es: seq<Event>)
    requires Legal(cfg, es)
    ensures Run(cfg, es).ran <= |Run(cfg, es).posted|
    ensures QueuedCalls(cfg, es)
         == MessagesOf(Fates(cfg, es), true) + MessagesIn(Run(cfg, es).posted[Run(cfg, es).ran..])
    ensures MessagesOf(Fates(cfg, es), false) == DirectCalls(cfg, es)
    ensures KeptOf(Fates(cfg, es)) == SendBytes(Accepted(cfg, es))
  {
    var c := Run(cfg, es);
    RanAsQueued(cfg, es);
    QueuedAsGiven(cfg, es);
    KeptIsAccepted(cfg, es);
    hide Run, Legal, Fates, MessagesOf, KeptOf, MessagesIn, QueuedCalls, DirectCalls, SendBytes, Accepted;
    QueueInTwo(c.posted, c.ran);
  }

  // ---------------------------------------------------------------- file requests

  // The sendFile calls made while the connection was up, numbered.
  function Requests(cfg: Config, es: seq<Event>): seq<FileJob>
    requires Legal(cfg, es)
  {
    if es == [] then []
    else
      var before := Requests(cfg, Front(es));
      before +
        if Run(cfg, Front(es)).state != Connected then []
        else
          match Last(es)
          case UserSendFile(file, offset, count, _) => [FileJob(|before|, file, offset, count)]
          case UserQueueSendFile(file, offset, count) => [FileJob(|before|, file, offset, count)]
          case _ => []
  }

  // Each transfer's request is the call's, and a queued call's first step asks for all of it.
  lemma {:induction false} RequestsAsGiven(cfg: Config, es: seq<Event>)
    requires Legal(cfg, es)
    ensures Run(cfg, es).jobs == Requests(cfg, es)
    ensures es != [] && Last(es).UserQueueSendFile? && Run(cfg, Front(es)).state == Connected ==>
      Run(cfg, es).posted == Run(cfg, Front(es)).posted + [SendFileTask(Last(Requests(cfg, es)))]
  {
    if es != [] {
      RequestsAsGiven(cfg, Front(es));
      RunIsConsistent(cfg, Front(es));
      EffectOfEvent(Run(cfg, Front(es)), Last(es));
      hide Next, Enabled;
    }
  }

  // ---------------------------------------------------------------- shutdown from any thread

  // A connection that is closing has closed its write side, or has a backlog, or its shutdown is
  // still in the queue.
  ghost predicate WillShut(c: Conn) {
    c.state == Disconnecting ==> c.halfCloses != [] || c.output != [] || exists i: nat :: ShutdownAt(c, i)
  }

  lemma WillShutStep(c: Conn, e: Event)
    requires Consistent(c) && Enabled(c, e) && WillShut(c)
    ensures WillShut(Next(c, e))
  {
    EffectOfEvent(c, e);
    var c' := Next(c, e);
    if c'.state == Disconnecting && c'.halfCloses == [] && c'.output == [] {
      if e.UserQueueShutdown? && c.state == Connected {
        assert ShutdownAt(c', |c.posted|);
      } else if c.state == Disconnecting && c.output == [] {
        var i: nat :| ShutdownAt(c, i);
        assert ShutdownAt(c', i);
      }
    }
  }

  lemma {:induction false} WillShutOverRuns(cfg: Config, es: seq<Event>)
    requires Legal(cfg, es)
    ensures WillShut(Run(cfg, es))
  {
    if es != [] {
      WillShutOverRuns(cfg, Front(es));
      RunIsConsistent(cfg, Front(es));
      WillShutStep(Run(cfg, Front(es)), Last(es));
    }
  }

  // With the shutdown out of the queue and the backlog gone, a closing connection has closed its write
  // side; and a queued shutdown closes it when its turn comes, exactly if EPOLLOUT is off.
  lemma ShutdownTakesEffect(cfg: Config, es: seq<Event>)
    requires Legal(cfg, es)
    ensures var c := Run(cfg, es);
      c.state == Disconnecting && c.output == [] && (forall i: nat :: !ShutdownAt(c, i)) ==> c.halfCloses != []
    ensures es != [] && Last(es).Task? ==>
      var c, c' := Run(cfg, Front(es)), Run(cfg, es);
      c.posted[c.ran].ShutdownTask? ==>
        c'.halfCloses == (if c.writing then c.halfCloses else c.halfCloses + [c.wire]) && c'.wire == c.wire
  {
    WillShutOverRuns(cfg, es);
    if es != [] {
      RunIsConsistent(cfg, Front(es));
      EffectOfEvent(Run(cfg, Front(es)), Last(es));
      hide Next;
    }
  }
}
