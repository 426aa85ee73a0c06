// example/testserver.cc on the real connection object: whatever the peer, the kernel and the loop
// do, in any order, the object goes through a run of EchoModel, and so echoes.

module EchoServers {
  import opened Common
  import opened Buffers
  import opened ConnModel
  import opened EchoModel
  import opened TcpConnections

  // What can happen to the server's connection next. Answers that would break a system call's
  // contract are cut down to it, and events that cannot occur in the present state do nothing.
  datatype Stimulus =
    | Arrives(data: seq<Byte>, answer: IoResult)
    | SocketWritable(answer: IoResult)
    | LoopRunsTask
    | HangsUp
    | IsEstablished
    | IsDestroyed

  function AtMost(shut: bool, answer: IoResult, room: nat): (r: IoResult)
    ensures r.Done? ==> r.n <= room && (shut ==> r.n == 0)
  {
    if answer.Failed? then answer
    else if shut then Done(0)
    else if room < answer.n then Done(room)
    else answer
  }

  // An answer that breaks no contract is left as it is.
  predicate Kept(shut: bool, answer: IoResult, room: nat, given: IoResult) {
    answer.Failed? || (answer.n <= room && (shut ==> answer.n == 0)) ==> given == answer
  }

  // Every stimulus that can occur in the present state counts, with all the data there is room for.
  predicate Means(c: Conn, s: Stimulus, room: nat, ev: Option<EchoEvent>) {
    match s
    case Arrives(data, answer) =>
      if c.reading && c.index == Added && data != [] && 0 < room then
        ev.Some? && ev.value.Message? && ev.value.data == data[..if |data| < room then |data| else room]
        && Kept(c.halfCloses != [], answer, |c.input + ev.value.data|, ev.value.w)
      else ev == None
    case SocketWritable(answer) =>
      if c.state != Connecting && (c.writing ==> c.index == Added) then
        ev.Some? && ev.value.Flush? && Kept(c.halfCloses != [], answer, |c.output|, ev.value.w)
      else ev == None
    case LoopRunsTask => ev == if c.ran < |c.posted| then Some(Callback) else None
    case HangsUp => ev == if c.index != New then Some(Down) else None
    case IsEstablished => ev == if c.state == Connecting then Some(Up) else None
    case IsDestroyed => ev == if c.state != Connecting then Some(Gone) else None
  }

  // What a stimulus amounts to in a given state, when readFd has room for so many bytes.
  function Meaning(c: Conn, s: Stimulus, room: nat): (ev: Option<EchoEvent>)
    ensures ev.Some? ==> EchoEnabled(c, ev.value)
    ensures Means(c, s, room, ev)
  {
    match s
    case Arrives(data, answer) =>
      var got := if |data| <= room then data else data[..room];
      if c.reading && c.index == Added && got != []
      then Some(Message(got, AtMost(c.halfCloses != [], answer, |c.input + got|)))
      else None
    case SocketWritable(answer) =>
      if c.state != Connecting && (c.writing ==> c.index == Added)
      then Some(Flush(AtMost(c.halfCloses != [], answer, |c.output|)))
      else None
    case LoopRunsTask => if c.ran < |c.posted| then Some(Callback) else None
    case HangsUp => if c.index != New then Some(Down) else None
    case IsEstablished => if c.state == Connecting then Some(Up) else None
    case IsDestroyed => if c.state != Connecting then Some(Gone) else None
  }

  // What a whole script amounts to from a fresh connection on.
  function Meanings(cfg: Config, script: seq<Stimulus>, rooms: seq<nat>): (evs: seq<EchoEvent>)
    requires |rooms| == |script|
    ensures EchoLegal(cfg, evs)
  {
    if script == [] then []
    else
      var before := Meanings(cfg, Front(script), Front(rooms));
      var ev := Meaning(EchoRun(cfg, before), Last(script), Last(rooms));
      if ev.None? then before else (ExtendEcho(cfg, before, ev.value); before + [ev.value])
  }

  // EchoServer::onMessage.
  method OnMessage(conn: TcpConnection, w: IoResult)
    requires conn.Valid()
    requires conn.state == Connected ==> WriteLegal(conn.View(), conn.View().input, w)
    modifies conn`posted, conn.inputBuffer, conn.outputBuffer, conn.outputBuffer.buffer, conn.socket`wire
    modifies conn.channel`events, conn.channel`index, conn.poller
    ensures conn.Valid() && conn.poller.OnlyTouched(conn.channel)
    ensures conn.inputBuffer.buffer == old(conn.inputBuffer.buffer)
    ensures conn.outputBuffer.buffer == old(conn.outputBuffer.buffer) || fresh(conn.outputBuffer.buffer)
    ensures conn.View() == ConnModel.Send(old(conn.View()).(input := []), old(conn.View()).input, w)
  {
    hide Reactor.Has, Reactor.Channel.Usable;
    var msg := conn.inputBuffer.RetrieveAllAsString();
    conn.Send(msg, true, w);
  }

  // handleRead with onMessage as its message callback.
  method ReadAndEcho(conn: TcpConnection, data: seq<Byte>, w: IoResult)
    requires conn.Valid() && EchoEnabled(conn.View(), Message(data, w))
    requires |data| <= ReadRoom(conn.inputBuffer.WritableBytes())
    modifies conn`posted, conn`state, conn.inputBuffer, conn.inputBuffer.buffer
    modifies conn.outputBuffer, conn.outputBuffer.buffer, conn.socket`wire
    modifies conn.channel`events, conn.channel`index, conn.poller
    ensures conn.Valid() && conn.poller.OnlyTouched(conn.channel)
    ensures conn.inputBuffer.buffer == old(conn.inputBuffer.buffer) || fresh(conn.inputBuffer.buffer)
    ensures conn.outputBuffer.buffer == old(conn.outputBuffer.buffer) || fresh(conn.outputBuffer.buffer)
    ensures conn.View() == EchoNext(old(conn.View()), Message(data, w))
  {
    hide Reactor.Has, Reactor.Channel.Usable;
    var outcome := conn.HandleRead(Bytes(data));
    OnMessage(conn, w);
  }

  method React(conn: TcpConnection, s: Stimulus)
    requires conn.Valid() && Idle(conn.View())
    modifies conn, conn.inputBuffer, conn.inputBuffer.buffer
    modifies conn.outputBuffer, conn.outputBuffer.buffer, conn.socket
    modifies conn.channel, conn.poller
    ensures conn.Valid() && conn.poller.OnlyTouched(conn.channel)
    ensures conn.inputBuffer.buffer == old(conn.inputBuffer.buffer) || fresh(conn.inputBuffer.buffer)
    ensures conn.outputBuffer.buffer == old(conn.outputBuffer.buffer) || fresh(conn.outputBuffer.buffer)
    ensures var c := old(conn.View());
      var ev := Meaning(c, s, old(ReadRoom(conn.inputBuffer.WritableBytes())));
      conn.View() == if ev.Some? then EchoNext(c, ev.value) else c
  {
    hide Reactor.Has, Reactor.Channel.Usable, ConnModel.SendInLoop, ConnModel.HandleWrite, ConnModel.Update;
    match s {
      case Arrives(data, answer) =>
        var room := ReadRoom(conn.inputBuffer.WritableBytes());
        var got := if |data| <= room then data else data[..room];
        if conn.channel.IsReading() && conn.channel.index == Added && got != [] {
          assert conn.View().input + got == got;
          ReadAndEcho(conn, got, AtMost(conn.socket.halfCloses != [], answer, |got|));
        }
      case SocketWritable(answer) =>
        if conn.state != Connecting && (conn.channel.IsWriting() ==> conn.channel.index == Added) {
          conn.HandleWrite(AtMost(conn.socket.halfCloses != [], answer, conn.outputBuffer.ReadableBytes()));
        }
      case LoopRunsTask =>
        if conn.ran < |conn.posted| {
          assert conn.posted[conn.ran] in conn.View().posted;
          conn.RunTask(Done(0));
        }
      case HangsUp =>
        if conn.channel.index != New {
          conn.HandleClose();
        }
      case IsEstablished =>
        if conn.state == Connecting {
          conn.ConnectEstablished();
        }
      case IsDestroyed =>
        if conn.state != Connecting {
          conn.ConnectDestroyed();
        }
    }
  }

  lemma ExtendEcho(cfg: Config, evs: seq<EchoEvent>, ev: EchoEvent)
    requires EchoLegal(cfg, evs) && EchoEnabled(EchoRun(cfg, evs), ev)
    ensures EchoLegal(cfg, evs + [ev]) && EchoRun(cfg, evs + [ev]) == EchoNext(EchoRun(cfg, evs), ev)
  {
    assert Front(evs + [ev]) == evs;
  }

  // A fresh connection under any script: what is on the wire followed by what is still buffered is
  // all that was read, exactly when no write has faulted, and nothing read is left behind. rooms
  // records how much each readFd could take, which is never less than 64 KB.
  method Serve(conn: TcpConnection, script: seq<Stimulus>) returns (ghost rooms: seq<nat>)
    requires conn.Valid() && conn.View() == Init(conn.cfg)
    modifies conn, conn.inputBuffer, conn.inputBuffer.buffer
    modifies conn.outputBuffer, conn.outputBuffer.buffer, conn.socket
    modifies conn.channel, conn.poller
    ensures conn.Valid()
    ensures |rooms| == |script| && forall i :: 0 <= i < |rooms| ==> EXTRA_BUF_SIZE <= rooms[i]
    ensures var run := Meanings(conn.cfg, script, rooms);
      && conn.View() == EchoRun(conn.cfg, run)
      && conn.inputBuffer.Contents() == []
      && (conn.socket.wire + conn.outputBuffer.Contents() == Received(run) <==> !Faults(conn.cfg, run))
      && (!Faults(conn.cfg, run) ==> conn.socket.wire <= Received(run))
  {
    hide Reactor.Has, Reactor.Channel.Usable, Meaning, Means, EchoNext;
    rooms := [];
    EchoConservation(conn.cfg, []);
    for i := 0 to |script|
      invariant conn.Valid() && Idle(conn.View()) && |rooms| == i
      invariant conn.View() == EchoRun(conn.cfg, Meanings(conn.cfg, script[..i], rooms))
      invariant forall k :: 0 <= k < i ==> EXTRA_BUF_SIZE <= rooms[k]
      invariant conn.inputBuffer.buffer == old(conn.inputBuffer.buffer) || fresh(conn.inputBuffer.buffer)
      invariant conn.outputBuffer.buffer == old(conn.outputBuffer.buffer) || fresh(conn.outputBuffer.buffer)
    {
      ghost var room := ReadRoom(conn.inputBuffer.WritableBytes());
      React(conn, script[i]);
      NextMeaning(conn.cfg, script, rooms, room);
      rooms := rooms + [room];
      EchoConservation(conn.cfg, Meanings(conn.cfg, script[..i + 1], rooms));
    }
    assert script[..|script|] == script;
    EchoEndToEnd(conn.cfg, Meanings(conn.cfg, script, rooms));
  }

  lemma NextMeaning(cfg: Config, script: seq<Stimulus>, rooms: seq<nat>, room: nat)
    requires |rooms| < |script|
    ensures var i := |rooms|;
      var c := EchoRun(cfg, Meanings(cfg, script[..i], rooms));
      var ev := Meaning(c, script[i], room);
      EchoRun(cfg, Meanings(cfg, script[..i + 1], rooms + [room])) == if ev.Some? then EchoNext(c, ev.value) else c
  {
    var i := |rooms|;
    var before := Meanings(cfg, script[..i], rooms);
    var ev := Meaning(EchoRun(cfg, before), script[i], room);
    assert Front(script[..i + 1]) == script[..i] && Last(script[..i + 1]) == script[i];
    assert Front(rooms + [room]) == rooms && Last(rooms + [room]) == room;
    if ev.Some? {
      ExtendEcho(cfg, before, ev.value);
    }
  }
}
