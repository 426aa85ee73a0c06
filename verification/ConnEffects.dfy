// What every event does to every part of a connection, one part at a time and for all events at
// once: which system call is made and what it takes, what is stored, posted, switched and closed.
// The parts are named by the connection's fields and the event's arguments alone.

module ConnEffects {
  import opened Common
  import opened ConnModel
  import opened ConnTheorems

  // ---------------------------------------------------------------- the system call

  // The socket can be written to without overtaking anything.
  predicate Clear(c: Conn) {
    !c.writing && c.output == []
  }

  // The send an event carries out, now: a call on the loop's thread, or the task of an earlier one.
  function Sending(c: Conn, e: Event): Option<seq<Byte>>
    requires Enabled(c, e)
  {
    match e
    case UserSend(data, _) => if c.state == Connected then Some(data) else None
    case Task(_) => if c.posted[c.ran].SendTask? then Some(c.posted[c.ran].data) else None
    case _ => None
  }

  // The step of a file transfer it carries out.
  function Filing(c: Conn, e: Event): Option<FileJob>
    requires Enabled(c, e)
  {
    match e
    case UserSendFile(file, offset, count, _) =>
      if c.state == Connected then Some(FileJob(|c.jobs|, file, offset, count)) else None
    case Task(_) =>
      if c.posted[c.ran].SendFileTask? && c.state != Disconnecting then Some(c.posted[c.ran].job) else None
    case _ => None
  }

  // What the kernel answers to a write or sendfile, if the event makes one.
  function Answered(c: Conn, e: Event): Option<IoResult>
    requires Enabled(c, e)
  {
    match e
    case Writable(w) => if c.writing then Some(w) else None
    case UserSend(_, w) => if Sending(c, e).Some? && Clear(c) then Some(w) else None
    case UserSendFile(_, _, _, w) => if Filing(c, e).Some? && Clear(c) then Some(w) else None
    case Task(w) => if (Sending(c, e).Some? || Filing(c, e).Some?) && Clear(c) then Some(w) else None
    case _ => None
  }

  // How many bytes it takes.
  function Count(c: Conn, e: Event): nat
    requires Enabled(c, e)
  {
    match Answered(c, e)
    case Some(Done(n)) => n
    case _ => 0
  }

  // The write found the peer gone.
  predicate PeerGone(c: Conn, e: Event)
    requires Enabled(c, e)
  {
    Answered(c, e) == Some(Failed(EPipe)) || Answered(c, e) == Some(Failed(EConnReset))
  }

  // The bytes it takes: of the backlog, of the message, or of the file.
  function Taken(c: Conn, e: Event): (bytes: seq<Byte>)
    requires Enabled(c, e)
    ensures |bytes| == Count(c, e)
  {
    if Count(c, e) == 0 then []
    else if e.Writable? then c.output[..Count(c, e)]
    else
      match (Sending(c, e), Filing(c, e))
      case (Some(data), _) => data[..Count(c, e)]
      case (None, Some(job)) => job.file[job.offset..job.offset + Count(c, e)]
      case (None, None) => assert false; []
  }

  // ---------------------------------------------------------------- the parts

  // The wire grows by exactly what the kernel takes.
  predicate WireFits(c: Conn, e: Event, c': Conn)
    requires Enabled(c, e)
  {
    c'.wire == c.wire + Taken(c, e)
  }

  // A flush leaves the rest of the backlog; a send leaves what was not taken of it, behind the
  // backlog, unless the peer is gone; nothing else touches the backlog.
  predicate OutputFits(c: Conn, e: Event, c': Conn)
    requires Enabled(c, e)
  {
    if e.Writable? then c'.output == c.output[Count(c, e)..]
    else
      match Sending(c, e)
      case Some(data) => c'.output == if PeerGone(c, e) then c.output else c.output + data[Count(c, e)..]
      case None => c'.output == c.output
  }

  // EPOLLOUT comes on when something is stored, and goes off with the backlog or the connection.
  predicate WritingFits(c: Conn, e: Event, c': Conn)
    requires Enabled(c, e)
  {
    c'.writing ==
      if e.Writable? then c.writing && c'.output != []
      else if e.Close? || (e.Destroy? && c.state == Connected) then false
      else c.writing || (Sending(c, e).Some? && c'.output != c.output)
  }

  predicate ReadingFits(c: Conn, e: Event, c': Conn) {
    c'.reading ==
      if e.Establish? then true
      else if e.Close? || (e.Destroy? && c.state == Connected) then false
      else c.reading
  }

  // The channel is registered when an interest comes on, and unregistered when none is left.
  predicate IndexFits(c: Conn, e: Event, c': Conn) {
    c'.index ==
      if e.Destroy? then New
      else if e.Establish? || (!c.writing && c'.writing) then Added
      else if e.Close? || (c.writing && !c'.writing) then
        if c.index == Added && !c'.reading then Deleted else Added
      else c.index
  }

  predicate StateFits(c: Conn, e: Event, c': Conn) {
    c'.state ==
      if e.Establish? then Connected
      else if (e.UserShutdown? || e.UserQueueShutdown?) && c.state == Connected then Disconnecting
      else if e.Close? || (e.Destroy? && c.state == Connected) then Disconnected
      else c.state
  }

  predicate InputFits(c: Conn, e: Event, c': Conn)
    requires Enabled(c, e)
  {
    c'.input ==
      match e
      case Readable(data) => c.input + data
      case Consume(n) => c.input[n..]
      case _ => c.input
  }

  // The write side is closed by shutdown() on the loop's thread or its queued task, with EPOLLOUT off,
  // and by the flush that takes the last of a closing connection's backlog.
  predicate ShutsDown(c: Conn, e: Event)
    requires Enabled(c, e)
  {
    || (e.UserShutdown? && c.state == Connected && !c.writing)
    || (e.Task? && c.posted[c.ran].ShutdownTask? && !c.writing)
    || (e.Writable? && c.writing && Count(c, e) == |c.output| && c.state == Disconnecting)
  }

  predicate HalfClosesFit(c: Conn, e: Event, c': Conn)
    requires Enabled(c, e)
  {
    c'.halfCloses == if ShutsDown(c, e) then c.halfCloses + [c'.wire] else c.halfCloses
  }

  // A request is finished when its last byte is taken straight away, and so is a backlog.
  predicate Finishes(c: Conn, e: Event)
    requires Enabled(c, e)
  {
    if e.Writable? then Answered(c, e) == Some(Done(|c.output|))
    else
      match (Sending(c, e), Filing(c, e))
      case (Some(data), _) => Answered(c, e) == Some(Done(|data|))
      case (None, Some(job)) => Answered(c, e) == Some(Done(job.remaining))
      case (None, None) => false
  }

  // The tasks an event posts.
  function Posts(c: Conn, e: Event, c': Conn): seq<ConnModel.Task>
    requires Enabled(c, e)
  {
    match e
    case UserQueueSend(data) => if c.state == Connected then [SendTask(data)] else []
    case UserQueueShutdown => if c.state == Connected then [ShutdownTask] else []
    case UserQueueSendFile(file, offset, count) =>
      if c.state == Connected then [SendFileTask(FileJob(|c.jobs|, file, offset, count))] else []
    case _ =>
      if Finishes(c, e) then if c.cfg.writeCompleteCb then [WriteCompleteTask] else []
      else
        match Filing(c, e)
        case Some(job) => if PeerGone(c, e) then [] else GoesOn(job, Count(c, e))
        case None =>
          if c.cfg.highWaterCb && |c.output| < c.cfg.highWaterMark <= |c'.output| then [HighWaterTask(|c'.output|)]
          else []
  }

  // The next step of a transfer that has n bytes fewer to go, if any are left.
  function GoesOn(job: FileJob, n: nat): seq<ConnModel.Task> {
    if job.remaining <= n then []
    else [SendFileTask(FileJob(job.id, job.file, job.offset + n, job.remaining - n))]
  }

  predicate PostedFits(c: Conn, e: Event, c': Conn)
    requires Enabled(c, e)
  {
    c'.posted == c.posted + Posts(c, e, c')
  }

  predicate RestFits(c: Conn, e: Event, c': Conn) {
    && c'.cfg == c.cfg
    && c'.ran == c.ran + (if e.Task? then 1 else 0)
    && c'.jobs == c.jobs +
         match e
         case UserSendFile(file, offset, count, _) =>
           if c.state == Connected then [FileJob(|c.jobs|, file, offset, count)] else []
         case UserQueueSendFile(file, offset, count) =>
           if c.state == Connected then [FileJob(|c.jobs|, file, offset, count)] else []
         case _ => []
  }

  ghost predicate Fits(c: Conn, e: Event, c': Conn)
    requires Enabled(c, e)
  {
    && WireFits(c, e, c') && OutputFits(c, e, c') && WritingFits(c, e, c') && ReadingFits(c, e, c')
    && IndexFits(c, e, c') && StateFits(c, e, c') && InputFits(c, e, c') && HalfClosesFit(c, e, c')
    && PostedFits(c, e, c') && RestFits(c, e, c')
  }

  // ---------------------------------------------------------------- every event

  // What a send stores, switches on and reports.
  predicate Stores(c: Conn, c': Conn, rest: seq<Byte>) {
    && c'.output == c.output + rest
    && c'.writing == (c.writing || rest != [])
    && c'.index == (if rest != [] && !c.writing then Added else c.index)
    && c' == c.(output := c'.output, writing := c'.writing, index := c'.index, posted := c'.posted)
    && c'.posted == c.posted +
         if c.cfg.highWaterCb && |c.output| < c.cfg.highWaterMark <= |c'.output| then [HighWaterTask(|c'.output|)]
         else []
  }

  lemma EnqueueStores(c: Conn, rest: seq<Byte>)
    requires c.writing ==> c.output != []
    ensures Stores(c, Enqueue(c, rest), rest)
  {
  }

  lemma SendStores(c: Conn, data: seq<Byte>, w: IoResult)
    requires Consistent(c) && WriteLegal(c, data, w)
    ensures var c' := SendInLoop(c, data, w);
      if Clear(c) && w == Done(|data|) then
        c' == c.(wire := c.wire + data, posted := c'.posted)
        && c'.posted == c.posted + if c.cfg.writeCompleteCb then [WriteCompleteTask] else []
      else if Clear(c) && w.Done? then Stores(c.(wire := c.wire + data[..w.n]), c', data[w.n..])
      else if Clear(c) && (w == Failed(EPipe) || w == Failed(EConnReset)) then c' == c
      else Stores(c, c', data)
  {
    hide Enqueue, Stores;
    if Clear(c) && w.Done? && w.n < |data| {
      EnqueueStores(c.(wire := c.wire + data[..w.n]), data[w.n..]);
    } else {
      EnqueueStores(c, data);
    }
  }

  lemma EffectOfUserSend(c: Conn, data: seq<Byte>, w: IoResult)
    requires Consistent(c) && Enabled(c, UserSend(data, w)) && c.state == Connected
    ensures Fits(c, UserSend(data, w), SendInLoop(c, data, w))
  {
    SendStores(c, data, w);
    hide SendInLoop;
    SentFits(c, UserSend(data, w), c, SendInLoop(c, data, w), data, w);
  }

  lemma EffectOfSendTask(c: Conn, w: IoResult)
    requires Consistent(c) && Enabled(c, Event.Task(w)) && c.posted[c.ran].SendTask?
    ensures Fits(c, Event.Task(w), SendInLoop(c.(ran := c.ran + 1), c.posted[c.ran].data, w))
  {
    var popped, data := c.(ran := c.ran + 1), c.posted[c.ran].data;
    SendStores(popped, data, w);
    hide SendInLoop;
    SentFits(c, Event.Task(w), popped, SendInLoop(popped, data, w), data, w);
  }

  // An event that carries out a send, with its task off the queue if it was one.
  lemma SentFits(c: Conn, e: Event, d: Conn, c': Conn, data: seq<Byte>, w: IoResult)
    requires Consistent(c) && Enabled(c, e) && Sending(c, e) == Some(data)
    requires d == c.(ran := d.ran) && d.ran == c.ran + (if e.Task? then 1 else 0)
    requires (e.Task? && e.w == w) || (e.UserSend? && e.w == w)
    requires if Clear(c) && w == Done(|data|) then
        c' == d.(wire := c.wire + data, posted := c'.posted)
        && c'.posted == c.posted + if c.cfg.writeCompleteCb then [WriteCompleteTask] else []
      else if Clear(c) && w.Done? then w.n <= |data| && Stores(d.(wire := c.wire + data[..w.n]), c', data[w.n..])
      else if Clear(c) && (w == Failed(EPipe) || w == Failed(EConnReset)) then c' == d
      else Stores(d, c', data)
    ensures Fits(c, e, c')
  {
    hide Consistent;
    SentPosts(c, e, c', data, w);
    SentFields(c, e, c', data, w);
  }

  lemma SentPosts(c: Conn, e: Event, c': Conn, data: seq<Byte>, w: IoResult)
    requires Enabled(c, e) && Sending(c, e) == Some(data) && ((e.Task? && e.w == w) || (e.UserSend? && e.w == w))
    requires c'.posted == c.posted +
      if Clear(c) && w == Done(|data|) then if c.cfg.writeCompleteCb then [WriteCompleteTask] else []
      else if c.cfg.highWaterCb && |c.output| < c.cfg.highWaterMark <= |c'.output| then [HighWaterTask(|c'.output|)]
      else []
    ensures PostedFits(c, e, c')
  {
  }

  lemma SentFields(c: Conn, e: Event, c': Conn, data: seq<Byte>, w: IoResult)
    requires Enabled(c, e) && Sending(c, e) == Some(data) && ((e.Task? && e.w == w) || (e.UserSend? && e.w == w))
    requires var n := if Clear(c) && w.Done? then w.n else 0;
      var rest := if Clear(c) && (w == Failed(EPipe) || w == Failed(EConnReset)) then [] else data[n..];
      && n <= |data| && c'.wire == c.wire + data[..n] && c'.output == c.output + rest
      && c'.writing == (c.writing || rest != [])
      && c'.index == (if rest != [] && !c.writing then Added else c.index)
    requires c' == c.(ran := c'.ran, wire := c'.wire, output := c'.output, writing := c'.writing, index := c'.index,
                      posted := c'.posted)
    requires c'.ran == c.ran + if e.Task? then 1 else 0
    ensures WireFits(c, e, c') && OutputFits(c, e, c') && WritingFits(c, e, c') && ReadingFits(c, e, c')
    ensures IndexFits(c, e, c') && StateFits(c, e, c') && InputFits(c, e, c') && HalfClosesFit(c, e, c')
    ensures RestFits(c, e, c')
  {
  }

  lemma EffectOfNoSend(c: Conn, e: Event)
    requires Consistent(c) && Enabled(c, e) && e.UserSend? && c.state != Connected
    ensures Fits(c, e, c)
  {
  }

  lemma EffectOfSend(c: Conn, e: Event)
    requires Consistent(c) && Enabled(c, e) && (e.UserSend? || (e.Task? && c.posted[c.ran].SendTask?))
    ensures Fits(c, e, Next(c, e))
  {
    hide SendInLoop, Fits, Consistent;
    match e {
      case Task(w) => EffectOfSendTask(c, w);
      case UserSend(data, w) => if c.state == Connected { EffectOfUserSend(c, data, w); } else { EffectOfNoSend(c, e); }
    }
  }

  // A step of a transfer writes to nothing but the wire and the queue.
  lemma SendFileGoesOn(c: Conn, job: FileJob, w: IoResult)
    requires SendfileLegal(c, job, w)
    ensures var c' := SendFileInLoop(c, job, w);
      var n := if Clear(c) && w.Done? then w.n else 0;
      if c.state == Disconnecting then c' == c
      else
        && c' == c.(wire := c'.wire, posted := c'.posted)
        && c'.wire == c.wire + (if n == 0 then [] else job.file[job.offset..job.offset + n])
        && c'.posted == c.posted +
             if Clear(c) && w == Done(job.remaining) then if c.cfg.writeCompleteCb then [WriteCompleteTask] else []
             else if Clear(c) && (w == Failed(EPipe) || w == Failed(EConnReset)) then []
             else GoesOn(job, n)
  {
  }

  lemma EffectOfUserFile(c: Conn, e: Event)
    requires Consistent(c) && Enabled(c, e) && e.UserSendFile?
    ensures Fits(c, e, Next(c, e))
  {
    hide SendFileInLoop, GoesOn;
    if c.state == Connected {
      var job := FileJob(|c.jobs|, e.file, e.offset, e.count);
      SendFileGoesOn(c.(jobs := c.jobs + [job]), job, e.w);
    }
  }

  lemma EffectOfFileTask(c: Conn, e: Event)
    requires Consistent(c) && Enabled(c, e) && e.Task? && c.posted[c.ran].SendFileTask?
    ensures Fits(c, e, Next(c, e))
  {
    hide SendFileInLoop, GoesOn;
    SendFileGoesOn(c.(ran := c.ran + 1), c.posted[c.ran].job, e.w);
  }

  lemma EffectOfSendFile(c: Conn, e: Event)
    requires Consistent(c) && Enabled(c, e) && (e.UserSendFile? || (e.Task? && c.posted[c.ran].SendFileTask?))
    ensures Fits(c, e, Next(c, e))
  {
    hide Fits, Next;
    if e.UserSendFile? {
      EffectOfUserFile(c, e);
    } else {
      EffectOfFileTask(c, e);
    }
  }

  lemma EffectOfFlush(c: Conn, e: Event)
    requires Consistent(c) && Enabled(c, e) && e.Writable?
    ensures Fits(c, e, Next(c, e))
  {
  }

  lemma EffectOfTask(c: Conn, e: Event)
    requires Consistent(c) && Enabled(c, e) && e.Task?
    requires !c.posted[c.ran].SendTask? && !c.posted[c.ran].SendFileTask?
    ensures Fits(c, e, Next(c, e))
  {
  }

  lemma EffectOfControl(c: Conn, e: Event)
    requires Consistent(c) && Enabled(c, e)
    requires !e.UserSend? && !e.UserSendFile? && !e.Writable? && !e.Task?
    ensures Fits(c, e, Next(c, e))
  {
  }

  // From every consistent state, every event has exactly its effects.
  lemma EffectOfEvent(c: Conn, e: Event)
    requires Consistent(c) && Enabled(c, e)
    ensures Fits(c, e, Next(c, e))
  {
    hide Fits, Next, Enabled, Consistent;
    match e {
      case UserSend(_, _) => EffectOfSend(c, e);
      case UserSendFile(_, _, _, _) => EffectOfSendFile(c, e);
      case Writable(_) => EffectOfFlush(c, e);
      case Task(_) => EffectOfAnyTask(c, e);
      case _ => EffectOfControl(c, e);
    }
  }

  lemma EffectOfAnyTask(c: Conn, e: Event)
    requires Consistent(c) && Enabled(c, e) && e.Task?
    ensures Fits(c, e, Next(c, e))
  {
    hide Fits, Next;
    match c.posted[c.ran] {
      case SendTask(_) => EffectOfSend(c, e);
      case SendFileTask(_) => EffectOfSendFile(c, e);
      case _ => EffectOfTask(c, e);
    }
  }
}
