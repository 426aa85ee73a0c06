// One TcpConnection as a state machine over values: what each handler of src/TcpConnection.cc
// makes of the connection, its socket and the tasks it posts. TcpConnection.dfy proves that the
// imperative handlers compute these functions; the theorems over runs are in ConnTheorems.dfy,
// HalfClose.dfy, ShutdownCalls.dfy, AfterClose.dfy, FileTransfer.dfy and EchoModel.dfy.

module ConnModel {
  import opened Common

  // The regular file behind sendFile's descriptor is its contents; id numbers the calls.
  datatype FileJob = FileJob(id: nat, file: seq<Byte>, offset: int, remaining: nat)

  // What a connection posts to its loop. SendTask and ShutdownTask come only from other threads.
  datatype Task =
    | WriteCompleteTask
    | HighWaterTask(level: nat)
    | SendTask(data: seq<Byte>)
    | SendFileTask(job: FileJob)
    | ShutdownTask

  // Which user callbacks are set, and highWaterMark_.
  datatype Config = Config(writeCompleteCb: bool, highWaterCb: bool, highWaterMark: nat)

  datatype Conn = Conn(
    cfg: Config,
    state: StateE,
    reading: bool,                  // EPOLLIN | EPOLLPRI in the channel's interest mask
    writing: bool,                  // EPOLLOUT in the channel's interest mask
    index: Index,                   // the channel's index_: Added while it is in the epoll set
    input: seq<Byte>,               // readable bytes of inputBuffer_
    output: seq<Byte>,              // readable bytes of outputBuffer_
    posted: seq<Task>,              // every task ever posted to the loop for this connection
    ran: nat,                       // how many of them the loop has run, in FIFO order
    jobs: seq<FileJob>,             // every accepted sendFile call, as requested
    wire: seq<Byte>,                // bytes the kernel has taken from this socket
    halfCloses: seq<seq<Byte>>)     // the wire at each call of shutdown(SHUT_WR)

  function Init(cfg: Config): Conn {
    Conn(cfg, Connecting, false, false, New, [], [], [], 0, [], [], [])
  }

  function Post(c: Conn, wanted: bool, t: Task): Conn {
    if wanted then c.(posted := c.posted + [t]) else c
  }

  // channel_->update(), with the interest as it is now.
  function Update(c: Conn): Conn {
    c.(index := if c.index == Added && !c.reading && !c.writing then Deleted else Added)
  }

  // The guard of the direct-write branch of sendInLoop and sendFileInLoop.
  predicate CanWriteDirectly(c: Conn) {
    !c.writing && c.output == []
  }

  // ---------------------------------------------------------------- sending

  // The kernel never reports more bytes than it was offered, and takes none once the write side has
  // been shut down.
  predicate Takes(c: Conn, w: IoResult, offered: nat) {
    w.Done? ==> w.n <= offered && (c.halfCloses != [] ==> w.n == 0)
  }

  predicate WriteLegal(c: Conn, data: seq<Byte>, w: IoResult) {
    CanWriteDirectly(c) ==> Takes(c, w, |data|)
  }

  // The only way sendInLoop drops its data.
  predicate SendFaults(c: Conn, w: IoResult) {
    CanWriteDirectly(c) && IsFault(w)
  }

  // Buffers what the socket did not take, turns EPOLLOUT on and reports a crossed high-water mark.
  function Enqueue(c: Conn, rest: seq<Byte>): Conn {
    if rest == [] then c
    else
      var newLen := |c.output| + |rest|;
      var crossed := newLen >= c.cfg.highWaterMark && |c.output| < c.cfg.highWaterMark && c.cfg.highWaterCb;
      var stored := Post(c, crossed, HighWaterTask(newLen)).(output := c.output + rest);
      if c.writing then stored else Update(stored.(writing := true))
  }

  function SendInLoop(c: Conn, data: seq<Byte>, w: IoResult): Conn
    requires WriteLegal(c, data, w)
  {
    if !CanWriteDirectly(c) then Enqueue(c, data)
    else match w
      case Done(n) =>
        var written := c.(wire := c.wire + data[..n]);
        if n == |data| then Post(written, c.cfg.writeCompleteCb, WriteCompleteTask)
        else Enqueue(written, data[n..])
      case Failed(_) => if IsFault(w) then c else Enqueue(c, data)
  }

  // ---------------------------------------------------------------- sending files

  // sendfile takes at most what is left of the request and only bytes the file has.
  predicate SendfileLegal(c: Conn, job: FileJob, w: IoResult) {
    CanWriteDirectly(c) ==>
      && Takes(c, w, job.remaining)
      && (w.Done? && 0 < w.n ==> 0 <= job.offset && job.offset + w.n <= |job.file|)
  }

  function FileChunk(c: Conn, job: FileJob, w: IoResult): seq<Byte>
    requires SendfileLegal(c, job, w)
  {
    if c.state != Disconnecting && CanWriteDirectly(c) && w.Done? && 0 < w.n
    then job.file[job.offset..job.offset + w.n] else []
  }

  // One step of a file transfer. Note that only kDisconnecting stops it: in kDisconnected it goes on.
  function SendFileInLoop(c: Conn, job: FileJob, w: IoResult): Conn
    requires SendfileLegal(c, job, w)
  {
    if c.state == Disconnecting then c
    else if CanWriteDirectly(c) then
      match w
      case Done(n) =>
        var written := c.(wire := c.wire + FileChunk(c, job, w));
        if n == job.remaining then Post(written, c.cfg.writeCompleteCb, WriteCompleteTask)
        else Post(written, true, SendFileTask(job.(offset := job.offset + n, remaining := job.remaining - n)))
      case Failed(_) => if IsFault(w) then c else Post(c, 0 < job.remaining, SendFileTask(job))
    else Post(c, 0 < job.remaining, SendFileTask(job))
  }

  // ---------------------------------------------------------------- the other handlers

  function ShutdownInLoop(c: Conn): Conn {
    if c.writing then c else c.(halfCloses := c.halfCloses + [c.wire])
  }

  predicate FlushLegal(c: Conn, w: IoResult) {
    c.writing ==> Takes(c, w, |c.output|)
  }

  // The backlog is gone.
  function Drained(c: Conn): Conn {
    var drained := Post(Update(c.(writing := false)), c.cfg.writeCompleteCb, WriteCompleteTask);
    if c.state == Disconnecting then ShutdownInLoop(drained) else drained
  }

  function HandleWrite(c: Conn, w: IoResult): Conn
    requires FlushLegal(c, w)
  {
    if c.writing && w.Done? && 0 < w.n then
      var flushed := c.(wire := c.wire + c.output[..w.n], output := c.output[w.n..]);
      if flushed.output == [] then Drained(flushed) else flushed
    else c
  }

  function HandleClose(c: Conn): Conn {
    Update(c.(state := Disconnected, reading := false, writing := false))
  }

  function ConnectEstablished(c: Conn): Conn {
    Update(c.(state := Connected, reading := true))
  }

  // The channel leaves the poller with its interest mask as it is.
  function ConnectDestroyed(c: Conn): Conn {
    (if c.state == Connected then HandleClose(c) else c).(index := New)
  }

  // ---------------------------------------------------------------- the user's calls

  function Send(c: Conn, data: seq<Byte>, w: IoResult): Conn
    requires c.state == Connected ==> WriteLegal(c, data, w)
  {
    if c.state == Connected then SendInLoop(c, data, w) else c
  }

  function QueueSend(c: Conn, data: seq<Byte>): Conn {
    Post(c, c.state == Connected, SendTask(data))
  }

  function NewJob(c: Conn, file: seq<Byte>, offset: int, count: nat): FileJob {
    FileJob(|c.jobs|, file, offset, count)
  }

  function SendFile(c: Conn, file: seq<Byte>, offset: int, count: nat, w: IoResult): Conn
    requires c.state == Connected ==> SendfileLegal(c, NewJob(c, file, offset, count), w)
  {
    if c.state == Connected then
      var job := NewJob(c, file, offset, count);
      SendFileInLoop(c.(jobs := c.jobs + [job]), job, w)
    else c
  }

  function QueueSendFile(c: Conn, file: seq<Byte>, offset: int, count: nat): Conn {
    if c.state == Connected then
      var job := NewJob(c, file, offset, count);
      Post(c.(jobs := c.jobs + [job]), true, SendFileTask(job))
    else c
  }

  function Shutdown(c: Conn): Conn {
    if c.state == Connected then ShutdownInLoop(c.(state := Disconnecting)) else c
  }

  function QueueShutdown(c: Conn): Conn {
    if c.state == Connected then Post(c.(state := Disconnecting), true, ShutdownTask) else c
  }

  // ---------------------------------------------------------------- the loop runs a task

  predicate TaskLegal(c: Conn, w: IoResult) {
    && c.ran < |c.posted|
    && match c.posted[c.ran]
       case SendTask(data) => WriteLegal(c, data, w)
       case SendFileTask(job) => SendfileLegal(c, job, w)
       case _ => true
  }

  // Callbacks the user gave (write complete, high water) act through events of their own.
  function RunTask(c: Conn, w: IoResult): Conn
    requires TaskLegal(c, w)
  {
    var popped := c.(ran := c.ran + 1);
    match c.posted[c.ran]
    case SendTask(data) => SendInLoop(popped, data, w)
    case SendFileTask(job) => SendFileInLoop(popped, job, w)
    case ShutdownTask => ShutdownInLoop(popped)
    case WriteCompleteTask => popped
    case HighWaterTask(_) => popped
  }

  // ---------------------------------------------------------------- events and runs

  // Everything that can happen to a connection, in any order. The Queue events are the same
  // user calls made from another thread.
  datatype Event =
    | Establish
    | Readable(data: seq<Byte>)
    | Consume(n: nat)
    | Writable(w: IoResult)
    | Close
    | Destroy
    | UserSend(data: seq<Byte>, w: IoResult)
    | UserQueueSend(data: seq<Byte>)
    | UserSendFile(file: seq<Byte>, offset: int, count: nat, w: IoResult)
    | UserQueueSendFile(file: seq<Byte>, offset: int, count: nat)
    | UserShutdown
    | UserQueueShutdown
    | Task(w: IoResult)

  // Establishment happens once, readiness comes only for the interest that is registered, a close
  // only to a channel that is in the poller, and the kernel's answers respect its contracts. A
  // handleWrite with EPOLLOUT off can follow a close in one dispatch.
  predicate Enabled(c: Conn, e: Event) {
    match e
    case Establish => c.state == Connecting
    case Readable(data) => c.reading && c.index == Added && data != []
    case Consume(n) => n <= |c.input|
    case Writable(w) => c.state != Connecting && (c.writing ==> c.index == Added) && FlushLegal(c, w)
    case Close => c.index != New
    case Destroy => c.state != Connecting
    case UserSend(data, w) => c.state == Connected ==> WriteLegal(c, data, w)
    case UserSendFile(file, offset, count, w) =>
      c.state == Connected ==> SendfileLegal(c, NewJob(c, file, offset, count), w)
    case Task(w) => TaskLegal(c, w)
    case _ => true
  }

  function Next(c: Conn, e: Event): Conn
    requires Enabled(c, e)
  {
    match e
    case Establish => ConnectEstablished(c)
    case Readable(data) => c.(input := c.input + data)
    case Consume(n) => c.(input := c.input[n..])
    case Writable(w) => HandleWrite(c, w)
    case Close => HandleClose(c)
    case Destroy => ConnectDestroyed(c)
    case UserSend(data, w) => Send(c, data, w)
    case UserQueueSend(data) => QueueSend(c, data)
    case UserSendFile(file, offset, count, w) => SendFile(c, file, offset, count, w)
    case UserQueueSendFile(file, offset, count) => QueueSendFile(c, file, offset, count)
    case UserShutdown => Shutdown(c)
    case UserQueueShutdown => QueueShutdown(c)
    case Task(w) => RunTask(c, w)
  }

  // A legal history: every event was enabled where it happened.
  predicate Legal(cfg: Config, es: seq<Event>)
    decreases |es|, 0
  {
    es == [] || (Legal(cfg, Front(es)) && Enabled(Run(cfg, Front(es)), Last(es)))
  }

  function Run(cfg: Config, es: seq<Event>): Conn
    requires Legal(cfg, es)
    decreases |es|, 1
  {
    if es == [] then Init(cfg) else Next(Run(cfg, Front(es)), Last(es))
  }

  lemma Extend(cfg: Config, es: seq<Event>, e: Event)
    requires Legal(cfg, es) && Enabled(Run(cfg, es), e)
    ensures Legal(cfg, es + [e]) && Run(cfg, es + [e]) == Next(Run(cfg, es), e)
  {
    assert Front(es + [e]) == es;
  }
}
