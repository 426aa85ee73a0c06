// src/TcpConnection.cc: the handlers as they change the connection's fields, its two buffers, its
// channel, the poller and the socket. Each is proved to compute its counterpart in ConnModel, so
// the theorems over runs are theorems about these handlers.

module TcpConnections {
  import opened Common
  import opened Buffers
  import opened Sockets
  import opened Reactor
  import opened ConnModel

  // What handleRead leaves to do: the message callback, nothing after a close, or an error report.
  datatype ReadOutcome = GotMessage | GotClosed | GotError

  class TcpConnection {
    const cfg: Config
    const socket: Socket
    const channel: Channel
    const poller: EPollPoller        // of loop_, which channel_ reports to
    const inputBuffer: Buffer
    const outputBuffer: Buffer
    var state: StateE
    var posted: seq<ConnModel.Task>  // this connection's tasks in loop_'s queue, oldest first
    var ran: nat                     // how many of them loop_ has run
    var jobs: seq<FileJob>           // the sendFile calls made, as requested: kept only by the model

    ghost predicate Valid()
      reads this, inputBuffer, outputBuffer, channel, poller, poller.known
    {
      && inputBuffer != outputBuffer && inputBuffer.buffer != outputBuffer.buffer
      && inputBuffer.Valid() && outputBuffer.Valid()
      && channel.Usable(poller)
    }

    ghost function View(): Conn
      reads this, inputBuffer, inputBuffer.buffer, outputBuffer, outputBuffer.buffer
      reads channel, socket
      requires inputBuffer.Valid() && outputBuffer.Valid()
    {
      Conn(cfg, state, channel.IsReading(), channel.IsWriting(), channel.index,
           inputBuffer.Contents(), outputBuffer.Contents(), posted, ran, jobs, socket.wire, socket.halfCloses)
    }

    // The channel is new to the poller, and the kernel gave out a descriptor no channel there uses.
    constructor (cfg: Config, poller: EPollPoller, fd: nat)
      requires poller.Valid() && fd !in poller.channels
      modifies poller`known
      ensures Valid() && View() == Init(cfg) && this.poller == poller
      ensures fresh(channel) && fresh(socket) && fresh(inputBuffer) && fresh(outputBuffer)
      ensures fresh(inputBuffer.buffer) && fresh(outputBuffer.buffer)
      ensures poller.known == old(poller.known) + {channel}
    {
      this.cfg, this.poller := cfg, poller;
      state := Connecting;
      socket := new Socket(fd);
      channel := new Channel(fd);
      inputBuffer := new Buffer();
      outputBuffer := new Buffer();
      posted, ran, jobs := [], 0, [];
      new;
      NoBits();
      poller.Adopt(channel);
    }

    method QueueInLoop(t: ConnModel.Task)
      modifies this`posted
      ensures posted == old(posted) + [t]
    {
      posted := posted + [t];
    }

    // The tail of sendInLoop: what the socket did not take goes to the output buffer.
    method Enqueue(rest: seq<Byte>)
      requires Valid() && rest != []
      modifies this`posted, outputBuffer, outputBuffer.buffer, channel`events, channel`index, poller
      ensures Valid() && poller.OnlyTouched(channel) && View() == ConnModel.Enqueue(old(View()), rest)
      ensures outputBuffer.buffer == old(outputBuffer.buffer) || fresh(outputBuffer.buffer)
    {
      hide Has, Channel.Usable;
      var oldLen, remaining := outputBuffer.ReadableBytes(), |rest|;
      if oldLen + remaining >= cfg.highWaterMark && oldLen < cfg.highWaterMark && cfg.highWaterCb {
        QueueInLoop(HighWaterTask(oldLen + remaining));
      }
      outputBuffer.Append(rest);
      if !channel.IsWriting() {
        channel.EnableWriting(poller);
      }
    }

    method SendInLoop(data: seq<Byte>, w: IoResult)
      requires Valid() && WriteLegal(View(), data, w)
      modifies this`posted, outputBuffer, outputBuffer.buffer, socket`wire
      modifies channel`events, channel`index, poller
      ensures Valid() && poller.OnlyTouched(channel) && View() == ConnModel.SendInLoop(old(View()), data, w)
      ensures outputBuffer.buffer == old(outputBuffer.buffer) || fresh(outputBuffer.buffer)
    {
      hide Has, Channel.Usable;
      var nwrote: int := 0;
      var remaining: int := |data|;
      var faultError := false;
      // In kDisconnected the source logs "give up writing" here, and goes on.
      if !channel.IsWriting() && outputBuffer.ReadableBytes() == 0 {
        nwrote := socket.Write(data, w);
        if nwrote >= 0 {
          remaining := |data| - nwrote;
          if remaining == 0 && cfg.writeCompleteCb {
            QueueInLoop(WriteCompleteTask);
          }
        } else {
          nwrote := 0;
          if w.errno != EWouldBlock {
            if w.errno == EPipe || w.errno == EConnReset {
              faultError := true;
            }
          }
        }
      }
      if !faultError && remaining > 0 {
        Enqueue(data[nwrote..]);
      }
    }

    method SendFileInLoop(job: FileJob, w: IoResult)
      requires Valid() && SendfileLegal(View(), job, w)
      modifies this`posted, socket`wire
      ensures Valid() && View() == ConnModel.SendFileInLoop(old(View()), job, w)
    {
      hide Has, Channel.Usable;
      var remaining: int, offset := job.remaining, job.offset;
      var faultError := false;
      // The source calls this "disconnected", but tests kDisconnecting only.
      if state == Disconnecting {
        return;
      }
      if !channel.IsWriting() && outputBuffer.ReadableBytes() == 0 {
        var bytesSent: int;
        bytesSent, offset := socket.Sendfile(job.file, offset, remaining, w);
        if bytesSent >= 0 {
          remaining := remaining - bytesSent;
          if remaining == 0 && cfg.writeCompleteCb {
            QueueInLoop(WriteCompleteTask);
          }
        } else if w.errno == EPipe || w.errno == EConnReset {
          faultError := true;
        }
      }
      if !faultError && remaining > 0 {
        QueueInLoop(SendFileTask(job.(offset := offset, remaining := remaining)));
      }
    }

    method ShutdownInLoop()
      requires Valid()
      modifies socket`halfCloses
      ensures Valid() && View() == ConnModel.ShutdownInLoop(old(View()))
    {
      hide Has, Channel.Usable;
      if !channel.IsWriting() {
        socket.ShutdownWrite();
      }
    }

    // The end of handleWrite, once everything has gone out.
    method Drained()
      requires Valid()
      modifies this`posted, socket`halfCloses, channel`events, channel`index, poller
      ensures Valid() && poller.OnlyTouched(channel) && View() == ConnModel.Drained(old(View()))
    {
      hide Has, Channel.Usable;
      channel.DisableWriting(poller);
      if cfg.writeCompleteCb {
        QueueInLoop(WriteCompleteTask);
      }
      if state == Disconnecting {
        ShutdownInLoop();
      }
    }

    method HandleWrite(w: IoResult)
      requires Valid() && FlushLegal(View(), w)
      modifies this`posted, outputBuffer`readerIndex, outputBuffer`writerIndex, socket
      modifies channel`events, channel`index, poller
      ensures Valid() && poller.OnlyTouched(channel) && View() == ConnModel.HandleWrite(old(View()), w)
    {
      hide Has, Channel.Usable, ConnModel.Drained;
      if channel.IsWriting() {
        var n, _ := outputBuffer.WriteFd(socket, w);
        if n > 0 {
          outputBuffer.Retrieve(n);
          if outputBuffer.ReadableBytes() == 0 {
            Drained();
          }
        }
      }
    }

    // The down callback and the server's close callback, which come last, are the caller's.
    method HandleClose()
      requires Valid()
      modifies this`state, channel`events, channel`index, poller
      ensures Valid() && poller.OnlyTouched(channel) && View() == ConnModel.HandleClose(old(View()))
      ensures channel.index == if old(channel.index) == Added then Deleted else Added
    {
      hide Has, Channel.Usable;
      state := Disconnected;
      channel.DisableAll(poller);
    }

    method HandleRead(arrived: ReadResult) returns (outcome: ReadOutcome)
      requires Valid()
      requires arrived.Bytes? ==> |arrived.data| <= ReadRoom(inputBuffer.WritableBytes())
      modifies this`state, inputBuffer, inputBuffer.buffer, channel`events, channel`index, poller
      ensures Valid() && poller.OnlyTouched(channel)
      ensures inputBuffer.buffer == old(inputBuffer.buffer) || fresh(inputBuffer.buffer)
      ensures match arrived
        case Bytes(data) =>
          if data != [] then outcome == GotMessage && View() == old(View()).(input := old(View()).input + data)
          else outcome == GotClosed && View() == ConnModel.HandleClose(old(View()))
        case ReadError(_) => outcome == GotError && View() == old(View())
    {
      hide Has, Channel.Usable;
      var n, _ := inputBuffer.ReadFd(arrived);
      if n > 0 {
        outcome := GotMessage;
      } else if n == 0 {
        HandleClose();
        outcome := GotClosed;
      } else {
        outcome := GotError;
      }
    }

    method ConnectEstablished()
      requires Valid()
      modifies this`state, channel`events, channel`index, channel`tied, poller
      ensures Valid() && poller.OnlyTouched(channel) && View() == ConnModel.ConnectEstablished(old(View()))
      ensures channel.tied && channel.index == Added
    {
      hide Has, Channel.Usable;
      state := Connected;
      channel.Tie();
      channel.TieLeavesUsable(poller);
      channel.EnableReading(poller);
    }

    method ConnectDestroyed()
      requires Valid()
      modifies this`state, channel`events, channel`index, poller
      ensures Valid() && poller.OnlyTouched(channel) && View() == ConnModel.ConnectDestroyed(old(View()))
      ensures channel.index == New && channel.fd !in poller.channels && channel.fd !in poller.kernel
    {
      hide Has, Channel.Usable;
      if state == Connected {
        state := Disconnected;
        channel.DisableAll(poller);
      }
      channel.Remove(poller);
    }

    // ---------------------------------------------------------------- the user's calls

    // send, sendFile and shutdown on the loop's thread act at once; elsewhere they are queued.
    method Send(data: seq<Byte>, inLoopThread: bool, w: IoResult)
      requires Valid() && (state == Connected && inLoopThread ==> WriteLegal(View(), data, w))
      modifies this`posted, outputBuffer, outputBuffer.buffer, socket`wire
      modifies channel`events, channel`index, poller
      ensures Valid() && poller.OnlyTouched(channel)
      ensures outputBuffer.buffer == old(outputBuffer.buffer) || fresh(outputBuffer.buffer)
      ensures View() == if inLoopThread then ConnModel.Send(old(View()), data, w) else QueueSend(old(View()), data)
    {
      hide Has, Channel.Usable;
      if state == Connected {
        if inLoopThread {
          SendInLoop(data, w);
        } else {
          QueueInLoop(SendTask(data));
        }
      }
    }

    method SendFile(file: seq<Byte>, offset: int, count: nat, inLoopThread: bool, w: IoResult)
      requires Valid()
      requires state == Connected && inLoopThread ==> SendfileLegal(View(), NewJob(View(), file, offset, count), w)
      modifies this`posted, this`jobs, socket`wire
      ensures Valid()
      ensures View() == if inLoopThread then ConnModel.SendFile(old(View()), file, offset, count, w)
                        else QueueSendFile(old(View()), file, offset, count)
    {
      hide Has, Channel.Usable;
      if state == Connected {
        var job := FileJob(|jobs|, file, offset, count);
        jobs := jobs + [job];
        if inLoopThread {
          SendFileInLoop(job, w);
        } else {
          QueueInLoop(SendFileTask(job));
        }
      }
    }

    method Shutdown(inLoopThread: bool)
      requires Valid()
      modifies this`state, this`posted, socket`halfCloses
      ensures Valid()
      ensures View() == if inLoopThread then ConnModel.Shutdown(old(View())) else QueueShutdown(old(View()))
    {
      hide Has, Channel.Usable;
      if state == Connected {
        state := Disconnecting;
        if inLoopThread {
          ShutdownInLoop();
        } else {
          QueueInLoop(ShutdownTask);
        }
      }
    }

    // ---------------------------------------------------------------- the loop runs the next task

    method RunTask(w: IoResult)
      requires Valid() && TaskLegal(View(), w)
      modifies this`posted, this`ran, outputBuffer, outputBuffer.buffer, socket
      modifies channel`events, channel`index, poller
      ensures Valid() && poller.OnlyTouched(channel) && View() == ConnModel.RunTask(old(View()), w)
      ensures outputBuffer.buffer == old(outputBuffer.buffer) || fresh(outputBuffer.buffer)
    {
      hide Has, Channel.Usable, ConnModel.SendInLoop, ConnModel.SendFileInLoop;
      var t := posted[ran];
      ran := ran + 1;
      match t {
        case SendTask(data) => SendInLoop(data, w);
        case SendFileTask(job) => SendFileInLoop(job, w);
        case ShutdownTask => ShutdownInLoop();
        case WriteCompleteTask =>
        case HighWaterTask(_) =>
      }
    }
  }

  // Every event of the model is one call on the object, so whatever happens to it in whatever
  // order, it goes through a run of ConnModel. A read brings no more than readFd has room for.
  method Perform(conn: TcpConnection, e: Event)
    requires conn.Valid() && Enabled(conn.View(), e)
    requires e.Readable? ==> |e.data| <= ReadRoom(conn.inputBuffer.WritableBytes())
    modifies conn, conn.inputBuffer, conn.inputBuffer.buffer
    modifies conn.outputBuffer, conn.outputBuffer.buffer, conn.socket
    modifies conn.channel, conn.poller
    ensures conn.Valid() && conn.poller.OnlyTouched(conn.channel) && conn.View() == Next(old(conn.View()), e)
    ensures conn.inputBuffer.buffer == old(conn.inputBuffer.buffer) || fresh(conn.inputBuffer.buffer)
    ensures conn.outputBuffer.buffer == old(conn.outputBuffer.buffer) || fresh(conn.outputBuffer.buffer)
  {
    hide Has, Channel.Usable, ConnModel.SendInLoop, ConnModel.SendFileInLoop, ConnModel.HandleWrite, ConnModel.RunTask;
    match e {
      case Establish => conn.ConnectEstablished();
      case Readable(data) => var _ := conn.HandleRead(Bytes(data));
      case Consume(n) => var _ := conn.inputBuffer.RetrieveAsString(n);
      case Writable(w) => conn.HandleWrite(w);
      case Close => conn.HandleClose();
      case Destroy => conn.ConnectDestroyed();
      case UserSend(data, w) => conn.Send(data, true, w);
      case UserQueueSend(data) => conn.Send(data, false, Done(0));
      case UserSendFile(file, offset, count, w) => conn.SendFile(file, offset, count, true, w);
      case UserQueueSendFile(file, offset, count) => conn.SendFile(file, offset, count, false, Done(0));
      case UserShutdown => conn.Shutdown(true);
      case UserQueueShutdown => conn.Shutdown(false);
      case Task(w) => conn.RunTask(w);
    }
  }
}
