# Verified model of a multi-loop TCP reactor

This project models a small C++ network library built from one event loop per thread, and proves what
its parts keep over whole runs. It has two layers.

* The imperative layer follows the source class by class: `Buffers.Buffer`, `Reactor.Channel` and
  `Reactor.EPollPoller`, `Sockets.Socket`, `TcpConnections.TcpConnection`, `EventLoops.EventLoop`,
  `ThreadPool.EventLoopThreadPool`, `TcpServers.TcpServer`, and the echo program in `EchoServers`.
  The contract of each handler and operation says what the new state is and what stays as it was.
* The machine layer is about values. `BufferLayout` is the buffer's index arithmetic, `ConnModel` one
  connection with its socket and its posted tasks, `EchoModel` the echo program on it, `LoopProtocol` the
  task queue and eventfd with every thread interleaved at each lock, flag and eventfd operation, and
  `Lifecycle` the whole server: any number of loops and connections, one action of one thread a step.
  `ConnEffects` says of every event of a connection what it does to each of its parts. The theorems are about every
  legal run of these machines: `ConnTheorems`, `Handover`, `HalfClose`,
  `ShutdownCalls`, `AfterClose`, `FileTransfer`, `EchoModel`, `LoopProtocol`,
  `LifecycleInvariant`, `LifecycleTheorems`, `RawTasks`, `LateTasks` and `Rearming`; `Driving` says how the loops can
  always go on, and `Scenarios` has runs into the states that the last two speak of.

The layers meet in the classes' contracts. A connection's `View()` moves by the `ConnModel` function of the
same name (`TcpConnections.Perform` does so for every event), a buffer's `Shape()` by `BufferLayout`; an event
loop and a server record the steps they take, so each of their states is a reachable state of `LoopProtocol`
or `Lifecycle`.

The operating system is an adversary bound by contracts: `write`, `readv` and `sendfile` answer with an error
or a count no larger than the request, `sendfile` advances the offset by its count, `write` and `sendfile` take no
byte once the write side has been shut down, `epoll_wait` reports registered descriptors, each once and with the
pointer stored for it, and the kernel never hands out a descriptor that is still open. Those answers are parameters of the methods and of the events.

The poller's two tables are written once, in `PollerTables`: the poller object of `Reactor` and the pollers of
`Lifecycle`'s loops both move by its functions.

What the proofs say about the code where it departs from its own comments, or from what one would expect:

* `sendInLoop` in `kDisconnected` logs "give up writing" and goes on writing (`AfterClose.QueuedSendOutlivesClose`),
  and so does `sendFileInLoop`, which logs "disconnected" but stops in `kDisconnecting` only
  (`AfterClose.QueuedFileOutlivesClose`). A send that finds the socket full turns EPOLLOUT of the closed connection
  on again (`AfterClose.ClosedButWriting`). `AfterClose.ClosedStepWritesExactly` says which events write, and
  `AfterClose.WireIsFinalExactly`, `AfterClose.CloseIsFinalExactly` and `AfterClose.DestroyIsFinalExactly` when the
  writing is over for good; a backlog that is there when `connectDestroyed` finds EPOLLOUT on is lost
  (`AfterClose.DestroyedWriting`).
* A file step that waits behind the backlog of a closed connection queues itself again for ever
  (`AfterClose.StrandedForEver`), and so does one that asks for bytes past the end of the file
  (`FileTransfer.NoFitNoEnd`); `FileTransfer.CanCompleteExactly` says which transfers can ever be complete.
* A half-close can leave a queued send behind. `ShutdownCalls.ShutdownIsGracefulExactly` and
  `ShutdownCalls.QueuedShutdownIsGracefulExactly` say, at the call of `shutdown()`, exactly when none that can follow
  does; `ShutdownCalls.OffThreadShutdownOvertakesSend` is an instance.
* A `sendInLoop` or `shutdownInLoop` queued by another thread is bound to a bare `this`. It finds its connection
  alive if and only if it is queued in time (`LateTasks.BareTaskIsSafeExactly`); being too late can happen
  (`Scenarios.LateIsReachable`), because the test of the state and the queueing are not one step.
* Such a `sendInLoop` that runs in `kDisconnected` and finds the socket full registers the closed channel again. The
  connection can then be closed a second time, with a second down callback and a second removal, if and only if its
  destruction is not still to run in the same batch (`Rearming.RearmClosesAgainExactly`); and its object can be
  released with its channel in the poller's map if and only if none of its closes is still to be seen through
  (`Rearming.RearmDanglesExactly`). All of this can happen (`Scenarios.RearmIsReachable`,
  `Scenarios.OrphanIsReachable`). The theorems that it spoils say for which runs they hold: those in which every
  rearming is harmless in the one sense or the other, among them all runs of programs that call `send` on the loop's
  thread only.
* A task that the loop's own thread queues outside `loop()`, before it or between two calls of it, is not announced.
  `LoopProtocol.EarlyTaskIsLostExactly` says at the call exactly when a `poll` can leave it waiting with nothing to
  wake the loop, and `LoopProtocol.WakeupLostExactly` in which polls that is so; `LoopProtocol.EarlyTaskIsStranded`
  is an instance.
* A hang-up with urgent and no ordinary data can close a connection twice in one dispatch;
  `Reactor.DispatchClosesOnce` says exactly when.
* Two `disableAll` calls in a row register the descriptor again, with an empty mask
  (`Reactor.Channel.DisableAll`).
* The buffer never grows as far as 8 + 2 * peak for a peak of readable bytes, which the compact-or-grow test
  suggests: `BufferLayout.CapacityBound` proves 8 + max(initial, 2 * peak - 2), and
  `BufferLayout.CapacityBoundIsTight` that this is attained.

## Model

| member | source | states |
|---|---|---|
| BufferLayout.CapacityBound | include/Buffer.h:85-148 | Over any sequence of appends, reads and retrieves the vector is never longer than 8 + max(initialSize, 2 * peak - 2), where peak is the longest the queue has been. |
| BufferLayout.CapacityBoundIsTight | include/Buffer.h:123-148 | For every peak above the initial size three operations attain that bound. |
| BufferLayout.AppendWithinBound | include/Buffer.h:100-106 | One append keeps any layout within the bound of a peak it does not exceed: growth happens only when less than `len` can be reclaimed. |
| BufferLayout.ReceiveWithinBound | src/Buffer.cc:47-61 | The same for a read that may spill into the stack buffer. |
| BufferLayout.RunHoldsQueue | include/Buffer.h:34-66 | After any sequence of operations the readable length is that of a plain FIFO queue. |
| BufferLayout.Layout.Reserve | include/Buffer.h:85-148 | Nothing if the tail has room; else growth to exactly the room asked for if less than that is free altogether, else compaction. Compaction or growth leaves the readable length, never shrinks the vector, keeps 8 <= reader <= writer <= size, and leaves at least `len` writable. |
| Buffers.CopyForward | include/Buffer.h:139-142 | The overlapping copy toward lower indices gives every destination byte its old source byte and leaves the rest of the array; the destination must lie below the source, which compaction guarantees. |
| Buffers.Buffer.MakeSpace | include/Buffer.h:123-148 | Compaction and growth change no readable byte, and move the indices as `Layout.Reserve` does. |
| Buffers.Buffer.EnsureWritableBytes | include/Buffer.h:85-91 | Afterwards at least `len` bytes are writable and the readable bytes are the same. |
| Buffers.Buffer.Append | include/Buffer.h:100-106 | Adds exactly the given bytes at the end of the queue. |
| Buffers.Buffer.Fill | include/Buffer.h:104-105 | The copy into a tail with room. |
| Buffers.Buffer.Retrieve | include/Buffer.h:47-58 | Drops a prefix; asking for as much as there is, or more, empties the queue and resets the indices. |
| Buffers.Buffer.RetrieveAll | include/Buffer.h:62-66 | Empties the queue and moves both indices back to 8. |
| Buffers.Buffer.RetrieveAsString | include/Buffer.h:69-74 | The bytes returned followed by those left are the old queue; beyond the readable bytes it returns whatever follows them in the vector. |
| Buffers.Buffer.RetrieveAllAsString | include/Buffer.h:78-81 | Returns the whole queue and leaves it empty. |
| Buffers.Buffer.Readv | src/Buffer.cc:30-48 | The received bytes are the vector's tail followed by the start of the stack buffer, and no readable byte changes. |
| Buffers.Buffer.ReadFd | src/Buffer.cc:18-65 | Adds exactly the received bytes, wherever the two-part read left them; an error changes nothing and is reported. |
| Buffers.Buffer.Overflow | src/Buffer.cc:57-61 | The tail of a full vector followed by the spilled bytes joins the queue in order. |
| Buffers.Buffer.WriteFd | src/Buffer.cc:72-82 | Offers the whole queue; the socket gets a prefix of it and the queue keeps it until it is retrieved. |
| Buffers.AnyUse | include/Buffer.h:47-148 | Any sequence of appends, reads and retrieves on one object leaves exactly the FIFO queue in it, within the capacity bound. |
| Buffers.QueueHasItsLength | include/Buffer.h:34-39 | The byte queue is as long as the layout machine's queue. |
| Sockets.Socket.Write | src/TcpConnection.cc:281 | write(2) takes a prefix of the data or nothing. |
| Sockets.Socket.Sendfile | src/TcpConnection.cc:362 | sendfile(2) sends the file's bytes from the offset on and advances the offset by its count. |
| Sockets.Socket.ShutdownWrite | src/Socket.cc:66-72 | The call is recorded with what is on the wire at that moment. |
| Reactor.DispatchClosesOnce | src/Channel.cc:89-128 | One dispatch closes the connection at most once if and only if it is not a hang-up with urgent and without ordinary data whose read finds the end of the stream. |
| Reactor.Channel.HandleEvent | src/Channel.cc:70-128 | No callback runs once the owner is gone; otherwise close, error, read and write run in that order, each exactly when its bits are set. |
| Reactor.CallbacksFit | src/Channel.cc:89-128 | The callbacks of a dispatch: close iff HUP without IN, error iff ERR, read iff IN or PRI, write iff OUT, each once and in that order. |
| Reactor.MasksAreEvents | src/Channel.cc:8-13 | The two interests are the epoll bits that dispatch tests. |
| Reactor.Channel.Tie | src/Channel.cc:40-44 | From here on events reach the channel only while its owner exists. |
| Reactor.Channel.EnableReading | include/Channel.h:61 | Turns read interest on, leaves write interest, and the poller's map, the kernel and index_ agree again. |
| Reactor.Channel.DisableReading | include/Channel.h:62 | Turns read interest off, leaves write interest, with agreement restored. |
| Reactor.Channel.EnableWriting | include/Channel.h:63 | Turns write interest on, leaves read interest, with agreement restored. |
| Reactor.Channel.DisableWriting | include/Channel.h:64 | Turns write interest off, leaves read interest, with agreement restored. |
| Reactor.Channel.DisableAll | include/Channel.h:65 | Turns all interest off; a registered channel is unregistered but stays mapped, and an unregistered one is registered with an empty mask. |
| Reactor.Channel.Remove | src/Channel.cc:62-65 | The channel leaves the map and the kernel's set. |
| Reactor.EPollPoller.EpollCtl | src/EPollPoller.cc:193 | The kernel's rule: ADD fails on a registered descriptor, MOD and DEL on an unregistered one, and a failure changes nothing. |
| Reactor.EPollPoller.Update | src/EPollPoller.cc:181-204 | A failing ADD or MOD ends the program, a failing DEL is only logged. |
| Reactor.EPollPoller.UpdateChannel | src/EPollPoller.cc:102-143 | Whatever the channel's mask has become, afterwards map, kernel mask and pointer, and index_ agree for every channel, no epoll_ctl has failed, and no other descriptor's entries changed. |
| Reactor.EPollPoller.RemoveChannel | src/EPollPoller.cc:147-161 | The descriptor is neither mapped nor registered, index_ is kNew, and every other channel still agrees. |
| Reactor.EPollPoller.Updated | src/EPollPoller.cc:102-143 | What updateChannel does to the fields restores agreement, with no failing epoll_ctl. |
| Reactor.EPollPoller.TablesUpdated | src/EPollPoller.cc:102-143 | The object's tables move by the same function as those of the server model's pollers. |
| Reactor.EPollPoller.OthersStillAgree | src/EPollPoller.cc:102-161 | A change to one descriptor's entries leaves every other channel in agreement. |
| Reactor.EPollPoller.FillActiveChannels | src/EPollPoller.cc:167-176 | The active list is the reported channels in order, each with its reported events, and all of them are registered channels of this poller. |
| Reactor.EPollPoller.Poll | src/EPollPoller.cc:42-92 | As above, nothing on a timeout or error, and the event array is doubled exactly when it was full. |
| Reactor.AnySequence | src/EPollPoller.cc:102-161 | After any sequence of interest changes and removals over channels with distinct descriptors, every channel agrees with map and kernel, and no epoll_ctl has failed. |
| ConnTheorems.StreamConservation | src/TcpConnection.cc:178-394 | In every run the bytes on the wire followed by the output buffer are the accepted data, in order: every send that did not fault and every file chunk that was taken; and the wire is only ever extended. |
| ConnTheorems.NextIsSound | src/TcpConnection.cc:178-404 | What each event keeps: the stream, the interest-backlog relation, the half-close condition, and which tasks are posted. |
| ConnTheorems.RunIsConsistent | src/TcpConnection.cc:118-404 | The invariant holds in every reachable state. |
| ConnTheorems.WriteInterestTracksBacklog | src/TcpConnection.cc:178-201 | EPOLLOUT interest implies a backlog, and in kConnected and kDisconnecting the two are equivalent. |
| ConnTheorems.WriteCompleteMeansDrained | src/TcpConnection.cc:283-290 | Write-complete is posted exactly by a request the socket took whole, the last chunk of a file, and a flush that left nothing; and only with an empty buffer and EPOLLOUT off. |
| ConnTheorems.CompletionIsPosted | src/TcpConnection.cc:186-201 | The same for one event from any consistent state. |
| ConnTheorems.HighWaterEdgeTriggered | src/TcpConnection.cc:316-328 | The high-water tasks posted in a run number exactly the upward crossings of the backlog through the mark, or zero without the callback. |
| ConnTheorems.SendIsSound | src/TcpConnection.cc:258-339 | sendInLoop, whatever the socket answers: nothing is lost behind the wire but the whole of a faulted send. |
| ConnTheorems.SendFileIsSound | src/TcpConnection.cc:343-394 | sendFileInLoop extends the stream by exactly the chunk that was taken. |
| ConnTheorems.FlushIsSound | src/TcpConnection.cc:178-212 | handleWrite moves bytes from the buffer to the wire and neither adds nor loses one. |
| ConnEffects.EffectOfEvent | src/TcpConnection.cc:67-407 | From every consistent state every event has exactly its effects: what the kernel took goes to the wire; the backlog keeps what was stored and not taken; EPOLLOUT, EPOLLIN, registration and state change exactly when they should; the write side closes exactly at a shutdown with EPOLLOUT off and at the flush that ends a closing connection's backlog; and exactly these tasks are posted, with these contents. |
| ConnEffects.EffectOfSend | src/TcpConnection.cc:258-339 | The same for a send, at once or from the queue: EPIPE and ECONNRESET, and no other answer, drop it. |
| ConnEffects.EffectOfSendFile | src/TcpConnection.cc:343-394 | The same for a step of a file transfer. |
| ConnEffects.EffectOfFlush | src/TcpConnection.cc:178-212 | The same for handleWrite. |
| ConnEffects.EffectOfTask | src/TcpConnection.cc:398-407 | The same for a queued shutdown and for callbacks. |
| Handover.FlushExactly | src/TcpConnection.cc:180-192 | In every state a flush moves exactly the answered bytes from the front of the backlog to the wire, if and only if EPOLLOUT is on and the kernel took some. |
| Handover.WireIsWhatWasTaken | src/TcpConnection.cc:185-384 | Over every run the wire is what the kernel took at each write and sendfile the handlers make, and as long as its answers' sum. |
| Handover.MessagesAsGiven | src/TcpConnection.cc:67-86 | Over every run each message handed to send() while connected is as it was given: run in the order of its thread's calls, or still queued in that order; what was accepted is the messages run, without those that found the peer gone. |
| Handover.QueuedAsGiven | src/TcpConnection.cc:80-81 | The messages in the queue's history are those of the off-thread calls, in order. |
| Handover.RequestsAsGiven | src/TcpConnection.cc:90-106 | Each transfer's request is its call's, and a queued call's first step asks for all of it. |
| Handover.ShutdownTakesEffect | src/TcpConnection.cc:115-123 | Over every run: a closing connection with no shutdown in the queue and no backlog has closed its write side; a queued shutdown closes it in its turn if and only if EPOLLOUT is off. |
| HalfClose.GracefulHalfClose | src/TcpConnection.cc:114-123 | After a shutdown on the loop's thread with no send in the queue, whatever other threads do: the write side closes at most once, with exactly the bytes accepted before shutdown() on the wire; in kDisconnecting it has closed if and only if the backlog is gone; nothing reaches the wire afterwards while closing; no send is accepted after shutdown(). |
| HalfClose.ClosingOverRuns | src/TcpConnection.cc:178-201 | The invariant behind it, over every such run. |
| HalfClose.ClosingStep | src/TcpConnection.cc:398-407 | A half-close happens only in kDisconnecting with an empty buffer, and only shutdown() leads there. |
| HalfClose.NothingAcceptedAfterShutdown | src/TcpConnection.cc:67-86 | With no send in the queue, no send is accepted outside kConnected, and in kDisconnecting no file chunk either. |
| HalfClose.OnThreadIsUnhurried | src/TcpConnection.cc:67-86 | A program that calls send and shutdown on the loop's thread only always shuts down that way. |
| TaskQueue.IssuedConservation | src/TcpConnection.cc:67-86 | From any threads: every byte handed to send() while connected has been accepted, has faulted, or is in a queued sendInLoop. |
| TaskQueue.DebtStep | src/TcpConnection.cc:67-86 | The same account, kept by each event. |
| TaskQueue.OwesNothingExactly | src/TcpConnection.cc:80-81 | The queue owes no byte if and only if no queued sendInLoop has data. |
| TaskQueue.SkipTasks | src/TcpConnection.cc:258-394 | Once connected no longer, any number of queued tasks without data can pass without a change to the stream. |
| ShutdownCalls.ShutdownIsGracefulExactly | src/TcpConnection.cc:115-123 | shutdown() on the loop's thread: no half-close in any continuation leaves accepted or issued data behind, if and only if no send with data is in the queue at the call. |
| ShutdownCalls.QueuedShutdownIsGracefulExactly | src/TcpConnection.cc:115-123 | shutdown() from another thread: the same, if and only if no such send is queued, or a single one and EPOLLOUT is off. |
| ShutdownCalls.HalfCloseDebt | src/TcpConnection.cc:190-201 | At a half-close of a connection not yet closed all accepted data is on the wire, and all issued data too (faults apart) if and only if no send with data is queued. |
| ShutdownCalls.SafeStep | src/TcpConnection.cc:178-404 | What makes a shutdown safe is kept by every event of every thread, and then a half-close finds no send waiting. |
| ShutdownCalls.FlushOvertakes | src/TcpConnection.cc:190-201 | A flush of the whole backlog half-closes past any queued send. |
| ShutdownCalls.FirstOfTwoOvertakes | src/TcpConnection.cc:258-339 | Of two queued sends the first can be buffered and flushed, and the write side closed, before the second runs. |
| TaskQueue.NoShutdownYet | src/TcpConnection.cc:118-122 | Before shutdown() has taken effect the write side is open and no shutdownInLoop is queued. |
| ShutdownCalls.OffThreadShutdownOvertakesSend | src/TcpConnection.cc:118-122 | A run in which an off-thread shutdown closes the write side with an earlier send still queued. |
| AfterClose.ClosedStepWritesExactly | src/TcpConnection.cc:258-384 | In kDisconnected an event writes if and only if it is a flush with EPOLLOUT on or a queued send or file step that goes straight to the socket, and the socket takes something. |
| AfterClose.WireIsFinalExactly | src/TcpConnection.cc:139-394 | In kDisconnected no continuation writes another byte if and only if the write side is closed; or the channel has left the poller with EPOLLOUT on; or EPOLLOUT is off and every queued send with data, and without a backlog every queued file step that can send, waits behind a shutdownInLoop. |
| AfterClose.CloseIsFinalExactly | src/TcpConnection.cc:216-222 | A close ends the writing if and only if, as it happens, the write side is closed or nothing that waits can send. |
| AfterClose.DestroyIsFinalExactly | src/TcpConnection.cc:139-149 | connectDestroyed ends it if and only if besides EPOLLOUT may be on: then whatever waits only adds to the backlog. |
| AfterClose.DestroyedWriting | src/TcpConnection.cc:139-149 | A run that ends that way, with a backlog that no event and no task can bring to the socket. |
| AfterClose.SilentOverRuns | src/TcpConnection.cc:258-394 | A silent connection stays silent, with its wire as it is, whatever happens. |
| AfterClose.QueuedSendIsNotFinal | src/TcpConnection.cc:264-337 | A send queued anywhere behind other tasks can still bring bytes to the wire, unless the write side is closed first. |
| AfterClose.QueuedFileIsNotFinal | src/TcpConnection.cc:351-366 | So can a file step, when there is no backlog. |
| AfterClose.FullSocketReenables | src/TcpConnection.cc:316-336 | In kDisconnected a send that finds the socket full turns EPOLLOUT on again. |
| AfterClose.StrandedForEver | src/TcpConnection.cc:386-392 | A file step behind the backlog of a silent connection is in the queue in every continuation. |
| AfterClose.QueuedSendOutlivesClose | src/TcpConnection.cc:264-281 | A run in which a queued send reaches the socket in kDisconnected. |
| AfterClose.QueuedFileOutlivesClose | src/TcpConnection.cc:351-362 | A run in which a queued file step does. |
| AfterClose.ClosedButWriting | src/TcpConnection.cc:316-336 | A run that ends in kDisconnected with EPOLLOUT on. |
| FileTransfer.FileTransferExact | src/TcpConnection.cc:343-394 | Whatever else is sent meanwhile: one transfer's chunks are the file from the requested offset, with no gap or repeat; offset + remaining is constant over its steps; the queued step continues where the chunks stop; and unless a step is queued or was dropped, all of it has been sent. |
| FileTransfer.RunTracks | src/TcpConnection.cc:386-392 | The account of all transfers holds over every run, with at most one step of each in the queue. |
| FileTransfer.FileStep | src/TcpConnection.cc:358-392 | One step of a transfer keeps every transfer's account. |
| FileTransfer.CanCompleteExactly | src/TcpConnection.cc:343-394 | A request made on the loop's thread with the socket free can be complete, in whatever continuation, if and only if it asks for bytes the file has. |
| FileTransfer.NoFitNoEnd | src/TcpConnection.cc:364-392 | One that asks for more is never complete: a step of it waits in every state, unless it is dropped. |
| FileTransfer.SliceExtends | src/TcpConnection.cc:362-366 | A chunk that starts where the last one stopped extends the slice of the file. |
| EchoModel.EchoEndToEnd | example/testserver.cc:63-69 | The wire followed by the output buffer is everything read if and only if no write has faulted; then the output is a prefix of the input. |
| EchoModel.EchoConservation | example/testserver.cc:63-69 | In every run of the echo server the wire followed by the buffer is everything read apart from the faulted messages. |
| EchoModel.KeptLength | src/TcpConnection.cc:292-304 | A faulted message is a loss: what is kept is strictly shorter than what was read. |
| EchoModel.EchoRunsAreRuns | example/testserver.cc:63-69 | Every run of the echo server is a run of the connection machine, so all its theorems apply. |
| TcpConnections.TcpConnection.constructor | src/TcpConnection.cc:29-56 | A new connection is in the machine's initial state, with a channel its poller does not know yet. |
| TcpConnections.TcpConnection.Enqueue | src/TcpConnection.cc:316-337 | Stores the rest, turns EPOLLOUT on and reports a crossed mark, as the machine does. |
| TcpConnections.TcpConnection.SendInLoop | src/TcpConnection.cc:258-339 | The handler moves the whole connection as the machine's function, so its theorems hold of it. |
| TcpConnections.TcpConnection.SendFileInLoop | src/TcpConnection.cc:343-394 | Likewise. |
| TcpConnections.TcpConnection.HandleWrite | src/TcpConnection.cc:178-212 | Likewise, through writeFd and retrieve on the array. |
| TcpConnections.TcpConnection.HandleRead | src/TcpConnection.cc:156-175 | Data goes to the end of the input buffer, the end of the stream closes, an error changes nothing. |
| TcpConnections.TcpConnection.HandleClose | src/TcpConnection.cc:216-222 | The state is kDisconnected, all interest is off, and neither buffer nor wire changes. |
| TcpConnections.TcpConnection.ConnectEstablished | src/TcpConnection.cc:127-135 | Connected, tied, and registered for reading. |
| TcpConnections.TcpConnection.ConnectDestroyed | src/TcpConnection.cc:139-149 | Disconnected, with the channel out of map and kernel and its mask as it was. |
| TcpConnections.TcpConnection.ShutdownInLoop | src/TcpConnection.cc:398-407 | Closes the write side exactly when EPOLLOUT is off. |
| TcpConnections.TcpConnection.Send | src/TcpConnection.cc:67-86 | At once on the loop's thread, queued from another, nothing unless connected. |
| TcpConnections.TcpConnection.SendFile | src/TcpConnection.cc:90-112 | Likewise for files. |
| TcpConnections.TcpConnection.Shutdown | src/TcpConnection.cc:115-123 | The state changes at once, the half-close at once or through the queue. |
| TcpConnections.TcpConnection.RunTask | src/TcpConnection.cc:80-81 | The loop runs the connection's next queued task, as the machine does. |
| TcpConnections.Perform | src/TcpConnection.cc:67-407 | Every event of the machine is one call on the object, so the object goes through runs of the machine. |
| EchoServers.OnMessage | example/testserver.cc:63-69 | Drains the whole input buffer and sends it back. |
| EchoServers.ReadAndEcho | src/TcpConnection.cc:156-164 | handleRead with that callback is one message step of the echo machine. |
| EchoServers.React | example/testserver.cc:63-69 | Whatever happens next, the connection object takes the echo machine's step for it, or none. |
| EchoServers.Serve | example/testserver.cc:63-69 | A fresh connection object under any script of arrivals, writability, tasks, hang-ups and destruction: the socket's bytes followed by the output buffer's are everything read, if and only if no write faulted. |
| EchoServers.Meaning | src/TcpConnection.cc:156-212 | Whatever the environment offers counts, cut down only to what its contracts allow. |
| LoopProtocol.NoLostWakeup | src/EventLoop.cc:79-175 | When the loop is at or blocked in poll with a task waiting, the eventfd is readable or some thread is between its push and its wakeup; the same for a quit from another thread. Given that the owner queues only from inside loop(). |
| LoopProtocol.WakeupLostExactly | src/EventLoop.cc:129-147 | Without that discipline a poll leaves tasks waiting with nothing on the way to the loop if and only if all that was queued since the last batch was queued by the owner outside loop(), and since the eventfd was last read nobody has called wakeup() or is about to. |
| LoopProtocol.EarlyTaskIsLostExactly | src/EventLoop.cc:143-146 | When the owner queues a task outside loop(): some continuation leaves it waiting in such a poll if and only if, at the call, the eventfd is not readable and no thread is about to write it. |
| LoopProtocol.EarlyTaskIsStranded | src/EventLoop.cc:143-146 | Such a run: the task waits behind a poll that nothing wakes. |
| LoopProtocol.QuietMeansDone | src/EventLoop.cc:79-94 | A loop that waits in poll with nothing on the way to it has run everything ever queued. |
| LoopProtocol.TaskConservation | src/EventLoop.cc:195-213 | Executed tasks, the rest of the batch and the waiting tasks are the queueing history in lock order; each thread's tasks run in its order; a batch is what was queued before it was taken. |
| LoopProtocol.WakeupDelivers | src/EventLoop.cc:81-93 | Once no thread is between push and wakeup, a loop in poll with tasks waiting can by itself go through one turn, after which all of them have run. |
| LoopProtocol.InvStep | src/EventLoop.cc:79-213 | Every step of every thread keeps the invariant. |
| LoopProtocol.InvOverRuns | src/EventLoop.cc:79-213 | The invariant holds in every reachable state, for any number of threads and any interleaving. |
| LoopProtocol.RunBatch | src/EventLoop.cc:206-210 | Running n tasks of the batch executes its first n, in order. |
| LoopProtocol.ByThreadConcat | src/EventLoop.cc:129-134 | A thread's tasks in two stretches of the queue, one after the other, are its tasks in both. |
| EventLoops.EventLoop.Wakeup | src/EventLoop.cc:151-161 | The eventfd is readable afterwards, even when the write fails because the count is full. |
| EventLoops.EventLoop.QueueInLoop | src/EventLoop.cc:129-147 | The task goes behind all the others, and the loop is woken if another thread queued it or a batch is running. |
| EventLoops.EventLoop.RunInLoop | src/EventLoop.cc:115-125 | On the loop's own thread at once, otherwise queued and woken for. |
| EventLoops.EventLoop.HandleRead | src/EventLoop.cc:165-175 | The eventfd's count is zero afterwards; nothing else changes. |
| EventLoops.EventLoop.Quit | src/EventLoop.cc:102-111 | quit_ is set, and the loop is woken when another thread asked. |
| EventLoops.EventLoop.DoPendingFunctors | src/EventLoop.cc:195-213 | Runs exactly the tasks that waited, in order; what they and other threads queue meanwhile waits for the next batch, in lock order, with the loop woken for it. |
| EventLoops.EventLoop.RunFunctors | src/EventLoop.cc:206-210 | The same for the loop over the taken batch. |
| EventLoops.EventLoop.TakeTurn | src/EventLoop.cc:79-94 | One turn, with other threads acting while it polls and between any two callbacks or tasks: it calls the callbacks and then everything that waited, came in or was queued by them, and leaves waiting exactly what was queued during its batch, with the eventfd readable. |
| EventLoops.EventLoop.Interference | src/EventLoop.cc:102-147 | Other threads' tasks go behind those there, in their order, and the loop is woken for them. |
| EventLoops.EventLoop.HandleEvents | src/EventLoop.cc:87-90 | The callbacks run in the order of the active channels, the i-th as the i-th call; what they and other threads queue meanwhile joins the queue in lock order. |
| EventLoops.EventLoop.Call | src/EventLoop.cc:207-210 | What a functor queues goes behind everything there, in the order it queued it. |
| EventLoops.EventLoop.HandleActive | src/EventLoop.cc:87-90 | The callbacks before and after the wakeup channel's, each in order. |
| EventLoops.CallsInOrder | src/EventLoop.cc:79-94 | A turn's calls are the callbacks in order, then what waited in order, then what came in while polling. |
| EventLoops.LeftHasAll | src/EventLoop.cc:129-134 | Everything queued around a batch waits after it. |
| EventLoops.EventLoop.Begin | src/EventLoop.cc:73-74 | A quit() before loop(), on whichever thread, is forgotten. |
| EventLoops.EventLoop.Loop | src/EventLoop.cc:71-98 | Over any number of turns, the first time or after an earlier return: what is called and what is left waiting; executed tasks followed by waiting ones are everything queued; what is left is woken for; and in each turn the callbacks and the tasks ran in order. |
| LifecycleTheorems.ExactlyOneStatus | src/TcpServer.cc:74-151 | In every state of a run in which no sendInLoop rearms a closed channel, or only with the destruction still ahead in its batch: every accepted connection is in exactly one place: establishment queued on its loop, live, removal queued or running on the main loop, destruction queued on its loop, or done; connections_ holds it exactly until its removal runs; and the user has heard of at most one down. |
| LifecycleTheorems.EveryCloseOnce | src/TcpServer.cc:130-151 | In every run: a connection is waiting to be established, live or closed; each of its closes, told to the user as one down, is one removal queued or running, one destruction queued, or one that is over, and on no other loop is anything of it. |
| LifecycleTheorems.ClosedAtMostOnce | src/TcpConnection.cc:216-228 | With harmless rearming only, no connection is closed twice. |
| LifecycleTheorems.ConnectionMovesForward | src/TcpConnection.cc:127-149 | In every run the state only moves forward, and the user hears of one up, then messages, then a down for each close. |
| LifecycleTheorems.ChannelsAreHeld | src/EventLoop.cc:81-93 | Every channel in a poller's map, in an active list or being handled belongs to an existing connection that is held, and is mapped, if no channel was rearmed with all its closes seen through. |
| LifecycleTheorems.ActiveAreLive | src/EventLoop.cc:81-93 | With harmless rearming only, every connection in an active list is live and in connections_. |
| LifecycleTheorems.NothingDangles | src/TcpServer.cc:145-151 | When a connection object goes, no poller, active list or running dispatch mentions it, under the condition of ChannelsAreHeld. |
| LifecycleTheorems.EntriesStay | src/EPollPoller.cc:113-160 | In every run an existing connection's entry in a poller's map is never overwritten: it goes when its own connection is destroyed on its own loop, between dispatches, or is released, which under that condition it is not. |
| LifecycleTheorems.FreeFd | src/EPollPoller.cc:113-125 | A connection about to be registered finds its descriptor not in the epoll set, and mapped to no existing connection. |
| LifecycleTheorems.MappedIsAlive | src/EPollPoller.cc:113-117 | A mapped descriptor's connection exists, is held, has that descriptor and belongs to that loop, under that condition. |
| LifecycleTheorems.HarmlessIsInHand | src/TcpServer.cc:147-150 | A destruction still ahead in the batch is a close not yet seen through, so the first condition is the stronger. |
| LifecycleTheorems.DestroyFindsClosed | src/TcpConnection.cc:139-149 | connectDestroyed always finds its connection disconnected, so the user is not told again; and unregistered, unless a send has rearmed it. |
| LifecycleTheorems.TurnSteps | src/EventLoop.cc:79-94 | A loop handles the reported channels one by one, each held while it is, and then takes exactly what waits as its batch. |
| LifecycleTheorems.PostSteps | src/EventLoop.cc:129-134 | What is queued goes behind everything there, and nothing else changes. |
| LifecycleTheorems.MessageTells | src/TcpConnection.cc:160-164 | A read tells the user of one message, and of no other connection. |
| LifecycleTheorems.EstablishTells | src/TcpConnection.cc:127-135 | Establishment tells of one up and registers the channel. |
| LifecycleTheorems.ConnSteps | src/TcpConnection.cc:118-120 | shutdown() changes its connection's state alone, a release its life alone. |
| LifecycleTheorems.ArmSteps | src/TcpConnection.cc:190-192 | A rearming send registers its channel, and the flush that ends its backlog unregisters it. |
| LifecycleInvariant.UnreferencedIsDone | src/TcpServer.cc:138-151 | A connection that nobody holds has had each of its closes seen through. |
| LifecycleInvariant.InvStep | src/TcpServer.cc:74-151 | Every step of every loop's thread and every other thread keeps the invariant. |
| LifecycleInvariant.InvOverRuns | src/TcpServer.cc:74-151 | The invariant holds in every reachable state. |
| LifecycleInvariant.EstablishStep | src/TcpConnection.cc:127-135 | Establishment takes its queued token and leaves a live connection. |
| LifecycleInvariant.CloseStep | src/TcpConnection.cc:216-228 | A close is told as one down and makes exactly one removal, queued on the main loop or begun there. |
| LifecycleInvariant.RemoveStep | src/TcpServer.cc:138-145 | Removal takes its token off the main loop and the connection out of connections_, and is then under way. |
| LifecycleInvariant.QueueDestroyStep | src/TcpServer.cc:147-150 | Removal's last act queues exactly one destruction on the connection's own loop. |
| LifecycleInvariant.DestroyStep | src/TcpConnection.cc:139-149 | Destruction takes its token, finds the connection closed and leaves its channel unregistered. |
| LifecycleInvariant.AcceptElsewhereStep | src/TcpServer.cc:124-125 | A connection given to a sub loop starts with its establishment queued there, once. |
| LifecycleInvariant.AcceptHereStep | src/TcpServer.cc:124-125 | With no sub loop it is live at once. |
| LifecycleInvariant.RearmStep | src/TcpConnection.cc:331-336 | A sendInLoop of a closed connection that turns EPOLLOUT on keeps the invariant. |
| LifecycleInvariant.WriteStep | src/TcpConnection.cc:190-192 | So does the flush that turns it off again. |
| RawTasks.InTimeFindsConnection | src/TcpConnection.cc:80-81 | If every bare-this task of a history is queued in time, each finds its connection alive when it runs. |
| RawTasks.RawOverRuns | src/TcpConnection.cc:118-121 | The invariant behind it, over every such run. |
| RawTasks.RawStep | src/TcpServer.cc:138-151 | Every step of every thread keeps it. |
| LateTasks.BareTaskIsSafeExactly | src/TcpConnection.cc:80-81 | In every continuation in which the bare tasks queued later, if any, are in time, this one and every other finds its connection alive; and that is so if and only if, as it is queued, the connection is in connections_, its removal is queued or running, or a task in the same queue holds it. |
| LateTasks.LateFindsItGone | src/TcpServer.cc:147-150 | Otherwise the loops can go on, with no further bare task, so that it runs with its connection gone. |
| LateTasks.ConnectedIsInTime | src/TcpConnection.cc:70-81 | A caller whose connection is still connected when it queues is in time. |
| Rearming.RearmClosesAgainExactly | src/TcpConnection.cc:216-228 | From any reachable state, on the main loop or a sub loop: after a queued sendInLoop has registered a closed channel again, some continuation closes the connection again, with one more down and one more removal, if and only if its destruction is not still to run in the same batch. |
| Rearming.SpentForEver | src/TcpServer.cc:147-150 | If it is, no continuation does, whatever any thread does. |
| Rearming.RearmDanglesExactly | src/TcpServer.cc:138-151 | From any reachable state: if that channel is rearmed no further, some continuation releases the object with its channel in the poller's map if and only if none of its closes is still to be seen through. |
| Rearming.OrphanCanDangle | src/EPollPoller.cc:147-160 | The loops can then go on until nobody holds it. |
| Driving.FinishBatch | src/EventLoop.cc:206-212 | Any loop can be taken to the end of its batch, leaving connections that it does not establish or destroy as they were. |
| Driving.NextBatch | src/EventLoop.cc:81-93 | And from there into the next one, with exactly the tasks that were waiting. |
| Scenarios.WholeLife | src/TcpServer.cc:74-151 | A run from accept to release: up, a message, a shutdown, a callback, down. |
| Scenarios.LateIsReachable | src/TcpConnection.cc:70-81 | A run in which a caller comes too late. |
| Scenarios.RearmIsReachable | src/TcpConnection.cc:67-86 | A run in which a send queued in time rearms a closed channel before its removal has come round. |
| Scenarios.OrphanIsReachable | src/TcpConnection.cc:139-149 | A run in which it does so behind the destruction, with every close seen through. |
| Scenarios.AheadIsReachable | src/TcpServer.cc:147-150 | A run in which the destruction is still ahead in the batch. |
| ThreadPool.EventLoopThreadPool.GetNextLoop | src/EventLoopThreadPool.cc:59-85 | The base loop with no threads; otherwise the next loop, moving one place round the ring. |
| ThreadPool.EventLoopThreadPool.Assign | src/EventLoopThreadPool.cc:59-85 | In any number of calls the k-th takes the loop k places round the ring. |
| ThreadPool.EventLoopThreadPool.Start | src/EventLoopThreadPool.cc:32-56 | As many loops are added as threads were asked for, in order; a callback gets each of them, or the base loop if there are none. |
| ThreadPool.EventLoopThreadPool.SetThreadNum | src/TcpServer.cc:55-59 | The number of threads start() makes. |
| ThreadPool.RoundRobinBalance | src/EventLoopThreadPool.cc:71-82 | Over any number of calls no position is used twice more than another, and any n calls in a row use each exactly once. |
| ThreadPool.UsesFormula | src/EventLoopThreadPool.cc:71-82 | How often each position is used. |
| ThreadPool.SlotAtDistance | src/EventLoopThreadPool.cc:71-82 | Which calls use a position. |
| TcpServers.NamesAreDistinct | src/TcpServer.cc:86-90 | Two connections' names are equal only if their numbers are; the 64-byte buffer never cuts the number off. |
| TcpServers.NameReads | src/TcpServer.cc:86-90 | A connection's name is the server's name, its address and the connection's number in decimal, in full. |
| TcpServers.DecimalReads | src/TcpServer.cc:88 | What is printed reads as the number, without a leading zero. |
| TcpServers.DecimalIsInjective | src/TcpServer.cc:88 | Numbers printed alike are equal. |
| TcpServers.DecimalLength | src/TcpServer.cc:87-88 | A number below 10^k prints in at most k digits. |
| TcpServers.TcpServer.constructor | src/TcpServer.cc:19-37 | No connections, numbers from 1. |
| TcpServers.TcpServer.NewConnection | src/TcpServer.cc:74-126 | The new connection gets the next loop of the ring, the name that its number makes, which no entry has, and its own entry; the server takes the accept step. |
| TcpServers.TcpServer.RemoveConnectionInLoop | src/TcpServer.cc:138-151 | Exactly this connection's entry goes, which with harmless rearming is always there, and one destruction is queued on its loop. |
| TcpServers.TcpServer.Elsewhere | src/TcpServer.cc:74-151 | Whatever any other thread does leaves connections_ alone. |

## Left out

- `Logger`, `Timestamp`, `InetAddress`, socket options and `handleError`: they log, format or wrap a call, and touch no modelled state.
- `Acceptor`, `Thread` and `EventLoopThread`: an accept event and the started loops stand for them; of `Socket`'s destructor only the closing of the descriptor is kept.
- `~TcpServer`: it runs or queues `connectDestroyed` outside the handoff and may drop queued tasks, so runs end before it.
- Real system calls: their answers are parameters under the contracts above; which errno a logging call may overwrite is not modelled.
- The C++ memory model: steps are sequentially consistent, and the test and set of the state in `shutdown()` is one step, and so are in `ConnModel` the test of the state and the queueing of an off-thread `send` or `sendFile`. `Lifecycle` separates those two.
- Scheduling fairness: the results are about safety, and `LoopProtocol.WakeupDelivers` says that the loop can proceed by itself, not that it is scheduled.
- The width of `size_t` and the overflow of `nextConnId_`: integers are unbounded, and the server object takes connections up to INT_MAX.
- The life of the message buffer that an off-thread `send` binds by pointer (src/TcpConnection.cc:81): queued messages are values. The life of the connection it binds by `this` is modelled, in `RawTasks` and `LateTasks`.
- User callbacks: they may call `send`, `sendFile`, `shutdown` and read the input buffer; other use of the objects is not modelled. A shared pointer that the user keeps only makes the release of a connection late.
- Changes of the callbacks or of `highWaterMark_` during a connection's life: they are fixed in `ConnModel.Config`.
- A file changed while it is being sent: a transfer's file is a value.
- TcpConnections.TcpConnection.RunTask: the loop's queue is seen through this connection's own tasks; tasks of others between them do not touch its state.
- TcpConnections.TcpConnection.HandleRead: the message callback is run by the caller, as in `EchoServers.ReadAndEcho`; so are the down and close callbacks of `TcpConnections.TcpConnection.HandleClose`, which `Lifecycle` has as steps.
- EventLoops.EventLoop.QueueInLoop: push and wakeup of another thread are one call on the object; the interleavings between them are those of `LoopProtocol`.
- EventLoops.EventLoop.Loop: other threads act between the callbacks and tasks of a turn, not inside one; `LoopProtocol` has them everywhere.
- LifecycleTheorems.ExactlyOneStatus: in `Lifecycle` one dispatch closes a connection at most once, which by `Reactor.DispatchClosesOnce` excludes only a hang-up with urgent and no ordinary data.
- LateTasks.BareTaskIsSafeExactly: what a bare task does with a connection that is gone is undefined; in the model it does nothing. So is a dispatch to a released channel, which the model passes over.
- Rearming.RearmDanglesExactly: for one rearming of a connection; a later one of the same connection has its own condition.
- AfterClose.DestroyIsFinalExactly: is about the bytes; whether the object is still there for a task that runs after connectDestroyed is `LateTasks`.
- TaskQueue.IssuedConservation: counts bytes; contents and order are `Handover.MessagesAsGiven`.
- Sockets.Socket.ShutdownWrite: the call is recorded whether or not shutdown(2) succeeds; a failure is only logged in the source.
- Reactor.Channel.HandleEvent: whether the tied owner is alive is an argument, all four callbacks are set, and what they do is the caller's.
- Reactor.Channel.Tie: records that the channel is tied, not to whom.
- TcpConnections.TcpConnection.ConnectEstablished: the up callback is the caller's, and so is the down callback of `TcpConnections.TcpConnection.ConnectDestroyed`; `Lifecycle` has both.
- EventLoops.EventLoop.RunFunctors: see `EventLoops.EventLoop.Loop` for what other threads may do meanwhile.
- The connection objects of `TcpConnections` and the connections of `Lifecycle` are two views of one class, byte stream and handoff; no proof ties them to each other beyond the common `PollerTables`.
- The wakeup channel and the acceptor's channel are not entries of `Lifecycle`'s pollers: they are registered before any connection and never removed while the server runs.
