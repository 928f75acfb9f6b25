# A verified model of the reactor library

The library is a muduo-style multi-reactor: event loops, one per thread, each with an epoll poller, a timer queue
and a task queue woken through an eventfd; on top of them TCP connections with buffered output, and a server that
hands accepted connections to io loops and takes them down again. This project models that logic in Dafny and
proves what it keeps over every run. `dafny verify dfyconfig.toml` checks everything.

Each component has two layers. The *model* is a value with a step function; theorems quantify over all finite runs
of steps, including every interleaving of threads and every answer of the kernel. The *object* is a class with the
source's fields and methods, each proved to take exactly its step of the model, so the theorems are about it too.
The event loop appears twice: `EventLoop` has the wakeups, with tasks that are numbers, and the server's `IoLoop` the
references, with tasks that hold pointers.

| file | component |
|---|---|
| `TimerModel.dfy`, `TimerQueue.dfy` | timers, the two indexes, deferred cancellation, the one-shot timerfd |
| `Lifecycle.dfy`, `LateCalls.dfy`, `LoopThreads.dfy`, `TcpServer.dfy` | connections between the base loop and the io loops: references, removal, destruction, calls from other threads, what each thread does |
| `ConnectionModel.dfy`, `TcpConnection.dfy` | the connection state machine and its output path |
| `FileSending.dfy` | sending files |
| `EventLoop.dfy` | the task queue and its wakeup |
| `Poller.dfy` | channels, the poller and the kernel's interest set |
| `Buffer.dfy` | the byte buffer |
| `EventLoopThreadPool.dfy` | round robin |
| `Extremes.dfy` | minimum and maximum |

What the environment is taken to promise:

- Timers: `new` returns an address not in use (it may have been used before) and the global counter a fresh number.
  A callback is any finite sequence of additions and cancellations. Times are whole microseconds; a repeating timer
  may have interval 0, which is what a positive interval under one microsecond becomes. Reading the clock and setting
  the timerfd happen at one instant. Only the first timerfd theorem assumes positive expirations:
  `UnarmedAtNonpositiveTime` shows a queue of timers at or before time zero on which it fails, and `FireCoversIff`
  says exactly when it fails.
- Wakeup: runs begin inside the `while` loop with an empty queue. The eventfd counter does not overflow.
- Connections: data and files are not mixed on one connection; the write-complete and high-water callbacks are set.
  Sends and shutdowns may come from any thread: a foreign `shutdown` loads the state in one step and stores it, and
  queues its task, in a later one, with anything in between; any number of such calls may be under way at once.
  Byte-stream claims are about data that `sendInLoop` accepts, because data queued by another thread before its own
  `shutdown` is given up.
- Poller: one live channel per fd, and `epoll_wait` reports registered channels, each at most once.
- Lifecycle: the server is not destroyed during the run. Accepting is an environment step on the base loop. Code
  outside the library takes and drops references at will, and calls a connection only while it holds one.

Where the code falls short of its promise the code is followed, and the exact condition is proved:

- The test and the store of the state in `shutdown` are separate, so on another thread it can store kDisConnecting
  after a close. `StateAfterClose` says exactly when a closed connection shows that state, `OutputIsNotStranded` when
  output then looks stranded, `TruncatedIff` when SHUT_WR cuts waiting output off; teardown is unaffected.
- SHUT_WR can be issued more than once; `HalfCloseCount` says exactly how often.
- The close callback can run several times in one dispatch; `DispatchCloses` says exactly when, and teardown is proved
  idempotent.
- A call from another thread is queued with a raw pointer and may find its connection gone. `LateCallFindsNothing` is a
  run in which it does; `CallFindsItsConnectionIff` says exactly when it can, as seen when the call is queued.
- The batch vector is destroyed after `calling_pending_functors_` is cleared, so what a destructor queues then gets no
  wakeup; `PushIsLostIff` says exactly when the loop can block on it.
- A file range past the end of the file never completes and keeps its write interest.

## Model

| member | source | states |
|---|---|---|
| TimerModel.HowMuchTimeFromNow | src/TimerQueue.cc:23-34 | The timespec is normalised, is exactly the wait of at least 100us, and is never zero. |
| TimerModel.ResetTimerFd | src/TimerQueue.cc:46-60 | Arming never disarms; the deadline is the expiration, or 100us from now if that is later. |
| TimerModel.FireOutcome | src/TimerQueue.cc:124-207 | For any callbacks: a cancelled timer and an expired one-shot are gone, a surviving expired repeater is due at now + interval and nowhere else, every other old or added timer is unchanged. |
| TimerModel.FireAddsNothingElse | src/TimerQueue.cc:166-195 | Every timer left after a firing is an old or an added one. |
| TimerModel.RunKeepsDistinct | src/TimerQueue.cc:93-122 | Through every run of adds, cancels and firings, a sequence number and an address each identify a pending timer. |
| TimerModel.RunKeepsCovered | src/TimerQueue.cc:93-231 | Through every run in positive time, a pending timer implies an armed timerfd due no later than max(earliest expiration, arming time + 100us). |
| TimerModel.TimerfdCoversPending | src/TimerQueue.cc:62-71 | The same from the creation of the queue on. |
| TimerModel.UnarmedAtNonpositiveTime | src/TimerQueue.cc:203-206 | Two timers at nonpositive times can leave one pending behind a disarmed timerfd. |
| TimerModel.RunKeepsTimely | src/TimerQueue.cc:93-231 | Through every run, whatever the times, an armed timerfd is never set too late, so the queue is covered exactly when it is empty or the timerfd is armed. |
| TimerModel.DeadlineIsExact | src/TimerQueue.cc:46-60 | The timerfd is not early either: whenever it is armed, after any run, some operation of the run set it for a timer then earliest in the queue, to exactly max(expiration, that time + 100us). |
| TimerModel.AddSetsFd | src/TimerQueue.cc:93-103 | An addition sets the timerfd, to exactly the timer's expiration or 100us from now, if and only if the timer precedes every pending one; otherwise it leaves it. |
| TimerModel.FireSetsFd | src/TimerQueue.cc:197-206 | A firing sets it exactly for the earliest timer that remains, if that is in positive time; otherwise it leaves it as the callbacks did. |
| TimerModel.FireCoversIff | src/TimerQueue.cc:197-206 | After any run, and told from the queue and the scripts alone: a firing leaves the queue covered if and only if every remaining timer is in positive time, or the timerfd was armed and not yet readable, or some callback added a timer earlier than every other. |
| TimerModel.FiringsSpaced | src/Timer.cc:3-13 | Along any run a timer never fires before its expiration, firings of a repeater are at least an interval apart, a one-shot fires at most once. |
| TimerModel.FiringRate | src/TimerQueue.cc:136-140 | A window of length L sees at most floor(L/interval) + 1 firings. |
| TimerModel.GoneNeverFires | include/Timer.h:18-25 | A sequence number that has been used and is not pending never fires again in any run. |
| TimerModel.CancelIsFinalAndExact | src/TimerQueue.cc:105-122 | After cancelling, the timer never fires in any continuation, and every other timer stays. |
| TimerQueues.IndexedAfterInsert | src/TimerQueue.cc:216-227 | Inserting keeps the two indexes in bijection with the live timers. |
| TimerQueues.IndexedAfterErase | src/TimerQueue.cc:233-243 | Erasing keeps the bijection. |
| TimerQueues.IndexedAfterRekey | src/TimerQueue.cc:176-181 | Moving a restarted timer to its new key keeps the bijection and its (address, sequence) pair. |
| TimerQueues.TimerQueue.SizesAgree | src/TimerQueue.cc:108-121 | The size assertion the source repeats at every entry and exit always holds. |
| TimerQueues.TimerQueue.Insert | src/TimerQueue.cc:209-231 | Adds exactly the timer, and reports a change exactly when it precedes every pending one. |
| TimerQueues.TimerQueue.AddTimerInLoop | src/TimerQueue.cc:93-103 | Is the model's insertion; the timerfd is set for exactly this timer if it precedes every pending one, and is otherwise unchanged. |
| TimerQueues.TimerQueue.CancelTimerInLoop | src/TimerQueue.cc:105-122 | Removes the timer at once, or only records the cancellation while callbacks run. |
| TimerQueues.TimerQueue.Erase | src/TimerQueue.cc:233-243 | Removes exactly the timer the id was issued for; a stale id, even at a reused address, removes nothing; no freed timer is read. |
| TimerQueues.TimerQueue.GetExpiredTimers | src/TimerQueue.cc:149-164 | Exactly the keys at or before now, in strictly increasing (expiration, sequence) order. |
| TimerQueues.TimerQueue.RunExpired | src/TimerQueue.cc:134-141 | Each expired entry is still in the list and alive when its callback runs, whatever earlier callbacks did. |
| TimerQueues.TimerQueue.Reset | src/TimerQueue.cc:166-207 | The two erasing loops and the re-arming together are the model's Reset. |
| TimerQueues.TimerQueue.HandleRead | src/TimerQueue.cc:124-147 | Runs each timer expired at the start exactly once, in order, and no other; ends as the model's Fire. |
| Lifecycle.StepKeepsInv | src/TcpServer.cc:58-123 | Every step of every thread keeps the lifecycle invariant. |
| Lifecycle.RegisteredIsHeld | src/TcpServer.cc:86-123 | In every interleaving a connection known to a poller is still owned by the map, its running close handler, a removal on the base loop or a destruction on its own loop. |
| Lifecycle.ClosedStays | src/TcpConnection.cc:399-415 | A closed connection never comes back to epoll, in any continuation, even if a late shutdown overwrites its state. |
| Lifecycle.TornDown | src/TcpConnection.cc:308-323 | However often close was delivered: with no handler, removal or destruction outstanding, a closed connection is in neither map nor poller, and nothing in the library refers to it once the batches end. |
| Lifecycle.CloseIsCarriedOut | src/TcpServer.cc:103-123 | After the close callback, a full batch of the base loop and then one of the connection's own loop leave it in neither map nor poller for good, whatever happens in between. |
| Lifecycle.RawFindsItsConnection | src/TcpConnection.cc:352-376 | A functor with a raw pointer (write-complete, high-water, or a call from another thread) that was pushed before the destruction was queued always runs while its connection is alive and registered. |
| LateCalls.CallFindsItsConnectionIff | src/TcpConnection.cc:79-125 | Told when another thread queues a call: its raw pointer is good in every continuation, whatever references are dropped, if and only if the connection is in epoll, or its close handler has yet to tell the server, or its removal waits, or its destruction waits outside the running batch. |
| LateCalls.LateCallFindsNothing | src/EventLoop.cc:140-157 | A run from the start in which a call comes too late, and a continuation in which its connection is gone when it runs. |
| LateCalls.DeadStaysDead | src/Channel.cc:46-63 | Once the last reference to a connection is gone no run brings one back. |
| LateCalls.DeadIsGone | src/TcpConnection.cc:308-323 | A connection without references is in neither map nor poller, so its object can be destroyed. |
| Lifecycle.ActiveChannelsAreAlive | src/Channel.cc:46-63 | Every channel pointer in the active list belongs to a live connection, so the tie can be locked. |
| Lifecycle.LoopAlwaysMoves | src/EventLoop.cc:190-214 | No loop gets stuck: its next step is enabled in every reachable state. |
| LoopThreads.EveryActiveIsHandled | src/EventLoop.cc:203-208 | Between a poll and the tasks after it, in every interleaving, a loop comes to handle exactly the connections reported, each in its turn, and has none left when it goes on. |
| LoopThreads.MapIsConfined | src/TcpServer.cc:103-123 | In every reachable state only a step of the base loop's thread changes the connection map. |
| LoopThreads.ConnectionIsConfined | src/TcpConnection.cc:291-323 | Only the thread of a connection's own loop changes its channel's index, and its state but for a foreign shutdown. |
| LoopThreads.ProtocolFollowsConnection | src/TcpConnection.cc:66-77 | What the protocol does to a connection is what the connection model's own step does to that part of it. |
| LateCalls.QueuedGetsItsTurn | src/EventLoop.cc:152-188 | What is queued on a loop is what runs when all that stood before it has run; a write-complete or high-water functor finds its connection alive then. |
| Lifecycle.AfterPush | src/EventLoop.cc:172-188 | Pushing keeps every raw-pointer functor ahead of the destruction of its connection. |
| Lifecycle.IndexesFollowThePoller | src/EPollPoller.cc:34-98 | The index changes used by the protocol are those of the poller. |
| TcpServers.TcpServer.NewConnection | src/TcpServer.cc:58-101 | Makes a new connection for this socket and mark on the loop whose turn it is and in its poller, puts it into the map under the next id, and queues its establishment on that loop: the protocol's accept step. |
| TcpServers.TcpServer.PollReturn | src/EventLoop.cc:200-203 | The channels reported become the active list: the protocol's step. |
| TcpServers.TcpServer.BeginEvent | src/Channel.cc:46-63 | The next active channel is dispatched, its tie can always be locked, and the rest of the list stays. |
| TcpServers.TcpServer.EndEvent | src/EventLoop.cc:205-208 | The dispatch ends: the protocol's step. |
| TcpServers.TcpServer.HandleClose | src/TcpConnection.cc:399-415 | The connection object closes and leaves epoll, then the server is told: the two steps of the protocol, also when repeated. |
| TcpServers.TcpServer.Reclaim | src/TcpConnection.cc:59-62 | When the last reference is gone the object and its channel can go, the server stays in order, and no channel has the fd any more, so that it can come back. |
| TcpServers.TcpServer.RemoveConnection | src/TcpServer.cc:103-109 | On the base loop erases from the map and queues the destruction; from any other leaves the map alone and queues the removal on the base loop. |
| TcpServers.TcpServer.RemoveConnectionInLoop | src/TcpServer.cc:111-123 | Erases the entry from the map object and queues the destruction, with the pointer, on the connection's own loop object; every other connection and loop is seen unchanged. |
| TcpServers.TcpServer.RunTask | src/EventLoop.cc:152-155 | A queued establishment, removal or destruction, run on the connection object it points to, takes exactly its protocol steps. |
| TcpServers.TcpServer.DoingPendingFunctors | src/EventLoop.cc:140-157 | A whole batch, from the swap to the end of the vector, is a run of the protocol, and the server stays in order. |
| ConnectionModel.StreamIsConserved | src/TcpConnection.cc:127-194 | For every run with any partial writes and errors, kernel bytes followed by the output buffer are the accepted data, in order. |
| ConnectionModel.StreamGrowsAsTaken | src/TcpConnection.cc:143-160 | Over every run the kernel stream grows by exactly the bytes that the results of its writes name. |
| ConnectionModel.SendMoves | src/TcpConnection.cc:143-193 | With nothing waiting a send writes what the kernel takes and keeps the rest, reporting completion if there is none; a fault drops the data; otherwise all of it waits. |
| ConnectionModel.WriteEventMoves | src/TcpConnection.cc:352-376 | In every state a write event moves what the kernel takes from the front of the buffer to the stream, ends write interest exactly when nothing is left, and then reports completion. |
| ConnectionModel.WriteEventsDrain | src/TcpConnection.cc:352-383 | Write events that take all that waits, in any portions, drain any open connection: then everything accepted is in the kernel. |
| ConnectionModel.StateAfterClose | src/TcpConnection.cc:66-77 | In every run a connection shows kDisConnecting after a close if and only if another thread's shutdown stored it after the last close. |
| ConnectionModel.OutputIsNotStranded | src/TcpConnection.cc:177-193 | Until the connection is closed write interest is on exactly while output waits, in every run; judged by the state alone this fails if and only if a shutdown stored its state after the last close and output waits. |
| ConnectionModel.LateStoreStrandsOutput | src/TcpConnection.cc:68-75 | A run in which it does fail. |
| ConnectionModel.CompletionMeansDrained | src/TcpConnection.cc:363-376 | Write-complete is queued exactly when a write leaves nothing waiting, and then all accepted data is in the kernel. |
| ConnectionModel.HalfCloseIsClean | src/TcpConnection.cc:66-77 | Before a close SHUT_WR is issued only in kDisConnecting and with nothing waiting; at most once per call of another thread, plus one if shutdown took effect on the loop thread or while output waited; so at most once for shutdowns on the loop thread. |
| ConnectionModel.HalfCloseCount | src/TcpConnection.cc:66-77 | From the step in which the connection stops being connected, by a shutdown or by a close, SHUT_WR can be issued k times if and only if k is at most the calls of other threads past the check, plus one if that step is a shutdown on the loop thread or one of another thread with output waiting. |
| ConnectionModel.NoneWhileConnected | src/TcpConnection.cc:66-77 | Every run that issues SHUT_WR goes through such a step. |
| ConnectionModel.TruncatedIff | src/TcpConnection.cc:437-444 | In every run SHUT_WR cuts off waiting output if and only if a queued shutDownInLoop ran after a close that left some. |
| ConnectionModel.DrainingHalfCloses | src/TcpConnection.cc:378-382 | The step in which a closing connection drains issues SHUT_WR. |
| ConnectionModel.NoWriteAfterHalfClose | src/TcpConnection.cc:437-444 | After SHUT_WR no run writes another byte. |
| ConnectionModel.LateShutdownHalfClosesTwice | src/TcpConnection.cc:68-75 | The second SHUT_WR does happen in the case allowed above. |
| ConnectionModel.NoticesAreCrossings | src/TcpConnection.cc:179-186 | High-water notices over any run equal the upward crossings of the mark by the output length. |
| ConnectionModel.ClosedIsFinal | src/TcpConnection.cc:134-140 | After a close no run moves a byte, reports anything or makes the connection connected again. |
| ConnectionModel.ReportsNeedAnOpenConnection | src/TcpConnection.cc:143-193 | Write-complete and high-water functors are queued only by a write event with write interest or a send that finds kConnected, and only while the connection is open. |
| ConnectionModel.DispatchCloses | src/Channel.cc:65-103 | One dispatch runs the close handler once for each of a hangup without input, an end of file or read error, and an error event: twice or more if and only if two come together, and three times is reached. |
| ConnectionModel.ClosesAreCounted | src/TcpConnection.cc:399-415 | Over every run the close callback runs once for each close handler. |
| ConnectionModel.DispatchOrder | src/Channel.cc:80-102 | With input reported and read: all the message handler does, then the write handler if writability is reported, then the close of an error. |
| ConnectionModel.WritabilityAlone | src/Channel.cc:88-94 | Writability alone runs the write handler and nothing else. |
| ConnectionModel.HangupMovesNothing | src/Channel.cc:71-102 | Hangup, end of file or a read error closes before the write handler of the same dispatch: no byte moves. |
| TcpConnections.TcpConnection.KernelWatchesForOutput | src/EPollPoller.cc:64-78 | Until the connection is closed the kernel's interest for the fd contains EPOLLOUT exactly while the output buffer holds bytes. |
| TcpConnections.TcpConnection.ReportsWhileRegistered | src/TcpConnection.cc:352-376 | A step that queues a write-complete or high-water functor finds the channel in epoll. |
| TcpConnections.TcpConnection.Send | src/TcpConnection.cc:79-101 | Is the model's send on the loop thread. |
| TcpConnections.TcpConnection.SendInLoop | src/TcpConnection.cc:127-194 | Is the model's send, on the real buffer, channel and poller. |
| TcpConnections.TcpConnection.HandleWrite | src/TcpConnection.cc:352-397 | Is the model's write event, on the real buffer, channel and poller, so that bytes move as `WriteEventMoves` says. |
| TcpConnections.TcpConnection.Shutdown | src/TcpConnection.cc:66-77 | Is the model's shutdown on the loop thread. |
| TcpConnections.TcpConnection.CheckShutdown | src/TcpConnection.cc:68 | Is the model's test of the state on another thread. |
| TcpConnections.TcpConnection.StoreShutdown | src/TcpConnection.cc:70-75 | Is the model's later store, from whatever state there is by then. |
| TcpConnections.TcpConnection.RunShutdownTask | src/TcpConnection.cc:437-444 | Is the model's queued half-close. |
| TcpConnections.TcpConnection.HandleClose | src/TcpConnection.cc:399-415 | Is the model's close; the channel leaves epoll. |
| TcpConnections.TcpConnection.ConnectionEstablished | src/TcpConnection.cc:291-306 | Opens the connection and registers it for reading. |
| TcpConnections.TcpConnection.ConnectionDestroyed | src/TcpConnection.cc:308-323 | Afterwards neither poller nor kernel knows the fd, however often it runs. |
| FileSending.RunKeepsInv | src/TcpConnection.cc:197-288 | Through every run of requests, write events, shutdowns and closes the wire holds what was there at the last request and then a prefix of its range, and nothing on the wire is taken back. |
| FileSending.FileArrivesInOrder | src/TcpConnection.cc:223-288 | For the first or a later file, in every run until the next request: the bytes sent are a prefix of the requested range, completion comes at most once and means all of it, and an open transfer always waits for a write event. |
| FileSending.CompletesIffInsideFile | src/TcpConnection.cc:236-253 | Some run completes a request if and only if its range is empty or lies inside the file. |
| FileSending.SendOutcome | src/TcpConnection.cc:223-288 | What one call does: the bytes taken go onto the wire from the offset on and the rest waits; with no rest completion is reported; a fault, or a connection that is closing, ends the transfer. |
| FileSending.PartsComplete | src/TcpConnection.cc:236-287 | A request and write events that take the range in any portions put exactly that much on the wire, and complete with the last byte and not before. |
| FileSending.NothingAfterClose | src/TcpConnection.cc:225-230 | After a shutdown or a close no run sends a byte, reports completion or takes a request. |
| FileSending.FileConnection.SendFileInLoop | src/TcpConnection.cc:223-288 | Is the model's resumption of a transfer, so that it moves on as `SendOutcome` says. |
| FileSending.FileConnection.SendFile | src/TcpConnection.cc:197-219 | Is the model's request: refused unless connected, else it takes the place of what was under way. |
| EventLoops.NoLostWakeup | src/EventLoop.cc:172-211 | In every interleaving, a loop about to block with tasks queued or quit set has a readable eventfd or a thread still to write it; for tasks queued, unless a destructor queued some after the batch while no wakeup was due. |
| EventLoops.PushIsLostIff | src/EventLoop.cc:152-157 | A task that the loop's own thread queues can leave the loop blocked and unwoken before its next batch if and only if it is queued by a destructor after the batch, with the eventfd unreadable, no thread about to write it and quit not set. |
| EventLoops.CounterIsWrites | src/EventLoop.cc:114-138 | After every run the eventfd counts the wakeups written since it was last read. |
| EventLoops.ReportsOnlyFreshWakeups | src/EventLoop.cc:114-122 | After a read no poll reports the eventfd until somebody has written it again. |
| EventLoops.ReadBeforeBatch | src/EventLoop.cc:203-210 | When a poll reports the eventfd, the loop reads it before it comes to its tasks. |
| EventLoops.QuitIsHeeded | src/EventLoop.cc:198 | Once quit is set, by whatever thread, the loop stops at its next test and for good. |
| EventLoops.StopsOnlyOnQuit | src/EventLoop.cc:198-212 | Quit is set exactly if some thread called it, and the loop stops only then. |
| EventLoops.FirstInFirstOut | src/EventLoop.cc:140-157 | Executed tasks, rest of the batch and queue are always the pushes of the run: each task once, in order. |
| EventLoops.ServedByNextBatch | src/EventLoop.cc:198-211 | Everything queued before a poll has run by the end of the batch that follows. |
| EventLoops.BatchIsFinite | src/EventLoop.cc:152-155 | A batch runs at most the tasks it was swapped out with, however many they queue. |
| EventLoops.EventLoop.QueueInLoop | src/EventLoop.cc:172-188 | Appends the task and writes the eventfd unless the loop thread is still ahead of its batch. |
| EventLoops.EventLoop.DoingPendingFunctors | src/EventLoop.cc:140-157 | Runs exactly the tasks pending at the swap, in order; what they and other threads push meanwhile waits, in order, with one wakeup each; what destructors queue afterwards waits without one. |
| EventLoops.EventLoop.HandleRead | src/EventLoop.cc:114-122 | Empties the eventfd, to zero, and keeps the wakeup invariant. |
| Pollers.PollerAgreement | src/EPollPoller.cc:34-98 | After every sequence of calls kAdd means watched for exactly the channel's nonempty mask, kDelete known but unwatched, kNew neither, and no epoll_ctl failed. |
| Pollers.MasksAreExact | include/Channel.h:77-81 | Each call sets or clears its whole part of the mask, input and urgent data for reading and output for writing, and leaves every other bit. |
| Pollers.WatchedAfter | include/Channel.h:77-81 | A call that leaves a nonempty mask leaves the kernel watching exactly that mask. |
| Pollers.ForgottenAfter | src/EPollPoller.cc:81-98 | Removal leaves neither map nor kernel entry, whatever the index was. |
| Pollers.EPollPoller.UpdateChannel | src/EPollPoller.cc:34-79 | Restores agreement after a mask change without touching any other channel. |
| Pollers.EPollPoller.RemoveChannel | src/EPollPoller.cc:81-98 | Removes the channel from map and kernel and touches no other. |
| Pollers.EPollPoller.Change | include/Channel.h:77-89 | Every enable, disable or remove keeps all channels in agreement. |
| Pollers.EPollPoller.HasChannel | src/Poller.cc:8-12 | A channel is found exactly when its index is not kNew. |
| Pollers.EPollPoller.Release | src/EPollPoller.cc:81-98 | A removed channel can be destroyed: no trace of its fd is left, so the fd can be used again. |
| Pollers.EPollPoller.FillActiveChannels | src/EPollPoller.cc:153-161 | The user-data pointers are live, registered channels, in order, each with its own events. |
| Buffers.SpaceBound | src/Buffer.cc:111-145 | Over every run the storage is at most max(8 + initial size, peak + 8, 2 * peak + 6) for the peak number of waiting bytes. |
| Buffers.SpaceBoundIsTight | src/Buffer.cc:129-136 | For every n > 0 a run of three calls reaches that bound. |
| Buffers.Replay | src/Buffer.cc:25-118 | Any sequence of appends, retrievals and reads leaves in the buffer what it leaves in a plain queue, within the bound. |
| Buffers.Buffer.constructor | src/Buffer.cc:10-15 | A new buffer is empty, with exactly the initial size to write into behind the prepend area. |
| Buffers.Buffer.ReadFd | src/Buffer.cc:25-67 | Appends exactly the bytes read, across both segments; an error changes nothing. |
| Buffers.Buffer.Append | src/Buffer.cc:111-118 | Adds the bytes at the back of the contents. |
| Buffers.Buffer.Retrieve | src/Buffer.cc:80-96 | Drops min(len, readable) bytes from the front. |
| Buffers.Buffer.RetrieveAllAsString | src/Buffer.cc:106-109 | Returns the contents and rewinds both indexes to the prepend area. |
| Buffers.Buffer.MakeSpace | src/Buffer.cc:129-145 | Makes room and keeps the contents, whether it grows or compacts. |
| Buffers.Buffer.CopyDown | src/Buffer.cc:139-143 | The overlapping in-place copy moves the old bytes; its source lies strictly after its destination. |
| ThreadPools.RoundRobinShare | src/EventLoopThreadPool.cc:48-61 | After k dispatches over n loops, loop i has had k/n, plus one if i < k mod n. |
| ThreadPools.RoundRobinIsBalanced | src/EventLoopThreadPool.cc:48-61 | Any two loops differ by at most one. |
| ThreadPools.EventLoopThreadPool.GetNextLoop | src/EventLoopThreadPool.cc:48-61 | The base loop if there is no other, else the loops in turn; the cursor stays in range. |
| ThreadPools.EventLoopThreadPool.Start | src/EventLoopThreadPool.cc:31-46 | One loop per thread, in order. |

## Left out

- Socket, InetAddress, Acceptor, Logger, Timestamp, CurrentThread: system call wrappers and I/O without a hard property.
- Thread and EventLoopThread start-up and joining: the loops are taken to exist.
- Destructors of the server, the loop and the timer queue: shutdown order is not what the invariants describe.
- Conversion of `double` seconds to microseconds: intervals are integers here.
- Overflow of sizes, sequence numbers, connection ids and the eventfd counter: they are unbounded here.
- Adds and cancels queued from other threads: they are modelled when they run on the loop, so a cancel that overtakes its add finds nothing to cancel.
- A functor queued by the loop's own thread before `loop()` starts, and a `quit` overwritten at the start of `loop()`.
- Mixing data and a file on one connection, and `sendFile` called from another thread.
- TcpConnections.TcpConnection.SendInLoop: requires a connection past kConnecting, because `send` refuses before that.
- Lifecycle.CloseIsCarriedOut: says which batches suffice, not that the threads get to run them.
- The input buffer's use by message callbacks, and the connection callback's own actions except as further steps.
