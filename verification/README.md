# Reactor library: a verified model

The repository is a C++ reactor library: an event loop that other threads hand functors to, a poller, timers, buffered
TCP connections, a retrying connector and a bounded thread pool. Each class is small; what can go wrong is spread over
threads, rounds of the loop and several objects. This project models those classes and proves what they keep over whole
runs.

## How it is modelled

Each concurrent or event-driven component has two files.

* A *protocol* on values: a `State`, the `Event`s that may happen to it, when an event is `Enabled` and the `Step` it
  makes. A `Run` is any list of enabled events, of any length. One event is one access to shared state by one thread (or,
  for the single-threaded objects, one call), so a run is any interleaving. The main theorems are about every run.
* A *class* with the fields and methods of the C++ class, updated in place. Its `Valid()` ties the fields to a run of the
  protocol, and every method's contract says by which events it extends that run and what a caller may rely on. So every
  theorem about runs holds of every object; lemmas in the classes state the main ones of the fields themselves.
  Callbacks, other threads and the kernel are arbitrary (`:= *`) within what they may do.

| component | protocol | class |
|---|---|---|
| EventLoop: functor queue, wakeup eventfd, quit | `LoopProtocol`, `EventFd` | `EventLoops` |
| ThreadPool: bounded monitor, shutdown | `PoolProtocol`, `PoolStops` | `ThreadPools` |
| TimeQueue, TimerInfo, timerfd | `TimerProtocol`, `TimerFd` | `TimeQueues` |
| Poller and Channel | `PollTable` | `Pollers` |
| Buffer | the FIFO in `Buffers` | `Buffers` |
| TcpConnection | `ConnProtocol` | `TcpConnections` |
| Connector, and the part of TcpClient that restarts it | `ConnectorProtocol` | `Connectors` |

System calls are steps of the environment: `poll` reports any set of ready channels that is consistent with the masks
and, for the wakeup channel, with the eventfd counter (or it is interrupted and reports none); `write` takes any number
of bytes or fails; `connect` gives any class of errno; the timerfd expires at any moment once it is due; an eventfd write
at the largest counter value leaves the counter as it is. A timerfd is never read by the code, so one that has expired
stays ready until it is armed again.

## What the code does that a reader may not expect

The model follows the code, and lemmas pin these down.

* A functor that the loop's own thread appends before `loop()` is not signalled: the first poll may sleep with work
  queued (`LoopProtocol.AppendBeforeLoopWakesIff` says exactly when).
* A `quit()` before `loop()` is lost, because `loop()` clears the flag (`LoopProtocol.QuitBeforeLoopIsLost`). A `quit()`
  ends the loop exactly if `loop()` is not entered after it (`LoopProtocol.QuitEndsLoopIff`).
* `removeChannel` looks up the channel it moves by the fd in the last slot. If that slot is disabled and is not the
  channel's own, the lookup inserts a null pointer and dereferences it. `Pollers.Poller.RemoveChannel` and
  `PollTable.RemovableIff` say exactly when; `PollTable.TwoClosedAtOnce` how two connections that close in one round get
  there; `PollTable.SafeIfNoOtherGivenUp` what is enough to be safe. A connector hits it too: if a connection in the last
  slot has been closed and waits for its removal when the connector's attempt ends. `ConnectorProtocol.BrokenIff` shows
  that this is the only way in which a connector can fail.
* A slot whose mask was emptied is never polled again, whatever the channel enables later
  (`PollTable.DisabledIsTerminal`).
* `stop()` of the pool never notifies `cond_notFull_`. `PoolStops.StopStrandsIff` says exactly when it may return with a
  producer asleep, by the state of the pool at the call; `PoolProtocol.StrandedUntilSpurious` that such a producer stays
  asleep exactly until its wait returns spuriously, although the queue has been emptied.
* A write-complete callback means that the buffer was drained, with one exception: an empty message sent while bytes are
  pending queues one as well (`ConnProtocol.CompletionMeansDrainedIff`, `ConnProtocol.CompletionWithBytesPending`).
* A retry timer dispatched in the round that set it would fail the connector's assertion exactly when the old channel
  has not been destroyed yet (`ConnectorProtocol.EarlyTimerBreaksIff`, `ConnectorProtocol.EarlyTimerCanBreak`); the delay
  is at least 500 ms, and the model assumes it does not happen.
* The timerfd is never read, so once expired it stays readable until a timer becomes the earliest
  (`TimerProtocol.ReadyUntilArmed`). With nothing due poll then spins: each `handleRead` finds nothing and leaves
  everything as it was (`TimerProtocol.HandleReadSpinsIff`).

## Assumptions

* The unsynchronised flags `quit_`, `is_start_` and `connect_` are read and written atomically.
* The pool is started once. With no room at all it never accepts a task (`PoolProtocol.NoRoomNoTask`).
* That every join of `stop()` returns needs a mutex that is fair to the workers, and tasks that end.
* Time does not go back. The source reads the real-time clock, which can.
* Whether the poller can remove a channel depends on all the channels of the loop. The protocols of one connection and of
  one connector take the answer as a parameter (`removable`) of the steps that ask; a removal that fails ends the process.
  `PollTable` says when it fails.
* `send`, `shutdown` and `forceClose` are called on the loop thread, at any point of a round.
* `TcpConnection::handleWrite` is not registered by the constructor (zdq_tcp_connection.cpp:19); it is modelled as the
  write-ready step it is written to be. A write-complete callback is set. The owner's close callback queues
  `connectDestroyed`, as in zdq_tcp_server.cpp:66-73 and zdq_tcp_client.cpp:113.
* A connector is started once and stopped at most once, after its start; `restart` comes from the end of the connection
  last handed over, and not after `stop` (zdq_tcp_client.cpp:70-74, 114).
* A new connection's channel is first reported by a later poll than the one that completed the connection.

## Model

| member | source | states |
|---|---|---|
| LoopProtocol.NoWakeupIsLost | ThreadAndNetWorkCoding/zdq_event_loop.cpp:70-77 | in every interleaving of any number of foreign threads with the loop, a poll with functors queued has a readable eventfd or a thread between its push and its write, unless the loop's own thread has pushed outside `loop()` since the last swap |
| LoopProtocol.AppendBeforeLoopWakesIff | ThreadAndNetWorkCoding/zdq_event_loop.cpp:114-118 | after any run outside `loop()`, one more append leaves the first poll readable if and only if a foreign thread made it or the eventfd was readable already |
| LoopProtocol.QueueIsFifoLog | ThreadAndNetWorkCoding/zdq_event_loop.cpp:108-133 | at every point of every run the pushes, in order, are the calls begun, then the rest of the current batch, then the queue |
| LoopProtocol.BatchIsQueueAtSwap | ThreadAndNetWorkCoding/zdq_event_loop.cpp:121-133 | a batch makes at most as many calls as the queue was long at the swap and ends only when all of them are made, whatever is appended meanwhile |
| LoopProtocol.StepKeepsInv | ThreadAndNetWorkCoding/zdq_event_loop.cpp:62-133 | every single step of any thread keeps the shape, the FIFO log, the pending wakeup and the audible quit |
| LoopProtocol.RunKeepsInv | ThreadAndNetWorkCoding/zdq_event_loop.cpp:62-133 | every reachable state satisfies that invariant |
| LoopProtocol.StateIsHistory | ThreadAndNetWorkCoding/zdq_event_loop.cpp:62-119 | over every run the functors pushed, the eventfd counter, the threads that have still to write, and the flag are what the events alone say; the counter is the number of writes since the wakeup channel was last handled |
| LoopProtocol.ReadableIffWritten | ThreadAndNetWorkCoding/zdq_timer.cpp:93-110 | the wakeup is consumed: the eventfd is readable if and only if it has been written since the wakeup channel was last handled |
| LoopProtocol.DispatchIsExact | ThreadAndNetWorkCoding/zdq_event_loop.cpp:72-76 | every channel that poll reports is handled, once and in order, before the next batch is taken |
| LoopProtocol.QuitProgress | ThreadAndNetWorkCoding/zdq_event_loop.cpp:62-80 | once `quit_` is set in `loop()`, each step of the loop lowers (phase, work left in it) and no other step raises it |
| LoopProtocol.QuitNeverStuck | ThreadAndNetWorkCoding/zdq_event_loop.cpp:93-98 | after quit some step of the loop is enabled; if it is in poll the eventfd is readable or the quitting thread has still to write it |
| LoopProtocol.QuitBoundsTheRun | ThreadAndNetWorkCoding/zdq_event_loop.cpp:62-80 | from `quit_` on, at most one more poll return, one more batch and one more test of the flag, until `loop()` is entered again |
| LoopProtocol.QuitBeforeLoopIsLost | ThreadAndNetWorkCoding/zdq_event_loop.cpp:66-70 | after any run outside `loop()`, a quit of any thread followed by the entry of `loop()` leads to poll with the flag down |
| LoopProtocol.QuitEndsLoopIff | ThreadAndNetWorkCoding/zdq_event_loop.cpp:62-98 | from a quit, and until the next one, the next test of the flag leaves `loop()` if and only if `loop()` has not been entered since; if it has, it is never left |
| EventLoops.EventLoop.WorkIsSignalled | ThreadAndNetWorkCoding/zdq_event_loop.cpp:70-77 | of the object: in poll with functors queued, the eventfd is readable or a foreign thread is about to write it |
| EventLoops.EventLoop.QuitIsSignalled | ThreadAndNetWorkCoding/zdq_event_loop.cpp:93-98 | of the object: in poll with the flag up, the eventfd is readable or the quitting thread is about to write it |
| EventLoops.EventLoop.ReadableIfWritten | ThreadAndNetWorkCoding/zdq_timer.cpp:93-110 | of the object: its eventfd is readable if and only if written since the wakeup channel was last handled |
| EventLoops.EventLoop.NothingIsDropped | ThreadAndNetWorkCoding/zdq_event_loop.cpp:108-133 | of the object: all that was ever pushed is what it has called, then the rest of the batch, then its queue |
| EventLoops.ExtendsLeavesAlone | ThreadAndNetWorkCoding/zdq_event_loop.cpp:108-119 | whatever callbacks and foreign threads do, the loop's place and the calls made stay, the queue only grows at its end, a set flag and a readable eventfd stay so |
| EventLoops.EventLoop.AppendFuncInLoop | ThreadAndNetWorkCoding/zdq_event_loop.cpp:108-119 | the functor is behind everything queued, and during a batch the eventfd is readable afterwards |
| EventLoops.EventLoop.PushFromForeign | ThreadAndNetWorkCoding/zdq_event_loop.cpp:110-113 | the locked half of a foreign append: the functor is last in the queue, and the thread has still to write |
| EventLoops.EventLoop.QuitFromForeign | ThreadAndNetWorkCoding/zdq_event_loop.cpp:93-96 | the first half of a foreign quit: the flag is up, and the thread has still to write |
| EventLoops.EventLoop.WakeFromForeign | ThreadAndNetWorkCoding/zdq_event_loop.cpp:117-118 | the eventfd write that ends both: the eventfd is readable |
| EventLoops.EventLoop.Interfere | ThreadAndNetWorkCoding/zdq_event_loop.cpp:93-119 | any number of foreign steps extends the run by foreign events only and keeps the object valid |
| EventLoops.EventLoop.Quit | ThreadAndNetWorkCoding/zdq_event_loop.cpp:93-98 | on the loop's own thread: the flag is set and nothing is written |
| EventLoops.EventLoop.Poll | ThreadAndNetWorkCoding/zdq_event_loop.cpp:72-73 | the active channels are what poll reports; a readable wakeup channel is among them unless poll is interrupted; no call is made |
| EventLoops.EventLoop.HandleEvent | ThreadAndNetWorkCoding/zdq_event_loop.cpp:74-75 | exactly the first active channel is handled; no functor runs and no push is lost; after the wakeup channel the eventfd is readable if and only if it was written meanwhile |
| EventLoops.EventLoop.Dispatch | ThreadAndNetWorkCoding/zdq_event_loop.cpp:74-75 | the channels handled are exactly those that poll reported, in order, and no functor is called |
| EventLoops.EventLoop.TakeBatch | ThreadAndNetWorkCoding/zdq_event_loop.cpp:123-128 | the batch is everything pushed and not yet called |
| EventLoops.EventLoop.CallBatch | ThreadAndNetWorkCoding/zdq_event_loop.cpp:130-131 | exactly the functors of the batch are called, in order, while they append and quit at will |
| EventLoops.EventLoop.DoAppendFunctors | ThreadAndNetWorkCoding/zdq_event_loop.cpp:121-133 | everything pushed before has been called, and the queue holds exactly what was pushed since the swap |
| EventLoops.EventLoop.Round | ThreadAndNetWorkCoding/zdq_event_loop.cpp:72-76 | one round calls every functor pushed before it, in push order, with arbitrary interference |
| EventLoops.EventLoop.Loop | ThreadAndNetWorkCoding/zdq_event_loop.cpp:62-80 | the loop returns only after a quit; if it has not returned after its rounds, all that was pushed before it has been called |
| EventFd.WeakFd | ThreadAndNetWorkCoding/zdq_timer.cpp:93-100 | the counter is positive afterwards, does not fall, and never passes the kernel's maximum |
| PoolProtocol.StepKeepsMonitor | ThreadAndNetWorkCoding/zdq_thread_pool.cpp:34-92 | every step of any worker, producer or stop(), spurious wakeups and barging included, keeps mutual exclusion, exact wait sets and the two signal accounts |
| PoolProtocol.RunKeepsMonitor | ThreadAndNetWorkCoding/zdq_thread_pool.cpp:17-92 | every reachable state satisfies that invariant |
| PoolProtocol.NoSignalIsLost | ThreadAndNetWorkCoding/zdq_thread_pool.cpp:52-80 | with the mutex free, sleeping workers mean queue length <= woken workers, sleeping producers mean free slots <= woken producers |
| PoolProtocol.NeverAllAsleep | ThreadAndNetWorkCoding/zdq_thread_pool.cpp:52-80 | when workers and producers both sleep, someone has been woken |
| PoolProtocol.NoWorkerLeavesAStartedPool | ThreadAndNetWorkCoding/zdq_thread_pool.cpp:82-92 | in every run a worker has left runInThread only if the flag is down |
| PoolProtocol.QueuedTaskHasAWorker | ThreadAndNetWorkCoding/zdq_thread_pool.cpp:65-92 | in a started pool with the mutex free, queued tasks and at least one worker mean that some worker can take a step |
| PoolProtocol.WorkerGetsNearer | ThreadAndNetWorkCoding/zdq_thread_pool.cpp:65-92 | and each step of a worker takes the oldest task or brings that worker nearer to taking one; after its task it comes back for the next |
| PoolProtocol.TaskIsKept | ThreadAndNetWorkCoding/zdq_thread_pool.cpp:52-63 | a thread in addTask() holds the task it came with until it is in the queue, however often it waits |
| PoolProtocol.AcceptedAreOffered | ThreadAndNetWorkCoding/zdq_thread_pool.cpp:52-63 | the tasks accepted are those offered, one for each thread that found room, in that order |
| PoolProtocol.NoRoomNoTask | ThreadAndNetWorkCoding/zdq_thread_pool.cpp:52-62 | a pool started with no room never accepts a task |
| PoolProtocol.TasksAreConserved | ThreadAndNetWorkCoding/zdq_thread_pool.cpp:47-92 | accepted tasks are popped or cleared tasks followed by the queue, in order; the queue fits; each worker calls exactly what it popped, in order, once |
| PoolProtocol.ShutdownProgress | ThreadAndNetWorkCoding/zdq_thread_pool.cpp:39-43 | after stop() has notified no worker sleeps, each worker step lowers a measure over all workers, and nobody else's step moves a worker |
| PoolProtocol.ShutdownBoundsTheRun | ThreadAndNetWorkCoding/zdq_thread_pool.cpp:39-45 | after stop() has notified, the steps of all workers together are bounded by the measure at that time, whatever others do |
| PoolProtocol.ShutdownNeverStuck | ThreadAndNetWorkCoding/zdq_thread_pool.cpp:45-45 | until all workers have exited, a worker or the holder of the mutex can take a step: no join waits for a deadlock |
| PoolProtocol.AtMostOneMoreTask | ThreadAndNetWorkCoding/zdq_thread_pool.cpp:82-92 | once the flag is down each worker begins at most one further task |
| PoolProtocol.StrandedUntilSpurious | ThreadAndNetWorkCoding/zdq_thread_pool.cpp:34-58 | a producer asleep when stop() has returned is asleep at every later point if and only if its own wait never returns spuriously, whatever the others do |
| PoolStops.LoadAfter | ThreadAndNetWorkCoding/zdq_thread_pool.cpp:52-80 | unless a thread enters addTask(), no step raises the load (tasks queued and on their way in, less those that workers past the test must take), and only two kinds of step may lower it |
| PoolStops.StopStrandsIff | ThreadAndNetWorkCoding/zdq_thread_pool.cpp:34-63 | for stop() called at any point of any run, with no further thread entering addTask(): it can return with a producer asleep if and only if the load at the call is more than the queue holds |
| PoolStops.RoomForAllIsSafe | ThreadAndNetWorkCoding/zdq_thread_pool.cpp:34-63 | it strands nobody if the queue has room for the tasks of all threads in addTask() |
| PoolStops.StopCanStrand | ThreadAndNetWorkCoding/zdq_thread_pool.cpp:34-63 | it does happen: room for one task, two threads in addTask(), no worker |
| ThreadPools.ThreadPool.constructor | ThreadAndNetWorkCoding/zdq_thread_pool.cpp:17-32 | a started pool is the first state of a run: empty queue, flag up, the given number of workers, each at the test of the flag |
| ThreadPools.ThreadPool.TestFlag | ThreadAndNetWorkCoding/zdq_thread_pool.cpp:84-84 | a worker goes on to take() if the flag is up and leaves if it is down |
| ThreadPools.ThreadPool.CallTask | ThreadAndNetWorkCoding/zdq_thread_pool.cpp:87-90 | the task that take() returned is called by the worker that took it, unless it is empty |
| ThreadPools.ThreadPool.EndTask | ThreadAndNetWorkCoding/zdq_thread_pool.cpp:84-91 | after its task the worker is at the test of the flag again |
| ThreadPools.ThreadPool.CallsAreTakings | ThreadAndNetWorkCoding/zdq_thread_pool.cpp:65-92 | of the object: what each worker has called is what it has taken, in order, but for a task in its hands |
| ThreadPools.ThreadPool.Take | ThreadAndNetWorkCoding/zdq_thread_pool.cpp:65-80 | asleep exactly if the queue is empty and the pool is started; otherwise the oldest task comes off the front, or the empty task after stop |
| ThreadPools.ThreadPool.AddTask | ThreadAndNetWorkCoding/zdq_thread_pool.cpp:52-63 | asleep exactly if the queue is full; otherwise the task is at the back, the queue fits and a sleeping worker has been woken |
| ThreadPools.ThreadPool.StopSection | ThreadAndNetWorkCoding/zdq_thread_pool.cpp:39-43 | the flag is down, every sleeping worker is woken, no producer is, the queue is untouched |
| ThreadPools.ThreadPool.DropTasks | ThreadAndNetWorkCoding/zdq_thread_pool.cpp:47-47 | the queue is empty and exactly its tasks are recorded as cleared |
| TimerFd.HowMuchTimeFromNow | ThreadAndNetWorkCoding/zdq_timer.cpp:112-126 | seconds and nanoseconds in range that add up to the time left, or to 100 microseconds if less is left |
| TimerFd.ResetArms | ThreadAndNetWorkCoding/zdq_timer.cpp:128-138 | arming never disarms: the fd expires at the expiration, or 100 microseconds from now if that is later, and neither earlier nor later |
| TimerProtocol.NoTimerIsStranded | ThreadAndNetWorkCoding/zdq_time_queue.cpp:39-96 | after every step, timers added by running callbacks included, for every waiting timer the fd is ready, or armed no later than max(its expiration, last arming + 100us) |
| TimerProtocol.DueTimersWakeTheLoop | ThreadAndNetWorkCoding/zdq_time_queue.cpp:60-96 | once a waiting timer is due and 100us have passed since arming, the fd is ready or expires now |
| TimerProtocol.ExpirySplitsExactly | ThreadAndNetWorkCoding/zdq_time_queue.cpp:49-58 | a timer is taken out exactly if it is due and stays exactly if it is not; the two parts in order are the old set |
| TimerProtocol.NoCallIsEarly | ThreadAndNetWorkCoding/zdq_time_queue.cpp:39-47 | no callback is called before its time, and within one handleRead calls come in order of expiration |
| TimerProtocol.RunCountsAreBounded | ThreadAndNetWorkCoding/zdq_timer_info.h:54-78 | a one-shot is called at most once and freed once, after its call; a repeating timer is never freed and called at most 1 + (now - first) / interval times |
| TimerProtocol.RunsAreCalls | ThreadAndNetWorkCoding/zdq_time_queue.cpp:44-45 | those counts are the calls in the history, for every timer |
| TimerProtocol.NoTimerIsLost | ThreadAndNetWorkCoding/zdq_time_queue.cpp:39-79 | a timer that is not freed is in exactly one place: the set, due, or called and not reset |
| TimerProtocol.RecordsAreAdded | ThreadAndNetWorkCoding/zdq_timer_info.h:54-60 | over every run the records are of the timers added, in order, with the times and intervals asked for |
| TimerProtocol.TimesAreHistory | ThreadAndNetWorkCoding/zdq_time_queue.cpp:70-71 | the clock and the time of the last arming are what the events alone say |
| TimerProtocol.ReadyUntilArmed | ThreadAndNetWorkCoding/zdq_time_queue.cpp:39-47 | until the next expiry, a readable timerfd stays readable if and only if no timer has become the earliest since |
| TimerProtocol.HandleReadSpinsIff | ThreadAndNetWorkCoding/zdq_time_queue.cpp:39-47 | with the timerfd readable, handleRead calls nothing, and leaves the very same state, if and only if no timer is due |
| TimerProtocol.InsertIsSetInsert | ThreadAndNetWorkCoding/zdq_time_queue.cpp:92-93 | insertion keeps the order, adds exactly the entry, and tells whether it is the earliest |
| TimerProtocol.StepKeepsInv | ThreadAndNetWorkCoding/zdq_time_queue.cpp:39-96 | every step keeps one place per timer, calling order, run counts against the clock, and an armed timerfd |
| TimerProtocol.RunKeepsInv | ThreadAndNetWorkCoding/zdq_time_queue.cpp:39-96 | every reachable state satisfies that invariant |
| TimeQueues.TimeQueue.EveryTimerWakes | ThreadAndNetWorkCoding/zdq_time_queue.cpp:60-96 | of the object: for every timer in the set its fd is ready or armed in time |
| TimeQueues.TimeQueue.AllocatedIffInSet | ThreadAndNetWorkCoding/zdq_time_queue.cpp:60-86 | of the object, between two handleReads: a TimerInfo is allocated if and only if it is in the set, so none leaks and none dangles |
| TimeQueues.Micros | ThreadAndNetWorkCoding/zdq_timestamp.cpp:41-45 | a positive interval in seconds becomes that many millionths, cut to a whole number; any other none |
| TimeQueues.TimerInfo.Restart | ThreadAndNetWorkCoding/zdq_timer_info.h:72-78 | a positive interval makes the next expiration that many seconds after now, cut to whole microseconds; any other gives the zero time |
| TimeQueues.TimeQueue.CallsAreApart | ThreadAndNetWorkCoding/zdq_timer_info.h:72-78 | of the object: a timer with a positive interval has been called at most so often that the calls are that many seconds apart, less a microsecond each |
| TimeQueues.TimeQueue.AddTimer | ThreadAndNetWorkCoding/zdq_time_queue.cpp:81-96 | one new TimerInfo, in the set under the time asked for beside all that were there; the fd is armed for it exactly if it is the earliest |
| TimeQueues.TimeQueue.LowerBound | ThreadAndNetWorkCoding/zdq_time_queue.cpp:52-54 | the position after the last timer that is due |
| TimeQueues.TimeQueue.GetAllExpiredTimers | ThreadAndNetWorkCoding/zdq_time_queue.cpp:49-58 | takes exactly the timers due by now out of the set, in order |
| TimeQueues.TimeQueue.RunExpired | ThreadAndNetWorkCoding/zdq_time_queue.cpp:44-45 | one call for each of them, in order, while callbacks add timers and time passes |
| TimeQueues.TimeQueue.Reset | ThreadAndNetWorkCoding/zdq_time_queue.cpp:60-79 | each called timer with a positive interval is in the set again, that many seconds after the time of the handleRead; each other one is deleted |
| TimeQueues.TimeQueue.HandleRead | ThreadAndNetWorkCoding/zdq_time_queue.cpp:39-47 | calls exactly the timers that were due on entry, once each, in order of expiration; then each is rescheduled by its interval in seconds, or deleted |
| PollTable.TableAgreesWithHistory | ThreadAndNetWorkCoding/zdq_poller.cpp:46-92 | over every sequence of updates and permitted removals there is one slot for each registered fd, with the mask asked for last, live exactly if it never asked for nothing |
| PollTable.RemoveMovesAtMostOne | ThreadAndNetWorkCoding/zdq_poller.cpp:81-92 | removal deletes one owner, keeps every other slot's contents, and re-indexes at most the last one |
| PollTable.RemovableIff | ThreadAndNetWorkCoding/zdq_poller.cpp:86-90 | over every history: a registered channel can be removed if and only if the last slot is its own or its owner has never asked for nothing |
| PollTable.SafeIfNoOtherGivenUp | ThreadAndNetWorkCoding/zdq_poller.cpp:86-90 | so wherever the slots are, removal is safe when no other registered channel is disabled |
| PollTable.DisabledIsTerminal | ThreadAndNetWorkCoding/zdq_poller.cpp:74-77 | a slot that was disabled stays so through any later updates, until it is removed |
| PollTable.TwoClosedAtOnce | ThreadAndNetWorkCoding/zdq_poller.cpp:86-90 | after any run, two channels added and both disabled leave the first one impossible to remove |
| Pollers.Channel.HandleEvent | ThreadAndNetWorkCoding/zdq_channel.cpp:13-47 | exactly the set callbacks that the revents concern are called, in the fixed order, each with the handling flag up, which is down afterwards |
| Pollers.OrderedIsExact | ThreadAndNetWorkCoding/zdq_channel.cpp:22-44 | that order is close, error, read, write, each once |
| Pollers.ConcernsByBit | ThreadAndNetWorkCoding/zdq_channel.cpp:22-44 | which callback answers to which flags, by the bits that poll(2) gives them |
| Pollers.MasksByBit | ThreadAndNetWorkCoding/zdq_channel.cpp:9-11 | the masks by bits: reading asks for POLLIN and POLLPRI, writing for POLLOUT |
| Pollers.AskedIsAnswered | ThreadAndNetWorkCoding/zdq_channel.cpp:34-44 | an answer within the mask, errors and hang-ups aside, calls back for exactly what was asked for and is ready |
| Pollers.Channel.EnableReading | ThreadAndNetWorkCoding/zdq_channel.h:44-48 | the bits of POLLIN and POLLPRI are set and no other changes, and the table is updated with the new mask |
| Pollers.Channel.EnableWriting | ThreadAndNetWorkCoding/zdq_channel.h:51-51 | the bit of POLLOUT is set and no other changes, and the table is updated with the new mask |
| Pollers.Channel.DisableWriting | ThreadAndNetWorkCoding/zdq_channel.h:53-57 | the bit of POLLOUT is clear and no other changes, and the table is updated with the new mask |
| Pollers.Channel.DisableAll | ThreadAndNetWorkCoding/zdq_channel.h:58-58 | the mask is empty and the table is told so |
| Pollers.Channel.Remove | ThreadAndNetWorkCoding/zdq_channel.cpp:54-58 | succeeds if and only if the last slot is live or the channel's own; then the channel is out of the table and retired, its index not reset |
| Pollers.Poller.UpdateChannel | ThreadAndNetWorkCoding/zdq_poller.cpp:46-79 | pollfds, map and index agree again, and the table is exactly the specified update |
| Pollers.Poller.RemoveChannel | ThreadAndNetWorkCoding/zdq_poller.cpp:81-92 | no null channel is dereferenced if and only if the table allows the removal; then the three structures agree on exactly the specified removal |
| Pollers.Poller.IndexIsPlace | ThreadAndNetWorkCoding/zdq_poller.cpp:50-70 | a registered channel's index is the place of its fd in the table, and no two slots share an owner's fd |
| Pollers.Poller.FillActiveChannels | ThreadAndNetWorkCoding/zdq_poller.cpp:20-35 | although it stops early, it returns the owners of all reporting slots and gives each its own revents |
| Pollers.Poller.ActiveListIsExact | ThreadAndNetWorkCoding/zdq_poller.cpp:20-45 | a channel is in that list if and only if it is registered, its slot live and something reported; the list is in slot order without repetition |
| Pollers.Poller.Poll | ThreadAndNetWorkCoding/zdq_poller.cpp:37-45 | for any answers of the kernel that ignore negative fds, the active list is that list and each channel has its own revents; if the call fails the list is empty and nothing changes |
| Buffers.FifoKeepsOrder | ThreadAndNetWorkCoding/zdq_buffer.h:47-89 | for every sequence of operations the bytes put in are the bytes taken out followed by those held |
| Buffers.Drive | ThreadAndNetWorkCoding/zdq_buffer.h:23-89 | a fresh buffer put through any operations that may be asked of it, failed reads included, gives out what the FIFO gives out; `readIndex_` <= 1024 and storage <= max(initial, 1024 + most ever readable) |
| Buffers.Buffer.MoveToHead | ThreadAndNetWorkCoding/zdq_buffer.h:47-54 | the overlapping copy keeps the readable bytes and leaves no gap before them |
| Buffers.Buffer.Retrieve | ThreadAndNetWorkCoding/zdq_buffer.h:56-67 | exactly the first bytes go, on every one of its three paths |
| Buffers.Buffer.Append | ThreadAndNetWorkCoding/zdq_buffer.h:69-76 | exactly the given bytes are added behind the readable ones |
| Buffers.Buffer.RetrieveAsString | ThreadAndNetWorkCoding/zdq_buffer.h:78-84 | the result followed by what is left is what was readable |
| Buffers.Buffer.RetrieveAllAsString | ThreadAndNetWorkCoding/zdq_buffer.h:86-89 | the result is all that was readable, and nothing is left |
| Buffers.Buffer.ReadFd | ThreadAndNetWorkCoding/zdq_buffer.cpp:3-25 | whatever arrives is behind the readable bytes, however it was split over the two segments; an error changes nothing |
| ConnProtocol.OutputIsConserved | ThreadAndNetWorkCoding/zdq_tcp_connection.cpp:53-161 | for any messages and partial writes the wire followed by the output buffer is the concatenation of the messages; while open, the channel writes exactly when the buffer is not empty |
| ConnProtocol.WireIsWhatWriteTook | ThreadAndNetWorkCoding/zdq_tcp_connection.cpp:53-161 | over every run the wire is exactly the first so many bytes handed over as the results of write() add up to, and the buffer the others: no byte twice, none left out |
| ConnProtocol.PendingCanDrain | ThreadAndNetWorkCoding/zdq_tcp_connection.cpp:53-75 | from any run with bytes pending the next round can put them all on the wire |
| ConnProtocol.HalfCloseIsGraceful | ThreadAndNetWorkCoding/zdq_tcp_connection.cpp:112-127 | the write side is shut down at most once, only with every accepted byte on the wire, and none is written or accepted after |
| ConnProtocol.DrainShutsDown | ThreadAndNetWorkCoding/zdq_tcp_connection.cpp:58-72 | a shutdown deferred behind pending bytes happens in the very step that drains them |
| ConnProtocol.StateOnlyAdvances | ThreadAndNetWorkCoding/zdq_tcp_connection.cpp:77-120 | the state never goes back, and the close callback fires exactly on the step into kDisconnected |
| ConnProtocol.ClosesAtMostOnce | ThreadAndNetWorkCoding/zdq_tcp_connection.cpp:163-177 | whatever mix of peer close and forceClose, the close callback fires at most once; after it no read is dispatched and a write already reported does nothing |
| ConnProtocol.ForceCloseCompletes | ThreadAndNetWorkCoding/zdq_tcp_connection.cpp:163-177 | from any run with the connection open, forceClose can be carried through: closed, once, and out of the poller |
| ConnProtocol.PeerCloseCompletes | ThreadAndNetWorkCoding/zdq_tcp_connection.cpp:24-110 | so can a close by the peer, from any run with the connection open |
| ConnProtocol.RemovedOnlyByFunctor | ThreadAndNetWorkCoding/zdq_tcp_connection.cpp:100-110 | the channel leaves the poller only in the functor phase, once closed, with nothing left to dispatch on it |
| ConnProtocol.CompletionMeansDrainedIff | ThreadAndNetWorkCoding/zdq_tcp_connection.cpp:62-69 | a write-complete is queued with the buffer drained if and only if it was not an empty message sent over pending bytes |
| ConnProtocol.CompletionIff | ThreadAndNetWorkCoding/zdq_tcp_connection.cpp:62-69 | a write-complete is queued exactly by a send that leaves nothing to be buffered and by the write that drains the buffer, one each time |
| ConnProtocol.CompletionWithBytesPending | ThreadAndNetWorkCoding/zdq_tcp_connection.cpp:151-160 | the exception does happen: a byte that is not taken, then an empty message |
| ConnProtocol.StepKeepsInv | ThreadAndNetWorkCoding/zdq_tcp_connection.cpp:24-177 | every step keeps the stream, the mask, the single close and the clean shutdown |
| ConnProtocol.RunKeepsInv | ThreadAndNetWorkCoding/zdq_tcp_connection.cpp:24-177 | every reachable state satisfies that invariant |
| TcpConnections.TcpConnection.StreamIsConserved | ThreadAndNetWorkCoding/zdq_tcp_connection.cpp:53-161 | of the object: what it has written followed by its output buffer is what the user handed over; while open it writes exactly when the buffer is not empty |
| TcpConnections.TcpConnection.WireIsExact | ThreadAndNetWorkCoding/zdq_tcp_connection.cpp:53-161 | of the object: what it has written is exactly the bytes that write() took, and its buffer holds the rest |
| TcpConnections.TcpConnection.ShutdownIsGraceful | ThreadAndNetWorkCoding/zdq_tcp_connection.cpp:112-127 | of the object: at most one shutdown of the write side, and then all that was handed over is on the wire |
| TcpConnections.TcpConnection.ClosedOnceForOwner | ThreadAndNetWorkCoding/zdq_tcp_connection.cpp:77-83 | of the object: the close callback has been called once if it is disconnected, and not otherwise |
| TcpConnections.TcpConnection.ConnectEstablished | ThreadAndNetWorkCoding/zdq_tcp_connection.cpp:91-98 | connected, reading and registered, and the connection callback called once |
| TcpConnections.TcpConnection.Send | ThreadAndNetWorkCoding/zdq_tcp_connection.cpp:129-161 | the stream grows by exactly the message if the connection is connected and the write does not fail; over an empty buffer exactly what write() took is on the wire, else nothing more; the process ends exactly if that write fails |
| TcpConnections.TcpConnection.Shutdown | ThreadAndNetWorkCoding/zdq_tcp_connection.cpp:112-127 | a connected connection is disconnecting, and its write side shut down now exactly if nothing is pending; any other is left alone |
| TcpConnections.TcpConnection.ForceClose | ThreadAndNetWorkCoding/zdq_tcp_connection.cpp:163-170 | an open connection is disconnecting with one more close queued; any other is left alone |
| TcpConnections.TcpConnection.ForceCloseInLoop | ThreadAndNetWorkCoding/zdq_tcp_connection.cpp:172-177 | an open connection is closed, with its one close callback; a closed one gets no second |
| TcpConnections.TcpConnection.HandleRead | ThreadAndNetWorkCoding/zdq_tcp_connection.cpp:24-51 | what arrives is behind the buffered input and the message callback called once; end of stream closes with the one close callback; an error leaves the state alone |
| TcpConnections.TcpConnection.HandleWrite | ThreadAndNetWorkCoding/zdq_tcp_connection.cpp:53-75 | exactly the bytes that write() took move from the front of the buffer to the wire; if a disconnecting connection is drained its write side is shut down at that point |
| TcpConnections.TcpConnection.ConnectDestroyed | ThreadAndNetWorkCoding/zdq_tcp_connection.cpp:100-110 | disconnected, closed once, and out of the poller; or the process has ended because the poller cannot remove the channel |
| ConnectorProtocol.BrokenIff | ThreadAndNetWorkCoding/zdq_connector.cpp:24-179 | a run fails (an assertion, a missing channel, a channel destroyed in the dispatch phase or under its handler, a reported channel gone) if and only if its last step asked the poller for a removal it cannot do |
| ConnectorProtocol.DestroyedOnlyByFunctor | ThreadAndNetWorkCoding/zdq_connector.cpp:155-167 | the channel is destroyed only by resetChannel, in the functor phase, after the poller has let go of it |
| ConnectorProtocol.EverySocketIsAccountedFor | ThreadAndNetWorkCoding/zdq_connector.cpp:65-179 | every socket opened is exactly one of closed, handed over, in flight; kConnecting holds exactly when a registered channel owns it |
| ConnectorProtocol.OneStartOutstanding | ThreadAndNetWorkCoding/zdq_connector.cpp:24-46 | at most one start or retry is outstanding, and then nothing is in flight or handed over |
| ConnectorProtocol.RetriesBackOff | ThreadAndNetWorkCoding/zdq_connector.cpp:169-179 | the k-th retry since construction or restart waits min(500 * 2^k, 30000) ms |
| ConnectorProtocol.FailureIsRetried | ThreadAndNetWorkCoding/zdq_connector.cpp:116-153 | an attempt that fails has its socket closed and one retry scheduled, at the delay of its turn |
| ConnectorProtocol.AttemptCanSucceed | ThreadAndNetWorkCoding/zdq_connector.cpp:116-138 | from any run with an attempt in flight, between two polls, the next round can hand its socket over as a live connection |
| ConnectorProtocol.ErrorThenWrite | ThreadAndNetWorkCoding/zdq_connector.cpp:116-153 | if poll reports an error and writability, both callbacks are made: the first gives the attempt up, the second does nothing |
| ConnectorProtocol.RetryCanFire | ThreadAndNetWorkCoding/zdq_connector.cpp:169-179 | from any run with a retry set and wanted, between two polls, the next round can make it; the old channel is destroyed by then |
| ConnectorProtocol.EndCanRestart | ThreadAndNetWorkCoding/zdq_tcp_client.cpp:102-116 | from any run with a live connection, between two polls, its end can lead to the next attempt, with the delay at 500 ms |
| ConnectorProtocol.CloseRestarts | ThreadAndNetWorkCoding/zdq_tcp_client.cpp:102-116 | a forced close that is run ends the connection it was queued for, with one new attempt at 500 ms if the client wants one, and changes nothing if that connection has ended |
| ConnectorProtocol.EarlyTimerBreaksIff | ThreadAndNetWorkCoding/zdq_connector.cpp:104-107 | an outstanding timer that fired now would fail the assertion if and only if the old channel is still there, which is only so in the round that set it |
| ConnectorProtocol.EarlyTimerCanBreak | ThreadAndNetWorkCoding/zdq_connector.cpp:104-107 | there is a run in which such a timer would fail it |
| ConnectorProtocol.StepKeepsInv | ThreadAndNetWorkCoding/zdq_connector.cpp:24-179 | every step keeps the ledger, the snapshot, the order of deferred destruction and the backoff |
| ConnectorProtocol.RunKeepsInv | ThreadAndNetWorkCoding/zdq_connector.cpp:24-179 | every reachable state satisfies that invariant |
| Connectors.Connector.SocketsAreAccountedFor | ThreadAndNetWorkCoding/zdq_connector.cpp:65-179 | of the object: every socket it has opened is exactly one of closed, handed over, owned by its registered channel |
| Connectors.Connector.StateIsTelling | ThreadAndNetWorkCoding/zdq_connector.cpp:30-114 | of the object: kConnecting means a registered channel; a retry timer is the only one and means kDisconnected; a live connection means kConnected |
| Connectors.Connector.NextDelayIs | ThreadAndNetWorkCoding/zdq_connector.cpp:169-179 | of the object: the next delay is 500 ms doubled once for each retry since construction or restart, at most 30 s |
| Connectors.Connector.Start | ThreadAndNetWorkCoding/zdq_connector.cpp:24-36 | on the loop thread: one attempt with a new socket, in flight, or closed with a retry set, or closed for good, by the class of errno; no assertion fails |
| Connectors.Connector.StartFromElsewhere | ThreadAndNetWorkCoding/zdq_connector.cpp:24-28 | on another thread: the attempt is queued and no socket opened |
| Connectors.Connector.Stop | ThreadAndNetWorkCoding/zdq_connector.cpp:48-52 | no further attempt is wanted, giving up the one in flight is queued, and it is still in flight |
| Connectors.Connector.OnTimer | ThreadAndNetWorkCoding/zdq_connector.cpp:175-176 | the retry timer makes one attempt with a new socket, with the current delay if it fails; none after stop(); no assertion fails |
| Connectors.Connector.HandleWrite | ThreadAndNetWorkCoding/zdq_connector.cpp:116-143 | a connected socket is handed over and live, or closed after stop(); a failed or self-connected one is given up and retried; a late event changes nothing; it fails exactly if the poller cannot remove the channel |
| Connectors.Connector.HandleError | ThreadAndNetWorkCoding/zdq_connector.cpp:145-153 | an attempt in flight is closed, its channel dead, one retry set if wanted; otherwise nothing happens; it fails exactly if the poller cannot remove the channel |
| Connectors.Connector.RestartAfterPeerClose | ThreadAndNetWorkCoding/zdq_tcp_client.cpp:102-116 | when the handed-over connection ends, one attempt with a new socket and the delay back at 500 ms; no assertion fails |
| Connectors.Connector.RunResetChannel | ThreadAndNetWorkCoding/zdq_connector.cpp:164-167 | it finds a channel that the poller has let go of, and none is left |
| Connectors.Connector.RunStopInLoop | ThreadAndNetWorkCoding/zdq_connector.cpp:54-63 | an attempt in flight is closed, its channel dead, and no retry is set |
| Connectors.Connector.RunStartInLoop | ThreadAndNetWorkCoding/zdq_connector.cpp:30-36 | a queued start makes one attempt with a new socket, unless stop() has been called; no assertion fails |
| Connectors.Connector.RunCloseConn | ThreadAndNetWorkCoding/zdq_tcp_client.cpp:102-116 | a forced close ends the connection it was queued for: one attempt with a new socket and the delay at 500 ms if the client wants one, nothing else otherwise; for a connection that has ended nothing changes |

## Left out

- EventLoops.EventLoop.Loop: takes a bound on the number of rounds, because the real loop ends only when somebody quits; that quit ends it is proved on runs by the Quit lemmas of `LoopProtocol`.
- LoopProtocol.NoWakeupIsLost: not after a push by the loop's own thread outside `loop()`, until the next swap; AppendBeforeLoopWakesIff shows why.
- TimerProtocol.InsertIsSetInsert: equal expirations are ordered by creation number, not by address, because addresses are the allocator's.
- TimeQueues.TimeQueue.AddTimer: on the loop thread only; from elsewhere it is a functor of the loop.
- Buffers.Buffer.Append: lengths up to the largest `int`, the type of the parameter; so too Retrieve and the two AsString functions.
- TcpConnections.TcpConnection.Send: on the loop thread only, and messages up to the largest `int`.
- TcpConnections.TcpConnection.ConnectEstablished: the call of the connection callback is counted; what it does are later steps of the user in the same round. ConnectDestroyed calls it only for a connection that never closed.
- TcpConnections.TcpConnection.Shutdown: on the loop thread only.
- TcpConnections.TcpConnection.HandleRead: the call of the message callback is counted; what it does are later steps of the user in the same round.
- ThreadPools.ThreadPool.Take: one pass from the test of the `while` on; after `wait()` the thread gets the mutex back and comes to this method again, as the protocol's steps say. Between two passes any other thread may take any number of steps.
- ThreadPools.ThreadPool.AddTask: one pass from the test of the `while` on, as Take.
- Pollers.Channel.HandleEvent: the call of a callback is recorded; what callbacks do are the steps of the protocols.
- ThreadPools.ThreadPool.MoveThread: the loop of `runInThread` is a program counter of the protocol; the class has the critical sections as methods.
- PoolProtocol.TasksAreConserved: stop() clears the queue in one step; the source does it task by task without the mutex, which races with a thread still in addTask().
- `send` and `shutdown` racing from other threads, `addTask` before `start` or while `stop` clears the queue, a pool started again after `stop`: the code does not establish an order for these.
- Repeated `start` of a connector, `restart` after `stop`, and `connectDestroyed` on a connection that never closed (a server that goes away): their callers' ownership is not modelled.
- Sockets, addresses, Acceptor, real system calls and their failures that end the process, except the failed write of `sendInLoop`.
- Thread creation and ids, EventLoopThread, `shared_ptr` counts, names and string formatting, the `is_lock_` flag of the mutex.
- `double` rounding of intervals: an interval is a real number of seconds, cut to whole microseconds.
- BlockingQueue, AtomicIntegerT, round-robin choice of a loop, the standalone Timer class and the demos: only easy members.
