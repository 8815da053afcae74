# A model of the muduo reactor library

The muduo library is a set of small state machines whose correctness is spread over several functions
and threads. This project models them in Dafny and proves, for every run, every interleaving or every
input, what the code's assertions and comments rely on.

| file | component |
|---|---|
| `EventLoop.dfy` | pending functors and the eventfd wakeup of a loop |
| `TcpConnection.dfy` | output stream, half-close and state machine of a connection |
| `TcpServer.dfy` | life of connections across the accept loop and the I/O loops |
| `TimerQueue.dfy` | the two timer indexes, cancellation and the timerfd |
| `Pollers.dfy` | `PollPoller` and `EPollPoller` as refinements of one map |
| `BoundedBlockingQueue.dfy` | the bounded queue with two condition variables |
| `AsyncLogging.dfy` | the double-buffered log back end |
| `Date.dfy`, `TimeZone.dfy` | Julian day numbers, UTC and local time |
| `Bytes.dfy`, `Buffer.dfy` | network-order integers and the byte buffer |
| `Incremental.dfy` | parsing a stream that arrives in pieces |
| `ProtobufCodec.dfy`, `HttpContext.dfy` | the framing codec and the HTTP request parser |

## How it is modelled

Concurrent components are state machines over atomic steps: a datatype of states, a datatype of steps,
`Enabled` and `Apply`, and `Run` over a sequence of steps. A step is a critical section, a callback, a
system call or a state check with its assignment. Theorems quantify over all sequences of enabled
steps from the initial state. Beside each machine stands a class with the source's fields, whose
methods are the code and are proved to perform the abstract step; assertions of the code are assertions
there, or set a `failed` flag in the machine; when it is never set is stated and proved.

States carry histories: functors queued, messages sent, timers created, lines appended, items put. What the
theorems compare them with is read off the steps: functions of the sequence of steps say what was asked for
(`Queued`, `SentBy`, `Requests`, `AppendedBy`, `AcceptedOn`, `PutsBy`), and the histories are proved to be that.

Results of system calls, the clock, the order of threads, signalled threads and spurious wakeups are
parameters of the steps. Assumed of the environment: `write` takes no more than it is offered and fails
with a gone peer once the write side is closed; `poll` and `epoll_wait` report only descriptors they were
given, and of one with an empty mask only a hang-up or an error; an eventfd is reported only when its counter
is positive; serialization is a pair of functions.
Assumed of callers, as the code demands: the loop thread queues functors only inside `loop`; reading is
started only while a connection is live and stopped only before its channel is removed; the server
is not destroyed during the run; `parseRequest` is not called after a complete request; a channel
removed from `PollPoller` is not updated again.

One comment disagrees with its code: `parseRequest` is said to end the headers at an empty line, but it
ends them at any line without a colon. The model follows the code and states when the two agree.

## Where a law has an exact limit

- Events: no run breaks an assertion of the connection lifecycle if and only if the events returned are not a
  hang-up without input that comes with urgent data or a peer half-close and, with `EPollPoller`, not a hang-up
  alone or with an error (`Server.SafeIffHarmless`, with the runs `Server.ClosedTwice` and
  `Server.HangUpAfterClose`).
- Steps: with `EPollPoller` a hang-up alone is harmless as long as nobody closes a connection whose mask is empty
  (reading stopped, nothing to write) and nobody calls `stopRead` for the first time on a closed connection. Either
  step adds the closed connection to epoll's list again with an empty mask; a step opens the way to a second
  `handleClose` if and only if it is one of these (`Server.CarefulIsExact`). With `PollPoller` every step is safe.
- Bounded queue: a capacity of zero, and only that, lets all threads sleep (`BlockingQueue.StuckIffNoCapacity`).
- HTTP headers: the lines before an empty line are all taken as headers if and only if each has a colon
  (`HttpParser.HeadersEndAtEmptyLineIff`, with the input `HttpParser.PlainLineEndsHeaders`).
- HTTP refusals: `HttpServer` calls `parseRequest` again after a refused request line. The line is still in
  the buffer, and the assertion in `setMethod` then holds if and only if the line does not begin with one of
  the five methods and a space (`HttpParser.CallAfterRefusalIff`, with the input
  `HttpParser.RefusedGetBreaksAssertion`). Until a call reports an error or the end, it always holds
  (`HttpParser.HttpContext.ParseArriving`).
- Frames: only the receiver checks the length limit, so a message that was sent is delivered if and only if
  its frame is within it (`ProtobufCodec.DeliveredIffWithinLimit`, with the input `ProtobufCodec.LimitExceeded`).
- Pollers: `PollPoller` accepts the removal of a descriptor if and only if its interest was last set to nothing
  by an update after the first one, `EPollPoller` if and only if it is registered and interested in nothing
  (`Pollers.RunPoll`, `Pollers.RunEPoll`, with the input `Pollers.EmptyFromTheStart` at which they differ). The
  two lists given to the kernel agree on non-empty masks, and differ on empty ones (`Pollers.Lockstep`, with the
  input `Pollers.EmptiedTwice`).
- Timer arming: the timerfd is armed in time in every run if and only if the clock is positive; expirations
  may have any sign (`TimerQueues.StaysArmedIff`, with the run `TimerQueues.ArmedTooLate`).
- Local time: `fromLocalTime` assumes a shift of 3600 seconds in the repeated hour; with any other shift
  and clocks that go back, the round trip fails there (`TimeZones.LocalRoundTripIff`, with the table
  `TimeZones.HalfHourShiftFails`).
- Dates: a day number gives a valid date exactly from -32044 on, and a valid date survives the way through
  its day number exactly from 1 March -4800 on; `weekDay` is in its range exactly from day -1 on and on
  earlier Sundays (`Calendar.DateOfValidIff`, `Calendar.DateDayDate`, `Calendar.WeekDayRange`).

## Model

| member | source | states |
|---|---|---|
| `Reactor.NeverBlocksWithWork` | linux_multithread_server/muduo/net/EventLoop.cc:103-171 | in every interleaving of pushes, eventfd writes, quit requests and the phases of the loop, a loop about to block while a functor handed to queueInLoop has not been run or quit was called has an eventfd written since it was last read, or a thread that has pushed or quit and not written since; all said of the steps |
| `Reactor.RunOnceInQueueOrder` | linux_multithread_server/muduo/net/EventLoop.cc:160-171 | in every run the functors executed, then the swapped batch, then the pending ones are exactly the functors that the steps handed to queueInLoop, from any thread: each runs once, in that order, and none is lost |
| `Reactor.OneTurnRunsWhatWasDue` | linux_multithread_server/muduo/net/EventLoop.cc:103-134 | every functor handed to queueInLoop before poll returned has been executed by the time the loop polls again |
| `Reactor.PushedIsQueued` | linux_multithread_server/muduo/net/EventLoop.cc:160-171 | the record of the queue is the list of functors handed to queueInLoop, over the steps alone |
| `Reactor.StopsIffAsked` | linux_multithread_server/muduo/net/EventLoop.cc:103-146 | a turn ends the loop if quit was called before, from any thread, and leads back to poll otherwise; the loop is stopped only after a quit |
| `Reactor.HistoryGrows` | linux_multithread_server/muduo/net/EventLoop.cc:254-269 | no run takes back a push or an execution |
| `Reactor.EventLoop.QueueInLoop` | linux_multithread_server/muduo/net/EventLoop.cc:160-171 | the push under the lock is the abstract step, which adds the functor to those queued, and the caller must write the eventfd exactly when the step owes a wakeup: always from other threads, from the loop thread only while functors are being called |
| `Reactor.EventLoop.Wakeup` | linux_multithread_server/muduo/net/EventLoop.cc:234-242 | the write pays the wakeup owed and never lowers the counter, even when it is saturated |
| `Reactor.EventLoop.RequestQuit` | linux_multithread_server/muduo/net/EventLoop.cc:136-146 | quit keeps the invariant and owes a wakeup when asked from another thread |
| `Reactor.EventLoop.Poll` | linux_multithread_server/muduo/net/EventLoop.cc:111-113 | poll may report the wakeup channel only with a positive counter; the invariant holds after it |
| `Reactor.EventLoop.HandleRead` | linux_multithread_server/muduo/net/EventLoop.cc:244-252 | reading the eventfd clears the counter without losing a functor |
| `Reactor.EventLoop.SwapPendingFunctors` | linux_multithread_server/muduo/net/EventLoop.cc:259-262 | the swap moves all pending functors to the batch, in order, under the invariant |
| `Reactor.EventLoop.CallNextFunctor` | linux_multithread_server/muduo/net/EventLoop.cc:264-267 | the functor called is the first of the batch and is called once |
| `Connections.OutputConserved` | linux_multithread_server/muduo/net/TcpConnection.cc:139-192 | for every sequence of sends, partial writes, errors, write events, shutdowns and closes, the bytes the kernel took followed by the output buffer equal the data of the sends before the disconnect, in order, minus exactly the messages whose write told that the peer is gone with nothing buffered; the kernel took as many bytes as write said; until the disconnect, write interest is on exactly when the buffer is not empty |
| `Connections.GivenUpIff` | linux_multithread_server/muduo/net/TcpConnection.cc:150-192 | after any run a send adds its whole data to the stream, whatever write says of it, unless write says that the peer is gone and nothing was buffered, and then it adds nothing |
| `Connections.StateIsAsAsked` | linux_multithread_server/muduo/net/TcpConnection.cc:194-269 | the state over the calls alone: connecting until established, disconnected once closed, in between disconnecting exactly after a shutdown or forceClose of the established connection; reading as last asked until closed |
| `Connections.ShutdownTakesEffect` | linux_multithread_server/muduo/net/TcpConnection.cc:194-203 | after shutdown of a connected connection its loop step can run, whatever happens before it does |
| `Connections.GracefulHalfClose` | linux_multithread_server/muduo/net/TcpConnection.cc:194-213 | before the disconnect the write side is closed only after a request to close, with nothing buffered and everything sent taken by the kernel; and if the loop step of shutdown is among the steps, an empty buffer means a closed write side |
| `Connections.NothingTakenBack` | linux_multithread_server/muduo/net/TcpConnection.cc:368-421 | over every run the byte stream and the list of messages only grow and the state never goes back |
| `Connections.StepKeepsInv` | linux_multithread_server/muduo/net/TcpConnection.cc:139-421 | every step keeps conservation, the write-interest law and the half-close law |
| `Connections.TcpConnection.SendInLoop` | linux_multithread_server/muduo/net/TcpConnection.cc:139-192 | over the real output buffer: the branches for a direct write, would-block, a gone peer and buffering perform the abstract send, whose data, taken bytes and dropping OutputConserved and GivenUpIff state, and keep the invariant |
| `Connections.TcpConnection.WriteDirectly` | linux_multithread_server/muduo/net/TcpConnection.cc:150-173 | bytes are offered to the kernel at once exactly when nothing is queued before them; the message is lost exactly when the answer is then a gone peer, as GivenUpIff states over whole runs |
| `Connections.TcpConnection.HandleWrite` | linux_multithread_server/muduo/net/TcpConnection.cc:368-406 | a write event takes a prefix off the buffer, drops write interest exactly when it empties, and then closes the write side if disconnecting |
| `Connections.TcpConnection.RunShutdownInLoop` | linux_multithread_server/muduo/net/TcpConnection.cc:205-213 | the loop step of shutdown refines the abstract one and cannot cut off buffered bytes |
| `Connections.TcpConnection.RequestShutdown` | linux_multithread_server/muduo/net/TcpConnection.cc:194-203 | only a connected connection becomes disconnecting, with its loop step queued |
| `Connections.TcpConnection.HandleClose` | linux_multithread_server/muduo/net/TcpConnection.cc:408-421 | closing a live connection drops all interest and keeps the stream law |
| `Server.ConnectionsLiveInOrder` | linux_multithread_server/muduo/net/TcpServer.cc:71-117 | with PollPoller in every interleaving of the accept loop, any I/O loops and user threads, and with EPollPoller in every one made of careful steps, for all sane events: no lifecycle assertion fails (erase finds its element, a channel is removed without events, a connection is destroyed disconnected), every connection has lived through a prefix of established, closed, erased, destroyed, and it is in the map exactly until erased and in the poller exactly between establishment and destruction |
| `Server.NoConnectionForgotten` | linux_multithread_server/muduo/net/TcpServer.cc:100-117 | in the same runs, a connection that is accepted, closed or erased but not at its next stage has that functor queued exactly once on the right loop, or its thread is still inside handleClose, never both |
| `Server.SafeIffHarmless` | linux_multithread_server/muduo/net/Channel.cc:83-114 | for each poller and each set of returned events, no run with them breaks an assertion if and only if they are not a hang-up without input that comes with urgent data or a peer half-close and, with EPollPoller, not a hang-up alone or with an error |
| `Server.ListingFollowsPoller` | linux_multithread_server/muduo/net/poller/EPollPoller.cc:107-149 | what the model keeps of registration and listing is what each poller does with an update, for any operations before it |
| `Server.CarefulIsExact` | linux_multithread_server/muduo/net/TcpConnection.cc:408-421 | after any lawful run with EPollPoller, a step opens the way to a failure by careful steps and sane events alone if and only if it is careless |
| `Server.HiddenIffCareful` | linux_multithread_server/muduo/net/TcpConnection.cc:313-321 | with EPollPoller a step keeps every closed connection off epoll's list if and only if it is careful: it closes no connection with an empty mask, and does not first stop the reading of a closed one |
| `Server.ExposedFails` | linux_multithread_server/muduo/net/TcpConnection.cc:408-421 | whatever its loop is doing, a closed connection that epoll still lists can be made to fail without another careless step |
| `Server.HangUpAfterClose` | linux_multithread_server/muduo/net/poller/EPollPoller.cc:107-149 | a run with EPollPoller in which stopRead and a forced close leave the closed connection on the list with an empty mask, and a hang-up alone then enters handleClose again |
| `Server.DispatchClosesOnce` | linux_multithread_server/muduo/net/Channel.cc:83-114 | the dispatch order enters the close path at most once exactly when the events are not a hang-up without input together with urgent data or a half-close |
| `Server.DispatchMeaning` | linux_multithread_server/muduo/net/Channel.cc:83-114 | for all events: close is called iff hang-up without input, error iff error or invalid, read iff input, urgent data or half-close, write iff output |
| `Server.DispatchOrder` | linux_multithread_server/muduo/net/Channel.cc:83-114 | each callback is called at most once, in the order close, error, read, write |
| `Server.EndOfInputCloses` | linux_multithread_server/muduo/net/TcpConnection.cc:347-366 | in every run of either poller, a connection that poll reported with input, urgent data, a half-close or a hang-up has been closed once its callbacks have been called, if its read reads 0 bytes, whatever else runs meanwhile |
| `Server.RequestsTakeEffect` | linux_multithread_server/muduo/net/TcpConnection.cc:194-269 | after shutdown or forceClose of a live connection it is never connected again; after forceClose it has been closed as soon as no forceCloseInLoop is queued for it |
| `Server.ConnectionsAreNumbered` | linux_multithread_server/muduo/net/TcpServer.cc:71-98 | in every run the k-th connection accepted has number k and is on the loop chosen for it |
| `Server.RunMask` | linux_multithread_server/muduo/net/TcpConnection.cc:293-321 | while a connection lives its event mask is the one asked for last by startRead, stopRead and the output buffer |
| `Server.ClosedTwice` | linux_multithread_server/muduo/net/TcpConnection.cc:347-366 | with either poller, for every hang-up without input that comes with urgent data or a half-close, a run in which handleClose is entered twice and its assertion fails |
| `Server.StepKeepsInv` | linux_multithread_server/muduo/net/TcpConnection.cc:239-345 | every step of every thread, except the report of a hang-up for a descriptor with an empty mask, keeps the stage invariant that ties state, registration, listing, map membership, queued functors and pending callbacks together |
| `Server.HeadFunctor` | linux_multithread_server/muduo/net/EventLoop.cc:254-269 | a functor about to run names a known connection that is waiting for exactly this functor |
| `Server.BeginCloseKeepsInv` | linux_multithread_server/muduo/net/TcpConnection.cc:408-421 | closing a live connection keeps the stage invariant when its remaining callbacks cannot close it again |
| `Server.TcpServer.NewConnection` | linux_multithread_server/muduo/net/TcpServer.cc:71-98 | a new name enters the map, and establishment runs at once on the accept loop or is queued on the I/O loop |
| `Server.TcpServer.RemoveConnection` | linux_multithread_server/muduo/net/TcpServer.cc:100-104 | the close callback erases at once on the accept loop and queues the erasure otherwise |
| `Server.TcpServer.RemoveConnectionInLoop` | linux_multithread_server/muduo/net/TcpServer.cc:106-117 | the erase finds its element and destruction is queued on the connection's own loop |
| `Server.TcpServer.ConnectDestroyed` | linux_multithread_server/muduo/net/TcpConnection.cc:334-345 | a connection still connected is disconnected first; the channel removed has no events and is registered |
| `Server.TcpServer.RunNextFunctor` | linux_multithread_server/muduo/net/EventLoop.cc:264-267 | whatever functor is first, the assertions of its code hold and the invariant is kept |
| `Server.TcpServer.HandleNextCallback` | linux_multithread_server/muduo/net/Channel.cc:83-114 | whatever callback is next, the assertion of handleClose holds and the invariant is kept |
| `Server.TcpServer.ForceClose` | linux_multithread_server/muduo/net/TcpConnection.cc:239-269 | a forced close of a live connection is queued on its loop, of any other one is ignored |
| `Server.TcpServer.BeginRead` | linux_multithread_server/muduo/net/TcpConnection.cc:298-306 | starting to read updates the channel exactly when reading_ or the mask says so |
| `Server.TcpServer.EndRead` | linux_multithread_server/muduo/net/TcpConnection.cc:313-321 | stopping to read, also of a closed connection, updates the channel exactly when reading_ or the mask says so |
| `TimerQueues.IndexesAgreeInEveryRun` | linux_multithread_server/muduo/net/TimerQueue.cc:143-259 | in every reachable state (when, timer) is in timers_ iff (timer, sequence) is in activeTimers_ with `when` the timer's expiration; the sizes agree and timers_ is sorted |
| `TimerQueues.GetExpiredMeaning` | linux_multithread_server/muduo/net/TimerQueue.cc:183-202 | getExpired takes, in order, exactly the entries up to now; what it takes followed by what stays is the old index |
| `TimerQueues.ResetMeaning` | linux_multithread_server/muduo/net/TimerQueue.cc:204-222 | each timer of the batch that repeats and was not cancelled is scheduled again an interval after the time the batch was taken, and any other is deleted |
| `TimerQueues.ExpiredAreCalled` | linux_multithread_server/muduo/net/TimerQueue.cc:163-181 | whatever is added and cancelled in between, from the start of handleRead to its reset the callbacks called are those of the expired timers, each once, in order of expiration |
| `TimerQueues.TimersAreAsAsked` | linux_multithread_server/muduo/net/TimerQueue.cc:116-124 | whatever runs between, the timer of the k-th addTimer has sequence number k and the interval and repetition asked for, and expires at the time asked for until its callback has been called |
| `TimerQueues.EntersFirstDueBatch` | linux_multithread_server/muduo/net/TimerQueue.cc:116-202 | a timer inserted and not cancelled enters the first batch taken with the clock at or after the time asked for in its addTimer, and no batch before |
| `TimerQueues.NoTimerLeaked` | linux_multithread_server/muduo/net/TimerQueue.cc:116-233 | after every run each allocated timer, which is one that was asked for by TimersAreAsAsked, waits for insertion, is in both indexes or is in the batch being called |
| `TimerQueues.CancelIsFinal` | linux_multithread_server/muduo/net/TimerQueue.cc:143-222 | whatever ran before and runs after cancelInLoop of an inserted timer, it never enters an index again and its callback runs at most once more, and only if the current batch still had it to call |
| `TimerQueues.CancelCancels` | linux_multithread_server/muduo/net/TimerQueue.cc:143-161 | cancelling a timer found in the indexes or in the batch leaves it cancelled for good |
| `TimerQueues.CancelSparesOthers` | linux_multithread_server/muduo/net/TimerQueue.cc:143-161 | a cancellation leaves every other timer alone, so a stale id never cancels a newer timer at a recycled address |
| `TimerQueues.AlwaysArmed` | linux_multithread_server/muduo/net/TimerQueue.cc:132-233 | outside handleRead, across adds, cancels and adds inside callbacks, a non-empty queue has a timerfd that has fired, or whose deadline is still to come and no later than the earliest expiration or the arming time plus 100 microseconds; a positive clock suffices, positive expirations are not needed |
| `TimerQueues.StaysArmedIff` | linux_multithread_server/muduo/net/TimerQueue.cc:132-233 | the timerfd is armed in time in every run if and only if the clock is positive |
| `TimerQueues.ArmedTooLate` | linux_multithread_server/muduo/net/TimerQueue.cc:204-233 | for every clock that is not positive, a run that leaves the timerfd armed later than the earliest expiration |
| `TimerQueues.HowMuchTimeFromNow` | linux_multithread_server/muduo/net/TimerQueue.cc:41-55 | seconds and nanoseconds add up to the delay, at least 100 microseconds, with nanoseconds below a second |
| `TimerQueues.StepKeepsInv` | linux_multithread_server/muduo/net/TimerQueue.cc:116-259 | every operation keeps the indexes in agreement and every timer in exactly one place; what the timers are is StepAsAsked |
| `TimerQueues.StepAsAsked` | linux_multithread_server/muduo/net/Timer.h:30-36 | every operation keeps each timer as its addTimer asked, and adds exactly the one asked for |
| `TimerQueues.TimerQueue.InsertTimerObject` | linux_multithread_server/muduo/net/TimerQueue.cc:235-259 | both inserts succeed, and the result says whether the earliest expiration changed |
| `TimerQueues.TimerQueue.AddTimer` | linux_multithread_server/muduo/net/TimerQueue.cc:132-141 | insertion and re-arming refine the abstract step under the invariant |
| `TimerQueues.TimerQueue.CancelTimer` | linux_multithread_server/muduo/net/TimerQueue.cc:143-161 | both erases find their element; otherwise a running batch remembers the id |
| `TimerQueues.TimerQueue.TakeExpired` | linux_multithread_server/muduo/net/TimerQueue.cc:183-202 | the search splits the index into the entries due and the entries later, and every erase from activeTimers_ finds its element |
| `TimerQueues.TimerQueue.BeginHandleRead` | linux_multithread_server/muduo/net/TimerQueue.cc:163-175 | handleRead up to the callbacks refines the abstract step |
| `TimerQueues.TimerQueue.ResetFirst` | linux_multithread_server/muduo/net/TimerQueue.cc:204-222 | one turn of reset restarts and reinserts a repeating timer not being cancelled and deletes any other |
| `TimerQueues.TimerQueue.EndHandleRead` | linux_multithread_server/muduo/net/TimerQueue.cc:204-233 | reset as a whole, with the re-arming, refines the abstract step |
| `Pollers.Lockstep` | linux_multithread_server/muduo/net/poller/PollPoller.cc:75-140 | every list of update and remove calls is carried out by both pollers exactly up to the first removal of a descriptor whose interest was not last set to nothing by a later update; both ask the kernel to watch the same map from descriptor to non-empty mask, the abstract one, and each keeps exactly its own list, empty masks included |
| `Pollers.RunPoll` | linux_multithread_server/muduo/net/poller/PollPoller.cc:75-140 | a PollPoller carries out operations exactly up to the first removal its assertions reject, said of the operations alone; its registered interest is the abstract one, and it gives poll exactly the registered descriptors that are not parked |
| `Pollers.EPollListIsRegistered` | linux_multithread_server/muduo/net/poller/EPollPoller.cc:107-192 | whatever epoll lists is registered, with its current mask |
| `Pollers.RunEPoll` | linux_multithread_server/muduo/net/poller/EPollPoller.cc:107-170 | an EPollPoller carries out operations exactly up to the first removal of a descriptor that is not registered or has a non-empty mask, and its list in the kernel is the one defined over the operations |
| `Pollers.ParkedIsIdle` | linux_multithread_server/muduo/net/poller/EPollPoller.cc:151-170 | whatever PollPoller lets be removed is registered and interested in nothing, which is what EPollPoller asserts |
| `Pollers.EmptyFromTheStart` | linux_multithread_server/muduo/net/poller/PollPoller.cc:112-140 | a descriptor registered with an empty mask and then removed: the removal is the exact stop of PollPoller and is accepted by EPollPoller |
| `Pollers.EmptiedTwice` | linux_multithread_server/muduo/net/poller/EPollPoller.cc:107-149 | after two updates to an empty mask PollPoller gives poll nothing and EPollPoller lists the descriptor with an empty mask |
| `Pollers.PollPoller.KernelSeesInterest` | linux_multithread_server/muduo/net/poller/PollPoller.cc:75-140 | poll is asked for exactly the non-empty interest of the registered channels |
| `Pollers.PollPoller.KernelList` | linux_multithread_server/muduo/net/poller/PollPoller.cc:75-140 | poll is given exactly the registered channels whose slot is not negated, with their masks |
| `Pollers.EPollPoller.KernelSeesInterest` | linux_multithread_server/muduo/net/poller/EPollPoller.cc:107-192 | of the descriptors epoll lists, those with a non-empty mask are exactly the non-empty interest of the registered channels |
| `Pollers.PolledMeaning` | linux_multithread_server/muduo/net/poller/PollPoller.cc:75-110 | with distinct slots, poll is given a descriptor with a mask if and only if an un-negated slot says so |
| `Pollers.PollPoller.UpdateChannel` | linux_multithread_server/muduo/net/poller/PollPoller.cc:75-110 | adding or changing a channel keeps channel index and slot pointing at each other and changes only its own interest; ignored descriptors are negated |
| `Pollers.PollPoller.RemoveChannel` | linux_multithread_server/muduo/net/poller/PollPoller.cc:112-140 | swap-and-pop, also of a negated last slot, keeps the bijection and removes exactly one channel |
| `Pollers.PollPoller.FillActiveChannels` | linux_multithread_server/muduo/net/poller/PollPoller.cc:55-73 | the channels collected are those of the slots with returned events, in slot order, although the loop stops early |
| `Pollers.ActiveFdsMeaning` | linux_multithread_server/muduo/net/poller/PollPoller.cc:55-73 | the active list is that of exactly the slots with returned events, with their descriptor and events, in slot order |
| `Pollers.EPollPoller.UpdateChannel` | linux_multithread_server/muduo/net/poller/EPollPoller.cc:107-149 | each of the three registration states issues the one epoll_ctl call that can succeed and keeps the list equal to the interest |
| `Pollers.EPollPoller.RemoveChannel` | linux_multithread_server/muduo/net/poller/EPollPoller.cc:151-170 | exactly one channel leaves, with a kernel deletion only if it was added |
| `BlockingQueue.NobodyForgotten` | linux_multithread_server/muduo/base/BoundedBlockingQueue.h:30-67 | with any threads and spurious wakeups: while takers sleep there are no more items than woken takers, while putters sleep no more free places than woken putters; the items taken, as many as calls of take got through, and then the queue are the items given to put, in the order in which those calls got through |
| `BlockingQueue.WaitingAreThoseInside` | linux_multithread_server/muduo/base/BoundedBlockingQueue.h:30-67 | the threads asleep or woken are exactly those that found the queue empty in take, or full in put, when they last looked |
| `BlockingQueue.NeverStuck` | linux_multithread_server/muduo/base/BoundedBlockingQueue.h:30-67 | with a capacity of at least one, sleeping takers and sleeping putters never coexist with nobody woken |
| `BlockingQueue.StuckIffNoCapacity` | linux_multithread_server/muduo/base/BoundedBlockingQueue.h:30-67 | some run gets stuck if and only if the capacity is zero |
| `BlockingQueue.StepKeepsInv` | linux_multithread_server/muduo/base/BoundedBlockingQueue.h:30-67 | every step keeps both service bounds, the order and the rule that a thread is in one place |
| `BlockingQueue.BoundedBlockingQueue.PutStep` | linux_multithread_server/muduo/base/BoundedBlockingQueue.h:30-53 | a thread in put with the mutex sleeps exactly when the queue is full, else pushes and notifies |
| `BlockingQueue.BoundedBlockingQueue.TakeStep` | linux_multithread_server/muduo/base/BoundedBlockingQueue.h:55-67 | a thread in take with the mutex sleeps exactly when the queue is empty, else takes the front and notifies |
| `Logging.RecyclingNeverFails` | linux_multithread_server/muduo/base/AsyncLogging.cc:84-152 | in every interleaving of appends with the writing thread all its assertions hold: the spares are back and empty at the loop head, there is always a buffer to refill them from, and a missing nextBuffer_ means buffers_ is not empty |
| `Logging.OutputIsWhatWasAppended` | linux_multithread_server/muduo/base/AsyncLogging.cc:34-132 | apart from drop notices the output is an in-order selection of the lines given to append, each whole, with one notice for each batch of more than 25 buffers met, which says its size less two, and no other; if no such batch was met and no line given to append has 4000000 bytes or more, output, batch in hand, buffers_ and currentBuffer_ together are exactly those lines, in order |
| `Logging.CutKeepsFirstTwo` | linux_multithread_server/muduo/base/AsyncLogging.cc:111-120 | a cut loses the lines of all buffers of the batch but the first two, and no others |
| `Logging.EnterGoes` | linux_multithread_server/muduo/base/AsyncLogging.cc:84-107 | at the loop test the writing thread ends if stop was called, else waits if buffers_ is empty, else takes the buffers |
| `Logging.LogRun` | linux_multithread_server/muduo/base/AsyncLogging.cc:34-152 | every run carried out on buffers of bytes: the file is the text of whole lines that are an in-order selection of those given to append, and of one notice for each batch of more than 25 buffers; if there was no such batch and no line of 4000000 bytes, the bytes in the file, the batch, the waiting buffers and the current one are all bytes given to append, in order |
| `Logging.StoreShows` | linux_multithread_server/muduo/base/LogStream.h:39-47 | append on the bytes of a buffer stores a line whole or not at all, exactly when the lines have room for it |
| `Logging.StepKeepsRecycling` | linux_multithread_server/muduo/base/AsyncLogging.cc:90-150 | every step keeps the buffer count that makes recycling work |
| `Logging.StepKeepsOrder` | linux_multithread_server/muduo/base/AsyncLogging.cc:90-132 | every step keeps the order and the completeness of the lines |
| `Logging.FixedBuffer.Append` | linux_multithread_server/muduo/base/LogStream.h:39-47 | on a byte array: the line is stored whole if strictly less than the free space, else not at all, as the byte buffers of the logger do |
| `Logging.AsyncLogging.AppendLine` | linux_multithread_server/muduo/base/AsyncLogging.cc:34-62 | on bytes, the front end performs the append of the specification on lines and keeps the invariant |
| `Logging.AsyncLogging.SwapBuffers` | linux_multithread_server/muduo/base/AsyncLogging.cc:100-107 | the critical section finds a spare for currentBuffer_, moves the buffers with their bytes and performs the specified swap |
| `Logging.AsyncLogging.TrimBatch` | linux_multithread_server/muduo/base/AsyncLogging.cc:109-120 | on bytes, the batch is not empty, and a batch of more than 25 buffers, and no other, is cut to its first two with a notice; OutputIsWhatWasAppended counts the cuts over the steps |
| `Logging.AsyncLogging.WriteNext` | linux_multithread_server/muduo/base/AsyncLogging.cc:122-126 | the bytes written are all the bytes of the next buffer, and those are its lines, each whole |
| `Logging.AsyncLogging.RecycleBuffers` | linux_multithread_server/muduo/base/AsyncLogging.cc:128-150 | both spares are refilled from the at most two buffers kept; the assertions hold |
| `Calendar.DayDateDay` | linux_multithread_server/muduo/base/Date.cc:29-42 | every day number from -32044 on gives a valid date whose day number it is |
| `Calendar.DateDayDate` | linux_multithread_server/muduo/base/Date.cc:20-27 | a valid date survives the trip through its day number if and only if it is 1 March -4800 or later |
| `Calendar.DateOfValidIff` | linux_multithread_server/muduo/base/Date.cc:29-42 | getYearMonthDay gives a valid Gregorian date if and only if the day number is at least -32044 |
| `Calendar.ConsecutiveDays` | linux_multithread_server/muduo/base/Date.cc:20-42 | consecutive day numbers are consecutive dates under the leap-year rule |
| `Calendar.WeekDayRange` | linux_multithread_server/muduo/base/Date.h:96-99 | the day of the week is in range for every day number from -1 on, and before that only on Sundays |
| `Calendar.WeekDayAdvances` | linux_multithread_server/muduo/base/Date.h:96-99 | the next day is the next day of the week |
| `TimeZones.UtcRoundTrip` | linux_multithread_server/muduo/base/TimeZone.cc:322-363 | fromUtcTime undoes toUtcTime, also for negative times, and the broken-down time is valid |
| `TimeZones.UtcCountsFromEpoch` | linux_multithread_server/muduo/base/TimeZone.cc:322-348 | the date is as many days after 1 January 1970 as whole days have passed, rounded down, and the time of day is the rest |
| `TimeZones.UtcValidIff` | linux_multithread_server/muduo/base/TimeZone.cc:322-348 | the broken-down date is valid if and only if the time is not before 1 March -4800 |
| `TimeZones.UtcWeekDay` | linux_multithread_server/muduo/base/TimeZone.cc:322-348 | the weekday is counted from Thursday, 1 January 1970, in both directions |
| `TimeZones.EpochDay` | linux_multithread_server/muduo/base/Date.cc:44-44 | the day number of the epoch is the one computed for 1 January 1970 |
| `TimeZones.UtcRoundTripBack` | linux_multithread_server/muduo/base/TimeZone.cc:350-363 | toUtcTime undoes fromUtcTime on every valid date and time from then on |
| `TimeZones.DaysAndSeconds` | linux_multithread_server/muduo/base/TimeZone.cc:329-337 | the truncating division with its correction is floor division, with seconds within the day |
| `TimeZones.FindLocaltimeMeaning` | linux_multithread_server/muduo/base/TimeZone.cc:223-255 | for ascending transitions the entry found is that of the period the time lies in |
| `TimeZones.LocalIsOffsetOfPeriod` | linux_multithread_server/muduo/base/TimeZone.cc:277-297 | for ascending transitions local time is the second plus the offset of the period it lies in, with that period's daylight flag |
| `TimeZones.LocalTripValue` | linux_multithread_server/muduo/base/TimeZone.cc:277-320 | for every second of an alternating table, the exact value of fromLocalTime after toLocalTime, including the repeated hour |
| `TimeZones.LocalRoundTripIff` | linux_multithread_server/muduo/base/TimeZone.cc:299-320 | fromLocalTime undoes toLocalTime at every second if and only if daylight time is one hour ahead or the clocks never go back |
| `TimeZones.HalfHourShiftFails` | linux_multithread_server/muduo/base/TimeZone.cc:299-320 | a table with a half-hour shift on which the round trip is off by 1800 seconds |
| `NetBuffer.Replay` | linux_multithread_server/muduo/net/Buffer.h:113-409 | every run of buffer operations, also writes in place followed by hasWritten, leaves the bytes that the same run on a plain byte sequence leaves, and every operation the layout allows is carried out |
| `NetBuffer.Buffer.constructor` | linux_multithread_server/muduo/net/Buffer.h:48-56 | an empty buffer with room for the prepended header |
| `NetBuffer.Buffer.Retrieve` | linux_multithread_server/muduo/net/Buffer.h:113-124 | retrieving drops a prefix; retrieving everything resets both indexes |
| `NetBuffer.Buffer.RetrieveAsString` | linux_multithread_server/muduo/net/Buffer.h:164-170 | the result followed by what is left is what was readable |
| `NetBuffer.Buffer.MakeSpace` | linux_multithread_server/muduo/net/Buffer.h:390-409 | growing or compacting changes no readable byte, makes the space asked for, and compaction always finds the reader beyond the prepend area, even after prepends |
| `NetBuffer.Buffer.EnsureWritableBytes` | linux_multithread_server/muduo/net/Buffer.h:194-201 | the space asked for is there and no readable byte has changed |
| `NetBuffer.Buffer.Append` | linux_multithread_server/muduo/net/Buffer.h:182-187 | appending concatenates |
| `NetBuffer.Buffer.Unwrite` | linux_multithread_server/muduo/net/Buffer.h:215-219 | unwriting drops a suffix |
| `NetBuffer.Buffer.Prepend` | linux_multithread_server/muduo/net/Buffer.h:354-360 | prepending puts the bytes in front |
| `NetBuffer.Buffer.Shrink` | linux_multithread_server/muduo/net/Buffer.h:362-369 | shrinking changes no readable byte |
| `NetBuffer.Buffer.ReadFd` | linux_multithread_server/muduo/net/Buffer.cc:25-57 | whatever arrives, within the free space or spilling over, is concatenated; an error changes nothing |
| `NetBuffer.Buffer.AppendInt` | linux_multithread_server/muduo/net/Buffer.h:224-248 | appends the network-order bytes of a signed integer |
| `NetBuffer.Buffer.PrependInt` | linux_multithread_server/muduo/net/Buffer.h:328-352 | prepends the network-order bytes of a signed integer |
| `NetBuffer.Buffer.PeekInt` | linux_multithread_server/muduo/net/Buffer.h:290-323 | the integer whose network-order bytes are at the front |
| `NetBuffer.Buffer.ReadInt` | linux_multithread_server/muduo/net/Buffer.h:254-284 | the same integer, and its bytes are gone |
| `NetBuffer.Buffer.SearchCRLF` | linux_multithread_server/muduo/net/Buffer.h:80-85 | finds the first CRLF or reports that there is none |
| `Bytes.SignedRoundTrip` | linux_multithread_server/muduo/net/Buffer.h:254-323 | a signed integer of any width survives the trip through network order |
| `Bytes.SignedRoundTripBytes` | linux_multithread_server/muduo/net/Buffer.h:224-248 | every byte string is the network order of exactly the integer it decodes to |
| `Bytes.EncodeUnsignedAt` | linux_multithread_server/muduo/net/Buffer.h:224-248 | network order: byte i of n is the one of weight 256 to the power n - 1 - i |
| `ProtobufCodec.FramingRoundTrip` | linux_multithread_server/muduo/net/protobuf/ProtobufCodecLite.cc:42-97 | frames of any messages within the limit, followed by part of another frame and cut into any chunks, deliver exactly the messages whose frames the raw callback lets pass, all of them if there is none, in order, and leave exactly the partial frame |
| `ProtobufCodec.ChunkingIndependent` | linux_multithread_server/muduo/net/protobuf/ProtobufCodecLite.cc:58-97 | for every byte stream, also a corrupt one, messages, leftover bytes and error do not depend on the chunking |
| `ProtobufCodec.DeliveredAreFrames` | linux_multithread_server/muduo/net/protobuf/ProtobufCodecLite.cc:192-225 | whatever the stream and the raw callback, the bytes consumed are exactly well-formed frames, and what is delivered is the message of each one that the raw callback lets pass, in order |
| `ProtobufCodec.DamageDetected` | linux_multithread_server/muduo/net/protobuf/ProtobufCodecLite.cc:184-225 | whatever single byte of a frame after its length field is changed, the message is not delivered: unless the raw callback takes the frame, a checksum error is reported and no byte is consumed |
| `ProtobufCodec.ForeignFrameRefused` | linux_multithread_server/muduo/net/protobuf/ProtobufCodecLite.cc:192-225 | an undamaged frame of any codec whose content is at least as long as the tag, and which the raw callback lets pass, is refused as of unknown type if it does not begin with the tag, else as a parse error if its payload cannot be read back; no byte is consumed |
| `ProtobufCodec.AdlerIsSums` | linux_multithread_server/muduo/net/protobuf/ProtobufCodecLite.cc:178-182 | reducing at every byte gives the two sums of section 2.2 of RFC 1950, modulo 65521 |
| `ProtobufCodec.ChecksumIsAdler32` | linux_multithread_server/muduo/net/protobuf/ProtobufCodecLite.cc:178-182 | the checksum is the 32-bit number with the second sum in its upper half and the first in its lower |
| `ProtobufCodec.ChecksumDiffers` | linux_multithread_server/muduo/net/protobuf/ProtobufCodecLite.cc:178-182 | Adler-32 (section 2.2 of RFC 1950) tells apart any two strings that differ in one byte |
| `ProtobufCodec.PrefixWaits` | linux_multithread_server/muduo/net/protobuf/ProtobufCodecLite.cc:62-74 | a proper prefix of a frame is kept for later without an error |
| `ProtobufCodec.OnMessageShift` | linux_multithread_server/muduo/net/protobuf/ProtobufCodecLite.cc:58-97 | what a call does is independent of the messages delivered by earlier calls |
| `ProtobufCodec.DeliveredIffWithinLimit` | linux_multithread_server/muduo/net/protobuf/ProtobufCodecLite.cc:42-97 | an encoded message is delivered if and only if tag, payload and checksum are at most 67108864 bytes, and is refused for its length otherwise |
| `ProtobufCodec.LimitExceeded` | linux_multithread_server/muduo/net/protobuf/ProtobufCodecLite.cc:58-69 | a payload as long as the limit is sent, and refused for its length |
| `ProtobufCodec.FillEmptyBuffer` | linux_multithread_server/muduo/net/protobuf/ProtobufCodecLite.cc:42-56 | the mutable buffer ends up holding exactly the frame, for a message of any size, with the length cast to 32 bits |
| `ProtobufCodec.HandleFirst` | linux_multithread_server/muduo/net/protobuf/ProtobufCodecLite.cc:64-96 | one turn of the loop takes one frame off the buffer, waits, or reports the error of the first check that fails |
| `ProtobufCodec.HandleMessage` | linux_multithread_server/muduo/net/protobuf/ProtobufCodecLite.cc:58-97 | the loop over the mutable buffer terminates with the messages, leftover bytes and error of the specification |
| `ProtobufCodec.HandleArriving` | linux_multithread_server/muduo/net/protobuf/ProtobufCodecLite.cc:58-97 | one call per arriving chunk, also after an error: the messages of all calls together, the bytes left and the last error are those of the chunked specification |
| `HttpParser.ChunkingIndependent` | linux_multithread_server/muduo/net/http/HttpContext.cc:60-118 | for every byte stream and every cut, phase, method, path, query, version, headers, leftover bytes and error are those of one call on the whole stream |
| `HttpParser.RequestRoundTrip` | linux_multithread_server/muduo/net/http/HttpContext.cc:16-57 | a well-formed request (section 3 of RFC 7230), with any white space around the header values or none, followed by anything and cut anywhere, is read back field by field, and exactly the bytes after it are left |
| `HttpParser.AcceptedLine` | linux_multithread_server/muduo/net/http/HttpContext.cc:16-57 | an accepted line is exactly the text of the request it was read as |
| `HttpParser.RequestLineIff` | linux_multithread_server/muduo/net/http/HttpContext.cc:16-57 | a request line is accepted if and only if it is one of five methods, a target without a space and HTTP/1.0 or HTTP/1.1, separated by single spaces |
| `HttpParser.HeadersEndAt` | linux_multithread_server/muduo/net/http/HttpContext.cc:88-107 | the headers end at the first line without a colon: the lines before it are added, it is consumed, and everything after it is left over |
| `HttpParser.HeadersEndAtEmptyLineIff` | linux_multithread_server/muduo/net/http/HttpContext.cc:88-107 | for every list of non-empty lines, none with a CRLF inside, before an empty one, the headers end at the empty line if and only if each line has a colon |
| `HttpParser.PlainLineEndsHeaders` | linux_multithread_server/muduo/net/http/HttpContext.cc:88-107 | the lines "x" and "a:b" and an empty line: the headers end at "x" and the field "a:b" is left over |
| `HttpParser.RefusedLineVerb` | linux_multithread_server/muduo/net/http/HttpContext.cc:16-57 | a refused line leaves the verb unset if and only if it names no method |
| `HttpParser.CallAfterRefusalIff` | linux_multithread_server/muduo/net/http/HttpServer.cc:66-83 | a refused line stays in the buffer; on the next call, whatever has arrived, the assertion in setMethod holds if and only if that line does not begin with one of the five methods and a space |
| `HttpParser.RefusedGetBreaksAssertion` | linux_multithread_server/muduo/net/http/HttpRequest.h:53-82 | "GET /" without a version is refused with the verb already set, so that the next call breaks the assertion in setMethod whatever arrives |
| `HttpParser.LookStable` | linux_multithread_server/muduo/net/http/HttpContext.cc:60-118 | a decision made on some bytes is not changed by bytes that come later |
| `HttpParser.TrimSplits` | linux_multithread_server/muduo/net/http/HttpRequest.h:135-149 | a header value is the raw value without the white space around it and nothing else |
| `HttpParser.TrimFindsValue` | linux_multithread_server/muduo/net/http/HttpRequest.h:135-149 | whatever white space stands around a value, none, one or more, the value itself is what is kept |
| `HttpParser.HttpContext.ReadRequestLine` | linux_multithread_server/muduo/net/http/HttpContext.cc:16-57 | the searches for the two spaces and the question mark give the specified request or refuse the line |
| `HttpParser.HttpContext.AddHeaderLine` | linux_multithread_server/muduo/net/http/HttpRequest.h:135-149 | the two trimming loops give the specified header |
| `HttpParser.HttpContext.SetMethod` | linux_multithread_server/muduo/net/http/HttpRequest.h:53-82 | the verb is set for exactly five names and any other is refused; a verb set before is recorded as a broken assertion |
| `HttpParser.HttpContext.ParseBuffered` | linux_multithread_server/muduo/net/http/HttpContext.cc:60-118 | the loop over the mutable buffer terminates with the specified state, leftover bytes and flag; the receive time is set exactly when the request line is accepted; the assertion in setMethod is broken exactly when a line with a space meets a verb already set |
| `HttpParser.HttpContext.ParseArriving` | linux_multithread_server/muduo/net/http/HttpServer.cc:66-83 | one call per arriving chunk on the mutable buffer, until an error or the end, does what the chunked specification says, and the assertion in setMethod never breaks on the way |
| `Incremental.FeedUntilHaltIsOneCall` | linux_multithread_server/muduo/net/http/HttpContext.cc:60-118 | any parser whose decisions are final gives, fed in pieces until it halts, the result of one call on the whole stream |
| `Incremental.FeedAllIsOneCall` | linux_multithread_server/muduo/net/protobuf/ProtobufCodecLite.cc:58-97 | the same for a parser that is called again after an error and repeats it |
| `Incremental.RunEmits` | linux_multithread_server/muduo/net/protobuf/ProtobufCodecLite.cc:58-97 | the bytes a call consumes are pieces related one by one to the lists of items it adds |
| `Incremental.RunShift` | linux_multithread_server/muduo/net/protobuf/ProtobufCodecLite.cc:58-97 | a parser that only adds items does with a list of items what it does without it |

## Left out

- Integer widths in `Date`, `TimeZone`, connection ids, timer sequence numbers and timestamps: unbounded here; the eventfd counter, the 32-bit length field and the 32-bit checksum are modelled at their width.
- `gmtime_r` and `timegm` inside local-time conversion: a broken-down local time is its day and clock as one number of seconds, so libc's calendar is not modelled there; the UTC functions are modelled field by field except `tm_yday`.
- Calendar.JulianDayNumber: month 13 and other malformed dates are computed as the code does but no theorem speaks of them.
- HttpParser.ChunkingIndependent: does not speak of the receive time, which differs between chunkings by design; `ParseBuffered` states when it is set.
- HTTP bodies: the body state of the parser does nothing, so the model ends with the headers, as the code does.
- Connections.OutputConserved: high-water-mark and write-complete callbacks are not modelled, because they only queue user code.
- Server.ConnectionsLiveInOrder: the destruction of the server, reference counting and weak ties of channels are not modelled; the objects live as long as they are named. `forceCloseWithDelay` is a later `forceClose`.
- Server.TcpServer: the connections and loops of one server are maps in one object; aliasing between the objects of the source is not captured. Calling `stopRead` after the channel was removed is not modelled.
- Logging.AsyncLogging: a buffer behind a `unique_ptr` is the string of its bytes in the one place that owns it; the address of a buffer and the zeroing of its array are not modelled, nor is file flushing.
- Reactor.EventLoop.Poll: the loop bodies of `loop` and `doPendingFunctors` are single steps, because other threads run between them.
- Pollers.EPollPoller.Update: requires that `epoll_ctl` cannot fail, which its callers are proved to meet.
- ProtobufCodec.DeliveredIffWithinLimit: speaks of serialized sizes below 4 GiB, because the size of a message is a 32-bit number in the source.
- BlockingQueue.BoundedBlockingQueue.PutStep: the waiting loop is one step per test of its condition, because the mutex is released in between; mutex and condition variable themselves are primitives.
- TZif file reading; `Socket`, `Acceptor`, `SocketsOps`, `InetAddress`: thin wrappers of system calls.
- `Connector`, `TcpClient`, `ThreadPool::stop`, `RpcChannel`, `Inspector`, `LogFile` rolling, number and log formatting, `CountDownLatch`, `Thread`, `Singleton`: they would only add easy members or have no clean guarantee to state.
