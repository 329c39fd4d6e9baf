# Verified model of the wethands reactor library

This project models the working parts of wethands, a small C++ reactor library for
network servers, and proves what they keep. Every part comes as a pair of modules:

- a *protocol* module on values: a `State`, the `Event`s that can happen to it (the source's
  operations together with the outcomes of system calls, of the scheduler and of user callbacks), a function
  `Apply` that says what one event does (`None` where the source would fail an assert, use a null
  log buffer or use a deleted timer), and lemmas about every run from the initial state;
- a *class* module: the source's object, with its fields updated in place, each method proved to
  carry out exactly the protocol's step.

What the steps should do is said a second time, without them: a *ledger* (`Ledger`, `Note`, `Noted`)
tells from the list of events alone what must have happened, in a caller's terms, and a theorem over all
runs says that the state agrees with it. The timer queue, the event loop, the log file and the HTTP
parser have laws over events or over the text a client writes instead.

| file | models |
|---|---|
| `Conditions.dfy` | condition variables as wait sets, with spurious wakeups |
| `BoundedBlockingQueue.dfy` | the ring buffer, and `Put`/`Take` as a monitor on it |
| `ThreadPool.dfy` | the task deque and its two condition variables, `Stop` |
| `AsyncLogging.dfy`, `LogFile.dfy` | the double-buffered logger and the rolling file under it |
| `Buffer.dfy`, `Text.dfy` | the growable byte buffer on an array, CRLF search, concatenation |
| `TcpConnection.dfy` | one connection's output stream and interest set |
| `TcpServer.dfy` | the life of connections across the base loop and the I/O loops |
| `ServerLedger.dfy` | what calls and closing events must have done to it by the time it has drained |
| `LateStores.dfy` | what a late `Shutdown` or `ForceClose` breaks in it, and the exact condition |
| `EventLoop.dfy` | pending functors and the eventfd wakeup |
| `TimerQueue.dfy` | the ordered timer set with manual ownership, and the kernel timer |
| `TimerRuns.dfy` | whole runs of it: order of posting, deadlines as added, cancelling from any thread |
| `HttpGrammar.dfy` | the two regular expressions as splitters |
| `HttpContext.dfy` | the incremental request parser |
| `HttpResponse.dfy` | the response printer, read back through the parser |
| `HttpServer.dfy` | a whole HTTP connection: context, callback, replies, TCP stream |
| `HttpRequests.dfy` | requests as a client writes them, and the replies it finds on the wire |

Verify with `dafny verify dfyconfig.toml`.

## How the source is read

- A section under a mutex, an atomic access and a functor run by a loop are each one step; threads
  interleave between steps in any order. So `Shutdown` and `Send` called from another thread are a
  test of `state_` and, as later steps, the store and the posting; called in the connection's own loop
  they are one step, since only that loop closes the connection. A thread inside a condition wait is
  parked or already released; releases may be spurious, and a signal releases at least one parked
  thread.
- That a functor is one step hides one interleaving: a `ForceClose` by another thread whose store
  falls between the assert and the store of kConnected inside `ConnectionEstablished`
  (`src/net/TcpConnection.cc:106-108`) is overwritten and does no harm, while in the model it comes
  before or after the whole functor. The exact conditions on late stores are exact up to that.
- System calls are parameters of events: a write takes any prefix or reports a retryable error;
  `readv` delivers any bytes that fit; `poll` returns whenever it likes, reports readability and
  writability only to channels that asked, and hang-ups to every registered channel. Errors the source
  answers by ending the process are not events.
- Clock readings are parameters. In the timer queue the clock moves only forward, and the two readings
  of `UpdateTimerfd` (`src/reactor/TimerQueue.cc:47-50`) are one instant. `LogFile` reads a clock that
  is later than the last roll, as the assert at `src/logger/LogFile.cc:84` demands.
- `AddTimerInLoop` looks at `timers_.begin()` before it tests for an empty set
  (`src/reactor/TimerQueue.cc:105-106`); the model tests first.
- A timer interval is an exact real number and `AddSeconds` truncates it to whole microseconds.
- A byte is a `char`. The storage of a vector after `reserve(n)` is exactly n.
- One `HandleEvent` may deliver several events (`src/reactor/Channel.cc:27-40`); in the model each is
  an event of its own. In the HTTP connection alone at most one closing event is handled, as the exact
  condition of the life cycle demands.
- Calendar rounding is a function parameter of `LogFile`; the order in which a `std::map` is traversed
  is a parameter of the printer, and the theorems hold for every order.

## What the code does, where one might expect otherwise

- `ShutdownInLoop` tests for a state both of its callers have left, so the write side is never shut,
  in any run (`WriteSideIsNeverShut`).
- `Shutdown` tests `state_` and stores to it in two accesses. If the peer closes the connection
  between them, a later assert fails or the connection is destroyed twice, and left-over output is no
  longer waited for. A run is free of this exactly when every such store meets an open connection
  (`OrderNeedsTimeliness`, `InterestNeedsTimelyStores`), as those of `Shutdown` do when it is called
  in the connection's own loop (`InLoopShutdownIsTimely`).
- `DisableAll` leaves a closed channel registered until `ConnectionDestroyed`, and a hang-up reported
  in between runs `HandleClose` again and fails its assert. The life cycle is in order exactly when no
  closing event and no store meets a connection that is not open (`OrderNeedsTimeliness`).
- The guard of `ForceClose` is always true, so a call is in order if and only if the connection is
  open (`ForceCloseNeedsOpen`); called before `ConnectionEstablished` has run it fails the assert
  there (`EarlyForceCloseFails`).
- With no I/O threads a connection that is closed, by its peer or by `ForceClose` in its own handler,
  is freed while its own channel is still handling the event, unless a functor or a call still
  mentions it (`ClosedInOwnHandler`, `FreedInOwnHandler`).
- A `Send` from another thread posts a functor with a bare pointer (`src/net/TcpConnection.cc:61`),
  which can run on a freed connection (`SendRunsOnFreed`, `SendOutlivesItsConnection`).
- Without a write-complete callback a completed direct write still turns write interest on, as does an
  empty message whose write fails, and nothing turns it off until more is written
  (`IdleWriteInterest`).
- A functor that the loop thread queues sends no wakeup: queued before `Loop()` or by a functor that
  the loop runs, it waits for the poll to time out. A handler's functor does not, and neither does
  another thread's (`OnlyOwnFunctorsWait`).
- A `Quit` before `Loop()` fails the assert at its entry, and so does entering it again
  (`EntryFailsAfterQuit`).
- The handle of a repeating timer stops working at its first restart that moves the deadline
  (`RestartMakesUncancellable`, `RestartedTimerLivesForever`).
- A cancel from another thread works if it is run before the next `HandleRead`
  (`ForeignCancelTakesEffect`). A timer whose callback is being called is in no set, so a cancel leaves
  it alone, and a repeating one is put back.
- `AddTimer` reads its timer's sequence after posting the timer to the loop
  (`src/reactor/TimerQueue.cc:93-94`). For a caller in another thread the timer may have been deleted
  by then; that happens in some run exactly when such timers do not repeat
  (`LateReadIsSafeIffRepeating`).
- Jobs still queued when a pool stops are never run (`NothingHappensAfterStop`).
- Workers whose jobs call `Run` can all park for good, exactly when the queue is bounded; workers that
  never call `Run` cannot (`OnlyBoundedPoolsStarve`, `StarvedForEver`).
- A periodic check that finds a new day within a second of the last roll opens no file and takes the
  day for done, so that its lines stay in the old file (`MissedMidnight`).
- A log line as long as a buffer or longer is silently discarded (`AcceptedNow`).
- A first delivery that does not hold the whole request line is refused as an error
  (`FirstPieceNeedsTheRequestLine`, `IncompleteLineIsRefused`).
- After an answer the request's body is still in the input buffer and is read as the start of the next
  request line; the next request is read properly exactly when there was no body
  (`BodyIsReadAsNextRequest`, `NextRequestNeedsEmptyBody`).
- `snprintf` into 32 bytes cuts the Content-Length line short from 10^13 bytes on (`LengthLineFits`,
  `SectionReadsBackIff`).
- The first line of a response reads back as its status code and message exactly when the message holds
  no CRLF (`StatusReadsBack`).
- The printer adds its own Connection and Content-Length lines to whatever the callback has set; an
  answer reads as it was meant exactly when the two agree, the callback's headers are printable and
  the Content-Length line fits or is set again by the callback (`AnswerIsFramed`).
- With a capacity of zero all threads of a blocking queue can be stuck at once; with any other
  capacity they cannot (`DeadlockOnlyWithoutCapacity`).

## Model

| member | source | states |
|---|---|---|
| CircularQueues.CircularQueue.PushBack | src/utils/BoundedBlockingQueue.h:96-105 | both phases, filling and overwriting, append to the queued sequence; the end index stays the push count modulo the capacity |
| CircularQueues.CircularQueue.PopFront | src/utils/BoundedBlockingQueue.h:118-121 | drops the oldest element; the begin index stays the pop count modulo the capacity |
| CircularQueues.CircularQueue.Front | src/utils/BoundedBlockingQueue.h:123-124 | the element at the begin index is the oldest one |
| BlockingQueueProtocol.StepKeepsInv | src/utils/BoundedBlockingQueue.h:29-58 | every critical section, spurious wakeups included, keeps the items within capacity, the completed Puts equal to completed Takes then items, and every unit of work covered by released threads while somebody is parked |
| BlockingQueueProtocol.TakesFollowPuts | src/utils/BoundedBlockingQueue.h:29-58 | in every run the i-th completed Take returned the argument of the i-th completed Put, both told from the events, and Puts are ahead by at most the capacity |
| BlockingQueueProtocol.QueueFollowsItsCalls | src/utils/BoundedBlockingQueue.h:29-58 | in every run the queue holds what the calls have put and not yet taken, in order, and a Put inside its wait still holds the argument of its call |
| BlockingQueueProtocol.NoLostWakeup | src/utils/BoundedBlockingQueue.h:31-36 | in every run, while a consumer is parked the items are at most the released consumers; dually for producers and free slots |
| BlockingQueueProtocol.DeadlockOnlyWithoutCapacity | src/utils/BoundedBlockingQueue.h:29-58 | a state with producers and consumers parked and nobody released is reachable if and only if the capacity is zero |
| BlockingQueueProtocol.WorkIsBeingServed | src/utils/BoundedBlockingQueue.h:29-58 | when somebody is parked and there is work for them, some released thread can finish a Put or Take in its next step |
| BoundedBlockingQueues.BoundedBlockingQueue.PutEnter | src/utils/BoundedBlockingQueue.h:29-37 | appends the argument to the ring if there is room, else parks and holds the argument; the slot index is the number of Puts modulo the capacity |
| BoundedBlockingQueues.BoundedBlockingQueue.PutResume | src/utils/BoundedBlockingQueue.h:31-37 | a Put back from its wait appends the item it has held, or parks with it again |
| BoundedBlockingQueues.BoundedBlockingQueue.TakeEnter | src/utils/BoundedBlockingQueue.h:49-58 | Take on the ring is the monitor step and returns the oldest item, or parks |
| BoundedBlockingQueues.BoundedBlockingQueue.TakeResume | src/utils/BoundedBlockingQueue.h:51-58 | a Take back from its wait tests again and then completes or parks |
| ThreadPoolProtocol.StepKeepsInv | src/thread/ThreadPool.cc:69-97 | every critical section, with spurious wakeups and Start and Stop at any point, keeps the pool's invariant |
| ThreadPoolProtocol.JobsAreConserved | src/thread/ThreadPool.cc:69-97 | in every run taken jobs followed by the queue are the jobs of the Run calls that were not refused, in order, and a positive bound is never exceeded |
| ThreadPoolProtocol.PoolFollowsItsCalls | src/thread/ThreadPool.cc:69-97 | in every run the queue holds the queued jobs not yet handed out, in order; without threads the callers ran theirs; a Run inside its wait still holds the job of its call |
| ThreadPoolProtocol.NoLostWakeup | src/thread/ThreadPool.cc:74-95 | in every run queued jobs are at most the released workers while a worker is parked; dually for blocked callers |
| ThreadPoolProtocol.NothingHappensAfterStop | src/thread/ThreadPool.cc:37-44 | after Stop no thread is parked in any later state, nothing is queued or taken, and every waiting thread leaves with its next step |
| ThreadPoolProtocol.StopIsFinal | src/thread/ThreadPool.cc:37-44 | the same for whole runs with a Stop in them |
| ThreadPoolProtocol.OnlyBoundedPoolsStarve | src/thread/ThreadPool.cc:69-107 | a state in which every worker is parked inside Run and none of those parked is on its way out is reachable if and only if the pool has workers, its queue is bounded, and the workers themselves may call Run |
| ThreadPoolProtocol.StarvedForEver | src/thread/ThreadPool.cc:69-107 | from such a state on the queue is full, every worker stays inside Run and no job is taken any more short of Stop, spurious wakeups and other callers notwithstanding |
| ThreadPools.ThreadPool.RunEnter | src/thread/ThreadPool.cc:69-81 | Run is the monitor step: at once without threads, else queued, refused or parked |
| ThreadPools.ThreadPool.TakeEnter | src/thread/ThreadPool.cc:83-97 | Take is the monitor step and returns the oldest job if the pool runs and has one |
| ThreadPools.ThreadPool.Stop | src/thread/ThreadPool.cc:37-44 | stops and releases every parked thread |
| AsyncLoggingProtocol.NeverUsesNull | src/logger/AsyncLogging.cc:35-139 | under every interleaving no null buffer is used and no empty vector popped |
| AsyncLoggingProtocol.StepIsSafe | src/logger/AsyncLogging.cc:91-139 | a null nextBuffer_ implies full buffers, and the batch can refill whichever spares were given away; every step keeps this |
| AsyncLoggingProtocol.LinesAreConserved | src/logger/AsyncLogging.cc:35-139 | from any good state, settled lines, unwritten batch, this round's cut, full buffers and current buffer grow by exactly the accepted lines, in order |
| AsyncLoggingProtocol.LoggerConservesLines | src/logger/AsyncLogging.cc:35-139 | the same for every run of a new logger |
| AsyncLoggingProtocol.OnlyCutsLoseLines | src/logger/AsyncLogging.cc:107-119 | over a whole run nothing is lost if and only if every batch of more than 16 buffers was cut in buffers that held no lines |
| AsyncLoggingProtocol.FilesFollowTheRounds | src/logger/AsyncLogging.cc:35-139 | under every interleaving the moves and swaps of the pointers come to what a logger without them does: lines packed into buffers, all of them taken by every swap, and what was taken written, or the first two buffers where there were more than sixteen |
| AsyncLoggingProtocol.LoggerFollowsItsRounds | src/logger/AsyncLogging.cc:35-139 | the same for every run of a new logger, between two rounds |
| AsyncLoggings.FixedBuffer.Append | src/logger/AsyncLogging.h:35-40 | copies the line behind the bytes already there if room is left after it, and otherwise changes nothing |
| AsyncLoggings.FixedBuffer.Data | src/logger/AsyncLogging.h:44-48 | the written bytes are the concatenated lines |
| AsyncLoggings.AsyncLogging.Append | src/logger/AsyncLogging.cc:35-53 | the front end's step; every dereference is of a non-null buffer |
| AsyncLoggings.AsyncLogging.Swap | src/logger/AsyncLogging.cc:98-104 | the moves and swaps of the critical section |
| AsyncLoggings.AsyncLogging.DropExcess | src/logger/AsyncLogging.cc:107-114 | more than 16 buffers are cut to two |
| AsyncLoggings.AsyncLogging.WriteOne | src/logger/AsyncLogging.cc:117-119 | writes the next buffer; the log files hold exactly the lines called written |
| AsyncLoggings.AsyncLogging.Recycle | src/logger/AsyncLogging.cc:121-137 | refills the spare buffers from the batch |
| LogFileProtocol.BytesAreConserved | src/logger/LogFile.cc:58-80 | in every run the files in creation order concatenate to all appended bytes |
| LogFileProtocol.RunsKeepThePolicy | src/logger/LogFile.cc:58-91 | besides, rolls fall in strictly increasing whole seconds, and a file passes rollsize_ only by its first line or within a second of its opening |
| LogFileProtocol.FilesAreLeftForAReason | src/logger/LogFile.cc:58-91 | a new file is opened only because it is asked for, or the line does not fit, or a new day has begun, and not within a second of the last; after that second the first two always open one |
| LogFileProtocol.MidnightRolls | src/logger/LogFile.cc:64-73 | in every run, lines of a later day, a second's grace included, open a new file after at most as many as the periodic check is apart, and one |
| LogFileProtocol.MissedMidnight | src/logger/LogFile.cc:64-90 | that grace is needed: a check that finds the new day within a second of the last roll opens no file, and none is opened while the day lasts and the lines fit |
| LogFileProtocol.FlushedInTime | src/logger/LogFile.cc:65-77 | when more lines have gone into a file than the periodic check is apart, the last flush is less than the interval before one of them |
| LogFiles.LogFile.Append | src/logger/LogFile.cc:30-38 | the protocol's step; the files grow by exactly the line |
| LogFiles.LogFile.AppendUnlocked | src/logger/LogFile.cc:58-80 | roll by size, else roll at midnight or flush at every n-th append, then write |
| LogFiles.LogFile.RollFileUnlocked | src/logger/LogFile.cc:82-91 | opens a new file unless the last roll is less than a second old |
| BufferShapes.StorageIsBounded | src/net/Buffer.cc:90-134 | over any run the storage stays within 8 plus the initial size or twice the peak readable count plus 7 |
| BufferShapes.StorageIsBoundedFromStart | src/net/Buffer.cc:90-134 | the same from construction |
| Buffers.Buffer.Swap | src/net/Buffer.cc:27-31 | exchanges contents and indices |
| Buffers.Buffer.Retrieve | src/net/Buffer.cc:33-40 | drops the first bytes; the indices reset when none is left |
| Buffers.Buffer.RetrieveUntil | src/net/Buffer.cc:42-46 | drops everything before a position |
| Buffers.Buffer.RetrieveAsString | src/net/Buffer.cc:53-58 | splits the readable bytes into the result and the rest |
| Buffers.Buffer.RetrieveAllAsString | src/net/Buffer.cc:60-62 | returns all readable bytes and leaves none |
| Buffers.Buffer.HasWritten | src/net/Buffer.cc:64-67 | bytes placed behind the write index become readable |
| Buffers.Buffer.Unwrite | src/net/Buffer.cc:69-72 | drops the last bytes |
| Buffers.Buffer.Prepend | src/net/Buffer.cc:74-78 | the readable bytes get a prefix |
| Buffers.Buffer.Append | src/net/Buffer.cc:80-84 | the readable bytes get a suffix, after compaction or growth if need be |
| Buffers.Buffer.ReadFd | src/net/Buffer.cc:90-112 | bytes scattered over the tail and the stack buffer are appended in order; an error changes nothing |
| Buffers.Buffer.FindCRLF | src/net/Buffer.cc:114-117 | the offset of the first CRLF, or none |
| Buffers.Buffer.CheckAndMakePlace | src/net/Buffer.cc:119-134 | makes room without changing the readable bytes; its asserts hold |
| Buffers.Buffer.CopyDown | src/net/Buffer.cc:126 | the overlapping copy, lowest byte first, moves the bytes unchanged |
| TcpConnectionProtocol.StepIsSound | src/net/TcpConnection.cc:50-253 | every event, other threads' half-done calls included, keeps the stream invariant; it fails an assert if and only if ConnectionEstablished finds the connection no longer connecting or a hang-up finds it not open; every one but a late store keeps the interest |
| TcpConnectionProtocol.StreamIsIntact | src/net/TcpConnection.cc:50-167 | in every run, for any partial writes, retryable errors and cross-thread calls, wire then output buffer are, in order, the data of the Send calls made in the loop while connected and of the posted ones run while connected, told from the events; and an assert fails if and only if one of the two misses occurs in the run |
| TcpConnectionProtocol.ConnectionFollowsItsCalls | src/net/TcpConnection.cc:50-254 | in every run state, reading, calls under way and input are what the calls and deliveries say, and functors run in the order in which other threads post them |
| TcpConnectionProtocol.WireGrowsAsReported | src/net/TcpConnection.cc:122-240 | every step grows the wire by exactly what the socket reports to have taken of what the connection has to write; only an emptied output buffer or a close ends the write interest |
| TcpConnectionProtocol.CallbacksAreCalled | src/net/TcpConnection.cc:129-240 | the high-water-mark callback is called exactly by the steps that bring the output buffer from below the mark to it or over it, with the new size; the write-complete callback exactly by those that leave nothing to write after the socket has taken bytes or an empty message |
| TcpConnectionProtocol.ForcedConnectionsClose | src/net/TcpConnection.cc:91-97 | when calls and functors have drained, a connection on which any thread called ForceClose is closed, if no store of Shutdown came after a close |
| TcpConnectionProtocol.EarlyForceCloseFails | src/net/TcpConnection.cc:91-108 | in every run up to ConnectionEstablished its assert fails if and only if ForceClose was called before |
| TcpConnectionProtocol.InterestNeedsTimelyStores | src/net/TcpConnection.cc:83-97 | all through a run a non-empty output buffer of a connection that is not closed is waited for if and only if no store of kDisconnecting comes after a close that left output over |
| TcpConnectionProtocol.InLoopStoresAreTimely | src/net/TcpConnection.cc:83-97 | so it is when Shutdown and ForceClose are called only in the connection's loop |
| TcpConnectionProtocol.LateStoreLosesInterest | src/net/TcpConnection.cc:83-89 | a run from the start that loses it: half-written message, test, hang-up, store |
| TcpConnectionProtocol.WriteSideIsNeverShut | src/net/TcpConnection.cc:189-196 | no run ever calls shutdown on the socket |
| TcpConnectionProtocol.IdleWriteInterest | src/net/TcpConnection.cc:132-166 | a state that asks for writability and that no report of it changes is reachable if and only if no write-complete callback is set or empty messages are sent |
| TcpConnections.TcpConnection.ConnectionEstablished | src/net/TcpConnection.cc:103-110 | enables reading and becomes connected |
| TcpConnections.TcpConnection.Send | src/net/TcpConnection.cc:50-63 | sends in the loop, begins the call elsewhere, does nothing unless connected |
| TcpConnections.TcpConnection.SendInLoop | src/net/TcpConnection.cc:122-167 | direct write, then what is left goes to the output buffer with write interest; high-water and write-complete callbacks |
| TcpConnections.TcpConnection.HandleWrite | src/net/TcpConnection.cc:219-240 | moves a prefix of the output buffer to the wire and drops the interest when it is empty |
| TcpConnections.TcpConnection.HandleRead | src/net/TcpConnection.cc:205-217 | appends to the input buffer, or closes at end-of-file |
| TcpConnections.TcpConnection.HandleClose | src/net/TcpConnection.cc:242-254 | clears the interest set and becomes disconnected |
| TcpConnections.TcpConnection.ShutdownInLoop | src/net/TcpConnection.cc:189-196 | shuts the write side only when connected and not writing |
| TcpConnections.TcpConnection.Shutdown | src/net/TcpConnection.cc:83-89 | becomes disconnecting and runs ShutdownInLoop in the loop; elsewhere tests the state and begins the call |
| TcpConnections.TcpConnection.ForceClose | src/net/TcpConnection.cc:91-97 | in any state: stores kDisconnecting, then closes at once in the loop or begins the posting elsewhere |
| TcpConnections.TcpConnection.Proceed | src/net/TcpConnection.cc:50-97 | the next access of another thread inside Send, Shutdown or ForceClose: the store, or the posting |
| TcpConnections.TcpConnection.RunPosted | src/net/TcpConnection.cc:61-95 | the oldest posted functor is carried out |
| TcpServerProtocol.StepIsSafe | src/net/TcpServer.cc:71-108 | every event but a late store and a closing event on a connection that is not open keeps each connection's stage, told by its state and list membership, in step with the functors waiting for it, and fails no assert |
| TcpServerProtocol.ConnectionsLiveOnce | src/net/TcpServer.cc:71-108 | in every timely run establishing finds kConnecting, closing an open connection and destroying kDisconnected; connections_ holds exactly the created connections whose removal has not run; established once; destroyed at most once, after removal |
| TcpServerProtocol.DrainedServerIsClean | src/net/TcpServer.cc:98-108 | in such a run, with all queues empty, connections_ is exactly the open connections and every other one was destroyed once |
| ServerLedger.ServerFollowsItsCalls | src/net/TcpServer.cc:71-108 | in every run, timely or not, every connection is in the loop it was created for and in the state its calls and closing events have left it in, and every loop runs what was posted to it in the order of posting |
| ServerLedger.DrainedServerHasClosed | src/net/TcpConnection.cc:91-120 | when queues and calls of a timely run have drained, a connection is open and listed if and only if its peer has not closed it and nobody called ForceClose on it; every other is closed, off the list and destroyed once |
| TcpServerProtocol.ClosedInOwnHandler | src/net/TcpServer.cc:98-108 | a connection closed in its own loop, by its peer or by ForceClose, outlives the event handler that does so if and only if its loop is not the base loop or a functor or call still mentions it |
| TcpServerProtocol.SendRunsOnFreed | src/net/TcpConnection.cc:53-62 | a posted SendInLoop that comes to run finds its connection freed if and only if ConnectionDestroyed has run and nothing that holds the connection is left |
| LateStores.OrderNeedsTimeliness | src/net/TcpConnection.cc:83-120 | at every point of a run every timely continuation is in order (no failed assert, no double destruction, the destructor's assert) if and only if every store of kDisconnecting and every closing event in the run met an open connection |
| LateStores.InLoopShutdownIsTimely | src/net/TcpConnection.cc:83-89 | when Shutdown is only called in the connection's own loop, that takes no more than that ForceClose calls and closing events meet open connections |
| LateStores.RaceFails | src/net/TcpConnection.cc:83-120 | a run from the start that fails the assert of ConnectionDestroyed: test, close by the peer, store |
| LateStores.FreedInOwnHandler | src/net/TcpServer.cc:98-108 | a run from the start without I/O threads after which the connection is freed under the event that closed it |
| LateStores.SendOutlivesItsConnection | src/net/TcpConnection.cc:50-63 | a run from the start in which a posted SendInLoop is next in the loop of a freed connection |
| LateStores.ForceCloseNeedsOpen | src/net/TcpConnection.cc:91-120 | in every stage of a connection, called in its loop or elsewhere: every timely continuation is in order if and only if the connection is open at the call |
| TcpServers.TcpServer.NewConnection | src/net/TcpServer.cc:71-96 | lists a connection under a number never used before, establishes it at once or posts that |
| TcpServers.TcpServer.RunFunctor | src/net/TcpServer.cc:95-108 | a loop carries out its oldest functor |
| TcpServers.TcpServer.Send | src/net/TcpConnection.cc:50-63 | a call from another thread: the test, and then the begun posting |
| TcpServers.TcpServer.Shutdown | src/net/TcpConnection.cc:83-89 | the store in the connection's loop, the begun call elsewhere |
| TcpServers.TcpServer.ForceClose | src/net/TcpConnection.cc:91-97 | in any state: the store, then the close at once or the begun posting; an open connection stays in order |
| TcpServers.TcpServer.Proceed | src/net/TcpConnection.cc:50-97 | the store or the posting of another thread inside Send, Shutdown or ForceClose; a timely one keeps the order |
| EventLoopProtocol.FunctorsRunInOrder | src/reactor/EventLoop.cc:84-127 | in every run executed functors, swapped batch and pending functors are those of the QueueInLoop calls, in the order of the calls, told from the events |
| EventLoopProtocol.EventfdCountsWrites | src/reactor/EventLoop.cc:106-182 | in every run the eventfd is readable if and only if it was written since it was last read, every call of another thread owes one write until it is made, and quit_ is set if and only if somebody called Quit |
| EventLoopProtocol.PollIsWoken | src/reactor/EventLoop.cc:84-127 | in every run a loop that polls with another thread's functor pending or after another thread's Quit has a readable eventfd or a write on its way; a handler's functor is never left behind |
| EventLoopProtocol.OnlyOwnFunctorsWait | src/reactor/EventLoop.cc:84-127 | a functor can wait for the poll to time out if and only if the loop thread queued it outside the handlers: in a functor that the loop ran, or before Loop() |
| EventLoopProtocol.EntryFailsAfterQuit | src/reactor/EventLoop.cc:79-111 | the assert at the entry of Loop() fails in exactly the runs that enter it after a Quit by any thread, for the first time or again |
| EventLoopProtocol.StepKeepsInv | src/reactor/EventLoop.cc:84-127 | every step keeps the pushes since the last swap covered by wakeups nobody has consumed |
| EventLoops.EventLoop.RunInLoop | src/reactor/EventLoop.cc:113-119 | at once in the loop thread, queued otherwise |
| EventLoops.EventLoop.Begin | src/reactor/EventLoop.cc:79-84 | the entry of Loop() and its assert |
| EventLoops.EventLoop.QueueInLoop | src/reactor/EventLoop.cc:121-127 | pushes; only a foreign caller owes a wakeup |
| EventLoops.EventLoop.Quit | src/reactor/EventLoop.cc:106-111 | sets quit_; only a foreign caller owes a wakeup |
| EventLoops.EventLoop.Wakeup | src/reactor/EventLoop.cc:176-182 | raises the eventfd counter |
| EventLoops.EventLoop.HandleEventfdRead | src/reactor/EventLoop.cc:168-174 | resets the eventfd counter |
| EventLoops.EventLoop.Turn | src/reactor/EventLoop.cc:84-104 | a turn executes exactly what was pending when it began and what other threads and handlers queued before the swap, in order, leaves no handler's functor behind, and is the last if quit_ is set, be it by a Quit during the turn |
| EventLoops.EventLoop.ExecutePendingFunctors | src/reactor/EventLoop.cc:93-103 | swaps under the lock, then runs exactly the swapped batch while its functors and other threads queue more |
| TimerSets.InsertKeepsOrder | src/reactor/Timer.h:85-89 | insertion into the ordered set keeps it sorted and adds exactly the new entry, or nothing if the key is there |
| TimerSets.EraseKeepsOrder | src/reactor/Timer.h:85-89 | erasing removes exactly the entry with the key |
| TimerSets.ExpiredAreAllDue | src/reactor/TimerQueue.cc:149-157 | the cut at the sentry separates all deadlines at most now from all later ones, both in (deadline, sequence) order |
| TimerQueueProtocol.StepIsSafe | src/reactor/TimerQueue.cc:89-147 | every event, callbacks that add or cancel included, keeps ownership, handles and the kernel timer in order; it uses a deleted timer if and only if it is AddTimer in another thread reading the sequence at an address nobody occupies any more |
| TimerQueueProtocol.LiveTimersAreOwned | src/reactor/TimerQueue.cc:89-147 | in every run, even through stale handles and reused addresses, no timer is used or deleted after its deletion but for such a late read; the live timers are those in timers_, in the unprocessed batch or in a posted functor, each in one place; outside HandleRead a non-empty set has the timerfd armed in time |
| TimerQueueProtocol.HandleReadRunsWhatIsDue | src/reactor/TimerQueue.cc:125-147 | a whole HandleRead, whatever its callbacks do, calls each timer due at its start once, in order, and no other |
| TimerQueueProtocol.FinishReaddsRepeating | src/reactor/Timer.cc:12-18 | exactly the repeating timers are put back; their deadline is in the future if and only if the interval is at least a microsecond |
| TimerQueueProtocol.FoundHandleIsEntry | src/reactor/TimerQueue.cc:116-123 | a handle found by key is the set's own entry, so the deleted pointer is the live timer's |
| TimerQueueProtocol.CancelIsByKey | src/reactor/TimerQueue.cc:116-123 | cancelling deletes exactly the handle's timer if it is in the set at the handle's deadline, and else changes nothing |
| TimerQueueProtocol.RestartMakesUncancellable | src/reactor/TimerQueue.cc:136-138 | after a restart no handle made or in the making reaches the timer, if and only if the interval is at least a microsecond, the timer was overdue, or its deadline had no handle any more |
| TimerQueueProtocol.RestartedTimerLivesForever | src/reactor/TimerQueue.cc:116-138 | and it stays live in every later state of a run whose foreign reads find their own timers, whatever is cancelled |
| TimerQueueProtocol.RunningUntilCancelled | src/reactor/TimerQueue.cc:125-142 | in such a run a repeating timer is live in every later state until its own handle is cancelled |
| TimerQueueProtocol.LateReadIsSafeIffRepeating | src/reactor/TimerQueue.cc:89-95 | a run in which AddTimer in another thread reads the sequence of a deleted timer exists if and only if the timers that other threads add do not repeat |
| TimerQueueProtocol.RepeatingReadsArePrompt | src/reactor/TimerQueue.cc:89-95 | in every run in which other threads add only repeating timers, each of their reads finds its own timer |
| TimerQueueProtocol.HandlesAreDated | src/reactor/TimerQueue.cc:89-147 | in every run whose foreign reads find their own timers, no handle carries a deadline after that of the live timer with its sequence |
| TimerRuns.PostedRunInOrder | src/reactor/TimerQueue.cc:89-99 | in every run the loop runs the additions and cancels of other threads in the order of their posting |
| TimerRuns.TimersAreAsAdded | src/reactor/TimerQueue.cc:89-95 | in every run the n-th addition makes the timer with sequence n, at its address, with its interval, and with its deadline until its callback has been called |
| TimerRuns.AddTakesEffect | src/reactor/TimerQueue.cc:101-114 | an addition in the loop, and the functor of one elsewhere, puts exactly its timer in the set |
| TimerRuns.CancelTakesEffect | src/reactor/TimerQueue.cc:97-123 | in the loop, cancelling the handle of a timer of the set makes it gone at once |
| TimerRuns.ForeignCancelTakesEffect | src/reactor/TimerQueue.cc:97-123 | a cancel by another thread of a timer that waits, in the set or in the functor that adds it, has made it gone once the loop has run what was posted up to it before a HandleRead starts; from the call on its callback is never called again |
| TimerRuns.GoneForEver | src/reactor/TimerQueue.cc:89-147 | a timer that is gone never comes back and is never called again, in any run |
| TimerRuns.ArmedForTheEarliest | src/reactor/TimerQueue.cc:44-147 | whatever arms the timerfd arms it for the earliest deadline of the set, or for a microsecond from now if that has passed; only reading an expired one disarms it |
| TimerQueues.TimerQueue.AddTimer | src/reactor/TimerQueue.cc:89-95 | in the loop: allocates, inserts, and returns the handle |
| TimerQueues.TimerQueue.PostTimer | src/reactor/TimerQueue.cc:89-93 | in another thread: allocates and posts |
| TimerQueues.TimerQueue.ReadSequence | src/reactor/TimerQueue.cc:94 | the rest of that call: the handle gets the sequence found at the address |
| TimerQueues.TimerQueue.AddTimerInLoop | src/reactor/TimerQueue.cc:101-114 | re-arms if the new deadline is earliest and inserts; the assert holds |
| TimerQueues.TimerQueue.CancelTimerInLoop | src/reactor/TimerQueue.cc:116-123 | erases by key and deletes the handle's pointer |
| TimerQueues.TimerQueue.UpdateTimerfd | src/reactor/TimerQueue.cc:44-61 | arms for the deadline, or a microsecond from now if that is past |
| TimerQueues.TimerQueue.GetExpired | src/reactor/TimerQueue.cc:149-157 | the loop finds the lower bound and cuts the set there |
| TimerQueues.TimerQueue.HandleRead | src/reactor/TimerQueue.cc:125-147 | with arbitrary callbacks, calls exactly what was due, in order, and leaves the timerfd armed in time |
| HttpGrammar.HeaderCutIsGreedy | src/net/http/HttpContext.cc:31 | the splitter reports a cut if and only if it is the allowed cut with the longest white space |
| HttpGrammar.RequestCutIsGreedy | src/net/http/HttpContext.cc:62-64 | the splitter reports a cut if and only if it is the allowed cut with the longest path |
| HttpGrammar.RequestLineReadsBack | src/net/http/HttpContext.cc:61-76 | a well-formed request line is read back as its own parts, whatever white space separates them |
| HttpGrammar.ReadsBackIffWellFormed | src/net/http/HttpContext.cc:61-76 | and only such a line is: the parts must fit their groups and a query without its mark must not start like a path |
| HttpParsing.HeadersInTwoPieces | src/net/http/HttpContext.cc:29-52 | a header section cut anywhere is parsed as if it came whole |
| HttpParsing.AnyChunkingIsTheSame | src/net/http/HttpContext.cc:29-52 | any chunking gives the same header map, verdict and unread bytes |
| HttpParsing.RequestInTwoPieces | src/net/http/HttpContext.cc:13-59 | a request cut anywhere behind its request line gives the same fields, headers and verdict |
| HttpParsing.FirstPieceNeedsTheRequestLine | src/net/http/HttpContext.cc:18-28 | the first piece of a good request is accepted if and only if it holds the end of the request line |
| HttpParsing.BodyIsTheRest | src/net/http/HttpContext.cc:53-57 | at completion the body is what is left unread |
| HttpParsing.LaterBytesKeepTheLine | src/net/http/HttpContext.cc:13-59 | nothing delivered behind the request line changes method, path, query, version or time |
| HttpParsing.ParseKeepsContext | src/net/http/HttpContext.cc:13-59 | no outcome leaves a context in which the setters' asserts would fail or a state the parser could not leave, other than the completed one |
| HttpContexts.HttpContext.ParseRequest | src/net/http/HttpContext.cc:13-59 | the loop terminates from every state but kGotAll and leaves exactly the context, unread bytes and verdict of the parsing function, of which RequestReadsBack says what they mean |
| HttpContexts.HttpContext.ParseRequestLine | src/net/http/HttpContext.cc:61-77 | a line assembled from well-formed parts leaves each part in the field of its name; the fields change only if the line matches; the setters' asserts are its precondition |
| HttpContexts.HttpContext.Reset | src/net/http/HttpContext.h:29-33 | leaves a fresh context |
| HttpPrinting.DecimalReadsBack | src/net/http/HttpResponse.cc:15-23 | the printed decimal has the number's value |
| HttpPrinting.LineIsConsumed | src/net/http/HttpResponse.cc:29-32 | the parser takes the printed line of a printable header whole and for that header |
| HttpPrinting.MatchedIsPrintable | src/net/http/HttpContext.cc:31-35 | whatever the header pattern matches is a printable header |
| HttpPrinting.LengthLineFits | src/net/http/HttpResponse.cc:23-24 | the Content-Length line is printed whole if and only if the body is below 10^13 bytes |
| HttpPrinting.StatusReadsBack | src/net/http/HttpResponse.cc:13-18 | the status code and message read back from the first line if and only if the message holds no CRLF |
| HttpPrinting.PrintableSectionReadsBack | src/net/http/HttpResponse.cc:20-34 | a printed header section of printable headers reads back as the same map on top of Connection and Content-Length, for every order of traversal |
| HttpPrinting.SectionReadsBackIff | src/net/http/HttpResponse.cc:20-34 | for every response it does so if and only if all headers are printable and the Content-Length line is absent, whole, or spoils only what the user's own headers set again |
| HttpResponses.HttpResponse.AppendToBuffer | src/net/http/HttpResponse.cc:13-36 | piece by piece, the output grows by exactly the printed response |
| HttpServing.StaysReady | src/net/http/HttpServer.cc:55-70 | onMessage always leaves a context in which the next ParseRequest terminates and its setters' asserts hold |
| HttpServing.AnswerIsFramed | src/net/http/HttpServer.cc:72-87 | for every callback: a client that reads an answer finds the user's headers with their values and the body behind them, and is told truly whether a shutdown follows and else how long the body is, if and only if the user's headers are printable and do not contradict the printer, and the printer's Content-Length line fits or is made up for |
| HttpServing.AnyChunkingGetsTheSameReply | src/net/http/HttpServer.cc:55-70 | on an idle connection, with the request line in the first chunk, any chunking gets as next reply the one the whole input deserves: the answer to the same fields and headers, the refusal, or none yet |
| HttpServing.IncompleteLineIsRefused | src/net/http/HttpServer.cc:60-64 | on an idle connection a first chunk without the end of the request line gets the 400 reply next |
| HttpServing.BodyIsReadAsNextRequest | src/net/http/HttpServer.cc:66-69 | after an answer the next delivery is parsed with the answered body in front |
| HttpServing.NextRequestNeedsEmptyBody | src/net/http/HttpServer.cc:66-69 | after an answer every next delivery is read as on an idle connection if and only if the answered request had no body |
| HttpServing.EveryRequestIsAnswered | src/net/http/HttpServer.cc:55-70 | requests without a body, each in chunks of its own the first of which brings its line, are answered one by one, in order |
| HttpServerProtocol.WireCarriesTheReplies | src/net/http/HttpServer.cc:55-87 | in every run wire then output buffer are the replies the client's deliveries, told from the events, deserve, in order, up to and including the first that closes |
| HttpServerProtocol.ConversationReachesTheWire | src/net/http/HttpServer.cc:55-87 | in a run that delivers such requests they are the answers, in order, up to and including the first that closes |
| HttpRequests.RequestReadsBack | src/net/http/HttpContext.cc:13-77 | a request written in the grammar's terms is read as its writer meant it: method, path, query, version, headers, body and time each in the field of its name |
| HttpRequests.RequestReadsBackInPieces | src/net/http/HttpContext.cc:13-77 | and so it is in two deliveries cut anywhere behind the request line |
| HttpRequests.RefusalIsBadRequest | src/net/http/HttpServer.cc:60-64 | what is not a request gets a reply that reads as status 400 without headers or body, and the connection shuts down |
| HttpRequests.RequestGetsItsAnswer | src/net/http/HttpServer.cc:72-87 | a request gets in print what the callback makes of it as its writer meant it, starting from an empty response that closes if the writer asks for it |
| HttpRequests.ClosesAsAsked | src/net/http/HttpServer.cc:74-78 | a callback that leaves the matter alone closes exactly as the client asks: with HTTP/1.1 on Connection: close, with HTTP/1.0 on anything but Connection: Keep-Alive |
| HttpRequests.ClientsAreAnswered | src/net/http/HttpServer.cc:55-87 | in every run, a client that writes requests without bodies, no two in one chunk and each line in its first, finds on the wire the answers to what it meant, in order, up to and including the first that closes |
| HttpServers.HttpServer.OnMessage | src/net/http/HttpServer.cc:55-70 | parse, refuse or answer, reset: context and connection end up as the protocol says |
| HttpServers.HttpServer.HandleRequest | src/net/http/HttpServer.cc:72-87 | prints the callback's response, sends it and shuts down if the response says so |

## Left out

- AsyncLoggings.AsyncLogging.Append: buffers are values held by at most one pointer, as `std::unique_ptr` guarantees, so their reuse in place is not modelled; the bytes of a single buffer are, in `FixedBuffer`.
- Sequence numbers and counters: their 64-bit wrap-around is excluded by a bound on `count` in the timer queue and not modelled elsewhere.
- TcpConnectionProtocol.StreamIsIntact: user callbacks run between steps; one that sends again from inside the write-complete callback is a following step.
- TcpServers.TcpServer.NewConnection: the connection's name is its number; the peer address in front of it and the choice of the I/O loop are parameters.
- `Connector` and `TcpClient`: mostly error handling around system calls and a short back-off.
- `StartRead`, `StopRead` and `reading_`: the flag is not set on establishment and guards nothing else.
- TcpConnections.TcpConnection.RunPosted: the memory of a connection is not tracked here; when a posted SendInLoop runs on a freed one is stated by `SendRunsOnFreed`.
- Destructors (but for the assert of the connection's, which `LateStores` includes) and process shutdown, including the log tail that `AsyncLogging::Stop` leaves in the buffers.
- `Poller`, `Channel` dispatch, `Socket`, `Acceptor`, `InetAddress`: thin wrappers around system calls.
- `AppendFile`: taken as an append-only sink whose writes complete; its retry loop does not advance the data pointer.
- `Logger` formatting, calendar functions and `TimeDifference`.
- The pthread wrappers, atomics, latch, singleton and weak callback: used as primitives.
- Regular expressions in general: only the two patterns of the parser, as splitters proved to choose the greedy match.
- The `std::memcpy` of a compaction copies overlapping ranges, which the C++ standard leaves undefined; the model copies from the lowest byte up.
- The C++ memory model: unsynchronised reads such as `threads_.empty()` in `ThreadPool::Run` are atomic here.
