# Verification of matelib

matelib is a reactor library in the style of muduo: an event loop for each thread, TCP connections with
buffered output, timers, an asynchronous logger, a thread pool, and on top of them an HTTP request parser and
remote procedure calls. This project models the parts that keep state and proves what they promise.

Each component comes in two layers. A *protocol* module describes the component as a state machine: one action
is one atomic step of some thread (a critical section, a system call, one callback), a run is any interleaving of
actions, and the theorems are about every run. A second module holds the *object* of the source, a class with the
fields of the C++ class, whose methods are proved to do exactly such steps, or to compute exactly the functions the
theorems are about. `State`, `Enabled`, `Apply`, `LegalFrom` and `After` have the same meaning in every protocol module.

| file | component |
|---|---|
| `Options.dfy`, `Search.dfy` | optional values; first occurrences in strings |
| `Buffer.dfy` | the byte buffer, its text and its storage |
| `EventLoop.dfy` | functor queue, batch, eventfd wakeup |
| `ThreadPool.dfy` | blocking task queue |
| `AsyncLogging.dfy` | double-buffered logger |
| `TimerQueue.dfy` | timer set, re-entrant callbacks, kernel timer |
| `Poller.dfy` | channels, poller table, kernel interest set |
| `TcpConnection.dfy` | sends, partial writes, half-close |
| `TcpServer.dfy` | life of connections between two loops |
| `HttpRequest.dfy`, `HttpContext.dfy` | resumable request parser (sections 3.1.1 and 3.2 of RFC 7230) |
| `LogStream.dfy` | integer formatting |
| `Serializer.dfy`, `Rpc.dfy` | wire format and remote calls |

`dafny verify dfyconfig.toml` checks everything.

Conventions. A C++ `char` is a Dafny `char`, a `std::string` or `std::vector<char>` a `string`. What a system call
does is part of the action or a parameter of the method: `write` takes any prefix or reports an error, `readv`
delivers any text that fits, clocks only advance. Addresses of timers, connections and log buffers are replaced by
identities that are never reused. A failed `assert`, a null pointer that is followed or an object used after `delete`
leads to a state marked as crashed, or makes a method's Dafny `assert` fail, and is proved not to happen.

## Where the code does less than one might expect

The code is modelled as it is. Where a promise does not hold, a lemma says exactly when it does.

- A functor queued by the loop thread before `loop()` starts is not followed by a wakeup (`LoopProtocol.EntryIff`, `LoopProtocol.EarlyQueueStrands`).
- A repeating timer goes back into the set under its old key, so it can fire early (`TimerProtocol.NeverEarlyIff`, `TimerProtocol.NeverEarlyRunIff`, `TimerProtocol.FiresEarly`), and the kernel timer can be too late for others, when handleRead ends and when a timer is added (`TimerProtocol.NeverLateIff` with `TimerProtocol.RearmInTimeIff` and `TimerProtocol.AddInTimeIff`, `TimerProtocol.FiresLate`, `TimerProtocol.FiresLateAfterAdd`).
- Cancelling a timer whose insertion is still queued does nothing (`TimerProtocol.CancelTakesEffectIff`).
- A log message as long as a whole buffer disappears, and `stop()` does not always write everything (`LogProtocol.AppendLoggedIff`, `LogProtocol.DrainIff`, `LogProtocol.StopLosesMessage`).
- `SHUT_WR` can overtake data that another thread sent before `shutdown()`, which is then lost (`OutputPath.OvertakesIff`, `OutputPath.SendOvertaken`), and `shutdown()` on another thread can lead to two `SHUT_WR` (`OutputPath.ShutTwiceIff`).
- A hang-up without input but with urgent data, followed by a read that finds the end of the stream, closes a connection twice and fails an assertion (`ConnectionLife.CrashIff`, `ConnectionLife.Crashes`).
- The parser never returns when it is entered with the request complete, ends the headers at any line without a colon, and the server answers an incomplete request (`HttpParsing.TerminatesIff`, `HttpParsing.CompleteIff`, `HttpContexts.ReplyKind`).
- Strings on the wire are cut at a NUL and to 16 bits of length, in a big-endian stream only some lengths survive, and a function bound under a name that does not survive can never be called (`Serialization.StringArrives`, `Serialization.StringRoundTripIff`, `RpcProtocol.BoundCallableIff`).
- The RPC server takes what one read delivers for a whole message, and fails an assertion on a string that is cut short (`RpcProtocol.ServeFailsIff`, `RpcProtocol.CutNameFails`).

## Model

| member | source | states |
|---|---|---|
| BufferOps.SpaceBound | matelib/Buffer.cc:40-76 | However operations are interleaved, the storage of a default-constructed buffer never exceeds max(1032, 2H + 7), H being the most text it ever held |
| Buffers.Buffer.constructor | matelib/Buffer.h:27-32 | An empty text in 1032 bytes of storage |
| Buffers.Buffer.Copy | matelib/Buffer.h:33-40 | The copy holds the same text, compacted |
| Buffers.Buffer.Move | matelib/Buffer.h:41-48 | The new buffer takes text and storage, the old one becomes a fresh one |
| Buffers.Buffer.Swap | matelib/Buffer.h:57-61 | Text and storage change places |
| Buffers.Buffer.SearchIn | matelib/Buffer.h:94-111 | The first occurrence at or after a position, or proof that there is none |
| Buffers.Buffer.FindCRLF | matelib/Buffer.h:94-97 | Exactly the first CRLF of the text, or none |
| Buffers.Buffer.FindCRLFFrom | matelib/Buffer.h:98-104 | The first CRLF from a given position |
| Buffers.Buffer.FindStr | matelib/Buffer.h:105-111 | The first occurrence of any text, except that an empty one is not found in an empty buffer |
| Buffers.Buffer.Retrieve | matelib/Buffer.h:114-123 | Drops exactly the first n bytes of the text; both indices are reset when nothing is left |
| Buffers.Buffer.RetrieveUntil | matelib/Buffer.h:124-130 | Drops the text up to a position |
| Buffers.Buffer.RetrieveAll | matelib/Buffer.h:131-135 | Empties the text, keeps the storage |
| Buffers.Buffer.RetrieveAsString | matelib/Buffer.h:136-142 | What is returned and what is left are the old text |
| Buffers.Buffer.RetrieveAllAsString | matelib/Buffer.h:143-145 | Returns the whole text and leaves none |
| Buffers.Buffer.CopyDown | matelib/Buffer.cc:67-69 | A forward copy between overlapping ranges moves every byte |
| Buffers.Buffer.EnsureWritableBytes | matelib/Buffer.cc:53-76 | Makes room without changing the text, by growing or by moving the text down; the assertions of the compaction hold |
| Buffers.Buffer.Append | matelib/Buffer.h:150-154 | The text grows by the data; the storage as `BufferOps.AppendShape` says |
| Buffers.Buffer.Erase | matelib/Buffer.h:160-174 | Removes exactly the given bytes of the text |
| Buffers.Buffer.Clear | matelib/Buffer.h:179-182 | Empties the text, zeroes what was written and leaves the other bytes alone |
| Buffers.Buffer.ReadFd | matelib/Buffer.cc:18-51 | A scatter read in two pieces appends exactly the bytes received and returns their number; a failed one returns -1 and changes nothing |
| Buffers.Drive | matelib/Buffer.h:57-182 | Any run of operations on two buffers, with swaps and copies, gives the texts of the same run on two plain strings, and every index stays in bounds |
| LoopProtocol.StepKeepsInv | matelib/EventLoop.cc:137-184 | Every step of any thread keeps queue order, flags and the pending wakeup |
| LoopProtocol.Safety | matelib/EventLoop.cc:85-148 | In every interleaving executed, batch and pending functors are all that were queued, in order; a loop blocked in poll with functors pending is being woken, unless the loop thread queued before loop(); a blocked loop asked to quit is being woken |
| LoopProtocol.AtMostOnce | matelib/EventLoop.cc:221-239 | No functor is executed twice |
| LoopProtocol.EntryIff | matelib/EventLoop.cc:145-147 | Entering the loop leaves functors without a wakeup if and only if the loop thread has queued some before and no other thread has |
| LoopProtocol.EarlyQueueStrands | matelib/EventLoop.cc:145-147 | For any list of functors queued by the loop thread before loop(): the wakeup is lost if and only if the list is not empty |
| LoopProtocol.WakeupSuffices | matelib/EventLoop.cc:91-117 | From any reachable state blocked in poll with a positive counter the loop by itself executes everything that was queued, uses up the wakeups, and polls again or ends if it was asked to |
| LoopProtocol.QuitIff | matelib/EventLoop.cc:91-125 | The loop is asked to end exactly by quit(), and ends only then |
| EventLoops.EventLoop.PushFromOtherThread | matelib/EventLoop.cc:139-142 | The critical section of queueInLoop, whole new state |
| EventLoops.EventLoop.WakeupFromOtherThread | matelib/EventLoop.cc:168-175 | The write that follows it |
| EventLoops.EventLoop.HandleWakeup | matelib/EventLoop.cc:177-184 | Reading the eventfd empties its counter |
| EventLoops.EventLoop.QueueInLoop | matelib/EventLoop.cc:137-148 | On the loop thread: the functor is queued, and the eventfd written exactly while functors are being called |
| EventLoops.EventLoop.TakeBatch | matelib/EventLoop.cc:223-230 | Flag and swap |
| EventLoops.EventLoop.RunBatch | matelib/EventLoop.cc:234-236 | Exactly the functors of the local vector run, in order; what they queue waits behind what was queued |
| EventLoops.EventLoop.DoPendingFunctors | matelib/EventLoop.cc:221-239 | One batch runs exactly what was pending at the swap; everything queued meanwhile waits, with one wakeup for each |
| PoolProtocol.StepKeepsInv | matelib/base/ThreadPool.cc:66-105 | Every step of submitters, workers, spurious wakeups and stop() keeps the balance of awake workers and tasks |
| PoolProtocol.Safety | matelib/base/ThreadPool.cc:47-105 | In every interleaving the tasks taken and those in the queue are all that were submitted, in order; the pool runs exactly until stop(); while running at least min(workers, tasks) workers are not waiting; after stop() none waits, and each starts at most one more task |
| PoolProtocol.AtMostOnce | matelib/base/ThreadPool.cc:98-104 | No task is taken twice |
| PoolProtocol.SomeoneWillLook | matelib/base/ThreadPool.cc:94-96 | As long as there is a task, some worker is neither waiting nor finished |
| ThreadPools.ThreadPool.constructor | matelib/base/ThreadPool.cc:27-45 | A started pool |
| ThreadPools.ThreadPool.Run | matelib/base/ThreadPool.cc:66-76 | Queues the task and wakes one waiting worker; without threads the caller executes it |
| ThreadPools.ThreadPool.TakeTask | matelib/base/ThreadPool.cc:89-105 | Waits, takes the oldest task, or returns empty-handed after stop() |
| ThreadPools.ThreadPool.StopAll | matelib/base/ThreadPool.cc:49-53 | Clears the flag and wakes every waiting worker |
| LogProtocol.ChainPut | matelib/base/AsyncLogging.cc:40-43 | Appending to the last buffer keeps every buffer a gapless stretch of the messages |
| LogProtocol.RotateKeepsInv | matelib/base/AsyncLogging.cc:48-58 | Changing the current buffer keeps ownership, order and contents |
| LogProtocol.AllocatesIff | matelib/base/AsyncLogging.cc:40-58 | The buffer in use is changed if and only if the message does not fit, and a new one is allocated if and only if then no next one is at hand |
| LogProtocol.SwapOutKeepsInv | matelib/base/AsyncLogging.cc:97-105 | Handing the buffers to the consumer keeps them |
| LogProtocol.TakesIff | matelib/base/AsyncLogging.cc:87-105 | The consumer takes all buffers if and only if one is full, it is to stop, or a wait has found text; otherwise it waits |
| LogProtocol.TrimKeepsInv | matelib/base/AsyncLogging.cc:112-122 | Discarding all but two buffers keeps the rest whole and in order |
| LogProtocol.TrimSpec | matelib/base/AsyncLogging.cc:112-122 | A batch of at most 25 buffers is left as it is; of a larger one the first two are kept and the file gets the notice |
| LogProtocol.SmallBatchWritten | matelib/base/AsyncLogging.cc:112-126 | At most 25 buffers are written completely |
| LogProtocol.WriteKeepsInv | matelib/base/AsyncLogging.cc:124-126 | Writing a buffer moves its messages from the line of buffers to the file |
| LogProtocol.WriteRestSpec | matelib/base/AsyncLogging.cc:124-126 | From any point of the loop on, the file grows by exactly the rest of the batch |
| LogProtocol.RefillKeepsInv | matelib/base/AsyncLogging.cc:128-143 | Recycling gives back two empty buffers that nobody else owns |
| LogProtocol.RefillRecycles | matelib/base/AsyncLogging.cc:128-143 | Recycling allocates nothing: the spare buffers come from the batch, and everything else stays |
| LogProtocol.StepKeepsInv | matelib/base/AsyncLogging.cc:36-146 | Every step of producers and consumer keeps the invariant, for messages of any length |
| LogProtocol.RecyclingAlwaysPossible | matelib/base/AsyncLogging.cc:79-143 | In every interleaving, for messages of any length: no null buffer is used, no empty vector popped, both spare buffers exist and are empty at the head of the loop, and every buffer has one owner |
| LogProtocol.StreamIntegrity | matelib/base/AsyncLogging.cc:36-146 | In every interleaving the file consists of whole messages in order, none twice, with whole notices between them; until the first discard, file and unwritten buffers together are every message appended that is shorter than a buffer, in order |
| LogProtocol.AppendLoggedIff | matelib/base/AsyncLogging.cc:40-60 | After any run without a discard a further message gets into the stream if and only if it is shorter than a buffer |
| LogProtocol.FinishWrites | matelib/base/AsyncLogging.cc:79-146 | After the flag is cleared the consumer ends, having written exactly the buffers it will still take, without those it will discard as overload |
| LogProtocol.DrainIff | matelib/base/AsyncLogging.cc:79-79 | After stop(), whatever was discarded before: everything still in the buffers is written in the end if and only if the buffers the consumer will discard as overload and those it will not take any more are empty; without earlier discards that is every message |
| LogProtocol.StopLosesMessage | matelib/base/AsyncLogging.cc:79-79 | A run in which one short message is appended, stop() is called, and nothing is written |
| AsyncLoggings.AsyncLogging.constructor | matelib/base/AsyncLogging.cc:13-32 | Four empty buffers |
| AsyncLoggings.AsyncLogging.Append | matelib/base/AsyncLogging.cc:36-63 | One critical section of a producer |
| AsyncLoggings.AsyncLogging.ChangeBuffer | matelib/base/AsyncLogging.cc:48-58 | The current buffer joins the full ones; the next one, or a new one, takes its place |
| AsyncLoggings.AsyncLogging.TestRunning | matelib/base/AsyncLogging.cc:79-83 | The head of the consumer's loop; its three assertions hold |
| AsyncLoggings.AsyncLogging.EnterCritical | matelib/base/AsyncLogging.cc:85-90 | Without a full buffer the consumer waits, otherwise it takes the buffers |
| AsyncLoggings.AsyncLogging.WaitReturns | matelib/base/AsyncLogging.cc:90-95 | After any return from the wait it takes the buffers, or waits again when there is nothing to write |
| AsyncLoggings.AsyncLogging.TakeBuffers | matelib/base/AsyncLogging.cc:97-105 | The end of the consumer's critical section |
| AsyncLoggings.AsyncLogging.DiscardExcess | matelib/base/AsyncLogging.cc:112-122 | With more than 25 buffers: a notice in the file, and only two are kept |
| AsyncLoggings.AsyncLogging.WriteBatch | matelib/base/AsyncLogging.cc:124-126 | The file grows by exactly the contents of the batch, in order, and the history by the messages in it |
| AsyncLoggings.AsyncLogging.RefillSpares | matelib/base/AsyncLogging.cc:128-143 | The missing spare buffers are taken from the back and emptied |
| TimerProtocol.InsertSpec | matelib/TimerQueue.cc:125-126 | Insertion into the ordered set |
| TimerProtocol.RemoveSpec | matelib/TimerQueue.cc:142-143 | Removal keeps the order and never makes the first key earlier |
| TimerProtocol.ExpiredSpec | matelib/TimerQueue.cc:179-195 | getExpired takes exactly the entries whose key has come, in key order, and leaves exactly the others |
| TimerProtocol.StepKeepsInv | matelib/TimerQueue.cc:95-225 | Every call, callback and kernel event keeps the timers where they belong |
| TimerProtocol.PlaceStep | matelib/TimerQueue.cc:95-217 | Every step moves exactly the timers it is about: into the set, into the batch, back into the set when repeating and not cancelled, otherwise to where they are deleted |
| TimerProtocol.TimerStep | matelib/Timer.h:33-42 | A live timer stays what it is, but that re-arming makes it due one interval after the time handleRead took |
| TimerProtocol.NewSpec | matelib/TimerQueue.cc:95-104 | addTimer makes a timer of its own and touches no other |
| TimerProtocol.BeginSpec | matelib/TimerQueue.cc:156-163 | handleRead takes the time, forgets kernel event and earlier cancellations, and moves exactly the expired entries |
| TimerProtocol.CancelSpec | matelib/TimerQueue.cc:138-148 | Cancelling deletes that timer if it is in the set, or marks it during callbacks; no other timer, entry or mark changes |
| TimerProtocol.KeptUntilCancelled | matelib/TimerQueue.cc:197-217 | In any run, what nobody cancels is not lost: a repeating timer stays alive, a one-shot timer is started at most once and deleted only after that |
| TimerProtocol.ArmSpec | matelib/TimerQueue.cc:27-38 | The kernel timer is set at least 100 µs ahead, and no later than asked for if that is later |
| TimerProtocol.Ownership | matelib/TimerQueue.cc:95-217 | Under any re-entrant adding and cancelling every timer is in exactly one of: in transit, in the set, in the expired batch, deleted; none is used or deleted after it was deleted; every entry keeps the key of its TimerId |
| TimerProtocol.FreedNeverRuns | matelib/TimerQueue.cc:141-143 | A deleted timer never runs again |
| TimerProtocol.CancelIsFinal | matelib/TimerQueue.cc:134-149 | A timer cancelled after its insertion never runs once the batch ends, and not at all if it was outside the batch |
| TimerProtocol.CancelTakesEffectIff | matelib/TimerQueue.cc:138-148 | Cancelling a live timer dooms it if and only if its insertion is not still queued |
| TimerProtocol.NeverEarlyIff | matelib/TimerQueue.cc:207-212 | The next reading of the queue, whenever it comes, takes no timer before its expiration, if and only if every timer in the set is due at its key or due already |
| TimerProtocol.NeverEarlyRunIff | matelib/TimerQueue.cc:197-217 | In no state of a run would a reading take a timer early, if and only if no handleRead of the run re-arms a timer to a future time other than its key |
| TimerProtocol.FiresEarly | matelib/TimerQueue.cc:207-212 | A run in which a timer due at 110 is taken at 20 |
| TimerProtocol.RearmInTimeIff | matelib/TimerQueue.cc:219-224 | With any timers: handleRead leaves the kernel timer set in time for every timer if and only if, before the re-arming, what is going to be the first entry is due first or within 100 µs |
| TimerProtocol.AddInTimeIff | matelib/TimerQueue.cc:113-132 | With any timers: adding one leaves the kernel timer set in time if and only if its time is before the first key, which may be stale, or the kernel timer goes off in time for it anyhow |
| TimerProtocol.NeverLateIff | matelib/TimerQueue.cc:113-225 | In every state of a run outside handleRead the kernel timer goes off in time for every timer, if and only if every handleRead and every adding outside of one meets its condition; cancelling, reading and time keep it |
| TimerProtocol.FiresLate | matelib/TimerQueue.cc:219-224 | A run after which a one-shot timer due at 500 waits for a kernel timer set to 1010 |
| TimerProtocol.FiresLateAfterAdd | matelib/TimerQueue.cc:120-131 | A run in which a timer due at 500 is added and waits for a kernel timer set to 1010 |
| TimerProtocol.NoMissedDeadline | matelib/TimerQueue.cc:27-38 | With one-shot timers only: a non-empty queue is readable or armed no later than its earliest key or 100 µs after arming, although cancelling never arms; and nothing fires early |
| TimerQueues.TimerQueue.constructor | matelib/TimerQueue.cc:71-83 | An empty queue |
| TimerQueues.TimerQueue.ResetTimerfd | matelib/TimerQueue.cc:53-64 | Arms the kernel timer, at least 100 µs ahead |
| TimerQueues.TimerQueue.NewTimer | matelib/TimerQueue.cc:95-104 | A fresh timer, and the entry the user can cancel it by |
| TimerQueues.TimerQueue.AddTimerInLoop | matelib/TimerQueue.cc:113-132 | Inserts it, and arms the kernel timer if it became the first |
| TimerQueues.TimerQueue.CancelTimerInLoop | matelib/TimerQueue.cc:134-149 | Deletes it from the set, or marks it while callbacks are running |
| TimerQueues.TimerQueue.LowerBound | matelib/TimerQueue.cc:182-188 | The position of the first entry that has not expired |
| TimerQueues.TimerQueue.GetExpired | matelib/TimerQueue.cc:156-163 | Reads the kernel timer and cuts off the expired entries |
| TimerQueues.TimerQueue.CallBack | matelib/TimerQueue.cc:167-171 | One callback starts exactly one timer and carries out everything the callback asks for, in order |
| TimerQueues.TimerQueue.Reset | matelib/TimerQueue.cc:197-225 | Re-arms, deletes and sets the kernel timer, exactly as the specification says |
| TimerQueues.TimerQueue.HandleRead | matelib/TimerQueue.cc:152-176 | Exactly the timers expired at the start run, once each, in key order, whatever their callbacks do; what they ask for and the re-arming are carried out as specified |
| TimerQueues.HandledSpec | matelib/TimerQueue.cc:152-176 | The specification of handleRead starts exactly the timers expired at its beginning, in key order, for any callbacks that add and cancel timers and take time |
| Epoll.Channel.constructor | matelib/Channel.cc:35-42 | No interest, unknown to the poller |
| Epoll.Channel.Ask | matelib/Channel.h:33-37 | Changes the mask, tells the poller, and keeps channels, table and kernel in agreement |
| Epoll.DispatchSpec | matelib/Channel.cc:49-76 | Every event is served and no callback is made without its event: closing exactly on a hang-up without input, the error callback exactly on an error of a positive descriptor, reading exactly on input, urgent data or half-close, writing exactly on room; in one order, each at most once |
| Epoll.EpollPoller.UpdateChannel | matelib/EpollPoller.cc:71-114 | Restores the agreement after a change of mask; its assertions hold, and the kernel refuses none of its calls |
| Epoll.EpollPoller.RemoveChannel | matelib/EpollPoller.cc:116-135 | Forgets a channel without interest, keeping the agreement |
| Epoll.EpollPoller.Update | matelib/EpollPoller.cc:161-178 | A call of epoll_ctl that the kernel does not refuse, after which the kernel watches what all calls so far add up to |
| Epoll.Drive | matelib/EpollPoller.cc:71-135 | After any requests on channels with distinct descriptors the kernel has refused no call; the table holds exactly the channels not new, the kernel exactly those added, with their masks |
| Epoll.MaskIs | matelib/Channel.h:33-37 | After any requests a channel waits for exactly the events it was asked to watch for and not asked to give up since |
| Epoll.RegistrationIs | matelib/EpollPoller.cc:71-135 | After any requests a channel is new to the poller exactly before its first one and after a removal, and one kept without being watched waits for nothing |
| Epoll.GivesUpIff | matelib/EpollPoller.cc:104-107 | A request ends the watching of a channel if and only if it was watched and now waits for nothing |
| OutputPath.StepKeepsInv | matelib/TcpConnection.cc:100-157 | Every send, write, shutdown and close keeps the invariant |
| OutputPath.OutputConserved | matelib/TcpConnection.cc:100-229 | Under any partial writes and errors the peer gets exactly what write() has reported as taken; that and the bytes buffered are the sends in order, all but those refused as disconnected or by EPIPE; until the close write interest is on exactly when the buffer is not empty and SHUT_WR is issued only with an empty buffer |
| OutputPath.StateIs | matelib/TcpConnection.cc:142-179 | In any run the state says what has happened: connecting until established, disconnecting exactly if shutdown() was called since, disconnected exactly after the close |
| OutputPath.ShutOnlyIfAsked | matelib/TcpConnection.cc:142-157 | SHUT_WR is never issued unless shutdown() has been called |
| OutputPath.OvertakesIff | matelib/TcpConnection.cc:142-157 | A step issues SHUT_WR while sends of other threads are still queued if and only if there are some, and the loop shuts down with an empty buffer or writes the last of the buffer after a shutdown() |
| OutputPath.SendOvertaken | matelib/TcpConnection.cc:210-218 | A run in which data sent on another thread before its shutdown() is lost |
| OutputPath.LocalSendsAllLeave | matelib/TcpConnection.cc:100-157 | Without send() on another thread SHUT_WR is issued only when nothing at all is left to send |
| OutputPath.RemoteInOrder | matelib/TcpConnection.cc:54-58 | What other threads send and shut down is done in the order in which they asked |
| OutputPath.CloseNotForgotten | matelib/TcpConnection.cc:210-218 | A half-close that found the buffer full is issued when it has run dry |
| OutputPath.ShutTwiceIff | matelib/TcpConnection.cc:142-157 | SHUT_WR is issued at most twice, and twice if and only if some handleWrite of the run emptied the buffer between shutdown() on another thread and its functor, and that has run since |
| OutputPath.LocalShutdownOnce | matelib/TcpConnection.cc:142-148 | Without shutdown() from another thread it is issued at most once |
| OutputPath.ShutTwice | matelib/TcpConnection.cc:215-217 | A run that issues it twice |
| TcpConnections.TcpConnection.constructor | matelib/TcpConnection.cc:16-38 | A fresh connection |
| TcpConnections.TcpConnection.SendInThread | matelib/TcpConnection.cc:100-138 | Writes directly when nothing is queued, buffers what is left, turns write interest on |
| TcpConnections.TcpConnection.Send | matelib/TcpConnection.cc:45-51 | On the loop's thread: sends while connected, and does nothing otherwise |
| TcpConnections.TcpConnection.SendFromOtherThread | matelib/TcpConnection.cc:52-58 | A copy of the data waits in the queue of the loop |
| TcpConnections.TcpConnection.Shutdown | matelib/TcpConnection.cc:142-157 | On the loop's thread: SHUT_WR is issued at once if there is no write interest, and otherwise left to handleWrite |
| TcpConnections.TcpConnection.ShutdownFromOtherThread | matelib/TcpConnection.cc:142-148 | The state changes at once, the half-close waits in the queue of the loop |
| TcpConnections.TcpConnection.RunFunctor | matelib/TcpConnection.cc:95-98 | The oldest functor of another thread is carried out |
| TcpConnections.TcpConnection.HandleWrite | matelib/TcpConnection.cc:200-229 | Sends what the socket takes; when the buffer runs dry interest is turned off and a pending half-close issued, counted by the object |
| TcpConnections.TcpConnection.HandleClose | matelib/TcpConnection.cc:231-243 | The state becomes disconnected, all interest ends, the user's callback sees that state, and then the server is asked to clean up |
| ConnectionLife.NamesDiffer | matelib/TcpServer.cc:149-151 | Two connections with the same 31-character name have the same id, as long as the 32-bit counter has not gone round |
| ConnectionLife.NameSpec | matelib/TcpServer.cc:149-151 | A name is as much of #id:port.fd-peer as fits into 31 characters |
| ConnectionLife.ExecKeepsCore | matelib/TcpConnection.cc:160-179 | A functor that is due, or that uses a connection somebody owns, runs without failing an assertion, and makes the next one due |
| ConnectionLife.StepKeepsInv | matelib/TcpServer.cc:117-185 | Every step of any loop or other thread keeps the queues equal to what is due, and functors with only an address in front of what gives their connection up |
| ConnectionLife.StageStep | matelib/TcpServer.cc:117-185 | Each step brings its connection to the next stage if it is due, by a closing event or by its own functors, and leaves all other connections as they are |
| ConnectionLife.QueueStep | matelib/EventLoop.cc:127-148 | The queue of a loop is first in, first out: a step takes at most its first functor, and adds exactly the functors of that step behind the last |
| ConnectionLife.AcceptSpec | matelib/TcpServer.cc:149-164 | A new connection gets the next id, its name and its loop, and is in the map |
| ConnectionLife.RemovedWhen | matelib/EventLoop.cc:193-205 | A channel leaves its poller only in the last functor of its connection, on its own loop, while that handles no events |
| ConnectionLife.CrashIff | matelib/TcpConnection.cc:231-243 | From any state that keeps the invariant a step fails an assertion if and only if it is a hang-up without input but with urgent data whose read finds the end of the stream |
| ConnectionLife.Crashes | matelib/TcpConnection.cc:231-235 | A run with one connection and one such event, which fails the assertion |
| ConnectionLife.Safety | matelib/TcpServer.cc:149-185 | In every run over any number of loops without such an event: no assertion fails and no functor uses a connection that has been given up; a channel known to a poller, and every queued functor, belongs to a connection owned by the map or by a functor with a reference; up comes before down and each at most once; no channel is removed during event dispatch |
| ConnectionLife.DownIff | matelib/TcpConnection.cc:182-198 | In any run a connection is reported down if and only if an event has closed that very connection: a hang-up without input, or the end of the stream when reading |
| ConnectionLife.QueuedIsOwned | matelib/TcpConnection.cc:45-60 | A functor that send() or shutdown() has queued with only the address of the connection runs before the connection is given up, by the order of the queue |
| ConnectionLife.GivenUpIff | matelib/TcpServer.cc:174-185 | A connection is given up if and only if it has left its poller and both callbacks have been made |
| TcpServers.TcpServer.constructor | matelib/TcpServer.cc:52-66 | No connections |
| TcpServers.TcpServer.QueueInLoop | matelib/EventLoop.cc:137-142 | The functor joins the queue of its loop |
| TcpServers.TcpServer.HandleConnection | matelib/TcpServer.cc:149-165 | Names, stores and hands over the new connection |
| TcpServers.TcpServer.RemoveConnectionInLoop | matelib/TcpServer.cc:174-185 | Out of the map, and the last reference into the queue of the connection's loop |
| TcpServers.TcpServer.ConnectionEstablished | matelib/TcpConnection.cc:160-167 | Connected, registered, up callback |
| TcpServers.TcpServer.ConnectionDestroyed | matelib/TcpConnection.cc:170-179 | Removed from its poller; the assertion that no interest is left holds |
| TcpServers.TcpServer.HandleClose | matelib/TcpConnection.cc:231-243 | The assertion on the state holds; down callback, and the server is asked to forget the connection |
| TcpServers.TcpServer.RunInLoop | matelib/EventLoop.cc:127-135 | At once on the loop's own thread, queued otherwise |
| TcpServers.TcpServer.DoPendingFunctors | matelib/EventLoop.cc:221-239 | The batch is a legal run of exactly the functors that were queued |
| HttpRequests.TrimSpec | http/HttpRequest.h:108-115 | Trimming removes exactly spaces, tabulators, line feeds, form feeds and carriage returns around a value |
| HttpRequests.Tokens | http/HttpRequest.h:37-97 | The five methods and the two versions, with their texts |
| HttpRequests.HttpRequest.constructor | http/HttpRequest.h:30-33 | A fresh request |
| HttpRequests.HttpRequest.SetMethod | http/HttpRequest.h:46-70 | Accepts exactly the five known methods |
| HttpRequests.HttpRequest.AddHeader | http/HttpRequest.h:104-119 | Field and trimmed value replace an earlier header of the same name |
| HttpRequests.HttpRequest.Reset | http/HttpRequest.h:132-138 | Back to a fresh request |
| HttpParsing.TerminatesIff | http/HttpContext.cc:16-65 | The parsing loop ends if and only if it is not entered with the request complete |
| HttpParsing.ChunkIndependent | http/HttpContext.cc:12-67 | Parsing some bytes, then the rest unless complete, gives the result, state, request and leftover of parsing all of them at once |
| HttpParsing.AnyChunking | http/HttpContext.cc:12-67 | The same for any way to cut the bytes into pieces |
| HttpParsing.RequestLineAcceptedIff | http/HttpContext.cc:70-105 | A line is accepted if and only if it is a known method, a path and HTTP/1.0 or HTTP/1.1, one space apart; the request then holds exactly these parts |
| HttpParsing.HeadersComplete | http/HttpContext.cc:39-64 | Behind the request line the request is complete if and only if the input holds a line without a colon |
| HttpParsing.CompleteIff | http/HttpContext.cc:12-67 | A fresh parser completes exactly the inputs with a good request line and, behind it, a line without a colon, and refuses exactly those whose first line is bad |
| HttpParsing.HeadersRoundTrip | http/HttpContext.cc:41-54 | Printed headers are collected exactly |
| HttpParsing.RoundTrip | http/HttpContext.cc:12-105 | Printing a request and parsing it gives that request, complete, and leaves the bytes behind it unread |
| HttpParsing.HeaderMapRoundTrip | http/HttpRequest.h:104-119 | The same for a map of headers, printed in any order |
| HttpContexts.HttpContext.constructor | http/HttpContext.h:27-29 | Expects a request line |
| HttpContexts.HttpContext.Reset | http/HttpContext.h:56-59 | Back to a fresh parser |
| HttpContexts.HttpContext.ParseLine | http/HttpContext.cc:70-105 | Parses a request line in place |
| HttpContexts.HttpContext.ParseRequest | http/HttpContext.cc:12-67 | The loop over a real buffer computes the specification and leaves its leftover in the buffer |
| HttpContexts.OnMessage | http/HttpServer.cc:66-97 | Answers exactly the request the bytes make, leaves their rest in the buffer, never leaves a complete request behind, and resets the parser exactly when it answers |
| HttpContexts.AnswersRequest | http/HttpServer.cc:78-95 | The user callback gets the request that was sent, with its headers, as a complete one, whatever follows it |
| HttpContexts.AnswersFirstLine | http/HttpServer.cc:78-84 | For every input with a good first line the callback gets exactly its method, path and version |
| HttpContexts.AnswersExample | http/HttpServer.cc:78-84 | One request byte by byte, and what the callback gets |
| HttpContexts.ReplyKind | http/HttpServer.cc:72-96 | For every input: refused exactly on a bad first line, and answered as complete exactly when the request is complete; otherwise an unfinished request is answered |
| HttpContexts.EarlyAnswer | http/HttpServer.cc:76-95 | An unfinished request that is answered |
| Numerals.DecimalSound | matelib/base/LogStream.cc:20-38 | The text of a number is canonical and its value is the number |
| Numerals.DecimalComplete | matelib/base/LogStream.cc:20-38 | Every canonical text is the text of its value |
| Numerals.Examples | matelib/base/LogStream.cc:13-15 | Zero, a negative number and a hexadecimal one, digit by digit |
| Numerals.DecimalLength | matelib/base/LogStream.cc:70-73 | At most 20 characters for any signed or unsigned 64-bit number |
| Numerals.HexLength | matelib/base/LogStream.cc:133-140 | At most 16 digits for a pointer |
| LogStreams.ReverseRange | matelib/base/LogStream.cc:35-35 | Reverses a range in place and touches nothing else |
| LogStreams.PutDecimal | matelib/base/LogStream.cc:25-29 | With truncating division the digits come out last to first, also for the least number |
| LogStreams.ConvertInt | matelib/base/LogStream.cc:20-38 | Writes exactly the decimal text and a terminator, in at most 21 characters |
| LogStreams.ConvertHex | matelib/base/LogStream.cc:41-56 | The same in base sixteen |
| LogStreams.FixedBuffer.Append | matelib/base/LogStream.h:32-38 | All of the text or nothing |
| LogStreams.FixedBuffer.Reset | matelib/base/LogStream.h:46-46 | Empties the buffer |
| LogStreams.LogStream.FormatInteger | matelib/base/LogStream.cc:67-74 | Appends the decimal text, or nothing when fewer than 32 bytes are free; the guard always suffices |
| LogStreams.LogStream.FormatPointer | matelib/base/LogStream.cc:129-142 | The same for 0x and hexadecimal digits |
| Serialization.PodRoundTrip | rpc/Serializer.h:139-181 | A value of fixed size survives in either byte order, with everything behind it |
| Serialization.StringArrives | rpc/Serializer.h:153-201 | In a little-endian stream any string can be sent, and arrives cut at its first NUL and to 16 bits of length, in front of what the target held |
| Serialization.WireForm | rpc/Serializer.h:183-197 | The length comes first, low byte first in a little-endian stream and high byte first in a big-endian one, and then the text |
| Serialization.StringRoundTripIff | rpc/Serializer.h:183-201 | In either byte order a string survives if and only if it has no NUL, fewer than 65536 bytes and, in a big-endian stream, a length of two equal bytes |
| Serialization.ListArrives | rpc/Serializer.h:94-113 | Unpacking a packed argument list gives what arrives of each argument, and leaves what follows |
| Serialization.ListUnchangedIff | rpc/Serializer.h:102-107 | The list arrives unchanged if and only if its strings are free of NUL and shorter than 65536 bytes |
| Serializers.Serializer.constructor | rpc/Serializer.h:34-37 | An empty stream |
| Serializers.Serializer.Clear | rpc/Serializer.h:73-76 | Empties the stream |
| Serializers.Serializer.Reverse2LittleEndian | rpc/Serializer.h:58-62 | Reverses in place, in a big-endian stream |
| Serializers.Serializer.Input | rpc/Serializer.h:171-181 | Appends the encoding of a value |
| Serializers.Serializer.InputString | rpc/Serializer.h:183-201 | Length and text, with the length swapped before it is used |
| Serializers.Serializer.Output | rpc/Serializer.h:139-151 | Takes a value off the stream, or leaves the target alone when there are too few bytes |
| Serializers.Serializer.OutputString | rpc/Serializer.h:153-168 | Takes a string off the stream and puts it in front of the target; says when an assertion would fail |
| Serializers.Serializer.PackageArgs | rpc/Serializer.h:102-113 | Appends the encodings from the first argument to the last |
| Serializers.Serializer.GetTuple | rpc/Serializer.h:94-100 | Takes the arguments off in the same order |
| RpcProtocol.Answered | rpc/RpcServer.cc:46-62 | What the server sends for any packed call: the result on what arrives of the arguments, or the refusal |
| RpcProtocol.ReplyArrives | rpc/Serializer.h:240-251 | A successful reply is decoded completely, with its value |
| RpcProtocol.RefusalArrives | rpc/RpcServer.cc:53-55 | A refusal is decoded to the not-bound code and its message, without a value |
| RpcProtocol.CallOverTheWire | rpc/RpcServer.cc:46-62 | For every table of functions and every call the client decodes exactly the result of the function on what arrives of the arguments, or the refusal, with nothing left over |
| RpcProtocol.RemoteIsLocal | rpc/RpcServer.h:168-184 | With strings free of NUL and shorter than 65536 bytes a remote call is the bound function itself applied to the arguments in their order, or one zero byte for void; the refusal carries the full name |
| RpcProtocol.WireForms | rpc/Serializer.h:214-251 | The bytes of a success, of a refusal and of a timeout: code, message, value |
| RpcProtocol.TimesOutIff | rpc/RpcClient.h:53-89 | A call fails if and only if an earlier one timed out, the write was short or nothing could be read; otherwise it returns the remote result |
| RpcProtocol.ServeFailsIff | rpc/Serializer.h:153-168 | On any message the server fails an assertion if and only if a length mark or the text it announces is cut short, in the name or in the arguments of a bound function |
| RpcProtocol.CutNameFails | rpc/RpcServer.cc:46-49 | A call of which one read delivers only a part of the name makes the server fail |
| RpcProtocol.BoundCallableIff | rpc/RpcServer.h:66-71 | Binding replaces what was bound under the name and affects no other call; the function can be called from then on if and only if its name has no NUL and fewer than 65536 bytes |
| Rpc.RpcServer.OnMessage | rpc/RpcServer.cc:40-64 | Sends exactly the specified answer, and leaves its stream and the connection's buffer empty |
| Rpc.RpcServer.CallProxy | rpc/RpcServer.h:168-184 | Decodes the arguments, clears the stream, applies the function itself to them, and encodes a successful reply |
| Rpc.RpcClient.Pack | rpc/RpcClient.h:26-34 | Name and arguments go into the stream |
| Rpc.RpcClient.NetCall | rpc/RpcClient.h:51-89 | The result, the latched timeout and the stream after every combination of write and read results, for every answer that one read can deliver |
| Rpc.RemoteCall | rpc/RpcClient.h:25-89 | A whole call through both objects gives the remote result, and afterwards both streams and the connection's buffer are empty |

## Left out

- `old-version/`: an earlier copy of the same components.
- System calls: parameters or nondeterministic actions, as described above; that `timerfd_settime` forgets an expiry not yet read is assumed.
- Memory model: unlocked accesses to `state_`, `running_` and `quit_` are atomic; `shutdown()`, and the test of the state in `send()` together with the queueing, are one step each, so that a close between the two is not covered.
- Log buffers in `AsyncLogging`: identities into a store of contents, so that their 4 MB arrays and the copying into them are not modelled; `FixedBuffer` is modelled on an array in `LogStream.dfy`.
- `Buffer` storage: a sequence that is replaced, since the source's vector changes its size; aliasing pointers into it are offsets.
- `EventLoops.EventLoop.DoPendingFunctors`: no other thread takes part in this call; the protocol module covers every interleaving.
- `ConnectionLife.Safety`: covers runs before the server is destroyed, with fewer than 2^32 connections accepted.
- TcpServer destruction, TcpClient and its reconnecting, and the choice of a loop by round robin.
- Message callbacks and `handleError`: they do not change the stage of a connection, and are not steps of `ConnectionLife`.
- Timer intervals and `%.12g`: floating point; intervals are whole microseconds.
- HttpResponse: what is answered is the parsed request and whether it was complete.
- HttpContext of a thread: the source shares one among all connections of a loop; the model has one parser and one buffer at a time.
- RPC byte order: the wire theorems about whole calls are for the little-endian default; reading beyond a string in a big-endian stream is undefined in the source and an error result here.
- RPC types: values of fixed size are their bytes and strings their characters; template instantiation and member function pointers are not modelled, a bound function is a pure function of its arguments.
- LogFile, Logging, Timestamp, Thread, ThreadLocal, Singleton, InetAddress: wrappers around the operating system and the C++ library.
- Liveness under a scheduler, beyond `LoopProtocol.WakeupSuffices` and `LogProtocol.FinishWrites`.
