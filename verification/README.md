# Warren: a verified model of its concurrent core

Warren is a RabbitMQ client. This project models the parts of it whose guarantees are about
interleavings, bookkeeping that must agree, or rewriting that must keep its meaning, and proves
those guarantees with Dafny. `dafny verify dfyconfig.toml` checks everything.

A protocol is a state machine: a `State`, an `Action` per step between two synchronisation points
(a lock, a channel operation, an atomic swap, a frame on the wire), a total `Next` in which a step
that cannot happen changes nothing, and `Run` over a list of actions. A theorem about
`Run(actions)` for every `actions` is a theorem about every interleaving. Code that updates
objects in place is a class with methods proved against a specification function, and loops stay
loops. Goroutines become entries of a map from their number to their program counter. Clocks,
randomness, the network, the broker and user callbacks are actions or parameters.

| file | what it models |
|---|---|
| `ConfirmSpec.dfy`, `Tracker.dfy` | the publisher-confirm tracker, as a plain map and with its sorted index |
| `Demux.dfy`, `DemuxProof.dfy` | the path of returns and confirms from the wire to a waiter |
| `ConfirmWire.dfy` | what the frames handled on a channel say about one published message, and that the tracker keeps to it |
| `PublishBatch.dfy` | `publishOnce` and `PublishBatch` over the tracker, with the demux goroutine running between any two steps |
| `Replier.dfy` | concurrent RPC replies on one shared, reopened confirm channel |
| `ChannelPool.dfy` | the token-and-free-list channel pools |
| `Dispatch.dfy`, `CounterB.dfy` | settlement of one delivery; the in-process redelivery counter |
| `BatchVerdict.dfy`, `BatchLoop.dfy` | the single batch-level frame, and what a multiple=true frame settles at the broker |
| `Supervisor.dfy`, `WaitBarrier.dfy` | the connection supervisor, its reconnect barrier, and the callers that wait at it |
| `Redeclare.dfy` | the single-flight topology redeclare |
| `Topology.dfy`, `TopologyProof.dfy`, `TopologyExpand.dfy` | topology validation and expansion, their laws, and expansion as loops |
| `RateLimiter.dfy` | the publish rate limiter |
| `SeenCache.dfy` | the dedupe cache of the idempotent-consume example |
| `Optional.dfy` | the option type the others share |

## Promises that hold only under a condition

Most of these are made in the source's comments. For each there is a run or an input that breaks
it and a lemma that says when it holds.

- The rate limiter's comment says throughput never exceeds the configured rate. Integer division
  rounds the interval down, so it does unless the rate divides a second or is above a grant per
  nanosecond (`RateLimiter.RateExceeded`, `RateLimiter.RateKeptIff`).
- `waitBarrier` reports that the cap was exceeded to a caller that never armed a deadline, because
  the zero time is in the past: a caller asleep on flow control gets that error as soon as something,
  such as the end of another caller's context, wakes it during a reconnect (`WaitBarrier.CapAtOnce`;
  exactly then, `WaitBarrier.CapEarlyIff`).
- `waitBarrier` can answer nil while the last barrier that finished had failed, when the degraded
  error is read inside the next barrier, after that one cleared it (`WaitBarrier.ReadyMidRecovery`;
  `WaitBarrier.ReadyMeans` has the exact condition).
- A caller whose context ended is told that the connection is blocked also when it is not
  (`WaitBarrier.BlockedNoMore`; exactly when the gate is open, `WaitBarrier.EndedWrongIff`).
- The degraded metric is documented to count transitions and counts failures
  (`WaitBarrier.MetricOvercounts`, `WaitBarrier.MetricCountsEdgesIff`).
- Expanding a topology twice changes it exactly when an undeclared dead-letter source is itself an
  auto-created dead-letter queue (`TopologyProof.ChainedExample`, `TopologyProof.ExpandTwiceIff`).
- The plain channel pool loses a token when opening a channel panics; the publisher pool has a
  guard against it (`ChannelPool.PanicLosesToken`, `ChannelPool.ConservedIffGuarded`).

The model follows the code in each case.

## Model

| member | source | states |
|---|---|---|
| ConfirmSpec.FirstVerdictIsFinal | internal/confirms/tracker.go:238-251 | whatever calls follow, a waiter keeps the first verdict it was given |
| ConfirmSpec.ExecAccounts | internal/confirms/tracker.go:92-229 | after any calls, a waiter without a verdict is in the map or was dropped, never both |
| ConfirmSpec.DroppedIffAbandoned | internal/confirms/tracker.go:182-229 | a waiter is dropped exactly by a Wait that gave up on it or a second registration of its tag |
| ConfirmSpec.CloseAllResolvesTheRest | internal/confirms/tracker.go:144-158 | after CloseAll a waiter is unresolved exactly when it had been abandoned before |
| ConfirmTracker.Replay | internal/confirms/tracker.go:92-334 | any sequence of calls on the indexed tracker is answered as the plain map answers it; compaction copies, and for ascending tags forward moves, total at most the registrations |
| ConfirmTracker.Tracker.Register | internal/confirms/tracker.go:92-102 | adds a waiter unless closed, keeps every unresolved tag in the live window, and leaves the index at most 64 longer than its live part or twice it |
| ConfirmTracker.Tracker.MarkReturned | internal/confirms/tracker.go:107-114 | marks the tag's waiter and nothing else |
| ConfirmTracker.Tracker.Settle | internal/confirms/tracker.go:118-138 | one tag, or every live waiter up to the tag, latches its outcome; after a multiple frame the index is compact |
| ConfirmTracker.Tracker.CloseAll | internal/confirms/tracker.go:144-158 | unresolved entries get ErrClosed and leave, resolved ones stay for Wait |
| ConfirmTracker.Tracker.Cancel | internal/confirms/tracker.go:164-174 | the entry is resolved if need be and removed |
| ConfirmTracker.Tracker.Lookup | internal/confirms/tracker.go:182-188 | Wait finds the tag's own waiter |
| ConfirmTracker.Tracker.Receive | internal/confirms/tracker.go:212-213 | Wait's first receive yields the latched verdict |
| ConfirmTracker.Tracker.Forget | internal/confirms/tracker.go:214-228 | Wait leaves no entry behind |
| ConfirmTracker.Tracker.ResolveOne | internal/confirms/tracker.go:238-251 | latches the outcome once; a return turns an ack into Unroutable and leaves a nack |
| ConfirmTracker.Tracker.ResolveUpTo | internal/confirms/tracker.go:267-275 | walking the index from the low-water mark settles exactly the live waiters up to the tag |
| ConfirmTracker.Tracker.OrderInsert | internal/confirms/tracker.go:287-298 | the index stays sorted and the tag lands in the live window, also out of order or repeated |
| ConfirmTracker.Tracker.AdvanceLowWater | internal/confirms/tracker.go:304-312 | what is left of the live window is the window without its leading tags that are no longer pending |
| ConfirmTracker.Tracker.CompactOrder | internal/confirms/tracker.go:322-334 | the live window is unchanged, and the index is at most 64 longer than it or twice as long |
| ConfirmTracker.SettledAll | internal/confirms/tracker.go:253-275 | settling the tags walked is settling all live waiters up to the tag |
| ConfirmDemuxProof.Always | publisher.go:242-288 | the demux invariant holds in every interleaving when the return channel is unbuffered |
| ConfirmDemuxProof.InvIsFaithful | publisher.go:760-789 | a waiter still in the map whose confirm was taken has the verdict the wire says: Unroutable with that return's code, never nil, if a return came before the ack; ErrClosed only if the demux goroutine went away first; OnReturn ran before |
| ConfirmDemuxProof.BufferedLosesReturn | publisher.go:222-231 | with any return buffer there is a schedule that confirms a returned message |
| ConfirmDemuxProof.FaithfulIffUnbuffered | publisher.go:217-288 | every schedule is faithful if and only if the return channel is unbuffered |
| ConfirmWire.FrameTies | publisher.go:249-285 | after one more frame through the demux goroutine the waiter of every outstanding message still stands as all frames handled since its registration say: the verdict, the return mark, and which MessageIDs can still mark it |
| ConfirmWire.ConfirmedIff | internal/confirms/tracker.go:116-158 | the frames say confirmed exactly when the first one to settle the tag is a positive confirm of it and no return named the message before |
| ConfirmWire.AckedIff | internal/confirms/tracker.go:116-127 | the frames say confirmed or unroutable exactly when the first one to settle the tag is a positive confirm of it, whatever was returned |
| ConfirmWire.UnroutableIff | internal/confirms/tracker.go:238-251 | the frames say unroutable exactly when that first one is a positive confirm that follows a return of the message; the code is the first such return's |
| ConfirmWire.OthersDoNotMatter | publisher.go:262-270 | the returns and confirms of all other messages change nothing about a message |
| PublishBatch.Channel.Handle | publisher.go:249-285 | one turn of the demux goroutine: which tracker call a frame becomes, and which return tag it consumes; the frame is logged |
| PublishBatch.Channel.PublishOne | publisher.go:962-994 | exactly the turn's frames are handled; the message is refused exactly if a close was among the frames handled before its registration, otherwise its write fails, or it is written under the next sequence number and its waiter stands as the frames since say; no other message is disturbed |
| PublishBatch.Channel.WaitOne | internal/confirms/tracker.go:182-229 | exactly the wait's frames are handled, the tag is removed, and the report is what the frames from the message's registration to the end of the wait say: given up only if cut short or if none of them settles the tag |
| PublishBatch.Channel.PublishOnce | publisher.go:724-789 | the same for a whole publish; nil exactly when the message was written, its wait was not cut short, and the first frame since its registration to settle its own tag is a positive confirm with no return of it before; no tag pending and no MessageID mapped afterwards |
| PublishBatch.Channel.PublishAll | publisher.go:953-995 | every encoded message is attempted in input order, exactly the turns' frames are handled, written ones take consecutive tags and stand as the frames say, and each other slot has the error of where its message stopped |
| PublishBatch.ReturnsAreOwn | publisher.go:868-888 | with distinct IDs no written message is known under the ID of another one, unless that one's write failed |
| PublishBatch.UnroutableIsOwn | publisher.go:868-888 | with distinct IDs a slot of a mandatory batch is unroutable exactly when its wait took a positive confirm that followed a return of this very message, with that return's code, given that the broker returns only written messages |
| PublishBatch.NoRepeatIsDistinct | publisher.go:868-888 | the duplicate check makes the IDs distinct, given that generated ones are unique |
| PublishBatch.Channel.WaitAll | publisher.go:1004-1012 | every written message is waited for in order, exactly the waits' frames are handled, each slot is what its message's frames say, and none of the batch's tags stays pending |
| PublishBatch.Channel.Unmap | publisher.go:1025-1031 | exactly the encoded messages' IDs leave the return map |
| PublishBatch.HasRepeat | publisher.go:874-888 | true exactly when two messages carry the same explicit ID |
| PublishBatch.MapVerdict | publisher.go:1058-1073 | nil for a clean confirm only |
| PublishBatch.ReportsNilIff | internal/confirms/tracker.go:176-181 | a wait reports nil exactly when it was not cut short and the first frame to settle its tag, from registration to the end of the wait, is a positive confirm with no return of the message before |
| PublishBatch.PublishOn | publisher.go:953-1041 | for any mix of failures and any frames in between: exactly the turns' frames are handled; a slot is nil or unroutable iff its message was written, its wait was not cut short and the first frame to settle its own tag between its registration and the end of its wait is a positive confirm; it is nil iff, besides, no return of it came before (with distinct IDs, if mandatory); every other slot has the error the frames or the failure call for; the overall error is nil iff all slots are, and nothing of the batch stays pending or mapped |
| PublishBatch.PublishBatch | publisher.go:855-1041 | the same for the whole call, with its early returns, which touch neither tracker nor return map; a mandatory batch that gets through has distinct IDs if generated ones are unique |
| Replier.AckedOnlyIfConfirmed | rpc_replier.go:80-139 | in every run a request is acked only after the broker confirmed the tag its own reply was written under; every other finished request was nacked without requeue |
| Replier.ConfirmedIsNotDropped | rpc_replier.go:167-211 | a request whose wait took a positive confirm is never dropped, and no two requests own the same tag |
| Replier.NextKeeps | rpc_replier.go:167-220 | each step keeps the invariant: under the lock the registered tag is the channel's next sequence number, also across reopened channels |
| ChannelPool.PoolSafe | channelpool.go:57-137 | in every interleaving every token is in the semaphore, out, or lost to a panic in opening; at most `size` channels are idle, held or being opened, each in one place; the overflow branch is never taken and returning a token never blocks |
| ChannelPool.PanicLosesToken | channelpool.go:64-68 | without a guard a panic in opening shrinks the pool for good |
| ChannelPool.ConservedIffGuarded | publisher.go:105-115 | tokens are conserved in every interleaving if and only if the deferred guard is there (or the pool is empty) |
| ChannelPool.NextBalanced | publisher.go:86-165 | the publisher pool's copy: each step conserves tokens and the bound on channels |
| ChannelPool.NextExclusive | publisher.go:123-153 | no step puts one channel in two places |
| Dispatch.AtMostOneFrame | delivery.go:98-167 | in every interleaving of dispatch, the timeout and concurrent Ack and Nack calls at most one frame is written |
| Dispatch.ConsumeSettlesOnce | consumer.go:1514-1687 | on the manual-ack Consume path exactly one frame, the one the outcome or the timeout calls for, unless the channel or consumer closed or the context ended; none under broker acks |
| Dispatch.DispatchSettles | consumer.go:1805-1824 | each dispatch step keeps what that rests on |
| CounterB.Counter.ApplyOne | consumer.go:1731-1783 | verdict and counts of a single delivery are those of a batch of one |
| CounterB.Counter.ApplyBatch | batch_consumer.go:589-657 | a batch raises all its distinct keys by one or clears them all, and the fast path agrees with the general one |
| CounterB.CountBounded | consumer.go:1731-1783 | no count exceeds the limit |
| CounterB.RequeuesAddUp | consumer.go:1731-1783 | while a key is only requeued its count is the number of requeues |
| CounterB.RequeuesBounded | batch_consumer.go:589-657 | between two non-requeue verdicts a key is requeued at most `limit` times, whatever keys share its batches |
| CounterB.RequeuedUntilLimit | consumer.go:1731-1783 | a single delivery is requeued exactly while its key has been requeued fewer than `limit` times since it was last cleared |
| BatchVerdict.Highest | batch_consumer.go:98-109 | the largest tag of the batch, none for an empty one |
| BatchVerdict.AtMostOneFrame | batch_consumer.go:70-133 | in every interleaving of Ack, Nack, the automatic and the timeout verdict at most one batch frame, on a tag of the batch that bounds all its tags |
| BatchVerdict.FlushEmitsOneFrame | batch_consumer.go:328-397 | a finished flush emitted exactly one frame, or a caller left behind by the handler is about to, unless cancelled or settled singly |
| BatchVerdict.LoopKeeps | batch_consumer.go:502-527 | each step of the loop keeps that whoever sets `acked` emits |
| BatchLoop.SweepIsExact | batch_consumer.go:98-133 | what the broker settles on a frame are the batches of the channel from the first unsettled one up to the frame's own, or nothing |
| BatchLoop.FrameSettlesItsBatch | batch_consumer.go:289-496 | on every run, with frames sent during a flush or later: a batch holds deliveries of one channel and its frame goes there; while the broker has that channel the frame settles exactly its batch if and only if the batch before has sent its frame and no later one has, misses part of its batch if and only if a later batch's frame came first, and settles nothing that was nacked singly; afterwards it settles nothing |
| BatchLoop.LateFrameIsLost | batch_consumer.go:415-419 | on every run a frame of a batch from a channel the loop has left settles nothing on any channel, the new one included |
| Supervisor.InvKept | connection.go:726-965 | every step of supervisor and barrier keeps the invariant |
| Supervisor.StepKeepsGate | connection.go:834-965 | no step of a barrier leaves a nil socket with the gate open, and a capped barrier leads back to the dialler |
| Supervisor.MoveKeepsGate | connection.go:726-825 | no step of the watch loop or the dialler does either, and none disturbs a barrier |
| Supervisor.PassedOrFailed | connection.go:860-870 | a barrier's hooks ended without error exactly when every snapshotted hook ran, in order, and returned nil |
| WaitBarrier.SupervisorSurvives | connection.go:726-749 | with a live context a nil socket at the loop head means boot-degraded or reconnecting; the supervisor ends only on a quiet close or exhausted dialling, and after a capped barrier only the latter |
| WaitBarrier.GateReopens | connection.go:797-965 | `reconnecting` is cleared only by a finished barrier, exhausted dialling or shutdown |
| WaitBarrier.DegradedOncePerEdge | connection.go:918-943 | degraded iff the error is set; the callback is launched once per rising edge with that edge's error |
| WaitBarrier.MetricCountsEdgesIff | connection.go:918-926 | the degraded metric counts transitions exactly while no barrier fails right after a failed one |
| WaitBarrier.MetricOvercounts | metrics/metrics.go:48-49 | a run with one transition after which the metric is at two |
| WaitBarrier.ReadyMeans | connection.go:976-1043 | a nil answer: the call's last look saw the gate open; at its read the last barrier to decide had all hooks passed in order, and the last finished barrier was complete with its callback exactly when the read was not inside a recovering barrier |
| WaitBarrier.ReadSaw | connection.go:1031-1043 | an answer read from the degraded state: the call's last look saw the gate open and at its read the error was the one it reports |
| WaitBarrier.EndedSaw | connection.go:1015-1025 | a context error comes from a wake of the call with its context ended and names the reconnect flag at that wake |
| WaitBarrier.EndedWrongIff | connection.go:1020-1025 | such a wake wrongly names flow control if and only if the gate is open |
| WaitBarrier.CapIff | connection.go:985-1029 | a wake answers the cap error if and only if it sees a reconnect that no look of the call has seen, or that the call first saw at least the cap ago |
| WaitBarrier.CapEarlyIff | connection.go:989-1001 | a cap error comes sooner than the cap after the call first saw the reconnect if and only if the call's last look saw none (and the cap is positive) |
| WaitBarrier.CapSaw | connection.go:1026-1029 | every cap error comes from such a wake of the call, with its last look and first sight |
| WaitBarrier.CapAtOnce | connection.go:1006-1029 | a run in which the cap error comes with the clock standing still, on the wake-up that the end of another caller's context causes |
| WaitBarrier.BlockedNoMore | connection.go:1020-1025 | a run in which a caller is told of flow control that is over |
| WaitBarrier.ReadyMidRecovery | connection.go:938-965 | a run with a nil answer while the only finished barrier had failed |
| Redeclare.RedeclareSafe | topology.go:245-281 | in every interleaving one redeclare runs at a time, each success started the window after every earlier one ended, and success is reported only by the caller's own run or one within the window |
| Redeclare.NextKeeps | topology.go:245-281 | each step keeps the invariant behind it |
| TopologyProof.CouplingIsExpansion | topology.go:442-483 | what validation and the warning read about a queue is what expansion writes |
| TopologyProof.AtLeastOnceRejectsPublish | topology.go:760-789 | in the expansion of an accepted topology every at-least-once quorum queue with a dead-letter exchange has an overflow that reads as reject-publish |
| TopologyProof.OverflowAfter | topology.go:506-522 | the warning fires exactly for the queues whose overflow expansion filled in; all others keep their own |
| TopologyProof.ArgAfter | topology.go:661-789 | every argument of an expanded queue: added by the last pass, else written by the last dead letter that writes it, else the caller's |
| TopologyProof.ExpandKeepsEntries | topology.go:592-792 | the caller's entries stay a prefix, only queue arguments change, and names stay unique |
| TopologyProof.DeadLetterWired | topology.go:660-737 | each dead letter of a declared source has its exchange and queue, and they are bound |
| TopologyProof.SourceNamesBoundExchange | topology.go:661-690 | each declared source names an exchange that exists and is bound to its queue |
| TopologyProof.ChainedChanges | topology.go:661-671 | a second expansion of a chained topology finds the source it skipped and changes the result |
| TopologyProof.ChainedExample | topology.go:661-671 | an accepted topology, one queue with dead letters for it and for its dead-letter queue, that a second expansion changes |
| TopologyProof.ExpandTwiceIff | topology.go:592-792 | expanding again changes nothing if and only if no undeclared source is an auto-created dead-letter queue |
| TopologyProof.InjectAt | topology.go:672-690 | each argument after one dead letter: what it writes under that name, else what was there |
| TopologyExpand.FinishQueue | topology.go:739-789 | the last pass over a queue |
| TopologyExpand.ExpandTopology | topology.go:592-792 | the loops, with their index maps, compute the expansion the laws are about |
| RateLimiter.NewConfig | publisher_rate_limiter.go:30-44 | a limiter exactly for positive rates, with a positive interval |
| RateLimiter.Limiter.Reserve | publisher_rate_limiter.go:51-64 | the wait and the cursor of the recurrence below |
| RateLimiter.Pace | publisher_rate_limiter.go:51-64 | any sequence of calls on one limiter is released when the recurrence says, and never waits a negative time |
| RateLimiter.WindowBound | publisher_rate_limiter.go:46-64 | for clock readings in any order and any callers that gave up, at most perSec + L/interval grants are released in any window of length L |
| RateLimiter.WindowBoundIsTight | publisher_rate_limiter.go:46-64 | the bound is reached |
| RateLimiter.RateExceeded | publisher_rate_limiter.go:30-44 | when the intervals of a second's grants do not fill a second, some window releases more than the configured rate |
| RateLimiter.RateKeptIff | publisher_rate_limiter.go:46-50 | the configured rate is kept if and only if it divides a second or exceeds a grant per nanosecond |
| RateLimiter.WaitIsLeaky | publisher_rate_limiter.go:14-20 | for nondecreasing clocks the cursor gives the waits of a continuous-state leaky bucket |
| SeenCache.Cache.MarkSeen | examples/idempotent_consume/main.go:285-314 | reports a first sight unless the id is among the `capacity` most recently called and its last first sight has not expired; list and index agree |
| SeenCache.Bounded | examples/idempotent_consume/main.go:303-313 | list and index have the same size, within capacity |
| SeenCache.KeptIff | examples/idempotent_consume/main.go:285-314 | an id is kept exactly while fewer than `capacity` distinct others were called since |
| SeenCache.DuplicateDetected | examples/idempotent_consume/main.go:281-300 | a duplicate within the time to live, with fewer than `capacity` distinct others since, is reported as one |

## Left out

- The AMQP driver, sockets, TLS, dialling and its backoff. Used of them: tags ascend per channel, a failed write does not use up its sequence number, the broker returns a message before it confirms it, and one synchronous reader dispatches frames.
- Codecs, tracing, metrics other than the degraded counter, and loggers: wrappers without hard state.
- Liveness: that a `waitBarrier` caller is woken, that a wait for a confirm ends, that a redeclare finishes.
- `NextBackoff`: floating-point jitter and randomness.
- Counter rotation when a resume races a channel reopen.
- Per-delivery and batch verdicts mixed in one batch: the code promises no single frame there. `BatchVerdict` tracks it as `single`.
- Requeueing of prefetched deliveries at shutdown, x-death summing, the byte limiter, pool selection, builders and error classification: easy members.
- Integer widths: tags, clocks and counts are unbounded. The rate limiter's two durations stay below the larger of a second and the rate in nanoseconds.
- ConfirmDemuxProof.Always: assumes at most one outstanding publish per MessageID on a channel, and takes storing, registering and writing as one step, since no frame about a tag exists before its write.
- PublishBatch.PublishOn: in a mandatory batch with a repeated MessageID it is not said which acked messages come out nil and which unroutable; the call rejects repeated explicit IDs, and generated ones are meant to be unique. One publisher at a time uses a channel, as the pool sees to. A wait that is still without a verdict when its frames end counts as given up.
- PublishBatch.UnroutableIsOwn: a return that names a message whose write failed is not excluded by the code, which would count it for the next message that takes the tag; a broker does not send one.
- Replier.AckedOnlyIfConfirmed: the encode error, the missing reply address and the handler error are one outcome class; the error callback and the drop metric are not modelled.
- ChannelPool.PoolSafe: a holder releases once, as the contract of release asks.
- Supervisor.InvKept: hooks of a capped or cancelled barrier may run on; they touch none of the state modelled.
- TopologyExpand.ExpandTopology: argument maps are values, so that the source's copying of them before writing is not a statement here; argument names the code neither reads nor writes are `Custom` keys.
- The mutual exclusion of each critical section, and that Go's channels and condition variables behave as specified, is taken as given: concurrent machines are modelled on values, one action per critical section.
