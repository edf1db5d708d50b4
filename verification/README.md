# Verified models of the concurrency, protocol and parsing cores

This project models the parts of the repository whose correctness is hardest to see and proves
what they promise.

* **Readiness queue** (`ReadinessQueue.dfy`, `ReadinessNodes.dfy`, `ReadinessSteps.dfy`,
  `ReadinessRuns.dfy`, `ReadinessProjection.dfy`, `QueueProgress.dfy`, `ReadinessEvents.dfy`,
  `ReadinessDelivery.dfy`, `ReadinessCalls.dfy`): the intrusive multi-producer queue of `corcovado`,
  then the registered nodes on top of it with their state word, token buffer, update lock and
  reference counts. Each is a transition system with one step per atomic operation, for any number
  of threads; the invariants are inductive over all interleavings, and every run of the nodes
  projects to a run of the queue. What readiness, interest and events can be is proved over every
  run, and that every call gets through and a poll delivers what waits when nobody steps in between.
* **Poll lock** (`PollLock.dfy`) and **channel counter** (`Channel.dfy`): two small lock-free
  protocols, in the same style.
* **Timer** (`TimerWheel.dfy`, `TimerWakeup.dfy`, `TimerRegistration.dfy`): the hashed wheel as a
  class that refines a set of timeouts ordered by tick and newest insertion, the protocol with its
  wakeup thread, and the two together at the moment of registration.
* **Terminal parser** (`CopaParams.dfy`, `CopaUtf8.dfy`, `CopaMachine.dfy`, `CopaParser.dfy`,
  `CopaForget.dfy`, `CopaChunks.dfy`, `CopaSequences.dfy`, `CopaEscapes.dfy`): the parser as a class over its buffers,
  proved equal to a machine that reads one unit at a time, and theorems about that machine.
* **Workspace lifecycle** (`CloudTypes.dfy`, `CloudRegistry.dfy`, `CloudRuns.dfy`,
  `CloudCoordinator.dfy`, `CloudCommands.dfy`, `CloudManager.dfy`, `CloudDocker.dfy`,
  `CloudProvider.dfy`, `CloudOutcomes.dfy`, `CloudLifecycle.dfy`, `CloudEndToEnd.dfy`): the durable
  registry, the host's replacement of an expired machine on top of it, the container provider's
  ledger and containers, and registry and provider composed, under crashes, lost and stale replies
  and requests that are executed late or repeatedly, and end to end when nothing goes wrong.
* **Redactor** (`Redactor.dfy`): the streaming matcher and the capture loop around it.

`Common.dfy` holds what they share.

`dafny verify dfyconfig.toml` checks everything.

## Where the code does less than one would expect

* The drain when a readiness queue is dropped stops at the first empty answer. A producer between
  its head CAS and its link store makes the queue answer empty with nodes behind, which the
  drain then does not release. `MpscQueue.EmptyExactlyWhenNothingHalfPushed` gives the exact
  condition and `MpscQueue.DrainCanMissANode` a run; `ReadinessProjection.KeepsReference` says which
  nodes keep the queue's reference and `ReadinessProjection.LeftBehindForever` that those left in the
  chain keep it for good.
* A closed queue with nothing but a marker in front of the closed marker answers once that it is
  inconsistent, though no push is half done: `QueueProgress.DequeueAloneIsEmpty` gives the exact
  condition and `QueueProgress.ClosedIsInconsistent` the answer.
* Cutting the parser's input inside a two-byte character is not always harmless.
  `CopaChunks.ChunkIndependence` gives the exact condition; `CopaChunks.SplitControlIsPrinted` and
  `CopaChunks.SplitLosesLetter` are the two ways it fails.
* `cancel_timeout` compares the slab key and the tick only, so a handle can cancel a later timeout.
  `TimerWheel.CancelsAnotherExactlyWhenReused` gives the exact condition over all runs,
  `TimerWheel.UniqueHandleCancelsItsOwn` what a caller can check, and `TimerWheel.ReusedKeyExample`
  a run.
* Registering a timer schedules its next tick, but entering a slot forgets the cached tick, so in
  the middle of a slot the next tick can be later than a timeout that is due, and that timeout is
  then slept through until another wakeup. `TimerRegistration.RegisteringLosesExactlyWhenOverlooking`
  gives the exact condition, `TimerRegistration.RegisteringAfterAnEmptyPollIsSafe` what a caller can
  check, and `TimerRegistration.RegisteringInTheMiddleExample` a run.

## Conventions

Atomic operations are sequentially consistent. What the environment decides is a parameter or a
step of its own: the clock, the slab's choice of a vacant key, how a durable write ends, whether a
command took effect, the provider's reply, spurious wakeups. A rename is an atomic write. Hashes are
injective, so a container's name is a fixed prefix and its generation. A performer's calls are the
sequence of actions a parser emits. `simdutf8` and `memchr` are modelled by what they are documented
to return.

## Model

| member | source | states |
|---|---|---|
| MpscQueue.InitInv | corcovado/src/poll.rs:2156-2176 | The empty queue, its end marker at both ends, satisfies the invariant of the queue |
| MpscQueue.BeginInv | corcovado/src/poll.rs:2391-2399 | A thread may enter `enqueue_node` with a node that is neither queued nor owed by another thread without disturbing chain, markers or wakeups |
| MpscQueue.PushInv | corcovado/src/poll.rs:2400-2433 | Each atomic operation of `enqueue_node` (clear the link, load the head, win or lose the CAS, be turned away by the closed marker, store the link) keeps the invariant with any number of other producers in between |
| MpscQueue.FinishInv | corcovado/src/poll.rs:2420-2433 | Returning from `enqueue_node`, with or without a wakeup to deliver, keeps the invariant |
| MpscQueue.ConsInv | corcovado/src/poll.rs:2437-2527 | Each atomic operation of `dequeue_node`, `clear_sleep_marker` and `prepare_for_sleep` keeps the invariant |
| MpscQueue.StepInv | corcovado/src/poll.rs:2391-2527 | The chain from tail to head stays duplicate-free, every link is stored or owed by exactly one thread, the sleep marker is only the tail, and the end marker is never beside it |
| MpscQueue.RunInv | corcovado/src/poll.rs:2391-2527 | That invariant holds in every state of every interleaving of any number of producers and the consumer |
| MpscQueue.DequeuedInPushOrder | corcovado/src/poll.rs:2391-2435 | In every reachable state the nodes handed out so far followed by the nodes in the chain are the nodes pushed so far, in the order of their head CASes: none lost, none twice |
| MpscQueue.DequeueTakesOldest | corcovado/src/poll.rs:2473-2527 | What `dequeue_node` hands out is a registered node, never a marker, the oldest not handed out before, and it is no longer in the chain; that it does hand it out is in the row of `DequeueAloneTakesOldest` |
| MpscQueue.SleepsOnlyWhenEmpty | corcovado/src/poll.rs:2285-2343 | `prepare_for_sleep` returns true only when no node is queued, not even a half-pushed one, and nobody has yet been asked to end this sleep |
| MpscQueue.FirstPushWakes | corcovado/src/poll.rs:2420-2433 | `enqueue_node` asks for a wakeup exactly when its node is the first onto the sleep marker |
| MpscQueue.NoLostWakeup | corcovado/src/poll.rs:2382-2388 | While the sleep marker is in place something was pushed after it if and only if the awakener was called for this sleep, or a producer is on its way to calling it, or the consumer itself has come back to close the queue |
| MpscQueue.OneWakePerSleep | corcovado/src/poll.rs:2382-2388 | No sleep is ended by two awakener calls |
| MpscQueue.EmptyExactlyWhenNothingHalfPushed | corcovado/src/poll.rs:2347-2372 | The drain at drop stops at the first empty answer; behind a marker this means an empty chain if and only if no push behind the marker still owes its link |
| MpscQueue.DrainCanMissANode | corcovado/src/poll.rs:2347-2372 | Otherwise the drain leaves nodes behind: a concrete run in which the queue answers empty with a node and the closed marker still in the chain |
| QueueProgress.PushGoesThrough | corcovado/src/poll.rs:2391-2435 | An undisturbed push is over after four operations: the node is the head, linked behind the previous one, and a wakeup is asked for exactly if that was the sleep marker |
| QueueProgress.PushIsTurnedAway | corcovado/src/poll.rs:2405-2415 | A closed queue turns a node away after three operations, and pretends to take the end marker |
| QueueProgress.DequeueAloneTakesOldest | corcovado/src/poll.rs:2473-2527 | With nothing half pushed, an undisturbed `dequeue_node` hands out the oldest node, the last one behind an end marker of its own, within nine operations, unless that is the node to stop at |
| QueueProgress.DequeueAloneIsEmpty | corcovado/src/poll.rs:2473-2527 | With none, or at the node to stop at, it answers that the queue is empty; a closed queue with nothing but a marker in front answers once that it is inconsistent |
| QueueProgress.PrepareAlone | corcovado/src/poll.rs:2285-2343 | An undisturbed `prepare_for_sleep` answers true exactly when no node is queued and the queue is not closed, and the sleep marker is in place then |
| QueueProgress.ClearAlone | corcovado/src/poll.rs:2437-2470 | An undisturbed `clear_sleep_marker` takes the sleep marker out of an empty queue and leaves any other as it is |
| QueueProgress.InconsistentMeansHalfPushed | corcovado/src/poll.rs:2511-2527 | Over every run, an open queue answers that it is inconsistent only if at some moment of that very call a push behind its tail was half done |
| ReadinessSteps.LocalInv | corcovado/src/poll.rs:1887-1925 | A step of one thread that only touches its own node, and leaves what others rely on, keeps the whole invariant of nodes, operations, consumer and queue |
| ReadinessSteps.CasingWinsInv | corcovado/src/poll.rs:2211-2263 | The consumer's winning compare and swap of a node's word (dequeued bit, one-shot disarm, read position) keeps the invariant |
| ReadinessSteps.RequeueInv | corcovado/src/poll.rs:2265-2271 | Putting a level-triggered node back on the queue meets the queue's obligation and keeps the invariant |
| ReadinessSteps.CreateInv | corcovado/src/poll.rs:1660-1690 | A new registration, with or without a queue, starts with counts and bits that satisfy the invariant |
| ReadinessSteps.MayClose | corcovado/src/poll.rs:2347-2350 | The drop of the queue may push the closed marker: it is nowhere yet |
| ReadinessRuns.ThreadInv | corcovado/src/poll.rs:1887-2094 | Every atomic operation of `set_readiness`, `update` and the drops keeps the invariant in any state; what the calls come to is in the rows of `ReadinessEvents` and `ReadinessCalls` |
| ReadinessRuns.ConsumerInv | corcovado/src/poll.rs:2179-2283 | Every atomic operation of `poll`, `prepare_for_sleep` and the drop of the queue keeps the invariant in any state |
| ReadinessRuns.StepInv | corcovado/src/poll.rs:1887-2664 | Every step of any thread keeps the invariant |
| ReadinessRuns.RunInv | corcovado/src/poll.rs:1887-2664 | The invariant holds in every state of every interleaving |
| ReadinessRuns.StepsAreDefined | corcovado/src/poll.rs:2597-2604 | No reachable step touches a missing node, a token slot out of range or a push that is not there |
| ReadinessRuns.QueuedBitHasAnOwner | corcovado/src/poll.rs:1887-1925 | While the queue is open, the queued bit of a live associated node is set if and only if the node is in the chain, a thread owes its push, or the consumer holds it |
| ReadinessRuns.ChainAndConsumerExclude | corcovado/src/poll.rs:2211-2271 | In every reachable state no node the consumer holds is in the chain |
| ReadinessRuns.OneOwnerAtATime | corcovado/src/poll.rs:2047-2094 | A thread that owes a node's push excludes chain and consumer and is the only one that owes it, so no node is ever pushed while it is in the chain |
| ReadinessRuns.PushesMeetTheObligation | corcovado/src/poll.rs:2577-2595 | Whenever a thread's node code reaches `enqueue_node` the queue's own precondition holds; the consumer's pushes are in the rows of `RequeueInv` and `MayClose` |
| ReadinessProjection.StepFollows | corcovado/src/poll.rs:1887-2664 | Every step of nodes, handles and consumer leaves the queue alone or is exactly one enabled step of it |
| ReadinessProjection.Projection | corcovado/src/poll.rs:1887-2664 | Every run of the nodes, seen through the queue, is a run of the queue, so every theorem about runs of the queue holds of it |
| ReadinessProjection.SleeperIsWoken | corcovado/src/poll.rs:2285-2343 | Over every run, with the consumer out and the sleep marker the tail: for every associated node with its queued bit set and not yet given back, a thread owes its push, or the awakener was called for this sleep, or a thread is on its way to calling it |
| ReadinessRuns.NeverFreedWhileReachable | corcovado/src/poll.rs:2606-2625 | A node that is in the chain, held by the consumer, being read or in use by a thread has a reference count of at least one |
| ReadinessRuns.FreedExactlyWhenUnused | corcovado/src/poll.rs:2606-2625 | The count is the number of live handles plus the queue's reference; it reaches zero exactly when both are gone |
| ReadinessRuns.RejectedPushHasTwoReferences | corcovado/src/poll.rs:2577-2595 | A push turned away by the closed queue still finds at least two references, so giving back the queue's one does not free the node under the caller |
| ReadinessRuns.GivesBackExactly | corcovado/src/poll.rs:2211-2222 | A step takes one off a node's count without a handle going if and only if it finds the queue's reference counted and leaves it given back |
| ReadinessRuns.ReleasedStays | corcovado/src/poll.rs:2211-2222 | Over every run the queue's reference, once given back, is never taken again |
| ReadinessRuns.ReleasedOnce | corcovado/src/poll.rs:2211-2222 | Over every run no two steps give back the queue's reference to the same node |
| ReadinessRuns.DroppedIsReleased | corcovado/src/poll.rs:2211-2222 | Once a node is dropped and neither the chain, nor a thread, nor the consumer is in charge of it, the queue has given its reference back |
| ReadinessProjection.KeepsReference | corcovado/src/poll.rs:2347-2372 | After the drop of the queue has drained it, a node still counts the queue's reference if and only if it is not queued, or a thread owes its push, or it was left behind in the chain |
| ReadinessProjection.LeavesNodesExactlyBeforeClosed | corcovado/src/poll.rs:2347-2372 | Over every run the drain has left nodes in the chain if and only if it stopped before it reached the closed marker |
| ReadinessProjection.LeftBehindForever | corcovado/src/poll.rs:2347-2372 | What the drain has left behind stays in the chain and counted in every later state, so it is never freed |
| ReadinessRuns.LevelReadinessStaysQueued | corcovado/src/poll.rs:2224-2271 | Over every run a node that is not edge-triggered and has readiness its registration asks for has its queued bit set: level-triggered readiness is never forgotten |
| ReadinessRuns.UpdateWritesAFreeSlot | corcovado/src/poll.rs:2012-2044 | An updater writes neither the published token slot, nor the read position, nor the slot the consumer is about to read, even while the read position moves |
| ReadinessRuns.OneUpdaterAtATime | corcovado/src/poll.rs:2004-2010 | At most one thread is between taking and releasing a node's update lock |
| ReadinessRuns.EventCarriesInstalledToken | corcovado/src/poll.rs:2273-2281 | A delivered event carries a token that a registration or a completed update installed |
| ReadinessRuns.SwapFixesLatestToken | corcovado/src/poll.rs:2243-2274 | It is the latest token installed at the moment of the consumer's compare and swap |
| ReadinessNodes.NextTokenPos | corcovado/src/poll.rs:2777-2802 | The next position is a slot that is neither read nor published |
| ReadinessEvents.SetStores | corcovado/src/poll.rs:1898-1922 | The compare and swap of a `set_readiness` stores just the readiness of the call, and sets the queued bit if that is of interest; the thread goes on to push the node exactly if the bit was not set |
| ReadinessEvents.SetGoesOn | corcovado/src/poll.rs:1887-1911 | A `set_readiness` goes on until it has gone through or has found the node dropped |
| ReadinessEvents.ReadyIsLatestSet | corcovado/src/poll.rs:1887-1925 | Over every run, a node's readiness is the value of the latest `set_readiness` that went through |
| ReadinessEvents.ReadyStartsEmpty | corcovado/src/poll.rs:1660-1690 | Before the first one it is empty |
| ReadinessEvents.UpdateStores | corcovado/src/poll.rs:2044-2094 | The compare and swap of an `update` installs interest, options and token together, and sets the queued bit if what is ready is of interest now |
| ReadinessEvents.InterestIsLatestUpdate | corcovado/src/poll.rs:2044-2094 | Over every run, interest and options are those of the latest update, but for an interest that a delivered one-shot has taken away since |
| ReadinessEvents.EventsWereReady | corcovado/src/poll.rs:2211-2281 | Over every run, what an event reports is not empty and was the node's readiness cut with its interest at some moment before |
| ReadinessDelivery.PollTakesOldest | corcovado/src/poll.rs:2179-2283 | One undisturbed round of `poll`: the oldest waiting node is taken and, within twenty steps, released if it was dropped, or else its event is there if anything is ready and of interest, under its latest token, and it waits again exactly if it is level-triggered and ready |
| ReadinessDelivery.PollDeliversAll | corcovado/src/poll.rs:2179-2283 | An undisturbed `poll` ends: every node that waited when it began is taken once, in order, and reported as above, and just the level-triggered ones among them wait afterwards, in order |
| ReadinessCalls.SetAlone | corcovado/src/poll.rs:1887-1925 | An undisturbed `set_readiness` is over after eight steps: a dropped node stays as it is; any other has just that readiness, its queued bit is set if that is of interest, and it waits in the queue as the last one exactly if the bit was not set before |
| ReadinessCalls.UpdateAlone | corcovado/src/poll.rs:1928-2094 | An undisturbed `update` is over after thirteen steps: it is discarded if another one holds the lock; otherwise token, interest and options are just those of the call, and the node waits in the queue as the last one exactly if it is ready as far as it is of interest now and its queued bit was not set |
| ReadinessCalls.DropAlone | corcovado/src/poll.rs:2577-2664 | The undisturbed drop of a registration is over after eight steps: the node is marked as dropped, the handle and its reference are gone, and the node waits for the next poll to release it exactly if it has a queue and its queued bit was not set |
| ReadinessCalls.SetThenPoll | corcovado/src/poll.rs:1887-2283 | When a thread makes a live node ready in a way that is of interest and the consumer polls then, the poll reports just that readiness as far as it is of interest, under the node's token, unless another thread still had the node's push to do |
| PollLock.StepInv | corcovado/src/poll.rs:1085-1181 | Every atomic operation of `poll1`, timeouts and spurious wakeups keeps the lock word, the mutex and the progress invariant |
| PollLock.RunInv | corcovado/src/poll.rs:1085-1181 | They hold in every interleaving of any number of pollers |
| PollLock.LockWordCounts | corcovado/src/poll.rs:1085-1181 | In every interleaving the lock word is 1 if a thread is inside `poll2`, else 0, plus twice the number of waiters, and at most one thread is inside |
| PollLock.NoSleeperIsForgotten | corcovado/src/poll.rs:1160-1181 | A free lock with a sleeping waiter always has a notification owed or a woken thread about to retry |
| PollLock.EntersAlone | corcovado/src/poll.rs:1085-1145 | A thread that calls `poll` while nobody is inside and that nobody disturbs gets in, within four steps |
| PollLock.WaitsForOccupant | corcovado/src/poll.rs:1100-1160 | While somebody is inside it is counted as a waiter and falls asleep |
| PollLock.HandsOver | corcovado/src/poll.rs:1150-1181 | A thread that leaves hands the lock over: after its notification the sleeper gets in and is no waiter any more |
| ChannelReadiness.StepInv | corcovado/src/channel.rs:213-269 | Every atomic operation of the senders and the receiver keeps the counter, the handle count and the readiness invariant |
| ChannelReadiness.RunInv | corcovado/src/channel.rs:213-269 | They hold in every interleaving |
| ChannelReadiness.CounterIsConserved | corcovado/src/channel.rs:213-269 | The machine word is always the queued messages plus one being received and one for the disconnection, minus the messages not counted yet, with the wrap below zero made explicit |
| ChannelReadiness.PendingMeansReadable | corcovado/src/channel.rs:215-227 | When the counter says that something is pending the handle is readable, a sender owes its set, or the receiver is between unset and set |
| ChannelReadiness.DisconnectionStaysVisible | corcovado/src/channel.rs:238-244 | After the last sender has dropped and counted that, the counter stays at least one and the handle readable or about to be |
| ChannelReadiness.QuietChannelIsReadable | corcovado/src/channel.rs:247-269 | When nobody is in the middle of anything, a waiting message or a disconnected channel makes the handle readable |
| ChannelReadiness.ReceiveAlone | corcovado/src/channel.rs:247-269 | An undisturbed receive takes one message and leaves the handle readable if and only if there is still something to tell: the last message of an open channel unsets it |
| ChannelReadiness.SendAlone | corcovado/src/channel.rs:215-236 | An undisturbed send leaves one message more, counted, and the handle readable |
| ChannelReadiness.DropAlone | corcovado/src/channel.rs:238-244 | The undisturbed drop of the last handle makes the handle readable |
| TimerWheel.NextKeepsOk | corcovado/src/timer.rs:208-320 | No timeout of the ordered-set model is ever overdue, insertion numbers stay unique and the tick never goes back |
| TimerWheel.DeliveriesInTickOrder | corcovado/src/timer.rs:282-320 | Over every run of set, cancel and poll, timeouts are delivered in nondecreasing tick order |
| TimerWheel.DeliveredOnce | corcovado/src/timer.rs:313-322 | Over every run no timeout is delivered twice, even when its slab key is reused |
| TimerWheel.UnlinkedIsLinked | corcovado/src/timer.rs:350-373 | Unlinking takes an entry out of its slot's list and leaves every other list as it was |
| TimerWheel.InsertsOk | corcovado/src/timer.rs:225-255 | Prepending an entry keeps the links, the cursor, the order of insertion and the cached bounds |
| TimerWheel.RemovesOk | corcovado/src/timer.rs:258-272 | Taking an entry out, even the one at the cursor, keeps all of them and removes just that timeout from the model |
| TimerWheel.TicksOk | corcovado/src/timer.rs:299-312 | Moving to the next tick leaves nothing due behind and makes every cached bound valid again |
| TimerWheel.EntersOk | corcovado/src/timer.rs:313-318 | Resetting the cached tick at the head of a slot keeps the bounds that the walk relies on |
| TimerWheel.SkipsOk | corcovado/src/timer.rs:328-332 | Passing an entry that is not due yet lowers the cached tick to its own and keeps the invariant |
| TimerWheel.CursorIsFirst | corcovado/src/timer.rs:320-327 | The entry at the cursor, when due, is the live one with the least tick and the newest of those |
| TimerWheel.Timer.constructor | corcovado/src/timer.rs:175-198 | A new wheel is valid and holds no timeout |
| TimerWheel.Timer.SetTimeoutAt | corcovado/src/timer.rs:208-223 | Setting a timeout adds it to the model under the slab's free key, at least one tick ahead, as the newest; it fails exactly at the last tick of all, where the addition overflows |
| TimerWheel.Timer.Insert | corcovado/src/timer.rs:225-255 | The model gains exactly this timeout |
| TimerWheel.Timer.Prepend | corcovado/src/timer.rs:225-247 | The new entry becomes the head of its slot's list, linked both ways, and lowers the cached tick |
| TimerWheel.Timer.Unlink | corcovado/src/timer.rs:350-373 | The neighbours, the head and the cursor are updated as unlinking demands, and nothing else |
| TimerWheel.Timer.CancelTimeout | corcovado/src/timer.rs:258-272 | Cancelling removes and returns the entry under this key exactly when its tick matches, otherwise nothing changes |
| TimerWheel.CancelsAnotherExactlyWhenReused | corcovado/src/timer.rs:258-272 | Over every run a handle cancels another timeout than its own if and only if a later set with the same key and tick is the one that is live |
| TimerWheel.UniqueHandleCancelsItsOwn | corcovado/src/timer.rs:258-272 | Over every run, as long as no later set has returned the same key and tick, a handle cancels its own timeout exactly if that is still live, and nothing else |
| TimerWheel.ReusedKeyExample | corcovado/src/timer.rs:258-272 | A concrete run in which a handle whose timeout is gone cancels the next timeout set under its key for the same tick |
| TimerWheel.Timer.Walk | corcovado/src/timer.rs:298-334 | Walking up to a tick ends, on ticks left and entries ahead of the cursor, with the first due timeout or with none due and the slot's walk over; only a walk of an empty wheel to the last tick of all overflows |
| TimerWheel.Timer.PollTo | corcovado/src/timer.rs:282-348 | `Some` is the live timeout with the least tick, newest insertion first among equals, due by the clamped target; `None` leaves every live tick above the clamped target and the wheel one past it; nothing else changes; the call overflows exactly for the last tick of all with no timeout live |
| TimerWheel.NextTickCovers | corcovado/src/timer.rs:407-418 | For every state of the wheel, the next tick is no later than any live tick if and only if no entry that the walk of the current slot has still to pass is earlier than every cached tick; outside a walk there is none |
| TimerWheel.Timer.NextTick | corcovado/src/timer.rs:407-418 | The method computes that tick: after a poll that delivered nothing, and through later insertions and cancellations, it is no later than any live tick; in the middle of a walk exactly under the condition above; it is never 0 |
| TimerWheel.LaterIsNoEarlierTick | corcovado/src/timer.rs:22-29 | A later moment is at no earlier tick, rounding and saturation included, so a poll at or after a timeout's moment reaches its tick |
| TimerWheel.TickIsClosest | corcovado/src/timer.rs:572-576 | A moment's tick is at most half a tick away from it |
| TimerWheel.FiresLessThanATickEarly | corcovado/src/timer.rs:572-580 | A poll that reaches a timeout's tick comes less than one tick before its moment |
| TimerWakeup.StepInv | corcovado/src/timer.rs:375-405 | Every access to the shared wakeup tick by the timer and its thread keeps the wakeup invariant |
| TimerWakeup.OnlyBelowFloorSleptThrough | corcovado/src/timer.rs:499-565 | In every interleaving, whatever next tick the timer was registered with, only a timeout earlier than every tick scheduled so far can be slept through |
| TimerWakeup.PollNoneHeals | corcovado/src/timer.rs:337-348 | In every interleaving, once some poll has delivered nothing no timeout is slept through any more |
| TimerWakeup.RegistrationLosesExactlyBelow | corcovado/src/timer.rs:432-466 | Registering a timer can lose a wakeup, in some interleaving, if and only if the next tick it schedules is later than some live timeout |
| TimerRegistration.RegisteringLosesExactlyWhenOverlooking | corcovado/src/timer.rs:407-466 | For every state of the wheel, registering it with its own next tick can lose a wakeup if and only if an entry that the walk of the current slot has still to pass is earlier than every cached tick |
| TimerRegistration.RegisteringAfterAnEmptyPollIsSafe | corcovado/src/timer.rs:432-466 | When the last poll delivered nothing, registering loses no wakeup in any interleaving |
| TimerRegistration.RegisteringInTheMiddleExample | corcovado/src/timer.rs:432-466 | Two timeouts for one tick, a poll that delivers one, then the registration: the other is due and nothing is scheduled for it |
| TimerWakeup.SchedulingNeverTerminates | corcovado/src/timer.rs:504-513 | Scheduling never stores the value that terminates the wakeup thread |
| TimerWakeup.DueTimeoutWakes | corcovado/src/timer.rs:499-565 | Once a timeout is due, and its wakeup was not lost, the thread makes the timer readable within five steps |
| TimerWakeup.SchedulesAlone | corcovado/src/timer.rs:375-405 | An undisturbed `schedule_readiness` leaves the earlier of the two ticks as the wakeup and unparks the thread exactly if that is a new one |
| TimerWakeup.ReadableOnlyWhenDue | corcovado/src/timer.rs:515-545 | Over every run the timer is made readable only after a look at the clock that shows a scheduled tick to have come |
| CopaParams.Params.constructor | copa/src/params.rs:7-26 | A new list is empty |
| CopaParams.Params.IsFull | copa/src/params.rs:49-51 | The list is full exactly when parameters and subparameters together are 32 |
| CopaParams.Params.Clear | copa/src/params.rs:55-58 | Clearing makes the list empty whatever the arrays still hold |
| CopaParams.Params.Push | copa/src/params.rs:62-68 | Pushing ends the current parameter with the item: the two arrays refine a sequence of sequences |
| CopaParams.Params.Extend | copa/src/params.rs:72-78 | Extending adds a subparameter to the current parameter |
| CopaParams.ParamsIter.Next | copa/src/params.rs:105-118 | The iterator yields the next parameter with all its subparameters and ends where the list does |
| CopaParams.Iterate | copa/src/params.rs:105-118 | Iterating yields exactly the parameters pushed and extended since the last clear |
| CopaUtf8.EncodedDecodes | copa/src/lib.rs:726-752 | Every scalar value decodes from its encoding, whatever follows |
| CopaUtf8.DecodedIsEncoding | copa/src/lib.rs:726-752 | What decodes is the encoding of a scalar value: no overlong form, surrogate or value above U+10FFFF does |
| CopaUtf8.IncompleteIsPrefix | copa/src/lib.rs:772-784 | What counts as incomplete is a proper prefix of some character's encoding |
| CopaMachine.RunPendingOk | copa/src/lib.rs:772-784 | After any input, pending bytes are the start of a character and the parser is in Ground |
| CopaMachine.ResumeConsumes | copa/src/lib.rs:792-852 | Completing a character never consumes fewer than no bytes or more than there are; at most 3 bytes stay pending and then everything was consumed |
| CopaForget.RunAlike | copa/src/lib.rs:344-404 | Parsers that differ only in what their state no longer uses act alike on every input and stay alike |
| CopaForget.GroundForgets | copa/src/lib.rs:719-735 | Two parsers in Ground with nothing pending produce the same trace on every input, whatever stale parameters, intermediates or string buffers they hold |
| CopaForget.RunKeepsOk | copa/src/lib.rs:471-477 | Over every input Escape and every state that opens a sequence or string is entered with cleared parameters and intermediates, though APC, SOS and PM do not reset on exit; recorded field bounds stay inside the buffer |
| CopaChunks.RunSplit | copa/src/lib.rs:111-130 | Reading two inputs one after the other is reading the first and then the second behind what was left pending |
| CopaChunks.ResumeIsRun | copa/src/lib.rs:792-852 | Completing a pending character is what reading it whole does, unless the boundary loses |
| CopaChunks.StaysAhead | copa/src/lib.rs:170-188 | A parser left in a quiet state never catches up with one in Ground that is ahead by a print or an execute |
| CopaChunks.SkippedByteShows | copa/src/lib.rs:820-836 | In Ground, leaving out an ASCII byte in front of a byte above 0x7F always changes the trace or the state |
| CopaChunks.LossShows | copa/src/lib.rs:820-836 | At a losing boundary the trace or the state always differs from reading the input whole |
| CopaChunks.ChunkIndependence | copa/src/lib.rs:111-130 | For all byte strings, `advance(a)` then `advance(b)` equals `advance(a ++ b)` in trace and every field if and only if the boundary does not lose: a lone 0xC2..0xDF pending, then a continuation byte that makes a C1 control, or one followed by an ASCII byte and a byte above 0x7F |
| CopaChunks.AnyChunking | copa/src/lib.rs:111-130 | For any number of chunks whose boundaries do not lose, trace and every field are those of reading the whole at once |
| CopaChunks.ChunkingExact | copa/src/lib.rs:111-130 | For any number of chunks, after each of them the parser has done what it does with all the input so far at once if and only if no boundary loses |
| CopaChunks.SplitControlIsPrinted | copa/src/lib.rs:803-811 | Cut in the middle, U+0085 is printed instead of executed |
| CopaChunks.SplitLosesLetter | copa/src/lib.rs:820-836 | Cut in the middle, a letter behind a two-byte character is lost when another character starts after it |
| CopaSequences.DigitsSaturate | copa/src/lib.rs:624-632 | Any string of digits, the empty one and any leading zeros included, is read as the least of its value and 65535, as long as there is room for a parameter |
| CopaSequences.CsiRoundTrip | copa/src/lib.rs:192-258 | For every nonempty list of nonempty parameters with at most 32 values and at most 2 marker and intermediate bytes, printing it and parsing it from Ground is one dispatch of just those parameters, nothing ignored, back in Ground |
| CopaSequences.CsiReads | copa/src/lib.rs:192-258 | The same for every text of digits, semicolons and colons, with empty and overlong numbers, and any number of intermediates, of which the first two count and more raise the flag |
| CopaSequences.CsiWithoutParams | copa/src/lib.rs:558-572 | Without any parameter text a control sequence dispatches one parameter, 0 |
| CopaSequences.DcsRoundTrip | copa/src/lib.rs:261-341 | A device control string is hooked with just its parameters, every byte of its data is put, and the terminator unhooks it into Ground or an escape |
| CopaSequences.DcsReads | copa/src/lib.rs:261-341 | The same for every header text, and data of every kind of byte that does not end the string |
| CopaSequences.OscDispatchesFields | copa/src/lib.rs:636-674 | Every command without terminators is dispatched as the first 16 fields of its payload, C0 controls removed, split at semicolons, whatever the parser holds from before |
| CopaEscapes.EscReads | copa/src/lib.rs:379-418 | From Ground, every escape sequence that opens neither a string nor a control sequence is one dispatch of its first two intermediates and its final byte, flagged if and only if there are more, back in Ground |
| CopaEscapes.EscRoundTrip | copa/src/lib.rs:379-418 | With at most two intermediates it is dispatched just as it is |
| CopaEscapes.OpaqueReads | copa/src/lib.rs:452-540 | Every APC, SOS or PM string is delivered from its start to its end byte by byte, without its C0 controls, and its terminator leads to Ground or an escape |
| CopaEscapes.NoisyCsiReads | copa/src/lib.rs:192-258 | A control sequence with C0 controls and other noise anywhere in between: the controls are executed at once, and the sequence is dispatched as if they were not there |
| CopaEscapes.CancelAborts | copa/src/lib.rs:543-555 | CAN or SUB aborts a control sequence anywhere: it is executed and nothing is dispatched |
| CopaEscapes.MalformedCsiReads | copa/src/lib.rs:221-258 | A control sequence with a marker behind a parameter, or a parameter byte behind an intermediate, is read up to its final byte and dispatches nothing; controls in it are executed |
| CopaEscapes.MalformedDcsReads | copa/src/lib.rs:261-341 | A malformed device control string is skipped, data and all, and neither hooked nor put nor unhooked |
| CopaEscapes.ExcessIsFlagged | copa/src/lib.rs:602-621 | Once 32 values have been read, whatever parameter bytes follow are left out and the dispatch of the 32 has the flag set |
| CopaEscapes.TextReads | copa/src/lib.rs:856-863 | Text is printed character by character, its C0 and C1 controls executed |
| CopaParser.ShowsAtOnce | copa/src/lib.rs:731-745 | Showing the valid part of a text at once is what Ground does character by character |
| CopaParser.CutByEscape | copa/src/lib.rs:765-771 | An escape behind an unfinished character makes it one broken sequence |
| CopaParser.Parser.constructor | copa/src/lib.rs:76-78 | A new parser is the initial core |
| CopaParser.Parser.ResetParams | copa/src/lib.rs:678-684 | Parameters, intermediates and the ignore flag are cleared and nothing else |
| CopaParser.Parser.ActionCollect | copa/src/lib.rs:591-599 | A third intermediate sets the ignore flag instead of being stored |
| CopaParser.Parser.ActionSubparam | copa/src/lib.rs:602-610 | The subparameter is added, or the flag set when the list is full |
| CopaParser.Parser.ActionParam | copa/src/lib.rs:613-621 | The parameter is ended, or the flag set when the list is full |
| CopaParser.Parser.ActionParamnext | copa/src/lib.rs:624-632 | A digit is added with saturation, or the flag set when the list is full |
| CopaParser.Parser.ActionOscPutParam | copa/src/lib.rs:636-656 | The field from the previous end to here is recorded, up to 16 fields |
| CopaParser.Parser.OscFinish | copa/src/lib.rs:669-674 | The recorded fields are dispatched as slices of the buffer, which are in range, and both are cleared |
| CopaParser.Parser.ActionCsiDispatch | copa/src/lib.rs:558-572 | The last parameter is ended and the sequence dispatched |
| CopaParser.Parser.ActionHook | copa/src/lib.rs:575-588 | The last parameter is ended and the device control string hooked |
| CopaParser.Parser.AdvanceAnywhere | copa/src/lib.rs:543-555 | CAN and SUB execute and return to Ground, ESC resets into Escape |
| CopaParser.Parser.AdvanceCsiEntry | copa/src/lib.rs:192-218 | One byte in this state acts as the machine of the specification |
| CopaParser.Parser.AdvanceCsiIgnore | copa/src/lib.rs:221-229 | One byte in this state acts as the machine of the specification |
| CopaParser.Parser.AdvanceCsiIntermediate | copa/src/lib.rs:232-240 | One byte in this state acts as the machine of the specification |
| CopaParser.Parser.AdvanceCsiParam | copa/src/lib.rs:243-258 | One byte in this state acts as the machine of the specification |
| CopaParser.Parser.AdvanceDcsEntry | copa/src/lib.rs:261-288 | One byte in this state acts as the machine of the specification |
| CopaParser.Parser.AdvanceDcsIntermediate | copa/src/lib.rs:291-300 | One byte in this state acts as the machine of the specification |
| CopaParser.Parser.AdvanceDcsParam | copa/src/lib.rs:303-318 | One byte in this state acts as the machine of the specification |
| CopaParser.Parser.AdvanceDcsPassthrough | copa/src/lib.rs:321-341 | One byte in this state acts as the machine of the specification, 0x9C included |
| CopaParser.Parser.AdvanceEsc | copa/src/lib.rs:344-404 | One byte in this state acts as the machine of the specification, which the row of `EscReads` pins down |
| CopaParser.Parser.AdvanceEscIntermediate | copa/src/lib.rs:407-418 | One byte in this state acts as the machine of the specification, which the row of `EscReads` pins down |
| CopaParser.Parser.AdvanceOscString | copa/src/lib.rs:421-449 | One byte in this state acts as the machine of the specification; field slices are in range |
| CopaParser.Parser.AdvanceApcString | copa/src/lib.rs:452-499 | One byte in this state acts as the machine of the specification |
| CopaParser.Parser.AdvanceOpaqueString | copa/src/lib.rs:521-540 | One byte of a SOS or PM string acts as the machine of the specification |
| CopaParser.Parser.ChangeState | copa/src/lib.rs:170-188 | One byte outside Ground is one step of the machine, for all fifteen states |
| CopaParser.Parser.GroundDispatch | copa/src/lib.rs:856-863 | A valid text is shown character by character, C0 and C1 executed |
| CopaParser.Parser.BehindValid | copa/src/lib.rs:747-788 | Behind the valid part the machine goes on over a broken sequence, or an unfinished one cut by an escape, or keeps it for later |
| CopaParser.Parser.AdvanceGround | copa/src/lib.rs:713-788 | The fast path (next escape, whole valid text, broken or cut-off sequence, partial character) acts and consumes as the unit-by-unit machine does and always makes progress |
| CopaParser.Parser.AdvancePartialUtf8 | copa/src/lib.rs:792-852 | The buffer of four bytes is filled and decided as the specification says, without any difference below zero or index out of range |
| CopaParser.Parser.Advance | copa/src/lib.rs:111-130 | `advance` with its fast path is the unit-by-unit machine on every input and every reachable parser |
| CopaParser.Parser.AdvanceUntilTerminated | copa/src/lib.rs:142-167 | It stops only when the performer asks for it or the input ends, and reading what is left afterwards is as if it had not stopped |
| CloudTypes.Validate | neoism-cloud-runtime/src/lib.rs:299-332 | A status that passes names the allocation's owner, generation and provider |
| CloudTypes.AcceptedExactly | neoism-cloud-runtime/src/lib.rs:299-332 | A status is accepted if and only if it is about the machine of this allocation, and the one known so far, its connection leads to just that machine while it runs, only a reachable machine is ready, and it names a failure exactly if it has failed |
| CloudTypes.RoutesToOwnMachine | neoism-cloud-runtime/src/lib.rs:411-430 | An endpoint is handed out if and only if the binding is settled, ready and its launch unexpired, and it leads to the running machine of just this allocation |
| CloudRuns.EnsureBegins | neoism-cloud-runtime/src/registry.rs:212-270 | Whatever `ensure` writes before its call loads again, is one revision on, and starts a generation only as the first or after a retired one; the call asks for just the stored allocation |
| CloudRuns.CommandBegins | neoism-cloud-runtime/src/registry.rs:326-358 | The same for start, stop and destroy, which write their intent ahead; which call they then make is in the row of `CommandAsks` |
| CloudRuns.OthersBegin | neoism-cloud-runtime/src/registry.rs:276-303 | `reconcile` and `recover_handle` write nothing before their call |
| CloudRuns.ReplyChanges | neoism-cloud-runtime/src/registry.rs:367-413 | Whatever the provider replies, what is written then loads, is one revision on and keeps allocation, known handle and destroy intent |
| CloudRuns.DrivenLoads | neoism-cloud-runtime/src/registry.rs:367-405 | A saved status always passes the test, and only a confirmed destroy retires |
| CloudRuns.StepInv | neoism-cloud-runtime/src/registry.rs:31-110 | Every step of any coordinator, with any reply and any outcome of its writes, keeps the stored record loadable, its revision equal to the number of writes, and every request within the known generations |
| CloudRuns.RunInv | neoism-cloud-runtime/src/registry.rs:31-110 | That holds in every state of every run, with coordinators vanishing at any await |
| CloudRuns.StoredAlwaysLoads | neoism-cloud-runtime/src/registry.rs:45-66 | What is stored always passes the test of loading it |
| CloudRuns.RunChanges | neoism-cloud-runtime/src/registry.rs:77-110 | Every step leaves the record or writes it once with the next revision, in the same generation or in the next after a retired one |
| CloudRuns.EqualBindingsMeanNoWrite | neoism-cloud-host/src/manager.rs:414-418 | Reading the same binding twice means that nothing was written in between |
| CloudRuns.DestroyIsOneWay | neoism-cloud-runtime/src/registry.rs:326-358 | Once a destroy intent is durable no operation changes it but to retire that generation; within a generation the allocation is fixed, a known handle stays, and a retired record never changes |
| CloudRuns.RetiredByConfirmedDestroy | neoism-cloud-runtime/src/registry.rs:376-405 | A generation is retired only by an answer, valid for just its allocation and handle, to a destroy request that says it is destroyed |
| CloudRuns.RetiredBeforeSuccessor | neoism-cloud-host/src/manager.rs:336-366 | No generation is followed by another before it was retired |
| CloudCommands.RequestsMatchIntents | neoism-cloud-runtime/src/registry.rs:359-374 | In every state of every run, the request that is out is that for the stored intent, start for start and stop for stop, of just the stored allocation and handle, or an inspection |
| CloudCommands.CommandAsks | neoism-cloud-runtime/src/registry.rs:326-374 | Over every run, a command that leaves a call out asks for just what it was for, of just this handle's machine, and its intent is stored by then |
| CloudCommands.ReconcileAsks | neoism-cloud-runtime/src/registry.rs:276-290 | Over every run, reconciling asks for what the stored intent wants, or only looks at the machine: when there is none, and when the launch has expired |
| CloudCommands.IntentsAreServed | neoism-cloud-runtime/src/registry.rs:376-405 | Over every run, a stored intent goes away only by a valid answer to the very call that serves it, of a machine in a state that settles it, or by a command to destroy |
| CloudCommands.CommandGoesOut | neoism-cloud-runtime/src/registry.rs:326-374 | The exact conditions for a command to reach the provider |
| CloudCommands.CommandCompletes | neoism-cloud-runtime/src/registry.rs:326-413 | An undisturbed command whose machine reaches the state it is for settles the record there |
| CloudCommands.FailedCallIsKept | neoism-cloud-runtime/src/registry.rs:395-413 | A failed call leaves the intent stored, to be tried again, with the error beside it |
| CloudCommands.EnsureGoesOut | neoism-cloud-runtime/src/registry.rs:212-270 | A new generation goes out for a machine if and only if specification and launch are in order and the numbers have room |
| CloudCommands.EnsureOfLiveGoesOut | neoism-cloud-runtime/src/registry.rs:222-246 | For a live record `ensure` serves the stored intent again if and only if it asks for what is stored and the launch is in order |
| CloudCommands.EnsureCompletes | neoism-cloud-runtime/src/registry.rs:212-413 | An undisturbed `ensure` ends with the new generation's machine recorded, settled as soon as it has left provisioning |
| CloudCommands.ReconcileGoesOut | neoism-cloud-runtime/src/registry.rs:276-290 | A reconcile calls the provider if and only if the record is its own and not retired and its launch has not run out between the two looks at the clock |
| CloudCommands.InspectionIsRecorded | neoism-cloud-runtime/src/registry.rs:304-316 | What an inspection finds is recorded, intent and error staying, if and only if it is about this record's machine and that is still there; otherwise the record stays |
| CloudCommands.SettledIsRefreshed | neoism-cloud-runtime/src/registry.rs:376-413 | A settled record is refreshed by what a reconcile finds; that its machine has gone is kept as an error, never as a destruction |
| CloudCoordinator.Coordinator.SaveRecord | neoism-cloud-runtime/src/registry.rs:77-110 | Success, and only success, promises that just the returned record is stored, one revision on; failure means that nothing was stored or just that record; what was stored is what the next reader loads |
| CloudCoordinator.StoresIsSave | neoism-cloud-runtime/src/registry.rs:77-110 | That meaning of a write holds if and only if disk and answer are those of the write in the runs |
| CloudCoordinator.Coordinator.SaveChanged | neoism-cloud-runtime/src/registry.rs:69-76 | Over a record stored as it was, success means that the returned record is stored now, and its revision has risen if and only if something changed |
| CloudCoordinator.Coordinator.Drive | neoism-cloud-runtime/src/registry.rs:359-413 | The pending intent becomes exactly one provider call, that of the row of `RequestsMatchIntents`, and its reply is merged and saved as the specification says |
| CloudCoordinator.Coordinator.InspectForRecovery | neoism-cloud-runtime/src/registry.rs:304-316 | A failed, foreign or destroyed inspection leaves the record as it is; any other only sets the status |
| CloudCoordinator.Coordinator.LoadCurrent | neoism-cloud-runtime/src/registry.rs:177-183 | Success means that the returned record is the stored one, passes the test of loading and is of this workspace and provider; a missing, a corrupt and a foreign record are told apart |
| CloudCoordinator.Coordinator.EnsureInner | neoism-cloud-runtime/src/registry.rs:212-270 | `ensure` with its checks in order, the new generation written before the call |
| CloudCoordinator.Coordinator.Command | neoism-cloud-runtime/src/registry.rs:326-358 | Commands with their fences in order, the intent written before the call |
| CloudCoordinator.Coordinator.Reconcile | neoism-cloud-runtime/src/registry.rs:276-290 | An expired launch with a pending ensure or start is only inspected, everything else is driven |
| CloudCoordinator.Coordinator.RecoverHandle | neoism-cloud-runtime/src/registry.rs:296-303 | A retired record is returned, any other only inspected |
| CloudCoordinator.OperationIsSteps | neoism-cloud-runtime/src/registry.rs:212-413 | Each of these operations is at most two steps of the runs: beginning, then the reply or vanishing |
| CloudDocker.BeginSound | neoism-cloud-host/src/docker.rs:614-660 | Locking, recording a generation and guarding, with whatever writes fail, keep at most the latest generation undestroyed, forget nothing and answer truthfully |
| CloudDocker.StepSound | neoism-cloud-host/src/docker.rs:661-715 | Every later action, taking effect or not, does the same |
| CloudDocker.AtMostOneContainer | neoism-cloud-host/src/docker.rs:614-715 | At most one container exists |
| CloudDocker.NamesDiffer | neoism-cloud-host/src/docker.rs:162-164 | Containers of different generations have different names |
| CloudProvider.Provider.Provision | neoism-cloud-host/src/docker.rs:475-566 | A container is found or created under its one name, looked at and started, or the failure reported, exactly as the steps do; that it gets there is in the row of `EnsureSucceeds` |
| CloudProvider.Provider.Operation | neoism-cloud-host/src/docker.rs:608-717 | The whole operation updates ledger and containers exactly as the steps do, cut off where the process dies; what it comes to is in the rows of `CloudOutcomes` |
| CloudProvider.OperationsEnd | neoism-cloud-host/src/docker.rs:608-717 | An operation that is not cut off answers within fifteen actions |
| CloudOutcomes.EnsureGoesOn | neoism-cloud-host/src/docker.rs:614-660 | The exact conditions for `ensure` to be let in, and what the ledger holds then |
| CloudOutcomes.EnsureSucceeds | neoism-cloud-host/src/docker.rs:475-566 | An accepted `ensure` that nothing disturbs creates the container unless it is there, starts it unless it runs, records that it was created and answers that just this machine runs; if and only if the container was recorded as created and is gone it answers that there is none |
| CloudOutcomes.OtherGoesOn | neoism-cloud-host/src/docker.rs:614-660 | The exact conditions for any other operation to be let in |
| CloudOutcomes.StartSucceeds | neoism-cloud-host/src/docker.rs:661-689 | An undisturbed `start` leaves the container running and says so; without a container it answers that there is none |
| CloudOutcomes.StopSucceeds | neoism-cloud-host/src/docker.rs:567-597 | An undisturbed `stop` leaves a running container stopped, any other as it is, and says so |
| CloudOutcomes.InspectSucceeds | neoism-cloud-host/src/docker.rs:365-415 | An undisturbed inspection tells what the container does and changes nothing |
| CloudOutcomes.DestroySucceeds | neoism-cloud-host/src/docker.rs:690-715 | An undisturbed `destroy` removes the container, running or not, records that the generation is destroyed and answers so |
| CloudOutcomes.TellsMeans | neoism-cloud-host/src/docker.rs:365-415 | A machine is told to run if and only if its container does, and only then is there a way to it |
| CloudEndToEnd.NextGenerationFits | neoism-cloud-host/src/docker.rs:614-647 | In every reachable state at rest, the generation after a retired one is one that the provider lets in, and no container is left |
| CloudEndToEnd.EnsureBringsUp | neoism-cloud-runtime/src/registry.rs:212-270 | From every reachable state at rest without a live machine, an undisturbed `ensure` leaves exactly the new generation's container, running, and the stored record settled on it |
| CloudEndToEnd.StartBringsUp | neoism-cloud-runtime/src/registry.rs:326-358 | An undisturbed `start` brings just this machine's container up and settles the record there |
| CloudEndToEnd.StopTakesDown | neoism-cloud-runtime/src/registry.rs:326-358 | An undisturbed `stop` takes just this machine's container down and settles the record there |
| CloudEndToEnd.DestroyTakesAway | neoism-cloud-runtime/src/registry.rs:326-358 | An undisturbed `destroy` leaves no container of this machine and retires the record |
| CloudLifecycle.MoveOk | neoism-cloud-host/src/docker.rs:614-715 | Every move of the registry, the provider, a crash or a vanishing container keeps the two in agreement |
| CloudLifecycle.OneContainerPerWorkspace | neoism-cloud-host/src/docker.rs:614-647 | Over every run with crashes, lost or stale replies and requests executed late or repeatedly, at most one container exists for the workspace |
| CloudLifecycle.ContainerIsCurrent | neoism-cloud-host/src/docker.rs:614-647 | It is that of the registry's current generation, which is not retired |
| CloudLifecycle.OnlyLatestUndestroyed | neoism-cloud-host/src/docker.rs:614-636 | Only the highest generation of the ledger may not be destroyed |
| CloudLifecycle.RetiredIsDestroyed | neoism-cloud-runtime/src/registry.rs:376-405 | A generation that the registry has retired or left behind is destroyed in the ledger |
| CloudLifecycle.DestroyedStaysGone | neoism-cloud-host/src/docker.rs:690-715 | Once a generation is destroyed it stays so and its container never comes back |
| CloudManager.ReturnsWhatIsStored | neoism-cloud-runtime/src/registry.rs:212-413 | A binding that an operation returns is the one stored at that moment |
| CloudManager.RunsArePlausible | neoism-cloud-runtime/src/registry.rs:212-413 | Over every run, what a caller sees between its calls is plausible: results are stored records, and records only go forward |
| CloudManager.Recover | neoism-cloud-host/src/manager.rs:286-311 | The machine to destroy is known already or found by an inspection that left everything else as it was; a known handle is kept |
| CloudManager.AwaitDestroyed | neoism-cloud-host/src/manager.rs:322-352 | Waiting only reconciles, and ends well only when the stored record confirms that just this machine of just this allocation is destroyed, and does so when nothing disturbs it, after any number of rounds |
| CloudManager.DestroyAndEnsure | neoism-cloud-host/src/manager.rs:286-366 | From the request to destroy on: the record was looked at again just before it, and the request for a new machine goes out only after an answer that shows this machine's destruction stored |
| CloudManager.ReplaceExpiredBinding | neoism-cloud-host/src/manager.rs:258-366 | Whatever other coordinators do in between, and wherever the deadline cuts in: at most one machine is destroyed, once, the expected one and that of the expired record, looked at again right before; a new one is asked for last, only after the answer that shows that destruction stored; a replacement is the registry's answer to that request, with the same owner and provider and the next generation; it is refused exactly for an invalid specification, an unexpired launch or a workspace that is not durable, and then, as for a handle that cannot be that of the expired record, nothing is asked; when nothing disturbs it, every answer being to its own requests, it ends with the replacement, however many rounds of waiting that takes |
| CloudManager.ConfirmedBeforeEnsure | neoism-cloud-host/src/manager.rs:322-366 | In every such course of requests, the request for a new machine comes after the stored confirmation, and that after the request to destroy just the machine that is meant |
| Redactor.LongestIsStable | neoism-agent/evals/lab.py:159-181 | Once as many bytes as the longest pattern are known, later input cannot change a match |
| Redactor.EmitPlain | neoism-agent/evals/lab.py:172-175 | Bytes at which no match starts are copied |
| Redactor.EmitMark | neoism-agent/evals/lab.py:176-178 | A match is replaced by the mark |
| Redactor.EmitsChain | neoism-agent/evals/lab.py:166-181 | The bytes held back are all that later output depends on |
| Redactor.StreamRedactor.constructor | neoism-agent/evals/lab.py:161-164 | The tail is the longest pattern less one byte |
| Redactor.StreamRedactor.FirstMatch | neoism-agent/evals/lab.py:170-176 | The leftmost match that starts before the boundary, the longest of those |
| Redactor.StreamRedactor.Feed | neoism-agent/evals/lab.py:166-181 | Whatever comes next, what is emitted is the replacement of everything received but for the bytes held back, which are fewer than the longest pattern; the final flush leaves nothing |
| Redactor.RedactChunks | neoism-agent/evals/lab.py:159-181 | For every nonempty-pattern list and every chunking the outputs and the final flush together are leftmost-longest replacement on the whole input |
| Redactor.Capture.Read | neoism-agent/evals/lab.py:249-256 | One chunk is accepted, fed and written within the two limits |
| Redactor.Capture.End | neoism-agent/evals/lab.py:243-248 | What is held back is written unless a limit was reached; the limit is reported only when it was |
| Redactor.CaptureStream | neoism-agent/evals/lab.py:239-256 | What reaches the file is a prefix of the redaction of the whole stream within the limit, and all of it, cut at the limit, unless the limit was reported; the limit is reported only when the stream is as long as that or the file is full |

## Left out

- the operating system selector, the awakener's file descriptor, sockets, streams and `Events`: foreign calls; of the awakener only that it was called is kept.
- weak memory orderings, pointer casts and the transmutes between counted pointers: nodes are numbers and steps are sequentially consistent.
- reference counts that overflow, and the abort on it: counts are unbounded.
- the error `update` returns for a node that belongs to another poll: one queue is modelled.
- the memory bounds of the channel: fewer than 2^62 messages, threads and handles at a time, as address space implies; a send that races registration is outside the guarantee.
- the masking of ticks: slots are a power of two in the code, and a slot is the tick modulo their number here.
- TimerWheel.Timer.SetTimeoutAt: the overflowing addition at the last tick of all ends the call, as a build with overflow checks does; what a build without them makes of the wrapped tick is not modelled.
- TimerWheel.Timer.PollTo: the same, for a poll of an empty wheel up to the last tick of all.
- wall-clock deadlines, backoff and the park timeout in milliseconds: ticks only.
- the no_std build of the parser with its string buffer of fixed capacity.
- the transition table and definitions files of the parser crate: the parser does not use them.
- the accessors for a performer that inspects parameters lazily: a dispatch carries the parameters an iteration yields.
- HTTP, JSON, URL parsing, signing keys and file permissions of the cloud crates; the record size limit, which only makes a write fail that would otherwise succeed.
- the launch descriptor's contents beyond its validity and expiry, and the provider's mount targets, which are one opaque test.
- volumes, bootstrap files, labels and the mapped port of a container: an inspection that finds them wrong is an action that fails.
- the error text and timing of commands; a watched container is looked at ten times, without the pauses.
- the host manager's readiness probes, grants and deadlines: a deadline is where the sequence of its calls ends; its recheck relies on `CloudRuns.EqualBindingsMeanNoWrite`.
- more than one workspace: records, locks and ledgers of different workspaces do not meet.
- how the redactor's patterns are derived from the secrets: any nonempty byte strings are allowed.
- running containers, reports and cost accounting of the evaluation lab.
- readiness and poll option flag algebra, easing curves, springs, clipboard and graphics adapters: easy or I/O.
