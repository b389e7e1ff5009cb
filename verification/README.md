# A verified model of coop

`coop` runs many contexts on one thread per cooperator. Contexts switch cooperatively, block on
coordinators, pass values through channels, cross threads through passages and wait for io_uring
completions. This project models its concurrent core in Dafny 4.11 and proves what the core promises.
`dafny verify dfyconfig.toml` verifies the whole project.

Most modules have three layers:

- a state machine over values (`Init`, `Next` or `Step`), in which one step is what happens between two
  points where something else can interleave;
- an invariant every step keeps, and theorems about every reachable state of every run
  (`...OnEveryRun`), obtained by one induction in `Runs`;
- a class with the source's fields whose methods are the source's loops and updates, each proved
  against the machine: its new state is the specified function, or an allowed step, of its old state.

| file | what it models |
|---|---|
| `Basics.dfy` | optional values, sequences without repetition |
| `Runs.dfy` | runs of a transition system and the induction over them |
| `MpscRing.dfy` | the bounded multi-producer ring: every atomic access is a step |
| `Passage.dfy` | that ring with the coalesced wake protocol, senders on other threads, one receiver |
| `EmbeddedList.dfy` | the sentinel-linked intrusive list on the heap, and programs over several lists |
| `Scheduler.dfy` | running, ready and blocked contexts with direct switches and their budget |
| `Coordination.dfy` | coordinators, signals and waiting for any of several, on that scheduler |
| `RingBuffer.dfy` | the wrap-around arithmetic of circular buffers |
| `Channel.dfy` | the bounded channel with its two coordinators and immediate switches |
| `Subscription.dfy` | continuations that drain channels into handlers, one producer each |
| `IoHandle.dfy` | one-shot operations counting their completion events |
| `ArmedHandle.dfy` | multishot receives with pool buffers and a queue of chunks |
| `Uring.dfy` | any number of both on one ring with one buffer pool |
| `Epoch.dfy` | pins, watermarks and the retire queue of one manager |
| `ContextTree.dfy` | the context tree: the kill walk and lifetimes |
| `HttpChunked.dfy` | the chunked coding (section 7.1 of RFC 9112), server to client |

## Where the code does not do what it is meant to

Each of these is shown by a lemma with a concrete run or input, next to an exact condition.

- The ring admits a capacity of one (`coop/chan/passage.h:41`), and then overwrites unpopped values:
  the mark of a committed slot equals the mark of a free one. `OneSlotOverwrites`, `FifoIffTwoSlots`.
- The wake of a sent item can be lost when the target refuses a submission: the refused sender clears
  the pending flag on which another sender's completed `Send` relied, and the receiver stays blocked in
  front of both items until its wait times out. `RefusedSubmitLosesWake`. Items keep their wakes on all
  runs if and only if no submission may be refused: `DataWakesIffAccepted`.
- The wake of a shutdown can be lost in two ways. A `Shutdown` whose submission is refused wakes nobody
  (`RefusedShutdownLosesWake`). A `Send` that finds the target shutting down closes the passage and
  wakes nobody, without any submission (`AbandonedSendLosesWake`). Shutdowns keep their wakes on all
  runs if and only if neither may occur: `ShutdownWakesIffNeither`.
- A chunked response with a status the server has no line for is unreadable for the client: the line
  says `0`, which is not three digits. `TeapotIsLost`, `RoundTripIffKnown`.
- The server writes a content type as it is given, line ends included. One that ends its own line makes
  the client read no body (`TypeWithLineEndReadsNothing`). Every body is read back if and only if the
  status is known and the content type is clean, that is, its line and every line it opens has a colon
  and every CR in it is followed by a line feed: `RoundTripExactly`.

## Reading the model

- Atomics are sequentially consistent, and tickets, epochs and counters are unbounded naturals. The
  sizes printed and parsed in hexadecimal are 64-bit and wrap as the code's do.
- `MpscRing` allows any capacity of at least one; the code restricts it to powers of two. `Passage` has a
  capacity of at least two, where the ring is a FIFO queue.
- In `Passage`, receiver code and the wake lambda share the target thread, so they interleave with
  producers and not with each other. A push may start arbitrarily long after its shutdown test. How a
  receiver's adaptive wait ends is nondeterministic.
- In `Coordination` a coordinator's `owner` is history: the context that acquired it, or none while it
  is held only as a mark that anyone may release. A caller waits on distinct coordinators it does not
  own, only the owner releases an owned coordinator, and a context exits owning nothing and waiting for
  nothing. Waiters are contexts; `Subscription` covers a continuation as the waiter.
- In `Scheduler` a yield goes on with the direct switch after an inline poll: the code's
  second look at the budget (`coop/cooperator.cpp:669-675`) never finds it used up, since the poll only clamps it
  to a positive limit.
- In `ContextTree` the notification of a destroyed context's own kill signal may switch away, so the
  destructor is two steps with anything between them; the walk over its descendants does not switch.
- In `Channel` the rest of an operation whose first release switched away is kept as a pending tail
  and runs later on whatever state it finds; the invariant shows which tails can exist.
  `fault` records a failed internal assertion or an acquire that was meant to be immediate and is not.
- The kernel in `IoHandle` and `ArmedHandle` is an adversary bound by: one event per one-shot
  submission, a final event per multishot, data events carry a buffer, errors do not, and events of
  one multishot arrive in order. Events of different operations arrive in any order.
- In `ArmedHandle` the caller arms first, and again only after `Next` returned an error, as its header
  says.
- In `Epoch` the watermarks of other cooperators are arbitrary and change at any time.
- In `HttpChunked` the transport takes a given number of sends and then fails for good.

## Model

| member | source | states |
|---|---|---|
| `MpscRing.FullExactly` | coop/chan/passage.h:59-82 | Push reports full exactly when the tail it read is current and all N slots belong to claimed, unreleased tickets; a claimable slot means fewer than N are |
| `MpscRing.StepKeepsInv` | coop/chan/passage.h:56-108 | every single access of any producer or of the consumer keeps the ring invariant (slot marks, ticket windows, program counters) |
| `MpscRing.FifoOnEveryRun` | coop/chan/passage.h:56-115 | for any number of producers, any N of at least two and every interleaving of accesses: distinct tickets, pops in ticket order with the value pushed, no unpopped slot overwritten |
| `MpscRing.FullOnEveryRun` | coop/chan/passage.h:59-82 | on every such run a Push reports full exactly when the tail it read is current and all N slots belong to claimed, unreleased tickets |
| `MpscRing.OneSlotOverwrites` | coop/chan/passage.h:41-86 | with N = 1, which the static assertion admits, a run in which an unpopped value is overwritten |
| `MpscRing.FifoIffTwoSlots` | coop/chan/passage.h:41-115 | the ring is a FIFO queue on all its runs if and only if N is at least two |
| `MpscRing.Ring.constructor` | coop/chan/passage.h:48-52 | slot i starts with mark i; the state is initial |
| `MpscRing.Ring.PushAccess` | coop/chan/passage.h:56-88 | the next access of a Push, on the slot array, is a step of the machine |
| `MpscRing.Ring.PopAccess` | coop/chan/passage.h:93-108 | the next access of a Pop, on the slot array, is a step of the machine |
| `Passage.PushAndHead` | coop/chan/passage.h:345-379 | a producer's access makes the head ticket readable only by committing it, and never unreadable |
| `Passage.PopAndHead` | coop/chan/passage.h:386-432 | what a consumer access does to the readability of the head ticket |
| `Passage.StepKeepsInv` | coop/chan/passage.h:301-529 | every access of a sender, of the wake lambda and of the receiver keeps the wake invariant |
| `Passage.NoLostWakeOnEveryRun` | coop/chan/passage.h:301-529 | on every run, wherever the receiver is in TryRecv, Drain or Recv without owning recv and with no wake past its clear: unless a submission was refused, a committed head behind a held recv has a wake on its way; unless besides a Send found the target shutting down, so has a shutdown a waiting receiver did not see. At most one wake is queued, and a receiver handed recv without an item finds the passage shut |
| `Passage.RefusedSubmitLosesWake` | coop/chan/passage.h:326-379 | a run in which a refused submission strands two sent items: the receiver is blocked, both Send calls are over, no wake is coming |
| `Passage.RefusedShutdownLosesWake` | coop/chan/passage.h:326-338 | a run in which the wake of a Shutdown is refused: the receiver stays blocked on a passage that is shut, no wake is coming |
| `Passage.AbandonedSendLosesWake` | coop/chan/passage.h:354-358 | a run without any submission in which a Send that finds the target shutting down shuts the passage and leaves the receiver blocked, no wake is coming |
| `Passage.DataWakesIffAccepted` | coop/chan/passage.h:301-379 | no run leaves an item without its wake if and only if the target may not refuse a submission |
| `Passage.ShutdownWakesIffNeither` | coop/chan/passage.h:301-529 | no run leaves a waiting receiver behind a shutdown without its wake if and only if neither a refused submission nor a Send that finds the target shutting down may occur |
| `Passage.Bridge.constructor` | coop/chan/passage.h:230-244 | recv starts held, no wake pending, every caller quiet |
| `Passage.Bridge.SendStart` | coop/chan/passage.h:345-358 | goes on exactly when neither the passage nor the target is shutting down; closes the passage in the second case |
| `Passage.Bridge.SendAccess` | coop/chan/passage.h:360-365 | an access of the push inside Send is a step of the machine |
| `Passage.Bridge.SendEnd` | coop/chan/passage.h:373-379 | a Send that ends and finds the target shutting down closes the passage |
| `Passage.Bridge.SubmitWakeAccess` | coop/chan/passage.h:301-338 | an access of SubmitWake, including the refused path, is a step of the machine |
| `Passage.Bridge.Shutdown` | coop/chan/passage.h:512-529 | from another thread: setting shutdown and announcing a forced wake is a step of the machine; a second call does nothing |
| `Passage.Bridge.ShutdownLocal` | coop/chan/passage.h:512-529 | on the target thread: setting shutdown and releasing recv is a step of the machine |
| `Passage.Bridge.RingEmpty` | coop/chan/passage.h:110-115 | reports empty exactly when the head ticket is not committed |
| `Passage.Bridge.WakeAccess` | coop/chan/passage.h:305-325 | an access of the wake lambda (clear, then look, then release) is a step of the machine |
| `Passage.Bridge.ReceiverAccess` | coop/chan/passage.h:386-505 | an access of TryRecv, Drain or Recv is a step of the machine |
| `Passage.Bridge.PopAccess` | coop/chan/passage.h:386-432 | the pop inside a receive call is a step of the machine and decides what the call does next |
| `EmbeddedList.Node.Pop` | coop/detail/embedded_list.h:67-75 | joins the node's two neighbours to each other and clears its own links, touching nothing else; which list it leaves is said by List.Remove |
| `EmbeddedList.List.constructor` | coop/detail/embedded_list.h:164-168 | a new list is empty, its sentinel linked to itself |
| `EmbeddedList.List.Push` | coop/detail/embedded_list.h:180-188 | the sequence grows by the node at the end; both directions of links spell it |
| `EmbeddedList.List.Pop` | coop/detail/embedded_list.h:196-214 | the first node is taken off, or null is returned from an empty list |
| `EmbeddedList.List.Peek` | coop/detail/embedded_list.h:216-219 | the first node of a non-empty list, changing nothing |
| `EmbeddedList.List.Next` | coop/detail/embedded_list.h:223-228 | the successor of a linked node, or null at the end |
| `EmbeddedList.List.Size` | coop/detail/embedded_list.h:230-240 | the counting walk returns the length of the sequence |
| `EmbeddedList.List.IsEmpty` | coop/detail/embedded_list.h:242-246 | true exactly for the empty sequence |
| `EmbeddedList.List.Contains` | coop/detail/embedded_list.h:251-258 | the walk finds a node exactly when it is in the sequence |
| `EmbeddedList.List.Remove` | coop/detail/embedded_list.h:260-266 | a node is removed from anywhere in the sequence, the others keep their order |
| `EmbeddedList.List.Steal` | coop/detail/embedded_list.h:268-280 | all nodes move to the empty list in order and the source becomes empty |
| `EmbeddedList.OwnershipKept` | coop/detail/embedded_list.h:67-280 | every list operation keeps each node in at most one list |
| `EmbeddedList.NewList` | coop/detail/embedded_list.h:164-168 | a new list joins the others, empty, without disturbing them |
| `EmbeddedList.NewNode` | coop/detail/embedded_list.h:40-45 | a new node is on no list |
| `EmbeddedList.Build` | coop/detail/embedded_list.h:40-168 | any number of lists and nodes made by the constructors meet what a program over lists needs |
| `EmbeddedList.Run` | coop/detail/embedded_list.h:67-280 | any program of Push, Pop, Remove and Steal over several lists does to the links what the sequence operations do to the sequences |
| `Scheduler.UnblockKeeps` | coop/cooperator.cpp:782-832 | waking a context, with or without switching to it, keeps every context in exactly one place |
| `Scheduler.YieldKeeps` | coop/cooperator.cpp:626-702 | a yield, direct or through the loop, with or without an inline poll, keeps the partition |
| `Scheduler.BlockSelfKeeps` | coop/cooperator.cpp:725-780 | blocking the running context, with or without a direct switch, keeps the partition |
| `Scheduler.BlockOtherKeeps` | coop/cooperator.cpp:725-750 | blocking a ready context keeps the partition |
| `Scheduler.EnterKeeps` | coop/cooperator.cpp:1065-1110 | entering a spawned context over another or over the loop keeps the partition |
| `Scheduler.ResumeKeeps` | coop/cooperator.cpp:704-723 | resuming from the loop keeps the partition and refills the direct-switch budget |
| `Scheduler.ExitKeeps` | coop/cooperator.cpp:302-349 | a context that exits leaves no trace in any list |
| `Scheduler.StepKeeps` | coop/cooperator.cpp:302-1110 | every scheduling step keeps the partition |
| `Scheduler.PartitionOnEveryRun` | coop/cooperator.cpp:302-1110 | on every run each live context is running, in the ready list once or in the blocked list once, as its state says, and at most the configured number of direct switches separates two resumes |
| `Scheduler.Cooperator.constructor` | coop/cooperator.cpp:61-79 | an empty cooperator |
| `Scheduler.Cooperator.EnterContext` | coop/cooperator.cpp:1065-1110 | the new state is Enter of the old |
| `Scheduler.Cooperator.ResumeNext` | coop/cooperator.cpp:704-723 | the new state is Resume of the old |
| `Scheduler.Cooperator.HandleCooperatorResumption` | coop/cooperator.cpp:302-349 | the context that ran goes to the ready or the blocked list, or with its exit from all of them |
| `Scheduler.Cooperator.PollInline` | coop/cooperator.cpp:654-667 | completions wake their contexts one by one and the budget is clamped |
| `Scheduler.Cooperator.YieldFrom` | coop/cooperator.cpp:626-702 | the new state is Yield of the old |
| `Scheduler.Cooperator.Block` | coop/cooperator.cpp:725-780 | the new state is BlockSelf or BlockOther of the old |
| `Scheduler.Cooperator.UnblockContext` | coop/cooperator.cpp:782-832 | the new state is Unblock of the old; a context already woken is left alone |
| `Scheduler.Cooperator.SanityCheck` | coop/cooperator.cpp:991-1028 | the walk over all contexts and the counting walks over both lists, with their look at every state, succeed on every partitioned state |
| `Scheduler.Cooperator.WalkList` | coop/cooperator.cpp:1014-1027 | a walk of one list succeeds exactly when the count given is its length |
| `Coordination.AcquireKeeps` | coop/detail/multi_coordinator.h:29-53 | taking the first free coordinator, or linking a node on every one and blocking, keeps the invariant |
| `Coordination.ReleaseKeeps` | coop/coordinator.cpp:75-113 | releasing to the next waiter or to nobody keeps the invariant |
| `Coordination.ReleaseIsFair` | coop/coordinator.cpp:75-113 | Release gives the coordinator, held throughout, to the context that has waited for it longest, which is made runnable |
| `Coordination.ReleaseIsFairOnEveryRun` | coop/coordinator.cpp:75-113 | on every run Release gives the coordinator to the context that has waited for it longest |
| `Coordination.PassOnContract` | coop/detail/multi_coordinator.h:69-74 | a coordinator satisfied besides the winner goes to its next waiter or becomes free; nothing else changes |
| `Coordination.UnlinkContract` | coop/detail/multi_coordinator.h:58-62 | an unsatisfied node is removed from wherever it is linked; nothing else changes |
| `Coordination.CleanContract` | coop/detail/multi_coordinator.h:56-80 | the two clean-up loops leave exactly the winner's node, handle every other coordinator, and keep the invariant |
| `Coordination.WaitForAny` | coop/detail/multi_coordinator.h:56-84 | a wait that blocked returns with exactly the leftmost satisfied coordinator owned, no node on any list, every other satisfied one passed on, the rest as if it had not waited, others untouched, no notified signal held |
| `Coordination.TakeAtOnce` | coop/detail/multi_coordinator.h:29-39 | a wait that finds a free coordinator owns exactly the leftmost free one, is on no list, and changes nothing else |
| `Coordination.WaitForAnyOnEveryRun` | coop/detail/multi_coordinator.h:29-84 | on every run a wait that blocked ends so |
| `Coordination.TakeAtOnceOnEveryRun` | coop/detail/multi_coordinator.h:29-39 | on every run a wait that finds a free coordinator ends so |
| `Coordination.NotifyContract` | coop/signal.cpp:29-48 | Notify opens the signal for good, makes every waiter runnable and satisfied, and changes no other coordinator |
| `Coordination.NotifyStartKeeps` | coop/signal.cpp:29-41 | stealing the wait list before waking anyone keeps the invariant |
| `Coordination.NotifyNextKeeps` | coop/signal.cpp:43-47 | each switch to a stolen waiter keeps the invariant and wakes that waiter |
| `Coordination.StepKeeps` | coop/coordinator.cpp:38-124 | every scheduling, acquire, release, finish and notify step of any context keeps the invariant |
| `Coordination.BlockedIsRemembered` | coop/detail/multi_coordinator.h:41-53 | a blocked context is linked on every coordinator it waits for, each held by someone else, or is in a notifier's hands |
| `Coordination.AlwaysExclusive` | coop/coordinator.cpp:38-113 | a free coordinator has nobody waiting and a plain one was given to at most one context |
| `Coordination.SafeOnEveryRun` | coop/coordinator.cpp:38-124 | on every run of any contexts: no blocked context is forgotten, no context runs on unsatisfied, coordinators are exclusive and never free with waiters, so TryAcquire cannot overtake |
| `Coordination.KillShortcutAgrees` | coop/coordinate_with.h:242-289 | the single-coordinator shortcut of a kill-aware wait returns what the general path and its index translation would, in the same state |
| `Coordination.Coordinators.constructor` | coop/coordinator.cpp:28-31 | no waits in progress |
| `Coordination.Coordinators.WakeNode` | coop/cooperator.cpp:834-849 | marks the node satisfied and unblocks its context |
| `Coordination.Coordinators.TryAcquire` | coop/coordinator.cpp:38-47 | succeeds exactly on a free coordinator |
| `Coordination.Coordinators.ReleaseOne` | coop/coordinator.cpp:75-113 | the new state is Release of the old |
| `Coordination.Coordinators.AcquireStart` | coop/detail/multi_coordinator.h:35-53 | the try-all loop and the hook-all loop compute AcquireAny; the index reported is that of the first free coordinator |
| `Coordination.Coordinators.RemoveAsBlocked` | coop/coordinator.cpp:121-124 | the node leaves the list that holds it |
| `Coordination.Coordinators.GiveBack` | coop/detail/multi_coordinator.h:69-74 | the new state is PassOn of the old |
| `Coordination.Coordinators.CleanFrom` | coop/detail/multi_coordinator.h:66-79 | the inner loop computes CleanRest |
| `Coordination.Coordinators.CleanUp` | coop/detail/multi_coordinator.h:56-81 | the outer loop computes FinishWait and finds the first satisfied index |
| `Coordination.Coordinators.AcquireEnd` | coop/coordinate_with.h:112-138 | the index reported is the leftmost satisfied one and the context owns exactly that coordinator |
| `Coordination.Coordinators.NotifyAll` | coop/signal.cpp:29-48 | the loop over the stolen list computes Notify |
| `Channel.TryRecvKeeps` | coop/chan/channel.h:149-170 | TryRecv keeps the invariant |
| `Channel.TrySendKeeps` | coop/chan/channel.h:308-330 | TrySend keeps the invariant |
| `Channel.RecvKeeps` | coop/chan/channel.h:174-233 | a Recv up to its block keeps the invariant |
| `Channel.SendKeeps` | coop/chan/channel.h:336-389 | a Send up to its block keeps the invariant |
| `Channel.ContinueKeeps` | coop/chan/channel.h:196-389 | a woken receiver or sender running on from its acquire keeps the invariant |
| `Channel.ShutdownKeeps` | coop/chan/chan.cpp:9-29 | Shutdown keeps the invariant |
| `Channel.MirrorsOnEveryRun` | coop/chan/channel.h:37-46 | with any contexts and capacity at least one, at every operation boundary of the open channel recv is held exactly when empty and send exactly when full, so no receiver waits while there is data and no sender while there is room |
| `Channel.DeliveryOnEveryRun` | coop/chan/channel.h:149-389 | received values are a prefix of the sent ones and the buffer is the rest; nothing is sent after the close; blocking calls fail only after it, a receiver's only once everything is received; no internal assertion fails |
| `Channel.ClosedOnEveryRun` | coop/chan/chan.cpp:9-29 | once closed no receiver waits, and senders wait only while the close's second release is pending |
| `Channel.ShutdownWakesAll` | coop/chan/chan.cpp:9-29 | closing ends every waiting receiver, or refuses every waiting sender, once each in order of arrival, and keeps the buffered values |
| `RingBuffer.RingPut` | coop/chan/channel.h:461-474 | writing at the wrapped tail appends to the contents |
| `RingBuffer.RingGet` | coop/chan/channel.h:286-300 | reading at the head and stepping it with wrap-around drops the first of the contents |
| `Channel.Bounded.constructor` | coop/chan/channel.h:92-107 | an empty channel with recv held |
| `Channel.Bounded.PutValue` | coop/chan/channel.h:461-474 | the ring buffer grows by the value, or reports full |
| `Channel.Bounded.GetValue` | coop/chan/channel.h:286-300 | the ring buffer's first value is removed and returned |
| `Channel.Bounded.TakeNow` | coop/chan/channel.h:149-170 | the new state is TryRecv of the old, the value its first |
| `Channel.Bounded.OfferNow` | coop/chan/channel.h:308-330 | the new state is TrySend of the old; succeeds exactly when open and not full |
| `Channel.Bounded.RecvAcquired` | coop/chan/channel.h:205-232 | the new state is RecvLoop of the old |
| `Channel.Bounded.Receive` | coop/chan/channel.h:174-233 | the new state is Recv of the old |
| `Channel.Bounded.SendAcquired` | coop/chan/channel.h:361-388 | the new state is SendLoop of the old |
| `Channel.Bounded.Offer` | coop/chan/channel.h:336-389 | the new state is Send of the old |
| `Channel.Bounded.Close` | coop/chan/chan.cpp:9-29 | the new state is Shutdown of the old; only the first close reports true |
| `Channel.Bounded.RunWoken` | coop/chan/channel.h:196-389 | the new state is Continue of the old |
| `Channel.Bounded.ResumeTail` | coop/chan/channel.h:219-230 | the second release of an operation that was switched away from runs on the state it finds |
| `Subscription.SendKeeps` | coop/chan/channel.h:336-389 | a send by the one producer keeps the channel invariant and never unqueues the arm |
| `Subscription.ResumeProducerKeeps` | coop/chan/channel.h:361-388 | a producer woken without a switch finishes its send into the room left for it |
| `Subscription.ShutdownKeeps` | coop/chan/chan.cpp:9-29 | closing queues the arm and turns a blocked producer away |
| `Subscription.DrainContract` | coop/chan/subscribe.h:357-372 | draining in batches of sixteen hands the handler exactly the buffered values in order, takes recv again on the last, and wakes a blocked producer |
| `Subscription.FireKeeps` | coop/chan/subscribe.h:328-390 | a fire leaves the arm registered on an empty open channel or retired after the close, having seen everything sent |
| `Subscription.ArmInitialKeeps` | coop/chan/subscribe.h:300-326 | initial arming adopts buffered values, retires on a closed empty channel, and registers otherwise |
| `Subscription.StepKeeps` | coop/chan/subscribe.h:158-390 | every send, wake-up, close, arming and fire keeps the invariant |
| `Subscription.FanInOnEveryRun` | coop/chan/subscribe.h:300-390 | on every run each handler has seen a prefix of what was sent, in order, the rest being buffered; listed exactly when linked; anything left to see has its arm queued; an arm retires only after the close having seen it all |
| `Subscription.CompletionOnEveryRun` | coop/chan/subscribe.h:202-208 | the live count is the number of arms not retired and completion is released exactly once, when the last one retires |
| `Subscription.ArmCell.Drain` | coop/chan/channel.h:239-259 | up to the given number of values from the front and no others, a blocked producer woken by the first that makes room, recv acquired when emptied |
| `Subscription.ArmCell.FireOnce` | coop/chan/subscribe.h:357-390 | the batch loop computes Fire |
| `IoHandle.DeliverKeeps` | coop/io/handle.cpp:240-278 | each completion event lowers the counter by one; only the last releases the coordinator |
| `IoHandle.StepKeeps` | coop/io/handle.cpp:54-278 | submit, cancel, wait, kill, destroy and every delivery keep the handle invariant, and change the ring's count by the change of being in flight |
| `IoHandle.HeldUntilLast` | coop/io/handle.cpp:54-278 | while events are owed the coordinator stays held; it is released by the last one only, and the destructor does not finish before |
| `IoHandle.OneShot.constructor` | coop/io/handle.cpp:26-52 | nothing in flight |
| `IoHandle.OneShot.SubmitOp` | coop/io/handle.cpp:64-127 | one event owed, or two with a linked timeout; the ring counts one more operation |
| `IoHandle.OneShot.CancelOp` | coop/io/handle.cpp:129-147 | one more event owed if anything is in flight, nothing otherwise |
| `IoHandle.OneShot.FinalizeOp` | coop/io/handle.cpp:240-254 | counts down; at zero the ring counts one less and the coordinator is released |
| `IoHandle.OneShot.Callback` | coop/io/handle.cpp:261-278 | the new state is Deliver of the old |
| `IoHandle.OneShot.Destruct` | coop/io/handle.cpp:54-62 | returns at once exactly when nothing is in flight, else cancels and blocks |
| `ArmedHandle.KernelKeeps` | coop/io/armed_handle.cpp:140-151 | an event the kernel posts takes its buffer out of the pool and keeps the invariant |
| `ArmedHandle.ReapKeeps` | coop/io/armed_handle.cpp:140-219 | reaping an event keeps the invariant and changes the ring's count by the end and re-arm of the multishot |
| `ArmedHandle.ReapConserves` | coop/io/armed_handle.cpp:140-219 | the event's buffer goes to the queue, or back to the pool during teardown; none is lost or doubled |
| `ArmedHandle.NextKeeps` | coop/io/armed_handle.cpp:277-309 | Next keeps the invariant whether it hands out a chunk, reports the end or parks |
| `ArmedHandle.DestroyKeeps` | coop/io/armed_handle.cpp:47-73 | the destructor's first half cancels a live multishot or releases the coordinator, conserving buffers |
| `ArmedHandle.StepKeeps` | coop/io/armed_handle.cpp:47-309 | every kernel, delivery and caller step keeps the invariant, conserves buffers and accounts for the ring's count |
| `ArmedHandle.InOrder` | coop/io/armed_handle.cpp:140-309 | outside teardown the consumer sees events in the order the kernel posted them: a step adds one at the end, hands out the oldest, or changes nothing |
| `ArmedHandle.QueueBound` | coop/io/armed_handle.cpp:252-266 | with every buffer in one place the queue holds at most one chunk more than the pool has buffers |
| `ArmedHandle.ChunkQueue.Put` | coop/io/armed_handle.cpp:252-266 | the circular queue grows by the chunk; it is sized on first use |
| `ArmedHandle.ChunkQueue.Take` | coop/io/armed_handle.cpp:268-275 | the circular queue's first chunk is removed and returned |
| `ArmedHandle.Multishot.ArmOp` | coop/io/armed_handle.cpp:75-103 | the multishot is live, the coordinator held, the ring counts one more |
| `ArmedHandle.Multishot.OnRecvEvent` | coop/io/armed_handle.cpp:140-219 | the new state is Reap of the old, and the queue assertion cannot fail |
| `ArmedHandle.Multishot.OnCancelAckEvent` | coop/io/armed_handle.cpp:221-230 | the new state is OnCancelAck of the old, the ring counts one less |
| `ArmedHandle.Multishot.NextChunk` | coop/io/armed_handle.cpp:277-309 | the new state is Next of the old |
| `ArmedHandle.Multishot.Destruct` | coop/io/armed_handle.cpp:47-73 | the new state is Destroy of the old |
| `Uring.PendingOpsOnEveryRun` | coop/io/handle.cpp:72-250 | on every run of any handles the ring's counter is the number of one-shot operations in flight, live multishots and unanswered cancels |
| `Uring.HandleOnEveryRun` | coop/io/handle.cpp:54-147 | for every one-shot handle and every arrival order: the counter is what the kernel owes, the coordinator is held until then and released once per operation, and a destroyed handle is owed nothing |
| `Uring.BufferOnEveryRun` | coop/io/armed_handle.cpp:140-309 | every pool buffer is in exactly one of: the pool, an undelivered event, a chunk queue, the caller's hands |
| `Uring.MultishotOnEveryRun` | coop/io/armed_handle.cpp:47-309 | the queue stays within its room; a consumer blocked in Next has an empty queue, a live multishot and the park flag; a destroyed handle is owed neither event nor cancel answer |
| `Epoch.LowestCovers` | coop/epoch/epoch.cpp:49-66 | the scan's result is at or below every pin, and is one of them when there is any |
| `Epoch.ReclaimIsExact` | coop/epoch/epoch.cpp:240-258 | on a sorted queue, stopping at the first protected entry frees exactly the entries below the boundary, in order |
| `Epoch.FreedInOrder` | coop/epoch/epoch.cpp:167-258 | over any step, freed entries followed by queued ones only ever grow by a new retirement, so each is freed at most once and in order; epochs never go back |
| `Epoch.StepKeeps` | coop/epoch/epoch.cpp:83-258 | every pin, unpin, retire, reclaim, advance and context change keeps the invariant |
| `Epoch.PinsProtectOnEveryRun` | coop/epoch/epoch.cpp:91-258 | on every run a no-argument Reclaim keeps every entry stamped at or above a live pin, hence everything retired since a context's Enter that it has not left |
| `Epoch.ExactOnEveryRun` | coop/epoch/epoch.cpp:167-258 | on every run the retire queue is sorted, so Reclaim(boundary) frees exactly the entries stamped below it |
| `Epoch.Manager.constructor` | coop/epoch/epoch.cpp:24-34 | the new manager is an initial state of the machine |
| `Epoch.Manager.PublishWatermark` | coop/epoch/epoch.cpp:49-80 | the running minimum over all contexts is the lowest pin |
| `Epoch.Manager.EnterTraversal` | coop/epoch/epoch.cpp:97-105 | the new state is Enter of the old |
| `Epoch.Manager.ExitTraversal` | coop/epoch/epoch.cpp:113-120 | the new state is Exit of the old |
| `Epoch.Manager.PinApplication` | coop/epoch/epoch.cpp:128-156 | the new state is Pin of the old, for pinning and unpinning |
| `Epoch.Manager.RetireOne` | coop/epoch/epoch.cpp:167-183 | the new state is Retire of the old; the links spell the queue before and after |
| `Epoch.Manager.SafeEpoch` | coop/epoch/epoch.cpp:212-232 | the minimum over the registry is the safe epoch of the state |
| `Epoch.Manager.FreeFront` | coop/epoch/epoch.cpp:240-258 | the loop frees the longest prefix below the boundary, in order; head, tail and count agree |
| `Epoch.Manager.ReclaimTo` | coop/epoch/epoch.cpp:240-258 | the new state is ReclaimBelow of the old; the links spell the queue |
| `Epoch.Manager.ReclaimSafe` | coop/epoch/epoch.cpp:234-238 | the new state is Reclaim of the old |
| `ContextTree.DescendKeeps` | coop/context.cpp:126-132 | going down to the leftmost leaf skips nothing of the post-order |
| `ContextTree.NextStopIsNext` | coop/context.cpp:140-154 | the next sibling's leftmost leaf, or else the parent, is the next in the post-order, and one fewer remains |
| `ContextTree.PostMembers` | coop/context.cpp:115-157 | the post-order of a context contains exactly it and its descendants |
| `ContextTree.PostChildrenFirst` | coop/context.cpp:115-157 | nothing in the post-order comes after one of its ancestors, and nothing comes twice |
| `ContextTree.KillReaches` | coop/context.cpp:115-157 | killing marks exactly the contexts at or below the target |
| `ContextTree.SpawnKeeps` | coop/context.cpp:9-42 | spawning under a live context keeps the invariant |
| `ContextTree.DetachKeeps` | coop/context.cpp:89-98 | detaching keeps the invariant and wakes the parent's destructor after its last child |
| `ContextTree.KillKeeps` | coop/context.cpp:115-157 | killing keeps the invariant: a killed context's children are killed |
| `ContextTree.DestroyKeeps` | coop/context.cpp:45-56 | the destructor up to its own kill signal keeps the invariant: detached, killed, its children still counted |
| `ContextTree.JoinKeeps` | coop/context.cpp:64-67 | the wait for the last child keeps the invariant, and the context leaves at once exactly when it has no children |
| `ContextTree.LifetimeOnEveryRun` | coop/context.cpp:9-98 | on every run, with other contexts running between the destructor's kill and its wait: a parent exists and lists its child, lastChild is held exactly while there are children until the destructor takes it, a destructor waits only while children remain, killed contexts have killed children |
| `ContextTree.LeavesChildless` | coop/context.cpp:64-67 | on every run a context leaves the list of all contexts only with no children left |
| `ContextTree.Contexts.SpawnContext` | coop/cooperator.hpp:62-97 | the new state is Spawn of the old; refused exactly under a killed context |
| `ContextTree.Contexts.DetachContext` | coop/context.cpp:89-98 | the new state is Detach of the old |
| `ContextTree.Contexts.DestructStart` | coop/context.cpp:45-56 | detach, then the kill walk unless killed already: a Destroys step |
| `ContextTree.Contexts.JoinChildren` | coop/context.cpp:64-67 | the new state is Join of the old |
| `ContextTree.Contexts.KillFrom` | coop/context.cpp:115-157 | the iterative walk over links notifies exactly the recursive post-order, with the number of contexts left as measure |
| `HttpChunked.AppendKeepsOrder` | coop/http/connection.cpp:809-842 | a successful append adds exactly its bytes at the end of what was written, for every buffer size |
| `HttpChunked.HexRoundTrip` | coop/http/connection.cpp:869-889 | the client's loop over a 64-bit word inverts the server's printer on every size |
| `HttpChunked.EmitAppends` | coop/http/connection.cpp:1000-1022 | a successful emission puts the due headers and its parts on the wire and nothing else |
| `HttpChunked.WireIsResponse` | coop/http/connection.cpp:987-1072 | for every send buffer size and every list of non-empty chunks, a response sent without error is on the wire byte for byte |
| `HttpChunked.StatusRoundTrip` | coop/http/response_constants.cpp:34-56 | the client reads the status back from the line of a known status and rejects the line of an unknown one |
| `HttpChunked.LineRead` | coop/http/client.cpp:203-379 | any line with a colon is read as a header and parsing goes on after it, or at a stray CR |
| `HttpChunked.HeaderRead` | coop/http/client.cpp:203-379 | a header line is read as its name and value and parsing goes on after it |
| `HttpChunked.OneLineIsClean` | coop/http/client.cpp:203-379 | every content type without a CR is clean |
| `HttpChunked.HeadRead` | coop/http/client.cpp:103-436 | from a header block with a clean content type the client reaches the body knowing the status, the coding and that the server closes if it does; with an unknown status it fails |
| `HttpChunked.ChunkRead` | coop/http/client.cpp:531-609 | one chunk is delivered whole by one call |
| `HttpChunked.RoundTrip` | coop/http/client.cpp:457-609 | successive calls of ReadBody on a buffered response with a known status and a clean content type return exactly the chunks |
| `HttpChunked.UncleanFate` | coop/http/client.cpp:203-436 | after an unclean content type the client gives up, or takes for the body text that is the same whatever the chunks are |
| `HttpChunked.UncleanLoses` | coop/http/client.cpp:203-510 | an unclean content type loses one of two one-byte bodies |
| `HttpChunked.RoundTripExactly` | coop/http/connection.cpp:987-1072 | every list of chunks is read back if and only if the status has a line and the content type is clean |
| `HttpChunked.TypeWithLineEndReadsNothing` | coop/http/connection.cpp:987-1022 | with a content type that ends in CR LF no body is read |
| `HttpChunked.UnknownReadsNothing` | coop/http/client.cpp:132-167 | from a response with an unknown status nothing is read |
| `HttpChunked.RoundTripIffKnown` | coop/http/client.cpp:457-609 | with a clean content type, given non-empty chunks are read back if and only if the server has a line for the status |
| `HttpChunked.EndToEnd` | coop/http/connection.cpp:987-1072 | from server calls to client calls, for every send buffer size, known status and clean content type |
| `HttpChunked.TeapotIsLost` | coop/http/response_constants.cpp:32-56 | a status without a line, and a body the client does not see |
| `HttpChunked.Connection.FlushBuffer` | coop/http/connection.cpp:834-842 | the new state is Flush of the old |
| `HttpChunked.Connection.AppendBytes` | coop/http/connection.cpp:809-831 | the new state is Append of the old |
| `HttpChunked.Connection.AppendHex` | coop/http/connection.cpp:869-889 | the digits of the value are appended |
| `HttpChunked.Connection.HexText` | coop/http/connection.cpp:871-886 | the backwards loop over sixteen cells never runs out of room and yields the digits |
| `HttpChunked.Connection.BeginChunked` | coop/http/connection.cpp:987-997 | headers are due before the first chunk |
| `HttpChunked.Connection.WriteChunk` | coop/http/connection.cpp:1000-1022 | the new state is SendChunk of the old; an empty chunk is refused |
| `HttpChunked.Connection.Finish` | coop/http/connection.cpp:1026-1072 | the new state is EndChunked of the old |
| `HttpChunked.ClientConnection.constructor` | coop/http/client.cpp:43-62 | nothing parsed |
| `HttpChunked.ClientConnection.ParseSize` | coop/http/client.cpp:581-591 | the hex loop, which stops at an extension, computes HexValue |
| `HttpChunked.ClientConnection.ReadResponseLine` | coop/http/client.cpp:103-167 | the new state is GetResponseLine of the old |
| `HttpChunked.ClientConnection.ReadStatus` | coop/http/client.cpp:132-167 | the three-digit loop computes ParseStatus |
| `HttpChunked.ClientConnection.ReadHeader` | coop/http/client.cpp:203-379 | the new state is NextHeader of the old |
| `HttpChunked.ClientConnection.SkipToBody` | coop/http/client.cpp:424-436 | the loop over header lines computes ToBody |
| `HttpChunked.ClientConnection.ReadChunkedBody` | coop/http/client.cpp:531-609 | the new state and the data are those of ReadChunked |
| `HttpChunked.ClientConnection.ReadSizedBody` | coop/http/client.cpp:469-510 | the new state and the data are those of ReadSized |
| `HttpChunked.ClientConnection.ReadNext` | coop/http/client.cpp:457-510 | the new state and the data are those of ReadBody |

## Left out

- EmbeddedList.List.Peek: says nothing about an empty list, on which the source returns the sentinel reinterpreted as an element; its callers ask `IsEmpty` first.
- Passage.NoLostWakeOnEveryRun: claims no wake for items after a refused submission, nor for a shutdown after that or after a `Send` that found the target shutting down, where each is false (`RefusedSubmitLosesWake`, `RefusedShutdownLosesWake`, `AbandonedSendLosesWake`).
- HttpChunked.RoundTrip: claims body bytes only; the CRLF after the zero chunk stays unread.
- Weak memory orders, the assembly context switch, stacks, thread pinning, eventfd and mmap.
- `SpscRing`, and a sender that is the target cooperator itself (its wake would run as a spawned context).
- `Coordinator::Flash`, `CoordinateWithTimeout` and the timer behind it: an acquire followed by a release, and one more coordinator at the end of the list.
- Continuations among a coordinator's context waiters: a popped continuation leaves the coordinator free with later waiters queued.
- Zero-capacity channels, `SendAll`, `Select`, and `Drain` beside other senders: they do not keep held-iff-full.
- `Stop`, `CancelAll` and `Cancel` of a subscription, and its join.
- Priorities, cycle accounting, timers and cross-thread submissions in the cooperator loop.
- Return of queued chunks when an armed handle is destroyed: the source recycles only the lent buffer.
- Epoch snapshots, the external watermark, the manager's destructor, and reclaim callbacks that retire.
- Launching an object whose constructor itself spawns; the context handle.
- HTTP input that arrives in pieces or is cut short: the model's client has the whole response in its buffer, held as a string, and stops where the source would wait for more bytes.
- The client's in-place NUL after a header name, content-length responses on the server side, requests, TLS, files.
- `GuardedPassage`, DNS, cross-thread submission completion, pools and allocators.
