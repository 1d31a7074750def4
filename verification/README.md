# Verification of the tiny-actor channel

A Dafny model of the coordination core of tiny-actor: the channel that addresses, inboxes and children share, the
futures that wait on it, the pool of tasks behind an actor, and the back-pressure arithmetic. Check everything with
`dafny verify dfyconfig.toml`.

## What is modelled

The channel is a closable queue, three events on which threads wait (receive, send, exit), a halt counter that
concurrent checks may drive below zero, and two counts (inboxes, addresses). The model has two layers over one value
of the shared state (`Core.dfy`).

**A transition system** (`Protocol.dfy`). Any number of threads run inboxes, sends, closers, halters and addresses.
Every atomic access is one step: a push, pop or close of the queue, a load or an update of a counter, registering,
polling or dropping a listener, one notification. A thread that has changed the state still owes the notifications
that follow (`todo`), so another thread can run between the change and each of them. The owner of a future may poll
it again at any time, or drop it; inboxes and addresses come and go; calls begin at any time. The properties are
proved by an inductive invariant (`Registration`, `Counting`, `Wakeups`, `Halting`, `Verdicts`, `Messages`, `Answers`,
joined in `Invariant.dfy`) and stated for every reachable state (`Guarantees.dfy`), for every run (`Runs.dfy`), and for runs
that come to rest (`Progress.dfy`, `Quiescence.dfy`). History variables record accepted and taken messages, what
inboxes answered, inboxes told to halt, credits issued and the most inboxes ever live; no step reads them.

**Objects** (`Channel.dfy`, `Receiving.dfy`, `Sending.dfy`, `Address.dfy`, `ChildPool.dfy`, `Shutdown.dfy`). Classes
with the fields and loops of the source, updated in place. Each method states its answer and the whole state it
leaves when it runs without interference. `Agreement.dfy` ties the layers together: a thread of the transition
system that is not interrupted ends with the answer and the shared state that the method promises.

The wake-up guarantees have one shape (`Wakeups.Kept`): either there is nothing to wake for, or a notified listener
will act, or nobody is parked without a notification, or some thread is in flight. Seven promises instantiate it. The
proof reduces each to a condition on the one thread that moves (`DischargedKeeps`). Two steps break that condition,
a receiver that consumed a notification and is then told to halt, and a sender that consumed one and finds the queue
closed. For six promises both are covered by another promise (`ExcuseIsCovered`). The seventh, a message for a
receiver that was told to halt before, is kept until the first of these two steps happens: the history variable
`wasted` counts them, and at zero the promise holds for every receiver. `Due` says when each promise is made.

### Assumptions

- **concurrent_queue** is a linearizable sequence with an optional positive capacity and a closed flag that is never
  reset. A push into a closed queue answers Closed even when it is full; a pop answers Closed only when the queue is
  closed and empty.
- **event_listener** (version 2) keeps its listeners in order of registration. `notify(n)` makes sure that at least n
  active listeners are notified, so one that is notified already counts; the notified ones are a prefix of the list.
  A ready poll removes the listener, and dropping a notified one passes the notification on. `Events.dfy` is this
  specification.
- **Atomics** are sequentially consistent. `usize` and `u64` have 64 bits, and `usize` addition wraps around as in a
  release build.
- **Counts** of inboxes, addresses and listeners and lengths of queues are unbounded natural numbers; the overflow of a
  `usize` counter is not modelled.
- **Tasks** are handles that are running or have ended with an outcome; **timers** are bits that have fired or not.
  A **floating-point** growth factor is an ideal non-negative real number.
- A run starts from a channel whose counts agree with its live inboxes (at least one) and addresses.
- `Small` in a statement means that at most i32::MAX inboxes were ever live at once. It is needed only so that the
  halt counter does not wrap around, and assumed only where that counter matters.

### Where the source and its documentation differ

The model follows the code.

- `BackPressure::linear` documents `timeout * (msg_count - start_at)`; the code multiplies by one more
  (src/config/mod.rs:189-190 and 253).
- The comment on `address_count` says that the channel closes at zero, and `remove_address` documents a notification;
  the code does neither (src/channel/mod.rs:24-25, src/channel/channel_trait.rs:117-130).
- `inbox_should_halt` documents that it decrements whenever it is called; it does so only if it first read a positive
  count (src/channel/mod.rs:156-165).
- A disabled back pressure still answers a timeout, of zero, at exactly `usize::MAX` messages
  (src/config/mod.rs:232-243).
- README.md:59 promises one halt for each process. An inbox is told at most once; but one that keeps receiving
  afterwards can stay parked although a message waits (`Limits.ToldReceiverCanBeStranded` says exactly from when on).

## Model

| member | source | states |
|---|---|---|
| Guarantees.NoLostMessage | src/channel/receiving.rs:80-124 | In every reachable state: if a message waits, a receiver is parked without a notification, and nothing is in flight, then another inbox holds a notification. This holds for every unsignalled receiver, and for signalled ones too as long as no inbox was told to halt right after consuming a notification. Cancelled polls and dropped futures are included. |
| Guarantees.NoSendDeadlock | src/channel/sending.rs:104-141 | If a sender is parked, no sender is notified and nothing is in flight, then a message is left in an open queue, and the notification of its pop reaches a sender. |
| Guarantees.CloseReachesEveryone | src/channel/channel_trait.rs:45-53 | Once the call that closed the queue has made its notifications, no receiver and no bounded sender is parked without a notification, whatever halters and later closers are doing. |
| Guarantees.HaltReachesEveryone | src/channel/channel_trait.rs:61-77 | While halt credits are left and no halt_some stands between its update and its notification, no unsignalled receiver is parked without a notification, whatever closers are doing. |
| Guarantees.ExitReachesEveryAddress | src/actor/address.rs:114-131 | Once the last inbox has left and notified, no address is parked without a notification. |
| Guarantees.AddressIsSound | src/actor/address.rs:117-130 | An awaited address is ready only when no inbox is live, and polling it again after that never touches the consumed listener. |
| Guarantees.ParkedIsRegistered | src/channel/receiving.rs:95-117 | A listener is held while a poll is pending and not between polls or after the end, under any interference; no listener is registered twice. |
| Guarantees.PromiseReaches | src/channel/mod.rs:132-154 | The common form: with something to wake for and nothing in flight, a parked thread is notified, or one that will notify it is, whenever the promise is due. |
| Guarantees.CreditsAreConserved | src/channel/mod.rs:161-175 | Credits issued (each request, cut only by saturation at i32::MAX) equal the inboxes told to halt plus the positive part of the counter, under every interleaving of load, subtraction and update; the told inboxes are distinct and are exactly the signalled ones, however many there are. |
| Guarantees.OvershootIsBounded | src/channel/mod.rs:161-171 | With p inboxes between load and subtraction and at most M live inboxes ever, the counter minus p is at least 1 - M, so the subtraction never wraps around. |
| Guarantees.TotalHaltIsForever | src/channel/channel_trait.rs:147-150 | After a total halt, with fewer than i32::MAX inboxes ever created, the counter is positive in every later state. |
| Guarantees.FirstInFirstOut | src/channel/mod.rs:132-154 | Over every run the accepted messages are the messages taken, in order, followed by the queue; none is accepted twice. |
| Guarantees.EveryMessageIsInOnePlace | src/channel/sending.rs:104-161 | Every submitted message is in exactly one place: with a call that is still sending, handed back to the caller by an error, dropped with an unfinished call, in the queue, with one receiver, or discarded by one leaving inbox; the first three exactly until it is accepted. |
| Guarantees.CallerKnows | src/channel/sending.rs:16-28 | A send that reports success was accepted and returns nothing; a send that reports an error was not accepted and returns the very message. |
| Guarantees.ReceiverIsHonest | src/channel/receiving.rs:15-25 | A message that an inbox returned was taken by that inbox and by no other. |
| Guarantees.EveryTakenMessageIsAnswered | src/channel/receiving.rs:80-118 | Over every run, what an inbox took for receiving is what it returned to its callers, in order, and at most one message more, which the poll in progress is about to return. |
| Guarantees.HaltIsAnsweredOnce | src/channel/receiving.rs:15-19 | An inbox is told to halt exactly by one answer Halted, and over every run it gives no other. |
| Runs.MessagesMoveOn | src/channel/sending.rs:104-161 | Over every run messages only move on, from the sender to the queue or back to the caller, and from the queue to one receiver or to the inbox that discards them; where a message was received, discarded, handed back or dropped it stays. |
| Answers.AnswerIsTrueWhenDecided | src/channel/receiving.rs:15-25 | Under every interleaving an attempt to receive is decided by the queue or the halt counter at one moment: with a message exactly if it takes the head, with Halted exactly if it takes a credit, with ClosedAndEmpty only if the queue is closed and empty, with Empty only if it is empty and open and the call is no future; and it finds nothing only then. |
| Answers.SendEndsTruly | src/channel/sending.rs:16-28 | Under every interleaving a send ends with success exactly when it appends its message to an open queue with room, and with a failure exactly when the queue is closed, or outside a future is full or under back pressure, at that moment. |
| Answers.PollNeverGivesUp | src/channel/receiving.rs:95-117 | A poll of a receive or bounded send goes on, returns the result it reached, or parks, and parks only while its listener is not notified. |
| Answers.ExitPollEndsProperly | src/actor/address.rs:117-130 | A poll of an address ends with the answer or parked: with the answer whenever a check finds no inbox left or the listener is notified, and only after the exit. |
| Answers.StepStaysAnswered | src/channel/receiving.rs:40-62 | Every message and every halt is answered once or about to be, kept by every step. |
| Guarantees.CountersAreExact | src/channel/mod.rs:108-111 | Both counts equal the live handles in every reachable state, so neither decrement underflows and both assertions hold. |
| Runs.CloseIsFinal | src/channel/channel_trait.rs:45-53 | After a close no message is ever accepted, and what is delivered later is a prefix of what was queued then. |
| Runs.ClosedAndEmptyIsFinal | src/channel/receiving.rs:15-25 | Once an inbox saw ClosedAndEmpty, no message is accepted, received or discarded ever again. |
| Runs.ExitIsFinal | src/channel/mod.rs:108-123 | When the last remove_inbox has returned, the channel is closed and empty for good and no inbox can be added, even if pushes landed between the decrement and the close. |
| Runs.NoInboxAfterExit | src/channel/mod.rs:77-92 | From the moment the inbox count is zero it stays zero and try_add_inbox refuses. |
| Runs.HaltsWhatItCan | src/channel/mod.rs:161-175 | In any interleaving that issues no credit and adds no inbox, once every candidate was told or has completed a later check, exactly min(credits, candidates) were told. |
| Runs.ExactPartialHalt | src/channel/channel_trait.rs:61-77 | After one halt_some(n), with c credits left over (a counter below zero counts as c = 0) and k live unsignalled inboxes, exactly min(c + n, k) are told, in every interleaving; c + n stops at i32::MAX. |
| Quiescence.WakeUpsHaltWhatTheyCan | src/channel/channel_trait.rs:61-77 | The same by notifications alone: in any run that issues no credit, adds no inbox and comes to rest with every candidate told or parked in a receive, exactly min(credits, candidates) were told; nobody is assumed to check again. |
| Quiescence.PartialHaltIsExactAtRest | src/channel/channel_trait.rs:61-77 | One halt_some(n), with c credits left over, among k such inboxes has told exactly min(c + n, k) of them at rest. |
| Runs.TotalHaltTellsAtNextCheck | src/channel/receiving.rs:15-19 | After a total halt, with fewer than i32::MAX inboxes ever created, every inbox that completes a halt check which it starts later is told, in every interleaving; inboxes spawned later, further credits and other checks included. |
| Runs.TotalHaltComesFirst | src/channel/receiving.rs:15-19 | And it is told before any message: until it is told it receives nothing more, unless its current attempt had already passed its halt check. |
| Runs.TrySendBoundsTheQueue | src/channel/sending.rs:20-28 | If messages enter an unbounded channel only by try_send, with at most k >= 1 callers between check and push, queue length plus those callers is at most starts_at + k - 1 after every run. |
| Progress.DrivenStepDecreases | src/channel/receiving.rs:80-118 | Every step that an executor takes on its own (running, polling a notified future, dropping a completed send) strictly decreases a measure of the state. |
| Progress.EveryDrivenRunEnds | src/channel/receiving.rs:95-117 | There is no infinite run of such steps, whatever the schedule. |
| Progress.EveryStateCanComeToRest | src/channel/sending.rs:121-140 | From every reachable state such steps can lead to a state of rest, so the claims about rest are never empty. |
| Progress.NobodyIsStrandedAtRest | src/channel/receiving.rs:95-117 | At rest, a parked unsignalled receiver means an empty open queue and no halt credit; a parked signalled one means an empty open queue as long as no inbox was told to halt right after consuming a notification; a parked sender means a message in an open queue; a parked address means that the actor has not exited. |
| Quiescence.EveryActorCanExit | src/channel/mod.rs:108-123 | From every reachable state the inboxes can be dropped, and then no inbox is left, the channel is closed and empty, and nobody is parked on it. |
| Quiescence.ExitIsCleanAtRest | src/channel/mod.rs:113-120 | At rest with no inbox left the channel is closed and empty: the last inbox has always cleaned up. |
| Quiescence.AwaitedExitIsSeen | src/actor/address.rs:117-130 | An address that is awaited and not dropped has seen the exit at rest once no inbox is left, even if the last inbox left in the middle of a poll. |
| Progress.LoopIsBoundedByNotifications | src/channel/receiving.rs:95-117 | Under any interference the loop of one poll makes fewer than 16 steps, and at most 16 more for each notification given to it meanwhile. |
| Limits.ToldReceiverCanBeStranded | src/channel/receiving.rs:107-113 | A receiver can be left parked at rest although a message waits in an open channel if and only if it was told to halt itself; one inbox told to halt right after consuming a notification is enough (a concrete run), and without any it never happens. |
| Limits.FreeSpaceMayWakeNobody | src/channel/sending.rs:130-133 | For every capacity above zero: a sender can be left parked at rest although the bounded queue has room if and only if the capacity is at least two. |
| Invariant.StepKeepsInvariant | src/channel/mod.rs:44-191 | Every step of every thread keeps the whole invariant. |
| Invariant.ReachableIsInvariant | src/channel/mod.rs:44-191 | Every reachable state satisfies the invariant. |
| Registration.StepStaysRegistered | src/channel/receiving.rs:95-117 | Which program counters hold a listener, which may, and which never do; every step keeps it. |
| Counting.StepStaysCounted | src/channel/mod.rs:108-111 | Counts equal live handles and the halt counter's bound holds after every step. |
| Counting.SubtractionNeverWraps | src/channel/mod.rs:163-165 | An inbox about to subtract finds the counter above i32::MIN. |
| Wakeups.StepKeepsPromises | src/channel/mod.rs:132-154 | Every step keeps every promise that is due: space, closing and exiting always; messages to any receiver until an inbox is told to halt right after consuming a notification; halting, and messages to receivers not told, as long as the counter cannot wrap around. |
| Wakeups.DischargedKeeps | src/channel/mod.rs:132-154 | A promise is kept by the whole system if the thread that moves meets a condition on itself and the shared state. |
| Wakeups.ExcuseIsCovered | src/channel/receiving.rs:107-113 | A receiver told to halt after consuming a notification, or a sender that finds the queue closed after it, breaks no promise. |
| Wakeups.DeliverWakes | src/channel/mod.rs:132-154 | What one notification does to the listeners of each promise. |
| Halting.StepConserves | src/channel/mod.rs:161-175 | Credits issued are told inboxes plus the counter's positive part, kept by every step. |
| Halting.StepHaltsOnce | src/channel/receiving.rs:15-19 | The record of halts holds each signalled inbox exactly once, kept by every step. |
| Halting.StepKeepsPlenty | src/channel/channel_trait.rs:147-150 | After a total halt the counter is at least i32::MAX minus the inboxes told, kept by every step. |
| Verdicts.StepStaysReliable | src/channel/mod.rs:108-123 | Closed, closed-and-empty and exited stay true, and every thread may rely on the one it saw. |
| Messages.StepKeepsFifo | src/channel/mod.rs:132-154 | Accepted messages are taken messages followed by the queue, kept by every step. |
| Messages.StepKeepsOwned | src/channel/sending.rs:104-161 | A call knows that its message was accepted exactly when it was, and otherwise hands it back, kept by every step. |
| Messages.StepKeepsReceipts | src/channel/receiving.rs:15-25 | What an inbox was handed is what it took, kept by every step. |
| Events.NotifyReachesAtLeast | src/channel/mod.rs:132-138 | The library's "at least n" rule, for any n: nobody is removed, notified listeners stay notified, and at least n are notified unless all are. |
| Events.NotifyAllReachesEveryone | src/channel/channel_trait.rs:45-53 | notify(usize::MAX) leaves no listener waiting. |
| Events.ListenGoesLast | src/channel/mod.rs:178-190 | A new listener is the last to be notified. |
| Events.DropKeepsNotification | src/channel/receiving.rs:121-125 | Dropping a listener loses no notification while another listener could take it. |
| Config.TimeoutExactlyFromStart | src/config/mod.rs:240-243 | There is a timeout exactly from starts_at messages on; disabled means never below usize::MAX. |
| Config.BuiltStartsWithTimeout | src/config/mod.rs:194-238 | linear and exponential panic exactly if the timeout does not fit or the factor is negative; what they build has the given start and factor and demands exactly the given timeout at starts_at messages; disabled demands zero at usize::MAX. |
| Core.MustWaitExactlyFromStart | src/channel/sending.rs:20-28 | Back pressure applies exactly on an unbounded channel with at least starts_at messages queued. |
| Core.WaitFollowsQueue | src/channel/sending.rs:94-100 | The timeout in terms of the queued messages: linear in the messages from starts_at on, or the ideal exponential, both cut off at u64::MAX. |
| Config.LinearFormulaExactlyWithoutOverflow | src/config/mod.rs:252-256 | Linear back pressure is min(base * (count - starts_at + 1), u64::MAX) if and only if the base is zero, starts_at is positive or count is below usize::MAX. |
| Config.LinearMonotone | src/config/mod.rs:252-256 | More messages never shorten a linear timeout, when the addition does not overflow. |
| Config.ExponentialMonotone | src/config/mod.rs:246-251 | Monotone for factors from 1 up, antitone up to 1, constant beyond the i32 exponent clamp, and the base at starts_at. |
| Config.ExponentialGrowsByFactor | src/config/mod.rs:246-251 | Each further message multiplies the ideal timeout by the factor, up to the exponent clamp; the u64 cast saturates. |
| Config.IdealNanosRecurs | src/config/mod.rs:247-249 | The ideal timeout is the base at starts_at and the factor times the previous one after that. |
| Config.CastTruncates | src/config/mod.rs:250 | The cast to u64 cuts off the fraction and stops at u64::MAX. |
| ChannelObject.Channel.constructor | src/channel/mod.rs:48-63 | A new channel is open and empty with the given counts, which are handles still to be made. |
| ChannelObject.Channel.PushMsg | src/channel/mod.rs:146-154 | The answer, the message handed back, and the state left; a refused push changes nothing. |
| ChannelObject.Channel.PopMsg | src/channel/mod.rs:132-138 | Head of the queue or the reason; one sender and one receiver are notified on success only. |
| ChannelObject.Channel.Close | src/channel/channel_trait.rs:45-53 | True exactly for the first close, which notifies everybody; a later one changes nothing. |
| ChannelObject.Channel.TrySend | src/channel/sending.rs:20-28 | Full without any change exactly on an unbounded channel with at least starts_at messages queued, else the push. |
| ChannelObject.Channel.HaltSome | src/channel/channel_trait.rs:61-77 | Saturating credit with a negative count read as zero, and every receiver notified. |
| ChannelObject.Channel.Halt | src/channel/channel_trait.rs:147-150 | The counter is i32::MAX, the queue is closed, and no receiver (nor, the first time, any sender) is left waiting. |
| ChannelObject.Channel.InboxShouldHalt | src/channel/mod.rs:161-175 | True exactly when a credit was there, which is then spent. |
| ChannelObject.Channel.TryRecv | src/channel/receiving.rs:15-25 | Halted once and before any message while credits are left, else the head of the queue or the reason. |
| ChannelObject.Channel.TryAddInbox | src/channel/mod.rs:77-92 | Refused exactly at count zero, without a change. |
| ChannelObject.Channel.Drain | src/channel/mod.rs:118-119 | The loop ends with an empty queue and, however many messages it dropped, at most one notification on each event. |
| ChannelObject.PoppedAllIsDrained | src/channel/mod.rs:118-119 | Popping one message after the other equals emptying the queue with one notification on each event, for a queue of any length. |
| ChannelObject.Channel.RemoveInbox | src/channel/mod.rs:108-123 | The last inbox closes, notifies every exit listener and drains; any other only decrements. |
| ChannelObject.AllLeftIsClean | src/channel/mod.rs:113-120 | After the last inbox left: closed, empty, and no listener of any event is left waiting. |
| ChannelObject.Channel.AddAddress | src/channel/channel_trait.rs:113-115 | One more counted address, whose handle is still to be made. |
| ChannelObject.Channel.RemoveAddress | src/channel/channel_trait.rs:125-130 | One address less; the count was positive. |
| ChannelObject.Channel.GetRecvListener | src/channel/mod.rs:178-180 | A listener that was not registered before goes to the end of the list, without a notification. |
| ChannelObject.Channel.GetSendListener | src/channel/mod.rs:183-185 | The same for senders. |
| ChannelObject.Channel.GetExitListener | src/channel/mod.rs:188-190 | The same for addresses. |
| Receiving.Inbox.constructor | src/actor/inbox.rs:22-29 | A new inbox is unsignalled, holds no listener and does not change the count. |
| Receiving.Inbox.TryRecv | src/actor/inbox.rs:33-35 | try_recv with the inbox's own flag, which is set exactly by a Halted answer. |
| Receiving.Inbox.PollTryRecv | src/channel/receiving.rs:40-62 | Every answer but Empty clears the listener slot; Empty changes nothing. |
| Receiving.Inbox.DropInbox | src/actor/inbox.rs:76-80 | Dropping leaves the channel and then drops the listener. |
| Receiving.RecvFut.Poll | src/channel/receiving.rs:80-118 | Without interference a poll answers exactly what try_recv would, within two turns; it is pending exactly when a listener is held, and that listener waits. |
| Receiving.RecvFut.DropFuture | src/channel/receiving.rs:121-125 | Dropping the future frees the slot and hands its notification on. |
| Sending.SendFut.constructor | src/channel/sending.rs:87-102 | A sleep exactly on an unbounded channel with at least starts_at messages queued at this moment, of the length demanded for that many; none on a bounded channel. |
| Sending.SendFut.PollBoundedSend | src/channel/sending.rs:104-141 | Sends if there is room, hands the message back if closed, else keeps it and parks with a listener that waits; at most two turns without interference. |
| Sending.SendFut.PollUnboundedSend | src/channel/sending.rs:143-152 | Nothing happens while the sleep lasts; then one push, refused exactly when closed. |
| Sending.SendFut.PollPushUnbounded | src/channel/sending.rs:154-161 | The push is never Full, and a refused message comes back. |
| Sending.SendFut.DropFuture | src/channel/sending.rs:61-72 | Dropping the future drops its listener, which hands a notification on to the next sender. |
| Agreement.CloseAgrees | src/channel/channel_trait.rs:45-53 | The uninterrupted closer of the transition system does what Channel.Close promises. |
| Agreement.HaltSomeAgrees | src/channel/channel_trait.rs:61-77 | The same for halt_some and Channel.HaltSome. |
| Agreement.HaltAgrees | src/channel/channel_trait.rs:147-150 | The same for halt and Channel.Halt. |
| Agreement.TryRecvAgrees | src/channel/receiving.rs:15-25 | The same for try_recv and Channel.TryRecv, answer and flag included. |
| Agreement.ReadyPollAgrees | src/channel/receiving.rs:80-93 | An uninterrupted poll with a result does what RecvFut.Poll promises. |
| Agreement.PendingPollAgrees | src/channel/receiving.rs:95-117 | An uninterrupted poll that finds nothing parks as RecvFut.Poll promises, consumed notification included. |
| Agreement.ReadySendAgrees | src/channel/sending.rs:104-119 | An uninterrupted attempt to send with a result does what SendFut.PollBoundedSend promises. |
| Agreement.PendingSendAgrees | src/channel/sending.rs:121-140 | An uninterrupted attempt into a full queue parks as SendFut.PollBoundedSend promises. |
| Agreement.SendNowAgrees | src/channel/sending.rs:16-18 | The uninterrupted single push of send_now does what Channel.PushMsg promises, on any capacity. |
| Agreement.TrySendAgrees | src/channel/sending.rs:20-28 | The uninterrupted try_send on an unbounded channel does what Channel.TrySend promises. |
| Agreement.UnboundedSendAgrees | src/channel/sending.rs:143-161 | Polled after its sleep, an unbounded send does what SendFut.PollUnboundedSend promises. |
| Agreement.AddressPollAgrees | src/actor/address.rs:117-130 | An uninterrupted poll of an address does what Address.Poll promises. |
| Agreement.DropAddressAgrees | src/actor/address.rs:145-149 | Dropping an address does what Address.DropAddress promises. |
| Agreement.RemoveLastInboxAgrees | src/channel/mod.rs:108-123 | The uninterrupted last inbox leaves as Channel.RemoveInbox promises. |
| Agreement.SpawnAgrees | src/channel/mod.rs:77-92 | In the transition system an inbox can be added exactly while one is left, and it starts unsignalled, as TryAddInbox promises. |
| Agreement.CloneAgrees | src/actor/address.rs:135-143 | An address can always be added, and it starts without a listener. |
| AddressObject.Address.FromParts | src/actor/address.rs:36-41 | A handle made from counted parts does not change the count. |
| AddressObject.Address.Poll | src/actor/address.rs:117-130 | Ready exactly when no inbox is left; otherwise a waiting listener is held, and a consumed one is never polled. |
| AddressObject.Address.Clone | src/actor/address.rs:135-143 | One more counted address on the same channel, without a listener. |
| AddressObject.Address.DropAddress | src/actor/address.rs:145-149 | One counted address less; the assertion holds, because the count is the number of handles. |
| AddressObject.Address.IntoParts | src/actor/address.rs:47-54 | Taking a handle apart does not change the count. |
| AddressObject.Address.IntoDyn | src/actor/address.rs:79-88 | Count and listener are kept; the new handle replaces the old one. |
| AddressObject.Address.Downcast | src/actor/address.rs:57-72 | Succeeds exactly for the channel's message type; success or failure, one handle replaces the old one with its listener. |
| AddressObject.GetAddress | src/actor/inbox.rs:44-47 | One more counted address. |
| AddressObject.DynRoundTrip | src/actor/address.rs:57-88 | into_dyn and then downcast to the same type gives an equal handle and leaves the count as it was. |
| Pools.PollTakesOne | src/actor/child_pool.rs:247-263 | End of stream exactly without handles; Pending exactly when all of some handles are unfinished; else one finished task is yielded and no other is lost. |
| Pools.SwapRemoveKeepsOthers | src/actor/child_pool.rs:257 | swap_remove loses exactly the chosen element, as multisets. |
| Pools.DrainingIsABijection | src/actor/child_pool.rs:247-263 | Whatever the order of completions, aborts and polls: handles yielded plus handles left are the handles of the start, each once, and each is yielded with the outcome of its own task. |
| Pools.EndedPoolIsYielded | src/actor/child_pool.rs:247-263 | If every task has ended, exactly as many polls as there are handles yield them all. |
| Pools.PolledIsPollNext | src/actor/child_pool.rs:247-263 | A poll in a run of the pool yields and removes what the poll of the object does. |
| Pools.ChildPool.constructor | src/actor/child_pool.rs:32-39 | A new pool holds its handles in order and is not aborted. |
| Pools.ChildPool.Abort | src/actor/child_pool.rs:63-71 | Every handle is aborted, the channel is closed, no outcome changes, and only the first call answers true. |
| Pools.ChildPool.IsFinished | src/actor/child_pool.rs:74-80 | True exactly when every handle has an outcome. |
| Pools.ChildPool.Spawn | src/actor/child_pool.rs:199-215 | One running task more at the end and one inbox more, exactly when an inbox is left; else no change. |
| Pools.ChildPool.PollNext | src/actor/child_pool.rs:247-263 | The loop with swap_remove yields and removes what the specification of a poll says. |
| Pools.ChildPool.DropPool | src/actor/child_pool.rs:266-285 | Dropping an attached, unaborted pool with a running task closes the channel and either asks every handle to abort (zero timer) or halts everybody and keeps every handle for a later abort; a detached, aborted or finished pool leaves channel and handles as they were. |
| Shutdowns.ShutdownYieldsEveryHandle | src/actor/shutdown.rs:64-77 | Over every run the stream aborts at most once, from then on every handle left has been aborted, and each handle is yielded with the outcome of its own task. If every task has ended at some point, the stream ends after as many polls as handles are left, whenever the sleep elapses, and has then yielded each initial handle exactly once. |
| Shutdowns.StreamPolledIsPollNext | src/actor/shutdown.rs:67-76 | A poll in a run of the stream does what the poll of the object does, the abort at the deadline first. |
| Shutdowns.ShutdownStream.constructor | src/actor/shutdown.rs:53-62 | The actor is halted at once and the sleep is set. |
| Shutdowns.ShutdownStream.CheckDeadline | src/actor/shutdown.rs:68-73 | The abort happens exactly when a sleep is left and has elapsed, and takes the sleep away. |
| Shutdowns.ShutdownStream.PollNext | src/actor/shutdown.rs:67-76 | First the deadline, which aborts once, then the poll of the pool; afterwards an absent sleep means that all handles left are aborted. |
| Shutdowns.Child.Abort | src/actor/child.rs:66-72 | The channel is closed and the task asked to stop; only the first call answers true. |
| Shutdowns.ShutdownFut.constructor | src/actor/shutdown.rs:15-24 | The actor is halted at once and the sleep is set. |
| Shutdowns.ShutdownFut.Poll | src/actor/shutdown.rs:29-42 | The result of a finished task, which is never aborted; else the deadline aborts, once. |

## Left out

- Streaming an inbox (src/actor/inbox.rs:56-67) and HaltNotifier: the temporary future drops its listener on return, so nothing is registered while the stream is parked.
- send_blocking on a bounded channel (src/channel/sending.rs:30-44): it listens after the failed push without trying again, so the wake-up claims do not hold for it.
- The start-up of spawn_many_processes, where inboxes exist before the count is corrected: runs start after it.
- Spawning onto a pool that was aborted already: runs of a shutdown contain no spawn.
- Receive futures that are leaked instead of dropped: in the transition system every future is polled or dropped.
- Guarantees.NoLostMessage: says nothing of a receiver that was told to halt once some inbox was told right after consuming a notification; Limits.ToldReceiverCanBeStranded shows that one such step can break it.
- Guarantees.NoSendDeadlock: promises a queued message, not a full queue. At capacity one that is the same; from two on Limits.FreeSpaceMayWakeNobody shows that the stronger claim is false.
- Progress.EveryDrivenRunEnds: assumes no new calls, and that an executor polls a parked future only after its notification.
- Runs.TrySendBoundsTheQueue: send, send_now and send_blocking ignore the limit and are excluded by its hypothesis.
- Config.ExponentialMonotone: over ideal real numbers; rounding, NaN and infinity of floating point are not modelled.
- Config.LinearMonotone: the debug build, which panics on the overflow, is not modelled.
- Lengths of sleeps in the transition system: an unbounded send may start asleep or not and may wake at any time, which allows more runs than the source.
- Weak memory ordering of the atomics.
- The yield_now before a first successful receive, which only affects scheduling.
- Attaching and detaching a link (src/config/mod.rs:87-116), which only assign.
- Dynamic typing through Any, ptr::read, macros, Debug output, error types, actor ids and the global default abort timer.
- The task that aborts the handles of a dropped pool after its timer: DropPool hands those handles out instead.
