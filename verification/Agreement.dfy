/**
The two layers agree: a thread of the transition system that runs without being interrupted does to the shared state
what the method of the object promises.
*/
module Agreement {
  import opened Wrappers
  import opened Config
  import opened Events
  import opened Core
  import opened Protocol
  import opened ChannelObject
  import opened Receiving

  /** The first n steps of thread t when no other thread moves, or fewer if it comes to rest. */
  function RunAlone(c: Core, t: Tid, th: Thread, n: nat): (Core, Thread)
    decreases n
  {
    if n == 0 || !Can(th, Run) then (c, th)
    else
      var e := Perform(c, t, th, Run);
      RunAlone(e.core, t, e.thread, n - 1)
  }

  ghost predicate Leads(c: Core, t: Tid, th: Thread, c': Core, th': Thread) {
    exists n: nat :: RunAlone(c, t, th, n) == (c', th')
  }

  lemma {:induction false} RunAloneComposes(c: Core, t: Tid, th: Thread, m: nat, n: nat)
    ensures var r := RunAlone(c, t, th, m); RunAlone(c, t, th, m + n) == RunAlone(r.0, t, r.1, n)
    decreases m
  {
    hide Perform;
    if m > 0 && Can(th, Run) {
      var e := Perform(c, t, th, Run);
      RunAloneComposes(e.core, t, e.thread, m - 1, n);
    } else if !Can(th, Run) {
      assert RunAlone(c, t, th, n) == (c, th);
    }
  }

  lemma LeadsTransitive(c: Core, t: Tid, th: Thread, c1: Core, th1: Thread, c2: Core, th2: Thread)
    requires Leads(c, t, th, c1, th1) && Leads(c1, t, th1, c2, th2)
    ensures Leads(c, t, th, c2, th2)
  {
    hide RunAlone;
    var m: nat :| RunAlone(c, t, th, m) == (c1, th1);
    var n: nat :| RunAlone(c1, t, th1, n) == (c2, th2);
    RunAloneComposes(c, t, th, m, n);
    assert RunAlone(c, t, th, m + n) == (c2, th2);
  }

  lemma StepLeads(c: Core, t: Tid, th: Thread, e: Effect)
    requires Can(th, Run) && e == Perform(c, t, th, Run)
    ensures Leads(c, t, th, e.core, e.thread)
  {
    hide Perform;
    assert RunAlone(e.core, t, e.thread, 0) == (e.core, e.thread);
    assert RunAlone(c, t, th, 1) == (e.core, e.thread);
  }

  /** A step, and then the rest. */
  lemma StepThen(c: Core, t: Tid, th: Thread, e: Effect, c': Core, th': Thread)
    requires Can(th, Run) && e == Perform(c, t, th, Run)
    requires Leads(e.core, t, e.thread, c', th')
    ensures Leads(c, t, th, c', th')
  {
    hide Perform;
    StepLeads(c, t, th, e);
    LeadsTransitive(c, t, th, e.core, e.thread, c', th');
  }

  lemma StaysPut(c: Core, t: Tid, th: Thread)
    ensures Leads(c, t, th, c, th)
  {
    assert RunAlone(c, t, th, 0) == (c, th);
  }

  // ---------------------------------------------------------------------------------------
  // Owed notifications
  // ---------------------------------------------------------------------------------------

  function DeliverAll(c: Core, todo: seq<Wake>): Core
    decreases |todo|
  {
    if todo == [] then c else DeliverAll(Deliver(c, todo[0]), todo[1..])
  }

  lemma {:induction false} FlushesAll(c: Core, t: Tid, todo: seq<Wake>, p: Proc)
    ensures Leads(c, t, Thread(todo, p), DeliverAll(c, todo), Thread([], p))
    decreases |todo|
  {
    hide Deliver;
    if todo == [] {
      StaysPut(c, t, Thread([], p));
    } else {
      FlushesAll(Deliver(c, todo[0]), t, todo[1..], p);
      StepThen(c, t, Thread(todo, p), Flush(c, Thread(todo, p)), DeliverAll(c, todo), Thread([], p));
    }
  }

  /** A step that changes the state, and the notifications that follow it. */
  lemma StepAndNotify(c: Core, t: Tid, p: Proc, e: Effect)
    requires HasNext(p) && e == RunNext(c, t, p)
    ensures Leads(c, t, Thread([], p), DeliverAll(e.core, e.thread.todo), Thread([], e.thread.proc))
  {
    hide RunNext, Deliver;
    FlushesAll(e.core, t, e.thread.todo, e.thread.proc);
    StepThen(c, t, Thread([], p), e, DeliverAll(e.core, e.thread.todo), Thread([], e.thread.proc));
  }

  lemma TwoDelivered(c: Core, a: Wake, b: Wake)
    ensures DeliverAll(c, [a, b]) == Deliver(Deliver(c, a), b)
  {
    hide Deliver;
    assert [a, b][1..] == [b] && [b][1..] == [];
    assert DeliverAll(c, [a, b]) == DeliverAll(Deliver(c, a), [b]);
    assert DeliverAll(Deliver(c, a), [b]) == DeliverAll(Deliver(Deliver(c, a), b), []);
  }

  lemma OneDelivered(c: Core, a: Wake)
    ensures DeliverAll(c, [a]) == Deliver(c, a)
  {
    hide Deliver;
    assert [a][1..] == [];
    assert DeliverAll(c, [a]) == DeliverAll(Deliver(c, a), []);
  }

  // ---------------------------------------------------------------------------------------
  // Calls
  // ---------------------------------------------------------------------------------------

  /** close is Close. */
  lemma CloseAgrees(c: Core, t: Tid)
    ensures Leads(c, t, Thread([], Closer(false)), Closed(c), Thread([], Closer(true)))
  {
    hide Notify;
    StepAndNotify(c, t, Closer(false), RunNext(c, t, Closer(false)));
    TwoDelivered(CloseQueue(c), RecvAll, SendAll);
  }

  /** halt_some is HaltSome. */
  lemma HaltSomeAgrees(c: Core, t: Tid, n: u32)
    ensures Leads(c, t, Thread([], Halter(n, Crediting)), HaltedSome(c, n), Thread([], Halter(n, Complete)))
  {
    hide Notify;
    StepAndNotify(c, t, Halter(n, Crediting), RunHalter(c, n, Crediting));
    OneDelivered(c.(haltCount := Credited(c.haltCount, n)), RecvAll);
  }

  /** halt is Halt. */
  lemma HaltAgrees(c: Core, t: Tid)
    ensures Leads(c, t, Thread([], Halter(U32_MAX, CloseFirst)), HaltedSome(Closed(c), U32_MAX),
                  Thread([], Halter(U32_MAX, Complete)))
  {
    hide Notify, HaltedSome;
    StepAndNotify(c, t, Halter(U32_MAX, CloseFirst), RunHalter(c, U32_MAX, CloseFirst));
    TwoDelivered(CloseQueue(c), RecvAll, SendAll);
    HaltSomeAgrees(Closed(c), t, U32_MAX);
    LeadsTransitive(c, t, Thread([], Halter(U32_MAX, CloseFirst)),
                    Closed(c), Thread([], Halter(U32_MAX, Crediting)),
                    HaltedSome(Closed(c), U32_MAX), Thread([], Halter(U32_MAX, Complete)));
  }

  function VerdictOf(r: Result<Message, TryRecvError>): Verdict {
    match r
    case Ok(m) => Got(m)
    case Err(e) => Refused(e)
  }

  /** The pop of an attempt, when it finds something. */
  lemma PopAgrees(c: Core, t: Tid, signaled: bool, a: Attempt)
    requires PopAnswer(c) != Err(Empty)
    ensures Leads(c, t, Thread([], Inbox(signaled, Trying(a, PopQueue))),
                  if c.queue != [] then Popped(c) else c,
                  Thread([], Inbox(signaled, Conclude(a, VerdictOf(PopAnswer(c))))))
  {
    hide Notify;
    StepAndNotify(c, t, Inbox(signaled, Trying(a, PopQueue)), RunTry(c, t, signaled, a, PopQueue));
    if c.queue != [] {
      TwoDelivered(Pop(c), SendOne, RecvOne);
    }
  }

  /** An attempt that does not find the queue empty is TryRecv. */
  lemma AttemptAgrees(c: Core, t: Tid, signaled: bool, a: Attempt)
    requires TryRecvAnswer(c, signaled) != Err(Empty)
    ensures var answer := TryRecvAnswer(c, signaled);
            Leads(c, t, Thread([], Inbox(signaled, Trying(a, Entry(signaled)))), AfterTryRecv(c, signaled),
                  Thread([], Inbox(signaled || answer == Err(Halted), Conclude(a, VerdictOf(answer)))))
  {
    hide Notify;
    var start := Thread([], Inbox(signaled, Trying(a, Entry(signaled))));
    if !signaled && c.haltCount > 0 {
      var sub := Effect(c, Thread([], Inbox(false, Trying(a, Subtract))), Nothing);
      var c' := c.(haltCount := c.haltCount - 1);
      var end := Effect(c', Thread([], Inbox(true, Conclude(a, Refused(Halted)))), ToldHalt(a.Third?));
      StepLeads(c, t, sub.thread, end);
      StepThen(c, t, start, sub, c', end.thread);
    } else {
      PopAgrees(c, t, signaled, a);
      if !signaled {
        var pop := Effect(c, Thread([], Inbox(false, Trying(a, PopQueue))), Nothing);
        StepThen(c, t, start, pop, AfterTryRecv(c, signaled),
                 Thread([], Inbox(signaled, Conclude(a, VerdictOf(PopAnswer(c))))));
      }
    }
  }

  /** An attempt that finds the queue empty changes nothing. */
  lemma EmptyAttempt(c: Core, t: Tid, signaled: bool, a: Attempt)
    requires TryRecvAnswer(c, signaled) == Err(Empty)
    ensures Leads(c, t, Thread([], Inbox(signaled, Trying(a, Entry(signaled)))), c,
                  Thread([], Inbox(signaled, FoundEmpty(c, t, signaled, a))))
  {
    var pop := Thread([], Inbox(signaled, Trying(a, PopQueue)));
    var end := Thread([], Inbox(signaled, FoundEmpty(c, t, signaled, a)));
    StepLeads(c, t, pop, Effect(c, end, Nothing));
    if !signaled {
      StepThen(c, t, Thread([], Inbox(false, Trying(a, Load))), Effect(c, pop, Nothing), c, end);
    }
  }

  /** try_recv is TryRecv. */
  lemma TryRecvAgrees(c: Core, t: Tid, signaled: bool)
    ensures var answer := TryRecvAnswer(c, signaled);
            Leads(c, t, Thread([], Inbox(signaled, Trying(Once, Entry(signaled)))), AfterTryRecv(c, signaled),
                  Thread([], Inbox(signaled || answer == Err(Halted), Idle(VerdictOf(answer)))))
  {
    if TryRecvAnswer(c, signaled) == Err(Empty) {
      EmptyAttempt(c, t, signaled, Once);
    } else {
      AttemptAgrees(c, t, signaled, Once);
    }
  }

  function SlotIn(e: Event, t: Tid): Option<Key> {
    if Active(e, t) then Some(t) else None
  }

  lemma DropInactive(e: Event, t: Tid)
    requires !Active(e, t)
    ensures Drop(e, t) == e
  {
    WithoutIsRemoval(e.woken, t);
    WithoutIsRemoval(e.waiting, t);
  }

  /** A poll that has a result is RecvFut.Poll: the attempt, and then the listener is dropped. */
  lemma ReadyPollAgrees(c: Core, t: Tid, signaled: bool)
    requires TryRecvAnswer(c, signaled) != Err(Empty)
    ensures var answer, d := TryRecvAnswer(c, signaled), AfterTryRecv(c, signaled);
            Leads(c, t, Thread([], Inbox(signaled, Trying(First, Entry(signaled)))),
                  d.(recvEvent := DropSlot(d.recvEvent, SlotIn(c.recvEvent, t))),
                  Thread([], Inbox(signaled || answer == Err(Halted), Idle(VerdictOf(answer)))))
  {
    hide Notify, Without;
    var answer, d := TryRecvAnswer(c, signaled), AfterTryRecv(c, signaled);
    var flag := signaled || answer == Err(Halted);
    var settling := Thread([], Inbox(flag, Settling(VerdictOf(answer))));
    var d' := d.(recvEvent := Drop(d.recvEvent, t));
    AttemptAgrees(c, t, signaled, First);
    StepLeads(d, t, settling, Effect(d', Thread([], Inbox(flag, Idle(VerdictOf(answer)))), Nothing));
    LeadsTransitive(c, t, Thread([], Inbox(signaled, Trying(First, Entry(signaled)))), d, settling,
                    d', Thread([], Inbox(flag, Idle(VerdictOf(answer)))));
    NotifyReachesAtLeast(c.recvEvent, 1);
    if !Active(c.recvEvent, t) {
      DropInactive(d.recvEvent, t);
    }
  }

  /** From registering on, a poll that finds nothing parks. */
  lemma RegisteringParks(c: Core, t: Tid, signaled: bool)
    requires TryRecvAnswer(c, signaled) == Err(Empty) && !Active(c.recvEvent, t)
    ensures Leads(c, t, Thread([], Inbox(signaled, Registering)), c.(recvEvent := Listen(c.recvEvent, t)),
                  Thread([], Inbox(signaled, Parked)))
  {
    var c' := c.(recvEvent := Listen(c.recvEvent, t));
    var second := Thread([], Inbox(signaled, Trying(Second, Entry(signaled))));
    LookingParks(c', t, signaled);
    StepThen(c, t, Thread([], Inbox(signaled, Registering)), Effect(c', second, Nothing),
             c', Thread([], Inbox(signaled, Parked)));
  }

  lemma LookingParks(c: Core, t: Tid, signaled: bool)
    requires TryRecvAnswer(c, signaled) == Err(Empty) && t !in c.recvEvent.woken
    ensures Leads(c, t, Thread([], Inbox(signaled, Trying(Second, Entry(signaled)))),
                  c, Thread([], Inbox(signaled, Parked)))
  {
    var looking, parked := Thread([], Inbox(signaled, Looking)), Thread([], Inbox(signaled, Parked));
    EmptyAttempt(c, t, signaled, Second);
    StepLeads(c, t, looking, Effect(c, parked, Nothing));
    LeadsTransitive(c, t, Thread([], Inbox(signaled, Trying(Second, Entry(signaled)))), c, looking, c, parked);
  }

  /** A notified listener is consumed, and the poll goes around once more. */
  lemma ConsumingParks(c: Core, t: Tid, signaled: bool)
    requires TryRecvAnswer(c, signaled) == Err(Empty) && t in c.recvEvent.woken
    ensures Leads(c, t, Thread([], Inbox(signaled, Trying(Second, Entry(signaled)))),
                  c.(recvEvent := Listen(Remove(c.recvEvent, t), t)), Thread([], Inbox(signaled, Parked)))
  {
    hide Without;
    var c1 := c.(recvEvent := Remove(c.recvEvent, t));
    var c2 := c1.(recvEvent := Listen(c1.recvEvent, t));
    var second := Thread([], Inbox(signaled, Trying(Second, Entry(signaled))));
    var looking := Thread([], Inbox(signaled, Looking));
    var third := Thread([], Inbox(signaled, Trying(Third, Entry(signaled))));
    var registering, parked := Thread([], Inbox(signaled, Registering)), Thread([], Inbox(signaled, Parked));
    RemoveForgetsOnlyOne(c.recvEvent, t);
    EmptyAttempt(c, t, signaled, Second);
    EmptyAttempt(c1, t, signaled, Third);
    RegisteringParks(c1, t, signaled);
    LeadsTransitive(c1, t, third, c1, registering, c2, parked);
    StepThen(c, t, looking, Effect(c1, third, Nothing), c2, parked);
    LeadsTransitive(c, t, second, c, looking, c2, parked);
  }

  /** A poll that finds nothing is RecvFut.Poll: it parks with a listener that waits. */
  lemma PendingPollAgrees(c: Core, t: Tid, signaled: bool)
    requires TryRecvAnswer(c, signaled) == Err(Empty)
    ensures Leads(c, t, Thread([], Inbox(signaled, Trying(First, Entry(signaled)))),
                  c.(recvEvent := ParkedEvent(c.recvEvent, SlotIn(c.recvEvent, t), t)),
                  Thread([], Inbox(signaled, Parked)))
  {
    hide Without;
    var first := Thread([], Inbox(signaled, Trying(First, Entry(signaled))));
    var c' := c.(recvEvent := ParkedEvent(c.recvEvent, SlotIn(c.recvEvent, t), t));
    var next := Thread([], Inbox(signaled, FoundEmpty(c, t, signaled, First)));
    EmptyAttempt(c, t, signaled, First);
    if !Active(c.recvEvent, t) {
      RegisteringParks(c, t, signaled);
    } else if t in c.recvEvent.woken {
      ConsumingParks(c, t, signaled);
    } else {
      LookingParks(c, t, signaled);
    }
    LeadsTransitive(c, t, first, c, next, c', Thread([], Inbox(signaled, Parked)));
  }

  // ---------------------------------------------------------------------------------------
  // Bounded sends
  // ---------------------------------------------------------------------------------------

  /** A push that has a result is the same in every attempt of the poll; a listener that is held stays. */
  lemma ReadySendAgrees(c: Core, t: Tid, m: Message, a: Attempt)
    requires !SendAnswer(c, m).FullError?
    ensures Leads(c, t, Thread([], Send(m, Pushing(a))), AfterSend(c, m),
                  Thread([], Send(m, if SendAnswer(c, m) == Sent then Finished(true, None)
                                     else Finished(false, Some(m)))))
  {
    hide Notify;
    StepAndNotify(c, t, Send(m, Pushing(a)), RunSend(c, t, m, Pushing(a)));
    OneDelivered(Push(c, m), RecvOne);
  }

  lemma FullAttempt(c: Core, t: Tid, m: Message, a: Attempt)
    requires SendAnswer(c, m).FullError?
    ensures Leads(c, t, Thread([], Send(m, Pushing(a))), c, Thread([], Send(m, FoundFull(c, t, m, a))))
  {
    StepLeads(c, t, Thread([], Send(m, Pushing(a))), Effect(c, Thread([], Send(m, FoundFull(c, t, m, a))), Nothing));
  }

  lemma SendLookingParks(c: Core, t: Tid, m: Message)
    requires SendAnswer(c, m).FullError? && t !in c.sendEvent.woken
    ensures Leads(c, t, Thread([], Send(m, Pushing(Second))), c, Thread([], Send(m, SendParked)))
  {
    var looking, parked := Thread([], Send(m, SendLooking)), Thread([], Send(m, SendParked));
    FullAttempt(c, t, m, Second);
    StepLeads(c, t, looking, Effect(c, parked, Nothing));
    LeadsTransitive(c, t, Thread([], Send(m, Pushing(Second))), c, looking, c, parked);
  }

  lemma SendRegisteringParks(c: Core, t: Tid, m: Message)
    requires SendAnswer(c, m).FullError? && !Active(c.sendEvent, t)
    ensures Leads(c, t, Thread([], Send(m, SendRegistering)), c.(sendEvent := Listen(c.sendEvent, t)),
                  Thread([], Send(m, SendParked)))
  {
    var c' := c.(sendEvent := Listen(c.sendEvent, t));
    SendLookingParks(c', t, m);
    StepThen(c, t, Thread([], Send(m, SendRegistering)), Effect(c', Thread([], Send(m, Pushing(Second))), Nothing),
             c', Thread([], Send(m, SendParked)));
  }

  lemma SendConsumingParks(c: Core, t: Tid, m: Message)
    requires SendAnswer(c, m).FullError? && t in c.sendEvent.woken
    ensures Leads(c, t, Thread([], Send(m, Pushing(Second))),
                  c.(sendEvent := Listen(Remove(c.sendEvent, t), t)), Thread([], Send(m, SendParked)))
  {
    hide Without;
    var c1 := c.(sendEvent := Remove(c.sendEvent, t));
    var c2 := c1.(sendEvent := Listen(c1.sendEvent, t));
    var second, looking := Thread([], Send(m, Pushing(Second))), Thread([], Send(m, SendLooking));
    var third, registering := Thread([], Send(m, Pushing(Third))), Thread([], Send(m, SendRegistering));
    var parked := Thread([], Send(m, SendParked));
    RemoveForgetsOnlyOne(c.sendEvent, t);
    FullAttempt(c, t, m, Second);
    FullAttempt(c1, t, m, Third);
    SendRegisteringParks(c1, t, m);
    LeadsTransitive(c1, t, third, c1, registering, c2, parked);
    StepThen(c, t, looking, Effect(c1, third, Nothing), c2, parked);
    LeadsTransitive(c, t, second, c, looking, c2, parked);
  }

  /** A poll that finds the queue full is SendFut.PollBoundedSend: it keeps the message and parks. */
  lemma PendingSendAgrees(c: Core, t: Tid, m: Message)
    requires SendAnswer(c, m).FullError?
    ensures Leads(c, t, Thread([], Send(m, Pushing(First))),
                  c.(sendEvent := ParkedEvent(c.sendEvent, SlotIn(c.sendEvent, t), t)), Thread([], Send(m, SendParked)))
  {
    hide Without;
    var c' := c.(sendEvent := ParkedEvent(c.sendEvent, SlotIn(c.sendEvent, t), t));
    var next := Thread([], Send(m, FoundFull(c, t, m, First)));
    FullAttempt(c, t, m, First);
    if !Active(c.sendEvent, t) {
      SendRegisteringParks(c, t, m);
    } else if t in c.sendEvent.woken {
      SendConsumingParks(c, t, m);
    } else {
      SendLookingParks(c, t, m);
    }
    LeadsTransitive(c, t, Thread([], Send(m, Pushing(First))), c, next, c', Thread([], Send(m, SendParked)));
  }

  // ---------------------------------------------------------------------------------------
  // Sends without a listener
  // ---------------------------------------------------------------------------------------

  /** What a call that pushes once ends with. */
  function EndOf(answer: SendResult, m: Message): Thread {
    Thread([], Send(m, if answer == Sent then Finished(true, None) else Finished(false, Some(m))))
  }

  /** A single push, as in send_now, is PushMsg. */
  lemma SendNowAgrees(c: Core, t: Tid, m: Message, a: Attempt)
    requires a.Once? || a.Checked?
    ensures Leads(c, t, Thread([], Send(m, Pushing(a))), AfterSend(c, m), EndOf(SendAnswer(c, m), m))
  {
    hide Notify;
    if SendAnswer(c, m).FullError? {
      FullAttempt(c, t, m, a);
    } else {
      ReadySendAgrees(c, t, m, a);
    }
  }

  /** try_send is TrySend. */
  lemma TrySendAgrees(c: Core, t: Tid, m: Message)
    requires c.capacity.Unbounded?
    ensures Leads(c, t, Thread([], Send(m, Checking)),
                  if MustWait(c) then c else AfterSend(c, m),
                  EndOf(if MustWait(c) then FullError(m) else SendAnswer(c, m), m))
  {
    hide Notify, AfterSend, SendAnswer, MustWait;
    var checking, checked := Thread([], Send(m, Checking)), Thread([], Send(m, Pushing(Checked)));
    if MustWait(c) {
      StepLeads(c, t, checking, Effect(c, EndOf(FullError(m), m), Nothing));
    } else {
      SendNowAgrees(c, t, m, Checked);
      StepThen(c, t, checking, Effect(c, checked, Nothing), AfterSend(c, m), EndOf(SendAnswer(c, m), m));
    }
  }

  /** The poll of a send on an unbounded channel after its sleep is PollUnboundedSend. */
  lemma UnboundedSendAgrees(c: Core, t: Tid, m: Message)
    requires c.capacity.Unbounded?
    ensures var e := Perform(c, t, Thread([], Send(m, Sleeping)), Repoll);
            Leads(e.core, t, e.thread, AfterSend(c, m), EndOf(if c.closed then ClosedError(m) else Sent, m))
  {
    hide Notify;
    SendNowAgrees(c, t, m, Once);
  }

  // ---------------------------------------------------------------------------------------
  // Dropping futures
  // ---------------------------------------------------------------------------------------

  /** Dropping a parked RecvFut is RecvFut.DropFuture. */
  lemma DropRecvAgrees(c: Core, t: Tid, signaled: bool)
    ensures Perform(c, t, Thread([], Inbox(signaled, Parked)), Abandon)
            == Effect(c.(recvEvent := DropSlot(c.recvEvent, SlotIn(c.recvEvent, t))),
                      Thread([], Inbox(signaled, Idle(NoVerdict))), Nothing)
  {
    hide Drop;
    if !Active(c.recvEvent, t) {
      DropInactive(c.recvEvent, t);
    }
  }

  /** Dropping a parked SendFut is SendFut.DropFuture; the message goes with it. */
  lemma DropSendAgrees(c: Core, t: Tid, m: Message)
    ensures Perform(c, t, Thread([], Send(m, SendParked)), Abandon)
            == Effect(c.(sendEvent := DropSlot(c.sendEvent, SlotIn(c.sendEvent, t))),
                      Thread([], Send(m, Released(false, None))), Nothing)
  {
    hide Drop;
    if !Active(c.sendEvent, t) {
      DropInactive(c.sendEvent, t);
    }
  }

  // ---------------------------------------------------------------------------------------
  // Addresses
  // ---------------------------------------------------------------------------------------

  function AddressAt(slot: Slot, pc: AddressPc): Thread {
    Thread([], Address(slot, pc))
  }

  /** Awaiting an address is Address.Poll. */
  lemma AddressPollAgrees(c: Core, t: Tid, slot: Slot)
    requires slot.Held? <==> Active(c.exitEvent, t)
    requires c.inboxCount > 0 ==> c.exitEvent.woken == [] && !slot.Consumed?
    ensures if c.inboxCount == 0
            then Leads(c, t, AddressAt(slot, FirstCheck), c, AddressAt(slot, Exited))
            else Leads(c, t, AddressAt(slot, FirstCheck),
                       if slot.Held? then c else c.(exitEvent := Listen(c.exitEvent, t)), AddressAt(Held, Waiting))
  {
    var first, listening := AddressAt(slot, FirstCheck), AddressAt(slot, Listening);
    if c.inboxCount == 0 {
      StepLeads(c, t, first, Effect(c, AddressAt(slot, Exited), Nothing));
    } else if slot.Held? {
      WatchingWaits(c, t);
      StepThen(c, t, first, Effect(c, AddressAt(Held, SecondCheck), Nothing), c, AddressAt(Held, Waiting));
    } else {
      var c' := c.(exitEvent := Listen(c.exitEvent, t));
      WatchingWaits(c', t);
      StepThen(c, t, listening, Effect(c', AddressAt(Held, SecondCheck), Nothing), c', AddressAt(Held, Waiting));
      StepThen(c, t, first, Effect(c, listening, Nothing), c', AddressAt(Held, Waiting));
    }
  }

  lemma WatchingWaits(c: Core, t: Tid)
    requires c.inboxCount > 0 && t !in c.exitEvent.woken
    ensures Leads(c, t, AddressAt(Held, SecondCheck), c, AddressAt(Held, Waiting))
  {
    StepLeads(c, t, AddressAt(Held, Watching), Effect(c, AddressAt(Held, Waiting), Nothing));
    StepThen(c, t, AddressAt(Held, SecondCheck), Effect(c, AddressAt(Held, Watching), Nothing),
             c, AddressAt(Held, Waiting));
  }

  /** Dropping an address is Address.DropAddress. */
  lemma DropAddressAgrees(c: Core, t: Tid, slot: Slot)
    requires c.addressCount >= 1
    ensures var e := Perform(c, t, AddressAt(slot, Resting), Abandon);
            Leads(e.core, t, e.thread,
                  c.(addressCount := c.addressCount - 1, exitEvent := DropSlot(c.exitEvent, SlotIn(c.exitEvent, t))),
                  AddressAt(NoListener, Dropped))
  {
    hide Drop;
    var c1 := c.(addressCount := c.addressCount - 1);
    StepLeads(c1, t, AddressAt(slot, Clearing),
              Effect(c1.(exitEvent := Drop(c.exitEvent, t)), AddressAt(NoListener, Dropped), Nothing));
    if !Active(c.exitEvent, t) {
      DropInactive(c.exitEvent, t);
    }
  }

  // ---------------------------------------------------------------------------------------
  // Newcomers
  // ---------------------------------------------------------------------------------------

  /** A new inbox is TryAddInbox: possible exactly while an inbox is left. */
  lemma SpawnAgrees(s: State, t: Tid)
    requires t !in s.threads
    ensures Enabled(s, Spawn(t)) <==> s.core.inboxCount > 0
    ensures Enabled(s, Spawn(t))
            ==> && Apply(s, Spawn(t)).core == s.core.(inboxCount := s.core.inboxCount + 1)
                && Apply(s, Spawn(t)).threads == s.threads[t := Thread([], Inbox(false, Idle(NoVerdict)))]
  {
  }

  /** A new address is AddAddress and a handle without a listener. */
  lemma CloneAgrees(s: State, t: Tid)
    requires t !in s.threads
    ensures Enabled(s, Clone(t))
    ensures Apply(s, Clone(t)).core == s.core.(addressCount := s.core.addressCount + 1)
    ensures Apply(s, Clone(t)).threads == s.threads[t := AddressAt(NoListener, Resting)]
  {
  }

  /** Every call of the channel can begin in every state. */
  lemma CallsCanBegin(s: State, t: Tid, body: int, n: u32)
    requires t !in s.threads
    ensures var m := Message(t, body);
            && Enabled(s, Begin(t, Send(m, Pushing(Once))))
            && (s.core.capacity.Bounded? ==> Enabled(s, Begin(t, Send(m, Pushing(First)))))
            && (s.core.capacity.Unbounded? ==>
                  Enabled(s, Begin(t, Send(m, Checking))) && Enabled(s, Begin(t, Send(m, Sleeping))))
    ensures Enabled(s, Begin(t, Closer(false)))
    ensures Enabled(s, Begin(t, Halter(n, Crediting))) && Enabled(s, Begin(t, Halter(U32_MAX, CloseFirst)))
  {
  }

  /** An owner may poll what is between polls or pending at any time, and drop it. */
  lemma OwnersAreFree(p: Proc)
    ensures var th := Thread([], p);
            match p
            case Inbox(_, pc) =>
              && (pc.Idle? ==> Can(th, Repoll) && Can(th, TryOnce) && Can(th, Retire))
              && (pc.Parked? ==> Can(th, Repoll) && Can(th, Abandon))
            case Send(_, pc) =>
              && (pc.SendParked? || pc.Sleeping? ==> Can(th, Repoll) && Can(th, Abandon))
              && (pc.Finished? ==> Can(th, Abandon))
            case Address(_, pc) => pc.Resting? || pc.Waiting? || pc.Exited? ==> Can(th, Repoll) && Can(th, Abandon)
            case _ => true
  {
  }

  // ---------------------------------------------------------------------------------------
  // Leaving inboxes
  // ---------------------------------------------------------------------------------------

  /** remove_inbox of an inbox that is not the last is RemoveInbox. */
  lemma RemoveInboxAgrees(c: Core, t: Tid, signaled: bool)
    requires c.inboxCount > 1
    ensures Leads(c, t, Thread([], Inbox(signaled, Leaving)),
                  c.(inboxCount := c.inboxCount - 1), Thread([], Inbox(signaled, Gone(false))))
  {
    StepLeads(c, t, Thread([], Inbox(signaled, Leaving)),
              Effect(c.(inboxCount := c.inboxCount - 1), Thread([], Inbox(signaled, Gone(false))), Nothing));
  }

  lemma {:induction false} DrainAgrees(c: Core, t: Tid, signaled: bool)
    ensures Leads(c, t, Thread([], Inbox(signaled, Draining)), PoppedAll(c), Thread([], Inbox(signaled, Gone(true))))
    decreases |c.queue|
  {
    hide Notify;
    var draining, gone := Thread([], Inbox(signaled, Draining)), Thread([], Inbox(signaled, Gone(true)));
    if c.queue == [] {
      StepLeads(c, t, draining, Effect(c, gone, Nothing));
    } else {
      StepAndNotify(c, t, Inbox(signaled, Draining), RunInbox(c, t, signaled, Draining));
      TwoDelivered(Pop(c), SendOne, RecvOne);
      DrainAgrees(Popped(c), t, signaled);
      LeadsTransitive(c, t, draining, Popped(c), draining, PoppedAll(c), gone);
    }
  }

  lemma {:induction false} DeliverAllComposes(c: Core, a: seq<Wake>, b: seq<Wake>)
    ensures DeliverAll(c, a + b) == DeliverAll(DeliverAll(c, a), b)
    decreases |a|
  {
    hide Deliver;
    if a == [] {
      assert a + b == b;
    } else {
      assert (a + b)[1..] == a[1..] + b;
      DeliverAllComposes(Deliver(c, a[0]), a[1..], b);
    }
  }

  lemma CloseThenExit(c: Core)
    ensures DeliverAll(CloseQueue(c), CloseWakes(c) + [ExitAll]) == Closed(c).(exitEvent := NotifyAll(c.exitEvent))
  {
    hide Notify;
    DeliverAllComposes(CloseQueue(c), CloseWakes(c), [ExitAll]);
    OneDelivered(Closed(c), ExitAll);
    TwoDelivered(CloseQueue(c), RecvAll, SendAll);
  }

  /** remove_inbox of the last inbox is RemoveInbox. */
  lemma RemoveLastInboxAgrees(c: Core, t: Tid, signaled: bool)
    requires c.inboxCount == 1
    ensures Leads(c, t, Thread([], Inbox(signaled, Leaving)), AllLeft(c), Thread([], Inbox(signaled, Gone(true))))
  {
    hide Notify;
    var c0 := c.(inboxCount := 0);
    var c1 := Closed(c0).(exitEvent := NotifyAll(c.exitEvent));
    var leaving, closing := Thread([], Inbox(signaled, Leaving)), Thread([], Inbox(signaled, Closing));
    var draining, gone := Thread([], Inbox(signaled, Draining)), Thread([], Inbox(signaled, Gone(true)));
    StepAndNotify(c0, t, Inbox(signaled, Closing), RunInbox(c0, t, signaled, Closing));
    CloseThenExit(c0);
    DrainAgrees(c1, t, signaled);
    PoppedAllIsDrained(c1);
    LeadsTransitive(c0, t, closing, c1, draining, PoppedAll(c1), gone);
    StepThen(c, t, leaving, Effect(c0, closing, Nothing), PoppedAll(c1), gone);
  }
}
