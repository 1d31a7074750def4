/**
No lost wake-ups. The promises of the protocol (messages to receivers not told to halt, and to any
receiver; space; halt credits; closing, seen by receivers and by senders; exiting) have one shape:
either there is nothing to wake for, or a notified listener will act, or nobody is parked without a
notification, or some thread is still about to notify. A step of one thread keeps a promise if it
meets a condition on that thread and on the shared state alone.
*/
module Wakeups {
  import opened Config
  import opened Events
  import opened Core
  import opened Protocol
  import opened Counting

  datatype Promise =
    | MessageForUntold
    | MessageForAnyone
    | Space
    | HaltCredit
    | ClosedToReceivers
    | ClosedToSenders
    | Exiting

  /**
  When a promise is due. Space, closing and exiting are promised always; a message to every receiver until an
  inbox is told to halt right after consuming a notification; and what depends on the halt counter as long as
  the counter cannot wrap around.
  */
  predicate Due(w: Promise, s: State) {
    match w
    case MessageForAnyone => s.history.wasted == 0
    case MessageForUntold => Small(s)
    case HaltCredit => Small(s)
    case _ => true
  }

  function Listeners(w: Promise, c: Core): Event {
    match w
    case MessageForUntold => c.recvEvent
    case MessageForAnyone => c.recvEvent
    case HaltCredit => c.recvEvent
    case ClosedToReceivers => c.recvEvent
    case Space => c.sendEvent
    case ClosedToSenders => c.sendEvent
    case Exiting => c.exitEvent
  }

  /** There is nothing to wake for. For senders a message left in an open queue is enough, since its pop wakes. */
  predicate Calm(w: Promise, c: Core) {
    match w
    case MessageForUntold => c.queue == []
    case MessageForAnyone => c.queue == []
    case Space => c.queue != [] && !c.closed
    case HaltCredit => c.haltCount <= 0
    case ClosedToReceivers => !c.closed
    case ClosedToSenders => !c.closed
    case Exiting => c.inboxCount > 0
  }

  /** A notified listener will act for everybody, because it notifies the next one in turn. */
  predicate Served(w: Promise, c: Core) {
    match w
    case MessageForUntold => c.recvEvent.woken != []
    case MessageForAnyone => c.recvEvent.woken != []
    case Space => c.sendEvent.woken != []
    case _ => false
  }

  /** On its way to the next receiver: an owed notification, or a retry after consuming one. */
  predicate ReceiverInFlight(th: Thread) {
    RecvOne in th.todo || RecvAll in th.todo
    || (th.proc.Inbox? && th.proc.recv.Trying? && th.proc.recv.attempt.Third?)
  }

  /**
  The thread is in flight: it still owes a notification, or retries after consuming one. For closing
  only the notifications of a close count, for halting only those of a halt.
  */
  predicate InFlight(w: Promise, th: Thread) {
    match w
    case MessageForUntold => ReceiverInFlight(th)
    case MessageForAnyone => ReceiverInFlight(th)
    case Space =>
      SendOne in th.todo || SendAll in th.todo
      || (th.proc.Send? && th.proc.send == Pushing(Third))
    case HaltCredit => th.proc.Halter? && th.proc.halt.Complete? && RecvAll in th.todo
    case ClosedToReceivers => [RecvAll, SendAll] <= th.todo
    case ClosedToSenders => SendAll in th.todo
    case Exiting => ExitAll in th.todo || (th.proc.Inbox? && th.proc.recv.Closing?)
  }

  /** The thread will not look again on its own. */
  predicate Exposed(w: Promise, p: Proc) {
    match w
    case MessageForUntold => p.Inbox? && !p.signaled && (p.recv.Looking? || p.recv.Parked?)
    case MessageForAnyone => p.Inbox? && (p.recv.Looking? || p.recv.Parked?)
    case HaltCredit =>
      p.Inbox? && !p.signaled && (p.recv.Looking? || p.recv.Parked? || p.recv == Trying(Second, PopQueue))
    case ClosedToReceivers => p.Inbox? && (p.recv.Looking? || p.recv.Parked?)
    case Space => p.Send? && (p.send.SendLooking? || p.send.SendParked?)
    case ClosedToSenders => p.Send? && (p.send.SendLooking? || p.send.SendParked?)
    case Exiting => p.Address? && (p.watch.Watching? || p.watch.Waiting?)
  }

  predicate AtRisk(w: Promise, c: Core, t: Tid, p: Proc) {
    Exposed(w, p) && t in Listeners(w, c).waiting
  }

  ghost predicate NobodyAtRisk(w: Promise, s: State) {
    forall t :: t in s.threads ==> !AtRisk(w, s.core, t, s.threads[t].proc)
  }

  ghost predicate SomebodyInFlight(w: Promise, s: State) {
    exists t :: t in s.threads && InFlight(w, s.threads[t])
  }

  ghost predicate Kept(w: Promise, s: State) {
    Calm(w, s.core) || Served(w, s.core) || NobodyAtRisk(w, s) || SomebodyInFlight(w, s)
  }

  // ---------------------------------------------------------------------------------------
  // The condition on one thread
  // ---------------------------------------------------------------------------------------

  ghost predicate NoNewWaiters(e: Event, e': Event, t: Tid) {
    forall u :: u in e'.waiting && u != t ==> u in e.waiting
  }

  ghost predicate Steady(w: Promise, c: Core, t: Tid, th: Thread, c': Core, th': Thread) {
    && !Calm(w, c) && !Served(w, c) && !InFlight(w, th)
    && NoNewWaiters(Listeners(w, c), Listeners(w, c'), t)
    && (AtRisk(w, c', t, th'.proc) ==> AtRisk(w, c, t, th.proc))
  }

  ghost predicate Discharged(w: Promise, c: Core, t: Tid, th: Thread, c': Core, th': Thread) {
    || Calm(w, c')
    || Served(w, c')
    || Listeners(w, c').waiting == []
    || InFlight(w, th')
    || Steady(w, c, t, th, c', th')
  }

  /** The condition on one thread is enough for the whole system. */
  lemma DischargedKeeps(w: Promise, s: State, t: Tid, e: Effect)
    requires Kept(w, s) && t in s.threads
    requires Discharged(w, s.core, t, s.threads[t], e.core, e.thread)
    ensures Kept(w, After(s, t, e))
  {
    var s' := After(s, t, e);
    if InFlight(w, e.thread) {
      assert InFlight(w, s'.threads[t]);
    } else if Steady(w, s.core, t, s.threads[t], e.core, e.thread) {
      if SomebodyInFlight(w, s) {
        var u :| u in s.threads && InFlight(w, s.threads[u]);
        assert InFlight(w, s'.threads[u]);
      } else {
        forall u | u in s'.threads ensures !AtRisk(w, s'.core, u, s'.threads[u].proc) {
          assert !AtRisk(w, s.core, u, s.threads[u].proc);
        }
      }
    }
  }

  /**
  The two steps that end an attempt without passing the notification on: an inbox that consumed
  one and is then told to halt, and a send that consumed one and then finds the queue closed.
  */
  predicate Wasteful(c: Core, p: Proc) {
    p.Inbox? && p.recv == Trying(Third, Subtract) && c.haltCount > 0
  }

  predicate Excused(w: Promise, c: Core, p: Proc) {
    match w
    case MessageForUntold => Wasteful(c, p)
    case MessageForAnyone => Wasteful(c, p)
    case Space => p.Send? && p.send == Pushing(Third) && c.closed
    case _ => false
  }

  lemma ListenLeavesOthers(e: Event, t: Tid)
    ensures NoNewWaiters(e, Listen(e, t), t)
    ensures Listen(e, t).woken == e.woken
  {
  }

  predicate NotifiesFor(w: Promise, wake: Wake) {
    match w
    case MessageForUntold => wake.RecvOne? || wake.RecvAll?
    case MessageForAnyone => wake.RecvOne? || wake.RecvAll?
    case HaltCredit => wake.RecvAll?
    case ClosedToReceivers => wake.RecvAll?
    case Space => wake.SendOne? || wake.SendAll?
    case ClosedToSenders => wake.SendAll?
    case Exiting => wake.ExitAll?
  }

  /** What one notification does to the listeners of a promise. */
  lemma DeliverWakes(w: Promise, c: Core, wake: Wake)
    ensures var e, e' := Listeners(w, c), Listeners(w, Deliver(c, wake));
            && (e' == e || Woke(e, e'))
            && (NotifiesFor(w, wake) ==> Woke(e, e') && (Served(w, Deliver(c, wake)) || e'.waiting == []))
            && (Served(w, c) ==> Served(w, Deliver(c, wake)))
            && (Calm(w, c) <==> Calm(w, Deliver(c, wake)))
  {
    hide Notify, Without;
    match wake
    case RecvOne => NotifyWakes(c.recvEvent, 1);
    case RecvAll => NotifyAllWakes(c.recvEvent);
    case SendOne => NotifyWakes(c.sendEvent, 1);
    case SendAll => NotifyAllWakes(c.sendEvent);
    case ExitAll => NotifyAllWakes(c.exitEvent);
  }

  lemma FlushDischarges(w: Promise, c: Core, t: Tid, th: Thread)
    requires th.todo != []
    ensures var e := Flush(c, th); Discharged(w, c, t, th, e.core, e.thread)
  {
    hide Notify, Without;
    var wake, rest := th.todo[0], Thread(th.todo[1..], th.proc);
    DeliverWakes(w, c, wake);
    DebtMovesOn(w, th);
  }

  lemma DebtMovesOn(w: Promise, th: Thread)
    requires th.todo != []
    ensures InFlight(w, th) ==> NotifiesFor(w, th.todo[0]) || InFlight(w, Thread(th.todo[1..], th.proc))
  {
    assert forall x :: x in th.todo <==> x == th.todo[0] || x in th.todo[1..] by {
      assert th.todo == [th.todo[0]] + th.todo[1..];
    }
  }

  lemma TryDischarges(w: Promise, c: Core, t: Tid, signaled: bool, a: Attempt, access: Access)
    requires var p := Inbox(signaled, Trying(a, access)); !Excused(w, c, p)
    requires access.Load? || access.Subtract? ==> !signaled
    requires w.HaltCredit? && access.Subtract? ==> c.haltCount > I32_MIN
    ensures var e := RunTry(c, t, signaled, a, access);
            Discharged(w, c, t, Thread([], Inbox(signaled, Trying(a, access))), e.core, e.thread)
  {
    hide Notify, Without;
  }

  lemma InboxDischarges(w: Promise, c: Core, t: Tid, signaled: bool, pc: RecvPc)
    requires !pc.Trying?
    ensures var e := RunInbox(c, t, signaled, pc);
            Discharged(w, c, t, Thread([], Inbox(signaled, pc)), e.core, e.thread)
  {
    hide Notify, Without, Remove, Drop, Listen;
    match pc
    case Registering => ListenLeavesOthers(c.recvEvent, t);
    case Looking => RemoveForgetsOnlyOne(c.recvEvent, t);
    case Settling(_) => DropKeepsNotification(c.recvEvent, t);
    case _ =>
  }

  lemma SendDischarges(w: Promise, c: Core, t: Tid, m: Message, pc: SendPc)
    requires !Excused(w, c, Send(m, pc)) && ProperCapacity(c.capacity)
    ensures var e := RunSend(c, t, m, pc);
            Discharged(w, c, t, Thread([], Send(m, pc)), e.core, e.thread)
  {
    hide Notify, Without;
    match pc
    case SendRegistering => ListenLeavesOthers(c.sendEvent, t);
    case SendLooking => RemoveForgetsOnlyOne(c.sendEvent, t);
    case _ =>
  }

  /** An address touches nothing but its own listener. */
  lemma AddressIsHarmless(c: Core, t: Tid, slot: Slot, pc: AddressPc)
    ensures var e := RunAddress(c, t, slot, pc);
            && e.core == c.(exitEvent := e.core.exitEvent) && e.thread.todo == [] && e.thread.proc.Address?
            && NoNewWaiters(c.exitEvent, e.core.exitEvent, t)
            && (Exposed(Exiting, e.thread.proc) && t in e.core.exitEvent.waiting
                ==> c.inboxCount > 0 || (Exposed(Exiting, Address(slot, pc)) && t in c.exitEvent.waiting))
  {
    hide Notify, Without, Remove, Drop, Listen, Active;
    match pc
    case Listening => ListenLeavesOthers(c.exitEvent, t);
    case Watching => RemoveForgetsOnlyOne(c.exitEvent, t);
    case Clearing => DropKeepsNotification(c.exitEvent, t);
    case _ =>
  }

  lemma AddressDischarges(w: Promise, c: Core, t: Tid, slot: Slot, pc: AddressPc)
    ensures var e := RunAddress(c, t, slot, pc);
            Discharged(w, c, t, Thread([], Address(slot, pc)), e.core, e.thread)
  {
    hide RunAddress, Notify, Without;
    AddressIsHarmless(c, t, slot, pc);
  }

  lemma OwnerDischarges(w: Promise, c: Core, t: Tid, th: Thread, act: Act)
    requires Can(th, act) && !act.Run?
    ensures var e := Perform(c, t, th, act); Discharged(w, c, t, th, e.core, e.thread)
  {
    hide Notify, Without;
    if act.Abandon? {
      DropKeepsNotification(c.recvEvent, t);
      DropKeepsNotification(c.sendEvent, t);
    }
  }

  // ---------------------------------------------------------------------------------------
  // All threads
  // ---------------------------------------------------------------------------------------

  /** An inbox that was told to halt no longer touches the halt counter. */
  predicate Honest(p: Proc) {
    p.Inbox? && p.recv.Trying? && !p.recv.access.PopQueue? ==> !p.signaled
  }

  lemma PerformStaysHonest(c: Core, t: Tid, th: Thread, act: Act)
    requires Can(th, act) && Honest(th.proc)
    ensures Honest(Perform(c, t, th, act).thread.proc)
    ensures Perform(c, t, th, act).core.capacity == c.capacity
  {
    hide Notify, Without, Listen, Remove, Drop;
  }

  ghost predicate AllHonest(s: State) {
    && ProperCapacity(s.core.capacity)
    && forall t :: t in s.threads ==> Honest(s.threads[t].proc)
  }

  lemma StepStaysHonest(s: State, step: Step)
    requires AllHonest(s) && Enabled(s, step)
    ensures AllHonest(Apply(s, step))
  {
    if step.On? {
      PerformStaysHonest(s.core, step.t, s.threads[step.t], step.act);
    }
  }

  lemma PerformDischarges(w: Promise, c: Core, t: Tid, th: Thread, act: Act)
    requires Can(th, act) && Honest(th.proc) && ProperCapacity(c.capacity)
    requires w.HaltCredit? && IsSubtracting(th.proc) ==> c.haltCount > I32_MIN
    requires th.todo == [] && act.Run? ==> !Excused(w, c, th.proc)
    ensures var e := Perform(c, t, th, act); Discharged(w, c, t, th, e.core, e.thread)
  {
    hide Notify, Without;
    if !act.Run? {
      OwnerDischarges(w, c, t, th, act);
    } else if th.todo != [] {
      FlushDischarges(w, c, t, th);
    } else {
      assert th == Thread([], th.proc);
      match th.proc
      case Inbox(signaled, Trying(a, access)) => TryDischarges(w, c, t, signaled, a, access);
      case Inbox(signaled, pc) => InboxDischarges(w, c, t, signaled, pc);
      case Send(m, pc) => SendDischarges(w, c, t, m, pc);
      case Address(slot, pc) => AddressDischarges(w, c, t, slot, pc);
      case Closer(_) =>
      case Halter(_, _) =>
    }
  }

  ghost predicate AllKept(s: State) {
    forall w :: Due(w, s) ==> Kept(w, s)
  }

  /**
  An excused step is covered by another promise: while the halt counter is positive every
  unsignalled receiver is notified or about to be, and so is every sender once the queue is closed.
  */
  lemma ExcuseIsCovered(w: Promise, s: State, t: Tid)
    requires AllKept(s) && Due(w, s) && !w.MessageForAnyone? && t in s.threads && Can(s.threads[t], Run)
    requires s.threads[t].todo == [] && Excused(w, s.core, s.threads[t].proc)
    ensures Kept(w, Apply(s, On(t, Run)))
  {
    var cover := if w.MessageForUntold? then HaltCredit else ClosedToSenders;
    var s' := Apply(s, On(t, Run));
    assert Kept(cover, s);
    if SomebodyInFlight(cover, s) {
      var u :| u in s.threads && InFlight(cover, s.threads[u]);
      assert u != t;
      assert InFlight(w, s'.threads[u]);
    } else {
      forall u | u in s'.threads ensures !AtRisk(w, s'.core, u, s'.threads[u].proc) {
        assert !AtRisk(cover, s.core, u, s.threads[u].proc);
      }
    }
  }

  lemma NewThreadKeeps(w: Promise, s: State, step: Step)
    requires Kept(w, s) && Enabled(s, step) && !step.On?
    ensures Kept(w, Apply(s, step))
  {
    var s' := Apply(s, step);
    if SomebodyInFlight(w, s) {
      var u :| u in s.threads && InFlight(w, s.threads[u]);
      assert InFlight(w, s'.threads[u]);
    } else if NobodyAtRisk(w, s) {
      forall u | u in s'.threads ensures !AtRisk(w, s'.core, u, s'.threads[u].proc) {
        if u != step.t {
          assert !AtRisk(w, s.core, u, s.threads[u].proc);
        }
      }
    }
  }

  /** A step that is not excused keeps any promise. */
  lemma StepKeepsPromise(w: Promise, s: State, step: Step)
    requires Enabled(s, step) && AllHonest(s) && Counted(s) && Due(w, s) && Kept(w, s)
    requires step.On? && step.act.Run? && s.threads[step.t].todo == []
             ==> !Excused(w, s.core, s.threads[step.t].proc)
    ensures Kept(w, Apply(s, step))
  {
    hide Kept, Perform, Excused;
    if !step.On? {
      NewThreadKeeps(w, s, step);
    } else {
      var t, th := step.t, s.threads[step.t];
      if w.HaltCredit? && IsSubtracting(th.proc) {
        SubtractionNeverWraps(s, t);
      }
      PerformDischarges(w, s.core, t, th, step.act);
      DischargedKeeps(w, s, t, Perform(s.core, t, th, step.act));
    }
  }

  /** A promise that is due after a step was due before it, and no notification was wasted unrecorded. */
  lemma DueBefore(w: Promise, s: State, step: Step)
    requires Enabled(s, step) && Due(w, Apply(s, step))
    ensures Due(w, s)
    ensures step.On? && step.act.Run? && s.threads[step.t].todo == [] && w.MessageForAnyone?
            ==> !Wasteful(s.core, s.threads[step.t].proc)
  {
  }

  /** Every step keeps every promise that is due. */
  lemma StepKeepsPromises(s: State, step: Step)
    requires Enabled(s, step) && AllHonest(s) && Counted(s) && AllKept(s)
    ensures AllKept(Apply(s, step))
  {
    hide Kept, Wasteful, Due;
    forall w | Due(w, Apply(s, step)) ensures Kept(w, Apply(s, step)) {
      DueBefore(w, s, step);
      if step.On? && step.act.Run? && s.threads[step.t].todo == []
         && Excused(w, s.core, s.threads[step.t].proc) {
        ExcuseIsCovered(w, s, step.t);
      } else {
        StepKeepsPromise(w, s, step);
      }
    }
  }

  lemma InitKeepsPromises(s: State)
    requires Init(s)
    ensures AllHonest(s) && AllKept(s)
  {
    forall w ensures Kept(w, s) {
      assert Listeners(w, s.core).waiting == [];
    }
  }
}
