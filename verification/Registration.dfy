/**
Who is registered where. Registering, polling and dropping a listener are separate steps from
trying to receive or send, so it is a theorem that a thread which parks holds a registration.
*/
module Registration {
  import opened Events
  import opened Core
  import opened Protocol

  /** The program counters of an inbox that may own a listener, and those that must. */
  predicate MayListenRecv(p: Proc) {
    p.Inbox? && (p.recv.Trying? || p.recv.Looking? || p.recv.Parked? || p.recv.Settling?)
    && (p.recv.Trying? ==> p.recv.attempt.First? || p.recv.attempt.Second?)
  }

  predicate MustListenRecv(p: Proc) {
    p.Inbox? && (p.recv.Looking? || p.recv.Parked? || (p.recv.Trying? && p.recv.attempt.Second?))
  }

  predicate MayListenSend(p: Proc) {
    p.Send? && (p.send.Pushing? || p.send.SendLooking? || p.send.SendParked? || p.send.Finished?)
    && (p.send.Pushing? ==> p.send.attempt.First? || p.send.attempt.Second?)
  }

  predicate MustListenSend(p: Proc) {
    p.Send? && (p.send.SendLooking? || p.send.SendParked? || (p.send.Pushing? && p.send.attempt.Second?))
  }

  /** An address that is past registering has a slot, and waits only on a listener it holds. */
  predicate ProperSlot(p: Proc) {
    p.Address? ==>
      && (p.watch.SecondCheck? || p.watch.Watching? || p.watch.Waiting? ==> !p.slot.NoListener?)
      && (p.watch.Waiting? ==> p.slot.Held?)
      && (p.watch.Listening? || p.watch.Dropped? ==> p.slot.NoListener?)
  }

  predicate Placed(c: Core, t: Tid, p: Proc) {
    && (Active(c.recvEvent, t) ==> MayListenRecv(p))
    && (MustListenRecv(p) ==> Active(c.recvEvent, t))
    && (Active(c.sendEvent, t) ==> MayListenSend(p))
    && (MustListenSend(p) ==> Active(c.sendEvent, t))
    && (Active(c.exitEvent, t) <==> p.Address? && p.slot.Held?)
    && ProperSlot(p)
  }

  ghost predicate OthersKept(c: Core, c': Core, t: Tid) {
    && (forall u :: u != t ==> (Active(c'.recvEvent, u) <==> Active(c.recvEvent, u)))
    && (forall u :: u != t ==> (Active(c'.sendEvent, u) <==> Active(c.sendEvent, u)))
    && (forall u :: u != t ==> (Active(c'.exitEvent, u) <==> Active(c.exitEvent, u)))
  }

  predicate Orderly(c: Core) {
    && Unique(All(c.recvEvent))
    && Unique(All(c.sendEvent))
    && Unique(All(c.exitEvent))
  }

  ghost predicate Registered(s: State) {
    && Orderly(s.core)
    && (forall t :: t in s.threads ==> Placed(s.core, t, s.threads[t].proc))
    && (forall t :: Active(s.core.recvEvent, t) ==> t in s.threads)
    && (forall t :: Active(s.core.sendEvent, t) ==> t in s.threads)
    && (forall t :: Active(s.core.exitEvent, t) ==> t in s.threads)
  }

  // ---------------------------------------------------------------------------------------
  // One thread
  // ---------------------------------------------------------------------------------------

  lemma DeliverKeepsListeners(c: Core, w: Wake)
    ensures forall u :: Active(Deliver(c, w).recvEvent, u) <==> Active(c.recvEvent, u)
    ensures forall u :: Active(Deliver(c, w).sendEvent, u) <==> Active(c.sendEvent, u)
    ensures forall u :: Active(Deliver(c, w).exitEvent, u) <==> Active(c.exitEvent, u)
    ensures Orderly(c) ==> Orderly(Deliver(c, w))
  {
    hide Notify, Without;
    match w
    case RecvOne => NotifyReachesAtLeast(c.recvEvent, 1);
    case RecvAll => NotifyAllReachesEveryone(c.recvEvent); NotifyReachesAtLeast(c.recvEvent, |All(c.recvEvent)|);
    case SendOne => NotifyReachesAtLeast(c.sendEvent, 1);
    case SendAll => NotifyAllReachesEveryone(c.sendEvent); NotifyReachesAtLeast(c.sendEvent, |All(c.sendEvent)|);
    case ExitAll => NotifyAllReachesEveryone(c.exitEvent); NotifyReachesAtLeast(c.exitEvent, |All(c.exitEvent)|);
  }

  lemma TryStaysPlaced(c: Core, t: Tid, signaled: bool, a: Attempt, access: Access)
    requires Placed(c, t, Inbox(signaled, Trying(a, access)))
    ensures var e := RunTry(c, t, signaled, a, access);
            Placed(e.core, t, e.thread.proc) && OthersKept(c, e.core, t)
  {
  }

  lemma InboxStaysPlaced(c: Core, t: Tid, signaled: bool, pc: RecvPc)
    requires Placed(c, t, Inbox(signaled, pc))
    ensures var e := RunInbox(c, t, signaled, pc);
            Placed(e.core, t, e.thread.proc) && OthersKept(c, e.core, t)
  {
    hide Notify, Without;
    match pc
    case Trying(a, access) => TryStaysPlaced(c, t, signaled, a, access);
    case Registering => ListenAddsOne(c.recvEvent, t);
    case Looking => RemoveForgetsOnlyOne(c.recvEvent, t);
    case Settling(_) => DropKeepsNotification(c.recvEvent, t);
    case _ =>
  }

  lemma SendStaysPlaced(c: Core, t: Tid, m: Message, pc: SendPc)
    requires Placed(c, t, Send(m, pc))
    ensures var e := RunSend(c, t, m, pc);
            Placed(e.core, t, e.thread.proc) && OthersKept(c, e.core, t)
  {
    hide Notify, Without;
    ListenAddsOne(c.sendEvent, t);
    RemoveForgetsOnlyOne(c.sendEvent, t);
  }

  lemma AddressStaysPlaced(c: Core, t: Tid, slot: Slot, pc: AddressPc)
    requires Placed(c, t, Address(slot, pc))
    ensures var e := RunAddress(c, t, slot, pc);
            Placed(e.core, t, e.thread.proc) && OthersKept(c, e.core, t)
  {
    hide Notify, Without;
    ListenAddsOne(c.exitEvent, t);
    RemoveForgetsOnlyOne(c.exitEvent, t);
    DropKeepsNotification(c.exitEvent, t);
  }

  lemma PerformStaysPlaced(c: Core, t: Tid, th: Thread, act: Act)
    requires Can(th, act) && Placed(c, t, th.proc)
    ensures var e := Perform(c, t, th, act);
            Placed(e.core, t, e.thread.proc) && OthersKept(c, e.core, t)
  {
    hide Notify, Without;
    match act
    case Run =>
      if th.todo != [] {
        DeliverKeepsListeners(c, th.todo[0]);
      } else {
        match th.proc
        case Inbox(signaled, pc) => InboxStaysPlaced(c, t, signaled, pc);
        case Send(m, pc) => SendStaysPlaced(c, t, m, pc);
        case Address(slot, pc) => AddressStaysPlaced(c, t, slot, pc);
        case Closer(_) =>
        case Halter(_, _) =>
      }
    case Abandon =>
      DropKeepsNotification(c.recvEvent, t);
      DropKeepsNotification(c.sendEvent, t);
    case _ =>
  }

  /** The ways in which the step of one thread may change an event. */
  predicate EventStep(e: Event, e': Event, t: Tid) {
    || e' == e
    || (!Active(e, t) && e' == Listen(e, t))
    || e' == Remove(e, t)
    || e' == Drop(e, t)
  }

  lemma EventStepKeepsUnique(e: Event, e': Event, t: Tid)
    requires Unique(All(e)) && EventStep(e, e', t)
    ensures Unique(All(e'))
  {
    if !Active(e, t) { ListenKeepsUnique(e, t); }
    RemoveKeepsUnique(e, t);
    DropKeepsUnique(e, t);
  }

  ghost predicate EventSteps(c: Core, c': Core, t: Tid) {
    && EventStep(c.recvEvent, c'.recvEvent, t)
    && EventStep(c.sendEvent, c'.sendEvent, t)
    && EventStep(c.exitEvent, c'.exitEvent, t)
  }

  lemma InboxIsEventStep(c: Core, t: Tid, signaled: bool, pc: RecvPc)
    requires Placed(c, t, Inbox(signaled, pc))
    ensures EventSteps(c, RunInbox(c, t, signaled, pc).core, t)
  {
    hide Notify, Without, Listen, Remove, Drop, PushAnswer;
  }

  lemma SendIsEventStep(c: Core, t: Tid, m: Message, pc: SendPc)
    requires Placed(c, t, Send(m, pc))
    ensures EventSteps(c, RunSend(c, t, m, pc).core, t)
  {
    hide Notify, Without, Listen, Remove, Drop, PushAnswer, MustWait;
  }

  lemma AddressIsEventStep(c: Core, t: Tid, slot: Slot, pc: AddressPc)
    requires Placed(c, t, Address(slot, pc))
    ensures EventSteps(c, RunAddress(c, t, slot, pc).core, t)
  {
    hide Notify, Without, Listen, Remove, Drop;
  }

  lemma RunIsEventStep(c: Core, t: Tid, p: Proc)
    requires Placed(c, t, p)
    ensures EventSteps(c, RunNext(c, t, p).core, t)
  {
    hide Placed, RunInbox, RunSend, RunAddress;
    match p
    case Inbox(signaled, pc) => InboxIsEventStep(c, t, signaled, pc);
    case Send(m, pc) => SendIsEventStep(c, t, m, pc);
    case Address(slot, pc) => AddressIsEventStep(c, t, slot, pc);
    case Closer(_) =>
    case Halter(_, _) =>
  }

  lemma PerformIsEventStep(c: Core, t: Tid, th: Thread, act: Act)
    requires Can(th, act) && Placed(c, t, th.proc) && !(act.Run? && th.todo != [])
    ensures EventSteps(c, Perform(c, t, th, act).core, t)
  {
    if act.Run? {
      RunIsEventStep(c, t, th.proc);
    }
  }

  lemma PerformStaysOrderly(c: Core, t: Tid, th: Thread, act: Act)
    requires Can(th, act) && Placed(c, t, th.proc) && Orderly(c)
    ensures Orderly(Perform(c, t, th, act).core)
  {
    hide Notify, Without;
    var c' := Perform(c, t, th, act).core;
    if act.Run? && th.todo != [] {
      DeliverKeepsListeners(c, th.todo[0]);
    } else {
      PerformIsEventStep(c, t, th, act);
      EventStepKeepsUnique(c.recvEvent, c'.recvEvent, t);
      EventStepKeepsUnique(c.sendEvent, c'.sendEvent, t);
      EventStepKeepsUnique(c.exitEvent, c'.exitEvent, t);
    }
  }

  // ---------------------------------------------------------------------------------------
  // All threads
  // ---------------------------------------------------------------------------------------

  lemma AfterStaysRegistered(s: State, t: Tid, act: Act)
    requires Registered(s) && t in s.threads && Can(s.threads[t], act)
    ensures Registered(Apply(s, On(t, act)))
  {
    var e := Perform(s.core, t, s.threads[t], act);
    PerformStaysPlaced(s.core, t, s.threads[t], act);
    PerformStaysOrderly(s.core, t, s.threads[t], act);
    var s' := After(s, t, e);
    forall u | u in s'.threads ensures Placed(s'.core, u, s'.threads[u].proc) {
      if u != t {
        assert Placed(s.core, u, s.threads[u].proc);
      }
    }
  }

  lemma StepStaysRegistered(s: State, step: Step)
    requires Registered(s) && Enabled(s, step)
    ensures Registered(Apply(s, step))
  {
    if step.On? {
      AfterStaysRegistered(s, step.t, step.act);
    } else {
      var s' := Apply(s, step);
      assert !Active(s.core.recvEvent, step.t) && !Active(s.core.sendEvent, step.t)
             && !Active(s.core.exitEvent, step.t);
      forall u | u in s'.threads ensures Placed(s'.core, u, s'.threads[u].proc) {
        if u != step.t {
          assert Placed(s.core, u, s.threads[u].proc);
        }
      }
    }
  }
}
