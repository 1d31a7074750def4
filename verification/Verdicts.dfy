/**
Verdicts that stay true: closed, closed and empty, exited. A thread that has seen one may rely
on it forever, whatever the other threads do.
*/
module Verdicts {
  import opened Events
  import opened Core
  import opened Protocol
  import opened Counting

  predicate Exhausted(c: Core) {
    c.closed && c.queue == []
  }

  /** What each thread may rely on. */
  predicate Relies(c: Core, th: Thread) {
    && (ExitAll in th.todo ==> c.inboxCount == 0)
    && (SendAll in th.todo ==> c.closed)
    && match th.proc
       case Inbox(_, pc) =>
         && (pc.Closing? || pc.Draining? || pc == Gone(true) ==> c.inboxCount == 0)
         && (pc.Draining? ==> c.closed)
         && (pc == Gone(true) ==> Exhausted(c))
         && (pc == Settling(Refused(ClosedAndEmpty)) ==> Exhausted(c))
         && (pc == Idle(Refused(ClosedAndEmpty)) ==> Exhausted(c))
       case Closer(done) => done ==> c.closed
       case Address(slot, pc) =>
         && (slot.Consumed? ==> c.inboxCount == 0)
         && (pc.Exited? ==> c.inboxCount == 0)
         && (pc.Listening? || pc.SecondCheck? || pc.Watching? || pc.Waiting? ==> !slot.Consumed?)
         && !pc.Crashed?
       case _ => true
  }

  /** Only the last inbox to leave notifies the exit listeners. */
  predicate ExitOnlyAtEnd(c: Core) {
    c.exitEvent.woken != [] ==> c.inboxCount == 0
  }

  predicate Later(c: Core, c': Core) {
    && (c.closed ==> c'.closed)
    && (Exhausted(c) ==> Exhausted(c'))
    && (c.inboxCount == 0 ==> c'.inboxCount == 0)
  }

  ghost predicate Reliable(s: State) {
    && ExitOnlyAtEnd(s.core)
    && forall t :: t in s.threads ==> Relies(s.core, s.threads[t])
  }

  /** The inbox that leaves last: it closes the channel, notifies, drains, and is gone. */
  predicate CleansUp(th: Thread) {
    th.proc.Inbox? && (th.proc.recv.Closing? || th.proc.recv.Draining? || th.proc.recv == Gone(true))
  }

  ghost predicate LastCleansUp(s: State) {
    s.core.inboxCount == 0 ==> exists t :: t in s.threads && CleansUp(s.threads[t])
  }

  // ---------------------------------------------------------------------------------------
  // One thread
  // ---------------------------------------------------------------------------------------

  lemma PerformIsLater(c: Core, t: Tid, th: Thread, act: Act)
    requires Can(th, act) && (Live(th) ==> c.inboxCount > 0)
    ensures Later(c, Perform(c, t, th, act).core)
  {
    hide Notify, Without, Listen, Remove, Drop;
  }

  lemma DeliverKeepsExit(c: Core, th: Thread)
    requires th.todo != [] && ExitOnlyAtEnd(c) && Relies(c, th)
    ensures ExitOnlyAtEnd(Deliver(c, th.todo[0]))
  {
  }

  lemma PerformKeepsExit(c: Core, t: Tid, th: Thread, act: Act)
    requires Can(th, act) && ExitOnlyAtEnd(c) && Relies(c, th)
    requires Live(th) ==> c.inboxCount > 0
    ensures ExitOnlyAtEnd(Perform(c, t, th, act).core)
  {
    hide Notify, Without;
    if act.Run? && th.todo != [] {
      DeliverKeepsExit(c, th);
    } else {
      WithoutIsRemoval(c.exitEvent.woken, t);
      DropKeepsNotification(c.exitEvent, t);
    }
  }

  lemma FlushKeepsReliance(c: Core, th: Thread)
    requires th.todo != [] && Relies(c, th)
    ensures Relies(Flush(c, th).core, Flush(c, th).thread)
  {
    assert forall x :: x in th.todo[1..] ==> x in th.todo;
  }

  lemma InboxKeepsReliance(c: Core, t: Tid, signaled: bool, pc: RecvPc)
    requires Relies(c, Thread([], Inbox(signaled, pc)))
    ensures var e := RunInbox(c, t, signaled, pc); Relies(e.core, e.thread)
  {
    hide Notify, Without, Listen, Remove, Drop;
  }

  lemma AddressKeepsReliance(c: Core, t: Tid, slot: Slot, pc: AddressPc)
    requires Relies(c, Thread([], Address(slot, pc))) && ExitOnlyAtEnd(c)
    ensures var e := RunAddress(c, t, slot, pc); Relies(e.core, e.thread)
  {
  }

  lemma RunKeepsReliance(c: Core, t: Tid, th: Thread)
    requires Can(th, Run) && th.todo == [] && Relies(c, th) && ExitOnlyAtEnd(c)
    requires Live(th) ==> c.inboxCount > 0
    ensures var e := RunNext(c, t, th.proc); Relies(e.core, e.thread)
  {
    assert th == Thread([], th.proc);
    match th.proc
    case Inbox(signaled, pc) => InboxKeepsReliance(c, t, signaled, pc);
    case Address(slot, pc) => AddressKeepsReliance(c, t, slot, pc);
    case _ =>
  }

  lemma PerformKeepsReliance(c: Core, t: Tid, th: Thread, act: Act)
    requires Can(th, act) && Relies(c, th) && ExitOnlyAtEnd(c)
    requires Live(th) ==> c.inboxCount > 0
    ensures var e := Perform(c, t, th, act); Relies(e.core, e.thread)
  {
    if act.Run? {
      if th.todo != [] {
        FlushKeepsReliance(c, th);
      } else {
        RunKeepsReliance(c, t, th);
      }
    }
  }

  lemma LaterKeepsReliance(c: Core, c': Core, th: Thread)
    requires Relies(c, th) && Later(c, c')
    ensures Relies(c', th)
  {
  }

  // ---------------------------------------------------------------------------------------
  // All threads
  // ---------------------------------------------------------------------------------------

  lemma StepStaysReliable(s: State, step: Step)
    requires Reliable(s) && Counted(s) && Enabled(s, step)
    ensures Reliable(Apply(s, step))
    ensures Later(s.core, Apply(s, step).core)
  {
    var s' := Apply(s, step);
    if step.On? {
      var t, th := step.t, s.threads[step.t];
      if Live(th) {
        LeavingIsCounted(s, t);
      }
      PerformIsLater(s.core, t, th, step.act);
      PerformKeepsExit(s.core, t, th, step.act);
      PerformKeepsReliance(s.core, t, th, step.act);
    }
    forall u | u in s'.threads ensures Relies(s'.core, s'.threads[u]) {
      if u != step.t {
        LaterKeepsReliance(s.core, s'.core, s.threads[u]);
      }
    }
  }

  lemma PerformCleansUp(c: Core, t: Tid, th: Thread, act: Act)
    requires Can(th, act)
    ensures var e := Perform(c, t, th, act);
            && (CleansUp(th) ==> CleansUp(e.thread))
            && (c.inboxCount > 0 && e.core.inboxCount == 0 ==> CleansUp(e.thread))
  {
    hide Notify, Without, Listen, Remove, Drop;
  }

  lemma StepCleansUp(s: State, step: Step)
    requires LastCleansUp(s) && Enabled(s, step)
    ensures LastCleansUp(Apply(s, step))
  {
    hide CleansUp, Perform;
    var s' := Apply(s, step);
    if step.On? {
      PerformCleansUp(s.core, step.t, s.threads[step.t], step.act);
    }
    if s'.core.inboxCount == 0 {
      if s.core.inboxCount == 0 {
        var u :| u in s.threads && CleansUp(s.threads[u]);
        assert CleansUp(s'.threads[u]);
      } else {
        assert CleansUp(s'.threads[step.t]);
      }
    }
  }
}
