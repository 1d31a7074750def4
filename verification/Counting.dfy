/**
The shared counters against the threads they count: live inboxes, live addresses, and how far the
halt counter can drop below zero.
*/
module Counting {
  import opened Wrappers
  import opened Config
  import opened Events
  import opened Core
  import opened Protocol

  datatype Tally = LiveInboxes | EveryInbox | SignaledInboxes | Subtracting | LiveAddresses | CheckedSends

  predicate Counts(y: Tally, th: Thread) {
    match y
    case LiveInboxes => Live(th)
    case EveryInbox => th.proc.Inbox?
    case SignaledInboxes => th.proc.Inbox? && th.proc.signaled
    case Subtracting => IsSubtracting(th.proc)
    case LiveAddresses => th.proc.Address? && !th.proc.watch.Clearing? && !th.proc.watch.Dropped?
    case CheckedSends => th.proc.Send? && th.proc.send == Pushing(Checked)
  }

  /** Between the load of the halt counter and the subtraction. */
  predicate IsSubtracting(p: Proc) {
    p.Inbox? && p.recv.Trying? && p.recv.access.Subtract?
  }

  ghost function Tallied(y: Tally, threads: map<Tid, Thread>): set<Tid> {
    set t | t in threads && Counts(y, threads[t])
  }

  ghost function Number(y: Tally, s: State): nat {
    |Tallied(y, s.threads)|
  }

  function One(b: bool): nat {
    if b then 1 else 0
  }

  lemma SizeWithout(a: set<Tid>, t: Tid)
    ensures |a| == |a - {t}| + One(t in a)
  {
    if t in a {
      assert a == (a - {t}) + {t};
    } else {
      assert a == a - {t};
    }
  }

  /** Replacing or adding one thread changes a tally by what that thread contributes. */
  lemma TallyUpdate(y: Tally, threads: map<Tid, Thread>, t: Tid, th: Thread)
    ensures |Tallied(y, threads[t := th])|
            == |Tallied(y, threads)| - One(t in threads && Counts(y, threads[t])) + One(Counts(y, th))
  {
    var before, after := Tallied(y, threads), Tallied(y, threads[t := th]);
    assert t in before <==> t in threads && Counts(y, threads[t]);
    assert t in after <==> Counts(y, th);
    assert after - {t} == before - {t};
    SizeWithout(before, t);
    SizeWithout(after, t);
  }

  lemma {:induction false} SubsetSize<T>(a: set<T>, b: set<T>)
    requires a <= b
    ensures |a| <= |b|
    ensures |a| == |b| ==> a == b
  {
    assert b == a + (b - a);
    assert |b| == |a| + |b - a|;
  }

  lemma SubtractingAreLive(s: State)
    ensures Number(Subtracting, s) <= Number(LiveInboxes, s)
  {
    SubsetSize(Tallied(Subtracting, s.threads), Tallied(LiveInboxes, s.threads));
  }

  /** The counters agree with the threads, and the halt counter's excursion below zero is bounded. */
  ghost predicate Counted(s: State) {
    && s.core.inboxCount == Number(LiveInboxes, s)
    && s.core.addressCount == Number(LiveAddresses, s)
    && s.core.inboxCount <= s.history.mostLive
    && 1 <= s.history.mostLive
    && (Small(s) ==> s.core.haltCount - Number(Subtracting, s) >= 1 - s.history.mostLive)
  }

  /** Never 2^31 inboxes at once. */
  predicate Small(s: State) {
    s.history.mostLive <= I32_MAX
  }

  // ---------------------------------------------------------------------------------------
  // One thread
  // ---------------------------------------------------------------------------------------

  lemma OthersLeaveInboxes(c: Core, t: Tid, p: Proc)
    requires !p.Inbox?
    ensures var e := RunNext(c, t, p);
            !e.thread.proc.Inbox? && e.core.inboxCount == c.inboxCount
  {
    hide Notify, Without, Listen, Remove, Drop;
  }

  lemma PerformCountsInboxes(c: Core, t: Tid, th: Thread, act: Act)
    requires Can(th, act)
    ensures var e := Perform(c, t, th, act);
            && (Live(e.thread) ==> Live(th))
            && (Live(th) && !Live(e.thread) ==> e.core.inboxCount == Max(c.inboxCount - 1, 0))
            && (Live(th) == Live(e.thread) ==> e.core.inboxCount == c.inboxCount)
  {
    hide RunSend, RunHalter, RunAddress, PopAnswer, Drop, Remove, Listen;
    if act.Run? && th.todo == [] && !th.proc.Inbox? {
      OthersLeaveInboxes(c, t, th.proc);
    }
  }

  lemma PerformCountsAddresses(c: Core, t: Tid, th: Thread, act: Act)
    requires Can(th, act)
    ensures var e := Perform(c, t, th, act);
            && (Counts(LiveAddresses, e.thread) ==> Counts(LiveAddresses, th))
            && (Counts(LiveAddresses, th) && !Counts(LiveAddresses, e.thread)
                ==> e.core.addressCount == Max(c.addressCount - 1, 0))
            && (Counts(LiveAddresses, th) == Counts(LiveAddresses, e.thread)
                ==> e.core.addressCount == c.addressCount)
  {
    hide Notify, Without, Listen, Remove, Drop;
  }

  lemma PerformCountsHalts(c: Core, t: Tid, th: Thread, act: Act)
    requires Can(th, act)
    ensures var e := Perform(c, t, th, act);
            || (IsSubtracting(th.proc) && !IsSubtracting(e.thread.proc)
                && e.core.haltCount == Decremented(c.haltCount))
            || (!IsSubtracting(th.proc) && IsSubtracting(e.thread.proc)
                && e.core.haltCount == c.haltCount && c.haltCount > 0)
            || (IsSubtracting(th.proc) == IsSubtracting(e.thread.proc)
                && e.core.haltCount >= c.haltCount)
  {
    hide Notify, Without, Listen, Remove, Drop;
  }

  // ---------------------------------------------------------------------------------------
  // All threads
  // ---------------------------------------------------------------------------------------

  lemma AfterStaysCounted(s: State, t: Tid, act: Act)
    requires Counted(s) && t in s.threads && Can(s.threads[t], act)
    ensures Counted(Apply(s, On(t, act)))
  {
    var e := Perform(s.core, t, s.threads[t], act);
    PerformCountsInboxes(s.core, t, s.threads[t], act);
    PerformCountsAddresses(s.core, t, s.threads[t], act);
    PerformCountsHalts(s.core, t, s.threads[t], act);
    var s' := After(s, t, e);
    TallyUpdate(LiveInboxes, s.threads, t, e.thread);
    TallyUpdate(LiveAddresses, s.threads, t, e.thread);
    TallyUpdate(Subtracting, s.threads, t, e.thread);
    SubtractingAreLive(s');
    assert s'.history.mostLive == s.history.mostLive;
  }

  lemma StepStaysCounted(s: State, step: Step)
    requires Counted(s) && Enabled(s, step)
    ensures Counted(Apply(s, step))
  {
    if step.On? {
      AfterStaysCounted(s, step.t, step.act);
    } else {
      var th := Apply(s, step).threads[step.t];
      TallyUpdate(LiveInboxes, s.threads, step.t, th);
      TallyUpdate(LiveAddresses, s.threads, step.t, th);
      TallyUpdate(Subtracting, s.threads, step.t, th);
    }
  }

  lemma InitIsCounted(s: State)
    requires Init(s)
    ensures Counted(s)
  {
    assert Tallied(LiveInboxes, s.threads) == set t | t in s.threads && s.threads[t].proc.Inbox?;
    assert Tallied(LiveAddresses, s.threads) == set t | t in s.threads && s.threads[t].proc.Address?;
    assert Tallied(Subtracting, s.threads) == {};
  }

  /** The decrement of the halt counter never wraps around. */
  lemma SubtractionNeverWraps(s: State, t: Tid)
    requires Counted(s) && Small(s) && t in s.threads && IsSubtracting(s.threads[t].proc)
    ensures s.core.haltCount > I32_MIN
    ensures Decremented(s.core.haltCount) == s.core.haltCount - 1
  {
    SubsetSize({t}, Tallied(Subtracting, s.threads));
  }

  /** An inbox that is about to leave is still counted, so its decrement cannot underflow. */
  lemma LeavingIsCounted(s: State, t: Tid)
    requires Counted(s) && t in s.threads && Live(s.threads[t])
    ensures s.core.inboxCount >= 1
  {
    SubsetSize({t}, Tallied(LiveInboxes, s.threads));
  }

  /** The same for an address: the assertion in remove_address holds. */
  lemma AddressIsCounted(s: State, t: Tid)
    requires Counted(s) && t in s.threads && Counts(LiveAddresses, s.threads[t])
    ensures s.core.addressCount >= 1
  {
    SubsetSize({t}, Tallied(LiveAddresses, s.threads));
  }
}
