/**
What coming to rest means for the users of a channel: every actor can exit and leaves its channel clean, whoever awaits
the exit sees it, and halting some inboxes is exact by wake-ups alone.
*/
module Quiescence {
  import opened Wrappers
  import opened Config
  import opened Events
  import opened Core
  import opened Protocol
  import opened Counting
  import opened Wakeups
  import opened Verdicts
  import opened Answers
  import opened Invariant
  import opened Runs
  import opened Progress

  // ---------------------------------------------------------------------------------------
  // Exiting
  // ---------------------------------------------------------------------------------------

  lemma {:induction false} ReachesTransitive(s: State, steps: seq<Step>, s': State)
    requires Valid(s, steps) && Reaches(Exec(s, steps), s')
    ensures Reaches(s, s')
    decreases |steps|
  {
    hide Reaches, Apply, Enabled;
    if steps != [] {
      ReachesTransitive(Apply(s, steps[0]), steps[1..], s');
      StepThenReaches(s, steps[0], s');
    }
  }

  /** At rest with no inbox left the channel is closed and empty: whoever left last has cleaned up. */
  lemma ExitIsCleanAtRest(s: State)
    requires Inv(s) && AtRest(s) && s.core.inboxCount == 0
    ensures s.core.closed && s.core.queue == []
  {
    var t :| t in s.threads && CleansUp(s.threads[t]);
    RestingThread(s, t);
    assert Relies(s.core, s.threads[t]);
  }

  lemma OneStep(s: State, step: Step) returns (s': State)
    requires Inv(s) && Enabled(s, step)
    ensures s' == Apply(s, step) && Inv(s') && Reaches(s, s')
  {
    hide Reaches;
    s' := Apply(s, step);
    StepKeepsInvariant(s, step);
    ReachesItself(s');
    StepThenReaches(s, step, s');
  }

  /** Where an inbox comes by a step of its own or of its owner. */
  lemma Moves(s: State, t: Tid, act: Act, signaled: bool, pc: RecvPc) returns (s': State)
    requires Inv(s) && t in s.threads && Can(s.threads[t], act)
    requires Perform(s.core, t, s.threads[t], act).thread == Thread([], Inbox(signaled, pc))
    ensures Inv(s') && Reaches(s, s')
    ensures s'.core == Perform(s.core, t, s.threads[t], act).core
    ensures t in s'.threads && s'.threads[t] == Thread([], Inbox(signaled, pc))
  {
    hide Perform, Can, Inv, Reaches;
    s' := OneStep(s, On(t, act));
  }

  /** The steps with which an inbox is dropped. */
  lemma LeavingSteps(c: Core, t: Tid, signaled: bool, v: Verdict)
    ensures var parked := Thread([], Inbox(signaled, Parked));
            && Can(parked, Abandon)
            && Perform(c, t, parked, Abandon).thread == Thread([], Inbox(signaled, Idle(NoVerdict)))
            && Perform(c, t, parked, Abandon).core.inboxCount == c.inboxCount
    ensures var idle := Thread([], Inbox(signaled, Idle(v)));
            && Can(idle, Retire)
            && Perform(c, t, idle, Retire) == Effect(c, Thread([], Inbox(signaled, Leaving)), Nothing)
    ensures var leaving := Thread([], Inbox(signaled, Leaving));
            && Can(leaving, Run)
            && Perform(c, t, leaving, Run)
               == Effect(c.(inboxCount := Max(c.inboxCount - 1, 0)),
                         Thread([], Inbox(signaled, if c.inboxCount == 1 then Closing else Gone(false))), Nothing)
  {
    hide Drop;
  }

  /** An inbox between its polls, or parked in one, can be dropped, its pending receive first. */
  lemma CanLeave(s: State, t: Tid) returns (s': State)
    requires Inv(s) && t in s.threads && s.threads[t].todo == [] && s.threads[t].proc.Inbox?
    requires s.threads[t].proc.recv.Parked? || s.threads[t].proc.recv.Idle?
    ensures Reaches(s, s') && Inv(s') && s'.core.inboxCount < s.core.inboxCount
  {
    var signaled := s.threads[t].proc.signaled;
    LeavingIsCounted(s, t);
    hide Inv, Reaches, Perform, Can;
    if s.threads[t].proc.recv.Parked? {
      LeavingSteps(s.core, t, signaled, NoVerdict);
      assert s.threads[t] == Thread([], Inbox(signaled, Parked));
      var s0 := Moves(s, t, Abandon, signaled, Idle(NoVerdict));
      s' := IdleCanLeave(s0, t, signaled, NoVerdict);
      ReachesCompose(s, s0, s');
    } else {
      assert s.threads[t] == Thread([], Inbox(signaled, Idle(s.threads[t].proc.recv.latest)));
      s' := IdleCanLeave(s, t, signaled, s.threads[t].proc.recv.latest);
    }
  }

  lemma IdleCanLeave(s: State, t: Tid, signaled: bool, v: Verdict) returns (s': State)
    requires Inv(s) && t in s.threads && s.threads[t] == Thread([], Inbox(signaled, Idle(v)))
    ensures Reaches(s, s') && Inv(s') && s'.core.inboxCount < s.core.inboxCount
  {
    LeavingIsCounted(s, t);
    hide Inv, Reaches, Perform, Can;
    LeavingSteps(s.core, t, signaled, v);
    var s1 := Moves(s, t, Retire, signaled, Leaving);
    LeavingSteps(s1.core, t, signaled, v);
    s' := Moves(s1, t, Run, signaled, if s1.core.inboxCount == 1 then Closing else Gone(false));
    ReachesCompose(s, s1, s');
  }

  lemma {:induction false} CanEmpty(s: State) returns (s': State)
    requires Inv(s)
    ensures Reaches(s, s') && AtRest(s') && Inv(s') && s'.core.inboxCount == 0
    decreases s.core.inboxCount
  {
    var s1 := CanComeToRest(s);
    if s1.core.inboxCount == 0 {
      s' := s1;
    } else {
      var t := SomeLiveInbox(s1);
      RestingThread(s1, t);
      var s2 := CanLeave(s1, t);
      s' := CanEmpty(s2);
      ReachesCompose(s1, s2, s');
      ReachesCompose(s, s1, s');
    }
  }

  lemma SomeLiveInbox(s: State) returns (t: Tid)
    requires Inv(s) && s.core.inboxCount > 0
    ensures t in s.threads && Live(s.threads[t])
  {
    assert Tallied(LiveInboxes, s.threads) != {};
    t :| t in Tallied(LiveInboxes, s.threads);
  }

  lemma ReachesCompose(s: State, s1: State, s2: State)
    requires Reaches(s, s1) && Reaches(s1, s2)
    ensures Reaches(s, s2)
  {
    var steps :| Valid(s, steps) && Exec(s, steps) == s1;
    ReachesTransitive(s, steps, s2);
  }

  /**
  Exit is always possible: from every reachable state, dropping the inboxes leads to a state at rest in which no
  inbox is left, the channel is closed and empty, and nobody is parked on it any more.
  */
  lemma EveryActorCanExit(s: State)
    requires Reachable(s)
    ensures exists s' :: Reaches(s, s') && AtRest(s') && s'.core.inboxCount == 0
                         && s'.core.closed && s'.core.queue == []
                         && forall t :: t in s'.threads ==> !Asleep(s'.threads[t].proc)
  {
    ReachableIsInvariant(s);
    var s' := CanEmpty(s);
    ExitIsCleanAtRest(s');
    forall t | t in s'.threads ensures !Asleep(s'.threads[t].proc) {
      NobodySleepsAfterExit(s', t);
    }
  }

  lemma NobodySleepsAfterExit(s: State, t: Tid)
    requires Inv(s) && AtRest(s) && s.core.inboxCount == 0 && s.core.closed && t in s.threads
    ensures !Asleep(s.threads[t].proc)
  {
    hide Inv, AtRest;
    if Asleep(s.threads[t].proc) {
      match s.threads[t].proc
      case Inbox(_, _) => CalmAtRest(ClosedToReceivers, s, t);
      case Send(_, _) => CalmAtRest(ClosedToSenders, s, t);
      case Address(_, _) => CalmAtRest(Exiting, s, t);
      case _ =>
    }
  }

  // ---------------------------------------------------------------------------------------
  // Awaiting an exit
  // ---------------------------------------------------------------------------------------

  /** The address is being awaited, or its exit has been seen. */
  predicate Awaiting(s: State, t: Tid) {
    t in s.threads && s.threads[t].proc.Address?
    && (PollsExit(s.threads[t].proc) || s.threads[t].proc.watch.Waiting? || s.threads[t].proc.watch.Exited?)
  }

  lemma StepKeepsAwaiting(s: State, step: Step, t: Tid)
    requires Inv(s) && Enabled(s, step) && Awaiting(s, t) && step != On(t, Abandon)
    ensures Awaiting(Apply(s, step), t)
  {
    hide Notify, Without, Listen, Remove, Drop, RunAddress;
    if step.On? && step.t == t && step.act.Run? && s.threads[t].todo == [] {
      assert Relies(s.core, s.threads[t]);
      ExitPollEndsProperly(s.core, t, s.threads[t]);
    }
  }

  lemma {:induction false} RunKeepsAwaiting(s: State, steps: seq<Step>, t: Tid)
    requires Inv(s) && Valid(s, steps) && Awaiting(s, t) && On(t, Abandon) !in steps
    ensures Inv(Exec(s, steps)) && Awaiting(Exec(s, steps), t)
    decreases |steps|
  {
    hide Inv, Awaiting, Apply, Enabled;
    if steps != [] {
      StepKeepsInvariant(s, steps[0]);
      StepKeepsAwaiting(s, steps[0], t);
      RunKeepsAwaiting(Apply(s, steps[0]), steps[1..], t);
    }
  }

  /**
  Awaiting an address ends: whatever happens meanwhile, an address that is awaited and not dropped has seen the
  exit once no inbox is left and the system has come to rest, even if the last inbox left in the middle of a poll.
  */
  lemma AwaitedExitIsSeen(s: State, steps: seq<Step>, t: Tid)
    requires Reachable(s) && Valid(s, steps) && Awaiting(s, t) && On(t, Abandon) !in steps
    requires AtRest(Exec(s, steps)) && Exec(s, steps).core.inboxCount == 0
    ensures t in Exec(s, steps).threads && Exec(s, steps).threads[t].proc.Address?
    ensures Exec(s, steps).threads[t].proc.watch.Exited?
  {
    ReachableIsInvariant(s);
    RunKeepsAwaiting(s, steps, t);
    var last := Exec(s, steps);
    RestingThread(last, t);
    if last.threads[t].proc.watch.Waiting? {
      CalmAtRest(Exiting, last, t);
    }
  }

  // ---------------------------------------------------------------------------------------
  // Halting by wake-ups alone
  // ---------------------------------------------------------------------------------------

  /** The inbox was told to halt, or is parked in a receive. */
  predicate ToldOrParked(s: State, r: Tid) {
    Told(s, r) || (r in s.threads && s.threads[r].proc.Inbox? && s.threads[r].proc.recv.Parked?)
  }

  /**
  Nobody has to check again on its own: if a run that neither issues credits nor adds inboxes has come to rest
  with every candidate told or parked in a receive, the notifications have told exactly as many as there were
  credits or candidates, whichever is less.
  */
  lemma WakeUpsHaltWhatTheyCan(s: State, steps: seq<Step>)
    requires Inv(s) && Small(s) && Valid(s, steps) && AllNeutral(s, steps) && AtRest(Exec(s, steps))
    requires forall r :: r in Candidates(s) ==> ToldOrParked(Exec(s, steps), r)
    ensures |Exec(s, steps).history.halted| - |s.history.halted| == Min(Max(s.core.haltCount, 0), |Candidates(s)|)
  {
    var last := Exec(s, steps);
    NeutralRunFacts(s, steps);
    ToldAreTheOldAndCandidates(s, last);
    if r :| r in Candidates(s) && !Told(last, r) {
      CalmAtRest(HaltCredit, last, r);
    }
  }

  /**
  One halt_some(n), with c credits left over, among k live inboxes not told before: once the system is at rest and
  nobody of them is busy elsewhere, exactly min(c + n, k) were told.
  */
  lemma PartialHaltIsExactAtRest(s: State, halter: Tid, n: u32, steps: seq<Step>)
    requires Reachable(s) && Small(s)
    requires halter in s.threads && s.threads[halter] == Thread([], Halter(n, Crediting))
    requires var s1 := Apply(s, On(halter, Run));
             && Valid(s1, steps) && AllNeutral(s1, steps) && AtRest(Exec(s1, steps))
             && forall r :: r in Candidates(s) ==> ToldOrParked(Exec(s1, steps), r)
    ensures |Exec(Apply(s, On(halter, Run)), steps).history.halted| - |s.history.halted|
            == Min(Min(Max(s.core.haltCount, 0) + n, I32_MAX), |Candidates(s)|)
  {
    ReachableIsInvariant(s);
    StepKeepsInvariant(s, On(halter, Run));
    DepositFacts(s, halter, n);
    WakeUpsHaltWhatTheyCan(Apply(s, On(halter, Run)), steps);
  }
}
