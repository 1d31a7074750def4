/** What holds over whole runs: verdicts are final, halting some inboxes is exact, back pressure bounds the queue. */
module Runs {
  import opened Wrappers
  import opened Config
  import opened Events
  import opened Core
  import opened Protocol
  import opened Counting
  import opened Wakeups
  import opened Verdicts
  import opened Halting
  import opened Messages
  import opened Invariant
  import opened Guarantees

  // ---------------------------------------------------------------------------------------
  // Closing and exiting
  // ---------------------------------------------------------------------------------------

  /** How the history of one state extends into a later one. */
  ghost predicate Extends(s: State, s': State) {
    && s.history.accepted <= s'.history.accepted
    && s.history.taken <= s'.history.taken
    && Later(s.core, s'.core)
    && (s.core.closed ==> s'.history.accepted == s.history.accepted)
    && (Exhausted(s.core) ==> s'.history.taken == s.history.taken)
  }

  lemma StepExtends(s: State, step: Step)
    requires Inv(s) && Enabled(s, step)
    ensures Extends(s, Apply(s, step))
  {
    StepStaysReliable(s, step);
    if step.On? {
      PerformMoves(s.core, step.t, s.threads[step.t], step.act);
    }
  }

  lemma {:induction false} ExecExtends(s: State, steps: seq<Step>)
    requires Inv(s) && Valid(s, steps)
    ensures Extends(s, Exec(s, steps)) && Inv(Exec(s, steps))
    decreases |steps|
  {
    if steps != [] {
      StepExtends(s, steps[0]);
      StepKeepsInvariant(s, steps[0]);
      ExecExtends(Apply(s, steps[0]), steps[1..]);
    }
  }

  lemma ReachesExtends(s: State, s': State)
    requires Inv(s) && Reaches(s, s')
    ensures Extends(s, s') && Inv(s')
  {
    var steps :| Valid(s, steps) && Exec(s, steps) == s';
    ExecExtends(s, steps);
  }

  /** After the queue is closed nothing is accepted, and at most what was queued then is ever delivered. */
  lemma CloseIsFinal(s: State, s': State)
    requires Reachable(s) && Reaches(s, s') && s.core.closed
    ensures s'.core.closed && s'.history.accepted == s.history.accepted
    ensures s.history.taken <= s'.history.taken
    ensures Bodies(s'.history.taken[|s.history.taken|..]) <= s.core.queue
  {
    ReachableIsInvariant(s);
    ReachesExtends(s, s');
    var before, later := s.history.taken, s'.history.taken[|s.history.taken|..];
    assert s'.history.taken == before + later;
    LaterCameFromQueue(before, later, s.core.queue, s'.core.queue);
  }

  lemma LaterCameFromQueue(before: seq<Taken>, later: seq<Taken>, queue: seq<Message>, left: seq<Message>)
    requires Bodies(before + later) + left == Bodies(before) + queue
    ensures queue == Bodies(later) + left
  {
    assert Bodies(before + later) == Bodies(before) + Bodies(later);
    assert (Bodies(before) + (Bodies(later) + left))[|before|..] == Bodies(later) + left;
    assert (Bodies(before) + queue)[|before|..] == queue;
  }

  /** Closed-and-empty is a final verdict: once an inbox has it, no message is accepted or received again. */
  lemma ClosedAndEmptyIsFinal(s: State, s': State, t: Tid)
    requires Reachable(s) && Reaches(s, s')
    requires t in s.threads && s.threads[t].proc.Inbox?
    requires || s.threads[t].proc.recv == Idle(Refused(ClosedAndEmpty))
             || s.threads[t].proc.recv == Settling(Refused(ClosedAndEmpty))
    ensures s'.core.closed && s'.core.queue == []
    ensures s'.history.accepted == s.history.accepted && s'.history.taken == s.history.taken
  {
    ReachableIsInvariant(s);
    assert Relies(s.core, s.threads[t]);
    ReachesExtends(s, s');
  }

  /**
  Exit is final and clean: after the last remove_inbox has returned the channel is closed and
  empty for good, and no inbox can be added to it, whatever was pushed while it was leaving.
  */
  lemma ExitIsFinal(s: State, s': State, t: Tid, newcomer: Tid)
    requires Reachable(s) && Reaches(s, s')
    requires t in s.threads && s.threads[t].proc.Inbox? && s.threads[t].proc.recv == Gone(true)
    ensures s'.core.inboxCount == 0 && s'.core.closed && s'.core.queue == []
    ensures s'.history.taken == s.history.taken
    ensures !Enabled(s', Spawn(newcomer))
  {
    ReachableIsInvariant(s);
    assert Relies(s.core, s.threads[t]);
    ReachesExtends(s, s');
  }

  /** Already from the last decrement on, and before the queue is closed, no inbox can be added. */
  lemma NoInboxAfterExit(s: State, s': State, newcomer: Tid)
    requires Reachable(s) && Reaches(s, s') && s.core.inboxCount == 0
    ensures s'.core.inboxCount == 0 && Number(LiveInboxes, s') == 0 && !Enabled(s', Spawn(newcomer))
  {
    ReachableIsInvariant(s);
    ReachesExtends(s, s');
  }

  // ---------------------------------------------------------------------------------------
  // Where messages go
  // ---------------------------------------------------------------------------------------

  /** The places that a message never leaves. */
  predicate Final(p: Place) {
    !p.StillSending? && !p.InQueue?
  }

  lemma StepKeepsUnsent(s: State, step: Step, m: Message, p: Place)
    requires Enabled(s, step) && At(s, m, p) && (p.HandedBack? || p.DroppedUnsent?)
    ensures At(Apply(s, step), m, p)
  {
    hide Notify, Without, Listen, Remove, Drop;
  }

  lemma {:induction false} RunKeepsUnsent(s: State, steps: seq<Step>, m: Message, p: Place)
    requires Valid(s, steps) && At(s, m, p) && (p.HandedBack? || p.DroppedUnsent?)
    ensures At(Exec(s, steps), m, p)
    decreases |steps|
  {
    hide At, Apply, Enabled;
    if steps != [] {
      StepKeepsUnsent(s, steps[0], m, p);
      RunKeepsUnsent(Apply(s, steps[0]), steps[1..], m, p);
    }
  }

  /**
  Messages only move on: from the sender into the queue or back to the caller, and from the queue to a receiver or
  to the inbox that discards it. There it stays, and once accepted it never returns to the sender.
  */
  lemma MessagesMoveOn(s: State, s': State, m: Message, p: Place, p': Place)
    requires Reachable(s) && Reaches(s, s') && At(s, m, p) && At(s', m, p')
    ensures Final(p) ==> p' == p
    ensures p.InQueue? ==> p'.InQueue? || p'.ReceivedBy? || p'.DiscardedBy?
  {
    ReachableIsInvariant(s);
    ReachesExtends(s, s');
    SenderKeepsUnaccepted(s, m, p);
    SenderKeepsUnaccepted(s', m, p');
    if p.HandedBack? || p.DroppedUnsent? {
      var steps :| Valid(s, steps) && Exec(s, steps) == s';
      RunKeepsUnsent(s, steps, m, p);
      PlaceIsUnique(s', m, p, p');
    } else if Final(p) {
      assert At(s', m, p);
      PlaceIsUnique(s', m, p, p');
    }
  }

  // ---------------------------------------------------------------------------------------
  // Exact partial halt
  // ---------------------------------------------------------------------------------------

  /** The step neither issues halt credits nor adds an inbox. */
  predicate Neutral(s: State, step: Step)
    requires Enabled(s, step)
  {
    match step
    case On(t, act) => !Change(s.core, s.threads[t], act).Deposited?
    case Spawn(_) => false
    case _ => true
  }

  predicate AllNeutral(s: State, steps: seq<Step>)
    requires Valid(s, steps)
    decreases |steps|
  {
    steps == [] || (Neutral(s, steps[0]) && AllNeutral(Apply(s, steps[0]), steps[1..]))
  }

  /** The step is the load with which inbox r starts a halt check. */
  predicate StartsCheck(s: State, step: Step, r: Tid)
    requires Enabled(s, step)
  {
    && step == On(r, Run)
    && s.threads[r].todo == []
    && s.threads[r].proc.Inbox? && s.threads[r].proc.recv.Trying? && s.threads[r].proc.recv.access.Load?
  }

  predicate ChecksAgain(s: State, steps: seq<Step>, r: Tid)
    requires Valid(s, steps)
    decreases |steps|
  {
    steps != [] && (StartsCheck(s, steps[0], r) || ChecksAgain(Apply(s, steps[0]), steps[1..], r))
  }

  predicate Told(s: State, r: Tid) {
    r in s.threads && Counts(SignaledInboxes, s.threads[r])
  }

  predicate InCheck(s: State, r: Tid) {
    r in s.threads && IsSubtracting(s.threads[r].proc)
  }

  /** After its load an inbox either gets told, or the counter is used up, or it still has to subtract. */
  predicate CheckedOut(s: State, r: Tid) {
    Told(s, r) || s.core.haltCount <= 0 || InCheck(s, r)
  }

  lemma NeutralKeepsCheckedOut(s: State, step: Step, r: Tid)
    requires Inv(s) && Small(s) && Enabled(s, step) && Neutral(s, step)
    requires CheckedOut(s, r) || StartsCheck(s, step, r)
    ensures CheckedOut(Apply(s, step), r)
  {
    hide Notify, Without, Listen, Remove, Drop;
    if step.On? {
      PerformChange(s.core, step.t, s.threads[step.t], step.act);
      if IsSubtracting(s.threads[step.t].proc) {
        SubtractionNeverWraps(s, step.t);
      }
    }
  }

  lemma NeutralStepTells(s: State, step: Step)
    requires AllHonest(s) && Enabled(s, step) && Neutral(s, step)
    ensures forall r :: Told(s, r) ==> Told(Apply(s, step), r)
    ensures forall r :: Told(Apply(s, step), r) && !Told(s, r) ==> r in s.threads && Live(s.threads[r])
    ensures Apply(s, step).history.issued == s.history.issued
    ensures Apply(s, step).history.mostLive == s.history.mostLive
  {
    if step.On? {
      PerformChange(s.core, step.t, s.threads[step.t], step.act);
    }
  }

  lemma NeutralStepLives(s: State, step: Step)
    requires Enabled(s, step) && Neutral(s, step)
    ensures forall r :: r in Apply(s, step).threads && Live(Apply(s, step).threads[r])
                        ==> r in s.threads && Live(s.threads[r])
  {
    if step.On? {
      PerformCountsInboxes(s.core, step.t, s.threads[step.t], step.act);
    }
  }

  lemma NeutralStepFacts(s: State, step: Step)
    requires Inv(s) && Small(s) && Enabled(s, step) && Neutral(s, step)
    ensures Inv(Apply(s, step)) && Small(Apply(s, step))
  {
    StepKeepsInvariant(s, step);
    NeutralStepTells(s, step);
  }

  lemma {:induction false} NeutralRunFacts(s: State, steps: seq<Step>)
    requires Inv(s) && Small(s) && Valid(s, steps) && AllNeutral(s, steps)
    ensures var s' := Exec(s, steps);
            && Inv(s') && Small(s')
            && s'.history.issued == s.history.issued
            && (forall r :: Told(s, r) ==> Told(s', r))
            && (forall r :: Told(s', r) && !Told(s, r) ==> r in s.threads && Live(s.threads[r]))
    decreases |steps|
  {
    if steps != [] {
      NeutralStepFacts(s, steps[0]);
      NeutralStepTells(s, steps[0]);
      NeutralStepLives(s, steps[0]);
      NeutralRunFacts(Apply(s, steps[0]), steps[1..]);
    }
  }

  lemma {:induction false} CheckRunsOut(s: State, steps: seq<Step>, r: Tid)
    requires Inv(s) && Small(s) && Valid(s, steps) && AllNeutral(s, steps)
    requires CheckedOut(s, r) || ChecksAgain(s, steps, r)
    ensures CheckedOut(Exec(s, steps), r)
    decreases |steps|
  {
    if steps != [] {
      NeutralStepFacts(s, steps[0]);
      if CheckedOut(s, r) || StartsCheck(s, steps[0], r) {
        NeutralKeepsCheckedOut(s, steps[0], r);
      }
      CheckRunsOut(Apply(s, steps[0]), steps[1..], r);
    }
  }

  /** The live inboxes that were not told to halt yet. */
  ghost function Candidates(s: State): set<Tid> {
    set r | r in s.threads && Live(s.threads[r]) && !Told(s, r)
  }

  lemma ToldAreTheOldAndCandidates(s: State, s': State)
    requires forall r :: Told(s, r) ==> Told(s', r)
    requires forall r :: Told(s', r) && !Told(s, r) ==> r in s.threads && Live(s.threads[r])
    ensures Number(SignaledInboxes, s') <= Number(SignaledInboxes, s) + |Candidates(s)|
    ensures (forall r :: r in Candidates(s) ==> Told(s', r))
            ==> Number(SignaledInboxes, s') == Number(SignaledInboxes, s) + |Candidates(s)|
  {
    var old_, new_ := Tallied(SignaledInboxes, s.threads), Tallied(SignaledInboxes, s'.threads);
    assert forall r :: r in old_ <==> Told(s, r);
    assert forall r :: r in new_ <==> Told(s', r);
    assert old_ !! Candidates(s);
    assert |old_ + Candidates(s)| == |old_| + |Candidates(s)|;
    SubsetSize(new_, old_ + Candidates(s));
    if forall r :: r in Candidates(s) ==> Told(s', r) {
      assert new_ == old_ + Candidates(s);
    }
  }

  /**
  The general rule: in any interleaving that neither issues credits nor adds inboxes, once every
  inbox has been told or has completed a check that it started in the run, the number of inboxes told is
  the smaller of the credits and the candidates. Inboxes may also leave meanwhile, after such a check.
  */
  lemma HaltsWhatItCan(s: State, steps: seq<Step>)
    requires Inv(s) && Small(s) && Valid(s, steps) && AllNeutral(s, steps)
    requires forall r :: r in Candidates(s) ==>
               Told(Exec(s, steps), r) || (ChecksAgain(s, steps, r) && !InCheck(Exec(s, steps), r))
    ensures |Exec(s, steps).history.halted| - |s.history.halted| == Min(Max(s.core.haltCount, 0), |Candidates(s)|)
  {
    NeutralRunFacts(s, steps);
    var last := Exec(s, steps);
    ToldAreTheOldAndCandidates(s, last);
    if r :| r in Candidates(s) && !Told(last, r) {
      CheckRunsOut(s, steps, r);
      assert last.core.haltCount <= 0;
    }
  }

  /** The deposit itself tells nobody and leaves the candidates as they are. */
  lemma DepositFacts(s: State, halter: Tid, n: u32)
    requires halter in s.threads && s.threads[halter] == Thread([], Halter(n, Crediting))
    ensures var s1 := Apply(s, On(halter, Run));
            && s1.core.haltCount == Min(Max(s.core.haltCount, 0) + n, I32_MAX)
            && s1.history.halted == s.history.halted
            && s1.history.mostLive == s.history.mostLive
            && Candidates(s1) == Candidates(s)
  {
  }

  /**
  Halting n of k inboxes is exact in every interleaving: after one halt_some(n), with c credits left over from
  before, exactly min(c + n, k) inboxes are told. A counter that was used up counts as c = 0, however far it was
  driven below zero.
  */
  lemma ExactPartialHalt(s: State, halter: Tid, n: u32, steps: seq<Step>)
    requires Reachable(s) && Small(s)
    requires halter in s.threads && s.threads[halter] == Thread([], Halter(n, Crediting))
    requires var s1 := Apply(s, On(halter, Run));
             && Valid(s1, steps) && AllNeutral(s1, steps)
             && forall r :: r in Candidates(s) ==>
                  Told(Exec(s1, steps), r) || (ChecksAgain(s1, steps, r) && !InCheck(Exec(s1, steps), r))
    ensures |Exec(Apply(s, On(halter, Run)), steps).history.halted| - |s.history.halted|
            == Min(Min(Max(s.core.haltCount, 0) + n, I32_MAX), |Candidates(s)|)
  {
    ReachableIsInvariant(s);
    StepKeepsInvariant(s, On(halter, Run));
    DepositFacts(s, halter, n);
    HaltsWhatItCan(Apply(s, On(halter, Run)), steps);
  }

  // ---------------------------------------------------------------------------------------
  // Total halt
  // ---------------------------------------------------------------------------------------

  /** Inbox r was not told to halt, but its current attempt is past the halt check. */
  predicate PastCheck(s: State, r: Tid) {
    r in s.threads && !Told(s, r) && s.threads[r].proc.Inbox?
    && s.threads[r].proc.recv.Trying? && s.threads[r].proc.recv.access.PopQueue?
  }

  ghost predicate Received(s: State, r: Tid, m: Message) {
    Taken(r, m, true) in s.history.taken
  }

  lemma StepOnlyAddsInboxes(s: State, step: Step)
    requires AllHonest(s) && Enabled(s, step)
    ensures Number(EveryInbox, s) <= Number(EveryInbox, Apply(s, step))
    ensures s.history.total ==> Apply(s, step).history.total
  {
    TallyUpdate(EveryInbox, s.threads, step.t, Apply(s, step).threads[step.t]);
    if step.On? {
      PerformChange(s.core, step.t, s.threads[step.t], step.act);
    }
  }

  /** With credits left an inbox reaches the queue only after it was told, and takes messages only there. */
  lemma CheckComesFirst(c: Core, t: Tid, th: Thread, act: Act, m: Message)
    requires Can(th, act) && c.haltCount > 0 && th.proc.Inbox? && !th.proc.signaled
    requires !(th.proc.recv.Trying? && th.proc.recv.access.PopQueue?)
    ensures var e := Perform(c, t, th, act);
            && e.note != Took(m, true)
            && (e.thread.proc.Inbox? && !e.thread.proc.signaled && e.thread.proc.recv.Trying?
                ==> !e.thread.proc.recv.access.PopQueue?)
  {
    hide Notify, Without, Listen, Remove, Drop;
  }

  lemma TotalHaltStep(s: State, step: Step, r: Tid, m: Message)
    requires Inv(s) && Enabled(s, step) && s.core.haltCount > 0 && !PastCheck(s, r)
    ensures !Told(Apply(s, step), r) ==> !PastCheck(Apply(s, step), r)
    ensures !Told(Apply(s, step), r) && Received(Apply(s, step), r, m) ==> Received(s, r, m)
    ensures Told(s, r) ==> Told(Apply(s, step), r)
  {
    hide Perform, Can;
    if step.On? {
      var th := s.threads[step.t];
      PerformChange(s.core, step.t, th, step.act);
      if step.t == r && th.proc.Inbox? && !th.proc.signaled {
        CheckComesFirst(s.core, r, th, step.act, m);
      } else if step.t == r && Perform(s.core, r, th, step.act).note == Took(m, true) {
        PerformTakes(s.core, r, th, step.act, m);
      }
    }
  }

  /** Only inboxes take messages. */
  lemma PerformTakes(c: Core, t: Tid, th: Thread, act: Act, m: Message)
    requires Can(th, act) && Perform(c, t, th, act).note == Took(m, true)
    ensures th.proc.Inbox?
  {
  }

  /** With credits left, a check that inbox r starts, or has started, ends with r told. */
  lemma CheckTells(s: State, step: Step, r: Tid)
    requires AllHonest(s) && Enabled(s, step) && s.core.haltCount > 0
    requires Told(s, r) || InCheck(s, r) || StartsCheck(s, step, r)
    ensures Told(Apply(s, step), r) || InCheck(Apply(s, step), r)
  {
    hide Notify, Without, Listen, Remove, Drop;
    if step.On? {
      PerformChange(s.core, step.t, s.threads[step.t], step.act);
    }
  }

  lemma {:induction false} CheckEndsTold(s: State, steps: seq<Step>, r: Tid)
    requires Inv(s) && s.history.total && Valid(s, steps)
    requires Number(EveryInbox, Exec(s, steps)) < I32_MAX
    requires Told(s, r) || InCheck(s, r) || ChecksAgain(s, steps, r)
    ensures Told(Exec(s, steps), r) || InCheck(Exec(s, steps), r)
    decreases |steps|
  {
    hide Inv, Told, InCheck, StartsCheck;
    if steps != [] {
      InvFacts(s, steps[0]);
      ExecOnlyAdds(s, steps, r);
      TotalHaltHolds(s);
      if Told(s, r) || InCheck(s, r) || StartsCheck(s, steps[0], r) {
        CheckTells(s, steps[0], r);
      }
      CheckEndsTold(Apply(s, steps[0]), steps[1..], r);
    }
  }

  /**
  Halting everybody reaches everybody: after halt() has taken effect, with fewer than i32::MAX inboxes ever
  created, every inbox that completes a halt check which it starts later has been told to halt, whether it was
  spawned before or after, and whatever credits, spawns and checks come in between.
  */
  lemma TotalHaltTellsAtNextCheck(s: State, steps: seq<Step>, r: Tid)
    requires Reachable(s) && s.history.total && Valid(s, steps)
    requires Number(EveryInbox, Exec(s, steps)) < I32_MAX
    requires ChecksAgain(s, steps, r) && !InCheck(Exec(s, steps), r)
    ensures Told(Exec(s, steps), r)
  {
    ReachableIsInvariant(s);
    CheckEndsTold(s, steps, r);
  }

  /**
  Halting everybody: after halt() has taken effect, with fewer than i32::MAX inboxes ever created, an inbox
  that is not told yet, spawned early or late, receives nothing more until it is told; only an attempt that
  had already passed its halt check may still finish.
  */
  lemma TotalHaltComesFirst(s: State, s': State, r: Tid, m: Message)
    requires Reachable(s) && Reaches(s, s') && s.history.total && Number(EveryInbox, s') < I32_MAX
    requires !PastCheck(s, r) && !Told(s', r)
    ensures Received(s', r, m) <==> Received(s, r, m)
  {
    ReachableIsInvariant(s);
    ReachesExtends(s, s');
    var steps :| Valid(s, steps) && Exec(s, steps) == s';
    if Received(s', r, m) {
      ToldBeforeReceiving(s, steps, r, m);
    }
  }

  lemma {:induction false} ToldBeforeReceiving(s: State, steps: seq<Step>, r: Tid, m: Message)
    requires Inv(s) && s.history.total && !PastCheck(s, r) && Valid(s, steps)
    requires Number(EveryInbox, Exec(s, steps)) < I32_MAX
    requires !Told(Exec(s, steps), r) && Received(Exec(s, steps), r, m)
    ensures Received(s, r, m)
    decreases |steps|
  {
    hide Received, PastCheck, Inv;
    if steps != [] {
      InvFacts(s, steps[0]);
      ExecOnlyAdds(s, steps, r);
      ExecOnlyAdds(Apply(s, steps[0]), steps[1..], r);
      TotalHaltHolds(s);
      TotalHaltStep(s, steps[0], r, m);
      ToldBeforeReceiving(Apply(s, steps[0]), steps[1..], r, m);
    }
  }

  lemma InvFacts(s: State, step: Step)
    requires Inv(s) && Enabled(s, step)
    ensures AllHonest(s) && Inv(Apply(s, step))
    ensures s.history.total ==> Apply(s, step).history.total
  {
    StepKeepsInvariant(s, step);
    StepOnlyAddsInboxes(s, step);
  }

  lemma TotalHaltHolds(s: State)
    requires Inv(s) && s.history.total && Number(EveryInbox, s) < I32_MAX
    ensures s.core.haltCount > 0
  {
    SignaledAreInboxes(s);
  }

  lemma {:induction false} ExecOnlyAdds(s: State, steps: seq<Step>, r: Tid)
    requires Inv(s) && Valid(s, steps)
    ensures Number(EveryInbox, s) <= Number(EveryInbox, Exec(s, steps))
    ensures Told(s, r) ==> Told(Exec(s, steps), r)
    decreases |steps|
  {
    hide Inv;
    if steps != [] {
      InvFacts(s, steps[0]);
      StepOnlyAddsInboxes(s, steps[0]);
      if steps[0].On? {
        PerformChange(s.core, steps[0].t, s.threads[steps[0].t], steps[0].act);
      }
      ExecOnlyAdds(Apply(s, steps[0]), steps[1..], r);
    }
  }

  // ---------------------------------------------------------------------------------------
  // The soft capacity of try_send
  // ---------------------------------------------------------------------------------------

  /** Messages enter only through try_send. */
  predicate OnlyTrySend(p: Proc) {
    p.Send? ==> p.send.Checking? || p.send == Pushing(Checked) || p.send.Finished? || p.send.Released?
  }

  /** Every send that begins is a try_send, and at most k of them are ever between check and push. */
  ghost predicate AtMostTrySends(s: State, steps: seq<Step>, k: nat)
    requires Valid(s, steps)
    decreases |steps|
  {
    && Number(CheckedSends, s) <= k
    && (steps != [] ==>
          && (steps[0].Begin? ==> OnlyTrySend(steps[0].proc))
          && AtMostTrySends(Apply(s, steps[0]), steps[1..], k))
  }

  ghost predicate SoftlyBounded(s: State, k: nat) {
    && s.core.capacity.Unbounded?
    && Sound(s.core.capacity.backPressure)
    && (forall t :: t in s.threads ==> OnlyTrySend(s.threads[t].proc))
    && |s.core.queue| + Number(CheckedSends, s) <= s.core.capacity.backPressure.startsAt + k - 1
  }

  lemma OthersNeverPush(c: Core, t: Tid, p: Proc)
    requires !p.Send?
    ensures var e := RunNext(c, t, p);
            !e.thread.proc.Send? && e.core.capacity == c.capacity && |e.core.queue| <= |c.queue|
  {
    hide Notify, Without, Listen, Remove, Drop;
  }

  lemma TrySendStep(c: Core, t: Tid, th: Thread, act: Act)
    requires Can(th, act) && OnlyTrySend(th.proc)
    ensures var e := Perform(c, t, th, act);
            && OnlyTrySend(e.thread.proc)
            && e.core.capacity == c.capacity
            && (|e.core.queue| + One(Counts(CheckedSends, e.thread)) <= |c.queue| + One(Counts(CheckedSends, th))
                || (!MustWait(c) && e.core.queue == c.queue))
  {
    hide Notify, Without, Listen, Remove, Drop, GetTimeout, RunInbox, RunAddress, RunHalter;
    if act.Run? && !th.proc.Send? {
      OthersNeverPush(c, t, th.proc);
    }
  }

  lemma NoNeedToWait(c: Core)
    requires c.capacity.Unbounded? && Sound(c.capacity.backPressure) && !MustWait(c)
    ensures |c.queue| < c.capacity.backPressure.startsAt
  {
    TimeoutExactlyFromStart(c.capacity.backPressure, MsgCount(c));
  }

  lemma StepStaysSoftlyBounded(s: State, step: Step, k: nat)
    requires SoftlyBounded(s, k) && Enabled(s, step)
    requires step.Begin? ==> OnlyTrySend(step.proc)
    requires Number(CheckedSends, Apply(s, step)) <= k
    ensures SoftlyBounded(Apply(s, step), k)
  {
    var s' := Apply(s, step);
    TallyUpdate(CheckedSends, s.threads, step.t, s'.threads[step.t]);
    if step.On? {
      TrySendStep(s.core, step.t, s.threads[step.t], step.act);
      if !MustWait(s.core) {
        NoNeedToWait(s.core);
      }
    }
  }

  lemma {:induction false} RunStaysSoftlyBounded(s: State, steps: seq<Step>, k: nat)
    requires SoftlyBounded(s, k) && Valid(s, steps) && AtMostTrySends(s, steps, k)
    ensures SoftlyBounded(Exec(s, steps), k)
    decreases |steps|
  {
    if steps != [] {
      StepStaysSoftlyBounded(s, steps[0], k);
      RunStaysSoftlyBounded(Apply(s, steps[0]), steps[1..], k);
    }
  }

  /** If messages enter an unbounded channel only by try_send, at most k >= 1 at a time, the queue stays short. */
  lemma TrySendBoundsTheQueue(s: State, steps: seq<Step>, k: nat)
    requires Init(s) && s.core.capacity.Unbounded? && k >= 1
    requires Valid(s, steps) && AtMostTrySends(s, steps, k)
    ensures var last := Exec(s, steps);
            |last.core.queue| + Number(CheckedSends, last) <= s.core.capacity.backPressure.startsAt + k - 1
  {
    assert Tallied(CheckedSends, s.threads) == {};
    RunStaysSoftlyBounded(s, steps, k);
    CapacityIsFixed(s, steps);
  }

  lemma StepKeepsCapacity(s: State, step: Step)
    requires Enabled(s, step)
    ensures Apply(s, step).core.capacity == s.core.capacity
  {
    hide Notify, Without, Listen, Remove, Drop;
    if step.On? && step.act.Run? && s.threads[step.t].todo == [] && !s.threads[step.t].proc.Send? {
      OthersNeverPush(s.core, step.t, s.threads[step.t].proc);
    }
  }

  lemma {:induction false} CapacityIsFixed(s: State, steps: seq<Step>)
    requires Valid(s, steps)
    ensures Exec(s, steps).core.capacity == s.core.capacity
    decreases |steps|
  {
    hide Apply;
    if steps != [] {
      StepKeepsCapacity(s, steps[0]);
      CapacityIsFixed(Apply(s, steps[0]), steps[1..]);
    }
  }
}
