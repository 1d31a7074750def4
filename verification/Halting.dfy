/**
The halt counter as a purse of credits: every credit issued is either still in the counter or was
spent on telling exactly one inbox to halt.
*/
module Halting {
  import opened Wrappers
  import opened Config
  import opened Events
  import opened Core
  import opened Protocol
  import opened Counting
  import opened Wakeups

  /** No credit is lost, even when concurrent checks drive the counter below zero. */
  ghost predicate Conserved(s: State) {
    s.history.issued == |s.history.halted| + Max(s.core.haltCount, 0)
  }

  /** The record of halts holds each signalled inbox exactly once. */
  ghost predicate HaltedOnce(s: State) {
    && Unique(s.history.halted)
    && |s.history.halted| == Number(SignaledInboxes, s)
    && (forall t :: t in s.history.halted <==> t in s.threads && Counts(SignaledInboxes, s.threads[t]))
  }

  /** After a total halt only the inboxes told to halt have drawn on the counter. */
  ghost predicate Plenty(s: State) {
    s.history.total && Number(EveryInbox, s) < I32_MAX
    ==> s.core.haltCount >= I32_MAX - |s.history.halted|
  }

  // ---------------------------------------------------------------------------------------
  // One thread
  // ---------------------------------------------------------------------------------------

  datatype HaltChange = Unchanged | Spent | Overdrawn | Deposited(n: u32)

  function Change(c: Core, th: Thread, act: Act): HaltChange {
    if !act.Run? || th.todo != [] then Unchanged
    else if IsSubtracting(th.proc) then (if c.haltCount > 0 then Spent else Overdrawn)
    else if th.proc.Halter? && th.proc.halt.Crediting? then Deposited(th.proc.n)
    else Unchanged
  }

  /** Every step, seen by the halt counter. */
  lemma PerformChange(c: Core, t: Tid, th: Thread, act: Act)
    requires Can(th, act) && Honest(th.proc)
    ensures var e := Perform(c, t, th, act);
            && (th.proc.Inbox? <==> e.thread.proc.Inbox?)
            && match Change(c, th, act)
               case Unchanged =>
                 && e.core.haltCount == c.haltCount
                 && !e.note.ToldHalt? && !e.note.Credit?
                 && Counts(SignaledInboxes, th) == Counts(SignaledInboxes, e.thread)
               case Spent =>
                 && e.core.haltCount == c.haltCount - 1
                 && e.note.ToldHalt?
                 && !Counts(SignaledInboxes, th) && Counts(SignaledInboxes, e.thread)
               case Overdrawn =>
                 && e.core.haltCount == Decremented(c.haltCount)
                 && e.note.Nothing?
                 && !Counts(SignaledInboxes, th) && !Counts(SignaledInboxes, e.thread)
               case Deposited(n) =>
                 && e.core.haltCount == Credited(c.haltCount, n)
                 && e.note == Credit(n)
                 && !Counts(SignaledInboxes, th) && !Counts(SignaledInboxes, e.thread)
  {
  }

  // ---------------------------------------------------------------------------------------
  // All threads
  // ---------------------------------------------------------------------------------------

  lemma StepConserves(s: State, step: Step)
    requires Conserved(s) && AllHonest(s) && Counted(s) && Small(s) && Enabled(s, step)
    ensures Conserved(Apply(s, step))
  {
    if step.On? {
      var th := s.threads[step.t];
      PerformChange(s.core, step.t, th, step.act);
      if IsSubtracting(th.proc) {
        SubtractionNeverWraps(s, step.t);
      }
    }
  }

  lemma UniqueAppend(ks: seq<Tid>, k: Tid)
    requires Unique(ks) && k !in ks
    ensures Unique(ks + [k])
  {
  }

  lemma StepHaltsOnce(s: State, step: Step)
    requires HaltedOnce(s) && AllHonest(s) && Enabled(s, step)
    ensures HaltedOnce(Apply(s, step))
  {
    var s' := Apply(s, step);
    TallyUpdate(SignaledInboxes, s.threads, step.t, s'.threads[step.t]);
    if step.On? {
      PerformChange(s.core, step.t, s.threads[step.t], step.act);
      if Change(s.core, s.threads[step.t], step.act).Spent? {
        UniqueAppend(s.history.halted, step.t);
      }
    }
  }

  lemma SignaledAreInboxes(s: State)
    ensures Number(SignaledInboxes, s) <= Number(EveryInbox, s)
  {
    SubsetSize(Tallied(SignaledInboxes, s.threads), Tallied(EveryInbox, s.threads));
  }

  lemma StepKeepsPlenty(s: State, step: Step)
    requires Plenty(s) && HaltedOnce(s) && AllHonest(s) && Enabled(s, step)
    ensures Plenty(Apply(s, step))
  {
    var s' := Apply(s, step);
    TallyUpdate(EveryInbox, s.threads, step.t, s'.threads[step.t]);
    SignaledAreInboxes(s);
    if step.On? {
      PerformChange(s.core, step.t, s.threads[step.t], step.act);
    }
  }

  lemma InitHalting(s: State)
    requires Init(s)
    ensures Conserved(s) && HaltedOnce(s) && Plenty(s)
  {
    assert Tallied(SignaledInboxes, s.threads) == {};
  }
}
