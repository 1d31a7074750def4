/** The inductive invariant of the whole system, and that every run keeps it. */
module Invariant {
  import opened Core
  import opened Protocol
  import opened Registration
  import opened Counting
  import opened Wakeups
  import opened Verdicts
  import opened Halting
  import opened Messages
  import opened Answers

  ghost predicate Inv(s: State) {
    && Registered(s)
    && Counted(s)
    && AllHonest(s)
    && Reliable(s)
    && LastCleansUp(s)
    && HaltedOnce(s)
    && Plenty(s)
    && AllKept(s)
    && (Small(s) ==> Conserved(s))
    && Fifo(s)
    && Owned(s)
    && NoDuplicates(s.history.accepted)
    && Receipts(s)
    && AllAnswered(s)
    && WithinCapacity(s.core)
  }

  lemma InitIsInvariant(s: State)
    requires Init(s)
    ensures Inv(s)
  {
    InitIsCounted(s);
    InitKeepsPromises(s);
    InitHalting(s);
    InitIsAnswered(s);
  }

  lemma StepStaysWithinCapacity(s: State, step: Step)
    requires WithinCapacity(s.core) && AllHonest(s) && Enabled(s, step)
    ensures WithinCapacity(Apply(s, step).core)
  {
    hide Perform;
    if step.On? {
      PerformMoves(s.core, step.t, s.threads[step.t], step.act);
      PerformStaysHonest(s.core, step.t, s.threads[step.t], step.act);
    }
  }

  lemma StepOnlyRaisesMostLive(s: State, step: Step)
    requires Enabled(s, step)
    ensures s.history.mostLive <= Apply(s, step).history.mostLive
  {
  }

  lemma StepKeepsInvariant(s: State, step: Step)
    requires Inv(s) && Enabled(s, step)
    ensures Inv(Apply(s, step))
  {
    StepOnlyRaisesMostLive(s, step);
    StepStaysRegistered(s, step);
    StepStaysCounted(s, step);
    StepStaysHonest(s, step);
    StepStaysReliable(s, step);
    StepCleansUp(s, step);
    StepHaltsOnce(s, step);
    StepKeepsPlenty(s, step);
    StepKeepsPromises(s, step);
    if Small(s) {
      StepConserves(s, step);
    }
    StepKeepsFifo(s, step);
    StepKeepsOwned(s, step);
    StepKeepsDistinct(s, step);
    StepKeepsReceipts(s, step);
    StepStaysAnswered(s, step);
    StepStaysWithinCapacity(s, step);
  }

  lemma {:induction false} ExecKeepsInvariant(s: State, steps: seq<Step>)
    requires Inv(s) && Valid(s, steps)
    ensures Inv(Exec(s, steps))
    decreases |steps|
  {
    if steps != [] {
      StepKeepsInvariant(s, steps[0]);
      ExecKeepsInvariant(Apply(s, steps[0]), steps[1..]);
    }
  }

  lemma ReachableIsInvariant(s: State)
    requires Reachable(s)
    ensures Inv(s)
  {
    var s0 :| Init(s0) && Reaches(s0, s);
    var steps :| Valid(s0, steps) && Exec(s0, steps) == s;
    InitIsInvariant(s0);
    ExecKeepsInvariant(s0, steps);
  }
}
