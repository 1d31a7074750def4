/**
From safety to progress. Without new calls, an executor that runs threads, polls futures whose listener was
notified, and drops completed send futures comes to rest: a measure on states strictly decreases. At rest
nobody is left waiting for something that is there.
*/
module Progress {
  import opened Events
  import opened Core
  import opened Protocol
  import opened Registration
  import opened Counting
  import opened Wakeups
  import opened Answers
  import opened Invariant

  // ---------------------------------------------------------------------------------------
  // What an executor does on its own
  // ---------------------------------------------------------------------------------------

  predicate Woken(c: Core, t: Tid, p: Proc) {
    match p
    case Inbox(_, _) => t in c.recvEvent.woken
    case Send(_, _) => t in c.sendEvent.woken
    case Address(_, _) => t in c.exitEvent.woken
    case _ => false
  }

  predicate Asleep(p: Proc) {
    match p
    case Inbox(_, pc) => pc.Parked?
    case Send(_, pc) => pc.SendParked?
    case Address(_, pc) => pc.Waiting?
    case _ => false
  }

  predicate Driven(s: State, step: Step) {
    && Enabled(s, step)
    && step.On?
    && match step.act
       case Run => true
       case Repoll => Asleep(s.threads[step.t].proc) && Woken(s.core, step.t, s.threads[step.t].proc)
       case Abandon => s.threads[step.t].proc.Send? && s.threads[step.t].proc.send.Finished?
       case _ => false
  }

  // ---------------------------------------------------------------------------------------
  // The measure
  // ---------------------------------------------------------------------------------------

  /** What a thread still has to achieve; each achievement may lead to a few notifications. */
  function Work(p: Proc): nat {
    match p
    case Inbox(_, pc) =>
      if pc.Trying? || pc.Registering? || pc.Looking? || pc.Parked? || pc.Leaving? || pc.Closing? then 1 else 0
    case Send(_, pc) => if pc.Finished? || pc.Released? then 0 else 2
    case Closer(done) => if done then 0 else 1
    case Halter(_, pc) => if pc.CloseFirst? then 2 else if pc.Crediting? then 1 else 0
    case Address(_, _) => 0
  }

  const BOOST := 16

  function TryEnergy(a: Attempt, woken: bool): nat {
    if a.First? then (if woken then 13 else 6)
    else if a.Second? then (if woken then 10 else 2)
    else 6
  }

  function AccessEnergy(access: Access): nat {
    if access.Load? then 2 else if access.Subtract? then 1 else 0
  }

  /** How far a thread can go before it comes to rest, if nobody notifies it. */
  function Energy(woken: bool, p: Proc): nat {
    match p
    case Inbox(_, pc) =>
      (match pc
       case Parked => if woken then BOOST else 0
       case Looking => if woken then 9 else 1
       case Trying(a, access) => TryEnergy(a, woken) + AccessEnergy(access)
       case Registering => 5
       case Settling(_) => if woken then BOOST + 1 else 1
       case Leaving => 1
       case Draining => 1
       case _ => 0)
    case Send(_, pc) =>
      (match pc
       case SendParked => if woken then BOOST else 0
       case SendLooking => if woken then 9 else 1
       case Pushing(a) => if a.Once? || a.Checked? then 0 else TryEnergy(a, woken)
       case SendRegistering => 5
       case Checking => 1
       case Finished(_, _) => if woken then BOOST + 1 else 1
       case _ => 0)
    case Address(_, pc) =>
      (match pc
       case Waiting => if woken then BOOST else 0
       case Watching => if woken then 9 else 1
       case SecondCheck => TryEnergy(Second, woken)
       case Listening => 5
       case FirstCheck => TryEnergy(First, woken)
       case Clearing => if woken then BOOST + 1 else 1
       case _ => 0)
    case _ => 0
  }

  function EnergyOf(c: Core, t: Tid, p: Proc): nat {
    Energy(Woken(c, t, p), p)
  }

  /** One owed notification outweighs everything that it can set in motion among n threads. */
  function Price(n: nat): nat {
    n * BOOST + 1
  }

  function Debt(owed: nat, price: nat): nat {
    if owed == 0 then 0 else price + Debt(owed - 1, price)
  }

  function Weight(c: Core, t: Tid, th: Thread, n: nat): nat {
    Debt(|th.todo|, Price(n)) + EnergyOf(c, t, th.proc)
  }

  ghost function Weights(s: State): map<Tid, nat> {
    map t | t in s.threads :: Weight(s.core, t, s.threads[t], |s.threads|)
  }

  ghost function Works(s: State): map<Tid, nat> {
    map t | t in s.threads :: Work(s.threads[t].proc)
  }

  ghost function Sum(m: map<Tid, nat>): nat {
    if m == map[] then 0
    else
      var t :| t in m;
      m[t] + Sum(m - {t})
  }

  ghost function Major(s: State): nat {
    Sum(Works(s)) + |s.core.queue|
  }

  ghost function Minor(s: State): nat {
    Sum(Weights(s))
  }

  // ---------------------------------------------------------------------------------------
  // Sums
  // ---------------------------------------------------------------------------------------

  lemma {:induction false} SumTakesOut(m: map<Tid, nat>, t: Tid)
    requires t in m
    ensures Sum(m) == m[t] + Sum(m - {t})
  {
    var u :| u in m && Sum(m) == m[u] + Sum(m - {u});
    if u != t {
      SumTakesOut(m - {u}, t);
      SumTakesOut(m - {t}, u);
      assert (m - {u}) - {t} == (m - {t}) - {u};
    }
  }

  lemma SizeWithoutKey(m: map<Tid, nat>, t: Tid, k: nat)
    requires t in m
    ensures |m - {t}| == |m| - 1
    ensures |m - {t}| * k == |m| * k - k
  {
    assert (m - {t}).Keys == m.Keys - {t};
    assert (|m| - 1) * k == |m| * k - k;
  }

  /** If each entry grows by at most k, the sum grows by at most k per entry. */
  lemma {:induction false} SumGrows(m: map<Tid, nat>, m': map<Tid, nat>, k: nat)
    requires m.Keys == m'.Keys
    requires forall t :: t in m ==> m'[t] <= m[t] + k
    ensures Sum(m') <= Sum(m) + |m| * k
    decreases |m|
  {
    if m == map[] {
      assert m' == map[];
    } else {
      var t :| t in m;
      SumTakesOut(m, t);
      SumTakesOut(m', t);
      SizeWithoutKey(m, t, k);
      SumGrows(m - {t}, m' - {t}, k);
    }
  }

  /** One entry gives up more than one other entry gains, and nobody else gains. */
  lemma SumTransfers(m: map<Tid, nat>, m': map<Tid, nat>, t: Tid, v: Tid, gain: nat)
    requires m.Keys == m'.Keys && t in m
    requires forall u :: u in m && u != t && u != v ==> m'[u] <= m[u]
    requires v != t && v in m ==> m'[v] <= m[v] + gain
    requires if v != t && v in m then m'[t] + gain < m[t] else m'[t] < m[t]
    ensures Sum(m') < Sum(m)
  {
    SumTakesOut(m, t);
    SumTakesOut(m', t);
    var r, r' := m - {t}, m' - {t};
    if v != t && v in m {
      SumTakesOut(r, v);
      SumTakesOut(r', v);
      SumGrows(r - {v}, r' - {v}, 0);
    } else {
      SumGrows(r, r', 0);
    }
  }

  lemma SumChangesOne(m: map<Tid, nat>, m': map<Tid, nat>, t: Tid)
    requires m.Keys == m'.Keys && t in m
    requires forall u :: u in m && u != t ==> m'[u] == m[u]
    ensures Sum(m') - m'[t] == Sum(m) - m[t]
  {
    SumTakesOut(m, t);
    SumTakesOut(m', t);
    assert m - {t} == m' - {t};
  }

  // ---------------------------------------------------------------------------------------
  // One thread
  // ---------------------------------------------------------------------------------------

  /** Apart from t itself, the step notifies at most v. */
  ghost predicate WakesOnly(e: Event, e': Event, t: Tid, v: Tid) {
    forall u :: u in e'.woken && u != t && u != v ==> u in e.woken
  }

  /** A thread makes progress: it achieves something, or it loses more energy than it hands to v. */
  ghost predicate MovesOn(c: Core, t: Tid, th: Thread, e: Effect, v: Tid) {
    || Work(e.thread.proc) + |e.core.queue| < Work(th.proc) + |c.queue|
    || (&& Work(e.thread.proc) == Work(th.proc) && |e.core.queue| == |c.queue|
        && th.todo == [] && e.thread.todo == []
        && WakesOnly(c.recvEvent, e.core.recvEvent, t, v)
        && WakesOnly(c.sendEvent, e.core.sendEvent, t, v)
        && WakesOnly(c.exitEvent, e.core.exitEvent, t, v)
        && EnergyOf(e.core, t, e.thread.proc) + (if v == t then 0 else BOOST) < EnergyOf(c, t, th.proc))
  }

  lemma NotificationBoosts(p: Proc, before: bool, after: bool)
    ensures Energy(after, p) <= Energy(before, p) + BOOST
    ensures !after ==> Energy(after, p) <= Energy(before, p)
  {
  }

  lemma RemoveWakesNobody(e: Event, t: Tid)
    ensures WakesOnly(e, Remove(e, t), t, t) && t !in Remove(e, t).woken
  {
    WithoutIsRemoval(e.woken, t);
  }

  lemma DropWakesAtMostOne(e: Event, t: Tid) returns (v: Tid)
    ensures WakesOnly(e, Drop(e, t), t, v)
    ensures t !in Drop(e, t).woken
    ensures t !in e.woken ==> v == t
    ensures v != t ==> t in e.woken
  {
    v := t;
    RemoveWakesNobody(e, t);
    DropKeepsNotification(e, t);
    var r := Remove(e, t);
    if t in e.woken && r.woken == [] && r.waiting != [] {
      WithoutIsRemoval(e.waiting, t);
      v := r.waiting[0];
      assert Notify(r, 1).woken == [v];
    }
  }

  lemma TryMovesOn(c: Core, t: Tid, signaled: bool, a: Attempt, access: Access)
    requires Placed(c, t, Inbox(signaled, Trying(a, access)))
    ensures var th := Thread([], Inbox(signaled, Trying(a, access)));
            MovesOn(c, t, th, RunTry(c, t, signaled, a, access), t)
  {
    hide Notify, Without;
  }

  lemma InboxMovesOn(c: Core, t: Tid, signaled: bool, pc: RecvPc) returns (v: Tid)
    requires Placed(c, t, Inbox(signaled, pc)) && HasNext(Inbox(signaled, pc))
    ensures MovesOn(c, t, Thread([], Inbox(signaled, pc)), RunInbox(c, t, signaled, pc), v)
  {
    hide Notify, Without;
    v := t;
    match pc
    case Trying(a, access) => TryMovesOn(c, t, signaled, a, access);
    case Looking => RemoveWakesNobody(c.recvEvent, t);
    case Settling(_) => v := DropWakesAtMostOne(c.recvEvent, t);
    case _ =>
  }

  lemma SendMovesOn(c: Core, t: Tid, m: Message, pc: SendPc)
    requires Placed(c, t, Send(m, pc)) && HasNext(Send(m, pc))
    ensures MovesOn(c, t, Thread([], Send(m, pc)), RunSend(c, t, m, pc), t)
  {
    hide Notify, Without;
    if pc.SendLooking? {
      RemoveWakesNobody(c.sendEvent, t);
    }
  }

  lemma AddressMovesOn(c: Core, t: Tid, slot: Slot, pc: AddressPc) returns (v: Tid)
    requires Placed(c, t, Address(slot, pc)) && HasNext(Address(slot, pc))
    ensures MovesOn(c, t, Thread([], Address(slot, pc)), RunAddress(c, t, slot, pc), v)
  {
    hide Notify, Without;
    v := t;
    if pc.Watching? {
      RemoveWakesNobody(c.exitEvent, t);
    } else if pc.Clearing? {
      v := DropWakesAtMostOne(c.exitEvent, t);
    }
  }

  lemma RunMovesOn(c: Core, t: Tid, p: Proc) returns (v: Tid)
    requires Placed(c, t, p) && HasNext(p)
    ensures MovesOn(c, t, Thread([], p), RunNext(c, t, p), v)
  {
    v := t;
    match p
    case Inbox(signaled, pc) => v := InboxMovesOn(c, t, signaled, pc);
    case Send(m, pc) => SendMovesOn(c, t, m, pc);
    case Address(slot, pc) => v := AddressMovesOn(c, t, slot, pc);
    case Closer(_) =>
    case Halter(_, _) =>
  }

  lemma OwnerMovesOn(s: State, step: Step) returns (v: Tid)
    requires Driven(s, step) && !step.act.Run? && Placed(s.core, step.t, s.threads[step.t].proc)
    ensures MovesOn(s.core, step.t, s.threads[step.t],
                    Perform(s.core, step.t, s.threads[step.t], step.act), v)
  {
    hide Notify, Without;
    v := step.t;
    if step.act.Abandon? {
      v := DropWakesAtMostOne(s.core.sendEvent, step.t);
    }
  }

  lemma PerformMovesOn(s: State, step: Step) returns (v: Tid)
    requires Driven(s, step) && Placed(s.core, step.t, s.threads[step.t].proc)
    requires step.act.Run? ==> s.threads[step.t].todo == []
    ensures MovesOn(s.core, step.t, s.threads[step.t],
                    Perform(s.core, step.t, s.threads[step.t], step.act), v)
  {
    if step.act.Run? {
      var th := s.threads[step.t];
      assert th == Thread([], th.proc);
      v := RunMovesOn(s.core, step.t, th.proc);
    } else {
      v := OwnerMovesOn(s, step);
    }
  }

  // ---------------------------------------------------------------------------------------
  // All threads
  // ---------------------------------------------------------------------------------------

  ghost predicate Decreases(s: State, s': State) {
    Major(s') < Major(s) || (Major(s') == Major(s) && Minor(s') < Minor(s))
  }

  lemma WorksChange(s: State, t: Tid, e: Effect)
    requires t in s.threads
    ensures Sum(Works(After(s, t, e))) - Work(e.thread.proc) == Sum(Works(s)) - Work(s.threads[t].proc)
    ensures |After(s, t, e).threads| == |s.threads|
  {
    var s' := After(s, t, e);
    assert s'.threads.Keys == s.threads.Keys;
    assert |s'.threads.Keys| == |s.threads.Keys|;
    SumChangesOne(Works(s), Works(s'), t);
  }

  /** Everybody gains at most BOOST from a notification, and the notifier has paid for it. */
  lemma FlushWeight(s: State, t: Tid, u: Tid)
    requires t in s.threads && s.threads[t].todo != [] && u in s.threads
    ensures var s' := After(s, t, Flush(s.core, s.threads[t]));
            var n := |s.threads|;
            Weight(s'.core, u, s'.threads[u], n) + (if u == t then Price(n) else 0)
            <= Weight(s.core, u, s.threads[u], n) + BOOST
  {
    var s' := After(s, t, Flush(s.core, s.threads[t]));
    NotificationBoosts(s.threads[u].proc, Woken(s.core, u, s.threads[u].proc), Woken(s'.core, u, s.threads[u].proc));
  }

  /** If every entry gains at most k and one of them also pays more than k per entry, the sum decreases. */
  lemma SumPays(m: map<Tid, nat>, m': map<Tid, nat>, t: Tid, k: nat, price: nat)
    requires m.Keys == m'.Keys && t in m && price > |m| * k
    requires forall u :: u in m && u != t ==> m'[u] <= m[u] + k
    requires m'[t] + price <= m[t] + k
    ensures Sum(m') < Sum(m)
  {
    SumTakesOut(m, t);
    SumTakesOut(m', t);
    SumGrows(m - {t}, m' - {t}, k);
    SizeWithoutKey(m, t, k);
  }

  lemma FlushWeights(s: State, t: Tid, u: Tid)
    requires t in s.threads && s.threads[t].todo != [] && u in s.threads
    ensures var s' := After(s, t, Flush(s.core, s.threads[t]));
            && u in Weights(s) && u in Weights(s')
            && Weights(s')[u] + (if u == t then Price(|s.threads|) else 0) <= Weights(s)[u] + BOOST
  {
    FlushWeight(s, t, u);
    WorksChange(s, t, Flush(s.core, s.threads[t]));
  }

  lemma FlushLowersMinor(s: State, t: Tid)
    requires t in s.threads && s.threads[t].todo != []
    ensures Minor(After(s, t, Flush(s.core, s.threads[t]))) < Minor(s)
  {
    var s' := After(s, t, Flush(s.core, s.threads[t]));
    WeightsCoverThreads(s);
    WeightsCoverThreads(s');
    var before, after := Weights(s), Weights(s');
    forall u | u in before ensures after[u] + (if u == t then Price(|s.threads|) else 0) <= before[u] + BOOST {
      FlushWeights(s, t, u);
    }
    SumPays(before, after, t, BOOST, Price(|s.threads|));
  }

  lemma FlushDecreases(s: State, t: Tid)
    requires t in s.threads && s.threads[t].todo != []
    ensures Decreases(s, Apply(s, On(t, Run)))
  {
    WorksChange(s, t, Flush(s.core, s.threads[t]));
    FlushLowersMinor(s, t);
  }

  lemma WeightsCoverThreads(s: State)
    ensures |Weights(s)| == |s.threads|
    ensures Weights(s).Keys == s.threads.Keys
  {
    assert Weights(s).Keys == s.threads.Keys;
    assert |Weights(s)| == |Weights(s).Keys| == |s.threads.Keys| == |s.threads|;
  }

  lemma MoveDecreases(s: State, t: Tid, act: Act, v: Tid)
    requires t in s.threads && Can(s.threads[t], act)
    requires MovesOn(s.core, t, s.threads[t], Perform(s.core, t, s.threads[t], act), v)
    ensures Decreases(s, Apply(s, On(t, act)))
  {
    hide Perform, Energy, Debt;
    var th := s.threads[t];
    var e := Perform(s.core, t, th, act);
    var s' := After(s, t, e);
    WorksChange(s, t, e);
    if Work(e.thread.proc) + |e.core.queue| >= Work(th.proc) + |s.core.queue| {
      var before, after := Weights(s), Weights(s');
      forall u | u in before && u != t
        ensures after[u] <= before[u] + BOOST && (u != v ==> after[u] <= before[u])
      {
        var p := s.threads[u].proc;
        NotificationBoosts(p, Woken(s.core, u, p), Woken(e.core, u, p));
      }
      SumTransfers(before, after, t, v, BOOST);
    }
  }

  /** Every step that an executor takes on its own decreases the measure. */
  lemma DrivenStepDecreases(s: State, step: Step)
    requires Inv(s) && Driven(s, step)
    ensures Decreases(s, Apply(s, step))
  {
    if step.act.Run? && s.threads[step.t].todo != [] {
      FlushDecreases(s, step.t);
    } else {
      var v := PerformMovesOn(s, step);
      MoveDecreases(s, step.t, step.act, v);
    }
  }

  lemma DrivenStepStaysInvariant(s: State, step: Step)
    requires Inv(s) && Driven(s, step)
    ensures Inv(Apply(s, step))
  {
    StepKeepsInvariant(s, step);
  }

  /** Whatever the schedule, an executor stops being driven: there is no infinite run without new calls. */
  lemma EveryDrivenRunEnds(states: nat -> State, steps: nat -> Step)
    requires Reachable(states(0))
    requires forall i: nat :: Driven(states(i), steps(i)) ==> states(i + 1) == Apply(states(i), steps(i))
    ensures exists i: nat :: !Driven(states(i), steps(i))
  {
    ReachableIsInvariant(states(0));
    var i := RunsOut(states, steps, 0);
  }

  lemma {:induction false} RunsOut(states: nat -> State, steps: nat -> Step, i: nat) returns (j: nat)
    requires Inv(states(i))
    requires forall i: nat :: Driven(states(i), steps(i)) ==> states(i + 1) == Apply(states(i), steps(i))
    ensures !Driven(states(j), steps(j))
    decreases Major(states(i)), Minor(states(i))
  {
    hide Inv, Apply, Driven, Major, Minor;
    if Driven(states(i), steps(i)) {
      DrivenStepStaysInvariant(states(i), steps(i));
      DrivenStepDecreases(states(i), steps(i));
      j := RunsOut(states, steps, i + 1);
    } else {
      j := i;
    }
  }

  // ---------------------------------------------------------------------------------------
  // The loop of one poll
  // ---------------------------------------------------------------------------------------

  predicate Looping(s: State, t: Tid) {
    t in s.threads && s.threads[t].todo == [] && InLoop(s.threads[t].proc)
  }

  predicate Notified(s: State, t: Tid) {
    t in s.threads && Woken(s.core, t, s.threads[t].proc)
  }

  /** Thread t stays in its loop throughout the run. */
  predicate LoopsOn(s: State, steps: seq<Step>, t: Tid)
    requires Valid(s, steps)
    decreases |steps|
  {
    Looping(s, t) && (steps != [] ==> LoopsOn(Apply(s, steps[0]), steps[1..], t))
  }

  function OwnSteps(steps: seq<Step>, t: Tid): nat {
    if steps == [] then 0 else (if steps[0].t == t then 1 else 0) + OwnSteps(steps[1..], t)
  }

  /** How often another thread notifies t during the run. */
  function Notifications(s: State, steps: seq<Step>, t: Tid): nat
    requires Valid(s, steps)
    decreases |steps|
  {
    if steps == [] then 0
    else
      var s' := Apply(s, steps[0]);
      (if !Notified(s, t) && Notified(s', t) then 1 else 0) + Notifications(s', steps[1..], t)
  }

  function LoopEnergy(s: State, t: Tid): nat
    requires t in s.threads
  {
    EnergyOf(s.core, t, s.threads[t].proc)
  }

  lemma OwnStepCostsEnergy(s: State, step: Step)
    requires Registered(s) && Enabled(s, step) && Looping(s, step.t) && Looping(Apply(s, step), step.t)
    ensures LoopEnergy(Apply(s, step), step.t) < LoopEnergy(s, step.t)
  {
    hide Energy, RunNext, Placed;
    var th := s.threads[step.t];
    assert step.act.Run? && th == Thread([], th.proc);
    var v := RunMovesOn(s.core, step.t, th.proc);
    LoopMovesNothing(s.core, step.t, th.proc);
  }

  /** A step from the loop into the loop neither achieves anything nor touches the queue. */
  lemma LoopMovesNothing(c: Core, t: Tid, p: Proc)
    requires InLoop(p) && InLoop(RunNext(c, t, p).thread.proc) && RunNext(c, t, p).thread.todo == []
    ensures Work(RunNext(c, t, p).thread.proc) == Work(p) && RunNext(c, t, p).core.queue == c.queue
  {
    hide Notify, Without, Listen, Remove, Drop;
  }

  lemma LoopStep(s: State, step: Step, t: Tid)
    requires Registered(s) && Enabled(s, step) && Looping(s, t) && Looping(Apply(s, step), t)
    ensures LoopEnergy(Apply(s, step), t) + (if step.t == t then 1 else 0)
            <= LoopEnergy(s, t) + (if !Notified(s, t) && Notified(Apply(s, step), t) then BOOST else 0)
  {
    hide Energy, Perform;
    if step.t == t {
      OwnStepCostsEnergy(s, step);
    } else {
      NotificationBoosts(s.threads[t].proc, Notified(s, t), Notified(Apply(s, step), t));
    }
  }

  lemma {:induction false} LoopRun(s: State, steps: seq<Step>, t: Tid)
    requires Inv(s) && Valid(s, steps) && LoopsOn(s, steps, t)
    ensures OwnSteps(steps, t) <= LoopEnergy(s, t) + BOOST * Notifications(s, steps, t)
    decreases |steps|
  {
    hide Energy, Inv, Apply;
    if steps != [] {
      var s' := Apply(s, steps[0]);
      LoopInvariant(s, steps[0]);
      LoopStep(s, steps[0], t);
      LoopRun(s', steps[1..], t);
    }
  }

  lemma LoopInvariant(s: State, step: Step)
    requires Inv(s) && Enabled(s, step)
    ensures Registered(s) && Inv(Apply(s, step))
  {
    StepKeepsInvariant(s, step);
  }

  lemma LoopEnergyIsSmall(s: State, t: Tid)
    requires Looping(s, t)
    ensures LoopEnergy(s, t) < BOOST
  {
  }

  /**
  The loop of a poll ends under any interference: while it goes on, the poll makes fewer than sixteen steps,
  and at most sixteen more for each notification that it is given meanwhile.
  */
  lemma LoopIsBoundedByNotifications(s: State, steps: seq<Step>, t: Tid)
    requires Reachable(s) && Valid(s, steps) && LoopsOn(s, steps, t)
    ensures OwnSteps(steps, t) < BOOST * (1 + Notifications(s, steps, t))
  {
    ReachableIsInvariant(s);
    LoopRun(s, steps, t);
    LoopEnergyIsSmall(s, t);
  }

  // ---------------------------------------------------------------------------------------
  // At rest
  // ---------------------------------------------------------------------------------------

  ghost predicate AtRest(s: State) {
    forall step :: !Driven(s, step)
  }

  lemma {:induction false} CanComeToRest(s: State) returns (s': State)
    requires Inv(s)
    ensures Reaches(s, s') && AtRest(s') && Inv(s')
    ensures s'.core.inboxCount <= s.core.inboxCount
    decreases Major(s), Minor(s)
  {
    hide Inv, Major, Minor, Driven, Reaches, Apply;
    if AtRest(s) {
      s' := s;
      ReachesItself(s);
    } else {
      var step :| Driven(s, step);
      DrivenStepStaysInvariant(s, step);
      DrivenStepDecreases(s, step);
      DrivenStepAddsNoInbox(s, step);
      s' := CanComeToRest(Apply(s, step));
      StepThenReaches(s, step, s');
    }
  }

  lemma ReachesItself(s: State)
    ensures Reaches(s, s)
  {
    assert Valid(s, []) && Exec(s, []) == s;
  }

  lemma DrivenStepAddsNoInbox(s: State, step: Step)
    requires Driven(s, step)
    ensures Enabled(s, step) && Apply(s, step).core.inboxCount <= s.core.inboxCount
  {
    PerformCountsInboxes(s.core, step.t, s.threads[step.t], step.act);
  }

  /** Whatever happened before, the system can come to rest without a new call. */
  lemma EveryStateCanComeToRest(s: State)
    requires Reachable(s)
    ensures exists s' :: Reaches(s, s') && AtRest(s')
  {
    ReachableIsInvariant(s);
    var s' := CanComeToRest(s);
  }

  lemma StepThenReaches(s: State, step: Step, s': State)
    requires Enabled(s, step) && Reaches(Apply(s, step), s')
    ensures Reaches(s, s')
  {
    var steps :| Valid(Apply(s, step), steps) && Exec(Apply(s, step), steps) == s';
    var longer := [step] + steps;
    assert longer[0] == step && longer[1..] == steps;
    assert Valid(s, longer) && Exec(s, longer) == s';
  }

  lemma RestingThread(s: State, t: Tid)
    requires AtRest(s) && t in s.threads
    ensures s.threads[t].todo == [] && !HasNext(s.threads[t].proc)
    ensures Asleep(s.threads[t].proc) ==> !Woken(s.core, t, s.threads[t].proc)
    ensures !(s.threads[t].proc.Send? && s.threads[t].proc.send.Finished?)
  {
    assert !Driven(s, On(t, Run));
    assert !Driven(s, On(t, Repoll));
    assert !Driven(s, On(t, Abandon));
  }

  lemma NothingWokenAtRest(s: State)
    requires Inv(s) && AtRest(s)
    ensures s.core.recvEvent.woken == [] && s.core.sendEvent.woken == []
  {
    if s.core.recvEvent.woken != [] {
      var u := s.core.recvEvent.woken[0];
      assert Active(s.core.recvEvent, u);
      assert Placed(s.core, u, s.threads[u].proc);
      RestingThread(s, u);
    }
    if s.core.sendEvent.woken != [] {
      var u := s.core.sendEvent.woken[0];
      assert Active(s.core.sendEvent, u);
      assert Placed(s.core, u, s.threads[u].proc);
      RestingThread(s, u);
    }
  }

  lemma NobodyInFlightAtRest(w: Promise, s: State)
    requires AtRest(s)
    ensures !SomebodyInFlight(w, s)
  {
    forall t | t in s.threads ensures !InFlight(w, s.threads[t]) {
      RestingThread(s, t);
    }
  }

  /** At rest a parked thread that is exposed to a promise has nothing to be woken for. */
  lemma CalmAtRest(w: Promise, s: State, t: Tid)
    requires Inv(s) && AtRest(s) && Due(w, s)
    requires t in s.threads && Asleep(s.threads[t].proc) && Exposed(w, s.threads[t].proc)
    ensures Calm(w, s.core)
  {
    RestingThread(s, t);
    NothingWokenAtRest(s);
    NobodyInFlightAtRest(w, s);
    assert Placed(s.core, t, s.threads[t].proc);
    assert Kept(w, s);
    assert AtRisk(w, s.core, t, s.threads[t].proc);
  }

  /**
  No deadlock: at rest a parked receiver means that the channel is open; that there is no message, if it was
  not told to halt or if no inbox was ever told right after consuming a notification; and that no halt credit
  is left, if it was not told. A parked sender means that a message is queued in an open channel; a parked
  address means that the actor has not exited.
  */
  lemma NobodyIsStrandedAtRest(s: State, t: Tid)
    requires Reachable(s) && AtRest(s)
    requires t in s.threads && Asleep(s.threads[t].proc)
    ensures s.threads[t].proc.Inbox? ==> !s.core.closed
    ensures s.threads[t].proc.Inbox? && !s.threads[t].proc.signaled && Small(s)
            ==> s.core.queue == [] && s.core.haltCount <= 0
    ensures s.threads[t].proc.Inbox? && s.history.wasted == 0 ==> s.core.queue == []
    ensures s.threads[t].proc.Send? ==> s.core.queue != [] && !s.core.closed
    ensures s.threads[t].proc.Address? ==> s.core.inboxCount > 0
  {
    ReachableIsInvariant(s);
    hide Reachable, AtRest, Inv;
    match s.threads[t].proc
    case Inbox(signaled, _) =>
      CalmAtRest(ClosedToReceivers, s, t);
      if s.history.wasted == 0 {
        CalmAtRest(MessageForAnyone, s, t);
      }
      if !signaled && Small(s) {
        CalmAtRest(MessageForUntold, s, t);
        CalmAtRest(HaltCredit, s, t);
      }
    case Send(_, _) => CalmAtRest(Space, s, t);
    case Address(_, _) => CalmAtRest(Exiting, s, t);
    case _ =>
  }
}
