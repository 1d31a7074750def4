/** Shutting down: halt now, abort once when the time is up, and wait for the tasks meanwhile. */
module Shutdowns {
  import opened Wrappers
  import opened Config
  import opened ChannelObject
  import opened Pools

  // ---------------------------------------------------------------------------------------
  // Whole runs of a shutdown stream
  // ---------------------------------------------------------------------------------------

  /** A shutdown in progress: the pool, whether the sleep is still there, and the aborts made. */
  datatype Shutdown = Shutdown(pool: PoolRun, sleeping: bool, aborts: nat)

  /** A task ends, or the stream is polled, with the sleep elapsed or not. */
  datatype Happening = TaskEnds(i: nat, outcome: Outcome) | StreamPolled(elapsed: bool)

  function Proceeds(s: Shutdown, h: Happening): Shutdown {
    match h
    case TaskEnds(i, outcome) => s.(pool := Happens(s.pool, Ends(i, outcome)))
    case StreamPolled(elapsed) =>
      if s.sleeping && elapsed
      then Shutdown(Happens(Happens(s.pool, AbortAll), Polled), false, s.aborts + 1)
      else s.(pool := Happens(s.pool, Polled))
  }

  /** A poll in a run does what ShutdownStream.PollNext promises. */
  lemma StreamPolledIsPollNext(s: Shutdown, elapsed: bool)
    ensures var fires := s.sleeping && elapsed;
            var tasks := if fires then WithAbort(s.pool.tasks) else s.pool.tasks;
            var s' := Proceeds(s, StreamPolled(elapsed));
            && s'.sleeping == (s.sleeping && !fires)
            && s'.aborts == (if fires then s.aborts + 1 else s.aborts)
            && s'.pool.tasks == Remaining(tasks)
            && match Yielded(tasks)
               case Ready(Some(outcome)) =>
                 exists t :: t in tasks && t.outcome == Some(outcome)
                             && s'.pool.results == s.pool.results + [(t.id, outcome)]
               case _ => s'.pool.results == s.pool.results
  {
    PolledIsPollNext(if s.sleeping && elapsed then Happens(s.pool, AbortAll) else s.pool);
  }

  function ProceedAll(s: Shutdown, hs: seq<Happening>): Shutdown
    decreases |hs|
  {
    if hs == [] then s else ProceedAll(Proceeds(s, hs[0]), hs[1..])
  }

  predicate AllAborted(tasks: seq<Task>) {
    forall t :: t in tasks ==> t.abortRequested
  }

  ghost predicate Sound(s: Shutdown) {
    && s.aborts == (if s.sleeping then 0 else 1)
    && (!s.sleeping ==> AllAborted(s.pool.tasks))
  }

  lemma PollKeepsAborted(p: PoolRun)
    requires AllAborted(p.tasks)
    ensures AllAborted(Happens(p, Polled).tasks)
  {
    FoundIsEnded(p.tasks);
    if Found(p.tasks).Some? {
      SwapRemoveKeepsOthers(p.tasks, Found(p.tasks).value);
      forall t | t in Remaining(p.tasks) ensures t.abortRequested {
        assert t in multiset(Remaining(p.tasks));
        assert t in multiset(p.tasks);
      }
    }
  }

  lemma RemainingStayAborted(tasks: seq<Task>)
    requires AllAborted(tasks)
    ensures AllAborted(Remaining(tasks))
  {
    PollKeepsAborted(PoolRun(tasks, [], map[]));
  }

  lemma ProceedsStaysSound(s: Shutdown, h: Happening)
    requires Sound(s)
    ensures Sound(Proceeds(s, h))
    ensures Handles(Proceeds(s, h).pool) == Handles(s.pool)
    ensures |Proceeds(s, h).pool.tasks| + |Proceeds(s, h).pool.results| == |s.pool.tasks| + |s.pool.results|
  {
    match h
    case TaskEnds(i, outcome) => EventKeepsHandles(s.pool, Ends(i, outcome));
    case StreamPolled(elapsed) =>
      if s.sleeping && elapsed {
        EventKeepsHandles(s.pool, AbortAll);
        EventKeepsHandles(Happens(s.pool, AbortAll), Polled);
        PollKeepsAborted(Happens(s.pool, AbortAll));
      } else {
        EventKeepsHandles(s.pool, Polled);
        if !s.sleeping {
          PollKeepsAborted(s.pool);
        }
      }
  }

  lemma ProceedsStaysTruthful(s: Shutdown, h: Happening)
    requires Distinct(s.pool) && Truthful(s.pool)
    ensures Distinct(Proceeds(s, h).pool) && Truthful(Proceeds(s, h).pool)
  {
    hide Truthful, Happens;
    match h
    case TaskEnds(i, outcome) =>
      EventKeepsHandles(s.pool, Ends(i, outcome));
      EventKeepsTruth(s.pool, Ends(i, outcome));
    case StreamPolled(elapsed) =>
      var p := if s.sleeping && elapsed then Happens(s.pool, AbortAll) else s.pool;
      EventKeepsHandles(s.pool, AbortAll);
      EventKeepsTruth(s.pool, AbortAll);
      EventKeepsHandles(p, Polled);
      EventKeepsTruth(p, Polled);
  }

  lemma {:induction false} ShutdownConserves(s: Shutdown, hs: seq<Happening>)
    requires Sound(s) && Distinct(s.pool) && Truthful(s.pool)
    ensures var last := ProceedAll(s, hs);
            && Sound(last) && Distinct(last.pool) && Truthful(last.pool)
            && Handles(last.pool) == Handles(s.pool)
            && |last.pool.tasks| + |last.pool.results| == |s.pool.tasks| + |s.pool.results|
    decreases |hs|
  {
    hide Distinct, Truthful, Proceeds;
    if hs != [] {
      ProceedsStaysSound(s, hs[0]);
      ProceedsStaysTruthful(s, hs[0]);
      ShutdownConserves(Proceeds(s, hs[0]), hs[1..]);
    }
  }

  /** One poll after the other, with the sleep elapsed or not at each of them. */
  function Polls(elapsed: seq<bool>): (hs: seq<Happening>)
    ensures |hs| == |elapsed|
  {
    seq(|elapsed|, i requires 0 <= i < |elapsed| => StreamPolled(elapsed[i]))
  }

  lemma PollOfEnded(p: PoolRun)
    requires AllEnded(p.tasks) && p.tasks != []
    ensures var q := Happens(p, Polled); AllEnded(q.tasks) && |q.tasks| == |p.tasks| - 1
  {
    FoundIsEnded(p.tasks);
    var i := Found(p.tasks).value;
    SwapRemoveKeepsOthers(p.tasks, i);
    forall t | t in Remaining(p.tasks) ensures Ended(t) {
      assert t in multiset(Remaining(p.tasks));
      assert t in multiset(p.tasks);
    }
  }

  /** Once every task has ended, as many polls as handles are left yield them all, whenever the sleep elapses. */
  lemma {:induction false} EndedShutdownIsYielded(s: Shutdown, elapsed: seq<bool>)
    requires AllEnded(s.pool.tasks) && |elapsed| == |s.pool.tasks|
    ensures ProceedAll(s, Polls(elapsed)).pool.tasks == []
    decreases |elapsed|
  {
    hide Happens;
    if elapsed != [] {
      var p := if s.sleeping && elapsed[0] then Happens(s.pool, AbortAll) else s.pool;
      AbortsEndNothing(s.pool);
      PollOfEnded(p);
      var s' := Proceeds(s, StreamPolled(elapsed[0]));
      EndedShutdownIsYielded(s', elapsed[1..]);
      assert Polls(elapsed)[1..] == Polls(elapsed[1..]);
    }
  }

  lemma AbortsEndNothing(p: PoolRun)
    ensures AllEnded(p.tasks) ==> AllEnded(Happens(p, AbortAll).tasks)
    ensures |Happens(p, AbortAll).tasks| == |p.tasks|
  {
    forall t | AllEnded(p.tasks) && t in WithAbort(p.tasks) ensures Ended(t) {
      var i :| 0 <= i < |p.tasks| && WithAbort(p.tasks)[i] == t;
      assert p.tasks[i] in p.tasks;
    }
  }

  lemma {:induction false} ProceedAllComposes(s: Shutdown, a: seq<Happening>, b: seq<Happening>)
    ensures ProceedAll(s, a + b) == ProceedAll(ProceedAll(s, a), b)
    decreases |a|
  {
    hide Proceeds;
    if a == [] {
      assert a + b == b;
    } else {
      assert (a + b)[1..] == a[1..] + b;
      ProceedAllComposes(Proceeds(s, a[0]), a[1..], b);
    }
  }

  lemma NoneLeftOrYielded(start: PoolRun, end: PoolRun)
    requires start.results == [] && end.tasks == [] && Handles(end) == Handles(start)
    ensures multiset(YieldedIds(end.results)) == multiset(Ids(start.tasks))
  {
    assert Ids(end.tasks) == [] && YieldedIds(start.results) == [];
    assert multiset(Ids(end.tasks)) == multiset{} == multiset(YieldedIds(start.results));
    assert Handles(end) == multiset(YieldedIds(end.results));
    assert Handles(start) == multiset(Ids(start.tasks));
  }

  /**
  Over every run a shutdown stream aborts at most once, from then on every handle left has been aborted, and the
  handles yielded and left are those of the start, each yielded with the outcome of its own task. If every
  task has ended at some point, the stream ends after as many polls as there are handles left, whenever its
  sleep elapses, and it has then yielded each handle of the start exactly once.
  */
  lemma ShutdownYieldsEveryHandle(s: Shutdown, hs: seq<Happening>, elapsed: seq<bool>)
    requires Sound(s) && s.pool.results == [] && Distinct(s.pool) && Truthful(s.pool)
    ensures var last := ProceedAll(s, hs);
            && last.aborts <= 1
            && (!last.sleeping ==> AllAborted(last.pool.tasks))
            && Handles(last.pool) == Handles(s.pool)
            && Truthful(last.pool)
    ensures var last := ProceedAll(s, hs);
            AllEnded(last.pool.tasks) && |elapsed| == |last.pool.tasks|
            ==> var end := ProceedAll(s, hs + Polls(elapsed));
                && Yielded(end.pool.tasks) == Ready(None)
                && |end.pool.results| == |s.pool.tasks|
                && multiset(YieldedIds(end.pool.results)) == multiset(Ids(s.pool.tasks))
                && Truthful(end.pool)
  {
    hide Distinct, Truthful, Proceeds;
    ShutdownConserves(s, hs);
    ShutdownConserves(s, hs + Polls(elapsed));
    var last := ProceedAll(s, hs);
    if AllEnded(last.pool.tasks) && |elapsed| == |last.pool.tasks| {
      ProceedAllComposes(s, hs, Polls(elapsed));
      EndedShutdownIsYielded(last, elapsed);
      NoneLeftOrYielded(s.pool, ProceedAll(s, hs + Polls(elapsed)).pool);
    }
  }

  // ---------------------------------------------------------------------------------------
  // The objects
  // ---------------------------------------------------------------------------------------

  class ShutdownStream {
    const pool: ChildPool
    var sleep: Option<Nanos>

    /** Once the sleep is gone, every handle that is left has been aborted. */
    ghost predicate Valid()
      reads this, pool, pool.channel, pool.handles
    {
      pool.Valid() && (sleep == None ==> AllAborted(Views(pool.handles)))
    }

    constructor (pool: ChildPool, timeout: Nanos)
      requires pool.Valid()
      modifies pool.channel
      ensures Valid() && this.pool == pool && sleep == Some(timeout)
      ensures pool.channel.Shared() == HaltedSome(Closed(old(pool.channel.Shared())), U32_MAX)
    {
      pool.channel.Halt();
      this.pool := pool;
      sleep := Some(timeout);
    }

    /** The abort happens when the sleep has elapsed, and then the sleep is gone. */
    method CheckDeadline(elapsed: bool)
      requires Valid()
      modifies this`sleep, pool`isAborted, pool.channel, pool.handles
      ensures Valid()
      ensures var fires := old(sleep).Some? && elapsed;
              && sleep == (if fires then None else old(sleep))
              && pool.isAborted == (fires || old(pool.isAborted))
              && pool.channel.Shared()
                 == (if fires then Closed(old(pool.channel.Shared())) else old(pool.channel.Shared()))
              && Views(pool.handles)
                 == (if fires then WithAbort(old(Views(pool.handles))) else old(Views(pool.handles)))
    {
      if sleep.Some? {
        if elapsed {
          sleep := None;
          var _ := pool.Abort();
        }
      }
    }

    /** First the deadline, then the pool. */
    method PollNext(elapsed: bool) returns (r: Poll<Option<Outcome>>)
      requires Valid()
      modifies this`sleep, pool`isAborted, pool`handles, pool.channel, pool.handles
      ensures Valid()
      ensures var fires := old(sleep).Some? && elapsed;
              var tasks := if fires then WithAbort(old(Views(pool.handles))) else old(Views(pool.handles));
              && sleep == (if fires then None else old(sleep))
              && pool.isAborted == (fires || old(pool.isAborted))
              && pool.channel.Shared()
                 == (if fires then Closed(old(pool.channel.Shared())) else old(pool.channel.Shared()))
              && r == Yielded(tasks)
              && Views(pool.handles) == Remaining(tasks)
    {
      hide Yielded, Remaining, Closed;
      CheckDeadline(elapsed);
      if sleep == None {
        RemainingStayAborted(Views(pool.handles));
      }
      r := pool.PollNext();
    }
  }

  /** The handle of an actor with one task. */
  class Child {
    const channel: Channel
    const handle: JoinHandle
    var isAborted: bool

    ghost predicate Valid()
      reads this, channel
    {
      channel.Valid()
    }

    constructor (channel: Channel, handle: JoinHandle)
      requires channel.Valid()
      ensures Valid() && this.channel == channel && this.handle == handle && !isAborted
    {
      this.channel := channel;
      this.handle := handle;
      isAborted := false;
    }

    method Abort() returns (first: bool)
      requires Valid()
      modifies this`isAborted, channel, handle
      ensures Valid() && isAborted && first == !old(isAborted)
      ensures channel.Shared() == Closed(old(channel.Shared()))
      ensures handle.View() == old(handle.View()).(abortRequested := true)
    {
      var _ := channel.Close();
      first := !isAborted;
      isAborted := true;
      handle.Abort();
    }
  }

  class ShutdownFut {
    const child: Child
    var sleep: Option<Nanos>

    ghost predicate Valid()
      reads this, child, child.channel, child.handle
    {
      child.Valid() && (sleep == None ==> child.handle.abortRequested)
    }

    constructor (child: Child, timeout: Nanos)
      requires child.Valid()
      modifies child.channel
      ensures Valid() && this.child == child && sleep == Some(timeout)
      ensures child.channel.Shared() == HaltedSome(Closed(old(child.channel.Shared())), U32_MAX)
    {
      child.channel.Halt();
      this.child := child;
      sleep := Some(timeout);
    }

    /** First the child, and only while it is unfinished the deadline: a finished task is never aborted. */
    method Poll(elapsed: bool) returns (r: Poll<Outcome>)
      requires Valid()
      modifies this`sleep, child`isAborted, child.channel, child.handle
      ensures Valid()
      ensures r == if old(child.handle.outcome).Some? then Ready(old(child.handle.outcome).value) else Pending
      ensures var fires := r == Pending && old(sleep).Some? && elapsed;
              && sleep == (if fires then None else old(sleep))
              && child.isAborted == (fires || old(child.isAborted))
              && child.handle.View()
                 == (if fires then old(child.handle.View()).(abortRequested := true) else old(child.handle.View()))
              && child.channel.Shared()
                 == (if fires then Closed(old(child.channel.Shared())) else old(child.channel.Shared()))
    {
      if child.handle.outcome.Some? {
        return Ready(child.handle.outcome.value);
      }
      if sleep.Some? {
        if elapsed {
          sleep := None;
          var _ := child.Abort();
        }
      }
      return Pending;
    }
  }
}
