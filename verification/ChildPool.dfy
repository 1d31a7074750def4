/**
The pool of tasks of an actor: polling it yields results in the order in which tasks are found finished, and takes
handles out of the vector by swapping in the last one.
*/
module Pools {
  import opened Wrappers
  import opened Config
  import opened ChannelObject

  /** How a task ended: with a value, aborted, or panicking. */
  datatype Outcome = Value(value: int) | Aborted | Panicked

  /** A task as its join handle shows it. */
  datatype Task = Task(id: nat, outcome: Option<Outcome>, abortRequested: bool)

  /** Vec::swap_remove: the last element takes the place of the removed one. */
  function SwapRemove<T>(s: seq<T>, i: nat): seq<T>
    requires i < |s|
  {
    if i == |s| - 1 then s[..i] else s[..|s| - 1][i := s[|s| - 1]]
  }

  predicate Ended(t: Task) {
    t.outcome.Some?
  }

  predicate AllEnded(tasks: seq<Task>) {
    forall t :: t in tasks ==> Ended(t)
  }

  /** The first finished task from position i on, or the length of the pool. */
  function FirstEnded(tasks: seq<Task>, i: nat): nat
    requires i <= |tasks|
    decreases |tasks| - i
  {
    if i == |tasks| || Ended(tasks[i]) then i else FirstEnded(tasks, i + 1)
  }

  /** The index that poll_next takes, if any. */
  function Found(tasks: seq<Task>): Option<nat> {
    var i := FirstEnded(tasks, 0);
    if i < |tasks| then Some(i) else None
  }

  function Yielded(tasks: seq<Task>): Poll<Option<Outcome>> {
    if tasks == [] then Ready(None)
    else if Found(tasks).Some? then FoundIsEnded(tasks); Ready(tasks[Found(tasks).value].outcome)
    else Pending
  }

  function Remaining(tasks: seq<Task>): seq<Task> {
    if Found(tasks).Some? then FoundIsEnded(tasks); SwapRemove(tasks, Found(tasks).value) else tasks
  }

  // ---------------------------------------------------------------------------------------
  // One poll
  // ---------------------------------------------------------------------------------------

  lemma {:induction false} FirstEndedIsFirst(tasks: seq<Task>, i: nat)
    requires i <= |tasks|
    ensures var k := FirstEnded(tasks, i);
            && i <= k <= |tasks|
            && (k < |tasks| ==> Ended(tasks[k]))
            && (forall j :: i <= j < k ==> !Ended(tasks[j]))
    decreases |tasks| - i
  {
    if i < |tasks| && !Ended(tasks[i]) {
      FirstEndedIsFirst(tasks, i + 1);
    }
  }

  lemma FoundIsEnded(tasks: seq<Task>)
    ensures Found(tasks).Some? ==> Found(tasks).value < |tasks| && Ended(tasks[Found(tasks).value])
    ensures Found(tasks).None? ==> forall j :: 0 <= j < |tasks| ==> !Ended(tasks[j])
  {
    FirstEndedIsFirst(tasks, 0);
  }

  lemma FirstFound(tasks: seq<Task>, i: nat)
    requires i < |tasks| && Ended(tasks[i]) && forall j :: 0 <= j < i ==> !Ended(tasks[j])
    ensures Yielded(tasks) == Ready(tasks[i].outcome) && Remaining(tasks) == SwapRemove(tasks, i)
  {
    FirstEndedIsFirst(tasks, 0);
  }

  lemma NoneFound(tasks: seq<Task>)
    requires tasks != [] && forall j :: 0 <= j < |tasks| ==> !Ended(tasks[j])
    ensures Yielded(tasks) == Pending && Remaining(tasks) == tasks
  {
    FoundIsEnded(tasks);
  }

  /** Despite the swap, exactly the removed element is lost. */
  lemma SwapRemoveKeepsOthers<T>(s: seq<T>, i: nat)
    requires i < |s|
    ensures multiset(s) == multiset(SwapRemove(s, i)) + multiset{s[i]}
    ensures |SwapRemove(s, i)| == |s| - 1
  {
    var last := s[|s| - 1];
    var front := s[..|s| - 1];
    assert s == front + [last];
    if i < |s| - 1 {
      assert front == front[..i] + [s[i]] + front[i + 1..];
      assert SwapRemove(s, i) == front[..i] + [last] + front[i + 1..];
    }
  }

  /**
  One poll: the stream ends exactly when no handle is left; it is pending exactly when handles are
  left and all of them are unfinished; otherwise one finished task is yielded and no other is lost.
  */
  lemma PollTakesOne(tasks: seq<Task>)
    ensures Yielded(tasks) == Ready(None) <==> tasks == []
    ensures Yielded(tasks) == Pending <==> tasks != [] && forall t :: t in tasks ==> !Ended(t)
    ensures Yielded(tasks).Ready? && tasks != []
            ==> exists t :: t in tasks && Ended(t) && Yielded(tasks) == Ready(t.outcome)
                            && multiset(tasks) == multiset(Remaining(tasks)) + multiset{t}
    ensures !(Yielded(tasks).Ready? && tasks != []) ==> Remaining(tasks) == tasks
  {
    FoundIsEnded(tasks);
    if Found(tasks).Some? {
      var i := Found(tasks).value;
      SwapRemoveKeepsOthers(tasks, i);
      assert tasks[i] in tasks;
    }
  }

  // ---------------------------------------------------------------------------------------
  // Whole runs
  // ---------------------------------------------------------------------------------------

  /** A task ends, an abort is requested for all, or the pool is polled. */
  datatype Event = Ends(i: nat, outcome: Outcome) | AbortAll | Polled

  /** The handles that are left, the tasks yielded so far, and how each task ended. */
  datatype PoolRun = PoolRun(tasks: seq<Task>, results: seq<(nat, Outcome)>, fate: map<nat, Outcome>)

  function WithAbort(tasks: seq<Task>): (r: seq<Task>)
    ensures |r| == |tasks|
    ensures forall i :: 0 <= i < |r| ==> r[i] == tasks[i].(abortRequested := true)
  {
    seq(|tasks|, i requires 0 <= i < |tasks| => tasks[i].(abortRequested := true))
  }

  function Happens(p: PoolRun, e: Event): PoolRun {
    match e
    case Ends(i, outcome) =>
      if i < |p.tasks| && !Ended(p.tasks[i])
      then p.(tasks := p.tasks[i := p.tasks[i].(outcome := Some(outcome))], fate := p.fate[p.tasks[i].id := outcome])
      else p
    case AbortAll => p.(tasks := WithAbort(p.tasks))
    case Polled =>
      FoundIsEnded(p.tasks);
      if Found(p.tasks).Some? then
        var t := p.tasks[Found(p.tasks).value];
        p.(tasks := Remaining(p.tasks), results := p.results + [(t.id, t.outcome.value)])
      else p
  }

  /** A poll in a run is a poll of the pool: the same result, and the same handles left. */
  lemma PolledIsPollNext(p: PoolRun)
    ensures var q := Happens(p, Polled);
            && q.tasks == Remaining(p.tasks) && q.fate == p.fate
            && match Yielded(p.tasks)
               case Ready(Some(outcome)) =>
                 exists t :: t in p.tasks && t.outcome == Some(outcome) && q.results == p.results + [(t.id, outcome)]
               case _ => q == p
  {
    FoundIsEnded(p.tasks);
    if Found(p.tasks).Some? {
      assert p.tasks[Found(p.tasks).value] in p.tasks;
    }
  }

  function HappenAll(p: PoolRun, es: seq<Event>): PoolRun
    decreases |es|
  {
    if es == [] then p else HappenAll(Happens(p, es[0]), es[1..])
  }

  function Ids(tasks: seq<Task>): (r: seq<nat>)
    ensures |r| == |tasks|
    ensures forall i :: 0 <= i < |r| ==> r[i] == tasks[i].id
  {
    seq(|tasks|, i requires 0 <= i < |tasks| => tasks[i].id)
  }

  function YieldedIds(ys: seq<(nat, Outcome)>): (r: seq<nat>)
    ensures |r| == |ys|
    ensures forall i :: 0 <= i < |r| ==> r[i] == ys[i].0
  {
    seq(|ys|, i requires 0 <= i < |ys| => ys[i].0)
  }

  /** The handles ever held, wherever they are now. */
  function Handles(p: PoolRun): multiset<nat> {
    multiset(Ids(p.tasks)) + multiset(YieldedIds(p.results))
  }

  ghost predicate Distinct(p: PoolRun) {
    forall k :: Handles(p)[k] <= 1
  }

  /** What is yielded, or about to be, is how the task ended. */
  ghost predicate Truthful(p: PoolRun) {
    && (forall t :: t in p.tasks && Ended(t) ==> t.id in p.fate && p.fate[t.id] == t.outcome.value)
    && (forall y :: y in p.results ==> y.0 in p.fate && p.fate[y.0] == y.1)
  }

  lemma SwapRemoveIds(tasks: seq<Task>, i: nat)
    requires i < |tasks|
    ensures Ids(SwapRemove(tasks, i)) == SwapRemove(Ids(tasks), i)
  {
  }

  lemma EventKeepsHandles(p: PoolRun, e: Event)
    ensures Handles(Happens(p, e)) == Handles(p)
    ensures |Happens(p, e).tasks| + |Happens(p, e).results| == |p.tasks| + |p.results|
  {
    hide Found, SwapRemove;
    FoundIsEnded(p.tasks);
    var q := Happens(p, e);
    if e.Polled? && Found(p.tasks).Some? {
      var i := Found(p.tasks).value;
      SwapRemoveIds(p.tasks, i);
      SwapRemoveKeepsOthers(p.tasks, i);
      SwapRemoveKeepsOthers(Ids(p.tasks), i);
      assert YieldedIds(q.results) == YieldedIds(p.results) + [p.tasks[i].id];
      assert multiset(YieldedIds(q.results)) == multiset(YieldedIds(p.results)) + multiset{p.tasks[i].id};
    } else {
      assert Ids(q.tasks) == Ids(p.tasks);
    }
  }

  lemma IdIsHeldOnce(p: PoolRun, i: nat)
    requires Distinct(p) && i < |p.tasks|
    ensures forall j :: 0 <= j < |p.tasks| && j != i ==> p.tasks[j].id != p.tasks[i].id
    ensures forall y :: y in p.results ==> y.0 != p.tasks[i].id
  {
    var ids := Ids(p.tasks);
    var k := ids[i];
    assert Handles(p)[k] <= 1;
    assert ids == ids[..i] + [k] + ids[i + 1..];
    assert multiset(ids) == multiset(ids[..i]) + multiset{k} + multiset(ids[i + 1..]);
    forall j | 0 <= j < |ids| && j != i ensures ids[j] != k {
      if j < i {
        assert ids[..i][j] == ids[j];
      } else {
        assert ids[i + 1..][j - i - 1] == ids[j];
      }
    }
    forall y | y in p.results ensures y.0 != k {
      var j :| 0 <= j < |p.results| && p.results[j] == y;
      assert YieldedIds(p.results)[j] == y.0;
    }
  }

  lemma EventKeepsTruth(p: PoolRun, e: Event)
    requires Distinct(p) && Truthful(p)
    ensures Truthful(Happens(p, e))
  {
    var q := Happens(p, e);
    FoundIsEnded(p.tasks);
    match e
    case Ends(i, outcome) =>
      if i < |p.tasks| && !Ended(p.tasks[i]) {
        IdIsHeldOnce(p, i);
      }
    case AbortAll =>
    case Polled =>
      if Found(p.tasks).Some? {
        forall t | t in q.tasks ensures t in p.tasks {
          SwapRemoveKeepsOthers(p.tasks, Found(p.tasks).value);
          assert t in multiset(q.tasks);
          assert t in multiset(p.tasks);
        }
      }
  }

  /**
  Draining a pool is a bijection: whatever the order of completions, aborts and polls, the handles yielded and the
  handles left are together the handles of the start, each exactly once, and each is yielded with the way in
  which its task ended.
  */
  lemma {:induction false} DrainingIsABijection(p: PoolRun, es: seq<Event>)
    requires Distinct(p) && Truthful(p)
    ensures var q := HappenAll(p, es);
            && Handles(q) == Handles(p)
            && |q.tasks| + |q.results| == |p.tasks| + |p.results|
            && Distinct(q) && Truthful(q)
    decreases |es|
  {
    if es != [] {
      EventKeepsHandles(p, es[0]);
      EventKeepsTruth(p, es[0]);
      DrainingIsABijection(Happens(p, es[0]), es[1..]);
    }
  }

  /** If every task has ended, polling yields every one of them before the stream ends. */
  lemma {:induction false} EndedPoolIsYielded(p: PoolRun) returns (es: seq<Event>)
    requires AllEnded(p.tasks)
    ensures |es| == |p.tasks| && (forall e :: e in es ==> e == Polled)
    ensures HappenAll(p, es).tasks == [] && |HappenAll(p, es).results| == |p.results| + |p.tasks|
    decreases |p.tasks|
  {
    es := [];
    if p.tasks != [] {
      FoundIsEnded(p.tasks);
      var q := Happens(p, Polled);
      var i := Found(p.tasks).value;
      SwapRemoveKeepsOthers(p.tasks, i);
      forall t | t in q.tasks ensures Ended(t) {
        assert t in multiset(q.tasks) && t in multiset(p.tasks);
      }
      var rest := EndedPoolIsYielded(q);
      es := [Polled] + rest;
      assert es[1..] == rest;
    }
  }

  // ---------------------------------------------------------------------------------------
  // The objects
  // ---------------------------------------------------------------------------------------

  /** tokio's handle of a task. The task itself runs elsewhere. */
  class JoinHandle {
    const id: nat
    var outcome: Option<Outcome>
    var abortRequested: bool

    constructor (id: nat)
      ensures this.id == id && outcome == None && !abortRequested
    {
      this.id := id;
      outcome, abortRequested := None, false;
    }

    ghost function View(): Task
      reads this
    {
      Task(id, outcome, abortRequested)
    }

    /** Asks the task to stop; it ends at some later time. */
    method Abort()
      modifies this`abortRequested
      ensures abortRequested
    {
      abortRequested := true;
    }
  }

  ghost function Views(handles: seq<JoinHandle>): (r: seq<Task>)
    reads handles
    ensures |r| == |handles|
    ensures forall i :: 0 <= i < |r| ==> r[i] == handles[i].View()
  {
    if handles == [] then []
    else
      var r := [handles[0].View()] + Views(handles[1..]);
      assert forall i :: 1 <= i < |handles| ==> handles[i] == handles[1..][i - 1];
      r
  }

  lemma SwapRemoveAt<T>(s: seq<T>, i: nat, j: nat)
    requires i < |s| && j < |s| - 1
    ensures |SwapRemove(s, i)| == |s| - 1
    ensures SwapRemove(s, i)[j] == s[if j == i then |s| - 1 else j]
  {
  }

  lemma SwapRemoveLength<T>(s: seq<T>, i: nat)
    requires i < |s|
    ensures |SwapRemove(s, i)| == |s| - 1
  {
  }

  lemma ViewsOfSwapRemove(handles: seq<JoinHandle>, i: nat)
    requires i < |handles|
    ensures Views(SwapRemove(handles, i)) == SwapRemove(Views(handles), i)
  {
    hide Views, SwapRemove;
    SwapRemoveLength(handles, i);
    SwapRemoveLength(Views(handles), i);
    var left, right := Views(SwapRemove(handles, i)), SwapRemove(Views(handles), i);
    forall j | 0 <= j < |left| ensures left[j] == right[j] {
      SwapRemoveAt(handles, i, j);
      SwapRemoveAt(Views(handles), i, j);
    }
  }

  /** Dropping an attached pool stops it, unless that has been done or is not needed. */
  predicate MustStop(link: Link, isAborted: bool, tasks: seq<Task>) {
    link.Attached? && !isAborted && !AllEnded(tasks)
  }

  class ChildPool {
    const channel: Channel
    var handles: seq<JoinHandle>
    var link: Link
    var isAborted: bool

    ghost predicate Valid()
      reads this, channel
    {
      channel.Valid()
    }

    constructor (channel: Channel, handles: seq<JoinHandle>, link: Link)
      requires channel.Valid()
      ensures Valid() && this.channel == channel && this.handles == handles && this.link == link && !isAborted
    {
      this.channel := channel;
      this.handles := handles;
      this.link := link;
      isAborted := false;
    }

    /** Closes the channel and asks every task to stop; true for the first abort only. */
    method Abort() returns (first: bool)
      requires Valid()
      modifies this`isAborted, channel, handles
      ensures Valid() && isAborted && first == !old(isAborted)
      ensures channel.Shared() == Closed(old(channel.Shared())) && channel.closed
      ensures Views(handles) == WithAbort(old(Views(handles)))
      ensures forall h :: h in handles ==> h.abortRequested && h.outcome == old(h.outcome)
    {
      var _ := channel.Close();
      var wasAborted := isAborted;
      isAborted := true;
      for i := 0 to |handles|
        invariant forall j :: 0 <= j < i ==> handles[j].abortRequested
        invariant forall h :: h in handles ==> h.outcome == old(h.outcome)
        modifies handles
      {
        handles[i].Abort();
      }
      return !wasAborted;
    }

    method IsFinished() returns (finished: bool)
      ensures finished <==> AllEnded(Views(handles))
      ensures finished <==> forall h :: h in handles ==> h.outcome.Some?
    {
      for i := 0 to |handles|
        invariant forall j :: 0 <= j < i ==> Ended(handles[j].View()) && handles[j].outcome.Some?
      {
        if handles[i].outcome == None {
          assert !Ended(Views(handles)[i]);
          return false;
        }
      }
      return true;
    }

    /** Adds a task unless all inboxes are gone already. */
    method Spawn(id: nat) returns (spawned: bool)
      requires Valid()
      modifies this`handles, channel
      ensures Valid()
      ensures spawned <==> old(channel.inboxCount) > 0
      ensures channel.Shared() == old(channel.Shared()).(
                inboxCount := if spawned then old(channel.inboxCount) + 1 else 0)
      ensures if spawned then |handles| == |old(handles)| + 1 && handles[..|old(handles)|] == old(handles)
                              && fresh(handles[|old(handles)|])
                              && handles[|old(handles)|].View() == Task(id, None, false)
              else handles == old(handles)
    {
      var previous := channel.TryAddInbox();
      if previous == None {
        return false;
      }
      var handle := new JoinHandle(id);
      handles := handles + [handle];
      return true;
    }

    /** Looks at the handles in order and takes out the first that is ready. */
    method PollNext() returns (r: Poll<Option<Outcome>>)
      modifies this`handles
      ensures r == Yielded(old(Views(handles)))
      ensures Views(handles) == Remaining(old(Views(handles)))
      ensures multiset(handles) <= multiset(old(handles))
    {
      hide SwapRemove, FirstEnded;
      if |handles| == 0 {
        return Ready(None);
      }
      ghost var tasks := Views(handles);
      for i := 0 to |handles|
        invariant handles == old(handles)
        invariant forall j :: 0 <= j < i ==> !Ended(tasks[j])
      {
        if handles[i].outcome.Some? {
          FirstFound(tasks, i);
          ViewsOfSwapRemove(handles, i);
          SwapRemoveKeepsOthers(handles, i);
          r := Ready(handles[i].outcome);
          handles := SwapRemove(handles, i);
          return;
        }
      }
      NoneFound(tasks);
      return Pending;
    }

    /**
    Dropping the pool: an attached pool with unfinished tasks is aborted at once if its timer is zero;
    otherwise it is halted, and its handles are left to be aborted when the timer expires.
    */
    method DropPool() returns (later: seq<JoinHandle>)
      requires Valid()
      modifies this`isAborted, channel, handles
      ensures Valid()
      ensures var c, tasks := old(channel.Shared()), old(Views(handles));
              if !MustStop(link, old(isAborted), tasks)
              then later == [] && channel.Shared() == c && Views(handles) == tasks
              else if link.timer == 0
              then later == [] && channel.Shared() == Closed(c) && Views(handles) == WithAbort(tasks)
              else later == handles && channel.Shared() == HaltedSome(Closed(c), U32_MAX) && Views(handles) == tasks
      ensures forall h :: h in handles ==> h.outcome == old(h.outcome)
      ensures if link.Detached? || old(isAborted) || (forall h :: h in handles ==> h.outcome.Some?)
              then later == [] && channel.Shared() == old(channel.Shared())
                   && forall h :: h in handles ==> h.abortRequested == old(h.abortRequested)
              else channel.closed
                   && if link.timer == 0 then forall h :: h in handles ==> h.abortRequested
                      else later == handles && channel.haltCount == I32_MAX
    {
      hide Closed, HaltedSome, WithAbort, Views;
      later := [];
      if link.Detached? || isAborted {
        return;
      }
      var finished := IsFinished();
      if finished {
        return;
      }
      if link.timer == 0 {
        var _ := Abort();
      } else {
        channel.Halt();
        later := handles;
      }
    }
  }
}
