/**
Where the wake-up guarantees end, shown by concrete runs. An inbox that keeps receiving after it was told to halt
can be left parked while a message is waiting, as soon as one inbox was told right after consuming a notification.
And what they promise a parked sender is a message left in the queue, not a full queue: from capacity two
on, free space may wake nobody.
*/
module Limits {
  import opened Wrappers
  import opened Config
  import opened Events
  import opened Core
  import opened Protocol
  import opened Counting
  import opened Guarantees
  import opened Progress
  import opened ChannelObject
  import opened Agreement

  // ---------------------------------------------------------------------------------------
  // Building a run
  // ---------------------------------------------------------------------------------------

  lemma {:induction false} StepsCompose(s: State, steps: seq<Step>, step: Step)
    requires Valid(s, steps) && Enabled(Exec(s, steps), step)
    ensures Valid(s, steps + [step]) && Exec(s, steps + [step]) == Apply(Exec(s, steps), step)
    decreases |steps|
  {
    var longer := steps + [step];
    if steps == [] {
      assert longer[1..] == [];
    } else {
      assert longer[1..] == steps[1..] + [step];
      StepsCompose(Apply(s, steps[0]), steps[1..], step);
    }
  }

  lemma ReachableStep(s: State, step: Step) returns (s': State)
    requires Reachable(s) && Enabled(s, step)
    ensures s' == Apply(s, step) && Reachable(s')
  {
    hide Enabled, Apply;
    s' := Apply(s, step);
    var s0 :| Init(s0) && Reaches(s0, s);
    var steps :| Valid(s0, steps) && Exec(s0, steps) == s;
    StepsCompose(s0, steps, step);
    assert Reaches(s0, s');
  }

  lemma InitIsReachable(s: State)
    requires Init(s)
    ensures Reachable(s)
  {
    assert Valid(s, []) && Exec(s, []) == s;
    assert Reaches(s, s);
  }

  /**
  The shared state and the threads of some reachable state with at most two inboxes ever live, and none of
  them told to halt right after consuming a notification.
  */
  ghost predicate Reached(c: Core, threads: map<Tid, Thread>) {
    exists h: History :: h.mostLive <= 2 && h.wasted == 0 && Reachable(State(c, threads, h))
  }

  predicate Wastes(e: Effect) {
    e.note.ToldHalt? && e.note.wasteful
  }

  /** The thread wastes no notification as long as it runs alone. */
  predicate Thrifty(c: Core, th: Thread) {
    th.proc.Inbox? ==>
      || th.proc.recv.Idle?
      || (th.proc.recv.Trying? && th.proc.recv.attempt.Once?)
      || (th.proc.signaled && (th.proc.recv.Trying? ==> th.proc.recv.access.PopQueue?))
      || (c.haltCount <= 0 && !IsSubtracting(th.proc))
  }

  lemma ThriftyStep(c: Core, t: Tid, th: Thread)
    requires Can(th, Run) && Thrifty(c, th)
    ensures var e := Perform(c, t, th, Run); !Wastes(e) && Thrifty(e.core, e.thread)
  {
    hide Notify, Without, Remove, Drop, Listen, RunSend, RunHalter, RunAddress;
    if th.todo == [] && !th.proc.Inbox? {
      OnlyInboxesAreTold(c, t, th.proc);
    }
  }

  lemma OnlyInboxesAreTold(c: Core, t: Tid, p: Proc)
    requires !p.Inbox?
    ensures !RunNext(c, t, p).note.ToldHalt? && !RunNext(c, t, p).thread.proc.Inbox?
  {
    hide Notify, Without, Remove, Drop, Listen;
  }

  lemma InitIsReached(s: State)
    requires Init(s) && s.history.mostLive <= 2
    ensures Reached(s.core, s.threads)
  {
    InitIsReachable(s);
    assert s == State(s.core, s.threads, s.history);
  }

  /** Thread t takes its next step, which leaves the given shared state and thread. */
  lemma Then(c: Core, threads: map<Tid, Thread>, t: Tid, act: Act, e: Effect)
    requires t in threads && Can(threads[t], act) && e == Perform(c, t, threads[t], act)
    requires Reached(c, threads) && !Wastes(e)
    ensures Reached(e.core, threads[t := e.thread])
  {
    hide Perform, Can, Reachable;
    var h: History :| h.mostLive <= 2 && h.wasted == 0 && Reachable(State(c, threads, h));
    var s' := ReachableStep(State(c, threads, h), On(t, act));
    assert s' == State(e.core, threads[t := e.thread], s'.history);
  }

  lemma Starts(c: Core, threads: map<Tid, Thread>, t: Tid, p: Proc)
    requires Reached(c, threads) && t !in threads && Startable(c, t, p)
    ensures Reached(c, threads[t := Thread([], p)])
  {
    hide Startable, Reachable;
    var h: History :| h.mostLive <= 2 && h.wasted == 0 && Reachable(State(c, threads, h));
    var s' := ReachableStep(State(c, threads, h), Begin(t, p));
  }

  lemma {:induction false} RunsAlone(c: Core, threads: map<Tid, Thread>, t: Tid, n: nat)
    requires Reached(c, threads) && t in threads && Thrifty(c, threads[t])
    ensures var r := RunAlone(c, t, threads[t], n); Reached(r.0, threads[t := r.1])
    decreases n
  {
    hide Perform, Can, Reached, Thrifty;
    if n == 0 || !Can(threads[t], Run) {
      assert threads[t := threads[t]] == threads;
    } else {
      var e := Perform(c, t, threads[t], Run);
      ThriftyStep(c, t, threads[t]);
      Then(c, threads, t, Run, e);
      var m := threads[t := e.thread];
      RunsAlone(e.core, m, t, n - 1);
      var r := RunAlone(e.core, t, e.thread, n - 1);
      assert m[t := r.1] == threads[t := r.1];
    }
  }

  /** Thread t runs uninterrupted for a while. */
  lemma ThenLeads(c: Core, threads: map<Tid, Thread>, t: Tid, c': Core, th': Thread)
    requires Reached(c, threads) && t in threads && Leads(c, t, threads[t], c', th') && Thrifty(c, threads[t])
    ensures Reached(c', threads[t := th'])
  {
    hide RunAlone, Reached, Thrifty;
    var n: nat :| RunAlone(c, t, threads[t], n) == (c', th');
    RunsAlone(c, threads, t, n);
  }

  /** A step of thread t, and then more of it. */
  lemma ThenThenLeads(c: Core, threads: map<Tid, Thread>, t: Tid, act: Act, e: Effect, c': Core, th': Thread)
    requires t in threads && Can(threads[t], act) && e == Perform(c, t, threads[t], act)
    requires Reached(c, threads) && Leads(e.core, t, e.thread, c', th')
    requires !Wastes(e) && Thrifty(e.core, e.thread)
    ensures Reached(c', threads[t := th'])
  {
    hide Perform, Can, Reached, Leads, Thrifty;
    Then(c, threads, t, act, e);
    var m := threads[t := e.thread];
    ThenLeads(e.core, m, t, c', th');
    assert m[t := th'] == threads[t := th'];
  }

  // ---------------------------------------------------------------------------------------
  // Parts of a run
  // ---------------------------------------------------------------------------------------

  function InboxAt(signaled: bool, pc: RecvPc): Thread {
    Thread([], Inbox(signaled, pc))
  }

  function SendAt(m: Message, pc: SendPc): Thread {
    Thread([], Send(m, pc))
  }

  /** A call of halt_some(1), from beginning to end. */
  lemma HaltOne(c: Core, threads: map<Tid, Thread>, t: Tid)
    requires Reached(c, threads) && t !in threads && c.haltCount == 0
    ensures Reached(c.(haltCount := 1, recvEvent := NotifyAll(c.recvEvent)),
                    threads[t := Thread([], Halter(1, Complete))])
  {
    hide Notify, Reached, Leads;
    Starts(c, threads, t, Halter(1, Crediting));
    var m := threads[t := Thread([], Halter(1, Crediting))];
    HaltSomeAgrees(c, t, 1);
    var done := Thread([], Halter(1, Complete));
    ThenLeads(c, m, t, HaltedSome(c, 1), done);
    assert m[t := done] == threads[t := done];
  }

  /** A call of try_recv, from beginning to end. */
  lemma TriesOnce(c: Core, threads: map<Tid, Thread>, t: Tid, signaled: bool, v: Verdict)
    requires Reached(c, threads) && t in threads && threads[t] == InboxAt(signaled, Idle(v))
    ensures var answer := TryRecvAnswer(c, signaled);
            Reached(AfterTryRecv(c, signaled),
                    threads[t := InboxAt(signaled || answer == Err(Halted), Idle(VerdictOf(answer)))])
  {
    hide Notify, Reached, Leads, RunNext, AfterTryRecv;
    var answer := TryRecvAnswer(c, signaled);
    TryRecvAgrees(c, t, signaled);
    ThenThenLeads(c, threads, t, TryOnce, Effect(c, InboxAt(signaled, Trying(Once, Entry(signaled))), Nothing),
                  AfterTryRecv(c, signaled), InboxAt(signaled || answer == Err(Halted), Idle(VerdictOf(answer))));
  }

  /** A receiver is polled, registers and finds nothing, but has not polled its listener yet. */
  lemma Looks(c: Core, threads: map<Tid, Thread>, t: Tid, signaled: bool, v: Verdict)
    requires Reached(c, threads) && t in threads && threads[t] == InboxAt(signaled, Idle(v))
    requires TryRecvAnswer(c, signaled) == Err(Empty) && !Active(c.recvEvent, t)
    ensures Reached(c.(recvEvent := Listen(c.recvEvent, t)), threads[t := InboxAt(signaled, Looking)])
  {
    hide Notify, Reached, Leads;
    var registering, looking := InboxAt(signaled, Registering), InboxAt(signaled, Looking);
    EmptyAttempt(c, t, signaled, First);
    ThenThenLeads(c, threads, t, Repoll, Effect(c, InboxAt(signaled, Trying(First, Entry(signaled))), Nothing),
                  c, registering);
    var m := threads[t := registering];
    var c' := c.(recvEvent := Listen(c.recvEvent, t));
    EmptyAttempt(c', t, signaled, Second);
    ThenThenLeads(c, m, t, Run, Effect(c', InboxAt(signaled, Trying(Second, Entry(signaled))), Nothing), c', looking);
    assert m[t := looking] == threads[t := looking];
  }

  /** A receiver is polled and parks. */
  lemma Parks(c: Core, threads: map<Tid, Thread>, t: Tid, signaled: bool, v: Verdict)
    requires Reached(c, threads) && t in threads && threads[t] == InboxAt(signaled, Idle(v))
    requires TryRecvAnswer(c, signaled) == Err(Empty) && !Active(c.recvEvent, t)
    ensures Reached(c.(recvEvent := Listen(c.recvEvent, t)), threads[t := InboxAt(signaled, Parked)])
  {
    hide Notify, Reached, Leads, RunNext;
    PendingPollAgrees(c, t, signaled);
    ThenThenLeads(c, threads, t, Repoll, Effect(c, InboxAt(signaled, Trying(First, Entry(signaled))), Nothing),
                  c.(recvEvent := Listen(c.recvEvent, t)), InboxAt(signaled, Parked));
  }

  /** A call of send_now while there is room, and the end of the caller. */
  lemma Sends(c: Core, threads: map<Tid, Thread>, letter: Message)
    requires Reached(c, threads) && letter.tag !in threads
    requires PushAnswer(c) == None && c.sendEvent == NO_LISTENERS
    ensures Reached(Pushed(c, letter), threads[letter.tag := SendAt(letter, Released(true, None))])
  {
    hide Notify, Reached, Leads;
    var start, finished := SendAt(letter, Pushing(Once)), SendAt(letter, Finished(true, None));
    Starts(c, threads, letter.tag, start.proc);
    var m := threads[letter.tag := start];
    ReadySendAgrees(c, letter.tag, letter, Once);
    ThenLeads(c, m, letter.tag, Pushed(c, letter), finished);
    Leaves(Pushed(c, letter), m[letter.tag := finished], letter);
    var m': map<Tid, Thread> := m[letter.tag := finished];
    var released := SendAt(letter, Released(true, None));
    assert m'[letter.tag := released] == threads[letter.tag := released];
  }

  /** A completed send future that holds no listener is dropped. */
  lemma Leaves(c: Core, threads: map<Tid, Thread>, letter: Message)
    requires Reached(c, threads) && letter.tag in threads
    requires threads[letter.tag] == SendAt(letter, Finished(true, None)) && !Active(c.sendEvent, letter.tag)
    ensures Reached(c, threads[letter.tag := SendAt(letter, Released(true, None))])
  {
    hide Reached, Drop, Active;
    DropInactive(c.sendEvent, letter.tag);
    Then(c, threads, letter.tag, Abandon, Effect(c, SendAt(letter, Released(true, None)), Nothing));
  }

  /** A sender finds the queue full and registers, but has not polled its listener yet. */
  lemma SenderLooks(c: Core, threads: map<Tid, Thread>, m: Message)
    requires Reached(c, threads) && m.tag !in threads && c.capacity.Bounded?
    requires PushAnswer(c) == Some(QueueFull) && !Active(c.sendEvent, m.tag)
    ensures Reached(c.(sendEvent := Listen(c.sendEvent, m.tag)), threads[m.tag := SendAt(m, SendLooking)])
  {
    hide Notify, Reached, Leads;
    var t, start := m.tag, SendAt(m, Pushing(First));
    var registering, looking := SendAt(m, SendRegistering), SendAt(m, SendLooking);
    Starts(c, threads, t, start.proc);
    var m0 := threads[t := start];
    FullAttempt(c, t, m, First);
    ThenLeads(c, m0, t, c, registering);
    var m1 := m0[t := registering];
    var c' := c.(sendEvent := Listen(c.sendEvent, t));
    FullAttempt(c', t, m, Second);
    ThenThenLeads(c, m1, t, Run, Effect(c', SendAt(m, Pushing(Second)), Nothing), c', looking);
    assert m1[t := looking] == threads[t := looking];
  }

  /** A sender finds the queue full and parks. */
  lemma SenderParks(c: Core, threads: map<Tid, Thread>, m: Message)
    requires Reached(c, threads) && m.tag !in threads && c.capacity.Bounded?
    requires PushAnswer(c) == Some(QueueFull) && !Active(c.sendEvent, m.tag)
    ensures Reached(c.(sendEvent := Listen(c.sendEvent, m.tag)), threads[m.tag := SendAt(m, SendParked)])
  {
    hide Notify, Reached, Leads;
    var start, parked := SendAt(m, Pushing(First)), SendAt(m, SendParked);
    Starts(c, threads, m.tag, start.proc);
    var m0 := threads[m.tag := start];
    PendingSendAgrees(c, m.tag, m);
    ThenLeads(c, m0, m.tag, c.(sendEvent := Listen(c.sendEvent, m.tag)), parked);
    assert m0[m.tag := parked] == threads[m.tag := parked];
  }

  // ---------------------------------------------------------------------------------------
  // A receiver that was told to halt is stranded
  // ---------------------------------------------------------------------------------------

  const LETTER := Message(5, 0)
  const DONE := Thread([], Halter(1, Complete))
  const START := InboxAt(false, Idle(NoVerdict))
  const TOLD := InboxAt(true, Idle(Refused(Halted)))
  const SENT := SendAt(LETTER, Released(true, None))

  /** A channel with two inboxes, bounded by one message. */
  function Shared(queue: seq<Message>, recvEvent: Event, haltCount: i32): Core {
    Core(Bounded(1), queue, false, recvEvent, NO_LISTENERS, NO_LISTENERS, haltCount, 2, 0)
  }

  /** Inboxes 1 and 2, after halter 3, and after halter 4 and sender 5. */
  function Early(one: Thread, two: Thread): map<Tid, Thread> {
    map[1 := one, 2 := two, 3 := DONE]
  }

  function Late(one: Thread, two: Thread): map<Tid, Thread> {
    map[1 := one, 2 := two, 3 := DONE, 4 := DONE]
  }

  function Last(one: Thread, two: Thread): map<Tid, Thread> {
    map[1 := one, 2 := two, 3 := DONE, 4 := DONE, 5 := SENT]
  }

  lemma NotificationsOfTheRun()
    ensures NotifyAll(NO_LISTENERS) == NO_LISTENERS
    ensures NotifyAll(Event([], [2])) == Event([2], [])
    ensures Notify(Event([2], [1]), 1) == Event([2], [1])
  {
    hide Notify;
    NotifyAllReachesEveryone(NO_LISTENERS);
    NotifyAllReachesEveryone(Event([], [2]));
    assert [] + [2] == [2];
    NotifiedAlready(Event([2], [1]), 1);
  }

  /** One halt_some(1), and inbox 1 is told. */
  lemma OneTold()
    ensures Reached(Shared([], NO_LISTENERS, 0), Early(TOLD, START))
  {
    hide Notify, Reached, AfterTryRecv;
    var threads := map[1 := START, 2 := START];
    var s := State(Shared([], NO_LISTENERS, 0), threads, History([], [], [], [], 0, 0, false, 2));
    assert (set t | t in s.threads && s.threads[t].proc.Inbox?) == {1, 2};
    assert (set t | t in s.threads && s.threads[t].proc.Address?) == {};
    InitIsReached(s);
    NotificationsOfTheRun();
    HaltOne(Shared([], NO_LISTENERS, 0), threads, 3);
    TellsOne(threads[3 := DONE]);
  }

  lemma TellsOne(threads: map<Tid, Thread>)
    requires threads == Early(START, START) && Reached(Shared([], NO_LISTENERS, 1), threads)
    ensures Reached(Shared([], NO_LISTENERS, 0), Early(TOLD, START))
  {
    hide Reached;
    TriesOnce(Shared([], NO_LISTENERS, 1), threads, 1, false, NoVerdict);
    assert threads[1 := TOLD] == Early(TOLD, START);
  }

  /** Inbox 2 registers; a second halt_some(1) notifies it, while it has not looked at its listener yet. */
  lemma TwoNotified()
    ensures Reached(Shared([], Event([2], []), 1), Late(TOLD, InboxAt(false, Looking)))
  {
    hide Notify, Reached;
    OneTold();
    NotificationsOfTheRun();
    assert Listen(NO_LISTENERS, 2) == Event([], [2]);
    Looks(Shared([], NO_LISTENERS, 0), Early(TOLD, START), 2, false, NoVerdict);
    var m := Early(TOLD, InboxAt(false, Looking));
    assert Early(TOLD, START)[2 := InboxAt(false, Looking)] == m;
    HaltOne(Shared([], Event([], [2]), 0), m, 4);
    assert m[4 := DONE] == Late(TOLD, InboxAt(false, Looking));
  }

  /** Inbox 1 receives again and parks; then a message arrives, whose notification counts as given. */
  lemma LetterSent()
    ensures Reached(Shared([LETTER], Event([2], [1]), 1), Last(InboxAt(true, Parked), InboxAt(false, Looking)))
  {
    hide Notify, Reached;
    TwoNotified();
    NotificationsOfTheRun();
    assert Listen(Event([2], []), 1) == Event([2], [1]);
    Parks(Shared([], Event([2], []), 1), Late(TOLD, InboxAt(false, Looking)), 1, true, Refused(Halted));
    var m := Late(InboxAt(true, Parked), InboxAt(false, Looking));
    assert Late(TOLD, InboxAt(false, Looking))[1 := InboxAt(true, Parked)] == m;
    Sends(Shared([], Event([2], [1]), 1), m, LETTER);
    assert [] + [LETTER] == [LETTER];
    assert m[5 := SENT] == Last(InboxAt(true, Parked), InboxAt(false, Looking));
  }

  /** Inbox 2 consumes that notification, and finds the counter positive. */
  lemma NotificationConsumed()
    ensures Reached(Shared([LETTER], Event([], [1]), 1),
                    Last(InboxAt(true, Parked), InboxAt(false, Trying(Third, Subtract))))
  {
    hide Notify, Reached;
    LetterSent();
    var c := Shared([LETTER], Event([], [1]), 1);
    assert Without([2], 2) == [] && Without([1], 2) == [1];
    var m := Last(InboxAt(true, Parked), InboxAt(false, Looking));
    var m' := Last(InboxAt(true, Parked), InboxAt(false, Trying(Third, Load)));
    Then(Shared([LETTER], Event([2], [1]), 1), m, 2, Run, Effect(c, InboxAt(false, Trying(Third, Load)), Nothing));
    assert m[2 := InboxAt(false, Trying(Third, Load))] == m';
    Then(c, m', 2, Run, Effect(c, InboxAt(false, Trying(Third, Subtract)), Nothing));
    assert m'[2 := InboxAt(false, Trying(Third, Subtract))]
           == Last(InboxAt(true, Parked), InboxAt(false, Trying(Third, Subtract)));
  }

  /** Inbox 2 is told to halt, and returns. */
  lemma StrandedIsReached() returns (s: State)
    ensures Reachable(s) && s.history.mostLive <= 2 && s.history.wasted == 1
    ensures s.core == Shared([LETTER], Event([], [1]), 0) && s.threads == Last(InboxAt(true, Parked), TOLD)
  {
    hide Notify, Reachable, Drop;
    NotificationConsumed();
    var c := Shared([LETTER], Event([], [1]), 1);
    var threads := Last(InboxAt(true, Parked), InboxAt(false, Trying(Third, Subtract)));
    var h: History :| h.mostLive <= 2 && h.wasted == 0 && Reachable(State(c, threads, h));
    var s1 := ReachableStep(State(c, threads, h), On(2, Run));
    DropInactive(Event([], [1]), 2);
    assert s1.threads[2] == InboxAt(true, Settling(Refused(Halted)));
    s := ReachableStep(s1, On(2, Run));
  }

  lemma StrandedIsAtRest(s: State)
    requires s.threads == Last(InboxAt(true, Parked), TOLD) && s.core == Shared([LETTER], Event([], [1]), 0)
    ensures AtRest(s)
  {
    forall step ensures !Driven(s, step) {
      if step.On? && step.t in s.threads {
        assert s.threads.Keys == {1, 2, 3, 4, 5};
      }
    }
  }

  /** At rest, a receiver is parked although a message waits in an open channel. */
  ghost predicate Stranded(s: State, r: Tid) {
    && Reachable(s) && AtRest(s)
    && ParkedReceiver(s, r) && s.core.queue != [] && !s.core.closed
  }

  /**
  Stranding a receiver takes one inbox that was told to halt right after consuming a notification, and one is
  enough; and exactly a receiver that was told to halt itself can be stranded.
  */
  lemma ToldReceiverCanBeStranded(told: bool)
    ensures exists s, r :: Stranded(s, r) && Small(s) && s.history.wasted == 1
    ensures forall s, r :: Stranded(s, r) ==> s.history.wasted >= 1
    ensures (exists s, r :: Stranded(s, r) && Small(s) && s.threads[r].proc.signaled == told) <==> told
  {
    var s := StrandedIsReached();
    StrandedIsAtRest(s);
    assert Stranded(s, 1) && Small(s) && s.threads[1].proc.signaled;
    forall s, r | Stranded(s, r) ensures s.history.wasted >= 1 && (Small(s) ==> s.threads[r].proc.signaled) {
      NobodyIsStrandedAtRest(s, r);
    }
  }

  // ---------------------------------------------------------------------------------------
  // Free space may wake nobody
  // ---------------------------------------------------------------------------------------

  function Letter(t: Tid): Message {
    Message(t, 0)
  }

  function Posted(t: Tid): Thread {
    SendAt(Letter(t), Released(true, None))
  }

  function Received(t: Tid): Thread {
    InboxAt(false, Idle(Got(Letter(t))))
  }

  /** The messages of the senders 3, 4, and so on. */
  function Letters(n: nat): (queue: seq<Message>)
    ensures |queue| == n
    ensures forall i :: 0 <= i < n ==> queue[i] == Letter(i + 3)
  {
    seq(n, i requires 0 <= i < n => Letter(i + 3))
  }

  /** A channel with one inbox, of any bounded size. */
  function Sized(size: usize, queue: seq<Message>, sendEvent: Event): Core {
    Core(Bounded(size), queue, false, NO_LISTENERS, sendEvent, NO_LISTENERS, 0, 1, 0)
  }

  /** Inbox 0, and n senders that are done. */
  function Fillers(n: nat): map<Tid, Thread> {
    map t: Tid | t < n + 3 && t != 1 && t != 2 :: if t == 0 then START else Posted(t)
  }

  /** The same with the senders 1 and 2. */
  function Crowd(n: nat, inbox: Thread, one: Thread, two: Thread): map<Tid, Thread> {
    map t: Tid | t < n + 3 :: if t == 0 then inbox else if t == 1 then one else if t == 2 then two else Posted(t)
  }

  const ONE_LOOKS := SendAt(Letter(1), SendLooking)
  const TWO_PARKED := SendAt(Letter(2), SendParked)

  lemma NotificationsOfTheSenders()
    ensures Notify(NO_LISTENERS, 1) == NO_LISTENERS
    ensures Notify(Event([], [1, 2]), 1) == Event([1], [2])
    ensures Notify(Event([1], [2]), 1) == Event([1], [2])
  {
    assert [1, 2][..1] == [1] && [1, 2][1..] == [2];
    NotifiedAlready(Event([1], [2]), 1);
  }

  /** The senders fill the queue one after the other. */
  lemma {:induction false} QueueFills(size: usize, n: nat)
    requires 0 < size && n <= size
    ensures Reached(Sized(size, Letters(n), NO_LISTENERS), Fillers(n))
    decreases n
  {
    hide Notify, Reached;
    if n == 0 {
      EmptyIsReached(size);
    } else {
      QueueFills(size, n - 1);
      NotificationsOfTheSenders();
      Sends(Sized(size, Letters(n - 1), NO_LISTENERS), Fillers(n - 1), Letter(n + 2));
      assert Letters(n - 1) + [Letter(n + 2)] == Letters(n);
      assert Fillers(n - 1)[n + 2 := Posted(n + 2)] == Fillers(n);
    }
  }

  lemma EmptyIsReached(size: usize)
    requires 0 < size
    ensures Reached(Sized(size, Letters(0), NO_LISTENERS), Fillers(0))
  {
    hide Reached;
    assert Fillers(0) == map[0 := START] && Letters(0) == [];
    var s := State(Sized(size, [], NO_LISTENERS), map[0 := START], History([], [], [], [], 0, 0, false, 1));
    assert (set t | t in s.threads && s.threads[t].proc.Inbox?) == {0};
    assert (set t | t in s.threads && s.threads[t].proc.Address?) == {};
    InitIsReached(s);
  }

  /** Sender 1 has registered but not looked at its listener yet; sender 2 has parked. */
  lemma SendersWait(size: usize)
    requires 0 < size
    ensures Reached(Sized(size, Letters(size), Event([], [1, 2])), Crowd(size, START, ONE_LOOKS, TWO_PARKED))
  {
    hide Notify, Reached;
    QueueFills(size, size);
    assert Listen(NO_LISTENERS, 1) == Event([], [1]) && Listen(Event([], [1]), 2) == Event([], [1, 2]);
    SenderLooks(Sized(size, Letters(size), NO_LISTENERS), Fillers(size), Letter(1));
    var m := Fillers(size)[1 := ONE_LOOKS];
    SenderParks(Sized(size, Letters(size), Event([], [1])), m, Letter(2));
    assert m[2 := TWO_PARKED] == Crowd(size, START, ONE_LOOKS, TWO_PARKED);
  }

  /** The inbox takes one message. */
  lemma Receives(size: usize, n: nat, queue: seq<Message>, sendEvent: Event, v: Verdict, t: Tid)
    requires queue != [] && queue[0] == Letter(t)
    requires Reached(Sized(size, queue, sendEvent), Crowd(n, InboxAt(false, Idle(v)), ONE_LOOKS, TWO_PARKED))
    ensures Reached(Sized(size, queue[1..], Notify(sendEvent, 1)), Crowd(n, Received(t), ONE_LOOKS, TWO_PARKED))
  {
    hide Notify, Reached;
    NotificationsOfTheSenders();
    var m := Crowd(n, InboxAt(false, Idle(v)), ONE_LOOKS, TWO_PARKED);
    TriesOnce(Sized(size, queue, sendEvent), m, 0, false, v);
    assert m[0 := Received(t)] == Crowd(n, Received(t), ONE_LOOKS, TWO_PARKED);
  }

  /** The inbox takes two messages; the second notification counts as given. */
  lemma BothReceived(size: usize)
    requires 2 <= size
    ensures Reached(Sized(size, Letters(size)[2..], Event([1], [2])), Crowd(size, Received(4), ONE_LOOKS, TWO_PARKED))
  {
    hide Notify, Reached;
    SendersWait(size);
    NotificationsOfTheSenders();
    var queue := Letters(size);
    Receives(size, size, queue, Event([], [1, 2]), NoVerdict, 3);
    Receives(size, size, queue[1..], Event([1], [2]), Got(Letter(3)), 4);
    assert queue[1..][1..] == queue[2..];
  }

  /** Sender 1 consumes the one notification and sends. */
  lemma SpaceIsLeft(size: usize)
    requires 2 <= size
    ensures Reached(Sized(size, Letters(size)[2..] + [Letter(1)], Event([], [2])),
                    Crowd(size, Received(4), Posted(1), TWO_PARKED))
  {
    hide Notify, Reached, Leads;
    BothReceived(size);
    NotificationsOfTheSenders();
    var m := Crowd(size, Received(4), ONE_LOOKS, TWO_PARKED);
    var c := Sized(size, Letters(size)[2..], Event([], [2]));
    assert Without([1], 1) == [] && Without([2], 1) == [2];
    ReadySendAgrees(c, 1, Letter(1), Third);
    var finished := SendAt(Letter(1), Finished(true, None));
    ThenThenLeads(Sized(size, Letters(size)[2..], Event([1], [2])), m, 1, Run,
                  Effect(c, SendAt(Letter(1), Pushing(Third)), Nothing), Pushed(c, Letter(1)), finished);
    assert Pushed(c, Letter(1)) == Sized(size, Letters(size)[2..] + [Letter(1)], Event([], [2]));
    var m' := m[1 := finished];
    Leaves(Pushed(c, Letter(1)), m', Letter(1));
    assert m'[1 := Posted(1)] == Crowd(size, Received(4), Posted(1), TWO_PARKED);
  }

  lemma SpaceIsAtRest(s: State, size: usize, queue: seq<Message>)
    requires s.threads == Crowd(size, Received(4), Posted(1), TWO_PARKED)
    requires s.core == Sized(size, queue, Event([], [2]))
    ensures AtRest(s)
  {
    forall step ensures !Driven(s, step) {
      if step.On? && step.t in s.threads {
        assert s.threads[step.t] in {Received(4), TWO_PARKED, Posted(step.t)};
      }
    }
  }

  /** At rest, a sender is parked although the bounded queue has room. */
  ghost predicate SpaceUnused(s: State, t: Tid, size: usize) {
    && Reachable(s) && AtRest(s)
    && s.core.capacity == Bounded(size) && ParkedSender(s, t) && |s.core.queue| < size
  }

  /**
  A sender can stay parked for good next to free space exactly from capacity two on, because one consumed
  notification may then stand for two pops. With capacity one the message that NoSendDeadlock leaves to it
  fills the queue.
  */
  lemma FreeSpaceMayWakeNobody(size: usize)
    requires 0 < size
    ensures (exists s, t :: SpaceUnused(s, t, size)) <==> size >= 2
  {
    if size >= 2 {
      SpaceIsLeft(size);
      var c := Sized(size, Letters(size)[2..] + [Letter(1)], Event([], [2]));
      var threads := Crowd(size, Received(4), Posted(1), TWO_PARKED);
      var h: History :| h.mostLive <= 2 && h.wasted == 0 && Reachable(State(c, threads, h));
      SpaceIsAtRest(State(c, threads, h), size, c.queue);
      assert SpaceUnused(State(c, threads, h), 2, size);
    } else if s, t :| SpaceUnused(s, t, size) {
      NobodyIsStrandedAtRest(s, t);
    }
  }
}
