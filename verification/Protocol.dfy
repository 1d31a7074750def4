/**
The channel and its futures as a transition system. Any number of threads run inboxes, sends,
closers, halters and addresses; each atomic access to the shared state (a queue access, a load or
update of a counter, registering, polling or dropping a listener, one notify) is one step, and
any thread may move next.
*/
module Protocol {
  import opened Wrappers
  import opened Config
  import opened Events
  import opened Core

  type Tid = nat

  // ---------------------------------------------------------------------------------------
  // Program counters
  // ---------------------------------------------------------------------------------------

  /**
  Which attempt a thread is making: the first one of a poll, the one after registering, the
  one after consuming a notification, a single attempt outside a future, or the push of a
  try_send whose length check has passed.
  */
  datatype Attempt = First | Second | Third | Once | Checked

  /** The atomic accesses of try_recv: load the halt counter, subtract from it, pop the queue. */
  datatype Access = Load | Subtract | PopQueue

  datatype Verdict = NoVerdict | Got(msg: Message) | Refused(error: TryRecvError)

  datatype RecvPc =
    | Idle(latest: Verdict)
    | Trying(attempt: Attempt, access: Access)
    | Registering
    | Looking
    | Parked
    | Settling(verdict: Verdict)
    | Leaving
    | Closing
    | Draining
    | Gone(last: bool)

  datatype SendPc =
    | Checking
    | Sleeping
    | Pushing(attempt: Attempt)
    | SendRegistering
    | SendLooking
    | SendParked
    | Finished(sent: bool, back: Option<Message>)
    | Released(sent: bool, back: Option<Message>)

  datatype HaltPc = CloseFirst | Crediting | Complete

  /** The exit listener of an address; a consumed one must not be polled again. */
  datatype Slot = NoListener | Held | Consumed

  datatype AddressPc =
    | Resting
    | FirstCheck
    | Listening
    | SecondCheck
    | Watching
    | Waiting
    | Exited
    | Clearing
    | Dropped
    | Crashed

  datatype Proc =
    | Inbox(signaled: bool, recv: RecvPc)
    | Send(msg: Message, send: SendPc)
    | Closer(done: bool)
    | Halter(n: u32, halt: HaltPc)
    | Address(slot: Slot, watch: AddressPc)

  /** `todo` holds the notifications that follow the last state change and are still to come. */
  datatype Thread = Thread(todo: seq<Wake>, proc: Proc)

  // ---------------------------------------------------------------------------------------
  // The steps of one thread
  // ---------------------------------------------------------------------------------------

  /** What a step contributes to the history. */
  datatype Note =
    | Nothing
    | Accepted(m: Message)
    | Took(m: Message, received: bool)
    | ToldHalt(wasteful: bool)
    | Credit(n: u32)

  datatype Effect = Effect(core: Core, thread: Thread, note: Note)

  /** Continue without notifying anybody. */
  function Next(c: Core, p: Proc): Effect {
    Effect(c, Thread([], p), Nothing)
  }

  /** Where try_recv starts: a signalled inbox skips the halt check. */
  function Entry(signaled: bool): Access {
    if signaled then PopQueue else Load
  }

  /** A poll clears its listener slot once it has a result; try_recv on its own has no slot. */
  function Conclude(a: Attempt, v: Verdict): RecvPc {
    if a.Once? then Idle(v) else Settling(v)
  }

  function CloseWakes(c: Core): seq<Wake> {
    if c.closed then [] else [RecvAll, SendAll]
  }

  /** Where an attempt that found nothing goes on; the listener slot is full exactly while t is registered. */
  function FoundEmpty(c: Core, t: Tid, signaled: bool, a: Attempt): RecvPc {
    match a
    case First => if Active(c.recvEvent, t) then Trying(Second, Entry(signaled)) else Registering
    case Second => Looking
    case Third => Registering
    case Once => Idle(Refused(Empty))
    case Checked => Idle(Refused(Empty))
  }

  function RunTry(c: Core, t: Tid, signaled: bool, a: Attempt, access: Access): Effect {
    match access
    case Load =>
      Next(c, Inbox(signaled, Trying(a, if c.haltCount > 0 then Subtract else PopQueue)))
    case Subtract =>
      var c' := c.(haltCount := Decremented(c.haltCount));
      if c.haltCount > 0
      then Effect(c', Thread([], Inbox(true, Conclude(a, Refused(Halted)))), ToldHalt(a.Third?))
      else Next(c', Inbox(signaled, Trying(a, PopQueue)))
    case PopQueue =>
      match PopAnswer(c)
      case Ok(m) =>
        Effect(Pop(c), Thread([SendOne, RecvOne], Inbox(signaled, Conclude(a, Got(m)))), Took(m, true))
      case Err(Empty) => Next(c, Inbox(signaled, FoundEmpty(c, t, signaled, a)))
      case Err(e) => Next(c, Inbox(signaled, Conclude(a, Refused(e))))
  }

  /** The inbox between its polls and inside them, and the steps of remove_inbox. */
  function RunInbox(c: Core, t: Tid, signaled: bool, pc: RecvPc): Effect {
    match pc
    case Trying(a, access) => RunTry(c, t, signaled, a, access)
    case Registering =>
      Next(c.(recvEvent := Listen(c.recvEvent, t)), Inbox(signaled, Trying(Second, Entry(signaled))))
    case Looking =>
      if t in c.recvEvent.woken
      then Next(c.(recvEvent := Remove(c.recvEvent, t)), Inbox(signaled, Trying(Third, Entry(signaled))))
      else Next(c, Inbox(signaled, Parked))
    case Settling(v) => Next(c.(recvEvent := Drop(c.recvEvent, t)), Inbox(signaled, Idle(v)))
    case Leaving =>
      Next(c.(inboxCount := Max(c.inboxCount - 1, 0)),
           Inbox(signaled, if c.inboxCount == 1 then Closing else Gone(false)))
    case Closing =>
      Effect(CloseQueue(c), Thread(CloseWakes(c) + [ExitAll], Inbox(signaled, Draining)), Nothing)
    case Draining =>
      if c.queue == [] then Next(c, Inbox(signaled, Gone(true)))
      else Effect(Pop(c), Thread([SendOne, RecvOne], Inbox(signaled, Draining)), Took(c.queue[0], false))
    case _ => Next(c, Inbox(signaled, pc))
  }

  function FoundFull(c: Core, t: Tid, m: Message, a: Attempt): SendPc {
    match a
    case First => if Active(c.sendEvent, t) then Pushing(Second) else SendRegistering
    case Second => SendLooking
    case Third => SendRegistering
    case Once => Finished(false, Some(m))
    case Checked => Finished(false, Some(m))
  }

  function RunSend(c: Core, t: Tid, m: Message, pc: SendPc): Effect {
    match pc
    case Checking => Next(c, Send(m, if MustWait(c) then Finished(false, Some(m)) else Pushing(Checked)))
    case Pushing(a) =>
      (match PushAnswer(c)
       case None => Effect(Push(c, m), Thread([RecvOne], Send(m, Finished(true, None))), Accepted(m))
       case Some(QueueFull) => Next(c, Send(m, FoundFull(c, t, m, a)))
       case Some(QueueClosed) => Next(c, Send(m, Finished(false, Some(m)))))
    case SendRegistering => Next(c.(sendEvent := Listen(c.sendEvent, t)), Send(m, Pushing(Second)))
    case SendLooking =>
      if t in c.sendEvent.woken
      then Next(c.(sendEvent := Remove(c.sendEvent, t)), Send(m, Pushing(Third)))
      else Next(c, Send(m, SendParked))
    case _ => Next(c, Send(m, pc))
  }

  function RunHalter(c: Core, n: u32, pc: HaltPc): Effect {
    match pc
    case CloseFirst => Effect(CloseQueue(c), Thread(CloseWakes(c), Halter(n, Crediting)), Nothing)
    case Crediting =>
      Effect(c.(haltCount := Credited(c.haltCount, n)), Thread([RecvAll], Halter(n, Complete)), Credit(n))
    case Complete => Next(c, Halter(n, pc))
  }

  function RunAddress(c: Core, t: Tid, slot: Slot, pc: AddressPc): Effect {
    match pc
    case FirstCheck =>
      Next(c, Address(slot, if c.inboxCount == 0 then Exited
                            else if slot.NoListener? then Listening else SecondCheck))
    case Listening => Next(c.(exitEvent := Listen(c.exitEvent, t)), Address(Held, SecondCheck))
    case SecondCheck => Next(c, Address(slot, if c.inboxCount == 0 then Exited else Watching))
    case Watching =>
      if slot.Consumed? then Next(c, Address(slot, Crashed))
      else if t in c.exitEvent.woken
      then Next(c.(exitEvent := Remove(c.exitEvent, t)), Address(Consumed, Exited))
      else Next(c, Address(slot, Waiting))
    case Clearing => Next(c.(exitEvent := Drop(c.exitEvent, t)), Address(NoListener, Dropped))
    case _ => Next(c, Address(slot, pc))
  }

  /**
  What a thread may do next: carry on with its code; be polled again by its owner; try once
  without a future; drop the future or the address; drop the inbox.
  */
  datatype Act = Run | Repoll | TryOnce | Abandon | Retire

  predicate HasNext(p: Proc) {
    match p
    case Inbox(_, pc) => !pc.Idle? && !pc.Parked? && !pc.Gone?
    case Send(_, pc) => pc.Checking? || pc.Pushing? || pc.SendRegistering? || pc.SendLooking?
    case Closer(done) => !done
    case Halter(_, pc) => !pc.Complete?
    case Address(_, pc) =>
      pc.FirstCheck? || pc.Listening? || pc.SecondCheck? || pc.Watching? || pc.Clearing?
  }

  predicate Can(th: Thread, act: Act) {
    if act.Run? then th.todo != [] || HasNext(th.proc)
    else
      && th.todo == []
      && match act
         case Repoll =>
           || (th.proc.Inbox? && (th.proc.recv.Idle? || th.proc.recv.Parked?))
           || (th.proc.Send? && (th.proc.send.SendParked? || th.proc.send.Sleeping?))
           || (th.proc.Address? && (th.proc.watch.Resting? || th.proc.watch.Waiting? || th.proc.watch.Exited?))
         case TryOnce => th.proc.Inbox? && th.proc.recv.Idle?
         case Abandon =>
           || (th.proc.Inbox? && th.proc.recv.Parked?)
           || (th.proc.Send? && (th.proc.send.SendParked? || th.proc.send.Sleeping? || th.proc.send.Finished?))
           || (th.proc.Address? && (th.proc.watch.Resting? || th.proc.watch.Waiting? || th.proc.watch.Exited?))
         case Retire => th.proc.Inbox? && th.proc.recv.Idle?
         case Run => false
  }

  /** Deliver the next notification that the thread owes. */
  function Flush(c: Core, th: Thread): Effect
    requires th.todo != []
  {
    Effect(Deliver(c, th.todo[0]), Thread(th.todo[1..], th.proc), Nothing)
  }

  function RunNext(c: Core, t: Tid, p: Proc): Effect {
    match p
    case Inbox(signaled, pc) => RunInbox(c, t, signaled, pc)
    case Send(m, pc) => RunSend(c, t, m, pc)
    case Closer(_) => Effect(CloseQueue(c), Thread(CloseWakes(c), Closer(true)), Nothing)
    case Halter(n, pc) => RunHalter(c, n, pc)
    case Address(slot, pc) => RunAddress(c, t, slot, pc)
  }

  function Repolled(c: Core, p: Proc): Effect {
    match p
    case Inbox(signaled, _) => Next(c, Inbox(signaled, Trying(First, Entry(signaled))))
    case Send(m, pc) => Next(c, Send(m, Pushing(if pc.Sleeping? then Once else First)))
    case Address(slot, _) => Next(c, Address(slot, FirstCheck))
    case _ => Next(c, p)
  }

  function Abandoned(c: Core, t: Tid, p: Proc): Effect {
    match p
    case Inbox(signaled, _) =>
      Next(c.(recvEvent := Drop(c.recvEvent, t)), Inbox(signaled, Idle(NoVerdict)))
    case Send(m, pc) =>
      var left := if pc.Finished? then Released(pc.sent, pc.back) else Released(false, None);
      Next(c.(sendEvent := Drop(c.sendEvent, t)), Send(m, left))
    case Address(slot, _) => Next(c.(addressCount := Max(c.addressCount - 1, 0)), Address(slot, Clearing))
    case _ => Next(c, p)
  }

  /** The step of one thread, which depends on the shared state and on that thread alone. */
  function Perform(c: Core, t: Tid, th: Thread, act: Act): Effect
    requires Can(th, act)
  {
    match act
    case Run => if th.todo != [] then Flush(c, th) else RunNext(c, t, th.proc)
    case Repoll => Repolled(c, th.proc)
    case TryOnce =>
      Next(c, Inbox(th.proc.signaled, Trying(Once, Entry(th.proc.signaled))))
    case Abandon => Abandoned(c, t, th.proc)
    case Retire => Next(c, Inbox(th.proc.signaled, Leaving))
  }

  // ---------------------------------------------------------------------------------------
  // The system
  // ---------------------------------------------------------------------------------------

  datatype Taken = Taken(taker: Tid, msg: Message, received: bool)

  /** What a receive or try_recv of an inbox returned to its caller. */
  datatype Answer = Answer(inbox: Tid, verdict: Verdict)

  /**
  History variables, which no step reads: the accepted pushes, the messages popped and by whom,
  what the inboxes returned to their callers, the inboxes told to halt, how many of them had just
  consumed a notification, the credits issued to the halt counter, whether a total halt has taken
  effect, and the most inboxes ever live at once.
  */
  datatype History = History(
    accepted: seq<Message>,
    taken: seq<Taken>,
    answers: seq<Answer>,
    halted: seq<Tid>,
    wasted: nat,
    issued: int,
    total: bool,
    mostLive: nat)

  datatype State = State(core: Core, threads: map<Tid, Thread>, history: History)

  datatype Step =
    | On(t: Tid, act: Act)
    | Spawn(t: Tid)
    | Begin(t: Tid, proc: Proc)
    | Clone(t: Tid)

  predicate Live(th: Thread) {
    th.proc.Inbox? && !th.proc.recv.Closing? && !th.proc.recv.Draining? && !th.proc.recv.Gone?
  }

  /** What a call on a channel starts as. A message is named after the call that submits it. */
  predicate Startable(c: Core, t: Tid, p: Proc) {
    match p
    case Send(m, pc) =>
      && m.tag == t
      && (match pc
          case Checking => c.capacity.Unbounded?
          case Sleeping => c.capacity.Unbounded?
          case Pushing(First) => c.capacity.Bounded?
          case Pushing(Once) => true
          case _ => false)
    case Closer(done) => !done
    case Halter(n, pc) => pc.Crediting? || (pc.CloseFirst? && n == U32_MAX)
    case _ => false
  }

  predicate Enabled(s: State, step: Step) {
    match step
    case On(t, act) => t in s.threads && Can(s.threads[t], act)
    case Spawn(t) => t !in s.threads && s.core.inboxCount > 0
    case Begin(t, p) => t !in s.threads && Startable(s.core, t, p)
    case Clone(t) => t !in s.threads
  }

  /** The credits that a request for n really issues: n, cut only where the counter would exceed i32::MAX. */
  function Effective(count: i32, n: u32): nat {
    Min(n, I32_MAX - Max(count, 0))
  }

  function Record(h: History, t: Tid, before: Core, note: Note): History {
    match note
    case Nothing => h
    case Accepted(m) => h.(accepted := h.accepted + [m])
    case Took(m, received) => h.(taken := h.taken + [Taken(t, m, received)])
    case ToldHalt(wasteful) => h.(halted := h.halted + [t], wasted := h.wasted + if wasteful then 1 else 0)
    case Credit(n) =>
      h.(issued := h.issued + Effective(before.haltCount, n),
         total := h.total || n >= I32_MAX)
  }

  /** The verdict with which a call on an inbox returns in this step, if it does. */
  function Returned(before: Thread, after: Thread): Option<Verdict> {
    if before.proc.Inbox? && !before.proc.recv.Idle?
       && after.proc.Inbox? && after.proc.recv.Idle? && !after.proc.recv.latest.NoVerdict?
    then Some(after.proc.recv.latest)
    else None
  }

  function Reply(h: History, t: Tid, v: Option<Verdict>): History {
    if v.Some? then h.(answers := h.answers + [Answer(t, v.value)]) else h
  }

  function After(s: State, t: Tid, e: Effect): State
    requires t in s.threads
  {
    State(e.core, s.threads[t := e.thread],
          Reply(Record(s.history, t, s.core, e.note), t, Returned(s.threads[t], e.thread)))
  }

  function Apply(s: State, step: Step): State
    requires Enabled(s, step)
  {
    match step
    case On(t, act) => After(s, t, Perform(s.core, t, s.threads[t], act))
    case Spawn(t) =>
      var count := s.core.inboxCount + 1;
      State(s.core.(inboxCount := count),
            s.threads[t := Thread([], Inbox(false, Idle(NoVerdict)))],
            s.history.(mostLive := Max(s.history.mostLive, count)))
    case Begin(t, p) => s.(threads := s.threads[t := Thread([], p)])
    case Clone(t) =>
      s.(core := s.core.(addressCount := s.core.addressCount + 1),
         threads := s.threads[t := Thread([], Address(NoListener, Resting))])
  }

  // ---------------------------------------------------------------------------------------
  // Runs
  // ---------------------------------------------------------------------------------------

  /** A freshly spawned channel: at least one inbox, some addresses, nothing in flight. */
  ghost predicate Init(s: State) {
    && ProperCapacity(s.core.capacity)
    && s.core == Core(s.core.capacity, [], false, NO_LISTENERS, NO_LISTENERS, NO_LISTENERS,
                      0, s.core.inboxCount, s.core.addressCount)
    && (forall t :: t in s.threads ==>
          || s.threads[t] == Thread([], Inbox(false, Idle(NoVerdict)))
          || s.threads[t] == Thread([], Address(NoListener, Resting)))
    && s.core.inboxCount == |set t | t in s.threads && s.threads[t].proc.Inbox?|
    && s.core.addressCount == |set t | t in s.threads && s.threads[t].proc.Address?|
    && s.core.inboxCount >= 1
    && s.history == History([], [], [], [], 0, 0, false, s.core.inboxCount)
  }

  predicate Valid(s: State, steps: seq<Step>)
    decreases |steps|
  {
    steps == [] || (Enabled(s, steps[0]) && Valid(Apply(s, steps[0]), steps[1..]))
  }

  function Exec(s: State, steps: seq<Step>): State
    requires Valid(s, steps)
    decreases |steps|
  {
    if steps == [] then s else Exec(Apply(s, steps[0]), steps[1..])
  }

  ghost predicate Reaches(s: State, s': State) {
    exists steps :: Valid(s, steps) && Exec(s, steps) == s'
  }

  ghost predicate Reachable(s: State) {
    exists s0 :: Init(s0) && Reaches(s0, s)
  }
}
