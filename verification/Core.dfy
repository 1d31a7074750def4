/**
The shared state of a channel as a value, and the atomic accesses to it. The class in
Channel.dfy and the transition system in Protocol.dfy are both built from these accesses.

The queue is the specification this project assumes of the concurrent_queue library: a
linearizable sequence with an optional positive capacity and a monotone closed flag.
*/
module Core {
  import opened Wrappers
  import opened Config
  import opened Events

  /** A message: `tag` names the operation that submitted it, `body` is opaque. */
  datatype Message = Message(tag: nat, body: int)

  datatype Core = Core(
    capacity: Capacity,
    queue: seq<Message>,
    closed: bool,
    recvEvent: Event,
    sendEvent: Event,
    exitEvent: Event,
    haltCount: i32,
    inboxCount: nat,
    addressCount: nat)

  datatype TryRecvError = Halted | Empty | ClosedAndEmpty

  datatype PushError = QueueFull | QueueClosed

  /** The library refuses a bounded queue of size zero. */
  predicate ProperCapacity(c: Capacity) {
    match c
    case Bounded(size) => size > 0
    case Unbounded(bp) => Sound(bp)
  }

  predicate WithinCapacity(c: Core) {
    c.capacity.Bounded? ==> |c.queue| <= c.capacity.size
  }

  /** The number of messages, as the usize that msg_count returns. */
  function MsgCount(c: Core): usize {
    Min(|c.queue|, USIZE_MAX)
  }

  /** Back pressure applies: a send must wait, and a try_send is refused. */
  predicate MustWait(c: Core) {
    match c.capacity
    case Bounded(_) => false
    case Unbounded(bp) => Sound(bp) && GetTimeout(bp, MsgCount(c)).Some?
  }

  /** Back pressure applies exactly from starts_at queued messages on, and never on a bounded channel. */
  lemma MustWaitExactlyFromStart(c: Core)
    requires ProperCapacity(c.capacity)
    ensures MustWait(c) <==> c.capacity.Unbounded? && |c.queue| >= c.capacity.backPressure.startsAt
  {
    if c.capacity.Unbounded? {
      TimeoutExactlyFromStart(c.capacity.backPressure, MsgCount(c));
    }
  }

  /** How long it demands, in terms of the queue. */
  lemma WaitFollowsQueue(c: Core)
    requires ProperCapacity(c.capacity) && c.capacity.Unbounded?
    requires c.capacity.backPressure.startsAt <= |c.queue| < USIZE_MAX
    ensures var bp, over := c.capacity.backPressure, |c.queue| - c.capacity.backPressure.startsAt;
            match bp.growth
            case None => GetTimeout(bp, MsgCount(c)) == Some(Min(bp.baseNs * (over + 1), U64_MAX))
            case Some(factor) =>
              GetTimeout(bp, MsgCount(c)) == Some(SaturateToU64(IdealNanos(bp.baseNs, factor, Min(over, I32_MAX))))
  {
    var bp := c.capacity.backPressure;
    if bp.growth.None? {
      LinearFormulaExactlyWithoutOverflow(bp, |c.queue|);
    }
  }

  // ---------------------------------------------------------------------------------------
  // Queue accesses
  // ---------------------------------------------------------------------------------------

  /** What ConcurrentQueue::push answers; a closed queue says Closed even when it is full. */
  function PushAnswer(c: Core): Option<PushError> {
    if c.closed then Some(QueueClosed)
    else if c.capacity.Bounded? && |c.queue| >= c.capacity.size then Some(QueueFull)
    else None
  }

  function Push(c: Core, m: Message): Core {
    c.(queue := c.queue + [m])
  }

  /** What ConcurrentQueue::pop answers; Closed only when the queue is closed and empty. */
  function PopAnswer(c: Core): Result<Message, TryRecvError> {
    if c.queue != [] then Ok(c.queue[0])
    else if c.closed then Err(ClosedAndEmpty)
    else Err(Empty)
  }

  function Pop(c: Core): Core
    requires c.queue != []
  {
    c.(queue := c.queue[1..])
  }

  function CloseQueue(c: Core): Core {
    c.(closed := true)
  }

  // ---------------------------------------------------------------------------------------
  // The halt counter
  // ---------------------------------------------------------------------------------------

  /** AtomicI32::fetch_sub(1), which wraps around. */
  function Decremented(count: i32): i32 {
    if count == I32_MIN then I32_MAX else count - 1
  }

  /** The fetch_update of halt_some: a negative count reads as zero, the sum saturates. */
  function Credited(count: i32, n: u32): i32 {
    var credit := Min(n, I32_MAX);
    if count < 0 then credit else Min(count + credit, I32_MAX)
  }

  // ---------------------------------------------------------------------------------------
  // Notifications
  // ---------------------------------------------------------------------------------------

  /** One call of Event::notify: on which event, and for one listener or for all. */
  datatype Wake = RecvOne | RecvAll | SendOne | SendAll | ExitAll

  function Deliver(c: Core, w: Wake): Core {
    match w
    case RecvOne => c.(recvEvent := Notify(c.recvEvent, 1))
    case RecvAll => c.(recvEvent := NotifyAll(c.recvEvent))
    case SendOne => c.(sendEvent := Notify(c.sendEvent, 1))
    case SendAll => c.(sendEvent := NotifyAll(c.sendEvent))
    case ExitAll => c.(exitEvent := NotifyAll(c.exitEvent))
  }
}
