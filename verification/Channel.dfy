/**
The channel as an object whose fields are updated in place. Each method is proved against the value
of the shared state (Core.dfy): what it returns, and the whole state it leaves when it runs without interference.
*/
module ChannelObject {
  import opened Wrappers
  import opened Config
  import opened Events
  import opened Core

  datatype SendResult = Sent | FullError(msg: Message) | ClosedError(msg: Message)

  // ---------------------------------------------------------------------------------------
  // What the operations do to the shared state
  // ---------------------------------------------------------------------------------------

  /** After close: everybody is notified, the first time only. */
  function Closed(c: Core): Core {
    if c.closed then c
    else c.(closed := true, recvEvent := NotifyAll(c.recvEvent), sendEvent := NotifyAll(c.sendEvent))
  }

  /** After a pop: one receiver and one sender are notified. */
  function Popped(c: Core): Core
    requires c.queue != []
  {
    c.(queue := c.queue[1..], recvEvent := Notify(c.recvEvent, 1), sendEvent := Notify(c.sendEvent, 1))
  }

  function Pushed(c: Core, m: Message): Core {
    c.(queue := c.queue + [m], recvEvent := Notify(c.recvEvent, 1))
  }

  function HaltedSome(c: Core, n: u32): Core {
    c.(haltCount := Credited(c.haltCount, n), recvEvent := NotifyAll(c.recvEvent))
  }

  /** One notification for a queue of any length, none for an empty one. */
  function NotifiedIf(e: Event, some: bool): Event {
    if some then Notify(e, 1) else e
  }

  /** After popping everything. */
  function Drained(c: Core): Core {
    c.(queue := [],
       recvEvent := NotifiedIf(c.recvEvent, c.queue != []),
       sendEvent := NotifiedIf(c.sendEvent, c.queue != []))
  }

  /** After the last inbox has left: closed, every exit listener notified, and drained. */
  function AllLeft(c: Core): Core {
    Drained(Closed(c).(inboxCount := 0, exitEvent := NotifyAll(c.exitEvent)))
  }

  function SendAnswer(c: Core, m: Message): SendResult {
    match PushAnswer(c)
    case None => Sent
    case Some(QueueFull) => FullError(m)
    case Some(QueueClosed) => ClosedError(m)
  }

  function AfterSend(c: Core, m: Message): Core {
    if PushAnswer(c) == None then Pushed(c, m) else c
  }

  /** What try_recv answers: one Halted while credits are left, else the head of the queue. */
  function TryRecvAnswer(c: Core, signaled: bool): Result<Message, TryRecvError> {
    if !signaled && c.haltCount > 0 then Err(Halted) else PopAnswer(c)
  }

  function AfterTryRecv(c: Core, signaled: bool): Core {
    if !signaled && c.haltCount > 0 then c.(haltCount := c.haltCount - 1)
    else if c.queue != [] then Popped(c)
    else c
  }

  lemma NotifyOneTwice(e: Event)
    ensures Notify(Notify(e, 1), 1) == Notify(e, 1)
  {
    NotifyReachesAtLeast(e, 1);
    var f := Notify(e, 1);
    if f.waiting == [] {
      assert f.waiting[..0] == [];
      assert f.woken + [] == f.woken;
    } else {
      NotifiedAlready(f, 1);
    }
  }

  /** Popping one message after the other. */
  function PoppedAll(c: Core): Core
    decreases |c.queue|
  {
    if c.queue == [] then c else PoppedAll(Popped(c))
  }

  /** However many messages are drained, each event is notified at most once. */
  lemma {:induction false} PoppedAllIsDrained(c: Core)
    ensures PoppedAll(c) == Drained(c)
    decreases |c.queue|
  {
    if c.queue != [] {
      PoppedAllIsDrained(Popped(c));
      NotifyOneTwice(c.recvEvent);
      NotifyOneTwice(c.sendEvent);
    }
  }

  lemma NothingToWake(e: Event, some: bool)
    requires e.waiting == []
    ensures NotifiedIf(e, some).waiting == []
  {
    assert |Notify(e, 1).waiting| <= |e.waiting|;
  }

  /** Leaving for good leaves nothing behind: no message, and nobody who waits without a notification. */
  lemma AllLeftIsClean(c: Core)
    requires c.closed ==> c.recvEvent.waiting == [] && c.sendEvent.waiting == []
    ensures var d := AllLeft(c);
            && d.closed && d.queue == [] && d.inboxCount == 0
            && d.exitEvent.waiting == [] && d.recvEvent.waiting == [] && d.sendEvent.waiting == []
  {
    NotifyAllReachesEveryone(c.exitEvent);
    NotifyAllReachesEveryone(c.recvEvent);
    NotifyAllReachesEveryone(c.sendEvent);
    NothingToWake(Closed(c).recvEvent, c.queue != []);
    NothingToWake(Closed(c).sendEvent, c.queue != []);
  }

  ghost predicate KeysBelow(e: Event, bound: nat) {
    forall k: Key :: Active(e, k) ==> k < bound
  }

  lemma NotifyKeepsKeys(e: Event, n: nat, bound: nat)
    requires KeysBelow(e, bound)
    ensures KeysBelow(Notify(e, n), bound) && KeysBelow(NotifyAll(e), bound)
  {
    NotifyReachesAtLeast(e, n);
    NotifyAllReachesEveryone(e);
  }

  // ---------------------------------------------------------------------------------------
  // The object
  // ---------------------------------------------------------------------------------------

  class Channel {
    const capacity: Capacity
    const messageType: nat
    var queue: seq<Message>
    var closed: bool
    var recvEvent: Event
    var sendEvent: Event
    var exitEvent: Event
    var haltCount: i32
    var inboxCount: nat
    var addressCount: nat
    var nextKey: Key
    /** The addresses that exist. */
    ghost var addresses: set<object>
    /** The addresses that are counted but are still, or again, only their parts. */
    ghost var loose: nat

    ghost function Shared(): Core
      reads this
    {
      Core(capacity, queue, closed, recvEvent, sendEvent, exitEvent, haltCount, inboxCount, addressCount)
    }

    /** Listener keys are handed out in order. */
    ghost predicate Valid()
      reads this
    {
      && ProperCapacity(capacity)
      && WithinCapacity(Shared())
      && KeysBelow(recvEvent, nextKey)
      && KeysBelow(sendEvent, nextKey)
      && KeysBelow(exitEvent, nextKey)
      && addressCount == |addresses| + loose
      && (exitEvent.woken != [] ==> inboxCount == 0)
    }

    /** The counted inboxes and addresses are still to be created. */
    constructor (messageType: nat, addressCount: nat, inboxCount: nat, capacity: Capacity)
      requires ProperCapacity(capacity)
      ensures Valid()
      ensures Shared() == Core(capacity, [], false, NO_LISTENERS, NO_LISTENERS, NO_LISTENERS,
                               0, inboxCount, addressCount)
      ensures this.messageType == messageType && addresses == {} && loose == addressCount
    {
      this.capacity := capacity;
      this.messageType := messageType;
      queue, closed := [], false;
      recvEvent, sendEvent, exitEvent := NO_LISTENERS, NO_LISTENERS, NO_LISTENERS;
      haltCount, this.inboxCount, this.addressCount, nextKey := 0, inboxCount, addressCount, 0;
      addresses, loose := {}, addressCount;
    }

    // -- notifying ----------------------------------------------------------------------------

    method NotifyReceiver()
      requires Valid()
      modifies this`recvEvent
      ensures Valid() && recvEvent == Notify(old(recvEvent), 1)
    {
      NotifyKeepsKeys(recvEvent, 1, nextKey);
      recvEvent := Notify(recvEvent, 1);
    }

    method NotifySender()
      requires Valid()
      modifies this`sendEvent
      ensures Valid() && sendEvent == Notify(old(sendEvent), 1)
    {
      NotifyKeepsKeys(sendEvent, 1, nextKey);
      sendEvent := Notify(sendEvent, 1);
    }

    method NotifyAllReceivers()
      requires Valid()
      modifies this`recvEvent
      ensures Valid() && recvEvent == NotifyAll(old(recvEvent)) && recvEvent.waiting == []
    {
      NotifyKeepsKeys(recvEvent, 0, nextKey);
      NotifyAllReachesEveryone(recvEvent);
      recvEvent := NotifyAll(recvEvent);
    }

    method NotifyAllSenders()
      requires Valid()
      modifies this`sendEvent
      ensures Valid() && sendEvent == NotifyAll(old(sendEvent)) && sendEvent.waiting == []
    {
      NotifyKeepsKeys(sendEvent, 0, nextKey);
      NotifyAllReachesEveryone(sendEvent);
      sendEvent := NotifyAll(sendEvent);
    }

    method NotifyAllExits()
      requires Valid() && inboxCount == 0
      modifies this`exitEvent
      ensures Valid() && exitEvent == NotifyAll(old(exitEvent)) && exitEvent.waiting == []
    {
      NotifyKeepsKeys(exitEvent, 0, nextKey);
      NotifyAllReachesEveryone(exitEvent);
      exitEvent := NotifyAll(exitEvent);
    }

    // -- queue ------------------------------------------------------------------------------

    /** Result is the error and the message, which the caller gets back. */
    method PushMsg(m: Message) returns (r: SendResult)
      requires Valid()
      modifies this
      ensures Valid() && nextKey == old(nextKey) && addresses == old(addresses) && loose == old(loose)
      ensures r == SendAnswer(old(Shared()), m)
      ensures Shared() == AfterSend(old(Shared()), m)
    {
      if closed {
        return ClosedError(m);
      }
      if capacity.Bounded? && |queue| >= capacity.size {
        return FullError(m);
      }
      queue := queue + [m];
      NotifyReceiver();
      return Sent;
    }

    method PopMsg() returns (r: Result<Message, TryRecvError>)
      requires Valid()
      modifies this
      ensures Valid() && nextKey == old(nextKey) && addresses == old(addresses) && loose == old(loose)
      ensures r == PopAnswer(old(Shared()))
      ensures Shared() == if r.Ok? then Popped(old(Shared())) else old(Shared())
    {
      if queue == [] {
        return Err(if closed then ClosedAndEmpty else Empty);
      }
      r := Ok(queue[0]);
      queue := queue[1..];
      NotifySender();
      NotifyReceiver();
    }

    /** True for the first close only. */
    method Close() returns (first: bool)
      requires Valid()
      modifies this
      ensures Valid() && nextKey == old(nextKey) && addresses == old(addresses) && loose == old(loose)
      ensures first == !old(closed) && closed
      ensures Shared() == Closed(old(Shared()))
    {
      if closed {
        return false;
      }
      closed := true;
      NotifyAllReceivers();
      NotifyAllSenders();
      return true;
    }

    /** On a bounded channel a plain push; on an unbounded one only while no back pressure applies. */
    method TrySend(m: Message) returns (r: SendResult)
      requires Valid()
      modifies this
      ensures Valid() && nextKey == old(nextKey) && addresses == old(addresses) && loose == old(loose)
      ensures var wait := capacity.Unbounded? && |old(queue)| >= capacity.backPressure.startsAt;
              && r == (if wait then FullError(m) else SendAnswer(old(Shared()), m))
              && Shared() == (if wait then old(Shared()) else AfterSend(old(Shared()), m))
    {
      MustWaitExactlyFromStart(Shared());
      match capacity
      case Bounded(_) => r := PushMsg(m);
      case Unbounded(backPressure) =>
        var timeout := GetTimeout(backPressure, Min(|queue|, USIZE_MAX));
        if timeout.Some? {
          r := FullError(m);
        } else {
          r := PushMsg(m);
        }
    }

    // -- halting ------------------------------------------------------------------------------

    method HaltSome(n: u32)
      requires Valid()
      modifies this
      ensures Valid() && nextKey == old(nextKey) && addresses == old(addresses) && loose == old(loose)
      ensures Shared() == HaltedSome(old(Shared()), n)
    {
      var credit := if n > I32_MAX then I32_MAX else n;
      if haltCount < 0 {
        haltCount := credit;
      } else if haltCount + credit > I32_MAX {
        haltCount := I32_MAX;
      } else {
        haltCount := haltCount + credit;
      }
      NotifyAllReceivers();
    }

    /** The counter is full, the queue is closed, and no listener is left waiting. */
    method Halt()
      requires Valid()
      modifies this
      ensures Valid() && nextKey == old(nextKey) && addresses == old(addresses) && loose == old(loose)
      ensures Shared() == HaltedSome(Closed(old(Shared())), U32_MAX)
      ensures haltCount == I32_MAX && closed
      ensures recvEvent.waiting == [] && (!old(closed) ==> sendEvent.waiting == [])
    {
      var _ := Close();
      NotifyAllReachesEveryone(old(sendEvent));
      NotifyAllReachesEveryone(recvEvent);
      HaltSome(U32_MAX);
    }

    method InboxShouldHalt() returns (halt: bool)
      requires Valid()
      modifies this
      ensures Valid() && nextKey == old(nextKey) && addresses == old(addresses) && loose == old(loose)
      ensures halt <==> old(haltCount) > 0
      ensures Shared() == old(Shared()).(haltCount := if halt then old(haltCount) - 1 else old(haltCount))
    {
      if haltCount > 0 {
        var previous := haltCount;
        haltCount := Decremented(haltCount);
        if previous > 0 {
          return true;
        }
      }
      return false;
    }

    method TryRecv(signaledHalt: bool) returns (r: Result<Message, TryRecvError>, signaledHalt': bool)
      requires Valid()
      modifies this
      ensures Valid() && nextKey == old(nextKey) && addresses == old(addresses) && loose == old(loose)
      ensures r == TryRecvAnswer(old(Shared()), signaledHalt)
      ensures signaledHalt' == (signaledHalt || r == Err(Halted))
      ensures Shared() == AfterTryRecv(old(Shared()), signaledHalt)
    {
      signaledHalt' := signaledHalt;
      if !signaledHalt {
        var halt := InboxShouldHalt();
        if halt {
          return Err(Halted), true;
        }
      }
      r := PopMsg();
    }

    // -- inboxes and addresses ----------------------------------------------------------------

    method TryAddInbox() returns (previous: Option<nat>)
      requires Valid()
      modifies this
      ensures Valid() && nextKey == old(nextKey) && addresses == old(addresses) && loose == old(loose)
      ensures previous == if old(inboxCount) < 1 then None else Some(old(inboxCount))
      ensures Shared() == old(Shared()).(inboxCount := if previous.Some? then old(inboxCount) + 1 else old(inboxCount))
    {
      if inboxCount < 1 {
        return None;
      }
      previous := Some(inboxCount);
      inboxCount := inboxCount + 1;
    }

    /** Pops until nothing is left. */
    method Drain()
      requires Valid()
      modifies this
      ensures Valid() && nextKey == old(nextKey) && addresses == old(addresses) && loose == old(loose)
      ensures Shared() == Drained(old(Shared()))
    {
      PoppedAllIsDrained(Shared());
      var r := PopMsg();
      while r.Ok?
        invariant Valid() && nextKey == old(nextKey) && addresses == old(addresses) && loose == old(loose)
        invariant PoppedAll(Shared()) == PoppedAll(old(Shared()))
        invariant !r.Ok? ==> queue == []
        decreases |queue|, r.Ok?
      {
        r := PopMsg();
      }
    }

    /** The last inbox to leave closes the channel, notifies the exit listeners and drains the queue. */
    method RemoveInbox() returns (previous: nat)
      requires Valid() && inboxCount > 0
      modifies this
      ensures Valid() && nextKey == old(nextKey) && addresses == old(addresses) && loose == old(loose)
      ensures previous == old(inboxCount)
      ensures Shared() == if previous == 1 then AllLeft(old(Shared()))
                          else old(Shared()).(inboxCount := previous - 1)
    {
      previous := inboxCount;
      inboxCount := inboxCount - 1;
      if previous == 1 {
        var _ := Close();
        NotifyAllExits();
        Drain();
      }
    }

    method AddAddress() returns (previous: nat)
      requires Valid()
      modifies this`addressCount, this`loose
      ensures Valid() && previous == old(addressCount)
      ensures addressCount == old(addressCount) + 1 && loose == old(loose) + 1
    {
      previous := addressCount;
      addressCount, loose := addressCount + 1, loose + 1;
    }

    /** The count must be positive, or the source panics. */
    method RemoveAddress(ghost address: object) returns (previous: nat)
      requires Valid() && address in addresses && addressCount >= 1
      modifies this`addressCount, this`addresses
      ensures Valid() && previous == old(addressCount)
      ensures addressCount == old(addressCount) - 1 && addresses == old(addresses) - {address}
    {
      previous := addressCount;
      addressCount, addresses := addressCount - 1, addresses - {address};
    }

    method HasExited() returns (exited: bool)
      ensures exited <==> inboxCount == 0
    {
      return inboxCount == 0;
    }

    // -- listeners ----------------------------------------------------------------------------

    method GetRecvListener() returns (k: Key)
      requires Valid()
      modifies this`recvEvent, this`nextKey
      ensures Valid() && k == old(nextKey) && nextKey == k + 1
      ensures recvEvent == Listen(old(recvEvent), k) && !Active(old(recvEvent), k)
    {
      k := nextKey;
      nextKey := nextKey + 1;
      ListenAddsOne(recvEvent, k);
      recvEvent := Listen(recvEvent, k);
    }

    method GetSendListener() returns (k: Key)
      requires Valid()
      modifies this`sendEvent, this`nextKey
      ensures Valid() && k == old(nextKey) && nextKey == k + 1
      ensures sendEvent == Listen(old(sendEvent), k) && !Active(old(sendEvent), k)
    {
      k := nextKey;
      nextKey := nextKey + 1;
      ListenAddsOne(sendEvent, k);
      sendEvent := Listen(sendEvent, k);
    }

    method GetExitListener() returns (k: Key)
      requires Valid()
      modifies this`exitEvent, this`nextKey
      ensures Valid() && k == old(nextKey) && nextKey == k + 1
      ensures exitEvent == Listen(old(exitEvent), k) && !Active(old(exitEvent), k)
    {
      k := nextKey;
      nextKey := nextKey + 1;
      ListenAddsOne(exitEvent, k);
      exitEvent := Listen(exitEvent, k);
    }

    /** Dropping a listener, which may already have been consumed. */
    method DropRecvListener(k: Key)
      requires Valid()
      modifies this`recvEvent
      ensures Valid() && recvEvent == Drop(old(recvEvent), k)
    {
      DropKeepsNotification(recvEvent, k);
      recvEvent := Drop(recvEvent, k);
    }

    method DropSendListener(k: Key)
      requires Valid()
      modifies this`sendEvent
      ensures Valid() && sendEvent == Drop(old(sendEvent), k)
    {
      DropKeepsNotification(sendEvent, k);
      sendEvent := Drop(sendEvent, k);
    }

    method DropExitListener(k: Key)
      requires Valid()
      modifies this`exitEvent
      ensures Valid() && exitEvent == Drop(old(exitEvent), k)
    {
      DropKeepsNotification(exitEvent, k);
      exitEvent := Drop(exitEvent, k);
    }

    /** Polling a listener takes it off the list when it is notified; a consumed one must not be polled. */
    method PollRecvListener(k: Key) returns (ready: bool)
      requires Valid() && Active(recvEvent, k)
      modifies this`recvEvent
      ensures Valid() && (ready <==> k in old(recvEvent).woken)
      ensures recvEvent == if ready then Remove(old(recvEvent), k) else old(recvEvent)
    {
      ready := k in recvEvent.woken;
      RemoveForgetsOnlyOne(recvEvent, k);
      if ready {
        recvEvent := Remove(recvEvent, k);
      }
    }

    method PollSendListener(k: Key) returns (ready: bool)
      requires Valid() && Active(sendEvent, k)
      modifies this`sendEvent
      ensures Valid() && (ready <==> k in old(sendEvent).woken)
      ensures sendEvent == if ready then Remove(old(sendEvent), k) else old(sendEvent)
    {
      ready := k in sendEvent.woken;
      RemoveForgetsOnlyOne(sendEvent, k);
      if ready {
        sendEvent := Remove(sendEvent, k);
      }
    }

    method PollExitListener(k: Key) returns (ready: bool)
      requires Valid() && Active(exitEvent, k)
      modifies this`exitEvent
      ensures Valid() && (ready <==> k in old(exitEvent).woken)
      ensures exitEvent == if ready then Remove(old(exitEvent), k) else old(exitEvent)
    {
      ready := k in exitEvent.woken;
      RemoveForgetsOnlyOne(exitEvent, k);
      if ready {
        exitEvent := Remove(exitEvent, k);
      }
    }
  }
}
