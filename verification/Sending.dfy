/** The future that sends a message, with the register, retry and park loop of a bounded channel. */
module Sending {
  import opened Wrappers
  import opened Config
  import opened Events
  import opened Core
  import opened ChannelObject
  import opened Receiving

  /** A listener for a bounded channel, a sleep of some length for an unbounded one. */
  datatype InnerSendFut = Listener(key: Key) | Sleep(length: Nanos)

  datatype SendOutcome = Delivered | SendError(msg: Message)

  function SlotOf(fut: Option<InnerSendFut>): Option<Key> {
    if fut.Some? && fut.value.Listener? then Some(fut.value.key) else None
  }

  class SendFut {
    const channel: Channel
    var msg: Option<Message>
    var fut: Option<InnerSendFut>

    /** While the message is held, a listener in the slot is registered; after the result nothing is held. */
    ghost predicate Valid()
      reads this, channel
    {
      && channel.Valid()
      && (fut.Some? ==> (fut.value.Listener? <==> channel.capacity.Bounded?))
      && (msg.Some? && fut.Some? && fut.value.Listener? ==> Active(channel.sendEvent, fut.value.key))
    }

    /** On an unbounded channel the back pressure at this moment decides how long to sleep. */
    constructor (channel: Channel, m: Message)
      requires channel.Valid()
      ensures this.channel == channel && Valid() && msg == Some(m)
      ensures channel.capacity.Bounded? ==> fut == None
      ensures channel.capacity.Unbounded? ==>
                && (fut.Some? <==> |channel.queue| >= channel.capacity.backPressure.startsAt)
                && (fut.Some? && |channel.queue| <= USIZE_MAX ==>
                      Some(fut.value.length) == GetTimeout(channel.capacity.backPressure, |channel.queue|))
    {
      MustWaitExactlyFromStart(channel.Shared());
      this.channel := channel;
      msg := Some(m);
      match channel.capacity {
        case Bounded(_) => fut := None;
        case Unbounded(backPressure) =>
          var timeout := GetTimeout(backPressure, Min(|channel.queue|, USIZE_MAX));
          fut := if timeout.Some? then Some(Sleep(timeout.value)) else None;
      }
    }

    /**
    Without interference a poll on a bounded channel sends if there is room, hands the message back if
    the channel is closed, and otherwise keeps the message and parks with a listener that waits.
    */
    method PollBoundedSend() returns (r: Poll<SendOutcome>, ghost turns: nat)
      requires Valid() && msg.Some? && channel.capacity.Bounded?
      modifies this, channel
      ensures Valid()
      ensures var c, m, slot := old(channel.Shared()), old(msg.value), SlotOf(old(fut));
              match SendAnswer(c, m)
              case Sent => r == Ready(Delivered) && msg == None && channel.Shared() == Pushed(c, m) && fut == old(fut)
              case ClosedError(back) =>
                && r == Ready(SendError(back)) && back == m && msg == None
                && channel.Shared() == c && fut == old(fut)
              case FullError(back) =>
                && r == Pending && back == m && msg == Some(m)
                && channel.Shared() == c.(sendEvent := ParkedEvent(c.sendEvent, slot, old(channel.nextKey)))
                && SlotOf(fut) == ParkedSlot(c.sendEvent, slot, old(channel.nextKey))
      ensures r == Pending ==> SlotOf(fut).Some? && SlotOf(fut).value in channel.sendEvent.waiting
      ensures turns <= 2
    {
      turns := 0;
      var m := msg.value;
      msg := None;
      var first := channel.TrySend(m);
      match first {
        case Sent => return Ready(Delivered), turns;
        case ClosedError(back) => return Ready(SendError(back)), turns;
        case FullError(back) => m := back;
      }
      ghost var c, slot, next := channel.Shared(), SlotOf(fut), channel.nextKey;
      RemoveForgetsOnlyOne(c.sendEvent, if slot.Some? then slot.value else 0);
      while true
        invariant channel.Valid() && SendAnswer(c, m) == FullError(m) && m == old(msg.value)
        invariant msg == None && turns <= 1 && channel.nextKey == next
        invariant if turns == 0 then channel.Shared() == c && fut == old(fut)
                  else slot.Some? && slot.value in c.sendEvent.woken && fut == None
                       && channel.Shared() == c.(sendEvent := Remove(c.sendEvent, slot.value))
        decreases 2 - turns
      {
        turns := turns + 1;
        if fut == None {
          var k := channel.GetSendListener();
          fut := Some(Listener(k));
        }
        var second := channel.TrySend(m);
        match second {
          case Sent => return Ready(Delivered), turns;
          case ClosedError(back) => return Ready(SendError(back)), turns;
          case FullError(back) => m := back;
        }
        var ready := channel.PollSendListener(fut.value.key);
        if !ready {
          msg := Some(m);
          return Pending, turns;
        }
        var third := channel.TrySend(m);
        match third {
          case Sent => return Ready(Delivered), turns;
          case ClosedError(back) => return Ready(SendError(back)), turns;
          case FullError(back) => m := back;
        }
        fut := None;
      }
    }

    /** On an unbounded channel the push happens once the sleep, if any, has run out. */
    method PollUnboundedSend(elapsed: bool) returns (r: Poll<SendOutcome>)
      requires Valid() && msg.Some? && channel.capacity.Unbounded?
      modifies this`msg, channel
      ensures Valid()
      ensures if fut.Some? && !elapsed
              then r == Pending && msg == old(msg) && channel.Shared() == old(channel.Shared())
              else msg == None && channel.Shared() == AfterSend(old(channel.Shared()), old(msg.value))
                   && r == Ready(if old(channel.closed) then SendError(old(msg.value)) else Delivered)
    {
      if fut.Some? {
        if !elapsed {
          return Pending;
        }
      }
      r := PollPushUnbounded();
    }

    method PollPushUnbounded() returns (r: Poll<SendOutcome>)
      requires Valid() && msg.Some? && channel.capacity.Unbounded?
      modifies this`msg, channel
      ensures Valid() && msg == None
      ensures channel.Shared() == AfterSend(old(channel.Shared()), old(msg.value))
      ensures r == Ready(if old(channel.closed) then SendError(old(msg.value)) else Delivered)
    {
      var m := msg.value;
      msg := None;
      var pushed := channel.PushMsg(m);
      match pushed
      case Sent => r := Ready(Delivered);
      case ClosedError(back) => r := Ready(SendError(back));
      case FullError(_) => assert false;
    }

    /** Dropping the future hands its notification to the next sender, and frees the slot. */
    method DropFuture()
      requires Valid()
      modifies this`fut, this`msg, channel`sendEvent
      ensures Valid() && fut == None && msg == None
      ensures channel.sendEvent == DropSlot(old(channel.sendEvent), SlotOf(old(fut)))
    {
      if fut.Some? && fut.value.Listener? {
        channel.DropSendListener(fut.value.key);
      }
      fut, msg := None, None;
    }
  }
}
