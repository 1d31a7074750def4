/** The inbox and the future that receives from it, with the register, retry and park loop. */
module Receiving {
  import opened Wrappers
  import opened Events
  import opened Core
  import opened ChannelObject

  /** Dropping the listener in a slot, if there is one. */
  function DropSlot(e: Event, slot: Option<Key>): Event {
    match slot
    case None => e
    case Some(k) => Drop(e, k)
  }

  /**
  The listeners after a poll that stays pending: a listener that still waits is kept; otherwise the
  notified one is consumed and a new one registers under the next key.
  */
  function ParkedEvent(e: Event, slot: Option<Key>, next: Key): Event {
    match slot
    case None => Listen(e, next)
    case Some(k) => if k in e.woken then Listen(Remove(e, k), next) else e
  }

  function ParkedSlot(e: Event, slot: Option<Key>, next: Key): Option<Key> {
    match slot
    case None => Some(next)
    case Some(k) => if k in e.woken then Some(next) else slot
  }

  lemma ReceivingKeepsListeners(c: Core, signaled: bool)
    ensures forall k :: Active(AfterTryRecv(c, signaled).recvEvent, k) <==> Active(c.recvEvent, k)
  {
    hide Notify;
    NotifyReachesAtLeast(c.recvEvent, 1);
  }

  class Inbox {
    const channel: Channel
    var signaledHalt: bool
    var recvListener: Option<Key>

    /** A listener in the slot is registered, and a slot survives a poll only if that poll was pending. */
    ghost predicate Valid()
      reads this, channel
    {
      channel.Valid() && (recvListener.Some? ==> Active(channel.recvEvent, recvListener.value))
    }

    constructor (channel: Channel)
      requires channel.Valid()
      ensures this.channel == channel && Valid() && !signaledHalt && recvListener == None
    {
      this.channel := channel;
      signaledHalt := false;
      recvListener := None;
    }

    method TryRecv() returns (r: Result<Message, TryRecvError>)
      requires Valid()
      modifies this`signaledHalt, channel
      ensures Valid()
      ensures r == TryRecvAnswer(old(channel.Shared()), old(signaledHalt))
      ensures channel.Shared() == AfterTryRecv(old(channel.Shared()), old(signaledHalt))
      ensures signaledHalt == (old(signaledHalt) || r == Err(Halted))
    {
      hide AfterTryRecv, TryRecvAnswer;
      ReceivingKeepsListeners(channel.Shared(), signaledHalt);
      var signaled;
      r, signaled := channel.TryRecv(signaledHalt);
      signaledHalt := signaled;
    }

    /** One attempt of the poll; an answer other than Empty also clears the slot. */
    method PollTryRecv() returns (r: Option<Result<Message, TryRecvError>>)
      requires channel.Valid()
      modifies this, channel
      ensures channel.Valid() && channel.nextKey == old(channel.nextKey)
      ensures var answer := TryRecvAnswer(old(channel.Shared()), old(signaledHalt));
              if answer == Err(Empty)
              then r == None && channel.Shared() == old(channel.Shared())
                   && signaledHalt == old(signaledHalt) && recvListener == old(recvListener)
              else r == Some(answer) && recvListener == None
                   && signaledHalt == (old(signaledHalt) || answer == Err(Halted))
                   && channel.Shared() == var c := AfterTryRecv(old(channel.Shared()), old(signaledHalt));
                                          c.(recvEvent := DropSlot(c.recvEvent, old(recvListener)))
    {
      var answer, signaled := channel.TryRecv(signaledHalt);
      signaledHalt := signaled;
      if answer == Err(Empty) {
        return None;
      }
      if recvListener.Some? {
        channel.DropRecvListener(recvListener.value);
        recvListener := None;
      }
      return Some(answer);
    }

    /** Dropping the inbox: it leaves the channel, and then its listener, if any, is dropped. */
    method DropInbox()
      requires Valid() && channel.inboxCount > 0
      modifies this`recvListener, channel
      ensures Valid() && recvListener == None
      ensures var c, last := old(channel.Shared()), old(channel.inboxCount) == 1;
              var left := if last then AllLeft(c) else c.(inboxCount := c.inboxCount - 1);
              channel.Shared() == left.(recvEvent := DropSlot(left.recvEvent, old(recvListener)))
    {
      var _ := channel.RemoveInbox();
      if recvListener.Some? {
        channel.DropRecvListener(recvListener.value);
        recvListener := None;
      }
    }
  }

  /** The future of Inbox.recv; it borrows the flag and the slot of the inbox. */
  class RecvFut {
    const inbox: Inbox

    constructor (inbox: Inbox)
      ensures this.inbox == inbox
    {
      this.inbox := inbox;
    }

    /**
    Without interference a poll answers exactly what try_recv would, within two turns of the loop; it
    is pending exactly when that answer is Empty, and a listener is held exactly when it is pending.
    */
    method Poll() returns (r: Poll<Result<Message, TryRecvError>>, ghost turns: nat)
      requires inbox.Valid()
      modifies inbox, inbox.channel
      ensures inbox.Valid()
      ensures var c, signaled, slot := old(inbox.channel.Shared()), old(inbox.signaledHalt), old(inbox.recvListener);
              var answer := TryRecvAnswer(c, signaled);
              if answer == Err(Empty)
              then r == Pending
                   && inbox.channel.Shared()
                      == c.(recvEvent := ParkedEvent(c.recvEvent, slot, old(inbox.channel.nextKey)))
                   && inbox.recvListener == ParkedSlot(c.recvEvent, slot, old(inbox.channel.nextKey))
                   && inbox.signaledHalt == signaled
              else r == Ready(answer)
                   && inbox.channel.Shared()
                      == (var d := AfterTryRecv(c, signaled); d.(recvEvent := DropSlot(d.recvEvent, slot)))
                   && inbox.recvListener == None
                   && inbox.signaledHalt == (signaled || answer == Err(Halted))
      ensures r == Pending <==> inbox.recvListener.Some?
      ensures r == Pending ==> inbox.recvListener.value in inbox.channel.recvEvent.waiting
      ensures turns <= 2
    {
      turns := 0;
      var first := inbox.PollTryRecv();
      match first {
        case Some(answer) => return Ready(answer), turns;
        case None =>
      }
      ghost var c, slot, next := inbox.channel.Shared(), inbox.recvListener, inbox.channel.nextKey;
      ghost var notified := slot.Some? && slot.value in c.recvEvent.woken;
      RemoveForgetsOnlyOne(c.recvEvent, if slot.Some? then slot.value else 0);
      while true
        invariant inbox.Valid() && !(!inbox.signaledHalt && c.haltCount > 0) && PopAnswer(c) == Err(Empty)
        invariant inbox.signaledHalt == old(inbox.signaledHalt)
        invariant turns <= 1 && inbox.channel.nextKey == next
        invariant if turns == 0 then inbox.channel.Shared() == c && inbox.recvListener == slot
                  else notified && inbox.recvListener == None
                       && inbox.channel.Shared() == c.(recvEvent := Remove(c.recvEvent, slot.value))
        decreases 2 - turns
      {
        turns := turns + 1;
        if inbox.recvListener == None {
          var k := inbox.channel.GetRecvListener();
          inbox.recvListener := Some(k);
        }
        var second := inbox.PollTryRecv();
        match second {
          case Some(answer) => return Ready(answer), turns;
          case None =>
        }
        var ready := inbox.channel.PollRecvListener(inbox.recvListener.value);
        if !ready {
          return Pending, turns;
        }
        inbox.recvListener := None;
        var third := inbox.PollTryRecv();
        match third {
          case Some(answer) => return Ready(answer), turns;
          case None =>
        }
      }
    }

    /** Dropping the future hands its notification to the next receiver. */
    method DropFuture()
      requires inbox.Valid()
      modifies inbox`recvListener, inbox.channel`recvEvent
      ensures inbox.Valid() && inbox.recvListener == None
      ensures inbox.channel.recvEvent == DropSlot(old(inbox.channel.recvEvent), old(inbox.recvListener))
      ensures old(inbox.channel.recvEvent.woken) != []
              ==> inbox.channel.recvEvent.woken != [] || inbox.channel.recvEvent.waiting == []
    {
      if inbox.recvListener.Some? {
        DropKeepsNotification(inbox.channel.recvEvent, inbox.recvListener.value);
        inbox.channel.DropRecvListener(inbox.recvListener.value);
        inbox.recvListener := None;
      }
    }
  }
}
