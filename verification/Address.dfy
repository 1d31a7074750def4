/** Addresses: awaiting the exit of an actor, and the accounting of the handles. */
module AddressObject {
  import opened Wrappers
  import opened Events
  import opened ChannelObject
  import opened Receiving

  /** The static type of a handle: the message type of its channel, or hidden behind dyn. */
  datatype Kind = Typed(messageType: nat) | Dyn

  class Address {
    const channel: Channel
    const kind: Kind
    var exitListener: Option<Key>

    /** The address is one of those counted; a listener that is no longer registered was consumed by the exit. */
    ghost predicate Valid()
      reads this, channel
    {
      && channel.Valid()
      && this in channel.addresses
      && (kind.Typed? ==> kind.messageType == channel.messageType)
      && (exitListener.Some? && !Active(channel.exitEvent, exitListener.value) ==> channel.inboxCount == 0)
    }

    /** Turns counted parts into a handle; this does not change the count. */
    constructor FromParts(channel: Channel, exitListener: Option<Key>, kind: Kind)
      requires channel.Valid() && channel.loose > 0
      requires kind.Typed? ==> kind.messageType == channel.messageType
      requires exitListener.Some? && !Active(channel.exitEvent, exitListener.value) ==> channel.inboxCount == 0
      modifies channel`addresses, channel`loose
      ensures Valid()
      ensures this.channel == channel && this.kind == kind && this.exitListener == exitListener
      ensures channel.addresses == old(channel.addresses) + {this} && channel.loose == old(channel.loose) - 1
    {
      this.channel := channel;
      this.kind := kind;
      this.exitListener := exitListener;
      new;
      assert this !in channel.addresses;
      channel.addresses := channel.addresses + {this};
      channel.loose := channel.loose - 1;
    }

    /**
    Awaiting: ready exactly when all inboxes are gone. A consumed listener is never polled again, because the exit is
    seen first; a pending poll leaves a listener that waits.
    */
    method Poll() returns (ready: bool)
      requires Valid()
      modifies this`exitListener, channel`exitEvent, channel`nextKey
      ensures Valid()
      ensures ready <==> channel.inboxCount == 0
      ensures !ready ==> exitListener.Some? && exitListener.value in channel.exitEvent.waiting
      ensures if ready || old(exitListener).Some?
              then exitListener == old(exitListener) && channel.exitEvent == old(channel.exitEvent)
                   && channel.nextKey == old(channel.nextKey)
              else exitListener == Some(old(channel.nextKey)) && channel.nextKey == old(channel.nextKey) + 1
                   && channel.exitEvent == Listen(old(channel.exitEvent), old(channel.nextKey))
    {
      var exited := channel.HasExited();
      if exited {
        return true;
      }
      if exitListener == None {
        var k := channel.GetExitListener();
        exitListener := Some(k);
      }
      exited := channel.HasExited();
      if exited {
        return true;
      }
      ready := channel.PollExitListener(exitListener.value);
    }

    /** A clone is one more address and has no listener of its own. */
    method Clone() returns (copy: Address)
      requires Valid()
      modifies channel`addressCount, channel`addresses, channel`loose
      ensures Valid() && copy.Valid() && fresh(copy)
      ensures copy.channel == channel && copy.kind == kind && copy.exitListener == None
      ensures channel.addresses == old(channel.addresses) + {copy}
      ensures channel.addressCount == old(channel.addressCount) + 1 && channel.loose == old(channel.loose)
    {
      var _ := channel.AddAddress();
      copy := new Address.FromParts(channel, None, kind);
    }

    /** Dropping an address; the assertion in remove_address holds. */
    method DropAddress()
      requires Valid()
      modifies this`exitListener, channel`addressCount, channel`addresses, channel`exitEvent
      ensures channel.Valid()
      ensures channel.addresses == old(channel.addresses) - {this}
      ensures channel.addressCount == old(channel.addressCount) - 1 && channel.loose == old(channel.loose)
      ensures channel.exitEvent == DropSlot(old(channel.exitEvent), old(exitListener))
    {
      assert channel.addressCount >= 1 by {
        assert this in channel.addresses;
      }
      var _ := channel.RemoveAddress(this);
      if exitListener.Some? {
        channel.DropExitListener(exitListener.value);
        exitListener := None;
      }
    }

    /** Takes the handle apart without dropping it: the count stays, and the parts are loose. */
    method IntoParts() returns (listener: Option<Key>)
      requires Valid()
      modifies channel`addresses, channel`loose
      ensures channel.Valid() && listener == exitListener
      ensures channel.addresses == old(channel.addresses) - {this} && channel.loose == old(channel.loose) + 1
    {
      listener := exitListener;
      channel.addresses := channel.addresses - {this};
      channel.loose := channel.loose + 1;
    }

    /** Forgetting the message type replaces the handle and keeps count and listener. */
    method IntoDyn() returns (address: Address)
      requires Valid()
      modifies channel`addresses, channel`loose
      ensures address.Valid() && address.channel == channel && address.kind == Dyn && fresh(address)
      ensures address.exitListener == exitListener
      ensures channel.addresses == old(channel.addresses) - {this} + {address} && channel.loose == old(channel.loose)
    {
      var listener := IntoParts();
      address := new Address.FromParts(channel, listener, Dyn);
    }

    /** Succeeds exactly for the message type of the channel; either way one handle replaces this one. */
    method Downcast(messageType: nat) returns (r: Result<Address, Address>)
      requires Valid()
      modifies channel`addresses, channel`loose
      ensures r.Ok? <==> messageType == channel.messageType
      ensures var address := if r.Ok? then r.value else r.error;
              && address.Valid() && address.channel == channel && fresh(address)
              && address.kind == (if r.Ok? then Typed(messageType) else kind)
              && address.exitListener == exitListener
              && channel.addresses == old(channel.addresses) - {this} + {address} && channel.loose == old(channel.loose)
    {
      var listener := IntoParts();
      if messageType == channel.messageType {
        var address := new Address.FromParts(channel, listener, Typed(messageType));
        r := Ok(address);
      } else {
        var address := new Address.FromParts(channel, listener, kind);
        r := Err(address);
      }
    }
  }

  /** A new address for a channel, from an inbox (typed) or a child (of the kind of the child). */
  method GetAddress(channel: Channel, kind: Kind) returns (address: Address)
    requires channel.Valid() && (kind.Typed? ==> kind.messageType == channel.messageType)
    modifies channel`addressCount, channel`addresses, channel`loose
    ensures address.Valid() && fresh(address) && address.channel == channel && address.kind == kind
    ensures address.exitListener == None
    ensures channel.addresses == old(channel.addresses) + {address}
    ensures channel.addressCount == old(channel.addressCount) + 1 && channel.loose == old(channel.loose)
  {
    var _ := channel.AddAddress();
    address := new Address.FromParts(channel, None, kind);
  }

  /** There and back: hiding the message type and recovering it gives an equal handle. */
  method DynRoundTrip(address: Address) returns (back: Address)
    requires address.Valid() && address.kind.Typed?
    modifies address.channel`addresses, address.channel`loose
    ensures back.Valid() && back.channel == address.channel
    ensures back.kind == address.kind && back.exitListener == address.exitListener
    ensures back.channel.addresses == old(address.channel.addresses) - {address} + {back}
    ensures back.channel.addressCount == old(address.channel.addressCount)
  {
    var hidden := address.IntoDyn();
    var r := hidden.Downcast(address.kind.messageType);
    back := r.value;
  }
}
