/** What holds in every reachable state, in the words of the channel's users. */
module Guarantees {
  import opened Wrappers
  import opened Config
  import opened Events
  import opened Core
  import opened Protocol
  import opened Registration
  import opened Counting
  import opened Wakeups
  import opened Halting
  import opened Messages
  import opened Answers
  import opened Invariant

  predicate ParkedReceiver(s: State, t: Tid) {
    t in s.threads && s.threads[t].proc.Inbox? && s.threads[t].proc.recv.Parked?
  }

  predicate ParkedSender(s: State, t: Tid) {
    t in s.threads && s.threads[t].proc.Send? && s.threads[t].proc.send.SendParked?
  }

  predicate ParkedAddress(s: State, t: Tid) {
    t in s.threads && s.threads[t].proc.Address? && s.threads[t].proc.watch.Waiting?
  }

  // ---------------------------------------------------------------------------------------
  // Wake-ups
  // ---------------------------------------------------------------------------------------

  /**
  A listener is held exactly while a poll is pending: whoever parks is registered, once, and a call that is
  between polls, or is over, is not.
  */
  lemma ParkedIsRegistered(s: State, t: Tid)
    requires Reachable(s)
    ensures ParkedReceiver(s, t) ==> Active(s.core.recvEvent, t)
    ensures ParkedSender(s, t) ==> Active(s.core.sendEvent, t)
    ensures ParkedAddress(s, t) ==> Active(s.core.exitEvent, t)
    ensures t in s.threads && s.threads[t].proc.Inbox?
            && (s.threads[t].proc.recv.Idle? || s.threads[t].proc.recv.Gone?)
            ==> !Active(s.core.recvEvent, t)
    ensures t in s.threads && s.threads[t].proc.Send?
            && (s.threads[t].proc.send.Sleeping? || s.threads[t].proc.send.Released?)
            ==> !Active(s.core.sendEvent, t)
    ensures Orderly(s.core)
  {
    ReachableIsInvariant(s);
  }

  /** A parked thread that is exposed to a promise has been notified, or is at risk. */
  lemma ParkedIsNotifiedOrAtRisk(w: Promise, s: State, t: Tid)
    requires Registered(s) && t in s.threads && Exposed(w, s.threads[t].proc)
    requires ParkedReceiver(s, t) || ParkedSender(s, t) || ParkedAddress(s, t)
    ensures t in Listeners(w, s.core).woken || AtRisk(w, s.core, t, s.threads[t].proc)
  {
    assert Placed(s.core, t, s.threads[t].proc);
  }

  /** Every promise, for one parked thread: with something to wake for and nothing in flight, it is notified. */
  lemma PromiseReaches(w: Promise, s: State, t: Tid)
    requires Reachable(s) && Due(w, s)
    requires !Calm(w, s.core) && !SomebodyInFlight(w, s)
    requires t in s.threads && Exposed(w, s.threads[t].proc)
    requires ParkedReceiver(s, t) || ParkedSender(s, t) || ParkedAddress(s, t)
    ensures t in Listeners(w, s.core).woken || Served(w, s.core)
  {
    ReachableIsInvariant(s);
    ParkedIsNotifiedOrAtRisk(w, s, t);
    assert Kept(w, s);
  }

  /**
  No lost receiver wake-up: if a message waits while a receiver is parked without a notification and nothing
  is in flight, then another inbox holds a notification. This covers every receiver not told to halt, and those
  that were told as long as no inbox has been told right after consuming a notification.
  */
  lemma NoLostMessage(s: State, r: Tid)
    requires Reachable(s) && s.core.queue != []
    requires ParkedReceiver(s, r) && r !in s.core.recvEvent.woken
    requires (Small(s) && !s.threads[r].proc.signaled) || s.history.wasted == 0
    requires !SomebodyInFlight(MessageForAnyone, s)
    ensures exists u :: u != r && u in s.core.recvEvent.woken && u in s.threads && MayListenRecv(s.threads[u].proc)
  {
    PromiseReaches(if s.history.wasted == 0 then MessageForAnyone else MessageForUntold, s, r);
    ReachableIsInvariant(s);
    var u := s.core.recvEvent.woken[0];
    assert Active(s.core.recvEvent, u);
    assert Placed(s.core, u, s.threads[u].proc);
  }

  lemma NextSenderIsNotified(e: Event)
    requires e.waiting != []
    ensures Notify(e, 1).woken != []
  {
    NotifyWakes(e, 1);
    assert |Notify(e, 1).woken| + |Notify(e, 1).waiting| == |e.woken| + |e.waiting|;
  }

  /**
  No bounded-send deadlock: if a sender is parked without a notification, no sender is notified
  and nothing is in flight, then a message is left in an open queue, and its pop wakes a sender.
  */
  lemma NoSendDeadlock(s: State, t: Tid)
    requires Reachable(s) && ParkedSender(s, t) && s.core.sendEvent.woken == []
    requires !SomebodyInFlight(Space, s)
    ensures s.core.queue != [] && !s.core.closed
    ensures Deliver(Pop(s.core), SendOne).sendEvent.woken != []
  {
    hide Notify;
    if !Calm(Space, s.core) {
      PromiseReaches(Space, s, t);
    }
    ParkedIsRegistered(s, t);
    NextSenderIsNotified(s.core.sendEvent);
  }

  /**
  A completed close reaches every receiver and every bounded sender: it is enough that the call which closed
  the queue has made its notifications, whatever halters and later closers are doing.
  */
  lemma CloseReachesEveryone(s: State, t: Tid)
    requires Reachable(s) && s.core.closed
    ensures ParkedReceiver(s, t) && !SomebodyInFlight(ClosedToReceivers, s) ==> t in s.core.recvEvent.woken
    ensures ParkedSender(s, t) && !SomebodyInFlight(ClosedToSenders, s) ==> t in s.core.sendEvent.woken
  {
    if ParkedReceiver(s, t) && !SomebodyInFlight(ClosedToReceivers, s) {
      PromiseReaches(ClosedToReceivers, s, t);
    }
    if ParkedSender(s, t) && !SomebodyInFlight(ClosedToSenders, s) {
      PromiseReaches(ClosedToSenders, s, t);
    }
  }

  /**
  While credits are left, a completed halt reaches every receiver not yet told to halt: it is enough that no
  halt_some stands between its update and its notification, whatever closers are doing.
  */
  lemma HaltReachesEveryone(s: State, t: Tid)
    requires Reachable(s) && Small(s) && s.core.haltCount > 0 && !SomebodyInFlight(HaltCredit, s)
    requires ParkedReceiver(s, t) && !s.threads[t].proc.signaled
    ensures t in s.core.recvEvent.woken
  {
    PromiseReaches(HaltCredit, s, t);
  }

  /**
  Awaiting an address is complete: once the last inbox has notified, no address stays parked
  without a notification.
  */
  lemma ExitReachesEveryAddress(s: State, t: Tid)
    requires Reachable(s) && s.core.inboxCount == 0
    requires !SomebodyInFlight(Exiting, s)
    requires ParkedAddress(s, t)
    ensures t in s.core.exitEvent.woken
  {
    PromiseReaches(Exiting, s, t);
  }

  /** Awaiting an address is sound: it is ready only when no live inbox is left, and polling it again is safe. */
  lemma AddressIsSound(s: State, t: Tid)
    requires Reachable(s) && t in s.threads && s.threads[t].proc.Address?
    ensures s.threads[t].proc.watch.Exited? ==> forall u :: u in s.threads ==> !Live(s.threads[u])
    ensures !s.threads[t].proc.watch.Crashed?
  {
    ReachableIsInvariant(s);
    if s.threads[t].proc.watch.Exited? {
      forall u | u in s.threads ensures !Live(s.threads[u]) {
        if Live(s.threads[u]) {
          LeavingIsCounted(s, u);
        }
      }
    }
  }

  // ---------------------------------------------------------------------------------------
  // Halting
  // ---------------------------------------------------------------------------------------

  /** Every credit is in the counter or was spent on one inbox, and no inbox is halted twice. */
  lemma CreditsAreConserved(s: State)
    requires Reachable(s)
    ensures Small(s) ==> s.history.issued == |s.history.halted| + Max(s.core.haltCount, 0)
    ensures Unique(s.history.halted)
    ensures forall t :: t in s.history.halted
                        <==> t in s.threads && s.threads[t].proc.Inbox? && s.threads[t].proc.signaled
  {
    ReachableIsInvariant(s);
  }

  /**
  With p inboxes between the load and the subtraction and at most M live inboxes ever, the
  counter minus p is at least 1 - M; so the subtraction does not wrap around.
  */
  lemma OvershootIsBounded(s: State)
    requires Reachable(s) && Small(s)
    ensures s.core.haltCount - Number(Subtracting, s) >= 1 - s.history.mostLive
    ensures Number(LiveInboxes, s) <= s.history.mostLive
    ensures Number(Subtracting, s) > 0 ==> Decremented(s.core.haltCount) == s.core.haltCount - 1
  {
    ReachableIsInvariant(s);
  }

  /** After a total halt, with fewer than i32::MAX inboxes ever created, the counter stays positive. */
  lemma TotalHaltIsForever(s: State)
    requires Reachable(s) && s.history.total && Number(EveryInbox, s) < I32_MAX
    ensures s.core.haltCount > 0
  {
    ReachableIsInvariant(s);
    SignaledAreInboxes(s);
  }

  // ---------------------------------------------------------------------------------------
  // Messages
  // ---------------------------------------------------------------------------------------

  /** First in, first out: what was accepted is what was taken, in that order, and then the queue. */
  lemma FirstInFirstOut(s: State)
    requires Reachable(s)
    ensures s.history.accepted == Bodies(s.history.taken) + s.core.queue
    ensures NoDuplicates(s.history.accepted)
  {
    ReachableIsInvariant(s);
  }

  /**
  Where a message can be: with a call that is still sending; returned to the caller, by an error; dropped together with
  the unfinished call; in the queue; with the inbox that received it, or that discarded it on leaving.
  */
  datatype Place =
    | StillSending
    | HandedBack
    | DroppedUnsent
    | InQueue
    | ReceivedBy(inbox: Tid)
    | DiscardedBy(inbox: Tid)

  predicate AtSender(p: Place) {
    p.StillSending? || p.HandedBack? || p.DroppedUnsent?
  }

  predicate Submitted(s: State, m: Message) {
    m.tag in s.threads && s.threads[m.tag].proc.Send? && s.threads[m.tag].proc.msg == m
  }

  ghost predicate At(s: State, m: Message, place: Place) {
    match place
    case StillSending =>
      Submitted(s, m) && !s.threads[m.tag].proc.send.Finished? && !s.threads[m.tag].proc.send.Released?
    case HandedBack =>
      && Submitted(s, m)
      && (|| s.threads[m.tag].proc.send == Finished(false, Some(m))
          || s.threads[m.tag].proc.send == Released(false, Some(m)))
    case DroppedUnsent => Submitted(s, m) && s.threads[m.tag].proc.send == Released(false, None)
    case InQueue => m in s.core.queue
    case ReceivedBy(t) => Taken(t, m, true) in s.history.taken
    case DiscardedBy(t) => Taken(t, m, false) in s.history.taken
  }

  lemma TakenIsAccepted(s: State, i: nat)
    requires Fifo(s) && i < |s.history.taken|
    ensures i < |s.history.accepted| && s.history.accepted[i] == s.history.taken[i].msg
  {
    assert s.history.accepted[i] == Bodies(s.history.taken)[i];
  }

  /** Every submitted message is in exactly one place, and nowhere else than with its sender until it is accepted. */
  lemma EveryMessageIsInOnePlace(s: State, m: Message)
    requires Reachable(s) && Submitted(s, m)
    ensures exists p :: At(s, m, p)
    ensures forall p, q :: At(s, m, p) && At(s, m, q) ==> p == q
    ensures forall p :: At(s, m, p) ==> (AtSender(p) <==> m !in s.history.accepted)
  {
    ReachableIsInvariant(s);
    if m in s.history.accepted {
      PlaceExists(s, m);
    } else {
      PlaceAtSender(s, m);
    }
    forall p, q | At(s, m, p) && At(s, m, q) ensures p == q {
      PlaceIsUnique(s, m, p, q);
    }
    forall p | At(s, m, p) ensures AtSender(p) <==> m !in s.history.accepted {
      SenderKeepsUnaccepted(s, m, p);
    }
  }

  lemma PlaceAtSender(s: State, m: Message)
    requires Owned(s) && Submitted(s, m) && m !in s.history.accepted
    ensures exists p :: At(s, m, p)
  {
    var send := s.threads[m.tag].proc.send;
    assert GivesBack(s.threads[m.tag].proc) && !Delivered(s.threads[m.tag].proc);
    assert At(s, m, if send.Finished? || send == Released(false, Some(m)) then HandedBack
                    else if send.Released? then DroppedUnsent else StillSending);
  }

  lemma SenderKeepsUnaccepted(s: State, m: Message, p: Place)
    requires Fifo(s) && Owned(s) && At(s, m, p)
    ensures AtSender(p) <==> m !in s.history.accepted
  {
    if !AtSender(p) {
      var i := PositionOf(s, m, p);
    } else {
      assert !Delivered(s.threads[m.tag].proc);
    }
  }

  lemma PlaceExists(s: State, m: Message)
    requires Fifo(s) && m in s.history.accepted
    ensures exists p :: At(s, m, p)
  {
    var i :| 0 <= i < |s.history.accepted| && s.history.accepted[i] == m;
    if i < |s.history.taken| {
      TakenIsAccepted(s, i);
      var x := s.history.taken[i];
      assert At(s, m, if x.received then ReceivedBy(x.taker) else DiscardedBy(x.taker));
    } else {
      assert s.core.queue[i - |s.history.taken|] == m;
      assert At(s, m, InQueue);
    }
  }

  /** The position in the order of acceptance that a place stands for. */
  lemma PositionOf(s: State, m: Message, p: Place) returns (i: nat)
    requires Fifo(s) && At(s, m, p) && !AtSender(p)
    ensures i < |s.history.accepted| && s.history.accepted[i] == m
    ensures p.InQueue? <==> i >= |s.history.taken|
    ensures p.ReceivedBy? ==> s.history.taken[i] == Taken(p.inbox, m, true)
    ensures p.DiscardedBy? ==> s.history.taken[i] == Taken(p.inbox, m, false)
  {
    if p.InQueue? {
      var j :| 0 <= j < |s.core.queue| && s.core.queue[j] == m;
      i := |s.history.taken| + j;
    } else {
      i :| 0 <= i < |s.history.taken| && s.history.taken[i] == Taken(p.inbox, m, p.ReceivedBy?);
      TakenIsAccepted(s, i);
    }
  }

  lemma PlaceIsUnique(s: State, m: Message, p: Place, q: Place)
    requires Fifo(s) && Owned(s) && NoDuplicates(s.history.accepted)
    requires At(s, m, p) && At(s, m, q)
    ensures p == q
  {
    SenderKeepsUnaccepted(s, m, p);
    SenderKeepsUnaccepted(s, m, q);
    if !AtSender(p) && !AtSender(q) {
      var i := PositionOf(s, m, p);
      var j := PositionOf(s, m, q);
      assert i == j;
    }
  }

  /** The caller knows: Ok means accepted, an error means the very message comes back. */
  lemma CallerKnows(s: State, t: Tid)
    requires Reachable(s) && t in s.threads && s.threads[t].proc.Send? && s.threads[t].proc.send.Finished?
    ensures var p := s.threads[t].proc;
            if p.send.sent then p.msg in s.history.accepted && p.send.back == None
            else p.msg !in s.history.accepted && p.send.back == Some(p.msg)
  {
    ReachableIsInvariant(s);
    assert GivesBack(s.threads[t].proc);
  }

  /** What an inbox returned as received is a message that it alone took. */
  lemma ReceiverIsHonest(s: State, t: Tid, m: Message)
    requires Reachable(s) && t in s.threads && Holding(s.threads[t].proc, m)
    ensures At(s, m, ReceivedBy(t))
    ensures forall u :: At(s, m, ReceivedBy(u)) ==> u == t
  {
    ReachableIsInvariant(s);
    assert At(s, m, ReceivedBy(t));
    forall u | At(s, m, ReceivedBy(u)) ensures u == t {
      PlaceIsUnique(s, m, ReceivedBy(u), ReceivedBy(t));
    }
  }

  /**
  The receipt is complete: what an inbox took for receiving is what it returned to its callers, in the same
  order, and at most one message more, which the poll in progress is about to return.
  */
  lemma EveryTakenMessageIsAnswered(s: State, t: Tid)
    requires Reachable(s)
    ensures TakenBy(s.history.taken, t) == ReturnedBy(s.history.answers, t) + Gots(UnreturnedBy(s, t))
  {
    ReachableIsInvariant(s);
    assert MessagesAnswered(s, t);
  }

  /** An inbox is told to halt exactly by one answer Halted, and gets no other. */
  lemma HaltIsAnsweredOnce(s: State, t: Tid)
    requires Reachable(s)
    ensures HaltsReturnedBy(s.history.answers, t) + Halts(UnreturnedBy(s, t)) == One(t in s.history.halted)
    ensures HaltsReturnedBy(s.history.answers, t) <= 1
  {
    ReachableIsInvariant(s);
    assert HaltsAnswered(s, t);
  }

  // ---------------------------------------------------------------------------------------
  // Counters
  // ---------------------------------------------------------------------------------------

  /** The two counters are exact, so the assertions in remove_inbox and remove_address hold. */
  lemma CountersAreExact(s: State, t: Tid)
    requires Reachable(s)
    ensures s.core.inboxCount == Number(LiveInboxes, s)
    ensures s.core.addressCount == Number(LiveAddresses, s)
    ensures t in s.threads && s.threads[t].proc.Inbox? && s.threads[t].proc.recv.Leaving? ==> s.core.inboxCount >= 1
    ensures t in s.threads && Can(s.threads[t], Abandon) && s.threads[t].proc.Address? ==> s.core.addressCount >= 1
  {
    ReachableIsInvariant(s);
    if t in s.threads && Live(s.threads[t]) {
      LeavingIsCounted(s, t);
    }
    if t in s.threads && Counts(LiveAddresses, s.threads[t]) {
      AddressIsCounted(s, t);
    }
  }
}
