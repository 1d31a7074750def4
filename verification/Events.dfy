/**
The specification this project assumes of the event_listener library, version 2.

An event keeps its listeners in the order in which they registered. The library walks a start
pointer over that list, so the notified listeners always form a prefix of it: an event is
the notified prefix followed by the listeners that still wait.
*/
module Events {

  type Key = nat

  datatype Event = Event(woken: seq<Key>, waiting: seq<Key>)

  const NO_LISTENERS := Event([], [])

  /** Every registered listener, in order. */
  function All(e: Event): seq<Key> {
    e.woken + e.waiting
  }

  predicate Active(e: Event, k: Key) {
    k in e.woken || k in e.waiting
  }

  predicate Unique(ks: seq<Key>) {
    forall i, j :: 0 <= i < j < |ks| ==> ks[i] != ks[j]
  }

  function Without(ks: seq<Key>, k: Key): seq<Key> {
    if ks == [] then []
    else if ks[0] == k then Without(ks[1..], k)
    else [ks[0]] + Without(ks[1..], k)
  }

  /** A new listener goes to the back and has no notification. */
  function Listen(e: Event, k: Key): Event {
    Event(e.woken, e.waiting + [k])
  }

  /**
  Makes sure that at least n of the active listeners are notified: listeners that are already
  notified count, so a second notification may wake nobody.
  */
  function Notify(e: Event, n: nat): Event {
    var missing := if n <= |e.woken| then 0 else n - |e.woken|;
    var count := if missing <= |e.waiting| then missing else |e.waiting|;
    Event(e.woken + e.waiting[..count], e.waiting[count..])
  }

  /** Notifying usize::MAX listeners reaches every listener there can be. */
  function NotifyAll(e: Event): Event {
    Notify(e, |e.woken| + |e.waiting|)
  }

  /** Takes a listener off the list, which is what a ready poll of it does. */
  function Remove(e: Event, k: Key): Event {
    Event(Without(e.woken, k), Without(e.waiting, k))
  }

  /** Dropping a listener that holds a notification passes the notification on. */
  function Drop(e: Event, k: Key): Event {
    if k in e.woken then Notify(Remove(e, k), 1) else Remove(e, k)
  }

  // ---------------------------------------------------------------------------------------
  // What the operations guarantee
  // ---------------------------------------------------------------------------------------

  lemma {:induction false} WithoutIsRemoval(ks: seq<Key>, k: Key)
    ensures forall u :: u in Without(ks, k) <==> u in ks && u != k
    ensures |Without(ks, k)| <= |ks|
    ensures k !in ks ==> Without(ks, k) == ks
  {
    if ks != [] {
      WithoutIsRemoval(ks[1..], k);
      assert ks == [ks[0]] + ks[1..];
    }
  }

  lemma {:induction false} WithoutKeepsUnique(ks: seq<Key>, k: Key)
    requires Unique(ks)
    ensures Unique(Without(ks, k))
    ensures k in ks ==> |Without(ks, k)| == |ks| - 1
  {
    if ks != [] {
      WithoutKeepsUnique(ks[1..], k);
      WithoutIsRemoval(ks[1..], k);
      assert ks == [ks[0]] + ks[1..];
      assert forall j :: 0 < j < |ks| ==> ks[0] != ks[j];
      assert ks[0] !in ks[1..];
    }
  }

  lemma {:induction false} WithoutDistributes(a: seq<Key>, b: seq<Key>, k: Key)
    ensures Without(a + b, k) == Without(a, k) + Without(b, k)
  {
    if a == [] {
      assert a + b == b;
    } else {
      assert (a + b)[1..] == a[1..] + b;
      WithoutDistributes(a[1..], b, k);
    }
  }

  lemma SplitKeepsMembers(ks: seq<Key>, i: nat)
    requires i <= |ks|
    ensures ks == ks[..i] + ks[i..]
    ensures forall k :: k in ks <==> k in ks[..i] || k in ks[i..]
  {
    var front, back := ks[..i], ks[i..];
    assert ks == front + back;
    forall k ensures k in ks <==> k in front || k in back {
      assert k in ks <==> k in front + back;
    }
  }

  /** A notification moves listeners from the front of those that wait to the end of those that are notified. */
  lemma NotifyMovesFront(e: Event, n: nat) returns (front: seq<Key>)
    ensures e.waiting == front + Notify(e, n).waiting
    ensures Notify(e, n).woken == e.woken + front
    ensures |e.woken| + |front| >= n || Notify(e, n).waiting == []
    ensures |e.woken| + |front| <= n || front == []
  {
    var count := |e.waiting| - |Notify(e, n).waiting|;
    front := e.waiting[..count];
    assert e.waiting == e.waiting[..count] + e.waiting[count..];
  }

  /** The library's promise: who is registered stays so, and at least n of them are notified. */
  lemma NotifyReachesAtLeast(e: Event, n: nat)
    ensures All(Notify(e, n)) == All(e)
    ensures e.woken <= Notify(e, n).woken
    ensures |Notify(e, n).woken| >= n || Notify(e, n).waiting == []
    ensures |Notify(e, n).woken| <= n || Notify(e, n) == e
    ensures forall k :: k in Notify(e, n).waiting ==> k in e.waiting
    ensures forall k :: Active(Notify(e, n), k) <==> Active(e, k)
  {
    hide Notify;
    var front := NotifyMovesFront(e, n);
    var f := Notify(e, n);
    assert (e.woken + front) + f.waiting == e.woken + (front + f.waiting);
    assert front == [] ==> f.woken == e.woken && f.waiting == e.waiting;
    assert forall k :: k in e.waiting <==> k in front || k in f.waiting;
  }

  /** Listeners that are notified already count, so a notification may change nothing. */
  lemma NotifiedAlready(e: Event, n: nat)
    requires n <= |e.woken|
    ensures Notify(e, n) == e
  {
    assert e.waiting[..0] == [] && e.waiting[0..] == e.waiting;
    assert e.woken + [] == e.woken;
  }

  /** What a notification does to an event: nobody new waits, and somebody or everybody is woken. */
  ghost predicate Woke(e: Event, e': Event) {
    && (forall u :: u in e'.waiting ==> u in e.waiting)
    && (e.woken != [] ==> e'.woken != [])
    && (e'.waiting == [] || e'.woken != [])
  }

  lemma NotifyWakes(e: Event, n: nat)
    requires n >= 1
    ensures Woke(e, Notify(e, n))
  {
    var f := Notify(e, n);
    var count := |e.waiting| - |f.waiting|;
    SplitKeepsMembers(e.waiting, count);
    var front, back := e.waiting[..count], e.waiting[count..];
    assert f == Event(e.woken + front, back);
    assert |f.woken| == |e.woken| + |front|;
  }

  lemma NotifyAllWakes(e: Event)
    ensures Woke(e, NotifyAll(e)) && NotifyAll(e).waiting == []
  {
    NotifyAllReachesEveryone(e);
    if |e.woken| + |e.waiting| >= 1 {
      NotifyWakes(e, |e.woken| + |e.waiting|);
    }
  }

  lemma NotifyAllReachesEveryone(e: Event)
    ensures NotifyAll(e) == Event(All(e), [])
    ensures forall k :: Active(NotifyAll(e), k) <==> Active(e, k)
  {
    var n := |e.waiting|;
    assert NotifyAll(e) == Event(e.woken + e.waiting[..n], e.waiting[n..]);
    assert e.waiting[..n] == e.waiting && e.waiting[n..] == [];
  }

  /** A new listener is the last to be notified. */
  lemma ListenGoesLast(e: Event, k: Key)
    ensures All(Listen(e, k)) == All(e) + [k]
    ensures Listen(e, k).woken == e.woken
  {
  }

  lemma ListenAddsOne(e: Event, k: Key)
    ensures forall u :: Active(Listen(e, k), u) <==> Active(e, u) || u == k
  {
  }

  lemma RemoveForgetsOnlyOne(e: Event, k: Key)
    ensures forall u :: Active(Remove(e, k), u) <==> Active(e, u) && u != k
    ensures forall u :: u in Remove(e, k).waiting ==> u in e.waiting
    ensures k !in e.woken ==> Remove(e, k).woken == e.woken
  {
    WithoutIsRemoval(e.woken, k);
    WithoutIsRemoval(e.waiting, k);
  }

  /** Dropping a listener never loses a notification while another listener could take it. */
  lemma DropKeepsNotification(e: Event, k: Key)
    ensures forall u :: Active(Drop(e, k), u) <==> Active(e, u) && u != k
    ensures forall u :: u in Drop(e, k).waiting ==> u in e.waiting && u != k
    ensures e.woken != [] ==> Drop(e, k).woken != [] || Drop(e, k).waiting == []
    ensures e.woken == [] ==> Drop(e, k).woken == []
  {
    hide Notify, Without;
    RemoveForgetsOnlyOne(e, k);
    WithoutIsRemoval(e.waiting, k);
    NotifyReachesAtLeast(Remove(e, k), 1);
  }

  lemma RemoveKeepsUnique(e: Event, k: Key)
    requires Unique(All(e))
    ensures Unique(All(Remove(e, k)))
  {
    WithoutKeepsUnique(All(e), k);
    WithoutDistributes(e.woken, e.waiting, k);
  }

  lemma ListenKeepsUnique(e: Event, k: Key)
    requires Unique(All(e)) && !Active(e, k)
    ensures Unique(All(Listen(e, k)))
  {
    var ks := All(e);
    assert k !in ks;
    assert All(Listen(e, k)) == ks + [k];
    assert forall i :: 0 <= i < |ks| ==> (ks + [k])[i] == ks[i];
  }

  /** A listener is on the list at most once, whatever happens to the event. */
  lemma NotifyKeepsUnique(e: Event, n: nat)
    requires Unique(All(e))
    ensures Unique(All(Notify(e, n)))
  {
    NotifyReachesAtLeast(e, n);
  }

  lemma DropKeepsUnique(e: Event, k: Key)
    requires Unique(All(e))
    ensures Unique(All(Drop(e, k)))
  {
    RemoveKeepsUnique(e, k);
    NotifyKeepsUnique(Remove(e, k), 1);
  }
}
