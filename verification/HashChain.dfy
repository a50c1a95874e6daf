/** The event hash chain of search_cup/v23_t6_cslive_evidence.py.

    An event is a JSON object; a key may be missing or hold null, which
    `dict.get` cannot tell apart but the digest can. A digest is an injective
    function of the payload it is taken over, so it is a constructor here. */
module HashChain {
  import opened Wrappers

  datatype Field<+T> = Missing | Null | Held(value: T) {
    function Get(): Option<T> {
      match this
      case Held(v) => Some(v)
      case _ => None
    }
  }

  datatype Digest = Digest(payload: Payload)

  /** Every key of an event except its own hash; `body` stands for the other keys. */
  datatype Payload = Payload(sequence: Field<int>, previousHash: Field<Digest>, body: nat)

  datatype Event = Event(payload: Payload, eventHash: Field<Digest>)

  /** The hash the next event has to name: None before the first event. */
  function Tip(events: seq<Event>): Option<Digest> {
    if events == [] then None else events[|events| - 1].eventHash.Get()
  }

  /** Event i carries its position, the hash of its predecessor and its own digest. */
  predicate Linked(events: seq<Event>, i: nat)
    requires i < |events|
  {
    && events[i].payload.sequence == Held(i + 1)
    && events[i].payload.previousHash.Get() == Tip(events[..i])
    && events[i].eventHash == Held(Digest(events[i].payload))
  }

  predicate Verified(events: seq<Event>) {
    forall i | 0 <= i < |events| :: Linked(events, i)
  }

  method VerifyChain(events: seq<Event>) returns (ok: bool)
    ensures ok == Verified(events)
  {
    var previous: Option<Digest> := None;
    var i := 0;
    while i < |events|
      invariant 0 <= i <= |events|
      invariant previous == Tip(events[..i])
      invariant forall j | 0 <= j < i :: Linked(events, j)
    {
      var event := events[i];
      if event.payload.sequence.Get() != Some(i + 1)
        || event.payload.previousHash.Get() != previous
        || event.eventHash.Get() != Some(Digest(event.payload))
      {
        assert !Linked(events, i);
        return false;
      }
      assert Linked(events, i);
      previous := event.eventHash.Get();
      i := i + 1;
      assert events[..i][i - 1] == event;
    }
    assert events[..i] == events;
    return true;
  }

  lemma PrefixVerifies(events: seq<Event>, n: nat)
    requires Verified(events) && n <= |events|
    ensures Verified(events[..n])
  {
    forall i | 0 <= i < n ensures Linked(events[..n], i) {
      assert Linked(events, i);
      assert events[..n][..i] == events[..i];
    }
  }

  /** Two verified histories that end in the same event hash are the same history,
      whatever their lengths. */
  lemma {:induction false} SameTipSameHistory(a: seq<Event>, b: seq<Event>)
    requires Verified(a) && Verified(b) && Tip(a) == Tip(b)
    ensures a == b
    decreases |a|
  {
    if a == [] || b == [] {
      assert forall s: seq<Event> | Verified(s) && s != [] :: Linked(s, |s| - 1);
    } else {
      var m, n := |a| - 1, |b| - 1;
      assert Linked(a, m) && Linked(b, n);
      assert a[m] == b[n] && m == n;
      PrefixVerifies(a, m);
      PrefixVerifies(b, n);
      SameTipSameHistory(a[..m], b[..n]);
      assert a == a[..m] + [a[m]] && b == b[..n] + [b[n]];
    }
  }

  /** Appending keeps a history verified exactly when the new event is linked to its tip. */
  lemma AppendVerifies(events: seq<Event>, e: Event)
    ensures Verified(events + [e]) <==>
      && Verified(events)
      && e.payload.sequence == Held(|events| + 1)
      && e.payload.previousHash.Get() == Tip(events)
      && e.eventHash == Held(Digest(e.payload))
  {
    var all, n := events + [e], |events|;
    assert all[..n] == events;
    if Verified(all) {
      PrefixVerifies(all, n);
      assert Linked(all, n);
    }
    if Verified(events) {
      forall i | 0 <= i < n ensures Linked(all, i) {
        assert Linked(events, i) && all[..i] == events[..i];
      }
    }
  }
}
