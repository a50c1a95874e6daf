/** The corpus commitment, `corpus_aggregate_commitment_v1` of b2/bm0.py: every
    planned item belongs to one pool under one alias, no mutation is derived from
    the hidden holdout, and the digest identifies the holdout. */
module Bm0Corpus {
  import opened Wrappers
  import opened Bm0Manifest

  datatype Item = Item(itemAlias: Id, commitment: Id)

  /** The hash is injective: a digest is the sorted item list it was taken over. */
  datatype Digest = Digest(itemCount: nat, items: seq<Item>)

  datatype Fault = MalformedTrial | AliasConflict | CommitmentConflict | SelfParent | ParentInHoldout

  function ItemOf(a: Attempt): Item {
    Item(a.binding.itemAlias, a.binding.itemCommitment)
  }

  predicate Hidden(a: Attempt) {
    a.binding.pool == PrivateHoldout
  }

  /** `validate_trial_identity`: mutations, and only they, name a parent. */
  predicate WellFormed(a: Attempt) {
    a.mutationParent.Some? <==> a.binding.pool == MutationPool
  }

  // ---- what an accepted plan looks like -----------------------------------

  predicate SameAlias(a: Attempt, b: Attempt) {
    a.binding.itemAlias == b.binding.itemAlias
  }

  predicate SameCommitment(a: Attempt, b: Attempt) {
    a.binding.itemCommitment == b.binding.itemCommitment
  }

  /** Alias and commitment determine each other, and either determines the pool. */
  predicate Bijective(a: Attempt, b: Attempt) {
    (SameAlias(a, b) <==> SameCommitment(a, b)) && (SameAlias(a, b) ==> a.binding.pool == b.binding.pool)
  }

  /** `a` is not derived from itself, nor from `b` when `b` is hidden. */
  predicate ParentOutside(a: Attempt, b: Attempt) {
    a.mutationParent != Some(a.binding.itemCommitment)
    && (Hidden(b) ==> a.mutationParent != Some(b.binding.itemCommitment))
  }

  ghost predicate Sound(attempts: seq<Attempt>) {
    (forall a | a in attempts :: WellFormed(a))
    && (forall a, b | a in attempts && b in attempts :: Bijective(a, b))
    && (forall a, b | a in attempts && b in attempts :: ParentOutside(a, b))
  }

  function HoldoutItems(attempts: seq<Attempt>): set<Item> {
    set a | a in attempts && Hidden(a) :: ItemOf(a)
  }

  // ---- sorting a set of items ---------------------------------------------

  predicate Before(a: Item, b: Item) {
    a.itemAlias < b.itemAlias || (a.itemAlias == b.itemAlias && a.commitment <= b.commitment)
  }

  predicate IsLeast(least: Item, items: set<Item>) {
    least in items && forall x | x in items :: Before(least, x)
  }

  lemma {:induction false} LeastExists(items: set<Item>)
    requires items != {}
    ensures exists least :: IsLeast(least, items)
  {
    var some :| some in items;
    if items == {some} {
      assert IsLeast(some, items);
    } else {
      var others := items - {some};
      LeastExists(others);
      var rest :| IsLeast(rest, others);
      assert forall x | x in items :: x == some || x in others;
      assert IsLeast(if Before(some, rest) then some else rest, items);
    }
  }

  function SortedItems(items: set<Item>): (s: seq<Item>)
    ensures |s| == |items|
    ensures forall x :: x in s <==> x in items
    ensures forall i, j | 0 <= i < j < |s| :: Before(s[i], s[j])
  {
    if items == {} then []
    else
      LeastExists(items);
      var least :| IsLeast(least, items);
      [least] + SortedItems(items - {least})
  }

  // ---- the loop -----------------------------------------------------------

  type Owner = (Pool, Id)

  /** The dictionaries the loop fills. */
  datatype Ledger = Ledger(aliases: map<Id, Owner>, commitments: map<Id, Owner>, parents: set<Id>)

  function Grow(l: Ledger, a: Attempt): Ledger {
    Ledger(l.aliases[a.binding.itemAlias := (a.binding.pool, a.binding.itemCommitment)],
           l.commitments[a.binding.itemCommitment := (a.binding.pool, a.binding.itemAlias)],
           l.parents + if a.mutationParent.Some? then {a.mutationParent.value} else {})
  }

  predicate Listed(l: Ledger, a: Attempt) {
    a.binding.itemAlias in l.aliases && l.aliases[a.binding.itemAlias] == (a.binding.pool, a.binding.itemCommitment)
    && a.binding.itemCommitment in l.commitments
    && l.commitments[a.binding.itemCommitment] == (a.binding.pool, a.binding.itemAlias)
    && (a.mutationParent.Some? ==> a.mutationParent.value in l.parents)
  }

  predicate HasAlias(attempts: seq<Attempt>, alias: Id) {
    exists a :: a in attempts && a.binding.itemAlias == alias
  }

  predicate HasCommitment(attempts: seq<Attempt>, commitment: Id) {
    exists a :: a in attempts && a.binding.itemCommitment == commitment
  }

  predicate HasParent(attempts: seq<Attempt>, parent: Id) {
    exists a :: a in attempts && a.mutationParent == Some(parent)
  }

  /** The ledger lists exactly the attempts seen. */
  ghost predicate Recorded(attempts: seq<Attempt>, l: Ledger) {
    (forall a | a in attempts :: Listed(l, a))
    && (forall alias | alias in l.aliases :: HasAlias(attempts, alias))
    && (forall c | c in l.commitments :: HasCommitment(attempts, c))
    && (forall p | p in l.parents :: HasParent(attempts, p))
  }

  /** What the loop objects to in `a`, given the attempts before it. */
  function FaultOf(before: seq<Attempt>, a: Attempt): Option<Fault> {
    if exists b :: b in before && SameAlias(a, b) && !SameItem(a, b) then Some(AliasConflict)
    else if exists b :: b in before && SameCommitment(a, b) && !SameItem(a, b) then Some(CommitmentConflict)
    else if a.mutationParent == Some(a.binding.itemCommitment) then Some(SelfParent)
    else None
  }

  predicate SameItem(a: Attempt, b: Attempt) {
    a.binding.pool == b.binding.pool && ItemOf(a) == ItemOf(b)
  }

  function FaultAt(attempts: seq<Attempt>, i: nat): Option<Fault>
    requires i < |attempts|
  {
    FaultOf(attempts[..i], attempts[i])
  }

  predicate FaultFree(attempts: seq<Attempt>) {
    forall i | 0 <= i < |attempts| :: FaultAt(attempts, i) == None
  }

  lemma LookupsFindTheFault(before: seq<Attempt>, l: Ledger, a: Attempt)
    requires Recorded(before, l)
    ensures a.binding.itemAlias in l.aliases && l.aliases[a.binding.itemAlias] != (a.binding.pool, a.binding.itemCommitment)
            <==> exists b :: b in before && SameAlias(a, b) && !SameItem(a, b)
    ensures a.binding.itemCommitment in l.commitments && l.commitments[a.binding.itemCommitment] != (a.binding.pool, a.binding.itemAlias)
            <==> exists b :: b in before && SameCommitment(a, b) && !SameItem(a, b)
  {
    if a.binding.itemAlias in l.aliases {
      assert HasAlias(before, a.binding.itemAlias);
    }
    if a.binding.itemCommitment in l.commitments {
      assert HasCommitment(before, a.binding.itemCommitment);
    }
  }

  lemma GrowKeepsRecord(before: seq<Attempt>, l: Ledger, a: Attempt)
    requires Recorded(before, l) && FaultOf(before, a) == None
    ensures Recorded(before + [a], Grow(l, a))
  {
    var after, m := before + [a], Grow(l, a);
    forall b | b in after ensures Listed(m, b) {
      if b in before { assert Listed(l, b) && (SameAlias(a, b) || SameCommitment(a, b) ==> SameItem(a, b)); }
    }
    forall alias | alias in m.aliases ensures HasAlias(after, alias) {
      if alias in l.aliases { assert HasAlias(before, alias); } else { assert a in after; }
    }
    forall c | c in m.commitments ensures HasCommitment(after, c) {
      if c in l.commitments { assert HasCommitment(before, c); } else { assert a in after; }
    }
    forall p | p in m.parents ensures HasParent(after, p) {
      if p in l.parents { assert HasParent(before, p); } else { assert a in after; }
    }
  }

  /** No attempt is its own parent, and any two are bound consistently. */
  ghost predicate Consistent(attempts: seq<Attempt>) {
    (forall a, b | a in attempts && b in attempts :: Bijective(a, b))
    && (forall a | a in attempts :: a.mutationParent != Some(a.binding.itemCommitment))
  }

  lemma FaultIsInconsistent(attempts: seq<Attempt>, i: nat)
    requires i < |attempts| && FaultAt(attempts, i) != None
    ensures !Consistent(attempts) && !Sound(attempts)
  {
    var a := attempts[i];
    assert a in attempts && forall b | b in attempts[..i] :: b in attempts;
    if b :| b in attempts[..i] && (SameAlias(a, b) || SameCommitment(a, b)) && !SameItem(a, b) {
      assert !Bijective(a, b);
    }
  }

  lemma FaultFreeIsConsistent(attempts: seq<Attempt>)
    requires FaultFree(attempts)
    ensures Consistent(attempts)
  {
    forall a | a in attempts ensures a.mutationParent != Some(a.binding.itemCommitment) {
      var i :| 0 <= i < |attempts| && attempts[i] == a;
      assert FaultAt(attempts, i) == None;
    }
    forall a, b | a in attempts && b in attempts ensures Bijective(a, b) {
      var i :| 0 <= i < |attempts| && attempts[i] == a;
      var j :| 0 <= j < |attempts| && attempts[j] == b;
      if i < j {
        assert a in attempts[..j] && FaultAt(attempts, j) == None;
      } else if j < i {
        assert b in attempts[..i] && FaultAt(attempts, i) == None;
      }
    }
  }

  function HiddenIn(l: Ledger): set<Item> {
    set alias | alias in l.aliases && l.aliases[alias].0 == PrivateHoldout :: Item(alias, l.aliases[alias].1)
  }

  lemma LedgerListsHoldout(attempts: seq<Attempt>, l: Ledger)
    requires Recorded(attempts, l)
    ensures HiddenIn(l) == HoldoutItems(attempts)
  {
    forall item | item in HiddenIn(l) ensures item in HoldoutItems(attempts) {
      assert HasAlias(attempts, item.itemAlias);
    }
    forall item | item in HoldoutItems(attempts) ensures item in HiddenIn(l) {
      var a :| a in attempts && Hidden(a) && ItemOf(a) == item;
      assert Listed(l, a);
    }
  }

  predicate ParentHidden(parents: set<Id>, items: set<Item>) {
    parents * (set item | item in items :: item.commitment) != {}
  }

  lemma HiddenParentIsUnsound(attempts: seq<Attempt>, l: Ledger)
    requires Recorded(attempts, l) && Consistent(attempts)
    ensures ParentHidden(l.parents, HoldoutItems(attempts)) <==>
              !forall a, b | a in attempts && b in attempts :: ParentOutside(a, b)
  {
    var commitments := set item | item in HoldoutItems(attempts) :: item.commitment;
    if p :| p in l.parents * commitments {
      assert HasParent(attempts, p);
      var a :| a in attempts && a.mutationParent == Some(p);
      var b :| b in attempts && Hidden(b) && b.binding.itemCommitment == p;
      assert !ParentOutside(a, b);
    }
    if a, b :| a in attempts && b in attempts && !ParentOutside(a, b) {
      assert Listed(l, a) && ItemOf(b) in HoldoutItems(attempts);
      assert a.mutationParent.value in l.parents * commitments;
    }
  }

  method Commit(attempts: seq<Attempt>) returns (r: Result<Digest, Fault>)
    ensures r.Ok? <==> Sound(attempts)
    ensures r.Ok? ==> r.value == DigestOf(attempts)
    ensures r == Err(MalformedTrial) <==> exists a :: a in attempts && !WellFormed(a)
    ensures r.Err? && r.error != MalformedTrial && r.error != ParentInHoldout ==>
              exists i :: 0 <= i < |attempts| && FaultAt(attempts, i) == Some(r.error) && FaultFree(attempts[..i])
    ensures r == Err(ParentInHoldout) ==> FaultFree(attempts)
  {
    hide Bijective, ParentOutside, FaultOf, Listed, HoldoutItems, SortedItems;
    if exists i :: 0 <= i < |attempts| && !WellFormed(attempts[i]) {
      return Err(MalformedTrial);
    }
    var l := Ledger(map[], map[], {});
    for i := 0 to |attempts|
      invariant Recorded(attempts[..i], l)
      invariant FaultFree(attempts[..i])
    {
      var a := attempts[i];
      var fault := Check(attempts[..i], l, a);
      if fault.Some? {
        assert FaultAt(attempts, i) == fault;
        FaultIsInconsistent(attempts, i);
        return Err(fault.value);
      }
      GrowKeepsRecord(attempts[..i], l, a);
      l := Grow(l, a);
      FaultFreeGrows(attempts, i);
      assert attempts[..i + 1] == attempts[..i] + [a];
    }
    assert attempts[..|attempts|] == attempts;
    FaultFreeIsConsistent(attempts);
    LedgerListsHoldout(attempts, l);
    HiddenParentIsUnsound(attempts, l);
    if ParentHidden(l.parents, HiddenIn(l)) {
      return Err(ParentInHoldout);
    }
    return Ok(Digest(|HiddenIn(l)|, SortedItems(HiddenIn(l))));
  }

  lemma FaultFreeGrows(attempts: seq<Attempt>, i: nat)
    requires i < |attempts| && FaultFree(attempts[..i]) && FaultAt(attempts, i) == None
    ensures FaultFree(attempts[..i + 1])
  {
    hide FaultOf;
    var next := attempts[..i + 1];
    forall j | 0 <= j < |next| ensures FaultAt(next, j) == None {
      assert next[..j] == attempts[..j];
      if j < i { assert attempts[..i][..j] == attempts[..j] && FaultAt(attempts[..i], j) == None; }
    }
  }

  /** The three tests of one pass through the loop. */
  method Check(ghost before: seq<Attempt>, l: Ledger, a: Attempt) returns (fault: Option<Fault>)
    requires Recorded(before, l)
    ensures fault == FaultOf(before, a)
    ensures fault.Some? ==> fault.value in {AliasConflict, CommitmentConflict, SelfParent}
  {
    LookupsFindTheFault(before, l, a);
    var alias, commitment := a.binding.itemAlias, a.binding.itemCommitment;
    if alias in l.aliases && l.aliases[alias] != (a.binding.pool, commitment) {
      return Some(AliasConflict);
    }
    if commitment in l.commitments && l.commitments[commitment] != (a.binding.pool, alias) {
      return Some(CommitmentConflict);
    }
    if a.mutationParent == Some(commitment) {
      return Some(SelfParent);
    }
    return None;
  }

  // ---- what the digest identifies -----------------------------------------

  /** The digest of an accepted plan. */
  function DigestOf(attempts: seq<Attempt>): Digest {
    Digest(|HoldoutItems(attempts)|, SortedItems(HoldoutItems(attempts)))
  }

  /** Two plans have the same digest exactly when they hide the same items;
      neither the order nor the repetition of attempts plays a part. */
  lemma DigestIdentifiesHoldout(some: seq<Attempt>, other: seq<Attempt>)
    ensures DigestOf(some) == DigestOf(other) <==> HoldoutItems(some) == HoldoutItems(other)
    ensures (forall a :: a in some <==> a in other) ==>
              (Sound(some) <==> Sound(other)) && DigestOf(some) == DigestOf(other)
  {
    var a, b := HoldoutItems(some), HoldoutItems(other);
    if SortedItems(a) == SortedItems(b) {
      assert forall x :: x in a <==> x in SortedItems(a);
      assert forall x :: x in b <==> x in SortedItems(b);
    }
  }
}
