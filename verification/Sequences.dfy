/** Sequences without repetition. */
module Sequences {
  predicate DistinctItems<T(==)>(s: seq<T>) {
    forall i, j | 0 <= i < j < |s| :: s[i] != s[j]
  }

  function SetOf<T>(s: seq<T>): set<T> {
    set x | x in s
  }

  lemma {:induction false} OnceEach<T>(s: seq<T>, x: T)
    requires DistinctItems(s)
    ensures multiset(s)[x] <= 1
  {
    if s != [] {
      OnceEach(s[1..], x);
      assert s == [s[0]] + s[1..];
      if s[0] == x { assert x !in s[1..]; }
    }
  }

  lemma {:induction false} RepeatedIsCounted<T>(s: seq<T>, i: nat, j: nat)
    requires i < j < |s| && s[i] == s[j]
    ensures multiset(s)[s[i]] >= 2
  {
    assert s == s[..j] + [s[j]] + s[j + 1..];
    assert s[i] in s[..j];
  }

  /** A permutation repeats nothing that the original does not repeat. */
  lemma PermutationKeepsDistinct<T>(s: seq<T>, t: seq<T>)
    requires multiset(s) == multiset(t) && DistinctItems(s)
    ensures DistinctItems(t) && |t| == |s| && forall x :: x in t <==> x in s
  {
    assert |multiset(s)| == |s| && |multiset(t)| == |t|;
    forall x ensures x in t <==> x in s {
      assert x in t <==> x in multiset(t);
      assert x in s <==> x in multiset(s);
    }
    forall i, j | 0 <= i < j < |t| ensures t[i] != t[j] {
      if t[i] == t[j] {
        RepeatedIsCounted(t, i, j);
        OnceEach(s, t[i]);
      }
    }
  }

  lemma {:induction false} DistinctCardinality<T>(s: seq<T>)
    requires DistinctItems(s)
    ensures |SetOf(s)| == |s|
  {
    if s != [] {
      DistinctCardinality(s[1..]);
      assert s[0] !in SetOf(s[1..]);
      assert SetOf(s) == SetOf(s[1..]) + {s[0]};
    }
  }

  /** Two listings of one set without repetition are equally long. */
  lemma SameSetSameLength<T>(s: seq<T>, t: seq<T>)
    requires DistinctItems(s) && DistinctItems(t) && SetOf(s) == SetOf(t)
    ensures |s| == |t|
  {
    DistinctCardinality(s);
    DistinctCardinality(t);
  }
}
