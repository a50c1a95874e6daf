/** Planned attempts of b2/bm0.py and the two checks of
    `validate_benchmark_manifest` that the estimators rest on: one binding per
    case_id, and one linear retry chain per trial. */
module Bm0Manifest {
  import opened Wrappers

  /** Identifiers are compared and sorted, nothing else. */
  type Id = nat

  datatype TargetClass = ModelDirect | ModelContextGrounded | AgentStandardized | SystemEvalOnly
  datatype Pool = PrivateHoldout | ControlPool | MutationPool | OtherPool

  /** The fields a case_id has to determine; `details` stands for lineage,
      fingerprint, generator, contamination and exposure. */
  datatype CaseBinding = CaseBinding(
    targetId: Id, entryId: Id, familyId: Id, variantId: Id,
    pool: Pool, itemAlias: Id, itemCommitment: Id, details: nat)

  /** Who is behind an attempt: how surely it is known, under which version, and
      which limitation is disclosed. */
  datatype Certainty = Exact | AliasOnly | SystemScope | Unresolved
  datatype Version = NoVersion | SystemVersion | Version(id: Id)
  datatype Limitation = NoLimitation | MovingAlias | UnverifiableAlias | SystemLimitation
  datatype ModelIdentity = ModelIdentity(certainty: Certainty, version: Version, limitation: Limitation)

  /** The rules an attempt and an observation share. */
  predicate WellStated(m: ModelIdentity) {
    match m.certainty
    case Exact => m.version.Version? && (m.limitation.NoLimitation? || m.limitation.MovingAlias?)
    case AliasOnly => m.version.NoVersion? && m.limitation.UnverifiableAlias?
    case SystemScope => m.version.SystemVersion? && m.limitation.SystemLimitation?
    case Unresolved => m.version.NoVersion? && !m.limitation.SystemLimitation?
  }

  /** `conditions` stands for the prompt, tool, scorer and control fields a paired
      comparison requires to agree, `runtime` for every other identity field. */
  datatype Attempt = Attempt(
    attemptId: Id, parent: Option<Id>, trialId: Id, modelId: Id, targetClass: TargetClass,
    caseId: Id, binding: CaseBinding, mutationParent: Option<Id>, replicate: nat, conditions: nat, runtime: nat,
    model: ModelIdentity)

  predicate UniqueIds(attempts: seq<Attempt>) {
    forall i, j | 0 <= i < j < |attempts| :: attempts[i].attemptId != attempts[j].attemptId
  }

  // ---- case bindings ------------------------------------------------------

  predicate CasesBound(attempts: seq<Attempt>) {
    forall i, j | 0 <= i < j < |attempts| ::
      attempts[i].caseId == attempts[j].caseId ==> attempts[i].binding == attempts[j].binding
  }

  method ValidateCases(attempts: seq<Attempt>) returns (ok: bool)
    ensures ok == CasesBound(attempts)
  {
    var bindings: map<Id, CaseBinding> := map[];
    for i := 0 to |attempts|
      invariant forall j | 0 <= j < i :: attempts[j].caseId in bindings && bindings[attempts[j].caseId] == attempts[j].binding
      invariant forall c | c in bindings :: exists j :: 0 <= j < i && attempts[j].caseId == c
      invariant CasesBound(attempts[..i])
    {
      var a := attempts[i];
      if a.caseId in bindings && bindings[a.caseId] != a.binding {
        var j :| 0 <= j < i && attempts[j].caseId == a.caseId;
        return false;
      }
      bindings := bindings[a.caseId := a.binding];
      assert attempts[..i + 1] == attempts[..i] + [a];
    }
    assert attempts[..|attempts|] == attempts;
    return true;
  }

  // ---- retry chains -------------------------------------------------------

  /** Every identity field except the attempt's own id and its parent link. */
  predicate SameIdentity(a: Attempt, b: Attempt) {
    a.(attemptId := b.attemptId, parent := b.parent) == b
  }

  predicate IsParent(attempts: seq<Attempt>, p: nat, i: nat)
    requires p < |attempts| && i < |attempts|
  {
    attempts[i].parent == Some(attempts[p].attemptId)
  }

  predicate ParentAccepted(attempts: seq<Attempt>, i: nat)
    requires i < |attempts|
  {
    attempts[i].parent.Some? ==>
      exists p :: 0 <= p < i && IsParent(attempts, p, i) && SameIdentity(attempts[p], attempts[i])
  }

  predicate Unbranched(attempts: seq<Attempt>) {
    forall i, j | 0 <= i < j < |attempts| :: attempts[i].parent.Some? ==> attempts[i].parent != attempts[j].parent
  }

  predicate Root(attempts: seq<Attempt>, r: nat, trial: Id) {
    r < |attempts| && attempts[r].trialId == trial && attempts[r].parent.None?
  }

  predicate OneRoot(attempts: seq<Attempt>, trial: Id) {
    && (exists r :: 0 <= r < |attempts| && Root(attempts, r, trial))
    && forall q, r | 0 <= q < r < |attempts| :: !(Root(attempts, q, trial) && Root(attempts, r, trial))
  }

  predicate RetriesAccepted(attempts: seq<Attempt>) {
    && UniqueIds(attempts)
    && (forall i | 0 <= i < |attempts| :: ParentAccepted(attempts, i))
    && Unbranched(attempts)
    && forall i | 0 <= i < |attempts| :: OneRoot(attempts, attempts[i].trialId)
  }

  datatype RetryError = DuplicateId | MissingParent | ParentNotEarlier | IdentityDrift | Branches | NotOneRoot

  predicate Indexes(index: map<Id, nat>, attempts: seq<Attempt>) {
    && (forall i | 0 <= i < |attempts| :: attempts[i].attemptId in index && index[attempts[i].attemptId] == i)
    && forall id | id in index :: index[id] < |attempts| && attempts[index[id]].attemptId == id
  }

  method IndexAttempts(attempts: seq<Attempt>) returns (index: map<Id, nat>, unique: bool)
    ensures unique == UniqueIds(attempts)
    ensures unique ==> Indexes(index, attempts)
  {
    index := map[];
    for i := 0 to |attempts|
      invariant Indexes(index, attempts[..i]) && UniqueIds(attempts[..i])
    {
      var a := attempts[i];
      if a.attemptId in index {
        assert attempts[index[a.attemptId]].attemptId == a.attemptId;
        return index, false;
      }
      index := index[a.attemptId := i];
      assert attempts[..i + 1] == attempts[..i] + [a];
    }
    assert attempts[..|attempts|] == attempts;
    unique := true;
  }

  /** Through the index the parent check is three lookups. */
  lemma ParentDecided(attempts: seq<Attempt>, index: map<Id, nat>, i: nat)
    requires UniqueIds(attempts) && Indexes(index, attempts) && i < |attempts| && attempts[i].parent.Some?
    ensures var id := attempts[i].parent.value;
      ParentAccepted(attempts, i) <==> id in index && index[id] < i && SameIdentity(attempts[index[id]], attempts[i])
  {
    var id := attempts[i].parent.value;
    if id in index && index[id] < i {
      assert IsParent(attempts, index[id], i);
    }
  }

  method CheckParent(attempts: seq<Attempt>, index: map<Id, nat>, i: nat) returns (error: Option<RetryError>)
    requires UniqueIds(attempts) && Indexes(index, attempts) && i < |attempts| && attempts[i].parent.Some?
    ensures error.None? <==> ParentAccepted(attempts, i)
  {
    ParentDecided(attempts, index, i);
    hide ParentAccepted;
    var parentId := attempts[i].parent.value;
    if parentId !in index {
      return Some(MissingParent);
    }
    var p := index[parentId];
    if p >= i {
      return Some(ParentNotEarlier);
    }
    return if SameIdentity(attempts[p], attempts[i]) then None else Some(IdentityDrift);
  }

  predicate NamedParent(attempts: seq<Attempt>, id: Id) {
    exists j :: 0 <= j < |attempts| && attempts[j].parent == Some(id)
  }

  /** `children` counts, for every id, the attempts that name it as parent. */
  predicate ChildrenCounted(attempts: seq<Attempt>, children: map<Id, nat>) {
    && (forall j | 0 <= j < |attempts| && attempts[j].parent.Some? :: attempts[j].parent.value in children)
    && (forall id | id in children :: children[id] >= 1 && NamedParent(attempts, id))
    && ((forall id | id in children :: children[id] <= 1) <==> Unbranched(attempts))
  }

  method CheckParents(attempts: seq<Attempt>, index: map<Id, nat>) returns (error: Option<RetryError>)
    requires UniqueIds(attempts) && Indexes(index, attempts)
    ensures error.None? <==> (forall i | 0 <= i < |attempts| :: ParentAccepted(attempts, i)) && Unbranched(attempts)
  {
    hide ParentAccepted, Indexes, UniqueIds, NamedParent;
    var children: map<Id, nat> := map[];
    for i := 0 to |attempts|
      invariant forall j | 0 <= j < i :: ParentAccepted(attempts, j)
      invariant ChildrenCounted(attempts[..i], children)
    {
      var parent := attempts[i].parent;
      if parent.Some? {
        error := CheckParent(attempts, index, i);
        if error.Some? {
          return;
        }
        ghost var before := children;
        children := children[parent.value := if parent.value in children then children[parent.value] + 1 else 1];
        ChildCounted(attempts[..i], attempts[i], before, children);
      } else {
        NoChildCounted(attempts, i, children);
        NoParentAccepted(attempts, i);
      }
      assert attempts[..i + 1] == attempts[..i] + [attempts[i]];
    }
    assert attempts[..|attempts|] == attempts;
    if exists id :: id in children && children[id] > 1 {
      return Some(Branches);
    }
    return None;
  }

  lemma NoParentAccepted(attempts: seq<Attempt>, i: nat)
    requires i < |attempts| && attempts[i].parent.None?
    ensures ParentAccepted(attempts, i)
  {}

  lemma NoChildCounted(attempts: seq<Attempt>, i: nat, children: map<Id, nat>)
    requires i < |attempts| && attempts[i].parent.None? && ChildrenCounted(attempts[..i], children)
    ensures ChildrenCounted(attempts[..i + 1], children)
  {
    assert attempts[..i + 1] == attempts[..i] + [attempts[i]];
    forall id | id in children ensures NamedParent(attempts[..i + 1], id) {
      assert NamedParent(attempts[..i], id);
      var j :| 0 <= j < i && attempts[..i][j].parent == Some(id);
      assert attempts[..i + 1][j].parent == Some(id);
    }
    if Unbranched(attempts[..i + 1]) {
      assert forall j | 0 <= j < i :: attempts[..i][j] == attempts[..i + 1][j];
    }
  }

  /** Counting one more child branches the chains exactly when the parent already had one. */
  lemma ChildCounted(attempts: seq<Attempt>, a: Attempt, before: map<Id, nat>, after: map<Id, nat>)
    requires a.parent.Some? && ChildrenCounted(attempts, before)
    requires var id := a.parent.value; after == before[id := if id in before then before[id] + 1 else 1]
    ensures ChildrenCounted(attempts + [a], after)
  {
    var id, all := a.parent.value, attempts + [a];
    assert forall j | 0 <= j < |attempts| :: all[j] == attempts[j];
    forall k | k in after ensures NamedParent(all, k) {
      if k == id {
        assert all[|attempts|].parent == Some(k);
      } else {
        assert NamedParent(attempts, k);
        var j :| 0 <= j < |attempts| && attempts[j].parent == Some(k);
        assert all[j].parent == Some(k);
      }
    }
    if id in before {
      assert NamedParent(attempts, id);
      var j :| 0 <= j < |attempts| && attempts[j].parent == Some(id);
      assert all[j].parent == all[|attempts|].parent;
      assert after[id] > 1;
    } else {
      assert forall k | k in before :: k in after && after[k] == before[k];
    }
  }

  method CheckRoots(attempts: seq<Attempt>) returns (ok: bool)
    ensures ok == forall i | 0 <= i < |attempts| :: OneRoot(attempts, attempts[i].trialId)
  {
    for i := 0 to |attempts|
      invariant forall j | 0 <= j < i :: OneRoot(attempts, attempts[j].trialId)
    {
      var trial := attempts[i].trialId;
      var roots: seq<nat> := [];
      for k := 0 to |attempts|
        invariant forall j | 0 <= j < |roots| :: roots[j] < k && Root(attempts, roots[j], trial)
        invariant forall j, l | 0 <= j < l < |roots| :: roots[j] < roots[l]
        invariant forall r: nat | r < k && Root(attempts, r, trial) :: r in roots
      {
        if attempts[k].trialId == trial && attempts[k].parent.None? {
          roots := roots + [k];
        }
      }
      if |roots| != 1 {
        if |roots| > 1 {
          assert Root(attempts, roots[0], trial) && Root(attempts, roots[1], trial);
        }
        return false;
      }
      assert Root(attempts, roots[0], trial);
    }
    return true;
  }

  method ValidateRetries(attempts: seq<Attempt>) returns (error: Option<RetryError>)
    ensures error.None? <==> RetriesAccepted(attempts)
  {
    var index, unique := IndexAttempts(attempts);
    if !unique {
      return Some(DuplicateId);
    }
    error := CheckParents(attempts, index);
    if error.None? {
      var ok := CheckRoots(attempts);
      error := if ok then None else Some(NotOneRoot);
    }
  }

  // ---- what an accepted manifest's links look like ------------------------

  /** Number of attempts of the trial among the first n. */
  function CountIn(attempts: seq<Attempt>, trial: Id, n: nat): nat
    requires n <= |attempts|
  {
    if n == 0 then 0
    else CountIn(attempts, trial, n - 1) + if attempts[n - 1].trialId == trial then 1 else 0
  }

  /** Position of attempt i within its trial, in manifest order. */
  function Rank(attempts: seq<Attempt>, i: nat): nat
    requires i < |attempts|
  {
    CountIn(attempts, attempts[i].trialId, i)
  }

  /** Index p is the last attempt of the same trial before index i. */
  predicate Previous(attempts: seq<Attempt>, p: nat, i: nat) {
    && p < i < |attempts|
    && attempts[p].trialId == attempts[i].trialId
    && forall j | p < j < i :: attempts[j].trialId != attempts[i].trialId
  }

  lemma {:induction false} PreviousRank(attempts: seq<Attempt>, p: nat, i: nat, n: nat)
    requires Previous(attempts, p, i) && p < n <= i
    ensures CountIn(attempts, attempts[i].trialId, n) == Rank(attempts, p) + 1
  {
    if n > p + 1 {
      PreviousRank(attempts, p, i, n - 1);
    }
  }

  /** Going back from q through its trial one reaches the member right after p. */
  lemma {:induction false} MemberAfter(attempts: seq<Attempt>, p: nat, q: nat) returns (n: nat)
    requires p < q < |attempts| && attempts[p].trialId == attempts[q].trialId
    ensures p < n <= q && Previous(attempts, p, n) && attempts[n].trialId == attempts[q].trialId
    decreases q
  {
    if forall j | p < j < q :: attempts[j].trialId != attempts[q].trialId {
      n := q;
    } else {
      var j :| p < j < q && attempts[j].trialId == attempts[q].trialId;
      n := MemberAfter(attempts, p, j);
    }
  }

  lemma {:induction false} FirstIsRoot(attempts: seq<Attempt>, i: nat) returns (f: nat)
    requires RetriesAccepted(attempts) && i < |attempts|
    ensures f <= i && Root(attempts, f, attempts[i].trialId)
    ensures forall j | 0 <= j < f :: attempts[j].trialId != attempts[i].trialId
    decreases i
  {
    if forall j | 0 <= j < i :: attempts[j].trialId != attempts[i].trialId {
      f := i;
      assert ParentAccepted(attempts, i);
    } else {
      var j :| 0 <= j < i && attempts[j].trialId == attempts[i].trialId;
      f := FirstIsRoot(attempts, j);
    }
  }

  /** The parent of an attempt is the previous attempt of its trial: the links of
      a trial form one chain that covers all of its attempts in manifest order. */
  lemma {:induction false} ParentIsPrevious(attempts: seq<Attempt>, p: nat, i: nat)
    requires RetriesAccepted(attempts) && Previous(attempts, p, i)
    ensures IsParent(attempts, p, i)
    decreases i
  {
    var f := FirstIsRoot(attempts, i);
    assert Root(attempts, f, attempts[i].trialId) && f <= p;
    assert OneRoot(attempts, attempts[i].trialId);
    assert !Root(attempts, i, attempts[i].trialId);
    assert ParentAccepted(attempts, i);
    var q :| 0 <= q < i && IsParent(attempts, q, i) && SameIdentity(attempts[q], attempts[i]);
    if q < p {
      var n := MemberAfter(attempts, q, p);
      ParentIsPrevious(attempts, q, n);
    }
  }

  lemma RootHasRankZero(attempts: seq<Attempt>, i: nat)
    requires RetriesAccepted(attempts) && i < |attempts| && attempts[i].parent.None?
    ensures Rank(attempts, i) == 0
  {
    var f := FirstIsRoot(attempts, i);
    assert OneRoot(attempts, attempts[i].trialId) && Root(attempts, i, attempts[i].trialId);
    NoneBefore(attempts, attempts[i].trialId, i);
  }

  lemma {:induction false} NoneBefore(attempts: seq<Attempt>, trial: Id, n: nat)
    requires n <= |attempts| && forall j | 0 <= j < n :: attempts[j].trialId != trial
    ensures CountIn(attempts, trial, n) == 0
  {
    if n > 0 {
      NoneBefore(attempts, trial, n - 1);
    }
  }

  /** A parent stands one rank below its child. */
  lemma ParentRank(attempts: seq<Attempt>, q: nat, i: nat)
    requires RetriesAccepted(attempts) && q < |attempts| && i < |attempts| && IsParent(attempts, q, i)
    ensures q < i && attempts[q].trialId == attempts[i].trialId && Rank(attempts, i) == Rank(attempts, q) + 1
  {
    assert ParentAccepted(attempts, i);
    var p :| 0 <= p < i && IsParent(attempts, p, i) && SameIdentity(attempts[p], attempts[i]);
    assert p == q;
    var n := MemberAfter(attempts, q, i);
    ParentIsPrevious(attempts, q, n);
    assert n == i;
    PreviousRank(attempts, q, i, i);
  }

  method CountLinks(attempts: seq<Attempt>, planned: map<Id, nat>, i: nat) returns (ordinal: nat)
    requires RetriesAccepted(attempts) && Indexes(planned, attempts) && i < |attempts|
    ensures ordinal == Rank(attempts, i)
  {
    ordinal := 0;
    var at: nat := i;
    while attempts[at].parent.Some?
      invariant at < |attempts| && ordinal + Rank(attempts, at) == Rank(attempts, i)
      decreases at
    {
      var parentId := attempts[at].parent.value;
      ParentPlanned(attempts, planned, at);
      ordinal := ordinal + 1;
      at := planned[parentId];
    }
    RootHasRankZero(attempts, at);
  }

  lemma ParentPlanned(attempts: seq<Attempt>, planned: map<Id, nat>, i: nat)
    requires RetriesAccepted(attempts) && Indexes(planned, attempts) && i < |attempts| && attempts[i].parent.Some?
    ensures var id := attempts[i].parent.value;
      id in planned && planned[id] < i && Rank(attempts, i) == Rank(attempts, planned[id]) + 1
  {
    ParentDecided(attempts, planned, i);
    ParentRank(attempts, planned[attempts[i].parent.value], i);
  }

  lemma IdsAreUnique(attempts: seq<Attempt>)
    requires RetriesAccepted(attempts)
    ensures UniqueIds(attempts)
  {}

  /** The loop of `paired_complete_case_v1` that counts parent links: it ends,
      and gives every attempt its rank within its trial. */
  method RetryOrdinals(attempts: seq<Attempt>) returns (ordinals: map<Id, nat>)
    requires RetriesAccepted(attempts)
    ensures forall i | 0 <= i < |attempts| ::
              attempts[i].attemptId in ordinals && ordinals[attempts[i].attemptId] == Rank(attempts, i)
  {
    hide RetriesAccepted, Rank;
    var planned, unique := IndexAttempts(attempts);
    IdsAreUnique(attempts);
    hide Indexes;
    ordinals := map[];
    for i := 0 to |attempts|
      invariant forall j | 0 <= j < i ::
                  attempts[j].attemptId in ordinals && ordinals[attempts[j].attemptId] == Rank(attempts, j)
    {
      var ordinal := CountLinks(attempts, planned, i);
      ordinals := ordinals[attempts[i].attemptId := ordinal];
    }
  }

  // ---- ranks of one trial are a bijection onto 0..k-1 ----------------------

  lemma {:induction false} CountGrows(attempts: seq<Attempt>, trial: Id, m: nat, n: nat)
    requires m <= n <= |attempts|
    ensures CountIn(attempts, trial, m) <= CountIn(attempts, trial, n)
    decreases n
  {
    if m < n {
      CountGrows(attempts, trial, m, n - 1);
    }
  }

  lemma RanksAreDistinct(attempts: seq<Attempt>, i: nat, j: nat)
    requires i < j < |attempts| && attempts[i].trialId == attempts[j].trialId
    ensures Rank(attempts, i) < Rank(attempts, j) < CountIn(attempts, attempts[i].trialId, |attempts|)
  {
    CountGrows(attempts, attempts[i].trialId, i + 1, j);
    CountGrows(attempts, attempts[i].trialId, j + 1, |attempts|);
  }

  lemma {:induction false} RanksAreOnto(attempts: seq<Attempt>, trial: Id, rank: nat, n: nat) returns (i: nat)
    requires n <= |attempts| && rank < CountIn(attempts, trial, n)
    ensures i < n && attempts[i].trialId == trial && Rank(attempts, i) == rank
    decreases n
  {
    if rank < CountIn(attempts, trial, n - 1) {
      i := RanksAreOnto(attempts, trial, rank, n - 1);
    } else {
      i := n - 1;
    }
  }
}
