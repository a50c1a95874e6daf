/** Paired complete-case comparison of two models, `paired_complete_case_v1` of b2/bm0.py. */
module Bm0Paired {
  import opened Wrappers
  import opened Bm0Manifest
  import opened Bm0Grid
  import opened Bm0Rates

  /** A pair is matched by case, replicate and position in the retry chain. */
  datatype PairKey = PairKey(entryId: Id, familyId: Id, caseId: Id, variantId: Id, replicate: nat, ordinal: nat)

  type Ordinals = map<Id, nat>
  type Keyed = map<PairKey, Observation>

  function PairKeyOf(ordinals: Ordinals, o: Observation): PairKey
    requires o.attemptId in ordinals
  {
    var i := o.identity;
    PairKey(i.entryId, i.familyId, i.caseId, i.variantId, i.replicate, ordinals[o.attemptId])
  }

  /** The planned fields two paired attempts have to share. */
  function Conditions(a: Attempt): (CaseBinding, TargetClass, Id, Option<Id>, nat) {
    (a.binding, a.targetClass, a.caseId, a.mutationParent, a.conditions)
  }

  datatype PairReason = MissingPairObservations | UnpairedDesign | PairedIdentityMismatch | ZeroPairedDenominator

  datatype PairResult =
    | NotComparable(reason: PairReason, excludedPairs: nat)
    | Compared(included: nat, excluded: nat, leftRate: real, rightRate: real, delta: real)

  function Included(left: Keyed, right: Keyed): set<PairKey> {
    set k | k in left && k in right && left[k].modelFailure.Some? && right[k].modelFailure.Some?
  }

  function FailedIn(rows: Keyed, keys: set<PairKey>): set<PairKey> {
    set k | k in keys && k in rows && rows[k].modelFailure == Some(1)
  }

  predicate PlannedRows(planned: Planned, rows: Keyed) {
    forall k | k in rows :: rows[k].attemptId in planned
  }

  function Compare(planned: Planned, left: Keyed, right: Keyed): PairResult
    requires PlannedRows(planned, left) && PlannedRows(planned, right)
  {
    if left == map[] || left.Keys != right.Keys then NotComparable(UnpairedDesign, 0)
    else if exists k :: k in left && Conditions(planned[left[k].attemptId]) != Conditions(planned[right[k].attemptId]) then
      NotComparable(PairedIdentityMismatch, 0)
    else
      var included := Included(left, right);
      if included == {} then NotComparable(ZeroPairedDenominator, |left|)
      else
        var l, r := Rate(|FailedIn(left, included)|, |included|), Rate(|FailedIn(right, included)|, |included|);
        assert included <= left.Keys;
        SubsetSize(included, left.Keys);
        Compared(|included|, |left| - |included|, l, r, l - r)
  }

  // ---- the computation ----------------------------------------------------

  /** Observed attempts of one model that the metric looks at. */
  function Selected(planned: Planned, observed: Observed, model: Id, classes: set<TargetClass>): Ids {
    HoldoutIds(planned, model, classes) * observed.Keys
  }

  predicate KeysDistinct(observed: Observed, ordinals: Ordinals, ids: Ids) {
    && ids <= observed.Keys
    && (forall id | id in ids :: observed[id].attemptId in ordinals)
    && forall a, b | a in ids && b in ids && a != b ::
         PairKeyOf(ordinals, observed[a]) != PairKeyOf(ordinals, observed[b])
  }

  function KeysOf(observed: Observed, ordinals: Ordinals, ids: Ids): set<PairKey>
    requires KeysDistinct(observed, ordinals, ids)
  {
    set id | id in ids :: PairKeyOf(ordinals, observed[id])
  }

  /** The row under a key. */
  function RowUnder(observed: Observed, ordinals: Ordinals, ids: Ids, key: PairKey): Observation
    requires KeysDistinct(observed, ordinals, ids) && key in KeysOf(observed, ordinals, ids)
  {
    var id :| id in ids && PairKeyOf(ordinals, observed[id]) == key;
    observed[id]
  }

  function KeyedRows(observed: Observed, ordinals: Ordinals, ids: Ids): Keyed
    requires KeysDistinct(observed, ordinals, ids)
  {
    map key | key in KeysOf(observed, ordinals, ids) :: RowUnder(observed, ordinals, ids, key)
  }

  predicate OrdinalsCover(observed: Observed, ordinals: Ordinals) {
    forall id | id in observed :: observed[id].attemptId == id && id in ordinals
  }

  predicate KeyOfSome(observed: Observed, ordinals: Ordinals, ids: Ids, key: PairKey)
    requires ids <= observed.Keys
  {
    exists id :: id in ids && observed[id].attemptId in ordinals && PairKeyOf(ordinals, observed[id]) == key
  }

  /** The table holds exactly the rows of the ids, each under its own key. */
  predicate IsKeyed(keyed: Keyed, observed: Observed, ordinals: Ordinals, ids: Ids) {
    && ids <= observed.Keys
    && (forall id | id in ids ::
          observed[id].attemptId in ordinals
          && PairKeyOf(ordinals, observed[id]) in keyed && keyed[PairKeyOf(ordinals, observed[id])] == observed[id])
    && forall key | key in keyed :: KeyOfSome(observed, ordinals, ids, key)
  }

  lemma KeyedRowsIsKeyed(observed: Observed, ordinals: Ordinals, ids: Ids)
    requires KeysDistinct(observed, ordinals, ids)
    ensures IsKeyed(KeyedRows(observed, ordinals, ids), observed, ordinals, ids)
  {}

  lemma KeyedIsUnique(a: Keyed, b: Keyed, observed: Observed, ordinals: Ordinals, ids: Ids)
    requires IsKeyed(a, observed, ordinals, ids) && IsKeyed(b, observed, ordinals, ids)
    ensures a == b
  {
    hide PairKeyOf;
    assert a.Keys == b.Keys;
  }

  /** Keying one more row whose key is free. */
  lemma KeyOneMore(keyed: Keyed, observed: Observed, ordinals: Ordinals, done: Ids, id: Id)
    requires KeysDistinct(observed, ordinals, done) && IsKeyed(keyed, observed, ordinals, done)
    requires id in observed && observed[id].attemptId in ordinals && PairKeyOf(ordinals, observed[id]) !in keyed
    ensures KeysDistinct(observed, ordinals, done + {id})
    ensures IsKeyed(keyed[PairKeyOf(ordinals, observed[id]) := observed[id]], observed, ordinals, done + {id})
  {
    hide PairKeyOf;
    var key := PairKeyOf(ordinals, observed[id]);
    var more := keyed[key := observed[id]];
    forall k | k in more ensures KeyOfSome(observed, ordinals, done + {id}, k) {
      if k == key {
        assert id in done + {id};
      } else {
        assert KeyOfSome(observed, ordinals, done, k);
        var i :| i in done && observed[i].attemptId in ordinals && PairKeyOf(ordinals, observed[i]) == k;
        assert i in done + {id};
      }
    }
  }

  lemma KeyTaken(keyed: Keyed, observed: Observed, ordinals: Ordinals, done: Ids, id: Id)
    requires IsKeyed(keyed, observed, ordinals, done) && id in observed && id !in done
    requires observed[id].attemptId in ordinals && PairKeyOf(ordinals, observed[id]) in keyed
    ensures !KeysDistinct(observed, ordinals, done + {id})
  {
    hide PairKeyOf;
    assert KeyOfSome(observed, ordinals, done, PairKeyOf(ordinals, observed[id]));
    var other :| other in done && observed[other].attemptId in ordinals
                 && PairKeyOf(ordinals, observed[other]) == PairKeyOf(ordinals, observed[id]);
    assert other in done + {id} && id in done + {id};
  }

  lemma FewerKeysDistinct(observed: Observed, ordinals: Ordinals, some: Ids, all: Ids)
    requires some <= all
    ensures KeysDistinct(observed, ordinals, all) ==> KeysDistinct(observed, ordinals, some)
  {}

  /** Ids of the first n rows that are selected. */
  function DoneIds(rows: seq<Observation>, n: nat, ids: Ids): Ids
    requires n <= |rows|
  {
    set j | 0 <= j < n && rows[j].attemptId in ids :: rows[j].attemptId
  }

  lemma DoneGrows(rows: seq<Observation>, n: nat, ids: Ids)
    requires n < |rows| && DistinctRows(rows)
    ensures DoneIds(rows, n + 1, ids) == DoneIds(rows, n, ids) + (if rows[n].attemptId in ids then {rows[n].attemptId} else {})
    ensures rows[n].attemptId !in DoneIds(rows, n, ids)
  {}

  lemma AllDone(rows: seq<Observation>, observed: Observed, ids: Ids)
    requires ObservedTable(observed, rows) && ids <= observed.Keys
    ensures DoneIds(rows, |rows|, ids) == ids
  {
    forall id | id in ids ensures id in DoneIds(rows, |rows|, ids) {
      assert observed[id] in rows;
    }
  }

  /** Keyed rows of the selected attempts, unless two of them share a key. */
  method KeySelected(rows: seq<Observation>, observed: Observed, ordinals: Ordinals, ids: Ids)
    returns (keyed: Keyed, distinct: bool)
    requires DistinctRows(rows) && ObservedTable(observed, rows) && OrdinalsCover(observed, ordinals) && ids <= observed.Keys
    ensures distinct == KeysDistinct(observed, ordinals, ids)
    ensures distinct ==> keyed == KeyedRows(observed, ordinals, ids)
  {
    keyed := map[];
    assert DoneIds(rows, 0, ids) == {};
    assert KeysDistinct(observed, ordinals, {}) && IsKeyed(keyed, observed, ordinals, {});
    hide DoneIds, KeysDistinct, KeyedRows, PairKeyOf, IsKeyed;
    for i := 0 to |rows|
      invariant DoneIds(rows, i, ids) <= ids
      invariant KeysDistinct(observed, ordinals, DoneIds(rows, i, ids))
      invariant IsKeyed(keyed, observed, ordinals, DoneIds(rows, i, ids))
    {
      var row := rows[i];
      DoneGrows(rows, i, ids);
      assert row.attemptId in observed && observed[row.attemptId] == row;
      assert row.attemptId in ordinals;
      if row.attemptId in ids {
        var key := PairKeyOf(ordinals, row);
        if key in keyed {
          KeyTaken(keyed, observed, ordinals, DoneIds(rows, i, ids), row.attemptId);
          FewerKeysDistinct(observed, ordinals, DoneIds(rows, i, ids) + {row.attemptId}, ids);
          return keyed, false;
        }
        KeyOneMore(keyed, observed, ordinals, DoneIds(rows, i, ids), row.attemptId);
        keyed := keyed[key := row];
      }
    }
    AllDone(rows, observed, ids);
    KeyedRowsIsKeyed(observed, ordinals, ids);
    KeyedIsUnique(keyed, KeyedRows(observed, ordinals, ids), observed, ordinals, ids);
    distinct := true;
  }

  predicate MissingForPair(planned: Planned, observed: Observed, left: Id, right: Id, classes: set<TargetClass>) {
    !(HoldoutIds(planned, left, classes) + HoldoutIds(planned, right, classes) <= observed.Keys)
  }

  function PlanIds(plan: seq<Attempt>): Ids {
    set i | 0 <= i < |plan| :: plan[i].attemptId
  }

  function PlaceOf(plan: seq<Attempt>, id: Id): (i: nat)
    requires UniqueIds(plan) && id in PlanIds(plan)
    ensures i < |plan| && plan[i].attemptId == id
  {
    var i :| 0 <= i < |plan| && plan[i].attemptId == id;
    i
  }

  function RankTable(plan: seq<Attempt>): Ordinals
    requires UniqueIds(plan)
  {
    map id | id in PlanIds(plan) :: Rank(plan, PlaceOf(plan, id))
  }

  /** Keyed rows of one model; None when two of its rows share a pair key. */
  function KeyedModel(plan: seq<Attempt>, planned: Planned, observed: Observed, model: Id,
                      classes: set<TargetClass>): (r: Option<Keyed>)
    requires UniqueIds(plan) && PlannedTable(planned, plan) && GridInv(planned, observed)
    ensures r.Some? ==> PlannedRows(planned, r.value) && |r.value| == |Selected(planned, observed, model, classes)|
  {
    var ids, ordinals := Selected(planned, observed, model, classes), RankTable(plan);
    if KeysDistinct(observed, ordinals, ids) then
      assert forall id | id in observed :: Fits(planned, observed[id]);
      KeyedSelectedArePlanned(planned, observed, ordinals, ids);
      KeyedRowsIsKeyed(observed, ordinals, ids);
      KeyedSize(KeyedRows(observed, ordinals, ids), observed, ordinals, ids);
      Some(KeyedRows(observed, ordinals, ids))
    else None
  }

  lemma KeyedSelectedArePlanned(planned: Planned, observed: Observed, ordinals: Ordinals, ids: Ids)
    requires KeysDistinct(observed, ordinals, ids) && (forall id | id in observed :: Fits(planned, observed[id]))
    ensures PlannedRows(planned, KeyedRows(observed, ordinals, ids))
  {}

  lemma {:induction false} KeyedSize(keyed: Keyed, observed: Observed, ordinals: Ordinals, ids: Ids)
    requires KeysDistinct(observed, ordinals, ids) && IsKeyed(keyed, observed, ordinals, ids)
    ensures |keyed| == |ids|
    decreases |ids|
  {
    hide PairKeyOf;
    if ids != {} {
      var id :| id in ids;
      var rest := ids - {id};
      var fewer := keyed - {PairKeyOf(ordinals, observed[id])};
      KeyOneLess(keyed, observed, ordinals, ids, id);
      KeyedSize(fewer, observed, ordinals, rest);
      assert keyed.Keys == fewer.Keys + {PairKeyOf(ordinals, observed[id])};
      assert |keyed| == |keyed.Keys| && |fewer| == |fewer.Keys|;
    } else {
      assert keyed.Keys == {};
      assert |keyed| == |keyed.Keys|;
    }
  }

  lemma KeyOneLess(keyed: Keyed, observed: Observed, ordinals: Ordinals, ids: Ids, id: Id)
    requires KeysDistinct(observed, ordinals, ids) && IsKeyed(keyed, observed, ordinals, ids) && id in ids
    ensures KeysDistinct(observed, ordinals, ids - {id})
    ensures IsKeyed(keyed - {PairKeyOf(ordinals, observed[id])}, observed, ordinals, ids - {id})
  {
    hide PairKeyOf;
    var fewer := keyed - {PairKeyOf(ordinals, observed[id])};
    forall k | k in fewer ensures KeyOfSome(observed, ordinals, ids - {id}, k) {
      assert KeyOfSome(observed, ordinals, ids, k);
      var i :| i in ids && observed[i].attemptId in ordinals && PairKeyOf(ordinals, observed[i]) == k;
      assert i in ids - {id};
    }
  }

  /** What the source raises: one model on both sides, or two of its rows under one pair key. */
  datatype PairError = SameModel | DuplicatePair

  function PairedOutcome(plan: seq<Attempt>, planned: Planned, observed: Observed, left: Id, right: Id,
                         classes: set<TargetClass>): Result<PairResult, PairError>
    requires UniqueIds(plan) && PlannedTable(planned, plan) && GridInv(planned, observed)
  {
    if left == right then Err(SameModel)
    else if MissingForPair(planned, observed, left, right, classes) then Ok(NotComparable(MissingPairObservations, 0))
    else
      var l := KeyedModel(plan, planned, observed, left, classes);
      var r := KeyedModel(plan, planned, observed, right, classes);
      if l.None? || r.None? then Err(DuplicatePair) else Ok(Compare(planned, l.value, r.value))
  }

  /** The rows of one model under their pair keys. */
  method KeyModel(plan: seq<Attempt>, planned: Planned, rows: seq<Observation>, observed: Observed,
                  ordinals: Ordinals, model: Id, classes: set<TargetClass>) returns (r: Option<Keyed>)
    requires UniqueIds(plan) && PlannedTable(planned, plan)
    requires DistinctRows(rows) && ObservedTable(observed, rows) && GridInv(planned, observed)
    requires forall i | 0 <= i < |plan| :: plan[i].attemptId in ordinals && ordinals[plan[i].attemptId] == Rank(plan, i)
    ensures r == KeyedModel(plan, planned, observed, model, classes)
  {
    OrdinalsCoverRows(plan, planned, observed, ordinals);
    var ids := Selected(planned, observed, model, classes);
    OrdinalsAgree(plan, planned, observed, ordinals, ids);
    hide GridInv, KeyedRows, KeysDistinct;
    var keyed, distinct := KeySelected(rows, observed, ordinals, ids);
    r := if distinct then Some(keyed) else None;
  }

  lemma OrdinalsCoverRows(plan: seq<Attempt>, planned: Planned, observed: Observed, ordinals: Ordinals)
    requires PlannedTable(planned, plan) && GridInv(planned, observed)
    requires forall i | 0 <= i < |plan| :: plan[i].attemptId in ordinals
    ensures OrdinalsCover(observed, ordinals)
  {
    forall id | id in observed ensures observed[id].attemptId == id && id in ordinals {
      assert Fits(planned, observed[id]);
      assert planned[id] in plan;
    }
  }

  method PairedCompleteCase(plan: seq<Attempt>, planned: Planned, rows: seq<Observation>, observed: Observed,
                            left: Id, right: Id, classes: set<TargetClass>) returns (r: Result<PairResult, PairError>)
    requires RetriesAccepted(plan) && PlannedTable(planned, plan)
    requires DistinctRows(rows) && ObservedTable(observed, rows) && GridInv(planned, observed)
    ensures UniqueIds(plan) && r == PairedOutcome(plan, planned, observed, left, right, classes)
  {
    IdsAreUnique(plan);
    hide GridInv, KeyedModel, Compare;
    if left == right {
      return Err(SameModel);
    }
    if MissingForPair(planned, observed, left, right, classes) {
      return Ok(NotComparable(MissingPairObservations, 0));
    }
    var ordinals := RetryOrdinals(plan);
    hide RetriesAccepted;
    var l := KeyModel(plan, planned, rows, observed, ordinals, left, classes);
    var k := KeyModel(plan, planned, rows, observed, ordinals, right, classes);
    r := if l.None? || k.None? then Err(DuplicatePair) else Ok(Compare(planned, l.value, k.value));
  }

  lemma SameKeys(observed: Observed, a: Ordinals, b: Ordinals, ids: Ids)
    requires ids <= observed.Keys
    requires forall id | id in ids :: observed[id].attemptId == id && id in a && id in b && a[id] == b[id]
    ensures KeysDistinct(observed, a, ids) <==> KeysDistinct(observed, b, ids)
    ensures KeysDistinct(observed, a, ids) ==> KeyedRows(observed, a, ids) == KeyedRows(observed, b, ids)
  {
    assert forall id | id in ids :: PairKeyOf(a, observed[id]) == PairKeyOf(b, observed[id]);
    hide PairKeyOf;
    assert KeysDistinct(observed, a, ids) <==> KeysDistinct(observed, b, ids);
    if KeysDistinct(observed, a, ids) {
      KeyedRowsIsKeyed(observed, a, ids);
      KeyedRowsIsKeyed(observed, b, ids);
      SameTable(observed, a, b, ids, KeyedRows(observed, b, ids));
      hide KeysDistinct, KeyedRows, IsKeyed;
      KeyedIsUnique(KeyedRows(observed, a, ids), KeyedRows(observed, b, ids), observed, a, ids);
    }
  }

  lemma SameTable(observed: Observed, a: Ordinals, b: Ordinals, ids: Ids, keyed: Keyed)
    requires ids <= observed.Keys && IsKeyed(keyed, observed, b, ids)
    requires forall id | id in ids :: observed[id].attemptId in a && observed[id].attemptId in b
                                      && PairKeyOf(a, observed[id]) == PairKeyOf(b, observed[id])
    ensures IsKeyed(keyed, observed, a, ids)
  {
    hide PairKeyOf;
    forall key | key in keyed ensures KeyOfSome(observed, a, ids, key) {
      assert KeyOfSome(observed, b, ids, key);
    }
  }

  lemma RankOfObserved(plan: seq<Attempt>, planned: Planned, observed: Observed, ordinals: Ordinals, id: Id)
    requires UniqueIds(plan) && PlannedTable(planned, plan) && GridInv(planned, observed) && id in observed
    requires forall i | 0 <= i < |plan| :: plan[i].attemptId in ordinals && ordinals[plan[i].attemptId] == Rank(plan, i)
    ensures observed[id].attemptId == id && id in planned
    ensures id in ordinals && id in RankTable(plan) && ordinals[id] == RankTable(plan)[id]
  {
    hide IdentityStated, IdentityHeld, Rank;
    assert Fits(planned, observed[id]);
    var i :| 0 <= i < |plan| && plan[i] == planned[id];
    assert plan[i].attemptId in PlanIds(plan);
    assert PlaceOf(plan, id) == i;
  }

  /** Two ordinal tables that agree on the plan key the rows alike. */
  lemma OrdinalsAgree(plan: seq<Attempt>, planned: Planned, observed: Observed, ordinals: Ordinals, ids: Ids)
    requires UniqueIds(plan) && PlannedTable(planned, plan) && GridInv(planned, observed) && ids <= observed.Keys
    requires forall i | 0 <= i < |plan| :: plan[i].attemptId in ordinals && ordinals[plan[i].attemptId] == Rank(plan, i)
    ensures KeysDistinct(observed, ordinals, ids) <==> KeysDistinct(observed, RankTable(plan), ids)
    ensures KeysDistinct(observed, ordinals, ids) ==>
              && KeyedRows(observed, ordinals, ids) == KeyedRows(observed, RankTable(plan), ids)
              && PlannedRows(planned, KeyedRows(observed, ordinals, ids))
  {
    hide KeysDistinct, KeyedRows, RankTable, GridInv, PlannedTable, UniqueIds;
    forall id | id in ids
      ensures observed[id].attemptId == id && id in planned
      ensures id in ordinals && id in RankTable(plan) && ordinals[id] == RankTable(plan)[id]
    {
      RankOfObserved(plan, planned, observed, ordinals, id);
    }
    SameKeys(observed, ordinals, RankTable(plan), ids);
    if KeysDistinct(observed, ordinals, ids) {
      KeyedArePlanned(planned, observed, ordinals, ids);
    }
  }

  lemma KeyedArePlanned(planned: Planned, observed: Observed, ordinals: Ordinals, ids: Ids)
    requires KeysDistinct(observed, ordinals, ids)
    requires forall id | id in ids :: observed[id].attemptId in planned
    ensures PlannedRows(planned, KeyedRows(observed, ordinals, ids))
  {}

  // ---- main results -------------------------------------------------------

  function Flip(r: PairResult): PairResult {
    match r
    case NotComparable(_, _) => r
    case Compared(included, excluded, l, k, delta) => Compared(included, excluded, k, l, -delta)
  }

  /** Swapping the two models keeps status, reason and counts and negates the delta. */
  lemma SwapNegates(planned: Planned, left: Keyed, right: Keyed)
    requires PlannedRows(planned, left) && PlannedRows(planned, right)
    ensures Compare(planned, right, left) == Flip(Compare(planned, left, right))
  {
    assert Included(left, right) == Included(right, left);
    if left.Keys == right.Keys {
      assert |left| == |left.Keys| && |right| == |right.Keys|;
      assert left == map[] <==> left.Keys == {};
      assert right == map[] <==> right.Keys == {};
    }
  }

  lemma MissingIsSymmetric(planned: Planned, observed: Observed, left: Id, right: Id, classes: set<TargetClass>)
    ensures MissingForPair(planned, observed, left, right, classes) == MissingForPair(planned, observed, right, left, classes)
  {
    hide HoldoutIds;
    assert HoldoutIds(planned, left, classes) + HoldoutIds(planned, right, classes)
        == HoldoutIds(planned, right, classes) + HoldoutIds(planned, left, classes);
  }

  lemma SwappedModels(plan: seq<Attempt>, planned: Planned, observed: Observed, left: Id, right: Id, classes: set<TargetClass>)
    requires UniqueIds(plan) && PlannedTable(planned, plan) && GridInv(planned, observed)
    ensures var r := PairedOutcome(plan, planned, observed, left, right, classes);
      PairedOutcome(plan, planned, observed, right, left, classes) == if r.Ok? then Ok(Flip(r.value)) else r
  {
    hide KeyedModel, Compare, GridInv, UniqueIds, PlannedTable, HoldoutIds, MissingForPair, Selected, PlannedRows;
    MissingIsSymmetric(planned, observed, left, right, classes);
    var l := KeyedModel(plan, planned, observed, left, classes);
    var r := KeyedModel(plan, planned, observed, right, classes);
    if l.Some? && r.Some? {
      SwapNegates(planned, l.value, r.value);
    }
  }

  /** Pairs only one side failed. */
  function OnlyFirst(first: Keyed, second: Keyed): set<PairKey> {
    FailedIn(first, Included(first, second)) - FailedIn(second, Included(first, second))
  }

  lemma Discordant<T>(a: set<T>, b: set<T>)
    ensures |a| - |b| == |a - b| - |b - a|
  {
    assert a == (a - b) + (a * b) && b == (b - a) + (a * b);
  }

  lemma RateDifference(a: nat, b: nat, n: nat)
    requires n > 0
    ensures (Rate(a, n) - Rate(b, n)) * n as real == a as real - b as real
  {
    var x, y, m := Rate(a, n), Rate(b, n), n as real;
    assert x * m == a as real && y * m == b as real;
    hide Rate;
    assert (x - y) * m == x * m - y * m;
  }

  lemma ComparedParts(planned: Planned, left: Keyed, right: Keyed)
    requires PlannedRows(planned, left) && PlannedRows(planned, right) && Compare(planned, left, right).Compared?
    ensures Included(left, right) != {} && Included(right, left) == Included(left, right)
    ensures Compare(planned, left, right).included == |Included(left, right)|
    ensures Compare(planned, left, right).delta
            == Rate(|FailedIn(left, Included(left, right))|, |Included(left, right)|)
               - Rate(|FailedIn(right, Included(left, right))|, |Included(left, right)|)
  {
    hide FailedIn, Rate, Conditions;
    assert Included(right, left) == Included(left, right);
  }

  /** The delta is the left-only failures minus the right-only ones, per included pair. */
  lemma DeltaCountsDiscordantPairs(planned: Planned, left: Keyed, right: Keyed)
    requires PlannedRows(planned, left) && PlannedRows(planned, right) && Compare(planned, left, right).Compared?
    ensures Compare(planned, left, right).included > 0
    ensures Compare(planned, left, right).delta * Compare(planned, left, right).included as real
            == |OnlyFirst(left, right)| as real - |OnlyFirst(right, left)| as real
  {
    hide Included, FailedIn, Rate, Compare, PlannedRows;
    ComparedParts(planned, left, right);
    var included := Included(left, right);
    var a, b := FailedIn(left, included), FailedIn(right, included);
    RateDifference(|a|, |b|, |included|);
    Discordant(a, b);
  }

  lemma ComparedCounts(planned: Planned, left: Keyed, right: Keyed)
    requires PlannedRows(planned, left) && PlannedRows(planned, right) && Compare(planned, left, right).Compared?
    ensures var r := Compare(planned, left, right); r.included + r.excluded == |left| == |right|
  {
    hide Included, FailedIn, Rate;
    assert |left| == |left.Keys| && |right| == |right.Keys|;
  }

  /** A reported comparison accounts for every planned pair of either model. */
  lemma ComparedCoversThePlan(plan: seq<Attempt>, planned: Planned, observed: Observed, left: Id, right: Id, classes: set<TargetClass>)
    requires UniqueIds(plan) && PlannedTable(planned, plan) && GridInv(planned, observed)
    requires PairedOutcome(plan, planned, observed, left, right, classes).Ok?
    requires PairedOutcome(plan, planned, observed, left, right, classes).value.Compared?
    ensures var r := PairedOutcome(plan, planned, observed, left, right, classes).value;
      r.included + r.excluded == |HoldoutIds(planned, left, classes)| == |HoldoutIds(planned, right, classes)|
  {
    hide KeyedModel, Compare, GridInv, UniqueIds, PlannedTable, HoldoutIds;
    assert Selected(planned, observed, left, classes) == HoldoutIds(planned, left, classes);
    assert Selected(planned, observed, right, classes) == HoldoutIds(planned, right, classes);
    ComparedCounts(planned, KeyedModel(plan, planned, observed, left, classes).value,
                   KeyedModel(plan, planned, observed, right, classes).value);
  }
}
