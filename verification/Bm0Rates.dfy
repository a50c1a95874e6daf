/** Pooled and per-case failure rates of b2/bm0.py, and how they fit together. */
module Bm0Rates {
  import opened Wrappers
  import opened Bm0Manifest
  import opened Bm0Grid

  type Ids = set<Id>

  // ---- populations --------------------------------------------------------

  /** Planned attempts of one model in the private holdout and the given classes. */
  function HoldoutIds(planned: Planned, model: Id, classes: set<TargetClass>): Ids {
    set id | id in planned && planned[id].modelId == model && planned[id].targetClass in classes
             && planned[id].binding.pool.PrivateHoldout?
  }

  /** The tuple the per-case estimator groups by. */
  datatype CaseKey = CaseKey(model: Id, entryId: Id, familyId: Id, caseId: Id, variantId: Id)

  function KeyOf(a: Attempt): CaseKey {
    CaseKey(a.modelId, a.binding.entryId, a.binding.familyId, a.caseId, a.binding.variantId)
  }

  function CaseIds(planned: Planned, active: set<TargetClass>, key: CaseKey): Ids {
    set id | id in planned && planned[id].targetClass in active && KeyOf(planned[id]) == key
  }

  function Scorable(observed: Observed, ids: Ids): Ids {
    set id | id in ids && id in observed && observed[id].modelFailure.Some?
  }

  function Failing(observed: Observed, ids: Ids): Ids {
    set id | id in ids && id in observed && observed[id].modelFailure == Some(1)
  }

  /** Observed attempts that count in neither numerator nor denominator, by terminal. */
  function Excluded(observed: Observed, ids: Ids, t: Terminal): Ids {
    set id | id in ids && id in observed && observed[id].terminal == t
             && (t.Unknown? ==> observed[id].modelFailure.None?)
  }

  // ---- one pass over the observed rows ------------------------------------

  datatype Tally = Tally(
    recorded: nat, failures: nat, denominator: nat,
    notEvaluable: nat, blocked: nat, error: nat, unknown: nat)

  /** The counts a tally has to hold for the rows that carry one of the ids. */
  predicate Tallies(t: Tally, observed: Observed, ids: Ids) {
    && t.recorded == |observed.Keys * ids|
    && t.failures == |Failing(observed, ids)|
    && t.denominator == |Scorable(observed, ids)|
    && t.notEvaluable == |Excluded(observed, ids, NotEvaluable)|
    && t.blocked == |Excluded(observed, ids, Blocked)|
    && t.error == |Excluded(observed, ids, Error)|
    && t.unknown == |Excluded(observed, ids, Unknown)|
  }

  function Count(b: bool): nat { if b then 1 else 0 }

  lemma AddOne<T>(s: set<T>, x: T, t: set<T>, b: bool)
    requires x !in s && t == if b then s + {x} else s
    ensures |t| == |s| + Count(b)
  {}

  /** One more row moves each count by its own indicator. */
  lemma RecordedStep(before: Observed, row: Observation, ids: Ids)
    requires row.attemptId !in before
    ensures |before[row.attemptId := row].Keys * ids| == |before.Keys * ids| + Count(row.attemptId in ids)
  {
    AddOne(before.Keys * ids, row.attemptId, before[row.attemptId := row].Keys * ids, row.attemptId in ids);
  }

  lemma FailingStep(before: Observed, row: Observation, ids: Ids)
    requires row.attemptId !in before
    ensures |Failing(before[row.attemptId := row], ids)|
         == |Failing(before, ids)| + Count(row.attemptId in ids && row.modelFailure == Some(1))
  {
    AddOne(Failing(before, ids), row.attemptId, Failing(before[row.attemptId := row], ids),
           row.attemptId in ids && row.modelFailure == Some(1));
  }

  lemma ScorableStep(before: Observed, row: Observation, ids: Ids)
    requires row.attemptId !in before
    ensures |Scorable(before[row.attemptId := row], ids)|
         == |Scorable(before, ids)| + Count(row.attemptId in ids && row.modelFailure.Some?)
  {
    AddOne(Scorable(before, ids), row.attemptId, Scorable(before[row.attemptId := row], ids),
           row.attemptId in ids && row.modelFailure.Some?);
  }

  lemma ExcludedStep(before: Observed, row: Observation, ids: Ids, t: Terminal)
    requires row.attemptId !in before
    ensures var after := before[row.attemptId := row]; var here := row.attemptId in ids;
      |Excluded(after, ids, t)| == |Excluded(before, ids, t)|
        + Count(here && row.terminal == t && (t.Unknown? ==> row.modelFailure.None?))
  {
    var id, after := row.attemptId, before[row.attemptId := row];
    AddOne(Excluded(before, ids, t), id, Excluded(after, ids, t),
           id in ids && row.terminal == t && (t.Unknown? ==> row.modelFailure.None?));
  }

  function Counted(t: Tally, row: Observation): Tally {
    var value := row.modelFailure;
    Tally(
      t.recorded + 1,
      t.failures + Count(value == Some(1)),
      t.denominator + Count(value.Some?),
      t.notEvaluable + Count(row.terminal.NotEvaluable?),
      t.blocked + Count(row.terminal.Blocked?),
      t.error + Count(row.terminal.Error?),
      t.unknown + Count(row.terminal.Unknown? && value.None?))
  }

  lemma CountedTallies(t: Tally, before: Observed, row: Observation, ids: Ids)
    requires row.attemptId !in before && Tallies(t, before, ids)
    ensures Tallies(if row.attemptId in ids then Counted(t, row) else t, before[row.attemptId := row], ids)
  {
    RecordedStep(before, row, ids);
    FailingStep(before, row, ids);
    ScorableStep(before, row, ids);
    ExcludedStep(before, row, ids, NotEvaluable);
    ExcludedStep(before, row, ids, Blocked);
    ExcludedStep(before, row, ids, Error);
    ExcludedStep(before, row, ids, Unknown);
    hide Failing, Scorable, Excluded;
  }

  function TableOf(rows: seq<Observation>): Observed {
    if rows == [] then map[] else TableOf(rows[..|rows| - 1])[rows[|rows| - 1].attemptId := rows[|rows| - 1]]
  }

  lemma {:induction false} TableOfIsTheTable(rows: seq<Observation>)
    requires DistinctRows(rows)
    ensures ObservedTable(TableOf(rows), rows)
  {
    if rows != [] {
      TableOfIsTheTable(rows[..|rows| - 1]);
      assert rows == rows[..|rows| - 1] + [rows[|rows| - 1]];
    }
  }

  lemma TableIsUnique(a: Observed, b: Observed, rows: seq<Observation>)
    requires ObservedTable(a, rows) && ObservedTable(b, rows)
    ensures a == b
  {
    assert forall id | id in a :: a[id] in rows;
    assert forall id | id in b :: b[id] in rows;
  }

  method TallyRows(rows: seq<Observation>, ids: Ids) returns (t: Tally)
    requires DistinctRows(rows)
    ensures Tallies(t, TableOf(rows), ids)
  {
    t := Tally(0, 0, 0, 0, 0, 0, 0);
    NothingTallied(ids);
    hide Tallies, Counted;
    assert rows[..0] == [];
    for i := 0 to |rows|
      invariant Tallies(t, TableOf(rows[..i]), ids)
    {
      var row := rows[i];
      TableGrows(rows, i);
      CountedTallies(t, TableOf(rows[..i]), row, ids);
      if row.attemptId in ids {
        t := Counted(t, row);
      }
    }
    assert rows[..|rows|] == rows;
  }

  lemma NothingTallied(ids: Ids)
    ensures Tallies(Tally(0, 0, 0, 0, 0, 0, 0), TableOf([]), ids)
  {
    var none := TableOf([]);
    assert Failing(none, ids) == Scorable(none, ids) == {};
    assert forall t :: Excluded(none, ids, t) == {};
  }

  lemma TableGrows(rows: seq<Observation>, i: nat)
    requires DistinctRows(rows) && i < |rows|
    ensures rows[i].attemptId !in TableOf(rows[..i])
    ensures TableOf(rows[..i + 1]) == TableOf(rows[..i])[rows[i].attemptId := rows[i]]
  {
    assert rows[..i + 1][..i] == rows[..i];
    TableOfIsTheTable(rows[..i]);
  }

  /** 0: scorable; otherwise which excluded terminal. */
  function Role(o: Observation): nat {
    if o.modelFailure.Some? then 0
    else match o.terminal
      case NotEvaluable => 1
      case Blocked => 2
      case Error => 3
      case _ => 4
  }

  function WithRole(observed: Observed, ids: Ids, k: nat): Ids {
    set id | id in ids && id in observed && Role(observed[id]) == k
  }

  /** Attempts with role k or a later one. */
  function FromRole(observed: Observed, ids: Ids, k: nat): Ids {
    set id | id in ids && id in observed && k <= Role(observed[id])
  }

  lemma PeelRole(observed: Observed, ids: Ids, k: nat)
    ensures |FromRole(observed, ids, k)| == |WithRole(observed, ids, k)| + |FromRole(observed, ids, k + 1)|
  {
    assert FromRole(observed, ids, k) == WithRole(observed, ids, k) + FromRole(observed, ids, k + 1);
  }

  /** The value rules leave an accepted row of a model class exactly one role. */
  lemma RolesAreTheCounts(planned: Planned, observed: Observed, ids: Ids)
    requires GridInv(planned, observed) && ids <= observed.Keys
    requires forall id | id in ids :: !planned[id].targetClass.SystemEvalOnly?
    ensures WithRole(observed, ids, 0) == Scorable(observed, ids)
    ensures WithRole(observed, ids, 1) == Excluded(observed, ids, NotEvaluable)
    ensures WithRole(observed, ids, 2) == Excluded(observed, ids, Blocked)
    ensures WithRole(observed, ids, 3) == Excluded(observed, ids, Error)
    ensures WithRole(observed, ids, 4) == Excluded(observed, ids, Unknown)
  {
    hide IdentityStated, IdentityHeld;
    assert forall id | id in ids :: Fits(planned, observed[id]);
  }

  lemma RolesEnd(observed: Observed, ids: Ids)
    requires ids <= observed.Keys
    ensures FromRole(observed, ids, 0) == ids && FromRole(observed, ids, 5) == {}
  {}

  /** Every observed attempt of a model class is scorable or excluded, never both. */
  lemma ScorablePlusExcluded(planned: Planned, observed: Observed, ids: Ids)
    requires GridInv(planned, observed) && ids <= observed.Keys
    requires forall id | id in ids :: !planned[id].targetClass.SystemEvalOnly?
    ensures |Scorable(observed, ids)| + |Excluded(observed, ids, NotEvaluable)| + |Excluded(observed, ids, Blocked)|
      + |Excluded(observed, ids, Error)| + |Excluded(observed, ids, Unknown)| == |ids|
  {
    hide WithRole, FromRole, Scorable, Excluded, GridInv;
    RolesAreTheCounts(planned, observed, ids);
    RolesEnd(observed, ids);
    PeelRole(observed, ids, 0);
    PeelRole(observed, ids, 1);
    PeelRole(observed, ids, 2);
    PeelRole(observed, ids, 3);
    PeelRole(observed, ids, 4);
  }

  // ---- pooled rate of one model -------------------------------------------

  datatype ModelStatus = PASS | NOT_EVALUABLE(reason: Reason)
  datatype Reason = MissingPlannedObservations | ZeroScorableDenominator

  /** `by_model[m]`: the counts are suppressed when any comparable attempt of any
      model is missing. */
  datatype ModelRate = ModelRate(
    status: ModelStatus, planned: nat, recorded: nat,
    counts: Option<Tally>, rate: Option<real>)

  predicate MissingComparable(planned: Planned, observed: Observed, classes: set<TargetClass>) {
    exists id :: id in planned && id !in observed
      && planned[id].targetClass in classes && planned[id].binding.pool.PrivateHoldout?
  }

  function Rate(failures: nat, denominator: nat): real
    requires denominator > 0
  {
    failures as real / denominator as real
  }

  method ModelFailureRate(planned: Planned, rows: seq<Observation>, observed: Observed,
                          model: Id, classes: set<TargetClass>) returns (r: ModelRate)
    requires DistinctRows(rows) && ObservedTable(observed, rows)
    ensures var ids := HoldoutIds(planned, model, classes);
      && r.planned == |ids|
      && r.recorded == |observed.Keys * ids|
      && (if MissingComparable(planned, observed, classes)
          then r.status == NOT_EVALUABLE(MissingPlannedObservations) && r.counts.None? && r.rate.None?
          else && r.counts.Some? && Tallies(r.counts.value, observed, ids)
               && (if Scorable(observed, ids) == {}
                   then r.status == NOT_EVALUABLE(ZeroScorableDenominator) && r.rate.None?
                   else r.status == PASS
                        && r.rate == Some(Rate(|Failing(observed, ids)|, |Scorable(observed, ids)|))))
  {
    var ids := HoldoutIds(planned, model, classes);
    var t := TallyRows(rows, ids);
    TableOfIsTheTable(rows);
    TableIsUnique(TableOf(rows), observed, rows);
    if MissingComparable(planned, observed, classes) {
      r := ModelRate(NOT_EVALUABLE(MissingPlannedObservations), |ids|, t.recorded, None, None);
    } else if t.denominator == 0 {
      r := ModelRate(NOT_EVALUABLE(ZeroScorableDenominator), |ids|, t.recorded, Some(t), None);
    } else {
      r := ModelRate(PASS, |ids|, t.recorded, Some(t), Some(Rate(t.failures, t.denominator)));
    }
  }

  /** A reported tally accounts for every planned attempt: the scorable ones and
      the four kinds of excluded ones add up to the plan. */
  lemma ReportedCountsCoverThePlan(planned: Planned, observed: Observed, model: Id, classes: set<TargetClass>, t: Tally)
    requires GridInv(planned, observed) && SystemEvalOnly !in classes
    requires !MissingComparable(planned, observed, classes)
    requires Tallies(t, observed, HoldoutIds(planned, model, classes))
    ensures t.denominator + t.notEvaluable + t.blocked + t.error + t.unknown == |HoldoutIds(planned, model, classes)|
    ensures t.failures <= t.denominator
  {
    var ids := HoldoutIds(planned, model, classes);
    assert ids <= observed.Keys;
    ScorablePlusExcluded(planned, observed, ids);
    SubsetSize(Failing(observed, ids), Scorable(observed, ids));
  }

  lemma {:induction false} SubsetSize<T>(a: set<T>, b: set<T>)
    requires a <= b
    ensures |a| <= |b|
    decreases |b|
  {
    assert b == a + (b - a);
  }

  // ---- per-case counts ----------------------------------------------------

  /** The keys of one model's planned cases in the order they are first met. */
  method CaseKeys(plan: seq<Attempt>, active: set<TargetClass>, model: Id) returns (keys: seq<CaseKey>)
    ensures forall k :: k in keys <==>
              exists i :: 0 <= i < |plan| && plan[i].modelId == model && plan[i].targetClass in active && KeyOf(plan[i]) == k
    ensures forall i, j | 0 <= i < j < |keys| :: keys[i] != keys[j]
  {
    keys := [];
    for n := 0 to |plan|
      invariant forall k :: k in keys <==>
                  exists i :: 0 <= i < n && plan[i].modelId == model && plan[i].targetClass in active && KeyOf(plan[i]) == k
      invariant forall i, j | 0 <= i < j < |keys| :: keys[i] != keys[j]
    {
      var a := plan[n];
      if a.modelId == model && a.targetClass in active && KeyOf(a) !in keys {
        keys := keys + [KeyOf(a)];
      }
    }
  }

  /** In an accepted manifest the case_id alone determines the whole key of one
      model, so a table keyed by case_id loses no case. */
  lemma CaseIdDeterminesKey(planned: Planned, observed: Observed, active: set<TargetClass>, k: CaseKey, l: CaseKey)
    requires GridInv(planned, observed) && k.model == l.model && k.caseId == l.caseId
    requires CaseIds(planned, active, k) != {} && CaseIds(planned, active, l) != {}
    ensures k == l
  {
    var a :| a in CaseIds(planned, active, k);
    var b :| b in CaseIds(planned, active, l);
  }

  datatype CaseResult = CaseResult(
    key: CaseKey, status: CaseStatus, planned: nat, recorded: nat, counts: Option<Tally>, cfp: Option<real>)
  datatype CaseStatus = CasePass | CaseMissing | CaseZeroDenominator

  predicate CaseResultFor(r: CaseResult, planned: Planned, observed: Observed, active: set<TargetClass>) {
    var ids := CaseIds(planned, active, r.key);
    && r.planned == |ids| && r.recorded == |observed.Keys * ids|
    && (if !(ids <= observed.Keys) then r.status == CaseMissing && r.counts.None? && r.cfp.None?
        else && r.counts.Some? && Tallies(r.counts.value, observed, ids)
             && (if Scorable(observed, ids) == {} then r.status == CaseZeroDenominator && r.cfp.None?
                 else r.status == CasePass
                      && r.cfp == Some(Rate(|Failing(observed, ids)|, |Scorable(observed, ids)|))))
  }

  method CaseFailureProbability(planned: Planned, rows: seq<Observation>, observed: Observed,
                                active: set<TargetClass>, keys: seq<CaseKey>) returns (cases: seq<CaseResult>)
    requires DistinctRows(rows) && ObservedTable(observed, rows)
    ensures |cases| == |keys|
    ensures forall i | 0 <= i < |keys| ::
              cases[i].key == keys[i] && CaseResultFor(cases[i], planned, observed, active)
  {
    cases := [];
    TableOfIsTheTable(rows);
    TableIsUnique(TableOf(rows), observed, rows);
    for n := 0 to |keys|
      invariant |cases| == n
      invariant forall i | 0 <= i < n :: cases[i].key == keys[i] && CaseResultFor(cases[i], planned, observed, active)
    {
      var ids := CaseIds(planned, active, keys[n]);
      var t := TallyRows(rows, ids);
      var r: CaseResult;
      if !(ids <= observed.Keys) {
        r := CaseResult(keys[n], CaseMissing, |ids|, t.recorded, None, None);
      } else if t.denominator == 0 {
        r := CaseResult(keys[n], CaseZeroDenominator, |ids|, t.recorded, Some(t), None);
      } else {
        r := CaseResult(keys[n], CasePass, |ids|, t.recorded, Some(t), Some(Rate(t.failures, t.denominator)));
      }
      assert CaseResultFor(r, planned, observed, active);
      cases := cases + [r];
    }
  }

  // ---- pooled against per-case --------------------------------------------

  /** Keys of the model's cases that live in the holdout and in the metric's classes. */
  predicate HoldoutKey(planned: Planned, model: Id, classes: set<TargetClass>, key: CaseKey) {
    exists id :: id in HoldoutIds(planned, model, classes) && KeyOf(planned[id]) == key
  }

  /** One such case lies in the pooled population as a whole. */
  lemma CaseLiesInPool(planned: Planned, observed: Observed, model: Id, classes: set<TargetClass>,
                       active: set<TargetClass>, key: CaseKey)
    requires GridInv(planned, observed) && classes <= active && HoldoutKey(planned, model, classes, key)
    ensures CaseIds(planned, active, key) == set id | id in HoldoutIds(planned, model, classes) && KeyOf(planned[id]) == key
  {
    var h :| h in HoldoutIds(planned, model, classes) && KeyOf(planned[h]) == key;
    forall id | id in CaseIds(planned, active, key)
      ensures id in HoldoutIds(planned, model, classes)
    {
      assert planned[id].caseId == planned[h].caseId;
      assert planned[id].binding == planned[h].binding;
    }
  }

  function SumFailing(planned: Planned, observed: Observed, active: set<TargetClass>, keys: seq<CaseKey>): nat {
    if keys == [] then 0
    else |Failing(observed, CaseIds(planned, active, keys[0]))| + SumFailing(planned, observed, active, keys[1..])
  }

  function SumScorable(planned: Planned, observed: Observed, active: set<TargetClass>, keys: seq<CaseKey>): nat {
    if keys == [] then 0
    else |Scorable(observed, CaseIds(planned, active, keys[0]))| + SumScorable(planned, observed, active, keys[1..])
  }

  /** Attempts of the pool that belong to one of the listed cases. */
  function InKeys(planned: Planned, pool: Ids, keys: seq<CaseKey>): Ids {
    set id | id in pool && id in planned && KeyOf(planned[id]) in keys
  }

  lemma SplitCounts(observed: Observed, some: Ids, first: Ids, rest: Ids)
    requires some == first + rest && first !! rest
    ensures |Failing(observed, some)| == |Failing(observed, first)| + |Failing(observed, rest)|
    ensures |Scorable(observed, some)| == |Scorable(observed, first)| + |Scorable(observed, rest)|
  {
    assert Failing(observed, some) == Failing(observed, first) + Failing(observed, rest);
    assert Scorable(observed, some) == Scorable(observed, first) + Scorable(observed, rest);
  }

  lemma {:induction false} CasesPartition(planned: Planned, observed: Observed, model: Id, classes: set<TargetClass>,
                                          active: set<TargetClass>, keys: seq<CaseKey>)
    requires GridInv(planned, observed) && classes <= active
    requires forall i, j | 0 <= i < j < |keys| :: keys[i] != keys[j]
    requires forall k | k in keys :: HoldoutKey(planned, model, classes, k)
    ensures var some := InKeys(planned, HoldoutIds(planned, model, classes), keys);
      && |Failing(observed, some)| == SumFailing(planned, observed, active, keys)
      && |Scorable(observed, some)| == SumScorable(planned, observed, active, keys)
  {
    var pool := HoldoutIds(planned, model, classes);
    var some := InKeys(planned, pool, keys);
    hide Failing, Scorable, GridInv, HoldoutIds;
    if keys == [] {
      NothingCounted(observed, some);
    } else {
      var first, rest := CaseIds(planned, active, keys[0]), InKeys(planned, pool, keys[1..]);
      assert keys[0] in keys && keys[0] !in keys[1..];
      assert forall k :: k in keys <==> k == keys[0] || k in keys[1..];
      CaseLiesInPool(planned, observed, model, classes, active, keys[0]);
      hide HoldoutKey;
      CasesPartition(planned, observed, model, classes, active, keys[1..]);
      assert some == first + rest && first !! rest;
      SplitCounts(observed, some, first, rest);
    }
  }

  lemma NothingCounted(observed: Observed, none: Ids)
    requires none == {}
    ensures |Failing(observed, none)| == 0 && |Scorable(observed, none)| == 0
  {
    assert Failing(observed, none) == {} && Scorable(observed, none) == {};
  }

  /** The pooled numerator and denominator of a model are the sums of the per-case
      ones over its holdout cases of the metric's classes. */
  lemma PooledIsSumOfCases(planned: Planned, observed: Observed, model: Id, classes: set<TargetClass>,
                           active: set<TargetClass>, keys: seq<CaseKey>)
    requires GridInv(planned, observed) && classes <= active
    requires forall i, j | 0 <= i < j < |keys| :: keys[i] != keys[j]
    requires forall k :: k in keys <==> HoldoutKey(planned, model, classes, k)
    ensures var ids := HoldoutIds(planned, model, classes);
      && |Failing(observed, ids)| == SumFailing(planned, observed, active, keys)
      && |Scorable(observed, ids)| == SumScorable(planned, observed, active, keys)
  {
    var ids := HoldoutIds(planned, model, classes);
    assert InKeys(planned, ids, keys) == ids by {
      forall id | id in ids ensures KeyOf(planned[id]) in keys {
        assert HoldoutKey(planned, model, classes, KeyOf(planned[id]));
      }
    }
    CasesPartition(planned, observed, model, classes, active, keys);
  }

  /** Bounds that hold for every scorable case of the list. */
  predicate CasesWithin(planned: Planned, observed: Observed, active: set<TargetClass>, keys: seq<CaseKey>, a: real, b: real) {
    forall k | k in keys && Scorable(observed, CaseIds(planned, active, k)) != {} ::
      a <= Rate(|Failing(observed, CaseIds(planned, active, k))|, |Scorable(observed, CaseIds(planned, active, k))|) <= b
  }

  /** f / s lies between a and b, without dividing. */
  predicate Between(a: real, b: real, f: nat, s: nat) {
    a * s as real <= f as real <= b * s as real
  }

  lemma {:induction false} SumsWithin(planned: Planned, observed: Observed, active: set<TargetClass>, keys: seq<CaseKey>, a: real, b: real)
    requires CasesWithin(planned, observed, active, keys, a, b)
    ensures Between(a, b, SumFailing(planned, observed, active, keys), SumScorable(planned, observed, active, keys))
  {
    if keys != [] {
      hide Failing, Scorable, CaseIds, Rate, Between;
      assert keys[0] in keys && forall k | k in keys[1..] :: k in keys;
      SumsWithin(planned, observed, active, keys[1..], a, b);
      CaseWithin(observed, CaseIds(planned, active, keys[0]), a, b);
      hide CasesWithin;
      var ids := CaseIds(planned, active, keys[0]);
      AddBounds(a, b, |Failing(observed, ids)|, |Scorable(observed, ids)|,
                SumFailing(planned, observed, active, keys[1..]), SumScorable(planned, observed, active, keys[1..]));
    }
  }

  lemma CaseWithin(observed: Observed, ids: Ids, a: real, b: real)
    requires Scorable(observed, ids) != {} ==> a <= Rate(|Failing(observed, ids)|, |Scorable(observed, ids)|) <= b
    ensures Between(a, b, |Failing(observed, ids)|, |Scorable(observed, ids)|)
  {
    SubsetSize(Failing(observed, ids), Scorable(observed, ids));
    hide Failing, Scorable;
    if Scorable(observed, ids) != {} {
      RateTimes(|Failing(observed, ids)|, |Scorable(observed, ids)|, a, b);
    }
  }

  lemma AddBounds(a: real, b: real, f: nat, s: nat, f': nat, s': nat)
    requires Between(a, b, f, s) && Between(a, b, f', s')
    ensures Between(a, b, f + f', s + s')
  {
    assert (s + s') as real == s as real + s' as real && (f + f') as real == f as real + f' as real;
  }

  lemma ProductOrder(x: real, y: real, n: real)
    requires n >= 0.0 && x <= y
    ensures x * n <= y * n
  {
    assert (y - x) * n >= 0.0;
  }

  lemma QuotientOrder(x: real, y: real, n: real, v: real)
    requires n > 0.0 && x * n <= v <= y * n
    ensures x <= y
  {
    assert (y - x) * n >= 0.0;
  }

  lemma RateTimes(f: nat, s: nat, a: real, b: real)
    requires s > 0 && a <= Rate(f, s) <= b
    ensures Between(a, b, f, s)
  {
    var r, n := Rate(f, s), s as real;
    assert r * n == f as real;
    hide Rate;
    ProductOrder(a, r, n);
    ProductOrder(r, b, n);
  }

  lemma RateBetween(f: nat, s: nat, a: real, b: real)
    requires s > 0 && Between(a, b, f, s)
    ensures a <= Rate(f, s) <= b
  {
    var r, n := Rate(f, s), s as real;
    assert r * n == f as real;
    hide Rate;
    QuotientOrder(a, r, n, f as real);
    QuotientOrder(r, b, n, f as real);
  }

  /** The pooled rate is a weighted mean of the case probabilities: it lies within
      every pair of bounds that the scorable holdout cases share, in particular
      between the smallest and the largest of them. */
  lemma PooledRateBetweenCases(planned: Planned, observed: Observed, model: Id, classes: set<TargetClass>,
                               active: set<TargetClass>, keys: seq<CaseKey>, a: real, b: real)
    requires GridInv(planned, observed) && classes <= active
    requires forall i, j | 0 <= i < j < |keys| :: keys[i] != keys[j]
    requires forall k :: k in keys <==> HoldoutKey(planned, model, classes, k)
    requires CasesWithin(planned, observed, active, keys, a, b)
    requires Scorable(observed, HoldoutIds(planned, model, classes)) != {}
    ensures var ids := HoldoutIds(planned, model, classes);
      a <= Rate(|Failing(observed, ids)|, |Scorable(observed, ids)|) <= b
  {
    hide GridInv, HoldoutIds, Failing, Scorable, Rate, HoldoutKey, CasesWithin, Between;
    var ids := HoldoutIds(planned, model, classes);
    PooledIsSumOfCases(planned, observed, model, classes, active, keys);
    SumsWithin(planned, observed, active, keys, a, b);
    RateBetween(|Failing(observed, ids)|, |Scorable(observed, ids)|, a, b);
  }
}
