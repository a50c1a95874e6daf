/** Family estimate and case-cluster bootstrap of b2/bm0.py. */
module Bm0Family {
  import opened Wrappers
  import opened Bm0Manifest
  import opened Bm0Grid
  import opened Bm0Rates

  const RESAMPLES: nat := 10000

  // ---- means --------------------------------------------------------------

  function Sum(values: seq<real>): real {
    if values == [] then 0.0 else Sum(values[..|values| - 1]) + values[|values| - 1]
  }

  function Mean(values: seq<real>): real
    requires values != []
  {
    Sum(values) / |values| as real
  }

  predicate Within(values: seq<real>, a: real, b: real) {
    forall i | 0 <= i < |values| :: a <= values[i] <= b
  }

  lemma {:induction false} SumWithin(values: seq<real>, a: real, b: real)
    requires Within(values, a, b)
    ensures a * |values| as real <= Sum(values) <= b * |values| as real
  {
    if values != [] {
      var n := |values| - 1;
      SumWithin(values[..n], a, b);
      assert |values| as real == n as real + 1.0;
      assert a * |values| as real == a * n as real + a && b * |values| as real == b * n as real + b;
    }
  }

  /** A mean lies within every pair of bounds its values share. */
  lemma MeanWithin(values: seq<real>, a: real, b: real)
    requires values != [] && Within(values, a, b)
    ensures a <= Mean(values) <= b
  {
    var n := |values| as real;
    SumWithin(values, a, b);
    assert Mean(values) * n == Sum(values);
    QuotientOrder(a, Mean(values), n, Sum(values));
    QuotientOrder(Mean(values), b, n, Sum(values));
  }

  // ---- the family estimate ------------------------------------------------

  /** A dictionary: entries in order of first insertion, one per key. */
  type Table = seq<(Id, real)>

  function Put(t: Table, k: Id, v: real): Table {
    if t == [] then [(k, v)]
    else if t[0].0 == k then [(k, v)] + t[1..]
    else [t[0]] + Put(t[1..], k, v)
  }

  /** `{case["case_id"]: case["cfp"] for case in cases if case passed}`. */
  function Estimates(cases: seq<CaseResult>): Table {
    if cases == [] then []
    else
      var last := cases[|cases| - 1];
      var t := Estimates(cases[..|cases| - 1]);
      if last.status == CasePass && last.cfp.Some? then Put(t, last.key.caseId, last.cfp.value) else t
  }

  function Values(t: Table): seq<real> {
    seq(|t|, i requires 0 <= i < |t| => t[i].1)
  }

  datatype FamilyRate = FamilyRate(estimate: Option<real>, clusters: seq<real>)

  /** One family of one model: the plain mean of its case estimates, unless some
      case is not scorable. */
  function FamilyRateOf(cases: seq<CaseResult>): FamilyRate {
    if Estimates(cases) == [] || exists i :: 0 <= i < |cases| && cases[i].status != CasePass then FamilyRate(None, [])
    else
      var values := Values(Estimates(cases));
      FamilyRate(Some(Mean(values)), values)
  }

  method FamilyConditionalFailureRate(cases: seq<CaseResult>) returns (r: FamilyRate)
    ensures r == FamilyRateOf(cases)
  {
    var invalid := false;
    var estimates: Table := [];
    for i := 0 to |cases|
      invariant invalid == exists j :: 0 <= j < i && cases[j].status != CasePass
      invariant estimates == Estimates(cases[..i])
    {
      assert cases[..i + 1][..i] == cases[..i];
      if cases[i].status != CasePass {
        invalid := true;
      } else if cases[i].cfp.Some? {
        estimates := Put(estimates, cases[i].key.caseId, cases[i].cfp.value);
      }
    }
    assert cases[..|cases|] == cases;
    if invalid || estimates == [] {
      r := FamilyRate(None, []);
    } else {
      var values := Values(estimates);
      var sum := 0.0;
      for i := 0 to |values|
        invariant sum == Sum(values[..i])
      {
        assert values[..i + 1][..i] == values[..i];
        sum := sum + values[i];
      }
      assert values[..|values|] == values;
      r := FamilyRate(Some(sum / |values| as real), values);
    }
  }

  predicate DistinctCaseIds(cases: seq<CaseResult>) {
    forall i, j | 0 <= i < j < |cases| :: cases[i].key.caseId != cases[j].key.caseId
  }

  predicate AllPass(cases: seq<CaseResult>) {
    forall i | 0 <= i < |cases| :: cases[i].status == CasePass && cases[i].cfp.Some?
  }

  function CaseEstimates(cases: seq<CaseResult>): seq<real>
    requires AllPass(cases)
  {
    seq(|cases|, i requires 0 <= i < |cases| => cases[i].cfp.value)
  }

  lemma {:induction false} PutFresh(t: Table, k: Id, v: real)
    requires forall i | 0 <= i < |t| :: t[i].0 != k
    ensures Put(t, k, v) == t + [(k, v)]
    decreases |t|
  {
    if t != [] {
      PutFresh(t[1..], k, v);
      assert t == [t[0]] + t[1..];
    }
  }

  lemma {:induction false} EstimatesKeepEveryCase(cases: seq<CaseResult>)
    requires DistinctCaseIds(cases) && AllPass(cases)
    ensures |Estimates(cases)| == |cases|
    ensures forall i | 0 <= i < |cases| :: Estimates(cases)[i] == (cases[i].key.caseId, cases[i].cfp.value)
  {
    if cases != [] {
      var n := |cases| - 1;
      EstimatesKeepEveryCase(cases[..n]);
      PutFresh(Estimates(cases[..n]), cases[n].key.caseId, cases[n].cfp.value);
    }
  }

  /** The cases the per-case estimator lists for one model have distinct case_ids. */
  lemma ListedCasesAreDistinct(planned: Planned, observed: Observed, active: set<TargetClass>, cases: seq<CaseResult>)
    requires GridInv(planned, observed)
    requires forall i | 0 <= i < |cases| :: CaseIds(planned, active, cases[i].key) != {}
    requires forall i, j | 0 <= i < j < |cases| :: cases[i].key != cases[j].key && cases[i].key.model == cases[j].key.model
    ensures DistinctCaseIds(cases)
  {
    forall i, j | 0 <= i < j < |cases| ensures cases[i].key.caseId != cases[j].key.caseId {
      if cases[i].key.caseId == cases[j].key.caseId {
        CaseIdDeterminesKey(planned, observed, active, cases[i].key, cases[j].key);
      }
    }
  }

  /** On an accepted grid the family estimate is the mean over every distinct case
      of the family: keying by case_id alone loses none, and the estimate lies
      between the least and the greatest case estimate. */
  lemma {:induction false} FamilyEstimateIsTheMeanOfAllCases(planned: Planned, observed: Observed, active: set<TargetClass>, cases: seq<CaseResult>)
    requires GridInv(planned, observed) && cases != [] && AllPass(cases)
    requires forall i | 0 <= i < |cases| :: CaseIds(planned, active, cases[i].key) != {}
    requires forall i, j | 0 <= i < j < |cases| :: cases[i].key != cases[j].key && cases[i].key.model == cases[j].key.model
    ensures var all := CaseEstimates(cases);
      && FamilyRateOf(cases) == FamilyRate(Some(Mean(all)), all)
      && forall a, b | Within(all, a, b) :: a <= Mean(all) <= b
  {
    ListedCasesAreDistinct(planned, observed, active, cases);
    EstimatesKeepEveryCase(cases);
    var all := CaseEstimates(cases);
    assert Values(Estimates(cases)) == all;
    forall a, b | Within(all, a, b) ensures a <= Mean(all) <= b {
      MeanWithin(all, a, b);
    }
  }

  // ---- cases by family ----------------------------------------------------

  datatype Family = Family(entryId: Id, familyId: Id)

  function FamilyOf(k: CaseKey): Family {
    Family(k.entryId, k.familyId)
  }

  /** The cases of one family, in the order they are listed. */
  function InFamily(cases: seq<CaseResult>, f: Family): seq<CaseResult> {
    if cases == [] then []
    else
      var n := |cases| - 1;
      InFamily(cases[..n], f) + if FamilyOf(cases[n].key) == f then [cases[n]] else []
  }

  /** The grouping loop, then one estimate per group. */
  method FamilyRates(cases: seq<CaseResult>) returns (rates: map<Family, FamilyRate>)
    ensures forall f :: f in rates <==> InFamily(cases, f) != []
    ensures forall f | f in rates :: rates[f] == FamilyRateOf(InFamily(cases, f))
  {
    var grouped: map<Family, seq<CaseResult>> := map[];
    for i := 0 to |cases|
      invariant forall f :: f in grouped <==> InFamily(cases[..i], f) != []
      invariant forall f | f in grouped :: grouped[f] == InFamily(cases[..i], f)
    {
      assert cases[..i + 1][..i] == cases[..i];
      var f := FamilyOf(cases[i].key);
      grouped := grouped[f := (if f in grouped then grouped[f] else []) + [cases[i]]];
    }
    assert cases[..|cases|] == cases;
    rates := map[];
    var todo := grouped.Keys;
    while todo != {}
      invariant todo <= grouped.Keys && rates.Keys == grouped.Keys - todo
      invariant forall f | f in rates :: rates[f] == FamilyRateOf(grouped[f])
      decreases |todo|
    {
      var f :| f in todo;
      var rate := FamilyConditionalFailureRate(grouped[f]);
      rates := rates[f := rate];
      todo := todo - {f};
    }
  }

  predicate DistinctKeys(cases: seq<CaseResult>) {
    forall i, j | 0 <= i < j < |cases| :: cases[i].key != cases[j].key
  }

  lemma {:induction false} FamilyMembers(cases: seq<CaseResult>, f: Family)
    ensures forall c :: c in InFamily(cases, f) <==> c in cases && FamilyOf(c.key) == f
    ensures DistinctKeys(cases) ==> DistinctKeys(InFamily(cases, f))
  {
    if cases != [] {
      var n := |cases| - 1;
      FamilyMembers(cases[..n], f);
      assert cases == cases[..n] + [cases[n]];
      if DistinctKeys(cases) {
        forall c | c in InFamily(cases[..n], f) ensures c.key != cases[n].key {
          var i :| 0 <= i < n && cases[..n][i] == c;
        }
      }
    }
  }

  /** A case of the model: some planned attempt of the active classes belongs to it. */
  predicate IsCase(planned: Planned, active: set<TargetClass>, model: Id, k: CaseKey) {
    k.model == model && CaseIds(planned, active, k) != {}
  }

  /** `CaseKeys` lists the model's cases. */
  lemma ListedAreTheCases(plan: seq<Attempt>, planned: Planned, active: set<TargetClass>, model: Id, k: CaseKey)
    requires PlannedTable(planned, plan)
    ensures IsCase(planned, active, model, k) <==>
              exists i :: 0 <= i < |plan| && plan[i].modelId == model && plan[i].targetClass in active && KeyOf(plan[i]) == k
  {
    if i :| 0 <= i < |plan| && plan[i].modelId == model && plan[i].targetClass in active && KeyOf(plan[i]) == k {
      assert plan[i].attemptId in CaseIds(planned, active, k);
    }
    if IsCase(planned, active, model, k) {
      var id :| id in CaseIds(planned, active, k);
      assert planned[id] in plan;
    }
  }

  /** Every planned attempt of the case was observed, and some row of it counts. */
  predicate Evaluable(planned: Planned, observed: Observed, active: set<TargetClass>, k: CaseKey) {
    CaseIds(planned, active, k) <= observed.Keys && Scorable(observed, CaseIds(planned, active, k)) != {}
  }

  /** The per-case results of one model, case by case. */
  predicate CasesOfModel(planned: Planned, observed: Observed, active: set<TargetClass>, model: Id, cases: seq<CaseResult>) {
    DistinctKeys(cases)
    && (forall c | c in cases :: IsCase(planned, active, model, c.key) && CaseResultFor(c, planned, observed, active))
    && forall id | id in planned && planned[id].modelId == model && planned[id].targetClass in active ::
         exists c :: c in cases && c.key == KeyOf(planned[id])
  }

  /** The per-case estimator over the listed keys of a model gives these results. */
  lemma ListedResultsAreTheCases(plan: seq<Attempt>, planned: Planned, observed: Observed, active: set<TargetClass>, model: Id,
                                 keys: seq<CaseKey>, cases: seq<CaseResult>)
    requires PlannedTable(planned, plan)
    requires forall k :: k in keys <==>
               exists i :: 0 <= i < |plan| && plan[i].modelId == model && plan[i].targetClass in active && KeyOf(plan[i]) == k
    requires forall i, j | 0 <= i < j < |keys| :: keys[i] != keys[j]
    requires |cases| == |keys|
    requires forall i | 0 <= i < |keys| :: cases[i].key == keys[i] && CaseResultFor(cases[i], planned, observed, active)
    ensures CasesOfModel(planned, observed, active, model, cases)
  {
    hide CaseResultFor, CaseIds;
    forall c | c in cases ensures IsCase(planned, active, model, c.key) && CaseResultFor(c, planned, observed, active) {
      var i :| 0 <= i < |cases| && cases[i] == c;
      assert keys[i] in keys;
      ListedAreTheCases(plan, planned, active, model, c.key);
    }
    forall id | id in planned && planned[id].modelId == model && planned[id].targetClass in active
      ensures exists c :: c in cases && c.key == KeyOf(planned[id])
    {
      var i :| 0 <= i < |plan| && plan[i] == planned[id];
      assert KeyOf(plan[i]) in keys;
      var j :| 0 <= j < |keys| && keys[j] == KeyOf(plan[i]);
      assert cases[j] in cases;
    }
  }

  /** From plan and rows to families: list the cases, estimate each, group by family. */
  method FamiliesOfModel(plan: seq<Attempt>, planned: Planned, rows: seq<Observation>, observed: Observed,
                         active: set<TargetClass>, model: Id) returns (cases: seq<CaseResult>, rates: map<Family, FamilyRate>)
    requires PlannedTable(planned, plan) && DistinctRows(rows) && ObservedTable(observed, rows)
    ensures CasesOfModel(planned, observed, active, model, cases)
    ensures forall f :: f in rates <==> exists k :: IsCase(planned, active, model, k) && FamilyOf(k) == f
    ensures forall f | f in rates :: rates[f] == FamilyRateOf(InFamily(cases, f))
  {
    var keys := CaseKeys(plan, active, model);
    cases := CaseFailureProbability(planned, rows, observed, active, keys);
    ListedResultsAreTheCases(plan, planned, observed, active, model, keys, cases);
    rates := FamilyRates(cases);
    forall f ensures f in rates <==> exists k :: IsCase(planned, active, model, k) && FamilyOf(k) == f {
      FamilyIsListedIff(planned, observed, active, model, cases, f);
    }
  }

  lemma FamilyIsListedIff(planned: Planned, observed: Observed, active: set<TargetClass>, model: Id,
                          cases: seq<CaseResult>, f: Family)
    requires CasesOfModel(planned, observed, active, model, cases)
    ensures InFamily(cases, f) != [] <==> exists k :: IsCase(planned, active, model, k) && FamilyOf(k) == f
  {
    hide CaseResultFor, CaseIds, InFamily;
    var group := InFamily(cases, f);
    FamilyMembers(cases, f);
    if group != [] {
      assert group[0] in group && group[0] in cases;
    }
    if k :| IsCase(planned, active, model, k) && FamilyOf(k) == f {
      CaseIsListed(planned, observed, active, model, cases, k);
    }
  }

  /** Some planned attempt belongs to the family, and every case of it is evaluable. */
  ghost predicate FamilyEvaluable(planned: Planned, observed: Observed, active: set<TargetClass>, model: Id, f: Family) {
    (exists k :: IsCase(planned, active, model, k) && FamilyOf(k) == f)
    && forall k | IsCase(planned, active, model, k) && FamilyOf(k) == f :: Evaluable(planned, observed, active, k)
  }

  /** A family of a model has an estimate if and only if some planned attempt belongs to
      it and every case of it is evaluable; the estimate is then the mean over all of them. */
  lemma FamilyEstimatedIff(planned: Planned, observed: Observed, active: set<TargetClass>, model: Id,
                           cases: seq<CaseResult>, f: Family)
    requires GridInv(planned, observed) && CasesOfModel(planned, observed, active, model, cases)
    ensures var group := InFamily(cases, f);
      && (FamilyRateOf(group).estimate.Some? <==> FamilyEvaluable(planned, observed, active, model, f))
      && (FamilyRateOf(group).estimate.Some? ==>
            AllPass(group) && group != []
            && FamilyRateOf(group) == FamilyRate(Some(Mean(CaseEstimates(group))), CaseEstimates(group)))
  {
    hide GridInv, CaseResultFor, CaseIds, Scorable, Mean, InFamily;
    var group := InFamily(cases, f);
    FamilyMembers(cases, f);
    forall k | IsCase(planned, active, model, k) && FamilyOf(k) == f ensures exists c :: c in group && c.key == k {
      CaseIsListed(planned, observed, active, model, cases, k);
    }
    forall c | c in group
      ensures IsCase(planned, active, model, c.key) && FamilyOf(c.key) == f
      ensures (c.status == CasePass <==> Evaluable(planned, observed, active, c.key)) && (c.status == CasePass ==> c.cfp.Some?)
    {
      PassIsEvaluable(planned, observed, active, c);
    }
    if group != [] && AllPass(group) {
      assert group[0] in group;
      FamilyEstimateIsTheMeanOfAllCases(planned, observed, active, group);
    } else if group != [] {
      var i :| 0 <= i < |group| && !(group[i].status == CasePass && group[i].cfp.Some?);
      assert group[i] in group;
    }
  }

  lemma CaseIsListed(planned: Planned, observed: Observed, active: set<TargetClass>, model: Id, cases: seq<CaseResult>, k: CaseKey)
    requires CasesOfModel(planned, observed, active, model, cases) && IsCase(planned, active, model, k)
    ensures exists c :: c in cases && c.key == k
  {
    var id :| id in CaseIds(planned, active, k);
  }

  lemma PassIsEvaluable(planned: Planned, observed: Observed, active: set<TargetClass>, c: CaseResult)
    requires CaseResultFor(c, planned, observed, active)
    ensures c.status == CasePass <==> Evaluable(planned, observed, active, c.key)
    ensures c.status == CasePass ==> c.cfp.Some?
  {}

  // ---- bootstrap ----------------------------------------------------------

  predicate Sorted(s: seq<real>) {
    forall i, j | 0 <= i < j < |s| :: s[i] <= s[j]
  }

  function Insert(s: seq<real>, x: real): (r: seq<real>)
    ensures |r| == |s| + 1
  {
    if s == [] || x <= s[0] then [x] + s else [s[0]] + Insert(s[1..], x)
  }

  function Sort(s: seq<real>): (r: seq<real>)
    ensures |r| == |s|
  {
    if s == [] then [] else Insert(Sort(s[..|s| - 1]), s[|s| - 1])
  }

  lemma {:induction false} InsertKeeps(s: seq<real>, x: real)
    ensures multiset(Insert(s, x)) == multiset(s) + multiset{x}
    decreases |s|
  {
    if s != [] && x > s[0] {
      InsertKeeps(s[1..], x);
      assert s == [s[0]] + s[1..];
    }
  }

  lemma {:induction false} InsertSorts(s: seq<real>, x: real)
    requires Sorted(s)
    ensures Sorted(Insert(s, x))
    decreases |s|
  {
    if s != [] && x > s[0] {
      InsertSorts(s[1..], x);
      InsertKeeps(s[1..], x);
      var rest := Insert(s[1..], x);
      forall i | 0 <= i < |rest| ensures s[0] <= rest[i] {
        assert rest[i] in multiset(rest);
        assert rest[i] in s[1..] || rest[i] == x;
      }
    }
  }

  lemma {:induction false} SortSorts(s: seq<real>)
    ensures Sorted(Sort(s)) && multiset(Sort(s)) == multiset(s)
  {
    if s != [] {
      var n := |s| - 1;
      SortSorts(s[..n]);
      InsertKeeps(Sort(s[..n]), s[n]);
      InsertSorts(Sort(s[..n]), s[n]);
      assert s == s[..n] + [s[n]];
    }
  }

  lemma SortWithin(s: seq<real>, a: real, b: real)
    requires Within(s, a, b)
    ensures Within(Sort(s), a, b)
  {
    SortSorts(s);
    forall i | 0 <= i < |s| ensures a <= Sort(s)[i] <= b {
      assert Sort(s)[i] in multiset(Sort(s));
      assert Sort(s)[i] in s;
    }
  }

  /** Percentile positions in a sorted list of n resample means. */
  function LowerIndex(n: nat): int { ((n - 1) as real * 0.025).Floor }
  function UpperIndex(n: nat): int { -((-((n - 1) as real * 0.975)).Floor) }

  lemma PercentileIndexesInRange(n: nat)
    requires n > 0
    ensures 0 <= LowerIndex(n) <= UpperIndex(n) < n
  {
    var m := (n - 1) as real;
    assert -(m * 0.975) >= -m;
    assert m * 0.025 <= m * 0.975;
  }

  /** Which value is picked for resample b at position k: any sequence of draws. */
  type Draws = (nat, nat) -> nat

  function Picked(values: seq<real>, draws: Draws, b: nat): seq<real>
    requires values != []
  {
    seq(|values|, k requires 0 <= k => values[draws(b, k) % |values|])
  }

  datatype Bootstrap = TooFewClusters | Percentiles(lower: real, upper: real)

  /** Whatever the draws, the ends are the two percentiles of the sorted resample
      means, in order, and both lie in the range of the case estimates. */
  method CaseClusterBootstrap(values: seq<real>, draws: Draws) returns (r: Bootstrap)
    ensures r.TooFewClusters? <==> |values| < 2
    ensures r.Percentiles? ==>
              && 0 <= LowerIndex(RESAMPLES) <= UpperIndex(RESAMPLES) < RESAMPLES
              && (var means := seq(RESAMPLES, b requires 0 <= b => Mean(Picked(values, draws, b)));
                  r.lower == Sort(means)[LowerIndex(RESAMPLES)] && r.upper == Sort(means)[UpperIndex(RESAMPLES)])
              && forall a, b | Within(values, a, b) :: a <= r.lower <= r.upper <= b
  {
    if |values| < 2 {
      return TooFewClusters;
    }
    var bootstrap: seq<real> := [];
    for b := 0 to RESAMPLES
      invariant |bootstrap| == b
      invariant forall c | 0 <= c < b :: bootstrap[c] == Mean(Picked(values, draws, c))
    {
      bootstrap := bootstrap + [Mean(Picked(values, draws, b))];
    }
    PercentileIndexesInRange(RESAMPLES);
    SortSorts(bootstrap);
    forall lo, hi | Within(values, lo, hi) ensures Within(Sort(bootstrap), lo, hi) {
      ResampleMeansWithin(values, draws, bootstrap, lo, hi);
      SortWithin(bootstrap, lo, hi);
    }
    assert bootstrap == seq(RESAMPLES, b requires 0 <= b => Mean(Picked(values, draws, b)));
    r := Percentiles(Sort(bootstrap)[LowerIndex(RESAMPLES)], Sort(bootstrap)[UpperIndex(RESAMPLES)]);
  }

  lemma ResampleMeansWithin(values: seq<real>, draws: Draws, means: seq<real>, lo: real, hi: real)
    requires values != [] && Within(values, lo, hi)
    requires forall c: nat | c < |means| :: means[c] == Mean(Picked(values, draws, c))
    ensures Within(means, lo, hi)
  {
    forall c: nat | c < |means| ensures lo <= means[c] <= hi {
      MeanWithin(Picked(values, draws, c), lo, hi);
    }
  }
}
