/** The observation grid of b2/bm0.py: which rows are accepted, and the two
    tables (planned attempts, observed rows) every estimator reads. */
module Bm0Grid {
  import opened Sequences
  import opened Wrappers
  import opened Bm0Manifest

  datatype Terminal = Pass | Fail | Unknown | NotEvaluable | Blocked | Error
  datatype Disposition =
    | CorrectAbstention | CorrectUnknownPreservation | UnjustifiedUnknown
    | UnresolvedScorerEvidence | UnresolvedAdjudicationEvidence

  /** The identity fields a row repeats from its planned attempt. The corpus pool
      and the item commitment are not among them. */
  datatype RowIdentity = RowIdentity(
    trialId: Id, modelId: Id, targetClass: TargetClass, caseId: Id,
    targetId: Id, entryId: Id, familyId: Id, variantId: Id, itemAlias: Id,
    details: nat, replicate: nat, conditions: nat, runtime: nat)

  datatype Observation = Observation(
    attemptId: Id, identity: RowIdentity, terminal: Terminal,
    disposition: Option<Disposition>, modelFailure: Option<nat>, model: ModelIdentity)

  function IdentityOf(a: Attempt): RowIdentity {
    var b := a.binding;
    RowIdentity(a.trialId, a.modelId, a.targetClass, a.caseId, b.targetId, b.entryId, b.familyId,
                b.variantId, b.itemAlias, b.details, a.replicate, a.conditions, a.runtime)
  }

  // ---- value rules of one row ---------------------------------------------

  function DispositionValue(d: Disposition): Option<nat> {
    match d
    case CorrectAbstention => Some(0)
    case CorrectUnknownPreservation => Some(0)
    case UnjustifiedUnknown => Some(1)
    case UnresolvedScorerEvidence => None
    case UnresolvedAdjudicationEvidence => None
  }

  function ExpectedValue(o: Observation): Option<nat> {
    if o.identity.targetClass.SystemEvalOnly? then None
    else match o.terminal
      case Pass => Some(0)
      case Fail => Some(1)
      case Unknown => if o.disposition.Some? then DispositionValue(o.disposition.value) else None
      case _ => None
  }

  predicate OutcomeOfModel(t: Terminal) {
    t.Pass? || t.Fail? || t.Unknown?
  }

  predicate IdentityStated(o: Observation) {
    WellStated(o.model)
    && (o.model.certainty.SystemScope? <==> o.identity.targetClass.SystemEvalOnly?)
    && (o.model.certainty.Unresolved? ==> !OutcomeOfModel(o.terminal))
  }

  predicate RowAccepted(o: Observation) {
    (o.terminal.Unknown? <==> o.disposition.Some?) && o.modelFailure == ExpectedValue(o) && IdentityStated(o)
  }

  /** `validate_trial_identity` on the model fields of a planned attempt. */
  predicate PlannedIdentityStated(a: Attempt) {
    WellStated(a.model) && !a.model.certainty.Unresolved?
    && (a.model.certainty.SystemScope? <==> a.targetClass.SystemEvalOnly?)
  }

  /** The observed identity against the planned one. */
  predicate IdentityHeld(required: ModelIdentity, o: Observation) {
    if required.certainty.SystemScope? then
      o.model.certainty.SystemScope? && o.model.version.SystemVersion? && o.model.limitation.SystemLimitation?
    else match o.model.certainty
    case Exact =>
      required.certainty.Exact? && o.model.version == required.version && o.model.limitation == required.limitation
    case AliasOnly =>
      required.certainty.AliasOnly? && o.model.version.NoVersion? && o.model.limitation.UnverifiableAlias?
    case Unresolved =>
      !o.terminal.Pass? && !o.terminal.Fail? && o.model.version.NoVersion? && o.model.limitation == required.limitation
    case SystemScope => false
  }

  // ---- the grid -----------------------------------------------------------

  type Planned = map<Id, Attempt>
  type Observed = map<Id, Observation>

  predicate PlannedTable(planned: Planned, plan: seq<Attempt>) {
    && (forall i | 0 <= i < |plan| :: plan[i].attemptId in planned && planned[plan[i].attemptId] == plan[i])
    && forall id | id in planned :: planned[id] in plan && planned[id].attemptId == id
  }

  predicate ObservedTable(observed: Observed, rows: seq<Observation>) {
    && (forall i | 0 <= i < |rows| :: rows[i].attemptId in observed && observed[rows[i].attemptId] == rows[i])
    && forall id | id in observed :: observed[id] in rows && observed[id].attemptId == id
  }

  predicate Fits(planned: Planned, o: Observation) {
    RowAccepted(o) && o.attemptId in planned && o.identity == IdentityOf(planned[o.attemptId])
    && IdentityHeld(planned[o.attemptId].model, o)
  }

  predicate DistinctRows(rows: seq<Observation>) {
    forall i, j | 0 <= i < j < |rows| :: rows[i].attemptId != rows[j].attemptId
  }

  predicate GridAccepted(planned: Planned, rows: seq<Observation>) {
    (forall i | 0 <= i < |rows| :: Fits(planned, rows[i])) && DistinctRows(rows)
  }

  datatype GridError = MalformedRow | UnplannedAttempt | DuplicateAttempt | IdentityMismatch | ModelDrift

  method BuildPlanned(plan: seq<Attempt>) returns (planned: Planned)
    requires UniqueIds(plan)
    ensures PlannedTable(planned, plan)
  {
    planned := map[];
    for i := 0 to |plan|
      invariant PlannedTable(planned, plan[..i])
    {
      planned := planned[plan[i].attemptId := plan[i]];
      assert plan[..i + 1] == plan[..i] + [plan[i]];
    }
    assert plan[..|plan|] == plan;
  }

  method ValidateGrid(planned: Planned, rows: seq<Observation>) returns (result: Result<Observed, GridError>)
    ensures result.Ok? <==> GridAccepted(planned, rows)
    ensures result.Ok? ==> ObservedTable(result.value, rows)
  {
    var observed: Observed := map[];
    for i := 0 to |rows|
      invariant GridAccepted(planned, rows[..i]) && ObservedTable(observed, rows[..i])
    {
      var row := rows[i];
      assert rows[..i + 1] == rows[..i] + [row];
      assert GridAccepted(planned, rows) ==> Fits(planned, row);
      if !RowAccepted(row) {
        return Err(MalformedRow);
      }
      if row.attemptId !in planned {
        return Err(UnplannedAttempt);
      }
      if row.attemptId in observed {
        assert observed[row.attemptId] in rows[..i];
        return Err(DuplicateAttempt);
      }
      if row.identity != IdentityOf(planned[row.attemptId]) {
        return Err(IdentityMismatch);
      }
      if !IdentityHeld(planned[row.attemptId].model, row) {
        return Err(ModelDrift);
      }
      observed := observed[row.attemptId := row];
    }
    assert rows[..|rows|] == rows;
    return Ok(observed);
  }

  /** What the estimators rely on: the tables agree, and the manifest checks hold. */
  predicate GridInv(planned: Planned, observed: Observed) {
    && (forall id | id in planned :: planned[id].attemptId == id)
    && (forall id | id in observed :: observed[id].attemptId == id && Fits(planned, observed[id]))
    && (forall a, b | a in planned && b in planned ::
          planned[a].caseId == planned[b].caseId ==> planned[a].binding == planned[b].binding)
    && (forall a, b | a in planned && b in planned ::
          planned[a].binding.targetId == planned[b].binding.targetId ==>
            planned[a].targetClass == planned[b].targetClass)
  }

  /** `validate_trial_identity` ties the class of an attempt to its target. */
  predicate LineageBound(plan: seq<Attempt>) {
    forall i, j | 0 <= i < |plan| && 0 <= j < |plan| ::
      plan[i].binding.targetId == plan[j].binding.targetId ==> plan[i].targetClass == plan[j].targetClass
  }

  lemma AcceptedGridInv(plan: seq<Attempt>, planned: Planned, rows: seq<Observation>, observed: Observed)
    requires CasesBound(plan) && LineageBound(plan)
    requires PlannedTable(planned, plan) && GridAccepted(planned, rows) && ObservedTable(observed, rows)
    ensures GridInv(planned, observed)
  {
    forall a, b | a in planned && b in planned && planned[a].caseId == planned[b].caseId
      ensures planned[a].binding == planned[b].binding
    {
      var i :| 0 <= i < |plan| && plan[i] == planned[a];
      var j :| 0 <= j < |plan| && plan[j] == planned[b];
      assert i == j || i < j || j < i;
    }
  }

  /** A row that counts in any rate states exactly the identity planned for it: no
      attempt of one model is ever scored for another, or for an unknown one. */
  lemma CountedRowsAreOfThePlannedModel(planned: Planned, o: Observation)
    requires Fits(planned, o) && PlannedIdentityStated(planned[o.attemptId]) && o.modelFailure.Some?
    ensures o.model == planned[o.attemptId].model && o.identity.modelId == planned[o.attemptId].modelId
    ensures o.model.certainty.Exact? || o.model.certainty.AliasOnly?
  {
    assert OutcomeOfModel(o.terminal) && !o.identity.targetClass.SystemEvalOnly?;
  }

  /** The observed table, hence every estimate below, does not depend on the
      order in which the observations arrive. */
  lemma ObservationOrderIsIrrelevant(planned: Planned, rows: seq<Observation>, shuffled: seq<Observation>,
                                     observed: Observed, observed': Observed)
    requires multiset(rows) == multiset(shuffled)
    requires GridAccepted(planned, rows) && ObservedTable(observed, rows) && ObservedTable(observed', shuffled)
    ensures GridAccepted(planned, shuffled) && observed == observed'
  {
    forall i, j | 0 <= i < j < |rows| ensures rows[i] != rows[j] {
      assert rows[i].attemptId != rows[j].attemptId;
    }
    PermutationKeepsDistinct(rows, shuffled);
    ShuffledIdsDiffer(rows, shuffled);
    assert forall id | id in observed :: observed[id] in shuffled;
    assert forall id | id in observed' :: observed'[id] in rows;
  }

  lemma ShuffledIdsDiffer(rows: seq<Observation>, shuffled: seq<Observation>)
    requires DistinctRows(rows) && DistinctItems(shuffled) && forall o :: o in shuffled <==> o in rows
    ensures DistinctRows(shuffled)
  {
    forall i, j | 0 <= i < j < |shuffled| ensures shuffled[i].attemptId != shuffled[j].attemptId {
      assert shuffled[i] in rows && shuffled[j] in rows && shuffled[i] != shuffled[j];
      var k :| 0 <= k < |rows| && rows[k] == shuffled[i];
      var l :| 0 <= l < |rows| && rows[l] == shuffled[j];
      assert k < l || l < k;
    }
  }
}
