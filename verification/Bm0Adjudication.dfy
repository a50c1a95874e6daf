/** Adjudication of one planned attempt, `resolve_adjudication_v1` of b2/bm0.py. */
module Bm0Adjudication {
  import opened Sequences
  import opened Wrappers

  type Id = nat

  datatype Decision = PASS | FAIL | UNKNOWN
  datatype Role = Primary | Tiebreak
  datatype RecordStatus = Completed | Errored

  /** What all records of one adjudication have to agree on. */
  datatype Subject = Subject(studyId: Id, attemptId: Id, itemAlias: Id, metricId: Id, rubric: Id)
  datatype Assignment = Assignment(adjudicatorId: Id, configuration: Id)
  datatype Record = Record(
    subject: Subject, role: Role, assignee: Assignment,
    status: RecordStatus, decision: Option<Decision>, evidenceComplete: bool, assisted: bool)

  datatype Plan = Plan(first: Assignment, second: Assignment, tiebreak: Assignment, metricIds: set<Id>, rubric: Id)
  datatype PlannedItem = PlannedItem(studyId: Id, itemAlias: Id)

  /** `validate_adjudication_plan`: three distinct people. */
  predicate PlanAccepted(p: Plan) {
    p.first.adjudicatorId != p.second.adjudicatorId
    && p.first.adjudicatorId != p.tiebreak.adjudicatorId && p.second.adjudicatorId != p.tiebreak.adjudicatorId
  }

  predicate RecordAccepted(r: Record) {
    match r.status
    case Completed => r.decision.Some? && (r.evidenceComplete <==> r.decision != Some(UNKNOWN))
    case Errored => r.decision.None? && !r.evidenceComplete
  }

  // ---- selections ---------------------------------------------------------

  function WithRole(rows: seq<Record>, role: Role): seq<Record> {
    if rows == [] then []
    else (if rows[0].role == role then [rows[0]] else []) + WithRole(rows[1..], role)
  }

  function Count(rows: seq<Record>, d: Decision): nat {
    if rows == [] then 0
    else (if rows[0].decision == Some(d) then 1 else 0) + Count(rows[1..], d)
  }

  function CompletedCount(rows: seq<Record>): nat {
    if rows == [] then 0
    else (if rows[0].status.Completed? then 1 else 0) + CompletedCount(rows[1..])
  }

  function AssistedCount(rows: seq<Record>): nat {
    if rows == [] then 0
    else (if rows[0].assisted then 1 else 0) + AssistedCount(rows[1..])
  }

  predicate DistinctPeople(rows: seq<Record>) {
    forall i, j | 0 <= i < j < |rows| :: rows[i].assignee.adjudicatorId != rows[j].assignee.adjudicatorId
  }

  // ---- resolution ---------------------------------------------------------

  datatype Reason =
    | MissingPrimaryAdjudications | IncompleteOrAmbiguousSet | InfrastructureError
    | PrimaryInsufficientEvidence | PrimaryAgreement | DisagreementRequiresTiebreak
    | TiebreakInsufficientEvidence | PredeclaredTiebreak

  datatype Terminal = Decided(decision: Decision) | Undecided | Error

  datatype Report = Report(
    primaries: nat, completedPrimaries: nat, exactAgreement: Option<bool>,
    escalated: bool, tiebreaks: nat, assisted: nat)

  datatype Resolution = Resolution(terminal: Terminal, reason: Reason, report: Report)

  datatype Rejection =
    | MalformedRecord | RecordsDisagree | UnplannedAttempt | WrongItem | WrongMetric | WrongRubric
    | SamePersonTwice | UnplannedPrimary | TooManyTiebreaks | UnplannedTiebreak | TooManyPrimaries
    | TiebreakAfterError | TiebreakWithoutPrimaries | PrimariesDrifted | TiebreakOnMissingEvidence | TiebreakOnAgreement

  function ReportOf(primaries: seq<Record>, tiebreaks: seq<Record>): Report {
    var completed := CompletedCount(primaries);
    // Two completed records among at most two primaries: compare them.
    var agreement := if completed == 2 && |primaries| == 2 then Some(primaries[0].decision == primaries[1].decision) else None;
    Report(|primaries|, completed, agreement, agreement == Some(false) && |tiebreaks| == 1, |tiebreaks|,
           AssistedCount(primaries) + AssistedCount(tiebreaks))
  }

  function Finding(t: Terminal, reason: Reason, p: seq<Record>, t': seq<Record>): Result<Resolution, Rejection> {
    Ok(Resolution(t, reason, ReportOf(p, t')))
  }

  function Resolve(plan: Plan, planned: map<Id, PlannedItem>, rows: seq<Record>): Result<Resolution, Rejection>
    requires PlanAccepted(plan)
  {
    if exists i :: 0 <= i < |rows| && !RecordAccepted(rows[i]) then Err(MalformedRecord)
    else if rows == [] then Finding(Undecided, MissingPrimaryAdjudications, [], [])
    else if exists i :: 0 <= i < |rows| && rows[i].subject != rows[0].subject then Err(RecordsDisagree)
    else
      var s := rows[0].subject;
      if s.attemptId !in planned then Err(UnplannedAttempt)
      else if s.studyId != planned[s.attemptId].studyId || s.itemAlias != planned[s.attemptId].itemAlias then Err(WrongItem)
      else if s.metricId !in plan.metricIds then Err(WrongMetric)
      else if s.rubric != plan.rubric then Err(WrongRubric)
      else if !DistinctPeople(rows) then Err(SamePersonTwice)
      else Weigh(plan, WithRole(rows, Primary), WithRole(rows, Tiebreak))
  }

  predicate AllPlanned(plan: Plan, primaries: seq<Record>) {
    forall i | 0 <= i < |primaries| :: primaries[i].assignee == plan.first || primaries[i].assignee == plan.second
  }

  predicate BothPlanned(plan: Plan, primaries: seq<Record>) {
    (exists i :: 0 <= i < |primaries| && primaries[i].assignee == plan.first)
    && (exists i :: 0 <= i < |primaries| && primaries[i].assignee == plan.second)
  }

  predicate AnyErrored(primaries: seq<Record>) {
    exists i :: 0 <= i < |primaries| && primaries[i].status.Errored?
  }

  predicate AnyUnknown(primaries: seq<Record>) {
    exists i :: 0 <= i < |primaries| && primaries[i].decision == Some(UNKNOWN)
  }

  /** The part that depends on who recorded what. */
  function Weigh(plan: Plan, p: seq<Record>, t: seq<Record>): Result<Resolution, Rejection> {
    if !AllPlanned(plan, p) then Err(UnplannedPrimary)
    else if |t| > 1 then Err(TooManyTiebreaks)
    else if |t| == 1 && t[0].assignee != plan.tiebreak then Err(UnplannedTiebreak)
    else if |p| > 2 then Err(TooManyPrimaries)
    else if AnyErrored(p) then
      if t != [] then Err(TiebreakAfterError) else Finding(Error, InfrastructureError, p, t)
    else if |p| != 2 then
      if t != [] then Err(TiebreakWithoutPrimaries) else Finding(Undecided, IncompleteOrAmbiguousSet, p, t)
    else if !BothPlanned(plan, p) then Err(PrimariesDrifted)
    else if AnyUnknown(p) then
      if t != [] then Err(TiebreakOnMissingEvidence) else Finding(Undecided, PrimaryInsufficientEvidence, p, t)
    else if p[0].decision == p[1].decision then
      if t != [] then Err(TiebreakOnAgreement)
      else if p[0].decision.None? then Finding(Undecided, PrimaryAgreement, p, t)
      else Finding(Decided(p[0].decision.value), PrimaryAgreement, p, t)
    else if t == [] then Finding(Undecided, DisagreementRequiresTiebreak, p, t)
    else if t[0].status.Errored? || t[0].decision.None? then Finding(Error, InfrastructureError, p, t)
    else if t[0].decision == Some(UNKNOWN) then Finding(Undecided, TiebreakInsufficientEvidence, p, t)
    else Finding(Decided(t[0].decision.value), PredeclaredTiebreak, p, t)
  }

  // ---- selections and permutations ----------------------------------------

  lemma {:induction false} RoleMembers(rows: seq<Record>, role: Role)
    ensures forall r :: r in WithRole(rows, role) <==> r in rows && r.role == role
    ensures multiset(WithRole(rows, role)) <= multiset(rows)
  {
    if rows != [] {
      RoleMembers(rows[1..], role);
      assert rows == [rows[0]] + rows[1..];
    }
  }

  lemma RoleAccepted(rows: seq<Record>, role: Role)
    requires forall i | 0 <= i < |rows| :: RecordAccepted(rows[i])
    ensures forall i | 0 <= i < |WithRole(rows, role)| :: RecordAccepted(WithRole(rows, role)[i])
  {
    RoleMembers(rows, role);
  }

  lemma {:induction false} RolesSplit(rows: seq<Record>)
    ensures multiset(rows) == multiset(WithRole(rows, Primary)) + multiset(WithRole(rows, Tiebreak))
    ensures |rows| == |WithRole(rows, Primary)| + |WithRole(rows, Tiebreak)|
  {
    if rows != [] {
      RolesSplit(rows[1..]);
      assert rows == [rows[0]] + rows[1..];
    }
  }

  lemma {:induction false} CountsSplit(rows: seq<Record>, d: Decision)
    ensures Count(rows, d) == Count(WithRole(rows, Primary), d) + Count(WithRole(rows, Tiebreak), d)
  {
    if rows != [] {
      CountsSplit(rows[1..], d);
      var p, t := WithRole(rows[1..], Primary), WithRole(rows[1..], Tiebreak);
      if rows[0].role == Primary {
        assert WithRole(rows, Primary)[1..] == p && WithRole(rows, Tiebreak) == t;
      } else {
        assert WithRole(rows, Tiebreak)[1..] == t && WithRole(rows, Primary) == p;
      }
    }
  }

  /** How often a record occurs among one role. */
  lemma RoleMultiplicity(rows: seq<Record>, role: Role, r: Record)
    ensures multiset(WithRole(rows, role))[r] == if r.role == role then multiset(rows)[r] else 0
  {
    RolesSplit(rows);
    RoleMembers(rows, Primary);
    RoleMembers(rows, Tiebreak);
    var p, t := WithRole(rows, Primary), WithRole(rows, Tiebreak);
    assert r in p <==> multiset(p)[r] > 0;
    assert r in t <==> multiset(t)[r] > 0;
  }

  lemma RolesOfSubset(some: seq<Record>, all: seq<Record>, role: Role)
    requires multiset(some) <= multiset(all)
    ensures multiset(WithRole(some, role)) <= multiset(WithRole(all, role))
  {
    forall r ensures multiset(WithRole(some, role))[r] <= multiset(WithRole(all, role))[r] {
      RoleMultiplicity(some, role, r);
      RoleMultiplicity(all, role, r);
    }
  }

  lemma TalliesOfTwo(s: seq<Record>)
    requires 1 <= |s| <= 2
    ensures |s| == 1 ==> CompletedCount(s) == (if s[0].status.Completed? then 1 else 0)
    ensures |s| == 1 ==> AssistedCount(s) == (if s[0].assisted then 1 else 0)
    ensures |s| == 2 ==> CompletedCount(s) == (if s[0].status.Completed? then 1 else 0) + (if s[1].status.Completed? then 1 else 0)
    ensures |s| == 2 ==> AssistedCount(s) == (if s[0].assisted then 1 else 0) + (if s[1].assisted then 1 else 0)
  {
    if |s| == 2 { TalliesOfTwo(s[1..]); } else { assert s[1..] == []; }
  }

  lemma SameMembers(a: seq<Record>, b: seq<Record>)
    requires multiset(a) == multiset(b)
    ensures |a| == |b| && forall r :: r in a <==> r in b
  {
    assert |multiset(a)| == |a| && |multiset(b)| == |b|;
    assert forall r :: r in a <==> r in multiset(a);
  }

  lemma PairPermutes(a: seq<Record>, b: seq<Record>)
    requires multiset(a) == multiset(b) && |a| == 2 && |b| == 2
    ensures (a[0] == b[0] && a[1] == b[1]) || (a[0] == b[1] && a[1] == b[0])
  {
    assert a == [a[0], a[1]] && b == [b[0], b[1]];
    assert multiset{a[0], a[1]} == multiset{b[0], b[1]};
    assert a[0] in multiset{b[0], b[1]};
  }

  lemma SamePermutation(a: seq<Record>, b: seq<Record>)
    requires multiset(a) == multiset(b)
    ensures |a| == |b| && (forall r :: r in a <==> r in b)
    ensures |a| <= 2 ==> CompletedCount(a) == CompletedCount(b) && AssistedCount(a) == AssistedCount(b)
    ensures |a| == 1 ==> a[0] == b[0]
    ensures |a| == 2 ==> (a[0] == b[0] && a[1] == b[1]) || (a[0] == b[1] && a[1] == b[0])
  {
    SameMembers(a, b);
    if |a| == 1 {
      assert a[0] in b;
    }
    if |a| == 2 {
      PairPermutes(a, b);
    }
    if 1 <= |a| <= 2 {
      TalliesOfTwo(a);
      TalliesOfTwo(b);
    }
  }

  lemma DistinctSubset(some: seq<Record>, all: seq<Record>)
    requires multiset(some) <= multiset(all) && DistinctPeople(all)
    ensures DistinctPeople(some)
  {
    assert DistinctItems(all);
    forall i, j | 0 <= i < j < |some| ensures some[i].assignee.adjudicatorId != some[j].assignee.adjudicatorId {
      if some[i] == some[j] {
        RepeatedIsCounted(some, i, j);
        OnceEach(all, some[i]);
      } else {
        assert some[i] in multiset(all) && some[j] in multiset(all);
        var k :| 0 <= k < |all| && all[k] == some[i];
        var m :| 0 <= m < |all| && all[m] == some[j];
      }
    }
  }

  // ---- main results -------------------------------------------------------

  lemma PrimaryChecksIgnoreOrder(plan: Plan, p: seq<Record>, p': seq<Record>)
    requires forall r :: r in p <==> r in p'
    ensures AllPlanned(plan, p) ==> AllPlanned(plan, p')
    ensures BothPlanned(plan, p) ==> BothPlanned(plan, p')
    ensures AnyErrored(p) ==> AnyErrored(p')
    ensures AnyUnknown(p) ==> AnyUnknown(p')
  {
    assert forall i | 0 <= i < |p| :: p[i] in p';
    assert forall i | 0 <= i < |p'| :: p'[i] in p;
  }

  lemma WeighIgnoresOrder(plan: Plan, p: seq<Record>, t: seq<Record>, p': seq<Record>, t': seq<Record>)
    requires multiset(p) == multiset(p') && multiset(t) == multiset(t')
    ensures Weigh(plan, p, t) == Weigh(plan, p', t')
  {
    hide AllPlanned, BothPlanned, AnyErrored, AnyUnknown, CompletedCount, AssistedCount;
    SamePermutation(p, p');
    SamePermutation(t, t');
    PrimaryChecksIgnoreOrder(plan, p, p');
    PrimaryChecksIgnoreOrder(plan, p', p);
  }

  /** Order plays no part: not in the result, not in the report, not in which error is raised. */
  lemma OrderIsIrrelevant(plan: Plan, planned: map<Id, PlannedItem>, rows: seq<Record>, rows': seq<Record>)
    requires PlanAccepted(plan) && multiset(rows) == multiset(rows')
    ensures Resolve(plan, planned, rows) == Resolve(plan, planned, rows')
  {
    hide Weigh, WithRole;
    SamePermutation(rows, rows');
    assert forall i | 0 <= i < |rows| :: rows[i] in rows';
    assert forall i | 0 <= i < |rows'| :: rows'[i] in rows;
    if DistinctPeople(rows) { DistinctSubset(rows', rows); }
    if DistinctPeople(rows') { DistinctSubset(rows, rows'); }
    RolesOfSubset(rows, rows', Primary);
    RolesOfSubset(rows', rows, Primary);
    RolesOfSubset(rows, rows', Tiebreak);
    RolesOfSubset(rows', rows, Tiebreak);
    WeighIgnoresOrder(plan, WithRole(rows, Primary), WithRole(rows, Tiebreak),
                      WithRole(rows', Primary), WithRole(rows', Tiebreak));
  }

  lemma CountOfOne(s: seq<Record>, d: Decision)
    requires |s| == 1
    ensures Count(s, d) == if s[0].decision == Some(d) then 1 else 0
  {
    assert s[1..] == [];
  }

  lemma CountOfTwo(s: seq<Record>, d: Decision)
    requires |s| == 2
    ensures Count(s, d) == (if s[0].decision == Some(d) then 1 else 0) + (if s[1].decision == Some(d) then 1 else 0)
  {
    CountOfOne(s[1..], d);
  }

  lemma WeighCountsVotes(plan: Plan, p: seq<Record>, t: seq<Record>, d: Decision)
    requires Weigh(plan, p, t).Ok? && d != UNKNOWN
    requires forall i | 0 <= i < |p| :: RecordAccepted(p[i])
    requires forall i | 0 <= i < |t| :: RecordAccepted(t[i])
    ensures Weigh(plan, p, t).value.terminal == Decided(d) <==> Count(p, d) + Count(t, d) == 2
  {
    hide AllPlanned, BothPlanned, ReportOf;
    if |p| == 1 { CountOfOne(p, d); }
    if |p| == 2 { CountOfTwo(p, d); }
    if |t| == 1 { CountOfOne(t, d); }
    assert |p| <= 2 && |t| <= 1;
    if AnyErrored(p) {
      var i :| 0 <= i < |p| && p[i].status.Errored?;
      assert p[i].decision.None? && t == [];
      assert i == 0 || i == 1;
    } else if |p| == 2 {
      assert RecordAccepted(p[0]) && RecordAccepted(p[1]);
      assert p[0].status.Completed? && p[1].status.Completed?;
      if AnyUnknown(p) {
        var i :| 0 <= i < |p| && p[i].decision == Some(UNKNOWN);
        assert i == 0 || i == 1;
      } else {
        assert p[0].decision != Some(UNKNOWN) && p[1].decision != Some(UNKNOWN);
        if t == [] {
          assert Count(t, d) == 0;
        } else {
          assert RecordAccepted(t[0]) && (d.PASS? || d.FAIL?);
          assert p[0].decision.value.PASS? || p[0].decision.value.FAIL?;
          assert p[1].decision.value.PASS? || p[1].decision.value.FAIL?;
        }
      }
    } else {
      assert t == [];
    }
  }

  predicate InPlannedRole(plan: Plan, r: Record) {
    if r.role.Primary? then r.assignee == plan.first || r.assignee == plan.second
    else r.assignee == plan.tiebreak
  }

  lemma WeighChecksPeople(plan: Plan, p: seq<Record>, t: seq<Record>)
    requires Weigh(plan, p, t).Ok?
    ensures forall r | r in p && r.role.Primary? :: InPlannedRole(plan, r)
    ensures forall r | r in t && r.role.Tiebreak? :: InPlannedRole(plan, r)
  {
  }

  /** Accepted records come from the planned people, each in the planned role and at most once. */
  lemma VotersWerePlanned(plan: Plan, planned: map<Id, PlannedItem>, rows: seq<Record>)
    requires PlanAccepted(plan) && Resolve(plan, planned, rows).Ok?
    ensures DistinctPeople(rows)
    ensures forall r | r in rows :: InPlannedRole(plan, r)
  {
    if rows != [] {
      hide DistinctPeople, RecordAccepted, WithRole, Weigh, InPlannedRole;
      RoleMembers(rows, Primary);
      RoleMembers(rows, Tiebreak);
      WeighChecksPeople(plan, WithRole(rows, Primary), WithRole(rows, Tiebreak));
      forall r | r in rows ensures InPlannedRole(plan, r) {
        if r.role.Primary? { assert r in WithRole(rows, Primary); } else { assert r in WithRole(rows, Tiebreak); }
      }
    }
  }

  /** In an accepted record set, PASS (or FAIL) is returned exactly when two people recorded it. */
  lemma DecidedIffTwoVotes(plan: Plan, planned: map<Id, PlannedItem>, rows: seq<Record>, d: Decision)
    requires PlanAccepted(plan) && Resolve(plan, planned, rows).Ok? && d != UNKNOWN
    ensures Resolve(plan, planned, rows).value.terminal == Decided(d) <==> Count(rows, d) == 2
  {
    hide Weigh, DistinctPeople, RecordAccepted, WithRole;
    CountsSplit(rows, d);
    if rows != [] {
      RoleAccepted(rows, Primary);
      RoleAccepted(rows, Tiebreak);
      WeighCountsVotes(plan, WithRole(rows, Primary), WithRole(rows, Tiebreak), d);
    }
  }

  /** Once decided, a weighing leaves no room: the primaries are two, and a tiebreak is there exactly when they differ. */
  lemma WeighIsFinal(plan: Plan, p: seq<Record>, t: seq<Record>, p': seq<Record>, t': seq<Record>)
    requires Weigh(plan, p, t).Ok? && Weigh(plan, p, t).value.terminal.Decided?
    requires multiset(p) <= multiset(p') && multiset(t) <= multiset(t')
    requires Weigh(plan, p', t').Ok?
    ensures |p'| <= |p| && |t'| <= |t|
  {
    assert |p| == 2 && |p'| <= 2;
    assert |multiset(p)| == |p| && |multiset(p')| == |p'|;
    CardinalityOfSubset(multiset(p), multiset(p'));
    SamePermutation(p, p');
  }

  lemma {:induction false} CardinalityOfSubset(a: multiset<Record>, b: multiset<Record>)
    requires a <= b
    ensures |a| <= |b|
    ensures |a| == |b| ==> a == b
  {
    var rest := b - a;
    assert b == a + rest;
    assert |b| == |a| + |rest|;
  }

  /** A decision is final: no strictly larger record set that contains its records is accepted. */
  lemma DefinitiveIsFinal(plan: Plan, planned: map<Id, PlannedItem>, rows: seq<Record>, more: seq<Record>)
    requires PlanAccepted(plan)
    requires Resolve(plan, planned, rows).Ok? && Resolve(plan, planned, rows).value.terminal.Decided?
    requires multiset(rows) < multiset(more)
    ensures Resolve(plan, planned, more).Err?
  {
    if Resolve(plan, planned, more).Ok? {
      LargerSetIsLonger(rows, more);
      DecidedLeavesNoRoom(plan, planned, rows, more);
    }
  }

  lemma LargerSetIsLonger(rows: seq<Record>, more: seq<Record>)
    requires multiset(rows) < multiset(more)
    ensures |rows| < |more|
  {
    CardinalityOfSubset(multiset(rows), multiset(more));
    assert |multiset(rows)| == |rows| && |multiset(more)| == |more|;
  }

  lemma DecidedLeavesNoRoom(plan: Plan, planned: map<Id, PlannedItem>, rows: seq<Record>, more: seq<Record>)
    requires PlanAccepted(plan)
    requires Resolve(plan, planned, rows).Ok? && Resolve(plan, planned, rows).value.terminal.Decided?
    requires Resolve(plan, planned, more).Ok? && multiset(rows) <= multiset(more)
    ensures |more| <= |rows|
  {
    hide Weigh, WithRole, DistinctPeople, RecordAccepted;
    if more != [] {
      RolesSplit(rows);
      RolesSplit(more);
      RolesOfSubset(rows, more, Primary);
      RolesOfSubset(rows, more, Tiebreak);
      WeighIsFinal(plan, WithRole(rows, Primary), WithRole(rows, Tiebreak),
                   WithRole(more, Primary), WithRole(more, Tiebreak));
    }
  }

  lemma {:induction false} AssistedSplit(rows: seq<Record>)
    ensures AssistedCount(rows) == AssistedCount(WithRole(rows, Primary)) + AssistedCount(WithRole(rows, Tiebreak))
  {
    if rows != [] {
      AssistedSplit(rows[1..]);
      var p, t := WithRole(rows[1..], Primary), WithRole(rows[1..], Tiebreak);
      if rows[0].role == Primary {
        assert WithRole(rows, Primary)[1..] == p && WithRole(rows, Tiebreak) == t;
      } else {
        assert WithRole(rows, Tiebreak)[1..] == t && WithRole(rows, Primary) == p;
      }
    }
  }

  lemma WeighReports(plan: Plan, p: seq<Record>, t: seq<Record>)
    requires Weigh(plan, p, t).Ok?
    requires forall i | 0 <= i < |p| :: RecordAccepted(p[i])
    ensures var r := Weigh(plan, p, t).value;
            r.report.primaries == |p| && r.report.tiebreaks == |t| && r.report.assisted == AssistedCount(p) + AssistedCount(t)
            && (r.reason == PrimaryAgreement ==> r.report.exactAgreement == Some(true) && !r.report.escalated)
            && (r.reason == PredeclaredTiebreak ==> r.report.exactAgreement == Some(false) && r.report.escalated)
  {
    hide AllPlanned, BothPlanned, AnyUnknown;
    if |p| == 2 && !AnyErrored(p) {
      assert RecordAccepted(p[0]) && RecordAccepted(p[1]);
      TalliesOfTwo(p);
    }
  }

  /** The agreement report accounts for every record, and for how a decision was reached. */
  lemma ReportAccountsForRecords(plan: Plan, planned: map<Id, PlannedItem>, rows: seq<Record>)
    requires PlanAccepted(plan) && Resolve(plan, planned, rows).Ok?
    ensures var r := Resolve(plan, planned, rows).value;
            r.report.primaries + r.report.tiebreaks == |rows| && r.report.assisted == AssistedCount(rows)
            && (r.terminal.Decided? ==> r.report.exactAgreement == Some(r.reason == PrimaryAgreement)
                                        && r.report.escalated == (r.reason == PredeclaredTiebreak))
  {
    hide DistinctPeople, RecordAccepted, WithRole, Weigh;
    RolesSplit(rows);
    AssistedSplit(rows);
    if rows != [] {
      RoleAccepted(rows, Primary);
      WeighReports(plan, WithRole(rows, Primary), WithRole(rows, Tiebreak));
      if Resolve(plan, planned, rows).value.terminal.Decided? {
        DecidedReason(plan, WithRole(rows, Primary), WithRole(rows, Tiebreak));
      }
    }
  }

  lemma DecidedReason(plan: Plan, p: seq<Record>, t: seq<Record>)
    requires Weigh(plan, p, t).Ok? && Weigh(plan, p, t).value.terminal.Decided?
    ensures Weigh(plan, p, t).value.reason == PrimaryAgreement || Weigh(plan, p, t).value.reason == PredeclaredTiebreak
  {
  }
}
