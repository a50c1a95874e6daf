/** The dashboard projection of b2/qa3.py: how it is built from checked receipts,
    and how an independent verifier recomputes it from Git. */
module Qa3Projection {
  import opened Sequences
  import opened Wrappers

  type Id = nat

  datatype Path = Path(id: Id, bounded: bool)
  datatype Terminal = BLOCKED | ERROR | FAIL | NOT_EVALUABLE | PASS | UNKNOWN | Unlisted
  datatype ProfileId = QA0 | QA1_GROUNDING | QA1_TOOL_AGENT | QA2_SAFETY_ROBUSTNESS | QA3_A_PROJECTION_INTEGRITY

  /** `sealed`: the fingerprint reproduces. `profile` and `families` are what
      `_profile_id` and `_family_count` make of the document, if anything. */
  datatype Receipt = Receipt(
    sealed: bool, gatePassed: bool, profile: Option<ProfileId>, families: Option<nat>,
    cases: int, knownBad: int, controls: int, terminals: seq<Terminal>, content: nat)

  datatype SourceId = ReceiptAt(path: Path) | RunOf(run: Id)

  /** `fingerprint` is injective, so it stands for the receipt. */
  datatype Ref = Ref(sourceId: SourceId, locator: Path, fingerprint: Receipt, commit: Id)

  datatype Source = Source(path: Path, commit: Id, receipt: Receipt)
  datatype Checked = Checked(receipt: Receipt, ref: Ref)

  type Git = map<(Id, Path), Receipt>

  datatype Summary = Summary(
    profileId: ProfileId, gatePassed: bool, families: int, cases: int, knownBad: int, controls: int, terminals: seq<Terminal>)

  /** `fixed`: the fields with one permitted value have it. */
  datatype Profile = Profile(summary: Summary, fixed: bool, scopeId: ProfileId, observedAt: Id, ref: Ref)
  datatype Delta = Delta(profileId: ProfileId, fixed: bool, scopeId: ProfileId, observedAt: Id, ref: Ref)

  datatype Manifest = Manifest(
    declared: seq<SourceId>, included: seq<SourceId>, excluded: seq<SourceId>,
    sourceCount: int, includedCount: int, excludedCount: int, refs: seq<Ref>)

  datatype Body = Body(
    fixed: bool, snapshotId: Id, commit: Id, observedAt: Id, manifest: Manifest,
    profiles: seq<Profile>, deltas: seq<Delta>, recurrenceRefs: seq<Ref>,
    statuses: seq<Terminal>, visibilityRefs: seq<Ref>, performanceRefs: seq<Ref>)

  /** The fingerprint is injective: it stands for the body it was taken over. */
  datatype Projection = Projection(body: Body, fingerprint: Body)

  // ---- checked sources ----------------------------------------------------

  /** `verify_checked_receipt`. */
  predicate Green(r: Receipt) {
    r.sealed && r.gatePassed
  }

  function RefFor(s: Source): Ref {
    Ref(ReceiptAt(s.path), s.path, s.receipt, s.commit)
  }

  predicate Normal(sources: seq<Source>) {
    forall i | 0 <= i < |sources| :: sources[i].path.bounded && Green(sources[i].receipt)
  }

  function CheckedOf(sources: seq<Source>): seq<Checked> {
    seq(|sources|, i requires 0 <= i < |sources| => Checked(sources[i].receipt, RefFor(sources[i])))
  }

  /** `_normalize_receipt_sources`. */
  function Normalize(sources: seq<Source>): Option<seq<Checked>> {
    if Normal(sources) then Some(CheckedOf(sources)) else None
  }

  /** `_load_receipt_sources_at_git_commit` finds every referenced receipt. */
  predicate Loadable(refs: seq<Ref>, git: Git) {
    forall i | 0 <= i < |refs| ::
      refs[i].locator.bounded && refs[i].sourceId == ReceiptAt(refs[i].locator) && (refs[i].commit, refs[i].locator) in git
  }

  function Loaded(refs: seq<Ref>, git: Git): seq<Source>
    requires Loadable(refs, git)
  {
    seq(|refs|, i requires 0 <= i < |refs| => Source(refs[i].locator, refs[i].commit, git[(refs[i].commit, refs[i].locator)]))
  }

  function LoadChecked(refs: seq<Ref>, git: Git): Option<seq<Checked>> {
    if Loadable(refs, git) then Normalize(Loaded(refs, git)) else None
  }

  function RefsOf(sources: seq<Checked>): seq<Ref> {
    seq(|sources|, i requires 0 <= i < |sources| => sources[i].ref)
  }

  function IdsOf(refs: seq<Ref>): seq<SourceId> {
    seq(|refs|, i requires 0 <= i < |refs| => refs[i].sourceId)
  }

  /** `_bind_receipt_sources_to_git`: the claimed sources, if Git has exactly them.
      Both dictionaries are keyed by source id and listed in the same order. */
  function Bind(sources: seq<Source>, git: Git): Option<seq<Checked>> {
    if Normalize(sources).None? then None
    else
      var claimed := Normalize(sources).value;
      var exact := LoadChecked(RefsOf(claimed), git);
      if exact.None? || !DistinctItems(IdsOf(RefsOf(claimed))) || claimed != exact.value then None else exact
  }

  // ---- summaries ----------------------------------------------------------

  predicate ValidTerminals(s: seq<Terminal>) {
    DistinctItems(s) && Unlisted !in s
  }

  /** `_receipt_profile_summary`. */
  function Summarize(r: Receipt): Option<Summary> {
    if r.cases < 0 || r.knownBad < 0 || r.controls < 0 || r.terminals == [] || !ValidTerminals(r.terminals)
       || r.profile.None? || r.families.None? then None
    else Some(Summary(r.profile.value, r.gatePassed, r.families.value, r.cases, r.knownBad, r.controls, r.terminals))
  }

  function ProfileOf(s: Checked, observedAt: Id): Profile
    requires Summarize(s.receipt).Some?
  {
    var summary := Summarize(s.receipt).value;
    Profile(summary, true, summary.profileId, observedAt, s.ref)
  }

  function DeltaOf(p: Profile): Delta {
    Delta(p.summary.profileId, true, p.summary.profileId, p.observedAt, p.ref)
  }

  // ---- sorting ------------------------------------------------------------

  function Rank(p: ProfileId): nat {
    match p
    case QA0 => 0
    case QA1_GROUNDING => 1
    case QA1_TOOL_AGENT => 2
    case QA2_SAFETY_ROBUSTNESS => 3
    case QA3_A_PROJECTION_INTEGRITY => 4
  }

  /** The sort is stable: equal keys keep their order. */
  function InsertProfile(p: Profile, sorted: seq<Profile>): seq<Profile> {
    if sorted == [] || Rank(p.summary.profileId) < Rank(sorted[0].summary.profileId) then [p] + sorted
    else [sorted[0]] + InsertProfile(p, sorted[1..])
  }

  function SortProfiles(s: seq<Profile>): seq<Profile> {
    if s == [] then [] else InsertProfile(s[|s| - 1], SortProfiles(s[..|s| - 1]))
  }

  const STATUS_ORDER: seq<Terminal> := [BLOCKED, ERROR, FAIL, NOT_EVALUABLE, PASS, UNKNOWN]

  predicate Shows(profiles: seq<Profile>, t: Terminal) {
    exists i :: 0 <= i < |profiles| && t in profiles[i].summary.terminals
  }

  function Keep(order: seq<Terminal>, profiles: seq<Profile>): seq<Terminal> {
    if order == [] then []
    else (if Shows(profiles, order[0]) then [order[0]] else []) + Keep(order[1..], profiles)
  }

  /** The terminal statuses of all profiles, each once, in order. */
  function Statuses(profiles: seq<Profile>): seq<Terminal> {
    Keep(STATUS_ORDER, profiles)
  }

  function NotLater(a: SourceId, b: SourceId): bool {
    match (a, b)
    case (ReceiptAt(p), ReceiptAt(q)) => p.id <= q.id
    case (ReceiptAt(_), RunOf(_)) => true
    case (RunOf(_), ReceiptAt(_)) => false
    case (RunOf(m), RunOf(n)) => m <= n
  }

  function InsertId(x: SourceId, sorted: seq<SourceId>): seq<SourceId> {
    if sorted == [] || !NotLater(sorted[0], x) then [x] + sorted else [sorted[0]] + InsertId(x, sorted[1..])
  }

  function SortIds(s: seq<SourceId>): seq<SourceId> {
    if s == [] then [] else InsertId(s[|s| - 1], SortIds(s[..|s| - 1]))
  }

  // ---- what the builder makes ---------------------------------------------

  predicate OneCommit(sources: seq<Source>) {
    forall i | 0 <= i < |sources| :: sources[i].commit == sources[0].commit
  }

  /** Everything the builder demands of its inputs. */
  predicate Buildable(sources: seq<Source>, declared: seq<SourceId>, git: Git) {
    declared != [] && DistinctItems(declared)
    && Normal(sources) && DistinctItems(IdsOf(RefsOf(CheckedOf(sources))))
    && SetOf(IdsOf(RefsOf(CheckedOf(sources)))) == SetOf(declared)
    && OneCommit(sources) && Bind(sources, git).Some?
    && forall i | 0 <= i < |sources| :: Summarize(sources[i].receipt).Some?
  }

  function ProfilesOf(sources: seq<Checked>, observedAt: Id): seq<Profile>
    requires forall i | 0 <= i < |sources| :: Summarize(sources[i].receipt).Some?
  {
    seq(|sources|, i requires 0 <= i < |sources| => ProfileOf(sources[i], observedAt))
  }

  function ProfileRefs(profiles: seq<Profile>): seq<Ref> {
    seq(|profiles|, i requires 0 <= i < |profiles| => profiles[i].ref)
  }

  function DeltasOf(profiles: seq<Profile>): seq<Delta> {
    seq(|profiles|, i requires 0 <= i < |profiles| => DeltaOf(profiles[i]))
  }

  function BodyOf(sources: seq<Source>, declared: seq<SourceId>, observedAt: Id, snapshotId: Id): Body
    requires |sources| > 0 && forall i | 0 <= i < |sources| :: Summarize(sources[i].receipt).Some?
  {
    var checked := CheckedOf(sources);
    var observed := IdsOf(RefsOf(checked));
    var profiles := SortProfiles(ProfilesOf(checked, observedAt));
    var refs := ProfileRefs(profiles);
    Body(true, snapshotId, sources[0].commit, observedAt,
         Manifest(SortIds(declared), SortIds(observed), [], |declared|, |observed|, 0, refs),
         profiles, DeltasOf(profiles), refs, Statuses(profiles), refs, refs)
  }

  /** `build_dashboard_projection`. */
  method BuildDashboardProjection(sources: seq<Source>, declared: seq<SourceId>, observedAt: Id, snapshotId: Id, git: Option<Git>)
    returns (r: Option<Projection>)
    ensures r.Some? <==> git.Some? && Buildable(sources, declared, git.value)
    ensures r.Some? ==> |sources| > 0
    ensures r.Some? ==> r.value.body == BodyOf(sources, declared, observedAt, snapshotId) && r.value.fingerprint == r.value.body
  {
    if declared == [] || !DistinctItems(declared) { return None; }
    var claimed := Normalize(sources);
    if claimed.None? { return None; }
    var observed := IdsOf(RefsOf(claimed.value));
    if !DistinctItems(observed) || SetOf(observed) != SetOf(declared) { return None; }
    assert declared[0] in SetOf(observed);
    assert |sources| > 0;
    if !OneCommit(sources) || git.None? { return None; }
    var normalized := Bind(sources, git.value);
    if normalized.None? { return None; }

    var checked := normalized.value;
    var profiles: seq<Profile> := [];
    for i := 0 to |checked|
      invariant forall j | 0 <= j < i :: Summarize(sources[j].receipt).Some?
      invariant |profiles| == i && forall j | 0 <= j < i :: profiles[j] == ProfileOf(checked[j], observedAt)
    {
      if Summarize(checked[i].receipt).None? {
        assert Summarize(sources[i].receipt).None?;
        return None;
      }
      profiles := profiles + [ProfileOf(checked[i], observedAt)];
    }
    assert profiles == ProfilesOf(checked, observedAt);
    profiles := SortProfiles(profiles);
    var refs := ProfileRefs(profiles);

    var deltas: seq<Delta> := [];
    for i := 0 to |profiles|
      invariant |deltas| == i && forall j | 0 <= j < i :: deltas[j] == DeltaOf(profiles[j])
    {
      deltas := deltas + [DeltaOf(profiles[i])];
    }
    assert deltas == DeltasOf(profiles);

    var body := Body(true, snapshotId, sources[0].commit, observedAt,
                     Manifest(SortIds(declared), SortIds(observed), [], |declared|, |observed|, 0, refs),
                     profiles, deltas, refs, Statuses(profiles), refs, refs);
    return Some(Projection(body, body));
  }

  // ---- what the verifier accepts ------------------------------------------

  predicate ManifestOk(b: Body) {
    var m := b.manifest;
    m.declared != [] && m.included != [] && DistinctItems(m.declared) && DistinctItems(m.included)
    && SetOf(m.declared) == SetOf(m.included) && m.excluded == []
    && m.sourceCount == |m.declared| && m.includedCount == |m.included| && m.excludedCount == 0
    && m.refs != [] && DistinctItems(IdsOf(m.refs)) && SetOf(IdsOf(m.refs)) == SetOf(m.included)
    && forall i | 0 <= i < |m.refs| :: m.refs[i].commit == b.commit
  }

  function Canonical(b: Body, sources: Option<seq<Source>>, git: Git): Option<seq<Checked>> {
    if sources.None? then LoadChecked(b.manifest.refs, git) else Bind(sources.value, git)
  }

  function Find(canonical: seq<Checked>, id: SourceId): Option<Checked> {
    if canonical == [] then None
    else if canonical[0].ref.sourceId == id then Some(canonical[0]) else Find(canonical[1..], id)
  }

  predicate CanonicalOk(b: Body, canonical: seq<Checked>) {
    DistinctItems(IdsOf(RefsOf(canonical))) && SetOf(IdsOf(RefsOf(canonical))) == SetOf(b.manifest.included)
    && SetOf(RefsOf(canonical)) == SetOf(b.manifest.refs)
  }

  predicate ProfileOk(b: Body, canonical: seq<Checked>, p: Profile) {
    p.summary.gatePassed && p.fixed && p.scopeId == p.summary.profileId && p.observedAt == b.observedAt
    && p.summary.families >= 0 && p.summary.cases >= 0 && p.summary.knownBad >= 0 && p.summary.controls >= 0
    && ValidTerminals(p.summary.terminals)
    && p.ref.sourceId in b.manifest.included && p.ref.commit == b.commit
    && Find(canonical, p.ref.sourceId).Some? && p.ref == Find(canonical, p.ref.sourceId).value.ref
    && Summarize(Find(canonical, p.ref.sourceId).value.receipt) == Some(p.summary)
  }

  predicate DistinctProfiles(profiles: seq<Profile>) {
    forall i, j | 0 <= i < j < |profiles| :: profiles[i].summary.profileId != profiles[j].summary.profileId
  }

  predicate DistinctDeltas(deltas: seq<Delta>) {
    forall i, j | 0 <= i < j < |deltas| :: deltas[i].profileId != deltas[j].profileId
  }

  function FindProfile(profiles: seq<Profile>, id: ProfileId): Option<Profile> {
    if profiles == [] then None
    else if profiles[0].summary.profileId == id then Some(profiles[0]) else FindProfile(profiles[1..], id)
  }

  predicate DeltaOk(b: Body, d: Delta) {
    var p := FindProfile(b.profiles, d.profileId);
    p.Some? && d.fixed && d.scopeId == d.profileId && d.observedAt == b.observedAt && d.ref == p.value.ref
  }

  predicate Accepts(p: Projection, sources: Option<seq<Source>>, git: Git) {
    var b := p.body;
    b.fixed && p.fingerprint == b && ManifestOk(b)
    && Canonical(b, sources, git).Some? && CanonicalOk(b, Canonical(b, sources, git).value)
    && b.profiles != [] && (forall i | 0 <= i < |b.profiles| :: ProfileOk(b, Canonical(b, sources, git).value, b.profiles[i]))
    && DistinctProfiles(b.profiles) && SetOf(IdsOf(ProfileRefs(b.profiles))) == SetOf(b.manifest.included)
    && |b.deltas| == |b.profiles| && (forall i | 0 <= i < |b.deltas| :: DeltaOk(b, b.deltas[i])) && DistinctDeltas(b.deltas)
    && b.recurrenceRefs == ProfileRefs(b.profiles) && b.statuses == Statuses(b.profiles)
    && b.visibilityRefs == ProfileRefs(b.profiles) && b.performanceRefs == ProfileRefs(b.profiles)
  }

  /** `verify_dashboard_projection`, which returns the projection it accepts. */
  method VerifyDashboardProjection(p: Projection, sources: Option<seq<Source>>, git: Git) returns (r: Option<Projection>)
    ensures r == if Accepts(p, sources, git) then Some(p) else None
  {
    var b := p.body;
    if !b.fixed || p.fingerprint != b || !ManifestOk(b) { return None; }
    var canonical := Canonical(b, sources, git);
    if canonical.None? || !CanonicalOk(b, canonical.value) || b.profiles == [] { return None; }
    for i := 0 to |b.profiles|
      invariant forall j | 0 <= j < i :: ProfileOk(b, canonical.value, b.profiles[j])
    {
      if !ProfileOk(b, canonical.value, b.profiles[i]) { return None; }
    }
    var refs := ProfileRefs(b.profiles);
    if !DistinctProfiles(b.profiles) || SetOf(IdsOf(refs)) != SetOf(b.manifest.included) || |b.deltas| != |b.profiles| {
      return None;
    }
    for i := 0 to |b.deltas|
      invariant forall j | 0 <= j < i :: DeltaOk(b, b.deltas[j])
    {
      if !DeltaOk(b, b.deltas[i]) { return None; }
    }
    if !DistinctDeltas(b.deltas) || b.recurrenceRefs != refs || b.statuses != Statuses(b.profiles)
       || b.visibilityRefs != refs || b.performanceRefs != refs {
      return None;
    }
    return Some(p);
  }
}
