/** Builder and verifier of b2/qa3.py agree: an accepted projection is the one Git
    determines, and a built one is accepted exactly when its profiles are distinct. */
module Qa3Agreement {
  import opened Sequences
  import opened Wrappers
  import opened Qa3Projection

  // ---- canonical sources come from Git ------------------------------------

  /** `c` is the receipt Git holds at the path and commit its reference names. */
  predicate FromGit(c: Checked, git: Git) {
    c.ref.sourceId == ReceiptAt(c.ref.locator) && c.ref.locator.bounded && (c.ref.commit, c.ref.locator) in git
    && c.receipt == git[(c.ref.commit, c.ref.locator)] && c.ref.fingerprint == c.receipt && Green(c.receipt)
  }

  lemma LoadedFromGit(refs: seq<Ref>, git: Git)
    requires LoadChecked(refs, git).Some?
    ensures forall c | c in LoadChecked(refs, git).value :: FromGit(c, git)
  {
  }

  lemma CanonicalFromGit(b: Body, sources: Option<seq<Source>>, git: Git)
    requires Canonical(b, sources, git).Some?
    ensures forall c | c in Canonical(b, sources, git).value :: FromGit(c, git)
  {
    hide FromGit, LoadChecked, Normalize;
    if sources.None? {
      LoadedFromGit(b.manifest.refs, git);
    } else {
      LoadedFromGit(RefsOf(Normalize(sources.value).value), git);
    }
  }

  lemma {:induction false} FindFinds(canonical: seq<Checked>, id: SourceId)
    ensures match Find(canonical, id)
            case Some(c) => c in canonical && c.ref.sourceId == id
            case None => forall i | 0 <= i < |canonical| :: canonical[i].ref.sourceId != id
  {
    if canonical != [] && canonical[0].ref.sourceId != id {
      FindFinds(canonical[1..], id);
      if Find(canonical, id).None? {
        forall i | 0 <= i < |canonical| ensures canonical[i].ref.sourceId != id {
          if i > 0 { assert canonical[i] == canonical[1..][i - 1]; }
        }
      }
    }
  }

  // ---- accepted projections -----------------------------------------------

  /** The summary says of the receipt what the receipt says of itself. */
  predicate Tells(s: Summary, r: Receipt) {
    Some(s.profileId) == r.profile && s.gatePassed && r.gatePassed && s.cases == r.cases && s.knownBad == r.knownBad
    && s.controls == r.controls && s.terminals == r.terminals && r.families.Some? && s.families == r.families.value
  }

  /** Every field of the profile is recomputed from the receipt in Git. */
  predicate Recomputed(p: Profile, b: Body, git: Git) {
    p.ref.sourceId.ReceiptAt? && (b.commit, p.ref.sourceId.path) in git
    && var receipt := git[(b.commit, p.ref.sourceId.path)];
       Green(receipt) && Summarize(receipt).Some? && Tells(p.summary, receipt)
       && p == ProfileOf(Checked(receipt, RefFor(Source(p.ref.sourceId.path, b.commit, receipt))), b.observedAt)
  }

  lemma ProfileIsRecomputed(b: Body, canonical: seq<Checked>, git: Git, p: Profile)
    requires ProfileOk(b, canonical, p) && forall c | c in canonical :: FromGit(c, git)
    ensures Recomputed(p, b, git)
  {
    FindFinds(canonical, p.ref.sourceId);
  }

  /** Profiles, one for each declared source and no other. */
  predicate OneToOne(profiles: seq<Profile>, declared: seq<SourceId>) {
    |profiles| == |declared| && DistinctItems(IdsOf(ProfileRefs(profiles))) && SetOf(IdsOf(ProfileRefs(profiles))) == SetOf(declared)
  }

  lemma AcceptedProfilesAreGits(p: Projection, sources: Option<seq<Source>>, git: Git)
    requires Accepts(p, sources, git)
    ensures forall i | 0 <= i < |p.body.profiles| :: Recomputed(p.body.profiles[i], p.body, git)
    ensures OneToOne(p.body.profiles, p.body.manifest.declared)
  {
    var b := p.body;
    CanonicalFromGit(b, sources, git);
    hide FromGit, ProfileOk, CanonicalOk, Canonical, Recomputed, DeltaOk, Statuses;
    forall i | 0 <= i < |b.profiles| ensures Recomputed(b.profiles[i], b, git) {
      ProfileIsRecomputed(b, Canonical(b, sources, git).value, git, b.profiles[i]);
    }
    SameSourceSameProfile(b, git);
    SameSetSameLength(IdsOf(ProfileRefs(b.profiles)), b.manifest.declared);
  }

  /** Not checked outright: two profiles of one source would share their profile id. */
  lemma SameSourceSameProfile(b: Body, git: Git)
    requires DistinctProfiles(b.profiles)
    requires forall i | 0 <= i < |b.profiles| :: Recomputed(b.profiles[i], b, git)
    ensures DistinctItems(IdsOf(ProfileRefs(b.profiles)))
  {
    var ids := IdsOf(ProfileRefs(b.profiles));
    forall i, j | 0 <= i < j < |ids| ensures ids[i] != ids[j] {
      assert Recomputed(b.profiles[i], b, git) && Recomputed(b.profiles[j], b, git);
    }
  }

  /** Snapshot, declared sources and Git determine the profiles, whoever drew them up. */
  lemma AcceptedProfilesAreDetermined(p: Projection, q: Projection, sources: Option<seq<Source>>, sources': Option<seq<Source>>, git: Git)
    requires Accepts(p, sources, git) && Accepts(q, sources', git)
    requires p.body.commit == q.body.commit && p.body.observedAt == q.body.observedAt
    requires SetOf(p.body.manifest.declared) == SetOf(q.body.manifest.declared)
    ensures SetOf(p.body.profiles) == SetOf(q.body.profiles)
  {
    AcceptedProfilesAreGits(p, sources, git);
    AcceptedProfilesAreGits(q, sources', git);
    hide Accepts;
    ProfilesWithin(p.body, q.body, git);
    ProfilesWithin(q.body, p.body, git);
  }

  lemma ProfilesWithin(b: Body, b': Body, git: Git)
    requires b.commit == b'.commit && b.observedAt == b'.observedAt
    requires forall i | 0 <= i < |b.profiles| :: Recomputed(b.profiles[i], b, git)
    requires forall i | 0 <= i < |b'.profiles| :: Recomputed(b'.profiles[i], b', git)
    requires SetOf(IdsOf(ProfileRefs(b.profiles))) <= SetOf(IdsOf(ProfileRefs(b'.profiles)))
    ensures SetOf(b.profiles) <= SetOf(b'.profiles)
  {
    forall i | 0 <= i < |b.profiles| ensures b.profiles[i] in b'.profiles {
      assert IdsOf(ProfileRefs(b.profiles))[i] in SetOf(IdsOf(ProfileRefs(b.profiles)));
      var j :| 0 <= j < |IdsOf(ProfileRefs(b'.profiles))| && IdsOf(ProfileRefs(b'.profiles))[j] == b.profiles[i].ref.sourceId;
      assert Recomputed(b.profiles[i], b, git) && Recomputed(b'.profiles[j], b', git);
      assert b'.profiles[j] == b.profiles[i];
    }
  }

  // ---- sorting permutes ---------------------------------------------------

  lemma {:induction false} InsertProfilePermutes(p: Profile, s: seq<Profile>)
    ensures multiset(InsertProfile(p, s)) == multiset(s) + multiset{p}
  {
    if !(s == [] || Rank(p.summary.profileId) < Rank(s[0].summary.profileId)) {
      InsertProfilePermutes(p, s[1..]);
      assert s == [s[0]] + s[1..];
    }
  }

  lemma {:induction false} SortProfilesPermutes(s: seq<Profile>)
    ensures multiset(SortProfiles(s)) == multiset(s)
  {
    if s != [] {
      SortProfilesPermutes(s[..|s| - 1]);
      InsertProfilePermutes(s[|s| - 1], SortProfiles(s[..|s| - 1]));
      assert s == s[..|s| - 1] + [s[|s| - 1]];
    }
  }

  predicate InOrder(s: seq<Profile>) {
    forall i, j | 0 <= i < j < |s| :: Rank(s[i].summary.profileId) <= Rank(s[j].summary.profileId)
  }

  lemma {:induction false} InsertKeepsOrder(p: Profile, s: seq<Profile>)
    requires InOrder(s)
    ensures InOrder(InsertProfile(p, s))
  {
    if !(s == [] || Rank(p.summary.profileId) < Rank(s[0].summary.profileId)) {
      InsertKeepsOrder(p, s[1..]);
      InsertProfilePermutes(p, s[1..]);
      forall q | q in InsertProfile(p, s[1..]) ensures Rank(s[0].summary.profileId) <= Rank(q.summary.profileId) {
        assert q in multiset(s[1..]) + multiset{p};
        assert q == p || q in s[1..];
      }
    }
  }

  /** Built profiles come in the order of their ids. */
  lemma {:induction false} BuiltProfilesAreInOrder(s: seq<Profile>)
    ensures InOrder(SortProfiles(s))
  {
    if s != [] {
      BuiltProfilesAreInOrder(s[..|s| - 1]);
      InsertKeepsOrder(s[|s| - 1], SortProfiles(s[..|s| - 1]));
    }
  }

  lemma {:induction false} KeepIsExact(order: seq<Terminal>, profiles: seq<Profile>)
    ensures forall t :: t in Keep(order, profiles) <==> t in order && Shows(profiles, t)
  {
    if order != [] {
      KeepIsExact(order[1..], profiles);
    }
  }

  /** The visible statuses are those of some profile, every one of them. */
  lemma StatusesAreExact(profiles: seq<Profile>)
    requires !Shows(profiles, Unlisted)
    ensures forall t :: t in Statuses(profiles) <==> Shows(profiles, t)
  {
    KeepIsExact(STATUS_ORDER, profiles);
    forall t | Shows(profiles, t) ensures t in STATUS_ORDER {
      assert t != Unlisted;
      assert STATUS_ORDER[0] == BLOCKED && STATUS_ORDER[1] == ERROR && STATUS_ORDER[2] == FAIL
             && STATUS_ORDER[3] == NOT_EVALUABLE && STATUS_ORDER[4] == PASS && STATUS_ORDER[5] == UNKNOWN;
    }
  }

  lemma {:induction false} InsertIdPermutes(x: SourceId, s: seq<SourceId>)
    ensures multiset(InsertId(x, s)) == multiset(s) + multiset{x}
  {
    if !(s == [] || !NotLater(s[0], x)) {
      InsertIdPermutes(x, s[1..]);
      assert s == [s[0]] + s[1..];
    }
  }

  lemma {:induction false} SortIdsPermutes(s: seq<SourceId>)
    ensures multiset(SortIds(s)) == multiset(s)
  {
    if s != [] {
      SortIdsPermutes(s[..|s| - 1]);
      InsertIdPermutes(s[|s| - 1], SortIds(s[..|s| - 1]));
      assert s == s[..|s| - 1] + [s[|s| - 1]];
    }
  }

  lemma SortedIds(s: seq<SourceId>)
    requires DistinctItems(s)
    ensures DistinctItems(SortIds(s)) && |SortIds(s)| == |s| && SetOf(SortIds(s)) == SetOf(s)
  {
    SortIdsPermutes(s);
    PermutationKeepsDistinct(s, SortIds(s));
  }

  /** Keys that tell the items of a listing apart tell them apart in any order. */
  lemma SortedProfiles(s: seq<Profile>)
    requires DistinctItems(IdsOf(ProfileRefs(s)))
    ensures var t := SortProfiles(s);
            |t| == |s| && (forall p :: p in t <==> p in s) && DistinctItems(IdsOf(ProfileRefs(t)))
            && (DistinctProfiles(t) <==> DistinctProfiles(s))
  {
    var t := SortProfiles(s);
    var ids := IdsOf(ProfileRefs(s));
    forall i, j | 0 <= i < j < |s| ensures s[i] != s[j] {
      assert ids[i] != ids[j];
    }
    SortProfilesPermutes(s);
    PermutationKeepsDistinct(s, t);
    hide SortProfiles, DistinctItems;
    SourceIdsSurvive(s, t);
    if DistinctProfiles(s) { ProfileIdsSurvive(s, t); }
    if DistinctProfiles(t) { ProfileIdsSurvive(t, s); }
  }

  lemma SourceIdsSurvive(s: seq<Profile>, t: seq<Profile>)
    requires DistinctItems(IdsOf(ProfileRefs(s))) && DistinctItems(t) && forall p :: p in t <==> p in s
    ensures DistinctItems(IdsOf(ProfileRefs(t)))
  {
    var ids, ids' := IdsOf(ProfileRefs(s)), IdsOf(ProfileRefs(t));
    forall i, j | 0 <= i < j < |ids'| ensures ids'[i] != ids'[j] {
      assert t[i] in s && t[j] in s && t[i] != t[j];
      var k :| 0 <= k < |s| && s[k] == t[i];
      var m :| 0 <= m < |s| && s[m] == t[j];
      assert ids[k] == ids'[i] && ids[m] == ids'[j] && k != m;
    }
  }

  lemma ProfileIdsSurvive(s: seq<Profile>, t: seq<Profile>)
    requires DistinctProfiles(s) && DistinctItems(t) && forall p :: p in t <==> p in s
    ensures DistinctProfiles(t)
  {
    forall i, j | 0 <= i < j < |t| ensures t[i].summary.profileId != t[j].summary.profileId {
      assert t[i] in s && t[j] in s && t[i] != t[j];
      var k :| 0 <= k < |s| && s[k] == t[i];
      var m :| 0 <= m < |s| && s[m] == t[j];
      assert k != m;
    }
  }

  // ---- built projections --------------------------------------------------

  /** No two receipts are of the same profile: a caller can check this beforehand. */
  predicate DistinctReceiptProfiles(sources: seq<Source>) {
    forall i, j | 0 <= i < j < |sources| :: sources[i].receipt.profile != sources[j].receipt.profile
  }

  /** The built profiles: a reordering of one profile per source. */
  lemma BuiltProfiles(sources: seq<Source>, declared: seq<SourceId>, observedAt: Id, git: Git)
    requires Buildable(sources, declared, git)
    ensures var checked := CheckedOf(sources);
            var profiles := SortProfiles(ProfilesOf(checked, observedAt));
            |profiles| == |sources| && DistinctItems(IdsOf(ProfileRefs(profiles)))
            && (forall p :: p in profiles <==> p in ProfilesOf(checked, observedAt))
            && (DistinctProfiles(profiles) <==> DistinctReceiptProfiles(sources))
  {
    var checked := CheckedOf(sources);
    var s := ProfilesOf(checked, observedAt);
    assert IdsOf(ProfileRefs(s)) == IdsOf(RefsOf(checked));
    SortedProfiles(s);
    hide SortProfiles;
    assert DistinctProfiles(s) <==> DistinctReceiptProfiles(sources) by {
      assert forall i | 0 <= i < |s| :: Some(s[i].summary.profileId) == sources[i].receipt.profile;
    }
  }

  /** `canonical` lists the sources built from, each once. */
  ghost predicate ListsSources(canonical: seq<Checked>, sources: seq<Source>) {
    DistinctItems(IdsOf(RefsOf(canonical))) && (forall c :: c in canonical <==> c in CheckedOf(sources))
  }

  lemma BoundSources(sources: seq<Source>, declared: seq<SourceId>, git: Git)
    requires Buildable(sources, declared, git)
    ensures Bind(sources, git) == Some(CheckedOf(sources)) && ListsSources(CheckedOf(sources), sources)
    ensures forall c | c in CheckedOf(sources) :: FromGit(c, git) && c.ref.commit == sources[0].commit && Summarize(c.receipt).Some?
  {
    var checked := CheckedOf(sources);
    LoadedFromGit(RefsOf(checked), git);
    hide FromGit, LoadChecked;
  }

  /** References to sources that Git holds load to exactly these sources. */
  lemma ReferencesLoad(refs: seq<Ref>, sources: seq<Source>, git: Git)
    requires forall c | c in CheckedOf(sources) :: FromGit(c, git)
    requires DistinctItems(IdsOf(refs))
    requires forall r :: r in refs <==> r in RefsOf(CheckedOf(sources))
    ensures LoadChecked(refs, git).Some? && ListsSources(LoadChecked(refs, git).value, sources)
    ensures RefsOf(LoadChecked(refs, git).value) == refs
  {
    var checked := CheckedOf(sources);
    forall i | 0 <= i < |refs|
      ensures refs[i].locator.bounded && FromGit(Checked(refs[i].fingerprint, refs[i]), git)
      ensures Checked(refs[i].fingerprint, refs[i]) in checked
    {
      assert refs[i] in RefsOf(checked);
      var k :| 0 <= k < |checked| && checked[k].ref == refs[i];
      assert FromGit(checked[k], git);
    }
    assert Loadable(refs, git);
    var loaded := LoadChecked(refs, git).value;
    assert forall i | 0 <= i < |refs| :: loaded[i] == Checked(refs[i].fingerprint, refs[i]);
    assert RefsOf(loaded) == refs;
    forall c | c in checked ensures c in loaded {
      var k :| 0 <= k < |checked| && checked[k] == c;
      assert RefsOf(checked)[k] == c.ref && FromGit(c, git);
      assert c.ref in refs by { assert c.ref in RefsOf(checked); }
      var i :| 0 <= i < |refs| && refs[i] == c.ref;
      assert loaded[i] == c;
    }
  }

  lemma BuiltManifestOk(sources: seq<Source>, declared: seq<SourceId>, observedAt: Id, snapshotId: Id, git: Git)
    requires Buildable(sources, declared, git) && |sources| > 0
    ensures ManifestOk(BodyOf(sources, declared, observedAt, snapshotId))
    ensures var b := BodyOf(sources, declared, observedAt, snapshotId);
            SetOf(IdsOf(b.manifest.refs)) == SetOf(b.manifest.included)
            && forall r :: r in b.manifest.refs <==> r in RefsOf(CheckedOf(sources))
  {
    var b := BodyOf(sources, declared, observedAt, snapshotId);
    var checked := CheckedOf(sources);
    var observed := IdsOf(RefsOf(checked));
    BuiltProfiles(sources, declared, observedAt, git);
    SortedIds(declared);
    SortedIds(observed);
    SameRefs(checked, b.profiles, observedAt);
    SameIds(b.manifest.refs, RefsOf(checked));
    hide SortProfiles, SortIds, Bind, Statuses;
    forall i | 0 <= i < |b.manifest.refs| ensures b.manifest.refs[i].commit == b.commit {
      assert b.manifest.refs[i] in RefsOf(checked);
    }
  }

  lemma SameRefs(checked: seq<Checked>, profiles: seq<Profile>, observedAt: Id)
    requires forall i | 0 <= i < |checked| :: Summarize(checked[i].receipt).Some?
    requires forall p :: p in profiles <==> p in ProfilesOf(checked, observedAt)
    ensures forall r :: r in ProfileRefs(profiles) <==> r in RefsOf(checked)
  {
    var s := ProfilesOf(checked, observedAt);
    forall r | r in ProfileRefs(profiles) ensures r in RefsOf(checked) {
      var i :| 0 <= i < |profiles| && profiles[i].ref == r;
      assert profiles[i] in s;
      var k :| 0 <= k < |s| && s[k] == profiles[i];
      assert RefsOf(checked)[k] == r;
    }
    forall r | r in RefsOf(checked) ensures r in ProfileRefs(profiles) {
      var k :| 0 <= k < |checked| && checked[k].ref == r;
      assert s[k] in profiles;
      var i :| 0 <= i < |profiles| && profiles[i] == s[k];
      assert ProfileRefs(profiles)[i] == r;
    }
  }

  lemma SameIds(refs: seq<Ref>, refs': seq<Ref>)
    requires forall r :: r in refs <==> r in refs'
    ensures SetOf(IdsOf(refs)) == SetOf(IdsOf(refs'))
  {
    forall x | x in SetOf(IdsOf(refs)) ensures x in SetOf(IdsOf(refs')) {
      var i :| 0 <= i < |refs| && refs[i].sourceId == x;
      assert refs[i] in refs';
      var j :| 0 <= j < |refs'| && refs'[j] == refs[i];
      assert IdsOf(refs')[j] == x;
    }
    forall x | x in SetOf(IdsOf(refs')) ensures x in SetOf(IdsOf(refs)) {
      var i :| 0 <= i < |refs'| && refs'[i].sourceId == x;
      assert refs'[i] in refs;
      var j :| 0 <= j < |refs| && refs[j] == refs'[i];
      assert IdsOf(refs)[j] == x;
    }
  }

  /** Looking a source up by id finds the one it was listed with. */
  lemma FindListed(canonical: seq<Checked>, c: Checked)
    requires DistinctItems(IdsOf(RefsOf(canonical))) && c in canonical
    ensures Find(canonical, c.ref.sourceId) == Some(c)
  {
    FindFinds(canonical, c.ref.sourceId);
    var i :| 0 <= i < |canonical| && canonical[i] == c;
    var d := Find(canonical, c.ref.sourceId).value;
    var j :| 0 <= j < |canonical| && canonical[j] == d;
    assert IdsOf(RefsOf(canonical))[i] == IdsOf(RefsOf(canonical))[j];
  }

  lemma BuiltProfileOk(b: Body, canonical: seq<Checked>, c: Checked, git: Git)
    requires DistinctItems(IdsOf(RefsOf(canonical))) && c in canonical && FromGit(c, git) && Summarize(c.receipt).Some?
    requires c.ref.commit == b.commit && c.ref.sourceId in b.manifest.included
    ensures ProfileOk(b, canonical, ProfileOf(c, b.observedAt))
  {
    FindListed(canonical, c);
  }

  lemma {:induction false} FindDistinctProfile(profiles: seq<Profile>, i: nat)
    requires DistinctProfiles(profiles) && i < |profiles|
    ensures FindProfile(profiles, profiles[i].summary.profileId) == Some(profiles[i])
  {
    if i > 0 {
      assert profiles[0].summary.profileId != profiles[i].summary.profileId;
      FindDistinctProfile(profiles[1..], i - 1);
    }
  }

  lemma BuiltDeltasOk(b: Body)
    requires DistinctProfiles(b.profiles) && b.deltas == DeltasOf(b.profiles)
    requires forall i | 0 <= i < |b.profiles| :: b.profiles[i].observedAt == b.observedAt
    ensures forall i | 0 <= i < |b.deltas| :: DeltaOk(b, b.deltas[i])
    ensures DistinctDeltas(b.deltas)
  {
    forall i | 0 <= i < |b.deltas| ensures DeltaOk(b, b.deltas[i]) {
      FindDistinctProfile(b.profiles, i);
    }
  }

  lemma BuiltProfilesOk(sources: seq<Source>, declared: seq<SourceId>, observedAt: Id, snapshotId: Id, git: Git,
                        canonical: seq<Checked>)
    requires Buildable(sources, declared, git) && |sources| > 0 && ListsSources(canonical, sources)
    ensures var b := BodyOf(sources, declared, observedAt, snapshotId);
            forall i | 0 <= i < |b.profiles| :: b.profiles[i].observedAt == b.observedAt && ProfileOk(b, canonical, b.profiles[i])
  {
    var b := BodyOf(sources, declared, observedAt, snapshotId);
    var checked := CheckedOf(sources);
    BuiltProfiles(sources, declared, observedAt, git);
    BuiltManifestOk(sources, declared, observedAt, snapshotId, git);
    BoundSources(sources, declared, git);
    hide SortProfiles, SortIds, Bind, LoadChecked, Statuses, Summarize, FromGit, Find, ManifestOk;
    forall i | 0 <= i < |b.profiles|
      ensures b.profiles[i].observedAt == b.observedAt && ProfileOk(b, canonical, b.profiles[i])
    {
      assert b.profiles[i] in ProfilesOf(checked, observedAt);
      var k :| 0 <= k < |checked| && b.profiles[i] == ProfileOf(checked[k], observedAt);
      assert IdsOf(RefsOf(checked))[k] in SetOf(b.manifest.included) by {
        assert RefsOf(checked)[k] in b.manifest.refs;
        var m :| 0 <= m < |b.manifest.refs| && b.manifest.refs[m] == RefsOf(checked)[k];
        assert IdsOf(b.manifest.refs)[m] in SetOf(IdsOf(b.manifest.refs));
      }
      BuiltProfileOk(b, canonical, checked[k], git);
    }
  }

  /** What the verifier recomputes for a built projection, given its canonical sources. */
  lemma BuiltIsAcceptedWith(sources: seq<Source>, declared: seq<SourceId>, observedAt: Id, snapshotId: Id, git: Git,
                            supplied: Option<seq<Source>>)
    requires Buildable(sources, declared, git) && |sources| > 0
    requires var b := BodyOf(sources, declared, observedAt, snapshotId);
             Canonical(b, supplied, git).Some? && ListsSources(Canonical(b, supplied, git).value, sources)
             && SetOf(RefsOf(Canonical(b, supplied, git).value)) == SetOf(b.manifest.refs)
    ensures var b := BodyOf(sources, declared, observedAt, snapshotId);
            Accepts(Projection(b, b), supplied, git) <==> DistinctReceiptProfiles(sources)
  {
    var b := BodyOf(sources, declared, observedAt, snapshotId);
    var canonical := Canonical(b, supplied, git).value;
    hide SortProfiles, SortIds, Bind, LoadChecked, Statuses, Summarize, ManifestOk, Canonical, Buildable, ProfileOk;
    BuiltProfiles(sources, declared, observedAt, git);
    BuiltManifestOk(sources, declared, observedAt, snapshotId, git);
    BuiltProfilesOk(sources, declared, observedAt, snapshotId, git, canonical);
    forall r ensures r in RefsOf(canonical) <==> r in b.manifest.refs {
      assert r in SetOf(RefsOf(canonical)) <==> r in SetOf(b.manifest.refs);
    }
    SameIds(RefsOf(canonical), b.manifest.refs);
    if DistinctReceiptProfiles(sources) {
      BuiltDeltasOk(b);
    }
  }

  /** A built projection is accepted, from Git alone and beside its own sources alike,
      exactly when no two of its receipts are of the same profile. */
  lemma BuiltIsAcceptedIff(sources: seq<Source>, declared: seq<SourceId>, observedAt: Id, snapshotId: Id, git: Git)
    requires Buildable(sources, declared, git) && |sources| > 0
    ensures var b := BodyOf(sources, declared, observedAt, snapshotId);
            (Accepts(Projection(b, b), None, git) <==> DistinctReceiptProfiles(sources))
            && (Accepts(Projection(b, b), Some(sources), git) <==> DistinctReceiptProfiles(sources))
  {
    var b := BodyOf(sources, declared, observedAt, snapshotId);
    BuiltManifestOk(sources, declared, observedAt, snapshotId, git);
    BoundSources(sources, declared, git);
    ReferencesLoad(b.manifest.refs, sources, git);
    assert SetOf(RefsOf(CheckedOf(sources))) == SetOf(b.manifest.refs);
    hide Buildable, BodyOf, Accepts, Bind, LoadChecked, ListsSources;
    BuiltIsAcceptedWith(sources, declared, observedAt, snapshotId, git, None);
    BuiltIsAcceptedWith(sources, declared, observedAt, snapshotId, git, Some(sources));
  }
}
