/** What each event of a handoff presupposes, and what follows for whole histories. */
module HandoffHistory {
  import opened HandoffBinding
  import opened HandoffWorld

  // ---- presuppositions ----------------------------------------------------

  ghost predicate PreparedFor(log: Log, b: Binding, k: Id) {
    exists o :: Prepared(o, b, k) in log
  }

  ghost predicate AcceptedIn(log: Log, d: Id, b: Binding) {
    exists k :: Accepted(d, b, k) in log
  }

  ghost predicate RunnerDir(log: Log, d: Id) {
    exists b, k :: Accepted(d, b, k) in log
  }

  ghost predicate ClaimedChallenge(log: Log, d: Id) {
    exists c :: ChallengeClaimed(d, c) in log
  }

  ghost predicate DecryptedFor(log: Log, b: Binding, c: Id, k: Id) {
    exists o :: Decrypted(o, b, c, k) in log
  }

  ghost predicate AckedFor(log: Log, d: Id, b: Binding) {
    exists c, k :: AckClaimed(d, b, c, k) in log
  }

  ghost predicate Acked(log: Log, d: Id) {
    exists b :: AckedFor(log, d, b)
  }

  ghost predicate StartedIn(log: Log, d: Id) {
    exists bundle :: ResultClaimed(d, bundle) in log
  }

  ghost predicate KeptIn(log: Log, o: Id) {
    exists bundle :: ResultKept(o, bundle) in log
  }

  ghost predicate SealedFor(log: Log, bundle: Bundle) {
    exists d :: ResultSealed(d, bundle) in log
  }

  /** `dir` was made for binding `b` by this orchestrator. */
  ghost predicate PreparedIn(log: Log, o: Id, b: Binding) {
    exists k :: Prepared(o, b, k) in log
  }

  ghost predicate MadeForBinding(log: Log, b: Binding, c: Id) {
    exists d :: AcceptedIn(log, d, b) && ChallengeMade(d, c) in log
  }

  // Nothing of this kind happened yet.

  ghost predicate DirUnused(log: Log, d: Id) {
    (forall b, k :: Prepared(d, b, k) !in log) && (forall b, k :: Accepted(d, b, k) !in log)
  }

  ghost predicate KeyUnused(log: Log, key: Id) {
    forall e | e in log && e.KeyMade? :: e.binding.returnKey != key
  }

  ghost predicate ChallengeUnused(log: Log, c: Id) {
    forall e | e in log && e.ChallengeMade? :: e.challenge != c
  }

  /** The history before an event that the event presupposes. */
  ghost predicate Justified(log: Log, e: Event) {
    match e
    case KeyMade(_, b, _) => KeyUnused(log, b.returnKey)
    case Prepared(o, b, k) => KeyMade(o, b, k) in log && DirUnused(log, o)
    case Accepted(d, b, k) => PreparedFor(log, b, k) && DirUnused(log, d)
    case ChallengeMade(d, c) => RunnerDir(log, d) && ChallengeUnused(log, c)
    case ChallengeClaimed(d, c) => ChallengeMade(d, c) in log
    case Decrypted(o, b, c, k) => Prepared(o, b, k) in log && MadeForBinding(log, b, c)
    case AckClaimed(d, b, c, k) =>
      Accepted(d, b, k) in log && ChallengeMade(d, c) in log && ClaimedChallenge(log, d) && DecryptedFor(log, b, c, k)
    case GateOpened(d) => Acked(log, d) && GateOpened(d) !in log
    case ResultClaimed(d, bundle) => AckedFor(log, d, bundle.binding)
    case ResultSealed(d, bundle) => ResultClaimed(d, bundle) in log
    case ResultKept(o, bundle) => PreparedIn(log, o, bundle.binding) && SealedFor(log, bundle)
  }

  /** Every event of the history is justified by the events before it. */
  ghost predicate AllJustified(log: Log) {
    forall i | 0 <= i < |log| :: Justified(log[..i], log[i])
  }

  lemma Extend(log: Log, e: Event)
    requires AllJustified(log) && Justified(log, e)
    ensures AllJustified(log + [e])
  {
    hide Justified;
    var longer := log + [e];
    forall i | 0 <= i < |longer| ensures Justified(longer[..i], longer[i]) {
      if i < |log| { assert longer[..i] == log[..i]; } else { assert longer[..i] == log; }
    }
  }

  // ---- what follows -------------------------------------------------------

  lemma Occurs(log: Log, n: nat, e: Event) returns (i: nat)
    requires AllJustified(log) && n <= |log| && e in log[..n]
    ensures i < n && log[i] == e && Justified(log[..i], e)
    ensures log[..i] <= log[..n]
  {
    hide Justified;
    i :| 0 <= i < n && log[..n][i] == e;
    assert Justified(log[..i], log[i]);
  }

  lemma JustifiedAt(log: Log, e: Event) returns (i: nat)
    requires AllJustified(log) && e in log
    ensures i < |log| && log[i] == e && Justified(log[..i], e)
  {
    hide Justified, AllJustified;
    assert log[..|log|] == log;
    i := Occurs(log, |log|, e);
  }

  lemma PreparationHasKey(log: Log, o: Id, b: Binding, k: Id) returns (m: nat)
    requires AllJustified(log) && Prepared(o, b, k) in log
    ensures m < |log| && log[m] == KeyMade(o, b, k) && KeyUnused(log[..m], b.returnKey)
  {
    hide AllJustified, KeyUnused, DirUnused;
    var p := JustifiedAt(log, Prepared(o, b, k));
    m := Occurs(log, p, KeyMade(o, b, k));
  }

  // What happened once is not unused, or absent, later on.

  lemma KeyIsUsed(log: Log, m: nat, n: nat)
    requires m < n <= |log| && log[m].KeyMade?
    ensures !KeyUnused(log[..n], log[m].binding.returnKey)
  {
    assert log[m] in log[..n];
  }

  lemma ChallengeIsUsed(log: Log, m: nat, n: nat)
    requires m < n <= |log| && log[m].ChallengeMade?
    ensures !ChallengeUnused(log[..n], log[m].challenge)
  {
    assert log[m] in log[..n];
  }

  lemma DirIsUsed(log: Log, m: nat, n: nat)
    requires m < n <= |log| && log[m].Accepted?
    ensures !DirUnused(log[..n], log[m].dir)
  {
    assert log[m] in log[..n];
    assert Accepted(log[m].dir, log[m].binding, log[m].ackKey) in log[..n];
  }

  lemma Happened(log: Log, m: nat, n: nat)
    requires m < n <= |log|
    ensures log[m] in log[..n]
  {
    assert log[..n][m] == log[m];
  }

  /** A return key belongs to one preparation. */
  lemma OneKeyOnePreparation(log: Log, o: Id, b: Binding, k: Id, o': Id, b': Binding, k': Id)
    requires AllJustified(log) && Prepared(o, b, k) in log && Prepared(o', b', k') in log
    requires b.returnKey == b'.returnKey
    ensures o == o' && b == b' && k == k'
  {
    hide AllJustified, Justified, KeyUnused;
    var m := PreparationHasKey(log, o, b, k);
    var m' := PreparationHasKey(log, o', b', k');
    if m < m' { KeyIsUsed(log, m, m'); }
    if m' < m { KeyIsUsed(log, m', m); }
  }

  /** A challenge belongs to one runner directory. */
  lemma OneChallengeOneRunner(log: Log, d: Id, d': Id, c: Id)
    requires AllJustified(log) && ChallengeMade(d, c) in log && ChallengeMade(d', c) in log
    ensures d == d'
  {
    hide AllJustified, RunnerDir, ChallengeUnused;
    var m := JustifiedAt(log, ChallengeMade(d, c));
    var m' := JustifiedAt(log, ChallengeMade(d', c));
    if m < m' { ChallengeIsUsed(log, m, m'); }
    if m' < m { ChallengeIsUsed(log, m', m); }
  }

  /** A runner directory accepts one input. */
  lemma OneInputPerRunner(log: Log, d: Id, b: Binding, k: Id, b': Binding, k': Id)
    requires AllJustified(log) && Accepted(d, b, k) in log && Accepted(d, b', k') in log
    ensures b == b' && k == k'
  {
    hide AllJustified, PreparedFor, DirUnused;
    var m := JustifiedAt(log, Accepted(d, b, k));
    var m' := JustifiedAt(log, Accepted(d, b', k'));
    if m < m' { DirIsUsed(log, m, m'); }
    if m' < m { DirIsUsed(log, m', m); }
  }

  /** A state directory opens the gate at most once. */
  lemma GateOpensOnce(log: Log, d: Id, i: nat, j: nat)
    requires AllJustified(log) && i < |log| && j < |log|
    requires log[i] == GateOpened(d) && log[j] == GateOpened(d)
    ensures i == j
  {
    assert Justified(log[..i], log[i]) && Justified(log[..j], log[j]);
    hide AllJustified, Acked;
    if i < j { Happened(log, i, j); }
    if j < i { Happened(log, j, i); }
  }

  /** The events behind an open gate: `o` prepared the binding under ack key `k`,
      runner `d` accepted exactly that input, made challenge `c` and published it;
      then `o` decrypted `c`. */
  ghost predicate PossessionProven(log: Log, o: Id, d: Id, b: Binding, c: Id, k: Id) {
    Prepared(o, b, k) in log && Accepted(d, b, k) in log && ChallengeMade(d, c) in log
    && Decrypted(o, b, c, k) in log && ClaimedChallenge(log, d)
  }

  /** No one else prepared this binding, no other runner made this challenge. */
  ghost predicate Exclusive(log: Log, o: Id, d: Id, b: Binding, c: Id, k: Id) {
    (forall o', k' | Prepared(o', b, k') in log :: o' == o && k' == k)
    && (forall d' | ChallengeMade(d', c) in log :: d' == d)
  }

  lemma StaysKnown(log: Log, m: nat, n: nat, e: Event)
    requires m <= n <= |log| && e in log[..m]
    ensures e in log[..n] && e in log
  {
    var i :| 0 <= i < m && log[..m][i] == e;
    assert log[..n][i] == e && log[i] == e;
  }

  lemma PreparationAndChallengeAreExclusive(log: Log, o: Id, d: Id, b: Binding, c: Id, k: Id)
    requires AllJustified(log) && Prepared(o, b, k) in log && ChallengeMade(d, c) in log
    ensures Exclusive(log, o, d, b, c, k)
  {
    hide AllJustified;
    forall o', k' | Prepared(o', b, k') in log ensures o' == o && k' == k {
      OneKeyOnePreparation(log, o, b, k, o', b, k');
    }
    forall d' | ChallengeMade(d', c) in log ensures d' == d {
      OneChallengeOneRunner(log, d, d', c);
    }
  }

  lemma OpenGateProvesPossession(log: Log, i: nat, d: Id, b: Binding, c: Id, k: Id) returns (o: Id)
    requires AllJustified(log) && i < |log| && log[i] == AckClaimed(d, b, c, k)
    ensures PossessionProven(log[..i], o, d, b, c, k) && Exclusive(log, o, d, b, c, k)
  {
    assert Justified(log[..i], log[i]);
    hide AllJustified, ClaimedChallenge, MadeForBinding, Exclusive;
    o :| Decrypted(o, b, c, k) in log[..i];
    var m := Occurs(log, i, Decrypted(o, b, c, k));
    StaysKnown(log, m, i, Prepared(o, b, k));
    StaysKnown(log, i, i, ChallengeMade(d, c));
    PreparationAndChallengeAreExclusive(log, o, d, b, c, k);
  }

  /** The chain of events behind a kept result, each before the next. */
  ghost predicate Traced(log: Log, o: Id, bundle: Bundle, d: Id, c: Id, k: Id, acked: nat, claimed: nat, sealed: nat, kept: nat) {
    acked < claimed < sealed < kept < |log|
    && log[kept] == ResultKept(o, bundle) && log[sealed] == ResultSealed(d, bundle)
    && log[claimed] == ResultClaimed(d, bundle) && log[acked] == AckClaimed(d, bundle.binding, c, k)
  }

  lemma KeptResultWasSealed(log: Log, o: Id, bundle: Bundle)
    returns (d: Id, c: Id, k: Id, acked: nat, claimed: nat, sealed: nat, kept: nat)
    requires AllJustified(log) && ResultKept(o, bundle) in log
    ensures Traced(log, o, bundle, d, c, k, acked, claimed, sealed, kept)
    ensures exists k' :: Prepared(o, bundle.binding, k') in log
  {
    hide AllJustified;
    kept := JustifiedAt(log, ResultKept(o, bundle));
    d :| ResultSealed(d, bundle) in log[..kept];
    sealed := Occurs(log, kept, ResultSealed(d, bundle));
    claimed := Occurs(log, sealed, ResultClaimed(d, bundle));
    c, k :| AckClaimed(d, bundle.binding, c, k) in log[..claimed];
    acked := Occurs(log, claimed, AckClaimed(d, bundle.binding, c, k));
  }

  /** A kept result is a bundle that some runner directory sealed for the same
      binding, after its gate opened on a challenge of its own that this very
      orchestrator directory had decrypted. */
  lemma KeptResultIsTraceable(log: Log, o: Id, bundle: Bundle)
    returns (d: Id, c: Id, k: Id, acked: nat, claimed: nat, sealed: nat, kept: nat)
    requires AllJustified(log) && ResultKept(o, bundle) in log
    ensures Traced(log, o, bundle, d, c, k, acked, claimed, sealed, kept)
    ensures PossessionProven(log[..acked], o, d, bundle.binding, c, k)
  {
    hide AllJustified, Justified, ClaimedChallenge;
    d, c, k, acked, claimed, sealed, kept := KeptResultWasSealed(log, o, bundle);
    var o' := OpenGateProvesPossession(log, acked, d, bundle.binding, c, k);
    var k' :| Prepared(o, bundle.binding, k') in log;
  }

  /** Markers become readable in protocol order: no result is started in a directory
      before its acknowledgement, none acknowledged before its challenge is
      published, none published before the input is accepted. */
  lemma MarkersAppearInOrder(log: Log, d: Id, bundle: Bundle, started: nat)
    returns (acked: nat, published: nat, accepted: nat)
    requires AllJustified(log) && started < |log| && log[started] == ResultClaimed(d, bundle)
    ensures accepted < published < acked < started
    ensures log[acked].AckClaimed? && log[acked].dir == d && log[acked].binding == bundle.binding
    ensures log[published].ChallengeClaimed? && log[published].dir == d
    ensures log[accepted].Accepted? && log[accepted].dir == d && log[accepted].binding == bundle.binding
  {
    assert Justified(log[..started], log[started]);
    hide AllJustified, DecryptedFor;
    var c, k :| AckClaimed(d, bundle.binding, c, k) in log[..started];
    acked := Occurs(log, started, AckClaimed(d, bundle.binding, c, k));
    var c' :| ChallengeClaimed(d, c') in log[..acked];
    published := Occurs(log, acked, ChallengeClaimed(d, c'));
    accepted := ChallengeNeedsInput(log, published, d, c');
    OneInputPerRunner(log, d, bundle.binding, k, log[accepted].binding, log[accepted].ackKey);
  }

  lemma ChallengeNeedsInput(log: Log, n: nat, d: Id, c: Id) returns (accepted: nat)
    requires AllJustified(log) && n <= |log| && ChallengeMade(d, c) in log[..n]
    ensures accepted < n && log[accepted].Accepted? && log[accepted].dir == d
  {
    hide AllJustified, ChallengeUnused;
    var made := Occurs(log, n, ChallengeMade(d, c));
    var b, k :| Accepted(d, b, k) in log[..made];
    accepted := Occurs(log, made, Accepted(d, b, k));
  }
}
