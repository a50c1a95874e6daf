/** `BM1Runner` of b2/bm1.py as an object over a claim store, and what every
    sequence of its calls keeps. */
module Bm1Runner {
  import opened Wrappers
  import opened Bm1Attempt

  // ---- claim store --------------------------------------------------------

  /** A claim file. `owner` is the runner whose exclusive create made it: it is
      history, the stored claim itself is the same for every runner. A file whose
      writer failed half way stays behind as a tombstone. */
  datatype ClaimFile = ClaimFile(owner: nat, complete: bool)
  type ClaimFiles = map<string, ClaimFile>

  datatype ClaimFault = NoFault | FailsBeforeCreate | FailsWhileWriting | FailsAfterWriting

  function Claimed(files: ClaimFiles, attemptId: string, owner: nat, fault: ClaimFault): (ClaimFiles, bool) {
    if attemptId in files then (files, false)
    else match fault
      case NoFault => (files[attemptId := ClaimFile(owner, true)], true)
      case FailsBeforeCreate => (files, false)
      case FailsWhileWriting => (files[attemptId := ClaimFile(owner, false)], false)
      case FailsAfterWriting => (files[attemptId := ClaimFile(owner, true)], false)
  }

  class ClaimStore {
    var files: ClaimFiles

    constructor ()
      ensures files == map[]
    {
      files := map[];
    }

    /** Exclusive create, write, flush, read back. */
    method Claim(attemptId: string, owner: nat, fault: ClaimFault) returns (ok: bool)
      modifies this
      ensures (files, ok) == Claimed(old(files), attemptId, owner, fault)
    {
      if attemptId in files || fault.FailsBeforeCreate? {
        return false;
      }
      files := files[attemptId := ClaimFile(owner, false)];
      if fault.FailsWhileWriting? {
        return false;
      }
      files := files[attemptId := ClaimFile(owner, true)];
      assert files == old(files)[attemptId := ClaimFile(owner, true)];
      return fault.NoFault?;
    }

    method VerifyClaim(attemptId: string) returns (ok: bool)
      ensures ok == Verifies(files, attemptId)
    {
      ok := attemptId in files && files[attemptId].complete;
    }
  }

  predicate Verifies(files: ClaimFiles, attemptId: string) {
    attemptId in files && files[attemptId].complete
  }

  datatype ClaimRequest = ClaimRequest(attemptId: string, owner: nat, fault: ClaimFault)

  /** The store after it has served the requests in this order. */
  function Served(files: ClaimFiles, requests: seq<ClaimRequest>): ClaimFiles {
    if requests == [] then files
    else
      var n := |requests| - 1;
      Claimed(Served(files, requests[..n]), requests[n].attemptId, requests[n].owner, requests[n].fault).0
  }

  predicate Granted(files: ClaimFiles, requests: seq<ClaimRequest>, i: nat)
    requires i < |requests|
  {
    Claimed(Served(files, requests[..i]), requests[i].attemptId, requests[i].owner, requests[i].fault).1
  }

  lemma {:induction false} ServedKeeps(files: ClaimFiles, requests: seq<ClaimRequest>, i: nat, j: nat, id: string)
    requires i <= j <= |requests| && id in Served(files, requests[..i])
    ensures id in Served(files, requests[..j]) && Served(files, requests[..j])[id] == Served(files, requests[..i])[id]
    decreases j
  {
    if i < j {
      ServedKeeps(files, requests, i, j - 1, id);
      assert requests[..j][..j - 1] == requests[..j - 1];
    }
  }

  /** Whoever asks for whatever claims in whatever order and however they fail: an
      attempt is granted at most once, only if nobody asked for it before with a
      file left behind, and from then on it verifies as its claimer's. */
  lemma ClaimIsExclusive(files: ClaimFiles, requests: seq<ClaimRequest>, i: nat)
    requires i < |requests| && Granted(files, requests, i)
    ensures var id := requests[i].attemptId;
      && id !in Served(files, requests[..i])
      && (forall j | 0 <= j < |requests| && j != i && requests[j].attemptId == id :: !Granted(files, requests, j))
      && (forall j | i < j <= |requests| ::
            && Verifies(Served(files, requests[..j]), id)
            && Served(files, requests[..j])[id].owner == requests[i].owner)
  {
    var id := requests[i].attemptId;
    assert requests[..i + 1][..i] == requests[..i];
    forall j | i < j <= |requests|
      ensures Verifies(Served(files, requests[..j]), id) && Served(files, requests[..j])[id].owner == requests[i].owner
    {
      ServedKeeps(files, requests, i + 1, j, id);
    }
    forall j | 0 <= j < |requests| && j != i && requests[j].attemptId == id ensures !Granted(files, requests, j) {
      if j < i && Granted(files, requests, j) {
        assert requests[..j + 1][..j] == requests[..j];
        ServedKeeps(files, requests, j + 1, i, id);
      }
    }
  }

  // ---- one call -----------------------------------------------------------

  datatype Setup = Setup(id: nat, transports: set<ProviderId>, live: bool)

  datatype CallOutcome = CallOutcome(st: RunnerState, files: ClaimFiles, result: CallResult, sent: bool)

  /** `run_next` as a function of the runner's fields, the claim files and the surroundings. */
  function RunNextOutcome(m: Manifest, u: Setup, st: RunnerState, files: ClaimFiles,
                          attemptId: string, s: Surroundings, fault: ClaimFault): CallOutcome
    requires m.Accepted()
  {
    match Begin(m, u.transports, st, attemptId, if u.live then s.entryGate else GatePass)
    case Refuse(st1, refusal) => CallOutcome(st1, files, Raised(refusal), false)
    case Proceed =>
      var (files1, ok) := Claimed(files, attemptId, u.id, fault);
      if !ok then CallOutcome(st, files1, Raised(AuthorizationError), false)
      else if u.live && !s.preSend.GatePass? then
        var (st1, r) := FailBeforeSend(m, st, s.preSend, s.receiptSafe);
        CallOutcome(st1, files1, r, false)
      else
        var (st1, r) := AfterSend(m, st.(requests := st.requests + 1), s);
        CallOutcome(st1, files1, r, true)
  }

  // ---- what every call keeps ----------------------------------------------

  function LocalCount(receipts: seq<Receipt>): nat {
    if receipts == [] then 0
    else LocalCount(receipts[..|receipts| - 1]) + if receipts[|receipts| - 1].reason.Local? then 1 else 0
  }

  /** Number of receipts that stand for an attempt the runner started. */
  function Started(receipts: seq<Receipt>): nat {
    if receipts == [] then 0
    else Started(receipts[..|receipts| - 1]) + if receipts[|receipts| - 1].terminal.BLOCKED? then 0 else 1
  }

  predicate InPlanOrder(m: Manifest, receipts: seq<Receipt>) {
    && |receipts| <= |m.plan|
    && forall i | 0 <= i < |receipts| ::
         receipts[i].attemptId == m.plan[i].attemptId && receipts[i].providerId == m.plan[i].providerId
  }

  /** BLOCKED receipts come last, share the runner's stop reason, hold no claim
      and cost nothing; every other receipt stands behind a claim. */
  predicate BlockedSuffix(st: RunnerState) {
    && (forall i, j | 0 <= i < j < |st.receipts| ::
          st.receipts[i].terminal.BLOCKED? ==> st.receipts[j].terminal.BLOCKED?)
    && forall i | 0 <= i < |st.receipts| ::
         if st.receipts[i].terminal.BLOCKED?
         then st.stop.Some? && st.receipts[i].reason == Stop(st.stop.value)
              && !st.receipts[i].claimed && st.receipts[i].cost.None?
         else st.receipts[i].claimed
  }

  predicate ErrorsCounted(st: RunnerState) {
    && st.localErrors == LocalCount(st.receipts)
    && st.localErrors <= LOCAL_ERROR_LIMIT
    && (st.localErrors == LOCAL_ERROR_LIMIT ==> st.stop.Some?)
  }

  /** Sends run at most one ahead of the receipts; a started attempt without a
      send exists only once the runner has stopped. */
  predicate RequestsCounted(st: RunnerState) {
    && st.requests <= Started(st.receipts) + 1
    && st.requests <= MAX_PLANNED_ATTEMPTS
    && Started(st.receipts) <= st.requests + 1
    && (st.stop.None? ==> Started(st.receipts) <= st.requests)
  }

  predicate ValidState(m: Manifest, st: RunnerState) {
    InPlanOrder(m, st.receipts) && BlockedSuffix(st) && ErrorsCounted(st) && RequestsCounted(st)
  }

  lemma {:induction false} UnstoppedAllStarted(st: RunnerState, n: nat)
    requires BlockedSuffix(st) && st.stop.None? && n <= |st.receipts|
    ensures Started(st.receipts[..n]) == n
  {
    if n > 0 {
      UnstoppedAllStarted(st, n - 1);
      assert st.receipts[..n][..n - 1] == st.receipts[..n - 1];
    }
  }

  /** Appending one receipt of the given shape. */
  lemma AppendKeeps(m: Manifest, st: RunnerState, st1: RunnerState, r: Receipt)
    requires ValidState(m, st) && |st.receipts| < |m.plan| && st.stop.None?
    requires r.attemptId == m.plan[|st.receipts|].attemptId && r.providerId == m.plan[|st.receipts|].providerId
    requires r.claimed && !r.terminal.BLOCKED?
    requires st1.receipts == st.receipts + [r]
    requires st1.localErrors == st.localErrors + if r.reason.Local? then 1 else 0
    requires st1.localErrors == LOCAL_ERROR_LIMIT ==> st1.stop.Some?
    requires st.requests <= st1.requests <= |st.receipts| + 1
    requires |st.receipts| < MAX_PLANNED_ATTEMPTS
    requires st1.stop.None? ==> st1.requests == |st.receipts| + 1
    ensures ValidState(m, st1)
  {
    hide InPlanOrder, BlockedSuffix, Started, LocalCount;
    AppendKeepsOrder(m, st, st1, r);
    AppendCounts(st, st1, r);
  }

  lemma AppendCounts(st: RunnerState, st1: RunnerState, r: Receipt)
    requires BlockedSuffix(st) && st.stop.None? && st1.receipts == st.receipts + [r] && !r.terminal.BLOCKED?
    ensures Started(st.receipts) == |st.receipts| && Started(st1.receipts) == |st.receipts| + 1
    ensures LocalCount(st1.receipts) == LocalCount(st.receipts) + if r.reason.Local? then 1 else 0
  {
    assert st1.receipts[..|st.receipts|] == st.receipts;
    UnstoppedAllStarted(st, |st.receipts|);
    assert st.receipts[..|st.receipts|] == st.receipts;
    hide BlockedSuffix;
  }

  lemma AppendKeepsOrder(m: Manifest, st: RunnerState, st1: RunnerState, r: Receipt)
    requires InPlanOrder(m, st.receipts) && BlockedSuffix(st) && |st.receipts| < |m.plan| && st.stop.None?
    requires r.attemptId == m.plan[|st.receipts|].attemptId && r.providerId == m.plan[|st.receipts|].providerId
    requires r.claimed && !r.terminal.BLOCKED? && st1.receipts == st.receipts + [r]
    ensures InPlanOrder(m, st1.receipts) && BlockedSuffix(st1)
  {}

  /** Keeping the receipts while the counter moves and a stop may be set. */
  lemma StayKeeps(m: Manifest, st: RunnerState, st1: RunnerState)
    requires ValidState(m, st) && st.stop.None?
    requires st1.receipts == st.receipts && st1.localErrors == st.localErrors
    requires st.requests <= st1.requests <= |st.receipts| + 1 && st1.requests <= MAX_PLANNED_ATTEMPTS
    ensures ValidState(m, st1)
  {
    UnstoppedAllStarted(st, |st.receipts|);
    assert st.receipts[..|st.receipts|] == st.receipts;
  }

  lemma FailBeforeSendKeeps(m: Manifest, st: RunnerState, gate: Gate, safe: bool)
    requires m.Accepted() && ValidState(m, st) && st.stop.None? && !gate.GatePass?
    requires |st.receipts| < MAX_PLANNED_ATTEMPTS && st.requests == |st.receipts|
    ensures ValidState(m, FailBeforeSend(m, st, gate, safe).0)
  {
    var st1 := FailBeforeSend(m, st, gate, safe).0;
    if safe {
      AppendKeeps(m, st, st1, st1.receipts[|st.receipts|]);
    } else {
      StayKeeps(m, st, st1);
    }
  }

  /** What `Settle` can do to the fields: keep the receipts, or append one that stands behind a claim. */
  lemma SettleShape(m: Manifest, st: RunnerState, n: Normalized, s: Surroundings)
    requires m.Accepted() && |st.receipts| < MAX_PLANNED_ATTEMPTS
    ensures var (st1, result) := Settle(m, st, n, s); var attempt := m.plan[|st.receipts|];
      && st1.requests == st.requests
      && (st.stop.Some? ==> st1.stop.Some?)
      && (if result.Done? then
            && var r := result.receipt;
            && st1.receipts == st.receipts + [r]
            && r.attemptId == attempt.attemptId && r.providerId == attempt.providerId
            && r.claimed && !r.terminal.BLOCKED?
            && st1.localErrors == st.localErrors + (if r.reason.Local? then 1 else 0)
            && (r.reason.Local? && st1.localErrors >= LOCAL_ERROR_LIMIT ==> st1.stop.Some?)
          else st1.receipts == st.receipts && st1.localErrors == st.localErrors)
  {
    hide Charge;
  }

  /** `sent` is the state right after the counter was raised; it may already carry a stop. */
  lemma SettleKeeps(m: Manifest, st: RunnerState, sent: RunnerState, n: Normalized, s: Surroundings)
    requires m.Accepted() && ValidState(m, st) && st.stop.None?
    requires |st.receipts| < MAX_PLANNED_ATTEMPTS && st.requests == |st.receipts|
    requires sent.receipts == st.receipts && sent.localErrors == st.localErrors && sent.requests == st.requests + 1
    ensures ValidState(m, Settle(m, sent, n, s).0)
  {
    hide Settle;
    SettleShape(m, sent, n, s);
    var (st1, result) := Settle(m, sent, n, s);
    if result.Done? {
      AppendKeeps(m, st, st1, result.receipt);
    } else {
      StayKeeps(m, st, st1);
    }
  }

  lemma AfterSendKeeps(m: Manifest, st: RunnerState, s: Surroundings)
    requires m.Accepted() && ValidState(m, st) && st.stop.None?
    requires |st.receipts| < MAX_PLANNED_ATTEMPTS && st.requests == |st.receipts|
    ensures ValidState(m, AfterSend(m, st.(requests := st.requests + 1), s).0)
  {
    var sent := st.(requests := st.requests + 1);
    match s.send
    case AuthorizationLost => StayKeeps(m, st, AfterSend(m, sent, s).0);
    case TimedOut => SettleKeeps(m, st, sent, NETWORK_FAILURE, s);
    case NetworkFailed => SettleKeeps(m, st, sent, NETWORK_FAILURE, s);
    case OtherFailure => SettleKeeps(m, st, sent, RUNTIME_FAILURE, s);
    case Response(secret, normalized) =>
      if secret {
        var stopped := sent.(stop := Some(SecretLeakSuspected));
        SettleKeeps(m, st, stopped, RUNTIME_FAILURE, s);
        if s.secretReceiptSafe {
          var st1 := AfterSend(m, sent, s).0;
          AppendKeeps(m, st, st1, st1.receipts[|st.receipts|]);
        }
      } else {
        SettleKeeps(m, st, sent, if normalized.Some? then normalized.value else RUNTIME_FAILURE, s);
      }
  }

  lemma BlockKeeps(m: Manifest, st: RunnerState)
    requires m.Accepted() && ValidState(m, st) && st.stop.Some? && |st.receipts| < MAX_PLANNED_ATTEMPTS
    ensures ValidState(m, Append(st, BlockedReceipt(m, st)))
  {
    var st1 := Append(st, BlockedReceipt(m, st));
    assert st1.receipts[..|st.receipts|] == st.receipts;
  }

  /** Exactly the attempts the counter has counted were sent. */
  predicate BlockedWasSent(st: RunnerState, i: nat) {
    i < |st.receipts| && st.receipts[i].terminal.BLOCKED? && i < st.requests
  }

  lemma {:induction false} StartedIsPrefix(receipts: seq<Receipt>, i: nat)
    requires forall a, b | 0 <= a < b < |receipts| :: receipts[a].terminal.BLOCKED? ==> receipts[b].terminal.BLOCKED?
    requires i < |receipts|
    ensures receipts[i].terminal.BLOCKED? <==> Started(receipts) <= i
    ensures Started(receipts) <= |receipts|
  {
    var n := |receipts| - 1;
    var init := receipts[..n];
    if n > 0 {
      StartedIsPrefix(init, n - 1);
      if i < n {
        StartedIsPrefix(init, i);
      }
    }
  }

  /** In the counters this shows as more requests than receipts that are not BLOCKED. */
  lemma BlockedWasSentIff(m: Manifest, st: RunnerState)
    requires ValidState(m, st) && |st.receipts| == MAX_PLANNED_ATTEMPTS
    ensures (exists i: nat :: BlockedWasSent(st, i)) <==> st.requests > Started(st.receipts)
    ensures forall i: nat | BlockedWasSent(st, i) :: i == Started(st.receipts)
  {
    forall i: nat | i < |st.receipts|
      ensures st.receipts[i].terminal.BLOCKED? <==> Started(st.receipts) <= i
    {
      StartedIsPrefix(st.receipts, i);
    }
    if st.requests > Started(st.receipts) {
      assert BlockedWasSent(st, Started(st.receipts));
    }
  }

  // ---- whole calls --------------------------------------------------------

  /** A send whose receipt was lost leaves its claim file behind, so the attempt
      cannot be claimed again. */
  predicate LostSendIsClaimed(m: Manifest, st: RunnerState, files: ClaimFiles)
    requires InPlanOrder(m, st.receipts)
  {
    st.stop.None? && st.requests > |st.receipts| && |st.receipts| < |m.plan|
    ==> m.plan[|st.receipts|].attemptId in files
  }

  lemma RunNextKeeps(m: Manifest, u: Setup, st: RunnerState, files: ClaimFiles,
                     attemptId: string, s: Surroundings, fault: ClaimFault)
    requires m.Accepted() && ValidState(m, st) && LostSendIsClaimed(m, st, files)
    ensures var o := RunNextOutcome(m, u, st, files, attemptId, s, fault);
      && ValidState(m, o.st) && LostSendIsClaimed(m, o.st, o.files)
      && files.Keys <= o.files.Keys
      && o.st.requests == st.requests + (if o.sent then 1 else 0)
      && (o.sent ==> attemptId !in files && attemptId == m.plan[st.requests].attemptId)
      && (o.result.Done? ==> o.st.receipts == st.receipts + [o.result.receipt])
  {
    hide AfterSend, FailBeforeSend, Affordable, RequestsCounted, ErrorsCounted, BlockedSuffix;
    var gate := if u.live then s.entryGate else GatePass;
    match Begin(m, u.transports, st, attemptId, gate)
    case Refuse(st1, _) =>
      if st1 != st {
        RefusalKeeps(m, st, st1);
      }
    case Proceed =>
      if attemptId !in files {
        ReadyToSend(m, st, files);
      }
      if Claimed(files, attemptId, u.id, fault).1 {
        if u.live && !s.preSend.GatePass? {
          FailBeforeSendKeeps(m, st, s.preSend, s.receiptSafe);
          FailBeforeSendShape(m, st, s.preSend, s.receiptSafe);
        } else {
          AfterSendKeeps(m, st, s);
          AfterSendShape(m, st.(requests := st.requests + 1), s);
        }
      }
  }

  lemma RefusalKeeps(m: Manifest, st: RunnerState, st1: RunnerState)
    requires ValidState(m, st) && st.stop.None? && st1 == st.(stop := Some(CostCeilingGuard))
    ensures ValidState(m, st1)
  {
    UnstoppedAllStarted(st, |st.receipts|);
    assert st.receipts[..|st.receipts|] == st.receipts;
  }

  /** An unclaimed next attempt of a running runner has never been sent by it. */
  lemma ReadyToSend(m: Manifest, st: RunnerState, files: ClaimFiles)
    requires ValidState(m, st) && LostSendIsClaimed(m, st, files) && st.stop.None?
    requires |st.receipts| < |m.plan| && m.plan[|st.receipts|].attemptId !in files
    ensures st.requests == |st.receipts|
  {
    UnstoppedAllStarted(st, |st.receipts|);
    assert st.receipts[..|st.receipts|] == st.receipts;
  }

  lemma FailBeforeSendShape(m: Manifest, st: RunnerState, gate: Gate, safe: bool)
    requires m.Accepted() && |st.receipts| < MAX_PLANNED_ATTEMPTS && !gate.GatePass?
    ensures var (st1, result) := FailBeforeSend(m, st, gate, safe);
      && st1.requests == st.requests && st1.stop.Some? && result.Raised?
      && (st1.receipts == st.receipts
          || (|st1.receipts| == |st.receipts| + 1 && st1.receipts[..|st.receipts|] == st.receipts
              && st1.receipts[|st.receipts|].cost.None?))
  {}

  lemma AfterSendShape(m: Manifest, st: RunnerState, s: Surroundings)
    requires m.Accepted() && |st.receipts| < MAX_PLANNED_ATTEMPTS
    ensures var (st1, result) := AfterSend(m, st, s);
      && st1.requests == st.requests
      && (if result.Done? then st1.receipts == st.receipts + [result.receipt]
          else st1.receipts == st.receipts)
  {
    hide Settle;
    SettleShape(m, st, NETWORK_FAILURE, s);
    SettleShape(m, st, RUNTIME_FAILURE, s);
    SettleShape(m, st.(stop := Some(SecretLeakSuspected)), RUNTIME_FAILURE, s);
    if s.send.Response? && s.send.normalized.Some? {
      SettleShape(m, st, s.send.normalized.value, s);
    }
  }

  /** The provider answered `d` under the requested identity, within the token
      guard, and the evidence was written. */
  predicate Answered(m: Manifest, attempt: Attempt, s: Surroundings, d: Decision)
    requires m.Accepted()
  {
    s.send.Response? && !s.send.secret && s.send.normalized.Some? && s.evidenceWritten
    && var n := s.send.normalized.value;
       n.terminal.SUCCESS? && n.resolvedModelId == Some(m.ProviderOf(attempt).modelId) && n.finalText == Some(Decides(d))
       && !CostOf(m.ProviderOf(attempt).pricing, n.inputTokens, n.outputTokens).TokenGuard?
  }

  /** The receipt of a call says PASS exactly when the expected decision was
      answered, and FAIL exactly when another one was. */
  lemma VerdictIffAnswered(m: Manifest, u: Setup, st: RunnerState, files: ClaimFiles,
                           attemptId: string, s: Surroundings, fault: ClaimFault)
    requires m.Accepted() && RunNextOutcome(m, u, st, files, attemptId, s, fault).result.Done?
    ensures |st.receipts| < |m.plan|
    ensures var r := RunNextOutcome(m, u, st, files, attemptId, s, fault).result.receipt;
      var attempt := m.plan[|st.receipts|];
      && (r.terminal == PASS <==> Answered(m, attempt, s, attempt.expected))
      && (r.terminal == FAIL <==> exists d :: d != attempt.expected && Answered(m, attempt, s, d))
  {
    hide Affordable, Claimed, MakeReceipt;
    MadeAs(m);
    var attempt := m.plan[|st.receipts|];
    if s.send.Response? && s.send.normalized.Some? {
      var text := s.send.normalized.value.finalText;
      if text.Some? && text.value.Decides? {
        assert Answered(m, attempt, s, text.value.decision) || !exists d :: Answered(m, attempt, s, d);
      }
    }
  }

  lemma MadeAs(m: Manifest)
    ensures forall attempt, n, e, c, t, r :: MakeReceipt(m, attempt, n, e, c, t, r).terminal == t
  {
  }

  // ---- run_all ------------------------------------------------------------

  /** One BLOCKED receipt for every attempt that is left. */
  function BlockRest(m: Manifest, st: RunnerState): RunnerState
    requires m.Accepted() && st.stop.Some?
    decreases MAX_PLANNED_ATTEMPTS - |st.receipts|
  {
    if |st.receipts| >= MAX_PLANNED_ATTEMPTS then st
    else BlockRest(m, Append(st, BlockedReceipt(m, st)))
  }

  /** What the surroundings do in each call that `run_all` makes. */
  type Script = (nat -> (Surroundings, ClaimFault))

  datatype RunAllResult = RunAllResult(st: RunnerState, files: ClaimFiles, raised: Option<Refusal>)

  function RunAllOutcome(m: Manifest, u: Setup, st: RunnerState, files: ClaimFiles, script: Script): RunAllResult
    requires m.Accepted() && ValidState(m, st) && LostSendIsClaimed(m, st, files)
    decreases MAX_PLANNED_ATTEMPTS - |st.receipts|
  {
    if |st.receipts| >= MAX_PLANNED_ATTEMPTS then RunAllResult(st, files, None)
    else if st.stop.Some? then RunAllResult(BlockRest(m, st), files, None)
    else
      var attemptId := m.plan[|st.receipts|].attemptId;
      var (s, fault) := script(|st.receipts|);
      var o := RunNextOutcome(m, u, st, files, attemptId, s, fault);
      RunNextKeeps(m, u, st, files, attemptId, s, fault);
      if o.result.Raised? then RunAllResult(o.st, o.files, Some(o.result.refusal))
      else RunAllOutcome(m, u, o.st, o.files, script)
  }

  lemma {:induction false} BlockRestKeeps(m: Manifest, st: RunnerState)
    requires m.Accepted() && ValidState(m, st) && st.stop.Some?
    ensures ValidState(m, BlockRest(m, st)) && |BlockRest(m, st).receipts| == MAX_PLANNED_ATTEMPTS
    ensures BlockRest(m, st).requests == st.requests && BlockRest(m, st).stop == st.stop
    decreases MAX_PLANNED_ATTEMPTS - |st.receipts|
  {
    if |st.receipts| < MAX_PLANNED_ATTEMPTS {
      BlockKeeps(m, st);
      BlockRestKeeps(m, Append(st, BlockedReceipt(m, st)));
    }
  }

  /** Whatever happens, a `run_all` that returns leaves one receipt per planned
      attempt in plan order with the BLOCKED ones last, and one that raises keeps
      the same invariant for the next call. */
  lemma {:induction false} RunAllKeeps(m: Manifest, u: Setup, st: RunnerState, files: ClaimFiles, script: Script)
    requires m.Accepted() && ValidState(m, st) && LostSendIsClaimed(m, st, files)
    ensures var r := RunAllOutcome(m, u, st, files, script);
      && ValidState(m, r.st) && LostSendIsClaimed(m, r.st, r.files)
      && files.Keys <= r.files.Keys
      && (r.raised.None? ==> |r.st.receipts| == MAX_PLANNED_ATTEMPTS)
      && st.requests <= r.st.requests
    decreases MAX_PLANNED_ATTEMPTS - |st.receipts|
  {
    hide RunNextOutcome;
    if |st.receipts| < MAX_PLANNED_ATTEMPTS {
      if st.stop.Some? {
        BlockRestKeeps(m, st);
      } else {
        var attemptId := m.plan[|st.receipts|].attemptId;
        var (s, fault) := script(|st.receipts|);
        var o := RunNextOutcome(m, u, st, files, attemptId, s, fault);
        RunNextKeeps(m, u, st, files, attemptId, s, fault);
        if o.result.Done? {
          RunAllKeeps(m, u, o.st, o.files, script);
        }
      }
    }
  }

  // ---- what a BLOCKED receipt can stand for -------------------------------

  /** What happens around a sent attempt that stops the runner and leaves no receipt:
      the send raises an authorization error, or the receipt that a secret, unwritten
      evidence or the token guard calls for is refused itself. */
  predicate LosesReceipt(m: Manifest, attempt: Attempt, s: Surroundings)
    requires m.Accepted()
  {
    s.send.AuthorizationLost?
    || (!s.receiptSafe
        && if s.send.Response? && s.send.secret then !s.secretReceiptSafe
           else !s.evidenceWritten || OverTokens(m.ProviderOf(attempt), s.send))
  }

  predicate OverTokens(provider: Provider, send: SendOutcome) {
    send.Response? && send.normalized.Some?
    && CostOf(provider.pricing, send.normalized.value.inputTokens, send.normalized.value.outputTokens).TokenGuard?
  }

  lemma ReceiptLostIff(m: Manifest, st: RunnerState, s: Surroundings)
    requires m.Accepted() && |st.receipts| < MAX_PLANNED_ATTEMPTS && st.stop.None?
    ensures var st1 := AfterSend(m, st, s).0;
      (st1.stop.Some? && st1.receipts == st.receipts) <==> LosesReceipt(m, m.plan[|st.receipts|], s)
  {
    hide Verdict, MakeReceipt, Charge;
  }

  /** A call of `run_next` on the runner; before it others may have added claim files. */
  datatype Call = Call(attemptId: string, s: Surroundings, fault: ClaimFault, others: ClaimFiles)

  datatype History = History(st: RunnerState, files: ClaimFiles)

  /** The call `c` of a runner with this history. */
  function Serve(m: Manifest, u: Setup, h: History, c: Call): CallOutcome
    requires m.Accepted()
  {
    RunNextOutcome(m, u, h.st, c.others + h.files, c.attemptId, c.s, c.fault)
  }

  /** A new runner after these calls. */
  function After(m: Manifest, u: Setup, calls: seq<Call>): History
    requires m.Accepted()
  {
    if calls == [] then History(FRESH, map[])
    else
      var o := Serve(m, u, After(m, u, calls[..|calls| - 1]), calls[|calls| - 1]);
      History(o.st, o.files)
  }

  /** Call number `k` was sent, and its surroundings lost the receipt. */
  predicate LosesAt(m: Manifest, u: Setup, calls: seq<Call>, k: nat)
    requires m.Accepted()
  {
    k < |calls|
    && var h := After(m, u, calls[..k]);
       Serve(m, u, h, calls[k]).sent && |h.st.receipts| < |m.plan|
       && LosesReceipt(m, m.plan[|h.st.receipts|], calls[k].s)
  }

  ghost predicate SomeLost(m: Manifest, u: Setup, calls: seq<Call>)
    requires m.Accepted()
  {
    exists k: nat :: LosesAt(m, u, calls, k)
  }

  /** A receipt lost with a stop shows as one request more than receipts; one lost
      without a stop leaves the runner at an attempt it can neither claim nor give up. */
  predicate HistoryInv(m: Manifest, h: History) {
    && ValidState(m, h.st) && LostSendIsClaimed(m, h.st, h.files)
    && (forall r | r in h.st.receipts :: !r.terminal.BLOCKED?)
    && (h.st.requests > |h.st.receipts| ==> Affordable(m, h.st))
  }

  predicate StoppedShort(st: RunnerState) {
    st.stop.Some? && st.requests > |st.receipts|
  }

  lemma NotBlockedAreStarted(receipts: seq<Receipt>)
    requires forall r | r in receipts :: !r.terminal.BLOCKED?
    ensures Started(receipts) == |receipts|
  {
    if receipts != [] {
      var n := |receipts| - 1;
      assert forall r | r in receipts[..n] :: r in receipts;
      NotBlockedAreStarted(receipts[..n]);
    }
  }

  /** What one call adds to the history of its runner. */
  predicate ServesSoundly(m: Manifest, st: RunnerState, o: CallOutcome, short: bool) {
    && (forall r | r in o.st.receipts :: !r.terminal.BLOCKED?)
    && (o.st.requests > |o.st.receipts| ==> Affordable(m, o.st))
    && |st.receipts| <= |o.st.receipts| && (st.stop.Some? ==> o.st == st)
    && (StoppedShort(o.st) <==> StoppedShort(st) || short)
  }

  lemma UnsentCall(m: Manifest, u: Setup, h: History, c: Call)
    requires m.Accepted() && HistoryInv(m, h) && !Serve(m, u, h, c).sent
    ensures ServesSoundly(m, h.st, Serve(m, u, h, c), false)
  {
    hide AfterSend, FailBeforeSend, Affordable, RequestsCounted, ErrorsCounted, BlockedSuffix;
    var files := c.others + h.files;
    var gate := if u.live then c.s.entryGate else GatePass;
    if Begin(m, u.transports, h.st, c.attemptId, gate).Proceed? && Claimed(files, c.attemptId, u.id, c.fault).1 {
      ReadyToSend(m, h.st, files);
      FailedReceipt(m, h.st, c.s.preSend, c.s.receiptSafe);
    }
  }

  lemma SentCall(m: Manifest, u: Setup, h: History, c: Call)
    requires m.Accepted() && HistoryInv(m, h) && Serve(m, u, h, c).sent
    ensures h.st.requests == |h.st.receipts| < |m.plan|
    ensures ServesSoundly(m, h.st, Serve(m, u, h, c), LosesReceipt(m, m.plan[|h.st.receipts|], c.s))
  {
    hide AfterSend, FailBeforeSend, Affordable, RequestsCounted, ErrorsCounted, BlockedSuffix, LosesReceipt;
    ReadyToSend(m, h.st, c.others + h.files);
    AfterSendShape(m, h.st.(requests := h.st.requests + 1), c.s);
    SentKeeps(m, h.st, c.s);
  }

  /** One call stops short exactly when it is sent and loses its receipt. */
  lemma ServeKeeps(m: Manifest, u: Setup, h: History, c: Call)
    requires m.Accepted() && HistoryInv(m, h)
    ensures var o := Serve(m, u, h, c);
      && HistoryInv(m, History(o.st, o.files))
      && (o.sent ==> h.st.requests == |h.st.receipts| < |m.plan|)
      && o.st.requests == h.st.requests + (if o.sent then 1 else 0)
      && |h.st.receipts| <= |o.st.receipts| && (h.st.stop.Some? ==> o.st == h.st)
      && (StoppedShort(o.st) <==>
            StoppedShort(h.st) || (o.sent && LosesReceipt(m, m.plan[|h.st.receipts|], c.s)))
  {
    hide RunNextOutcome, Affordable, ValidState, StoppedShort, LosesReceipt;
    KeptByOthers(m, h, c.others);
    RunNextKeeps(m, u, h.st, c.others + h.files, c.attemptId, c.s, c.fault);
    if Serve(m, u, h, c).sent {
      SentCall(m, u, h, c);
    } else {
      UnsentCall(m, u, h, c);
    }
  }

  lemma KeptByOthers(m: Manifest, h: History, others: ClaimFiles)
    requires HistoryInv(m, h)
    ensures LostSendIsClaimed(m, h.st, others + h.files)
  {
    hide Affordable;
  }

  lemma StaysAffordable(m: Manifest, st: RunnerState, st1: RunnerState)
    requires Affordable(m, st)
    ensures st1.receipts == st.receipts ==> Affordable(m, st1)
  {}

  lemma FailedReceipt(m: Manifest, st: RunnerState, gate: Gate, safe: bool)
    requires m.Accepted() && |st.receipts| < MAX_PLANNED_ATTEMPTS && !gate.GatePass?
    ensures var st1 := FailBeforeSend(m, st, gate, safe).0;
      st1.requests == st.requests && |st.receipts| <= |st1.receipts|
      && forall r | r in st1.receipts :: r in st.receipts || !r.terminal.BLOCKED?
  {}

  lemma SentReceipt(m: Manifest, st: RunnerState, s: Surroundings)
    requires m.Accepted() && |st.receipts| < MAX_PLANNED_ATTEMPTS
    ensures var (st1, result) := AfterSend(m, st, s); result.Done? ==> !result.receipt.terminal.BLOCKED?
  {
    hide Settle;
    SettleShape(m, st, NETWORK_FAILURE, s);
    SettleShape(m, st, RUNTIME_FAILURE, s);
    SettleShape(m, st.(stop := Some(SecretLeakSuspected)), RUNTIME_FAILURE, s);
    if s.send.Response? && s.send.normalized.Some? {
      SettleShape(m, st, s.send.normalized.value, s);
    }
  }

  lemma SentKeeps(m: Manifest, st: RunnerState, s: Surroundings)
    requires m.Accepted() && st.stop.None? && st.requests == |st.receipts| < MAX_PLANNED_ATTEMPTS
    requires (forall r | r in st.receipts :: !r.terminal.BLOCKED?) && Affordable(m, st)
    ensures var st1 := AfterSend(m, st.(requests := st.requests + 1), s).0;
      && (forall r | r in st1.receipts :: !r.terminal.BLOCKED?)
      && (st1.requests > |st1.receipts| ==> Affordable(m, st1))
      && (StoppedShort(st1) <==> LosesReceipt(m, m.plan[|st.receipts|], s))
  {
    hide AfterSend, Affordable, LosesReceipt;
    var sent := st.(requests := st.requests + 1);
    AfterSendShape(m, sent, s);
    SentReceipt(m, sent, s);
    ReceiptLostIff(m, sent, s);
    StaysAffordable(m, st, AfterSend(m, sent, s).0);
  }

  lemma {:induction false} HistoryKeeps(m: Manifest, u: Setup, calls: seq<Call>)
    requires m.Accepted()
    ensures HistoryInv(m, After(m, u, calls))
    ensures StoppedShort(After(m, u, calls).st) <==> SomeLost(m, u, calls)
  {
    hide Serve, HistoryInv, LosesReceipt;
    if calls == [] {
      FreshHistory(m);
    } else {
      var n := |calls| - 1;
      HistoryKeeps(m, u, calls[..n]);
      ServeKeeps(m, u, After(m, u, calls[..n]), calls[n]);
      LostBefore(m, u, calls);
    }
  }

  lemma FreshHistory(m: Manifest)
    requires m.Accepted()
    ensures HistoryInv(m, History(FRESH, map[]))
  {
    hide Affordable;
  }

  lemma LostBefore(m: Manifest, u: Setup, calls: seq<Call>)
    requires m.Accepted() && calls != []
    ensures SomeLost(m, u, calls) <==> SomeLost(m, u, calls[..|calls| - 1]) || LosesAt(m, u, calls, |calls| - 1)
  {
    hide Serve, After, LosesReceipt;
    var n := |calls| - 1;
    forall k: nat | k < n ensures LosesAt(m, u, calls, k) <==> LosesAt(m, u, calls[..n], k) {
      assert calls[..n][..k] == calls[..k] && calls[..n][k] == calls[k];
    }
  }

  /** What `run_all` makes of the receipts of a runner that has stopped or is done. */
  function Finished(m: Manifest, st: RunnerState): RunnerState
    requires m.Accepted()
  {
    if st.stop.Some? then BlockRest(m, st) else st
  }

  lemma {:induction false} BlockRestExtends(m: Manifest, st: RunnerState)
    requires m.Accepted() && st.stop.Some?
    ensures st.receipts <= BlockRest(m, st).receipts && BlockRest(m, st).requests == st.requests
    ensures Started(BlockRest(m, st).receipts) == Started(st.receipts)
    ensures |st.receipts| <= MAX_PLANNED_ATTEMPTS ==> |BlockRest(m, st).receipts| == MAX_PLANNED_ATTEMPTS
    decreases MAX_PLANNED_ATTEMPTS - |st.receipts|
  {
    if |st.receipts| < MAX_PLANNED_ATTEMPTS {
      assert Append(st, BlockedReceipt(m, st)).receipts[..|st.receipts|] == st.receipts;
      BlockRestExtends(m, Append(st, BlockedReceipt(m, st)));
    }
  }

  lemma FinishedShowsLoss(m: Manifest, st: RunnerState)
    requires m.Accepted() && ValidState(m, st) && forall r | r in st.receipts :: !r.terminal.BLOCKED?
    ensures (exists i: nat :: BlockedWasSent(Finished(m, st), i)) <==> StoppedShort(st)
    ensures forall i: nat | BlockedWasSent(Finished(m, st), i) :: i == |st.receipts|
  {
    hide BlockRest;
    NotBlockedAreStarted(st.receipts);
    if st.stop.Some? {
      BlockRestKeeps(m, st);
      BlockRestExtends(m, st);
      BlockedWasSentIff(m, Finished(m, st));
    }
  }

  /** After any calls of `run_next`, the receipts `run_all` ends with hold a BLOCKED one
      for an attempt that was sent if and only if one of the calls was sent and lost its
      receipt; it is then the attempt of that call. */
  lemma BlockedStandsForLostReceiptIff(m: Manifest, u: Setup, calls: seq<Call>)
    requires m.Accepted()
    ensures var st := Finished(m, After(m, u, calls).st);
      && ((exists i: nat :: BlockedWasSent(st, i)) <==> SomeLost(m, u, calls))
      && (forall i: nat, k: nat | BlockedWasSent(st, i) && LosesAt(m, u, calls, k) ::
            i == |After(m, u, calls[..k]).st.receipts|)
  {
    hide Serve, After, BlockRest, LosesReceipt, RequestsCounted, ErrorsCounted, BlockedSuffix;
    var st := After(m, u, calls).st;
    HistoryKeeps(m, u, calls);
    FinishedShowsLoss(m, st);
    forall k: nat | LosesAt(m, u, calls, k) ensures |After(m, u, calls[..k]).st.receipts| == |st.receipts| {
      LostStaysLast(m, u, calls, k, |calls|);
    }
  }

  /** After a lost receipt the runner adds none. */
  lemma {:induction false} LostStaysLast(m: Manifest, u: Setup, calls: seq<Call>, k: nat, n: nat)
    requires m.Accepted() && LosesAt(m, u, calls, k) && k < n <= |calls|
    ensures |After(m, u, calls[..n]).st.receipts| == |After(m, u, calls[..k]).st.receipts|
    ensures After(m, u, calls[..n]).st.stop.Some? && calls[..|calls|] == calls
    decreases n
  {
    hide LosesReceipt, Serve, HistoryInv;
    HistoryKeeps(m, u, calls[..n - 1]);
    ServeKeeps(m, u, After(m, u, calls[..n - 1]), calls[n - 1]);
    assert calls[..n][..n - 1] == calls[..n - 1] && calls[..n][n - 1] == calls[n - 1];
    if n > k + 1 {
      LostStaysLast(m, u, calls, k, n - 1);
    }
  }

  /** The calls `run_all` makes under `script` once `n` receipts are there. */
  predicate Scripted(m: Manifest, n: nat, made: seq<Call>, script: Script) {
    n + |made| <= |m.plan|
    && forall j | 0 <= j < |made| ::
         made[j] == Call(m.plan[n + j].attemptId, script(n + j).0, script(n + j).1, map[])
  }

  /** The calls `made` after `calls` are those of `run_all`, and lead to its outcome. */
  ghost predicate RunAllMakes(m: Manifest, u: Setup, calls: seq<Call>, script: Script, made: seq<Call>)
    requires m.Accepted() && HistoryInv(m, After(m, u, calls))
  {
    var h, last := After(m, u, calls), After(m, u, calls + made);
    var r := RunAllOutcome(m, u, h.st, h.files, script);
    && (made == [] || Scripted(m, |h.st.receipts|, made, script))
    && r.files == last.files && r.st == if r.raised.None? then Finished(m, last.st) else last.st
  }

  /** `run_all` makes these calls and, when it returns, adds the BLOCKED receipts; so a
      runner whose `run_all` raised is a runner after some calls. */
  lemma {:induction false} RunAllIsCalls(m: Manifest, u: Setup, calls: seq<Call>, script: Script) returns (made: seq<Call>)
    requires m.Accepted()
    ensures HistoryInv(m, After(m, u, calls)) && RunAllMakes(m, u, calls, script, made)
    decreases MAX_PLANNED_ATTEMPTS - |After(m, u, calls).st.receipts|
  {
    hide RunNextOutcome, Serve, BlockRest, After, Scripted, LosesReceipt, RequestsCounted, ErrorsCounted, BlockedSuffix;
    var h := After(m, u, calls);
    HistoryKeeps(m, u, calls);
    made := [];
    assert calls + made == calls;
    if |h.st.receipts| >= MAX_PLANNED_ATTEMPTS {
      FullIsFinished(m, h.st);
    } else if h.st.stop.None? {
      var n := |h.st.receipts|;
      var c := Call(m.plan[n].attemptId, script(n).0, script(n).1, map[]);
      var o := RunNextOutcome(m, u, h.st, h.files, c.attemptId, c.s, c.fault);
      made := [c];
      AfterOneMore(m, u, calls, c);
      RunNextKeeps(m, u, h.st, h.files, c.attemptId, c.s, c.fault);
      FirstScripted(m, n, c, [], script);
      if o.result.Done? {
        var more := RunAllIsCalls(m, u, calls + made, script);
        assert calls + made + more == calls + (made + more);
        FirstScripted(m, n, c, more, script);
        made := made + more;
      }
    }
  }

  lemma AfterOneMore(m: Manifest, u: Setup, calls: seq<Call>, c: Call)
    requires m.Accepted() && c.others == map[]
    ensures var h := After(m, u, calls); var o := RunNextOutcome(m, u, h.st, h.files, c.attemptId, c.s, c.fault);
      After(m, u, calls + [c]) == History(o.st, o.files)
  {
    hide RunNextOutcome;
    var h := After(m, u, calls);
    assert (calls + [c])[..|calls|] == calls;
    assert c.others + h.files == h.files;
  }

  lemma FirstScripted(m: Manifest, n: nat, c: Call, more: seq<Call>, script: Script)
    requires n < |m.plan| && c == Call(m.plan[n].attemptId, script(n).0, script(n).1, map[])
    requires more == [] || Scripted(m, n + 1, more, script)
    ensures Scripted(m, n, [c] + more, script) && [c] + [] == [c]
  {
    forall j | 0 < j < |[c] + more|
      ensures ([c] + more)[j] == Call(m.plan[n + j].attemptId, script(n + j).0, script(n + j).1, map[])
    {
      assert n + 1 + (j - 1) == n + j && ([c] + more)[j] == more[j - 1];
    }
  }

  lemma FullIsFinished(m: Manifest, st: RunnerState)
    requires m.Accepted() && |st.receipts| >= MAX_PLANNED_ATTEMPTS
    ensures Finished(m, st) == st
  {}

  /** The attempt at which a `run_all` raised was sent, and its surroundings lost the receipt. */
  predicate RaisedOnLoss(m: Manifest, r: RunAllResult, script: Script)
    requires m.Accepted()
  {
    r.raised.Some? && r.st.requests > |r.st.receipts| && |r.st.receipts| < |m.plan|
    && LosesReceipt(m, m.plan[|r.st.receipts|], script(|r.st.receipts|).0)
  }

  /** A `run_all` that returns loses no receipt itself: it shows what was lost before it.
      One that raises leaves no BLOCKED receipt. */
  lemma {:induction false} RunAllShowsEarlierLoss(m: Manifest, u: Setup, st: RunnerState, files: ClaimFiles, script: Script)
    requires m.Accepted() && HistoryInv(m, History(st, files))
    ensures var r := RunAllOutcome(m, u, st, files, script);
      && (r.raised.None? ==> ((exists i: nat :: BlockedWasSent(r.st, i)) <==> StoppedShort(st)))
      && (r.raised.Some? ==> HistoryInv(m, History(r.st, r.files)))
      && (r.raised.Some? && st.requests <= |st.receipts| ==> (StoppedShort(r.st) <==> RaisedOnLoss(m, r, script)))
    decreases MAX_PLANNED_ATTEMPTS - |st.receipts|
  {
    hide RunNextOutcome, BlockRest, LosesReceipt, RequestsCounted, ErrorsCounted, BlockedSuffix, Affordable;
    if |st.receipts| >= MAX_PLANNED_ATTEMPTS || st.stop.Some? {
      FinishedShowsLoss(m, st);
      if |st.receipts| >= MAX_PLANNED_ATTEMPTS { FullIsFinished(m, st); }
      assert RunAllOutcome(m, u, st, files, script) == RunAllResult(Finished(m, st), files, None);
    } else {
      var (s, fault) := script(|st.receipts|);
      var c := Call(m.plan[|st.receipts|].attemptId, s, fault, map[]);
      assert map[] + files == files;
      RunNextKeeps(m, u, st, files, c.attemptId, s, fault);
      ServeKeeps(m, u, History(st, files), c);
      var o := Serve(m, u, History(st, files), c);
      if o.result.Done? {
        NothingOutstanding(m, st, o.st);
        RunAllShowsEarlierLoss(m, u, o.st, o.files, script);
      }
    }
  }

  /** A call that leaves a receipt leaves the counter at the receipts. */
  lemma NothingOutstanding(m: Manifest, st: RunnerState, st1: RunnerState)
    requires ValidState(m, st) && st.stop.None? && |st1.receipts| == |st.receipts| + 1
    requires forall r | r in st.receipts :: !r.terminal.BLOCKED?
    requires st1.requests <= st.requests || (st1.requests == st.requests + 1 && st.requests == |st.receipts|)
    ensures st1.requests <= |st1.receipts|
  {
    NotBlockedAreStarted(st.receipts);
  }

  /** After any calls: the receipts of a `run_all` that returns hold a BLOCKED one for a
      sent attempt if and only if one of these earlier calls was sent and lost its
      receipt; a `run_all` that raises leaves none. */
  lemma RunAllBlocksSentIff(m: Manifest, u: Setup, calls: seq<Call>, script: Script)
    requires m.Accepted()
    ensures var h := After(m, u, calls);
      HistoryInv(m, h)
      && var r := RunAllOutcome(m, u, h.st, h.files, script);
         (r.raised.None? ==> ((exists i: nat :: BlockedWasSent(r.st, i)) <==> SomeLost(m, u, calls)))
         && (r.raised.Some? ==> forall i: nat :: !BlockedWasSent(r.st, i))
  {
    hide RunAllOutcome, After, LosesAt, ValidState, Affordable;
    var h := After(m, u, calls);
    HistoryKeeps(m, u, calls);
    RunAllShowsEarlierLoss(m, u, h.st, h.files, script);
  }

  /** `run_all` on a new runner never returns such a receipt. Called again after it
      raised, whatever claims others made meanwhile, it returns one if and only if the
      first call raised at a sent attempt whose receipt was lost. */
  lemma SecondRunAllBlocksSentIff(m: Manifest, u: Setup, files: ClaimFiles, script: Script, others: ClaimFiles, again: Script)
    requires m.Accepted()
    ensures HistoryInv(m, History(FRESH, files))
    ensures var first := RunAllOutcome(m, u, FRESH, files, script);
      && (first.raised.None? ==> forall i: nat :: !BlockedWasSent(first.st, i))
      && (first.raised.Some? ==>
            HistoryInv(m, History(first.st, others + first.files))
            && var second := RunAllOutcome(m, u, first.st, others + first.files, again);
               second.raised.None? ==>
                 ((exists i: nat :: BlockedWasSent(second.st, i)) <==> RaisedOnLoss(m, first, script)))
  {
    hide RunAllOutcome, ValidState, Affordable, RaisedOnLoss;
    NewRunner(m, files);
    RunAllShowsEarlierLoss(m, u, FRESH, files, script);
    var first := RunAllOutcome(m, u, FRESH, files, script);
    if first.raised.Some? {
      KeptByOthers(m, History(first.st, first.files), others);
      RunAllShowsEarlierLoss(m, u, first.st, others + first.files, again);
    }
  }

  lemma NewRunner(m: Manifest, files: ClaimFiles)
    requires m.Accepted()
    ensures HistoryInv(m, History(FRESH, files))
  {
    hide Affordable;
  }

  // ---- spend --------------------------------------------------------------

  function Committed(m: Manifest, st: RunnerState): real {
    Spent(st.receipts) + Remaining(m, |st.receipts|)
  }

  /** Nothing was spent yet, or the guard holds for what is left. */
  predicate SpendGuarded(m: Manifest, st: RunnerState) {
    Spent(st.receipts) == 0.0 || Affordable(m, st)
  }

  lemma {:induction false} RemainingNonNegative(m: Manifest, i: nat)
    requires m.NonNegativePrices()
    ensures Remaining(m, i) >= 0.0
    decreases |m.plan| - i
  {
    if i < |m.plan| {
      ChargeIsMonotone(m.ProviderOf(m.plan[i]).pricing, 0, 0, MAX_INPUT_TOKENS, MAX_OUTPUT_TOKENS);
      RemainingNonNegative(m, i + 1);
    }
  }

  /** A receipt of the next attempt costs no more than what was set aside for it. */
  lemma ReceiptWithinReserve(m: Manifest, st: RunnerState, n: Option<Normalized>, e: bool, c: bool, t: Terminal, r: Reason)
    requires m.Accepted() && m.NonNegativePrices() && |st.receipts| < MAX_PLANNED_ATTEMPTS
    ensures var receipt := MakeReceipt(m, m.plan[|st.receipts|], n, e, c, t, r);
      Committed(m, Append(st, receipt)) <= Committed(m, st)
  {
    var attempt := m.plan[|st.receipts|];
    var receipt := MakeReceipt(m, attempt, n, e, c, t, r);
    var pricing := m.ProviderOf(attempt).pricing;
    ReserveCoversCostIff(pricing);
    ChargeIsMonotone(pricing, 0, 0, MAX_INPUT_TOKENS, MAX_OUTPUT_TOKENS);
    assert Append(st, receipt).receipts[..|st.receipts|] == st.receipts;
    hide Charge;
    assert Amount(receipt) <= WorstCase(pricing) by {
      if n.Some? {
        var cost := CostOf(pricing, n.value.inputTokens, n.value.outputTokens);
      }
    }
  }

  lemma SettleWithinReserve(m: Manifest, st: RunnerState, n: Normalized, s: Surroundings)
    requires m.Accepted() && m.NonNegativePrices() && |st.receipts| < MAX_PLANNED_ATTEMPTS
    ensures Committed(m, Settle(m, st, n, s).0) <= Committed(m, st)
  {
    var attempt := m.plan[|st.receipts|];
    var (t, r) := Verdict(m.ProviderOf(attempt), attempt.expected, n);
    ReceiptWithinReserve(m, st, Some(n), true, true, t, r);
    ReceiptWithinReserve(m, st, Some(n), true, true, ERROR, Stop(CostCeilingGuard));
    ReceiptWithinReserve(m, st, Some(n), false, true, ERROR, Stop(EvidenceWriteError));
    hide Charge, MakeReceipt, Spent, Remaining, Verdict, CostOf;
  }

  lemma AfterSendWithinReserve(m: Manifest, st: RunnerState, s: Surroundings)
    requires m.Accepted() && m.NonNegativePrices() && |st.receipts| < MAX_PLANNED_ATTEMPTS
    ensures Committed(m, AfterSend(m, st, s).0) <= Committed(m, st)
  {
    hide Charge, Settle, MakeReceipt, Spent, Remaining;
    var stopped := st.(stop := Some(SecretLeakSuspected));
    SettleWithinReserve(m, st, NETWORK_FAILURE, s);
    SettleWithinReserve(m, st, RUNTIME_FAILURE, s);
    SettleWithinReserve(m, stopped, RUNTIME_FAILURE, s);
    ReceiptWithinReserve(m, st, None, false, true, ERROR, Stop(SecretLeakSuspected));
    if s.send.Response? && s.send.normalized.Some? {
      SettleWithinReserve(m, st, s.send.normalized.value, s);
    }
  }

  lemma BlockWithinReserve(m: Manifest, st: RunnerState)
    requires m.Accepted() && m.NonNegativePrices() && |st.receipts| < MAX_PLANNED_ATTEMPTS && st.stop.Some?
    ensures Committed(m, Append(st, BlockedReceipt(m, st))) <= Committed(m, st)
    ensures Spent(Append(st, BlockedReceipt(m, st)).receipts) == Spent(st.receipts)
  {
    ReceiptWithinReserve(m, st, None, false, false, BLOCKED, Stop(st.stop.value));
    assert Append(st, BlockedReceipt(m, st)).receipts[..|st.receipts|] == st.receipts;
  }

  /** Spent plus worst-case remaining never grows, and money is attributed only
      after the guard has passed. */
  lemma RunNextSpend(m: Manifest, u: Setup, st: RunnerState, files: ClaimFiles,
                     attemptId: string, s: Surroundings, fault: ClaimFault)
    requires m.Accepted() && m.NonNegativePrices()
    ensures var o := RunNextOutcome(m, u, st, files, attemptId, s, fault);
      && Committed(m, o.st) <= Committed(m, st)
      && (SpendGuarded(m, st) ==> SpendGuarded(m, o.st))
  {
    hide Charge, AfterSend, FailBeforeSend, Spent, Remaining, MakeReceipt;
    var gate := if u.live then s.entryGate else GatePass;
    match Begin(m, u.transports, st, attemptId, gate)
    case Refuse(st1, _) =>
    case Proceed =>
      AfterSendWithinReserve(m, st.(requests := st.requests + 1), s);
      if !s.preSend.GatePass? {
        FailBeforeSendWithinReserve(m, st, s.preSend, s.receiptSafe);
      }
  }

  lemma FailBeforeSendWithinReserve(m: Manifest, st: RunnerState, gate: Gate, safe: bool)
    requires m.Accepted() && m.NonNegativePrices() && |st.receipts| < MAX_PLANNED_ATTEMPTS && !gate.GatePass?
    ensures Committed(m, FailBeforeSend(m, st, gate, safe).0) <= Committed(m, st)
  {
    ReceiptWithinReserve(m, st, None, false, true, ERROR, Stop(LiveAuthorizationStop));
    ReceiptWithinReserve(m, st, None, false, true, ERROR, Stop(LivePreProviderStop));
    hide Charge, Spent, Remaining, MakeReceipt;
  }

  /** The ceiling is never exceeded, and a guard that passes once passes from then on. */
  lemma {:induction false} RunAllSpend(m: Manifest, u: Setup, st: RunnerState, files: ClaimFiles, script: Script)
    requires m.Accepted() && m.NonNegativePrices()
    requires ValidState(m, st) && LostSendIsClaimed(m, st, files) && SpendGuarded(m, st)
    ensures var r := RunAllOutcome(m, u, st, files, script);
      && SpendGuarded(m, r.st)
      && Spent(r.st.receipts) <= MAX_TOTAL_SPEND + SLACK
      && (Affordable(m, st) ==> Affordable(m, r.st))
    decreases MAX_PLANNED_ATTEMPTS - |st.receipts|
  {
    hide RunNextOutcome, Spent, Remaining;
    RemainingNonNegative(m, |RunAllOutcome(m, u, st, files, script).st.receipts|);
    if |st.receipts| < MAX_PLANNED_ATTEMPTS {
      if st.stop.Some? {
        BlockRestSpend(m, st);
      } else {
        var attemptId := m.plan[|st.receipts|].attemptId;
        var (s, fault) := script(|st.receipts|);
        var o := RunNextOutcome(m, u, st, files, attemptId, s, fault);
        RunNextKeeps(m, u, st, files, attemptId, s, fault);
        RunNextSpend(m, u, st, files, attemptId, s, fault);
        if o.result.Done? {
          RunAllSpend(m, u, o.st, o.files, script);
        }
      }
    }
  }

  lemma {:induction false} BlockRestSpend(m: Manifest, st: RunnerState)
    requires m.Accepted() && m.NonNegativePrices() && st.stop.Some?
    ensures Committed(m, BlockRest(m, st)) <= Committed(m, st)
    ensures Spent(BlockRest(m, st).receipts) == Spent(st.receipts)
    decreases MAX_PLANNED_ATTEMPTS - |st.receipts|
  {
    if |st.receipts| < MAX_PLANNED_ATTEMPTS {
      BlockWithinReserve(m, st);
      BlockRestSpend(m, Append(st, BlockedReceipt(m, st)));
    }
  }

  lemma BeginChecksRoom(m: Manifest, transports: set<ProviderId>, st: RunnerState, attemptId: string, gate: Gate)
    requires m.Accepted()
    ensures Begin(m, transports, st, attemptId, gate).Proceed? ==> |st.receipts| < MAX_PLANNED_ATTEMPTS
  {}

  // ---- the runner object --------------------------------------------------

  class BM1Runner {
    const manifest: Manifest
    const setup: Setup
    const store: ClaimStore
    var receipts: seq<Receipt>
    var providerRequestCount: nat
    var providerLocalErrorCount: nat
    var globalStopReason: Option<StopReason>

    function State(): RunnerState
      reads this
    {
      RunnerState(receipts, providerRequestCount, providerLocalErrorCount, globalStopReason)
    }

    ghost predicate Valid()
      reads this, store
    {
      && manifest.Accepted()
      && ValidState(manifest, State())
      && LostSendIsClaimed(manifest, State(), store.files)
    }

    constructor (manifest: Manifest, setup: Setup, store: ClaimStore)
      requires manifest.Accepted()
      ensures this.manifest == manifest && this.setup == setup && this.store == store
      ensures Valid() && State() == FRESH
    {
      this.manifest := manifest;
      this.setup := setup;
      this.store := store;
      receipts := [];
      providerRequestCount := 0;
      providerLocalErrorCount := 0;
      globalStopReason := None;
    }

    method Assign(st: RunnerState)
      modifies this
      ensures State() == st
    {
      receipts := st.receipts;
      providerRequestCount := st.requests;
      providerLocalErrorCount := st.localErrors;
      globalStopReason := st.stop;
    }

    method RunNext(attemptId: string, s: Surroundings, fault: ClaimFault) returns (result: CallResult, ghost sent: bool)
      requires Valid()
      modifies this, store
      ensures Valid()
      ensures CallOutcome(State(), store.files, result, sent)
        == RunNextOutcome(manifest, setup, old(State()), old(store.files), attemptId, s, fault)
    {
      hide AfterSend, FailBeforeSend, Begin, RequestsCounted, ErrorsCounted, BlockedSuffix;
      RunNextKeeps(manifest, setup, State(), store.files, attemptId, s, fault);
      BeginChecksRoom(manifest, setup.transports, State(), attemptId, if setup.live then s.entryGate else GatePass);
      sent := false;
      var begin := Begin(manifest, setup.transports, State(), attemptId, if setup.live then s.entryGate else GatePass);
      if begin.Refuse? {
        Assign(begin.st);
        return Raised(begin.refusal), false;
      }
      var ok := store.Claim(attemptId, setup.id, fault);
      if !ok {
        return Raised(AuthorizationError), false;
      }
      if setup.live && !s.preSend.GatePass? {
        var failed := FailBeforeSend(manifest, State(), s.preSend, s.receiptSafe);
        Assign(failed.0);
        return failed.1, false;
      }
      providerRequestCount := providerRequestCount + 1;
      sent := true;
      var settled := AfterSend(manifest, State(), s);
      Assign(settled.0);
      result := settled.1;
    }

    method BlockRemaining()
      requires Valid() && globalStopReason.Some?
      modifies this
      ensures Valid()
      ensures State() == BlockRest(manifest, old(State())) && |receipts| == MAX_PLANNED_ATTEMPTS
    {
      hide ValidState, BlockedReceipt;
      BlockRestKeeps(manifest, State());
      while |receipts| < MAX_PLANNED_ATTEMPTS
        invariant Valid() && globalStopReason.Some?
        invariant BlockRest(manifest, State()) == BlockRest(manifest, old(State()))
        decreases MAX_PLANNED_ATTEMPTS - |receipts|
      {
        BlockKeeps(manifest, State());
        ghost var next := Append(State(), BlockedReceipt(manifest, State()));
        receipts := receipts + [BlockedReceipt(manifest, State())];
        assert State() == next;
      }
    }

    method RunAll(script: Script) returns (raised: Option<Refusal>)
      requires Valid()
      modifies this, store
      ensures Valid()
      ensures RunAllResult(State(), store.files, raised)
        == RunAllOutcome(manifest, setup, old(State()), old(store.files), script)
      ensures raised.None? ==> |receipts| == MAX_PLANNED_ATTEMPTS
    {
      hide RunNextOutcome, BlockRest, ErrorsCounted, RequestsCounted, BlockedSuffix;
      ghost var target := RunAllOutcome(manifest, setup, State(), store.files, script);
      RunAllKeeps(manifest, setup, State(), store.files, script);
      while |receipts| < MAX_PLANNED_ATTEMPTS
        invariant Valid()
        invariant target == RunAllOutcome(manifest, setup, State(), store.files, script)
        decreases MAX_PLANNED_ATTEMPTS - |receipts|
      {
        if globalStopReason.Some? {
          BlockRemaining();
          break;
        }
        var index := |receipts|;
        var (s, fault) := script(index);
        RunNextKeeps(manifest, setup, State(), store.files, manifest.plan[index].attemptId, s, fault);
        var result, sent := RunNext(manifest.plan[index].attemptId, s, fault);
        if result.Raised? {
          return Some(result.refusal);
        }
      }
      raised := None;
    }
  }
}
