/** One planned attempt of b2/bm1.py: manifest, prices, scorer, receipt, and the
    pure transitions `run_next` makes on the runner's fields. */
module Bm1Attempt {
  import opened Wrappers

  const MAX_PLANNED_ATTEMPTS: nat := 4
  const MAX_INPUT_TOKENS: nat := 8000
  const MAX_OUTPUT_TOKENS: nat := 2000
  const MAX_TOTAL_SPEND: real := 0.20
  const SLACK: real := 0.000000000001
  const LOCAL_ERROR_LIMIT: nat := 2

  datatype ProviderId = OpenAI | Google
  datatype Pricing = Pricing(input: real, output: real)
  datatype Provider = Provider(id: ProviderId, modelId: string, pricing: Pricing)
  datatype Decision = Decline | Help
  datatype Attempt = Attempt(attemptId: string, providerId: ProviderId, expected: Decision)
  datatype Manifest = Manifest(openai: Provider, google: Provider, plan: seq<Attempt>) {
    function ProviderOf(attempt: Attempt): Provider {
      if attempt.providerId.OpenAI? then openai else google
    }

    /** The part of `validate_manifest` the runner relies on. Prices are only
        required to be numbers. */
    predicate Accepted() {
      && openai.id == OpenAI && google.id == Google
      && |plan| == MAX_PLANNED_ATTEMPTS
      && plan[0].providerId == OpenAI && plan[1].providerId == OpenAI
      && plan[2].providerId == Google && plan[3].providerId == Google
      && (forall i | 0 <= i < |plan| :: plan[i].attemptId != "")
      && (forall i, j | 0 <= i < j < |plan| :: plan[i].attemptId != plan[j].attemptId)
    }

    predicate NonNegativePrices() {
      NonNegative(openai.pricing) && NonNegative(google.pricing)
    }
  }

  predicate NonNegative(p: Pricing) {
    p.input >= 0.0 && p.output >= 0.0
  }

  // ---- cost ---------------------------------------------------------------

  datatype CostResult = Cost(amount: Option<real>) | TokenGuard

  function CostOf(p: Pricing, inputTokens: Option<nat>, outputTokens: Option<nat>): CostResult {
    if inputTokens.None? || outputTokens.None? then Cost(None)
    else if inputTokens.value > MAX_INPUT_TOKENS || outputTokens.value > MAX_OUTPUT_TOKENS then TokenGuard
    else Cost(Some(Charge(p, inputTokens.value, outputTokens.value)))
  }

  function Charge(p: Pricing, inputTokens: nat, outputTokens: nat): real {
    (inputTokens as real * p.input + outputTokens as real * p.output) / 1000000.0
  }

  /** What the pre-send guard sets aside for one attempt. */
  function WorstCase(p: Pricing): real {
    Charge(p, MAX_INPUT_TOKENS, MAX_OUTPUT_TOKENS)
  }

  lemma ChargeIsMonotone(p: Pricing, i: nat, j: nat, k: nat, l: nat)
    requires NonNegative(p) && i <= k && j <= l
    ensures Charge(p, i, j) <= Charge(p, k, l)
  {
    assert (k - i) as real * p.input >= 0.0 && (l - j) as real * p.output >= 0.0;
  }

  /** The amount set aside covers every cost the runner can attribute to an
      attempt exactly when neither price is negative. */
  lemma ReserveCoversCostIff(p: Pricing)
    ensures (forall i: Option<nat>, o: Option<nat> ::
               CostOf(p, i, o).Cost? && CostOf(p, i, o).amount.Some?
               ==> CostOf(p, i, o).amount.value <= WorstCase(p))
            <==> NonNegative(p)
  {
    if NonNegative(p) {
      forall i: Option<nat>, o: Option<nat> | CostOf(p, i, o).Cost? && CostOf(p, i, o).amount.Some?
        ensures CostOf(p, i, o).amount.value <= WorstCase(p)
      {
        ChargeIsMonotone(p, i.value, o.value, MAX_INPUT_TOKENS, MAX_OUTPUT_TOKENS);
      }
    } else if p.input < 0.0 {
      var c := CostOf(p, Some(0), Some(MAX_OUTPUT_TOKENS));
      assert c.amount.value > WorstCase(p);
    } else {
      var c := CostOf(p, Some(MAX_INPUT_TOKENS), Some(0));
      assert c.amount.value > WorstCase(p);
    }
  }

  // ---- scoring ------------------------------------------------------------

  /** A final text by what the scorer can make of it. */
  datatype FinalText = Blank | Unparsable | Decides(decision: Decision)

  datatype LocalReason =
    | ProviderError | NetworkError | RuntimeError
    | EmptyFinalContent | IdentityNotAuditable | ScorerNotEvaluable

  datatype StopReason =
    | CostCeilingGuard | LiveAuthorizationStop | LivePreProviderStop
    | SecretLeakSuspected | EvidenceWriteError | SecondProviderLocalError

  /** `Local` holds the reasons of `_PROVIDER_LOCAL_FAILURES` the runner can produce. */
  datatype Reason = ExpectedDecision | WrongDecision | Local(local: LocalReason) | Stop(stop: StopReason)

  datatype Terminal = PASS | FAIL | NOT_EVALUABLE | ERROR | BLOCKED

  datatype ProviderTerminal = SUCCESS | PROVIDER_ERROR | NETWORK_ERROR | RUNTIME_ERROR

  datatype Normalized = Normalized(
    terminal: ProviderTerminal,
    resolvedModelId: Option<string>,
    finalText: Option<FinalText>,
    inputTokens: Option<nat>,
    outputTokens: Option<nat>)

  const NETWORK_FAILURE := Normalized(NETWORK_ERROR, None, None, None, None)
  const RUNTIME_FAILURE := Normalized(RUNTIME_ERROR, None, None, None, None)

  function Score(expected: Decision, text: FinalText): (Terminal, Reason) {
    match text
    case Decides(d) => if d == expected then (PASS, ExpectedDecision) else (FAIL, WrongDecision)
    case _ => (NOT_EVALUABLE, Local(ScorerNotEvaluable))
  }

  function Verdict(provider: Provider, expected: Decision, n: Normalized): (Terminal, Reason) {
    match n.terminal
    case PROVIDER_ERROR => (ERROR, Local(ProviderError))
    case NETWORK_ERROR => (ERROR, Local(NetworkError))
    case RUNTIME_ERROR => (ERROR, Local(RuntimeError))
    case SUCCESS =>
      if n.resolvedModelId != Some(provider.modelId) then (NOT_EVALUABLE, Local(IdentityNotAuditable))
      else if n.finalText.None? || n.finalText.value.Blank? then (NOT_EVALUABLE, Local(EmptyFinalContent))
      else Score(expected, n.finalText.value)
  }

  // ---- receipts and runner state ------------------------------------------

  datatype Receipt = Receipt(
    attemptId: string,
    providerId: ProviderId,
    terminal: Terminal,
    reason: Reason,
    claimed: bool,
    evidence: bool,
    cost: Option<real>)

  function MakeReceipt(m: Manifest, attempt: Attempt, normalized: Option<Normalized>, evidence: bool,
                       claimed: bool, terminal: Terminal, reason: Reason): Receipt
  {
    var cost := if normalized.None? then Cost(None)
                else CostOf(m.ProviderOf(attempt).pricing, normalized.value.inputTokens, normalized.value.outputTokens);
    Receipt(attempt.attemptId, attempt.providerId, terminal, reason, claimed, evidence,
            if cost.Cost? then cost.amount else None)
  }

  /** The mutable fields of `BM1Runner`. */
  datatype RunnerState = RunnerState(
    receipts: seq<Receipt>,
    requests: nat,
    localErrors: nat,
    stop: Option<StopReason>)

  const FRESH := RunnerState([], 0, 0, None)

  datatype Refusal = GlobalStop | AuthorizationError | ContractError | ReceiptRejected

  /** What the surroundings do during one call of `run_next`. A `safe` flag says
      whether `assert_public_safe` accepts the receipt built at that place. */
  datatype Gate = GatePass | GateAuthorizationError | GateOtherError
  datatype SendOutcome =
    | Response(secret: bool, normalized: Option<Normalized>)  // None: normalisation raised
    | TimedOut
    | NetworkFailed
    | AuthorizationLost
    | OtherFailure
  datatype Surroundings = Surroundings(
    entryGate: Gate, preSend: Gate, send: SendOutcome,
    secretReceiptSafe: bool, evidenceWritten: bool, receiptSafe: bool)

  function Append(st: RunnerState, r: Receipt): RunnerState {
    st.(receipts := st.receipts + [r])
  }

  function Remaining(m: Manifest, i: nat): real
    decreases |m.plan| - i
  {
    if i >= |m.plan| then 0.0
    else WorstCase(m.ProviderOf(m.plan[i]).pricing) + Remaining(m, i + 1)
  }

  function Amount(r: Receipt): real {
    if r.cost.Some? then r.cost.value else 0.0
  }

  function Spent(receipts: seq<Receipt>): real {
    if receipts == [] then 0.0
    else Spent(receipts[..|receipts| - 1]) + Amount(receipts[|receipts| - 1])
  }

  predicate Affordable(m: Manifest, st: RunnerState) {
    Spent(st.receipts) + Remaining(m, |st.receipts|) <= MAX_TOTAL_SPEND + SLACK
  }

  datatype BeginResult = Proceed | Refuse(st: RunnerState, refusal: Refusal)

  /** Everything before the claim. `transports` is the set of providers the
      runner was given a transport for. */
  function Begin(m: Manifest, transports: set<ProviderId>, st: RunnerState, attemptId: string, gate: Gate): BeginResult
    requires m.Accepted()
  {
    if st.stop.Some? || |st.receipts| >= MAX_PLANNED_ATTEMPTS || st.requests >= MAX_PLANNED_ATTEMPTS then
      Refuse(st, GlobalStop)
    else
      var attempt := m.plan[|st.receipts|];
      if attemptId != attempt.attemptId then Refuse(st, ContractError)
      else if attempt.providerId !in transports then Refuse(st, ContractError)
      else if !Affordable(m, st) then Refuse(st.(stop := Some(CostCeilingGuard)), GlobalStop)
      else if gate.GateAuthorizationError? then Refuse(st, AuthorizationError)
      else if gate.GateOtherError? then Refuse(st, ContractError)
      else Proceed
  }

  datatype CallResult = Done(receipt: Receipt) | Raised(refusal: Refusal)

  function AppendOrRaise(st: RunnerState, r: Receipt, safe: bool): (RunnerState, CallResult) {
    if safe then (Append(st, r), Done(r)) else (st, Raised(ReceiptRejected))
  }

  /** The last gate before a live send failed: stop, leave an ERROR receipt, raise. */
  function FailBeforeSend(m: Manifest, st: RunnerState, gate: Gate, safe: bool): (RunnerState, CallResult)
    requires m.Accepted() && |st.receipts| < MAX_PLANNED_ATTEMPTS && !gate.GatePass?
  {
    var reason := if gate.GateAuthorizationError? then LiveAuthorizationStop else LivePreProviderStop;
    var stopped := st.(stop := Some(reason));
    var r := MakeReceipt(m, m.plan[|st.receipts|], None, false, true, ERROR, Stop(reason));
    (if safe then Append(stopped, r) else stopped,
     Raised(if !safe then ReceiptRejected else if gate.GateAuthorizationError? then AuthorizationError else GlobalStop))
  }

  /** Everything after the request counter was raised. */
  function AfterSend(m: Manifest, st: RunnerState, s: Surroundings): (RunnerState, CallResult)
    requires m.Accepted() && |st.receipts| < MAX_PLANNED_ATTEMPTS
  {
    match s.send
    case AuthorizationLost => (st.(stop := Some(LiveAuthorizationStop)), Raised(AuthorizationError))
    case TimedOut => Settle(m, st, NETWORK_FAILURE, s)
    case NetworkFailed => Settle(m, st, NETWORK_FAILURE, s)
    case OtherFailure => Settle(m, st, RUNTIME_FAILURE, s)
    case Response(secret, normalized) =>
      if secret then
        var stopped := st.(stop := Some(SecretLeakSuspected));
        var r := MakeReceipt(m, m.plan[|st.receipts|], None, false, true, ERROR, Stop(SecretLeakSuspected));
        // The receipt is built inside the `try`, so a rejected one is handled as a runtime error.
        if s.secretReceiptSafe then (Append(stopped, r), Done(r)) else Settle(m, stopped, RUNTIME_FAILURE, s)
      else
        Settle(m, st, if normalized.Some? then normalized.value else RUNTIME_FAILURE, s)
  }

  /** Evidence write, verdict, token guard, receipt and the local-error counter. */
  function Settle(m: Manifest, st: RunnerState, n: Normalized, s: Surroundings): (RunnerState, CallResult)
    requires m.Accepted() && |st.receipts| < MAX_PLANNED_ATTEMPTS
  {
    var attempt := m.plan[|st.receipts|];
    var provider := m.ProviderOf(attempt);
    if !s.evidenceWritten then
      var r := MakeReceipt(m, attempt, Some(n), false, true, ERROR, Stop(EvidenceWriteError));
      AppendOrRaise(st.(stop := Some(EvidenceWriteError)), r, s.receiptSafe)
    else if CostOf(provider.pricing, n.inputTokens, n.outputTokens).TokenGuard? then
      var r := MakeReceipt(m, attempt, Some(n), true, true, ERROR, Stop(CostCeilingGuard));
      AppendOrRaise(st.(stop := Some(CostCeilingGuard)), r, s.receiptSafe)
    else
      var (terminal, reason) := Verdict(provider, attempt.expected, n);
      var r := MakeReceipt(m, attempt, Some(n), true, true, terminal, reason);
      if !s.receiptSafe then (st, Raised(ReceiptRejected))
      else if reason.Local? then
        var counted := Append(st, r).(localErrors := st.localErrors + 1);
        (if counted.localErrors >= LOCAL_ERROR_LIMIT
         then counted.(stop := Some(SecondProviderLocalError)) else counted, Done(r))
      else (Append(st, r), Done(r))
  }

  function BlockedReceipt(m: Manifest, st: RunnerState): Receipt
    requires m.Accepted() && |st.receipts| < MAX_PLANNED_ATTEMPTS && st.stop.Some?
  {
    MakeReceipt(m, m.plan[|st.receipts|], None, false, false, BLOCKED, Stop(st.stop.value))
  }
}
