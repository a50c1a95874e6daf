/** The evaluation bridge of b2/blind_eval.py as a function of its request and of
    whatever the provider does, and the fate of its receipt in the handoff. */
module BlindBridge {
  import opened Wrappers
  import opened HandoffBinding
  import opened HandoffArtifacts
  import opened BlindReceipt
  import opened HandoffResults

  // ---- what a provider can answer -----------------------------------------

  /** Decoded JSON text; lone surrogates cannot be encoded back to bytes. `blank`
      says that nothing remains after stripping white space. */
  datatype Text = Text(encoded: Option<Bytes>, blank: bool)

  /** A message field: not there, there without text, or text. */
  datatype Field = Absent | NoText | Has(text: Text)

  datatype Body =
    | NotJson
    | NotObject
    | NoChoices(model: Meta, id: Meta)
    | NoMessage(model: Meta, id: Meta, finish: Meta)
    | Message(model: Meta, id: Meta, finish: Meta, reasoning: Field, content: Field)

  datatype Reply = Reply(status: int, body: Body)

  /** `_safe_provider_metadata`. */
  function SafeMeta(m: Meta): Option<Meta> {
    if m.Unclean? then None else Some(Clean(m.token))
  }

  /** `_content_evidence`: length and digest of a field, or the encoding error. */
  function Evidence(f: Field): Result<(Option<int>, Option<nat>), ()> {
    match f
    case Absent => Ok((None, None))
    case NoText => Ok((Some(0), None))
    case Has(text) =>
      if text.encoded.None? then Err(())
      else Ok((Some(text.encoded.value.size), if text.blank then None else Some(text.encoded.value.digest)))
  }

  datatype Call =
    | Answered(raw: Bytes, observed: Observation)
    | Failed(code: ErrorCode, observed: Observation)

  /** `_invoke_openai_compatible` and the two handlers around it. */
  function Invoke(outcome: Option<Reply>): Call {
    if outcome.None? then Failed(TransportError, NOTHING_SEEN)
    else
      var r := outcome.value;
      var seen := NOTHING_SEEN.(httpStatus := Some(r.status));
      if r.status < 200 || r.status >= 300 then Failed(ProviderHttpError, seen)
      else match r.body
        case NotJson => Failed(InvalidProviderJson, seen)
        case NotObject => Failed(InvalidProviderSchema, seen)
        case NoChoices(model, id) =>
          Failed(InvalidProviderSchema, seen.(resolvedModel := SafeMeta(model), responseId := SafeMeta(id)))
        case NoMessage(model, id, finish) =>
          Failed(InvalidProviderSchema,
                 seen.(resolvedModel := SafeMeta(model), responseId := SafeMeta(id), finishReason := SafeMeta(finish)))
        case Message(model, id, finish, reasoning, content) =>
          if Evidence(reasoning).Err? || Evidence(content).Err? then Failed(TransportError, NOTHING_SEEN)
          else
            var observed := Observation(
              Some(r.status), SafeMeta(model), SafeMeta(id), SafeMeta(finish),
              Evidence(reasoning).value.0, Evidence(reasoning).value.1, Evidence(content).value.0, Evidence(content).value.1);
            if !content.Has? || content.text.blank then Failed(EmptyFinalContent, observed)
            else Answered(content.text.encoded.value, observed)
  }

  // ---- the bridge ---------------------------------------------------------

  datatype Thinking = NoThinking | Enabled | Disabled | UnknownThinking
  datatype Effort = NoEffort | KnownEffort | UnknownEffort

  datatype Request = Request(
    runId: Id, supportedProtocol: bool, model: Meta, context: Bytes, prompt: Bytes, utf8: bool,
    thinking: Thinking, effort: Effort, gitCommit: Option<Id>, details: nat)

  function MakeReceipt(q: Request, s: Status, raw: Option<Bytes>, attempts: int, observed: Observation, e: Option<ErrorCode>): Receipt {
    Receipt(q.runId, s, SafeMeta(q.model), q.context, q.prompt,
            if raw.Some? then Some(raw.value.digest) else None, if raw.Some? then Some(raw.value.size) else None,
            observed, attempts, 0, None, e, q.gitCommit, q.details)
  }

  /** Why no attempt is made, in the order of the checks. */
  function Refusal(q: Request, authorized: bool, credential: bool): Option<(Status, ErrorCode)> {
    if !q.utf8 then Some((Status.ERROR, InvalidUtf8Input))
    else if !authorized then Some((NOT_EVALUABLE, LiveCallNotAuthorized))
    else if !q.supportedProtocol then Some((NOT_EVALUABLE, UnsupportedProtocol))
    else if SafeMeta(q.model) != Some(q.model) then Some((NOT_EVALUABLE, InvalidRequestedModel))
    else if q.thinking == UnknownThinking then Some((NOT_EVALUABLE, InvalidThinkingMode))
    else if q.effort == UnknownEffort then Some((NOT_EVALUABLE, InvalidReasoningEffort))
    else if q.effort != NoEffort && q.thinking != Enabled then Some((NOT_EVALUABLE, InvalidReasoningConfiguration))
    else if !credential then Some((NOT_EVALUABLE, MissingCredential))
    else None
  }

  /** `run_blind_eval`: the receipt and the private raw answer. */
  function RunBlindEval(q: Request, authorized: bool, credential: bool, outcome: Option<Reply>): (Receipt, Option<Bytes>) {
    var refusal := Refusal(q, authorized, credential);
    if refusal.Some? then
      (MakeReceipt(q, refusal.value.0, None, 0, NOTHING_SEEN, Some(refusal.value.1)), None)
    else match Invoke(outcome)
      case Failed(code, observed) => (MakeReceipt(q, NOT_EVALUABLE, None, 1, observed, Some(code)), None)
      case Answered(raw, observed) => (MakeReceipt(q, PASS, Some(raw), 1, observed, None), Some(raw))
  }

  // ---- the receipt's own checks -------------------------------------------

  /** Every condition for making the one provider call. */
  predicate Callable(q: Request, authorized: bool, credential: bool) {
    q.utf8 && authorized && q.supportedProtocol && q.model.Clean? && q.thinking != UnknownThinking
    && (q.effort == NoEffort || (q.effort == KnownEffort && q.thinking == Enabled)) && credential
  }

  /** A reply that carries an answer: a success with a final text that is not blank,
      and nothing in it that cannot be encoded. */
  predicate CarriesAnswer(outcome: Option<Reply>) {
    outcome.Some? && 200 <= outcome.value.status < 300 && outcome.value.body.Message?
    && var body := outcome.value.body;
       body.content.Has? && !body.content.text.blank && body.content.text.encoded.Some?
       && (body.reasoning.Has? ==> body.reasoning.text.encoded.Some?)
  }

  /** Whatever the request and the provider: the receipt renders, an attempt is
      recorded exactly when the provider was called, and PASS, with the reply's own
      bytes as raw answer, is recorded exactly for a reply that carries an answer. */
  lemma EveryReceiptRenders(q: Request, authorized: bool, credential: bool, outcome: Option<Reply>)
    ensures var (receipt, raw) := RunBlindEval(q, authorized, credential, outcome);
            Renderable(receipt)
            && (receipt.attempts == 1 <==> Callable(q, authorized, credential))
            && (receipt.status == PASS <==> Callable(q, authorized, credential) && CarriesAnswer(outcome))
            && raw == (if receipt.status == PASS then outcome.value.body.content.text.encoded else None)
            && (receipt.status == PASS ==> receipt.rawDigest == Some(raw.value.digest) && receipt.rawBytes == Some(raw.value.size))
  {
    AnswersCarryEvidence(outcome);
    assert (SafeMeta(q.model) == Some(q.model)) <==> q.model.Clean?;
  }

  /** An answer is observed under its own digest and length. */
  lemma AnswersCarryEvidence(outcome: Option<Reply>)
    ensures match Invoke(outcome)
            case Answered(raw, observed) => observed.finalDigest == Some(raw.digest) && observed.finalBytes == Some(raw.size)
            case Failed(code, observed) => code == EmptyFinalContent ==> observed.finalDigest.None?
  {
  }

  lemma ObservationsAreClean(outcome: Option<Reply>)
    ensures var observed := Invoke(outcome).observed;
            Sanitized(observed.resolvedModel) && Sanitized(observed.responseId) && Sanitized(observed.finishReason)
            && NonNegative(observed.reasoningBytes) && NonNegative(observed.finalBytes)
  {
    if outcome.Some? && outcome.value.body.Message? {
      if Evidence(outcome.value.body.reasoning).Ok? { EvidenceCounts(outcome.value.body.reasoning); }
      if Evidence(outcome.value.body.content).Ok? { EvidenceCounts(outcome.value.body.content); }
    }
  }

  lemma EvidenceCounts(f: Field)
    requires Evidence(f).Ok?
    ensures NonNegative(Evidence(f).value.0)
  {
    if f.Has? { assert f.text.encoded.value.size >= 0; }
  }

  // ---- the receipt in the handoff -----------------------------------------

  /** The request the runner makes for a live binding. */
  predicate For(q: Request, b: Binding) {
    q.runId == b.evaluationRun && q.context == b.context && q.prompt == b.prompt && q.gitCommit == Some(b.bridgeMain)
  }

  /** The validator takes the bridge's own receipt exactly when an attempt was made. */
  lemma ReceiptValidates(t: TextCodec, q: Request, authorized: bool, credential: bool, outcome: Option<Reply>, b: Binding)
    requires ReadsBack(t, RunBlindEval(q, authorized, credential, outcome).0) && For(q, b)
    requires t.render(RunBlindEval(q, authorized, credential, outcome).0).size <= MAX_ENVELOPE_BYTES
    ensures var (receipt, raw) := RunBlindEval(q, authorized, credential, outcome);
            var verdict := ValidateLiveReceipt(t, t.render(receipt), raw, b);
            verdict == if receipt.attempts == 1 then Ok(Document(receipt, true, false)) else Err(Mismatch)
  {
    AnswersCarryEvidence(outcome);
    ObservationsAreClean(outcome);
    hide Invoke;
    var (receipt, raw) := RunBlindEval(q, authorized, credential, outcome);
  }

  /** What the result builder makes of a bridge run's own text, answer and archive. */
  function BundleVerdict(receipt: Receipt, text: Bytes, zipped: Bytes): Result<Bytes, Rejection> {
    if text.size > MAX_ENVELOPE_BYTES then Err(Rejection.NotJson)
    else if receipt.attempts != 1 then Err(Mismatch)
    else if zipped.size > MAX_ARCHIVE_BYTES then Err(BadArchive(TooLarge))
    else Ok(zipped)
  }

  /** For a fresh live binding the builder takes a bridge run exactly when the bridge made
      its attempt and the text of the receipt and the archive fit, and otherwise says why. */
  lemma BridgeOutputIsBundledIff(c: Codec, t: TextCodec, now: int, q: Request, authorized: bool, credential: bool,
                                 outcome: Option<Reply>, b: Binding)
    requires ReadsBack(t, RunBlindEval(q, authorized, credential, outcome).0) && For(q, b) && Fresh(b, now) && b.mode == Live
    ensures var (receipt, raw) := RunBlindEval(q, authorized, credential, outcome);
            var text, code := t.render(receipt), t.exitText(ExitCode(receipt.status));
            var files := ResultFiles(code, text, raw, text);
            var zipped := c.zip(Packed(ResultPackage, b, files));
            BuildLive(c, t, now, b, text, raw, text, code) == BundleVerdict(receipt, text, zipped)
  {
    var (receipt, raw) := RunBlindEval(q, authorized, credential, outcome);
    var text, code := t.render(receipt), t.exitText(ExitCode(receipt.status));
    hide RunBlindEval, ValidateLiveReceipt, Packed, BuildArchive, ResultFiles, For;
    if text.size <= MAX_ENVELOPE_BYTES {
      ReceiptValidates(t, q, authorized, credential, outcome, b);
      if receipt.attempts == 1 {
        var files := ResultFiles(code, text, raw, text);
        ResultEntries(code, text, raw, text);
        SafeResultNames(c, b, code, text, raw, text);
      }
    } else {
      assert BuildLive(c, t, now, b, text, raw, text, code) == Err(Rejection.NotJson) by { OversizedReceipt(t, text, raw, b); }
    }
  }

  /** Codecs under which a receipt has the given text and its archive the given ZIP. */
  lemma SomeCodecReadsBack(receipt: Receipt, raw: Option<Bytes>, b: Binding, text: Bytes, zipped: Bytes)
    returns (c: Codec, t: TextCodec)
    ensures ReadsBack(t, receipt) && t.render(receipt) == text
    ensures var files := ResultFiles(t.exitText(ExitCode(receipt.status)), text, raw, text);
            c.zip(Packed(ResultPackage, b, files)) == zipped
            && (zipped.size > 0 ==> Restores(c, Packed(ResultPackage, b, files)))
  {
    t := TextCodec(_ => Some(Document(receipt, true, false)), _ => text, _ => Some(ExitCode(receipt.status)), _ => Bytes(0, 1));
    var a := Packed(ResultPackage, b, ResultFiles(Bytes(0, 1), text, raw, text));
    c := Codec(_ => zipped, _ => Some(a), _ => 0, _ => 0, (id: Id) => Bytes(id, 1));
  }

  /** Whatever a paid attempt brought, any text and any archive can be the run's own
      under some codecs, and the builder refuses the large ones as unreadable or too large. */
  lemma PaidAnswersCanBeRefused(now: int, q: Request, authorized: bool, credential: bool, outcome: Option<Reply>,
                                b: Binding, text: Bytes, zipped: Bytes) returns (c: Codec, t: TextCodec)
    requires For(q, b) && Fresh(b, now) && b.mode == Live && Callable(q, authorized, credential)
    ensures var (receipt, raw) := RunBlindEval(q, authorized, credential, outcome);
            var code := t.exitText(ExitCode(receipt.status));
            ReadsBack(t, receipt) && t.render(receipt) == text && receipt.attempts == 1
            && c.zip(Packed(ResultPackage, b, ResultFiles(code, text, raw, text))) == zipped
            && BuildLive(c, t, now, b, text, raw, text, code)
               == if text.size > MAX_ENVELOPE_BYTES then Err(Rejection.NotJson)
                  else if zipped.size > MAX_ARCHIVE_BYTES then Err(BadArchive(TooLarge))
                  else Ok(zipped)
  {
    hide RunBlindEval, BuildLive, ResultFiles, Callable, For;
    EveryReceiptRenders(q, authorized, credential, outcome);
    var (receipt, raw) := RunBlindEval(q, authorized, credential, outcome);
    c, t := SomeCodecReadsBack(receipt, raw, b, text, zipped);
    BridgeOutputIsBundledIff(c, t, now, q, authorized, credential, outcome, b);
  }

  lemma OversizedReceipt(t: TextCodec, text: Bytes, raw: Option<Bytes>, b: Binding)
    requires text.size > MAX_ENVELOPE_BYTES
    ensures ValidateLiveReceipt(t, text, raw, b) == Err(Rejection.NotJson)
  {
  }

  lemma SafeResultNames(c: Codec, b: Binding, exitText: Bytes, stdout: Bytes, raw: Option<Bytes>, receiptText: Bytes)
    requires Distinct(ResultFiles(exitText, stdout, raw, receiptText))
    ensures var files := ResultFiles(exitText, stdout, raw, receiptText);
            var zipped := c.zip(Packed(ResultPackage, b, files));
            BuildArchive(c, ResultPackage, b, files) == if zipped.size > MAX_ARCHIVE_BYTES then Err(TooLarge) else Ok(zipped)
  {
    var files := ResultFiles(exitText, stdout, raw, receiptText);
    assert "manifest.json"[0] == 'm';
    forall e | e in files ensures SafeName(e.name) && e.name != "manifest.json" {
      assert e.name[0] == 'b' || e.name[0] == 'r';
    }
  }
}
