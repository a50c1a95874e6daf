/** The receipt a blind evaluation leaves, `BlindEvalReceipt` of b2/blind_eval.py. */
module BlindReceipt {
  import opened Wrappers
  import opened HandoffBinding

  datatype Status = PASS | NOT_EVALUABLE | ERROR

  /** Text from outside: a token, a token between blanks, or anything else. */
  datatype Meta = Clean(token: Id) | Padded(token: Id) | Unclean

  datatype ErrorCode =
    | InvalidUtf8Input | LiveCallNotAuthorized | UnsupportedProtocol | InvalidRequestedModel | InvalidThinkingMode
    | InvalidReasoningEffort | InvalidReasoningConfiguration | MissingCredential
    | ProviderHttpError | InvalidProviderJson | InvalidProviderSchema | EmptyFinalContent | TransportError

  /** What was seen of the provider's answer: counts and digests, never text. */
  datatype Observation = Observation(
    httpStatus: Option<int>, resolvedModel: Option<Meta>, responseId: Option<Meta>, finishReason: Option<Meta>,
    reasoningBytes: Option<int>, reasoningDigest: Option<nat>,
    finalBytes: Option<int>, finalDigest: Option<nat>)

  const NOTHING_SEEN := Observation(None, None, None, None, None, None, None, None)

  /** `details` stands for times, labels, usage and the other fields nobody reads back. */
  datatype Receipt = Receipt(
    runId: Id, status: Status, requestedModel: Option<Meta>, context: Bytes, prompt: Bytes,
    rawDigest: Option<nat>, rawBytes: Option<int>, observed: Observation,
    attempts: int, retries: int, score: Option<int>, errorCode: Option<ErrorCode>,
    gitCommit: Option<Id>, details: nat)

  /** `as_dict` raises unless this holds. */
  predicate Renderable(r: Receipt) {
    (r.attempts == 0 || r.attempts == 1) && r.retries == 0 && r.score.None?
    && if r.status == PASS then
         r.attempts == 1 && r.rawDigest.Some? && r.rawBytes.Some?
         && r.observed.finalDigest == r.rawDigest && r.observed.finalBytes == r.rawBytes
       else r.rawDigest.None? && r.rawBytes.None?
  }

  function ExitCode(s: Status): int {
    match s
    case PASS => 0
    case NOT_EVALUABLE => 2
    case ERROR => 3
  }
}
