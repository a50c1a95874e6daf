/** `HandoffBinding` of b2/blind_handoff.py, and bytes known by digest and length. */
module HandoffBinding {
  type Id = nat

  /** The digest is injective, so it stands for the bytes themselves. */
  datatype Bytes = Bytes(digest: nat, size: nat)

  datatype Mode = Smoke | Live

  /** `context` and `prompt` carry fingerprint and length; `terms` stands for the
      identifiers that are only compared as part of the whole binding. */
  datatype Binding = Binding(
    inputKey: Id, returnKey: Id, context: Bytes, prompt: Bytes,
    mode: Mode, evaluationRun: Id, bridgeMain: Id, issued: int, expires: int, terms: nat)

  const MAX_TTL_SECONDS := 6 * 60 * 60
  const MAX_CLOCK_SKEW_SECONDS := 5 * 60

  /** `validate`. */
  predicate Valid(b: Binding) {
    b.context.size > 0 && b.prompt.size > 0 && b.issued > 0 && b.expires > 0
    && 0 < b.expires - b.issued <= MAX_TTL_SECONDS
  }

  /** `validate_fresh`. */
  predicate Fresh(b: Binding, now: int) {
    Valid(b) && now > 0 && b.issued <= now + MAX_CLOCK_SKEW_SECONDS && now < b.expires
  }
}
