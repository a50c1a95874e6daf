/** Live result bundles of b2/blind_handoff.py: the checks on the receipt, the
    archive built from it, and its way back through a return envelope. */
module HandoffResults {
  import opened Wrappers
  import opened HandoffBinding
  import opened HandoffArtifacts
  import opened BlindReceipt

  /** A parsed receipt; `complete` says no required field is missing, `bodies` that
      it carries a field no receipt may carry. */
  datatype Document = Document(receipt: Receipt, complete: bool, bodies: bool)

  /** JSON and decimal text. */
  datatype TextCodec = TextCodec(
    parse: Bytes -> Option<Document>, render: Receipt -> Bytes, parseExit: Bytes -> Option<int>, exitText: int -> Bytes)

  /** The text of this receipt, and of its exit code, reads back as what was written. */
  predicate ReadsBack(t: TextCodec, r: Receipt) {
    t.parse(t.render(r)) == Some(Document(r, true, false))
    && t.parseExit(t.exitText(ExitCode(r.status))) == Some(ExitCode(r.status))
  }

  datatype Rejection =
    | StaleBinding | NotLive | NotJson | MissingFields | Mismatch | PrivateBody | Unsanitized | NegativeCount
    | NoRawAnswer | RawMismatch | UnexpectedRaw | UnexpectedEvidence | EmptyFinalHash | StdoutDisagrees
    | BadExitCode | BadArchive(error: Error)

  /** `_load_json_bytes`. */
  function Load(t: TextCodec, value: Bytes): Option<Document> {
    if value.size > MAX_ENVELOPE_BYTES then None else t.parse(value)
  }

  predicate Sanitized(m: Option<Meta>) {
    m.Some? ==> m.value.Clean?
  }

  predicate NonNegative(n: Option<int>) {
    n.Some? ==> n.value >= 0
  }

  predicate MatchesBinding(r: Receipt, b: Binding) {
    r.runId == b.evaluationRun && r.context == b.context && r.prompt == b.prompt
    && r.attempts == 1 && r.retries == 0 && r.gitCommit == Some(b.bridgeMain) && r.score.None?
  }

  /** `_validate_live_receipt`. */
  function ValidateLiveReceipt(t: TextCodec, receiptText: Bytes, raw: Option<Bytes>, b: Binding): Result<Document, Rejection> {
    if Load(t, receiptText).None? then Err(NotJson)
    else
      var d := Load(t, receiptText).value;
      var r := d.receipt;
      if !d.complete then Err(MissingFields)
      else if !MatchesBinding(r, b) then Err(Mismatch)
      else if d.bodies then Err(PrivateBody)
      else if !(Sanitized(r.requestedModel) && Sanitized(r.observed.resolvedModel)
                && Sanitized(r.observed.responseId) && Sanitized(r.observed.finishReason)) then Err(Unsanitized)
      else if !(NonNegative(r.observed.reasoningBytes) && NonNegative(r.observed.finalBytes)) then Err(NegativeCount)
      else if r.status == PASS then
        if raw.None? then Err(NoRawAnswer)
        else if r.rawDigest != Some(raw.value.digest) || r.rawBytes != Some(raw.value.size)
                || r.observed.finalDigest != r.rawDigest || r.observed.finalBytes != r.rawBytes then Err(RawMismatch)
        else Ok(d)
      else if raw.Some? then Err(UnexpectedRaw)
      else if r.rawDigest.Some? || r.rawBytes.Some? then Err(UnexpectedEvidence)
      else if r.errorCode == Some(EmptyFinalContent) && r.observed.finalDigest.Some? then Err(EmptyFinalHash)
      else Ok(d)
  }

  function ResultFiles(exitText: Bytes, stdout: Bytes, raw: Option<Bytes>, receiptText: Bytes): Files {
    [Entry("bridge-exit-code.txt", exitText), Entry("bridge-stdout.json", stdout)]
    + (if raw.Some? then [Entry("raw-answer.txt", raw.value)] else [])
    + [Entry("receipt.json", receiptText)]
  }

  function ResultNames(raw: bool): set<string> {
    {"bridge-exit-code.txt", "bridge-stdout.json", "receipt.json"} + if raw then {"raw-answer.txt"} else {}
  }

  lemma ResultEntries(exitText: Bytes, stdout: Bytes, raw: Option<Bytes>, receiptText: Bytes)
    ensures var files := ResultFiles(exitText, stdout, raw, receiptText);
            Distinct(files) && Names(files) == ResultNames(raw.Some?)
            && Lookup(files, "receipt.json") == Some(receiptText) && Lookup(files, "raw-answer.txt") == raw
  {
    var files := ResultFiles(exitText, stdout, raw, receiptText);
    assert files[0].name[7] == 'e' && files[1].name[7] == 's' && files[0].name[0] == 'b' && files[1].name[0] == 'b';
    assert files[|files| - 1].name[0] == 'r' && files[|files| - 1].name[1] == 'e';
    assert raw.Some? ==> files[2].name[0] == 'r' && files[2].name[1] == 'a';
    assert Distinct(files);
    assert files[0] in files && files[1] in files && files[|files| - 1] in files && (raw.Some? ==> files[2] in files);
    LookupAt(files, |files| - 1);
    if raw.Some? {
      LookupAt(files, 2);
      forall e | e in files ensures e.name in ResultNames(true) {
      }
    } else {
      NotListed(files, "raw-answer.txt");
      forall e | e in files ensures e.name in ResultNames(false) {
      }
    }
  }

  lemma {:induction false} NotListed(files: Files, name: string)
    requires forall i | 0 <= i < |files| :: files[i].name != name
    ensures Lookup(files, name) == None
  {
    if files != [] { NotListed(files[1..], name); }
  }

  /** `build_live_result_bundle`. */
  function BuildLive(c: Codec, t: TextCodec, now: int, b: Binding,
                     receiptText: Bytes, raw: Option<Bytes>, stdout: Bytes, exitText: Bytes): Result<Bytes, Rejection>
  {
    if !Fresh(b, now) then Err(StaleBinding)
    else if b.mode != Live then Err(NotLive)
    else match ValidateLiveReceipt(t, receiptText, raw, b)
      case Err(e) => Err(e)
      case Ok(d) =>
        if Load(t, stdout) != Some(d) then Err(StdoutDisagrees)
        else if t.parseExit(exitText) != Some(ExitCode(d.receipt.status)) then Err(BadExitCode)
        else
          ResultEntries(t.exitText(ExitCode(d.receipt.status)), stdout, raw, receiptText);
          match BuildArchive(c, ResultPackage, b, ResultFiles(t.exitText(ExitCode(d.receipt.status)), stdout, raw, receiptText))
            case Err(e) => Err(BadArchive(e))
            case Ok(value) => Ok(value)
  }

  /** `verify_result_bundle` for a live binding. */
  function VerifyLive(c: Codec, t: TextCodec, now: int, b: Binding, bundle: Bytes): Result<(Files, Document), Rejection> {
    if !Fresh(b, now) then Err(StaleBinding)
    else if c.unzip(bundle).None? then Err(BadArchive(NotAnArchive))
    else match ReadArchive(c, bundle, ResultPackage, b, ResultNames("raw-answer.txt" in Names(c.unzip(bundle).value.members)))
      case Err(e) => Err(BadArchive(e))
      case Ok(files) =>
        if Lookup(files, "receipt.json").None? then Err(MissingFields)
        else match ValidateLiveReceipt(t, Lookup(files, "receipt.json").value, Lookup(files, "raw-answer.txt"), b)
          case Err(e) => Err(e)
          case Ok(d) => Ok((files, d))
  }

  lemma ValidatedIsLoaded(t: TextCodec, receiptText: Bytes, raw: Option<Bytes>, b: Binding)
    ensures var v := ValidateLiveReceipt(t, receiptText, raw, b); v.Ok? ==> Load(t, receiptText) == Some(v.value)
  {
  }

  /** A built bundle verifies, file for file and with the receipt it was built from,
      exactly while the binding is fresh and the unpacked files fit. */
  lemma BundleRoundTrip(c: Codec, t: TextCodec, now: int, later: int, b: Binding,
                        receiptText: Bytes, raw: Option<Bytes>, stdout: Bytes, exitText: Bytes, bundle: Bytes, d: Document)
    requires BuildLive(c, t, now, b, receiptText, raw, stdout, exitText) == Ok(bundle)
    requires Load(t, receiptText) == Some(d)
    requires Restores(c, Packed(ResultPackage, b, ResultFiles(t.exitText(ExitCode(d.receipt.status)), stdout, raw, receiptText)))
    ensures var files := ResultFiles(t.exitText(ExitCode(d.receipt.status)), stdout, raw, receiptText);
            VerifyLive(c, t, later, b, bundle) == Ok((files, d)) <==> Fresh(b, later) && Unzips(c, ResultPackage, b, files)
  {
    hide ResultFiles, BuildArchive, ReadArchive, Unzips, Lookup, ResultNames, InventoryOf, ValidateLiveReceipt;
    ValidatedIsLoaded(t, receiptText, raw, b);
    var files := ResultFiles(t.exitText(ExitCode(d.receipt.status)), stdout, raw, receiptText);
    ResultEntries(t.exitText(ExitCode(d.receipt.status)), stdout, raw, receiptText);
    BuiltArchive(c, b, files, bundle);
    ReadIsInverseOfBuild(c, bundle, ResultPackage, b, files);
    RawIsListed(files, raw);
  }

  lemma BuiltArchive(c: Codec, b: Binding, files: Files, bundle: Bytes)
    requires Restores(c, Packed(ResultPackage, b, files)) && Distinct(files) && BuildArchive(c, ResultPackage, b, files) == Ok(bundle)
    ensures c.unzip(bundle) == Some(Packed(ResultPackage, b, files))
  {
  }

  lemma RawIsListed(files: Files, raw: Option<Bytes>)
    requires Distinct(files) && Names(files) == ResultNames(raw.Some?)
    ensures "raw-answer.txt" in Names(files) <==> raw.Some?
  {
    assert "raw-answer.txt"[0] == 'r' && "bridge-exit-code.txt"[0] == 'b' && "bridge-stdout.json"[0] == 'b';
    assert "raw-answer.txt"[1] == 'a' && "receipt.json"[1] == 'e';
  }

  /** The whole way of a result: bundled, sealed, opened and verified. */
  lemma ResultRoundTrip(c: Codec, t: TextCodec, now: int, later: int, b: Binding, returnPem: Bytes,
                        receiptText: Bytes, raw: Option<Bytes>, stdout: Bytes, exitText: Bytes,
                        bundle: Bytes, d: Document, e: ReturnEnvelope)
    requires BuildLive(c, t, now, b, receiptText, raw, stdout, exitText) == Ok(bundle)
    requires Load(t, receiptText) == Some(d)
    requires Restores(c, Packed(ResultPackage, b, ResultFiles(t.exitText(ExitCode(d.receipt.status)), stdout, raw, receiptText)))
    requires EncryptReturn(c, now, returnPem, EncryptedResult, b, bundle) == Ok(e)
    ensures var files := ResultFiles(t.exitText(ExitCode(d.receipt.status)), stdout, raw, receiptText);
            var plain := DecryptReturn(c, later, b.returnKey, e, EncryptedResult, b);
            (plain.Ok? && VerifyLive(c, t, later, b, plain.value) == Ok((files, d)))
            <==> Fresh(b, later) && EnvelopeSize(c, b, bundle.size) <= MAX_ENVELOPE_BYTES && Unzips(c, ResultPackage, b, files)
  {
    hide VerifyLive, EncryptReturn, DecryptReturn, Unzips, ResultFiles;
    assert bundle.size > 0 by { BuiltBundleIsNotEmpty(c, t, now, b, receiptText, raw, stdout, exitText, bundle, d); }
    ReturnRoundTrip(c, now, later, returnPem, EncryptedResult, b, bundle, e);
    OpenedReturnIsSealed(c, now, later, returnPem, b, bundle, e);
    BundleRoundTrip(c, t, now, later, b, receiptText, raw, stdout, exitText, bundle, d);
  }

  lemma BuiltBundleIsNotEmpty(c: Codec, t: TextCodec, now: int, b: Binding,
                              receiptText: Bytes, raw: Option<Bytes>, stdout: Bytes, exitText: Bytes, bundle: Bytes, d: Document)
    requires BuildLive(c, t, now, b, receiptText, raw, stdout, exitText) == Ok(bundle)
    requires Load(t, receiptText) == Some(d)
    requires Restores(c, Packed(ResultPackage, b, ResultFiles(t.exitText(ExitCode(d.receipt.status)), stdout, raw, receiptText)))
    ensures bundle.size > 0
  {
    hide ResultFiles, ValidateLiveReceipt, InventoryOf;
    ValidatedIsLoaded(t, receiptText, raw, b);
  }

  lemma OpenedReturnIsSealed(c: Codec, now: int, later: int, returnPem: Bytes, b: Binding, plain: Bytes, e: ReturnEnvelope)
    requires EncryptReturn(c, now, returnPem, EncryptedResult, b, plain) == Ok(e)
    ensures DecryptReturn(c, later, b.returnKey, e, EncryptedResult, b).Ok? ==>
              DecryptReturn(c, later, b.returnKey, e, EncryptedResult, b).value == plain
  {
  }

  /** Complete, without private bodies, with only sanitized tokens and counts. */
  predicate PublicSafe(d: Document) {
    d.complete && !d.bodies
    && Sanitized(d.receipt.requestedModel) && Sanitized(d.receipt.observed.resolvedModel)
    && Sanitized(d.receipt.observed.responseId) && Sanitized(d.receipt.observed.finishReason)
    && NonNegative(d.receipt.observed.reasoningBytes) && NonNegative(d.receipt.observed.finalBytes)
  }

  /** A verified live bundle holds a public-safe receipt of one provider attempt for
      this very binding, and a raw answer exactly when the receipt says PASS, the one
      the receipt describes; an empty final content has no digest. */
  lemma VerifiedBundleIsBound(c: Codec, t: TextCodec, now: int, b: Binding, bundle: Bytes, files: Files, d: Document)
    requires VerifyLive(c, t, now, b, bundle) == Ok((files, d))
    ensures c.unzip(bundle) == Some(Packed(ResultPackage, b, files))
    ensures MatchesBinding(d.receipt, b) && PublicSafe(d) && Renderable(d.receipt)
    ensures d.receipt.status != PASS && d.receipt.errorCode == Some(EmptyFinalContent) ==> d.receipt.observed.finalDigest.None?
    ensures d.receipt.status == PASS <==> Lookup(files, "raw-answer.txt").Some?
    ensures d.receipt.status == PASS ==>
              var raw := Lookup(files, "raw-answer.txt").value;
              d.receipt.rawDigest == Some(raw.digest) && d.receipt.rawBytes == Some(raw.size)
  {
    hide ReadArchive, Lookup, Load;
    ReadIsSound(c, bundle, ResultPackage, b, ResultNames("raw-answer.txt" in Names(c.unzip(bundle).value.members)), files);
  }
}
