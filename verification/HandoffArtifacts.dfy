/** Archives and envelopes of b2/blind_handoff.py: what one side builds the other
    side reads back, exactly when the size bounds allow it. */
module HandoffArtifacts {
  import opened Wrappers
  import opened HandoffBinding

  const MAX_ENVELOPE_BYTES := 4 * 1024 * 1024
  const MAX_ARCHIVE_BYTES := 3 * 1024 * 1024
  const KEY_BYTES := 32
  const TAG_BYTES := 16

  datatype Entry = Entry(name: string, data: Bytes)

  /** A dictionary of files, listed by name. */
  type Files = seq<Entry>

  datatype ArchiveKind = InputPackage | ResultPackage

  /** The inventory holds digest and length of every file. */
  datatype Manifest = Manifest(kind: ArchiveKind, binding: Binding, inventory: map<string, Bytes>)
  datatype Archive = Archive(manifest: Manifest, members: Files)

  /** ZIP and JSON text, of which only lengths and invertibility matter. `around`
      is the length of an envelope's text without its ciphertext field. */
  datatype Codec = Codec(
    zip: Archive -> Bytes, unzip: Bytes -> Option<Archive>,
    manifestSize: Manifest -> nat, around: Binding -> nat, pem: Id -> Bytes)

  /** ZIP gives back this archive. */
  predicate Restores(c: Codec, a: Archive) {
    c.unzip(c.zip(a)) == Some(a) && c.zip(a).size > 0
  }

  datatype Error =
    | Stale | InvalidFiles | UnsafeName | TooLarge | NotAnArchive | DuplicateNames | MemberSet | MemberTooLarge
    | WrongKind | WrongBinding | WrongInventory | WrongFingerprint | KeyMismatch | InputMismatch | AckKeyLength
    | EmptyPlaintext

  // ---- archives -----------------------------------------------------------

  predicate SafeName(name: string) {
    name != "" && name != "." && name != ".." && '/' !in name
  }

  predicate Distinct(files: Files) {
    forall i, j | 0 <= i < j < |files| :: files[i].name != files[j].name
  }

  function Names(files: Files): set<string> {
    set e | e in files :: e.name
  }

  function TotalSize(files: Files): nat {
    if files == [] then 0 else files[0].data.size + TotalSize(files[1..])
  }

  function InventoryOf(files: Files): map<string, Bytes> {
    if files == [] then map[] else InventoryOf(files[..|files| - 1])[files[|files| - 1].name := files[|files| - 1].data]
  }

  /** What `_build_archive` puts into the ZIP file. */
  function Packed(kind: ArchiveKind, b: Binding, files: Files): Archive {
    Archive(Manifest(kind, b, InventoryOf(files)), files)
  }

  /** `_build_archive`; `files` is a dictionary, so its names differ. */
  function BuildArchive(c: Codec, kind: ArchiveKind, b: Binding, files: Files): Result<Bytes, Error>
    requires Distinct(files)
  {
    var zipped := c.zip(Packed(kind, b, files));
    if "manifest.json" in Names(files) || files == [] then Err(InvalidFiles)
    else if exists e :: e in files && !SafeName(e.name) then Err(UnsafeName)
    else if zipped.size > MAX_ARCHIVE_BYTES then Err(TooLarge)
    else Ok(zipped)
  }

  predicate Matches(inventory: map<string, Bytes>, files: Files) {
    forall e | e in files :: e.name in inventory && inventory[e.name] == e.data
  }

  predicate MembersFit(c: Codec, a: Archive) {
    (forall e | e in a.members :: e.data.size <= MAX_ARCHIVE_BYTES) && c.manifestSize(a.manifest) <= MAX_ARCHIVE_BYTES
    && c.manifestSize(a.manifest) + TotalSize(a.members) <= MAX_ARCHIVE_BYTES
  }

  /** `_read_archive`. */
  function ReadArchive(c: Codec, value: Bytes, kind: ArchiveKind, b: Binding, names: set<string>): Result<Files, Error> {
    if value.size > MAX_ARCHIVE_BYTES then Err(TooLarge)
    else if c.unzip(value).None? then Err(NotAnArchive)
    else
      var a := c.unzip(value).value;
      if !Distinct(a.members) || "manifest.json" in Names(a.members) then Err(DuplicateNames)
      else if Names(a.members) != names then Err(MemberSet)
      else if !MembersFit(c, a) then Err(MemberTooLarge)
      else if a.manifest.kind != kind then Err(WrongKind)
      else if !Valid(a.manifest.binding) || a.manifest.binding != b then Err(WrongBinding)
      else if a.manifest.inventory.Keys != names then Err(WrongInventory)
      else if !Matches(a.manifest.inventory, a.members) then Err(WrongFingerprint)
      else Ok(a.members)
  }

  lemma {:induction false} InventoryIsExact(files: Files)
    requires Distinct(files)
    ensures InventoryOf(files).Keys == Names(files) && Matches(InventoryOf(files), files)
  {
    if files != [] {
      var front, last := files[..|files| - 1], files[|files| - 1];
      InventoryIsExact(front);
      assert files == front + [last];
      forall e | e in files ensures e.name in InventoryOf(files) && InventoryOf(files)[e.name] == e.data {
        var i :| 0 <= i < |files| && files[i] == e;
        if i < |front| { assert front[i] == e && e in front; }
      }
      assert forall e | e in front :: e in files;
      assert last in files;
    }
  }

  lemma {:induction false} MemberWithinTotal(files: Files, e: Entry)
    requires e in files
    ensures e.data.size <= TotalSize(files)
  {
    if e != files[0] {
      MemberWithinTotal(files[1..], e);
    }
  }

  /** Two inventories of the same names that match the same files are equal. */
  lemma MatchingInventory(inventory: map<string, Bytes>, files: Files)
    requires Distinct(files) && inventory.Keys == Names(files) && Matches(inventory, files)
    ensures inventory == InventoryOf(files)
  {
    InventoryIsExact(files);
    forall n | n in inventory ensures inventory[n] == InventoryOf(files)[n] {
      var e :| e in files && e.name == n;
    }
  }

  /** The unzipped bound is the one the builder leaves unchecked. */
  predicate Unzips(c: Codec, kind: ArchiveKind, b: Binding, files: Files) {
    c.manifestSize(Manifest(kind, b, InventoryOf(files))) + TotalSize(files) <= MAX_ARCHIVE_BYTES
  }

  /** Reading accepts what building produced for these files, and nothing else. */
  lemma ReadIsInverseOfBuild(c: Codec, value: Bytes, kind: ArchiveKind, b: Binding, files: Files)
    requires Restores(c, Packed(kind, b, files)) && Distinct(files) && Valid(b)
    requires BuildArchive(c, kind, b, files) == Ok(value)
    ensures ReadArchive(c, value, kind, b, Names(files)) == Ok(files) <==> Unzips(c, kind, b, files)
    ensures !Unzips(c, kind, b, files) ==> ReadArchive(c, value, kind, b, Names(files)) == Err(MemberTooLarge)
  {
    InventoryIsExact(files);
    assert c.unzip(value) == Some(Packed(kind, b, files));
    if Unzips(c, kind, b, files) {
      forall e | e in files ensures e.data.size <= MAX_ARCHIVE_BYTES {
        MemberWithinTotal(files, e);
      }
    }
  }

  /** Whatever is read under a binding was archived under that binding, file by file. */
  lemma ReadIsSound(c: Codec, value: Bytes, kind: ArchiveKind, b: Binding, names: set<string>, files: Files)
    requires ReadArchive(c, value, kind, b, names) == Ok(files)
    ensures c.unzip(value) == Some(Packed(kind, b, files))
    ensures Distinct(files) && Names(files) == names && Unzips(c, kind, b, files)
  {
    MatchingInventory(c.unzip(value).value.manifest.inventory, files);
  }

  // ---- envelopes ----------------------------------------------------------

  /** Length of base64 text. */
  function Base64(n: nat): nat {
    4 * ((n + 2) / 3)
  }

  function EnvelopeSize(c: Codec, header: Binding, plain: nat): nat {
    c.around(header) + Base64(plain + TAG_BYTES)
  }

  /** Only the key `to` opens it, and only under its own header. */
  datatype InputEnvelope = InputEnvelope(header: Binding, to: Id, plain: Bytes)

  const INPUT_NAMES: set<string> := {"ack-key.bin", "context.txt", "prompt.txt", "return-public.pem"}

  function InputFiles(ackKey: Bytes, context: Bytes, prompt: Bytes, returnPem: Bytes): Files {
    [Entry("ack-key.bin", ackKey), Entry("context.txt", context),
     Entry("prompt.txt", prompt), Entry("return-public.pem", returnPem)]
  }

  /** `create_input_payload`. */
  function CreateInput(c: Codec, now: int, b: Binding, inputPem: Bytes, returnPem: Bytes, context: Bytes, prompt: Bytes, ackKey: Bytes)
    : Result<InputEnvelope, Error>
  {
    if !Fresh(b, now) then Err(Stale)
    else if inputPem != c.pem(b.inputKey) || returnPem != c.pem(b.returnKey) || context != b.context || prompt != b.prompt
      then Err(InputMismatch)
    else if ackKey.size != KEY_BYTES then Err(AckKeyLength)
    else match BuildArchive(c, InputPackage, b, InputFiles(ackKey, context, prompt, returnPem))
      case Err(e) => Err(e)
      case Ok(archive) => Ok(InputEnvelope(b, b.inputKey, archive))
  }

  function Lookup(files: Files, name: string): Option<Bytes> {
    if files == [] then None else if files[0].name == name then Some(files[0].data) else Lookup(files[1..], name)
  }

  /** `decrypt_input_payload`. */
  function DecryptInput(c: Codec, now: int, key: Id, e: InputEnvelope, expected: Binding): Result<Files, Error> {
    if !Fresh(expected, now) then Err(Stale)
    else if EnvelopeSize(c, e.header, e.plain.size) > MAX_ENVELOPE_BYTES then Err(TooLarge)
    else if e.header != expected then Err(WrongBinding)
    else if key != expected.inputKey then Err(KeyMismatch)
    else if e.plain.size + TAG_BYTES > MAX_ENVELOPE_BYTES || key != e.to then Err(KeyMismatch)
    else match ReadArchive(c, e.plain, InputPackage, expected, INPUT_NAMES)
      case Err(error) => Err(error)
      case Ok(files) =>
        if Lookup(files, "ack-key.bin").None? || Lookup(files, "ack-key.bin").value.size != KEY_BYTES then Err(AckKeyLength)
        else if Lookup(files, "return-public.pem") != Some(c.pem(expected.returnKey)) then Err(KeyMismatch)
        else if Lookup(files, "context.txt") != Some(expected.context) || Lookup(files, "prompt.txt") != Some(expected.prompt)
          then Err(InputMismatch)
        else Ok(files)
  }

  datatype ReturnKind = ChallengeResponse | EncryptedResult

  /** `stated` is the digest and length written into the authenticated header. */
  datatype ReturnEnvelope = ReturnEnvelope(kind: ReturnKind, header: Binding, stated: Bytes, to: Id, plain: Bytes)

  /** `encrypt_return_envelope`. */
  function EncryptReturn(c: Codec, now: int, returnPem: Bytes, kind: ReturnKind, b: Binding, plain: Bytes): Result<ReturnEnvelope, Error> {
    if !Fresh(b, now) then Err(Stale)
    else if returnPem != c.pem(b.returnKey) then Err(KeyMismatch)
    else Ok(ReturnEnvelope(kind, b, plain, b.returnKey, plain))
  }

  /** `decrypt_return_envelope`. */
  function DecryptReturn(c: Codec, now: int, key: Id, e: ReturnEnvelope, kind: ReturnKind, expected: Binding): Result<Bytes, Error> {
    if !Fresh(expected, now) then Err(Stale)
    else if EnvelopeSize(c, e.header, e.plain.size) > MAX_ENVELOPE_BYTES then Err(TooLarge)
    else if e.header != expected then Err(WrongBinding)
    else if key != expected.returnKey then Err(KeyMismatch)
    else if e.kind != kind then Err(WrongKind)
    else if e.stated.size == 0 then Err(EmptyPlaintext)
    else if e.plain.size + TAG_BYTES > MAX_ENVELOPE_BYTES || key != e.to then Err(KeyMismatch)
    else if e.plain != e.stated then Err(WrongFingerprint)
    else Ok(e.plain)
  }

  // ---- round trips --------------------------------------------------------

  lemma {:induction false} LookupAt(files: Files, i: nat)
    requires Distinct(files) && i < |files|
    ensures Lookup(files, files[i].name) == Some(files[i].data)
  {
    if i > 0 {
      assert files[0].name != files[i].name;
      LookupAt(files[1..], i - 1);
    }
  }

  lemma InputNames(ackKey: Bytes, context: Bytes, prompt: Bytes, returnPem: Bytes)
    ensures Distinct(InputFiles(ackKey, context, prompt, returnPem))
    ensures Names(InputFiles(ackKey, context, prompt, returnPem)) == INPUT_NAMES
    ensures Lookup(InputFiles(ackKey, context, prompt, returnPem), "ack-key.bin") == Some(ackKey)
    ensures Lookup(InputFiles(ackKey, context, prompt, returnPem), "context.txt") == Some(context)
    ensures Lookup(InputFiles(ackKey, context, prompt, returnPem), "prompt.txt") == Some(prompt)
    ensures Lookup(InputFiles(ackKey, context, prompt, returnPem), "return-public.pem") == Some(returnPem)
  {
    var files := InputFiles(ackKey, context, prompt, returnPem);
    assert files[0].name[0] == 'a' && files[1].name[0] == 'c' && files[2].name[0] == 'p' && files[3].name[0] == 'r';
    LookupAt(files, 0);
    LookupAt(files, 1);
    LookupAt(files, 2);
    LookupAt(files, 3);
    assert files[0] in files && files[1] in files && files[2] in files && files[3] in files;
    forall e | e in files ensures e.name in INPUT_NAMES {
    }
  }

  lemma CiphertextWithinEnvelope(n: nat)
    ensures n <= Base64(n)
  {
  }

  /** What `create_input_payload` seals, `decrypt_input_payload` opens: exactly while
      the binding is fresh, the unpacked archive within its bound and the base64
      envelope within its own. */
  lemma InputRoundTrip(c: Codec, now: int, later: int, b: Binding, inputPem: Bytes, returnPem: Bytes,
                       context: Bytes, prompt: Bytes, ackKey: Bytes, e: InputEnvelope)
    requires Restores(c, Packed(InputPackage, b, InputFiles(ackKey, context, prompt, returnPem)))
    requires CreateInput(c, now, b, inputPem, returnPem, context, prompt, ackKey) == Ok(e)
    ensures var files := InputFiles(ackKey, context, prompt, returnPem);
            DecryptInput(c, later, b.inputKey, e, b) == Ok(files)
            <==> Fresh(b, later) && Unzips(c, InputPackage, b, files) && EnvelopeSize(c, b, e.plain.size) <= MAX_ENVELOPE_BYTES
  {
    var files := InputFiles(ackKey, context, prompt, returnPem);
    hide Restores, InputFiles, BuildArchive, ReadArchive, Unzips, Lookup;
    InputNames(ackKey, context, prompt, returnPem);
    ReadIsInverseOfBuild(c, e.plain, InputPackage, b, files);
    CiphertextWithinEnvelope(e.plain.size + TAG_BYTES);
  }

  lemma ReturnRoundTrip(c: Codec, now: int, later: int, returnPem: Bytes, kind: ReturnKind, b: Binding, plain: Bytes, e: ReturnEnvelope)
    requires EncryptReturn(c, now, returnPem, kind, b, plain) == Ok(e)
    ensures DecryptReturn(c, later, b.returnKey, e, kind, b) == Ok(plain)
            <==> Fresh(b, later) && plain.size > 0 && EnvelopeSize(c, b, plain.size) <= MAX_ENVELOPE_BYTES
  {
    CiphertextWithinEnvelope(plain.size + TAG_BYTES);
  }

  /** An input that opens was sealed for this binding: its files are the binding's own. */
  lemma OpenedInputIsBound(c: Codec, now: int, key: Id, e: InputEnvelope, b: Binding, files: Files)
    requires DecryptInput(c, now, key, e, b) == Ok(files)
    ensures e.header == b && e.to == key == b.inputKey
    ensures c.unzip(e.plain) == Some(Packed(InputPackage, b, files))
    ensures Lookup(files, "context.txt") == Some(b.context) && Lookup(files, "prompt.txt") == Some(b.prompt)
    ensures Lookup(files, "return-public.pem") == Some(c.pem(b.returnKey))
  {
    hide ReadArchive, Lookup;
    ReadIsSound(c, e.plain, InputPackage, b, INPUT_NAMES, files);
  }

  /** The builder's bound does not imply the reader's: an archive of the last few
      permitted sizes is sealed, and then no one can open it. */
  lemma LargestInputIsNeverOpened(c: Codec, now: int, later: int, b: Binding, inputPem: Bytes, returnPem: Bytes,
                                  context: Bytes, prompt: Bytes, ackKey: Bytes, e: InputEnvelope, key: Id, expected: Binding)
    requires CreateInput(c, now, b, inputPem, returnPem, context, prompt, ackKey) == Ok(e)
    requires e.plain.size > MAX_ARCHIVE_BYTES - TAG_BYTES
    ensures DecryptInput(c, later, key, e, expected).Err?
  {
    assert Base64(e.plain.size + TAG_BYTES) > MAX_ENVELOPE_BYTES;
  }

  // ---- both bounds can really be missed -----------------------------------

  const NOON := Binding(0, 1, Bytes(0, 1), Bytes(1, 1), Live, 0, 0, 1, 2, 0)

  /** A ZIP that packs one archive into `size` bytes. */
  function ZipOf(a: Archive, size: nat): Codec {
    Codec(_ => Bytes(0, size), _ => Some(a), _ => 0, _ => 0, (id: Id) => Bytes(id, 1))
  }

  function InputFor(b: Binding): Files {
    InputFiles(Bytes(2, KEY_BYTES), b.context, b.prompt, Bytes(b.returnKey, 1))
  }

  lemma FourSizes(a: Entry, b: Entry, c: Entry, d: Entry)
    ensures TotalSize([a, b, c, d]) == a.data.size + b.data.size + c.data.size + d.data.size
  {
    assert [a, b, c, d][1..] == [b, c, d] && [b, c, d][1..] == [c, d] && [c, d][1..] == [d];
    assert TotalSize([d]) == d.data.size;
    assert TotalSize([b, c, d]) == b.data.size + TotalSize([c, d]);
  }

  /** Input for `b`, built and sealed by a ZIP that packs it into `size` bytes. */
  lemma SealsAt(b: Binding, size: nat) returns (c: Codec, e: InputEnvelope)
    requires Fresh(b, 1) && 0 < size <= MAX_ARCHIVE_BYTES
    ensures Restores(c, Packed(InputPackage, b, InputFor(b))) && e.plain.size == size
    ensures c == ZipOf(Packed(InputPackage, b, InputFor(b)), size)
    ensures CreateInput(c, 1, b, c.pem(b.inputKey), c.pem(b.returnKey), b.context, b.prompt, Bytes(2, KEY_BYTES)) == Ok(e)
    ensures Unzips(c, InputPackage, b, InputFor(b)) <==> KEY_BYTES + b.context.size + b.prompt.size + 1 <= MAX_ARCHIVE_BYTES
  {
    hide InventoryOf, InputFiles, BuildArchive, TotalSize;
    c := ZipOf(Packed(InputPackage, b, InputFor(b)), size);
    e := InputEnvelope(b, b.inputKey, Bytes(0, size));
    InputNames(Bytes(2, KEY_BYTES), b.context, b.prompt, Bytes(b.returnKey, 1));
    BuildsAt(c, b, size);
    InputSize(b);
  }

  lemma BuildsAt(c: Codec, b: Binding, size: nat)
    requires c == ZipOf(Packed(InputPackage, b, InputFor(b)), size) && size <= MAX_ARCHIVE_BYTES
    requires Distinct(InputFor(b)) && Names(InputFor(b)) == INPUT_NAMES
    ensures BuildArchive(c, InputPackage, b, InputFor(b)) == Ok(Bytes(0, size))
  {
    hide InventoryOf, Names, Distinct;
    assert "manifest.json"[0] == 'm';
    assert "manifest.json" !in INPUT_NAMES;
  }

  lemma InputSize(b: Binding)
    ensures TotalSize(InputFor(b)) == KEY_BYTES + b.context.size + b.prompt.size + 1
  {
    var files := InputFor(b);
    FourSizes(files[0], files[1], files[2], files[3]);
  }

  /** Each of the last permitted sizes occurs with files that fit unpacked, and is lost. */
  lemma LargestInputOccurs(size: nat) returns (c: Codec, e: InputEnvelope)
    requires MAX_ARCHIVE_BYTES - TAG_BYTES < size <= MAX_ARCHIVE_BYTES
    ensures Restores(c, Packed(InputPackage, NOON, InputFor(NOON))) && Unzips(c, InputPackage, NOON, InputFor(NOON))
    ensures CreateInput(c, 1, NOON, c.pem(0), c.pem(1), NOON.context, NOON.prompt, Bytes(2, KEY_BYTES)) == Ok(e)
    ensures e.plain.size == size && DecryptInput(c, 1, 0, e, NOON) == Err(TooLarge)
  {
    c, e := SealsAt(NOON, size);
    assert Base64(size + TAG_BYTES) > MAX_ENVELOPE_BYTES;
  }

  /** A context that compresses well is sealed in a small envelope, and lost. */
  lemma UnpackedBoundIsMissed(context: nat) returns (c: Codec, b: Binding, e: InputEnvelope)
    requires context > MAX_ARCHIVE_BYTES
    ensures Fresh(b, 1) && b.context.size == context && EnvelopeSize(c, b, e.plain.size) <= MAX_ENVELOPE_BYTES
    ensures CreateInput(c, 1, b, c.pem(b.inputKey), c.pem(b.returnKey), b.context, b.prompt, Bytes(2, KEY_BYTES)) == Ok(e)
    ensures DecryptInput(c, 1, b.inputKey, e, b) == Err(MemberTooLarge)
  {
    hide BuildArchive, ReadArchive, InventoryOf, Names, InputFiles;
    b := Binding(0, 1, Bytes(0, context), Bytes(1, 1), Live, 0, 0, 1, 2, 0);
    c, e := SealsAt(b, 1);
    InputNames(Bytes(2, KEY_BYTES), b.context, b.prompt, Bytes(b.returnKey, 1));
    ReadIsInverseOfBuild(c, e.plain, InputPackage, b, InputFor(b));
  }
}
