/** The two-party handoff of b2/blind_handoff.py as steps over files: state
    directories, messages in transit, and the commands that are half way through.
    Hashes, envelopes and authentication codes are symbolic and injective. */
module HandoffWorld {
  import opened Wrappers
  import opened HandoffBinding

  // ---- messages -----------------------------------------------------------

  /** A result archive names the binding it was built for. */
  datatype Bundle = Bundle(binding: Binding, content: nat)

  datatype Plain =
    | Package(binding: Binding, ackKey: Id, returnKey: Id)
    | Challenge(challenge: Id)
    | Result(bundle: Bundle)

  datatype Kind = EncryptedInput | ChallengeResponse | EncryptedResult

  /** `envelope` and `challenge` stand for their digests. */
  datatype AckBody = AckBody(binding: Binding, envelope: Message, challenge: Id)
  datatype Mac = Mac(key: Id, challenge: Id, body: AckBody)

  datatype Message =
    | Envelope(kind: Kind, to: Id, header: Binding, plain: Plain)
    | Ack(body: AckBody, mac: Mac)

  /** `_hybrid_decrypt` behind the header checks: only the matching key opens an
      envelope, and only under the header it was sealed with. */
  function Unseal(m: Message, kind: Kind, key: Id, expected: Binding): Option<Plain> {
    if m.Envelope? && m.kind == kind && m.to == key && m.header == expected then Some(m.plain) else None
  }

  function Payload(b: Binding, ackKey: Id): Message {
    Envelope(EncryptedInput, b.inputKey, b, Package(b, ackKey, b.returnKey))
  }

  function SealedChallenge(b: Binding, c: Id): Message {
    Envelope(ChallengeResponse, b.returnKey, b, Challenge(c))
  }

  function SealedResult(b: Binding, r: Bundle): Message {
    Envelope(EncryptedResult, b.returnKey, b, Result(r))
  }

  /** `create_challenge_ack`. */
  function AckFor(b: Binding, envelope: Message, c: Id, ackKey: Id): Message {
    var body := AckBody(b, envelope, c);
    Ack(body, Mac(ackKey, c, body))
  }

  /** `verify_challenge_ack`: first the code, then what the body says. */
  predicate AckVerifies(m: Message, b: Binding, envelope: Message, c: Id, ackKey: Id) {
    m.Ack? && m.mac == Mac(ackKey, c, m.body)
    && m.body.binding == b && m.body.envelope == envelope && m.body.challenge == c
  }

  // ---- files --------------------------------------------------------------

  datatype Name =
    | BindingFile | ReturnPrivate | ReturnPublic | AckKeyFile | FrozenInput
    | PayloadPrepared | ChallengeVerified | ResultAccepted
    | PayloadAccepted | ChallengeFile | ChallengePublished | AckAccepted | ResultStarted

  datatype Artifact = OfMessage(message: Message) | OfBundle(bundle: Bundle)

  datatype Content =
    | Fixed                                             // what the directory was committed with
    | Secret(challenge: Id)
    | Marker(claim: Name, binding: Binding, artifact: Artifact)

  /** A file that was opened but not completely written does not parse. */
  datatype File = Torn | Written(content: Content)

  /** A state directory; the binding and the two keys in it never change. A path
      that is cleaned up and prepared again is a new directory. */
  datatype Dir = Dir(binding: Binding, ackKey: Id, files: map<Name, File>)

  datatype Output = Output(bundle: Bundle)

  predicate Readable(dir: Dir, name: Name) {
    name in dir.files && dir.files[name].Written?
  }

  /** `_require_claim`. */
  predicate Claimed(dir: Dir, claim: Name) {
    Readable(dir, claim) && dir.files[claim].content.Marker?
    && dir.files[claim].content.claim == claim && dir.files[claim].content.binding == dir.binding
  }

  // ---- commands -----------------------------------------------------------

  /** One running command with everything it read before its first write. */
  datatype Script =
    | PrepareInput(dir: Id, binding: Binding, ackKey: Id)
    | AcceptInput(dir: Id, binding: Binding, ackKey: Id, payload: Message)
    | EncryptChallenge(dir: Id, binding: Binding, challenge: Id)
    | VerifyChallenge(dir: Id, binding: Binding, ackKey: Id, challenge: Id, envelope: Message)
    | VerifyAck(dir: Id, binding: Binding, ackKey: Id, challenge: Id, envelope: Message, ack: Message)
    | MakeResult(dir: Id, binding: Binding, bundle: Bundle)
    | VerifyResult(dir: Id, binding: Binding, bundle: Bundle, envelope: Message, output: Id)

  datatype Op =
    | CommitDir(created: Dir)
    | CommitOutput(path: Id, output: Output)
    | CreateFile(name: Name, content: Content)
    | Publish(message: Message)

  function ClaimOp(s: Script, claim: Name, artifact: Artifact): Op {
    CreateFile(claim, Marker(claim, s.binding, artifact))
  }

  /** Files whose content never changes after the commit. */
  function Committed(b: Binding, k: Id, private: Name, claim: Name, artifact: Message): Dir {
    Dir(b, k, map[BindingFile := Written(Fixed), ReturnPublic := Written(Fixed), AckKeyFile := Written(Fixed),
                  private := Written(Fixed), claim := Written(Marker(claim, b, OfMessage(artifact)))])
  }

  /** The writes of a command, in order. */
  function Ops(s: Script): seq<Op> {
    match s
    case PrepareInput(_, b, k) =>
      [CommitDir(Committed(b, k, ReturnPrivate, PayloadPrepared, Payload(b, k))),
       Publish(Payload(b, k))]
    case AcceptInput(_, b, k, payload) =>
      [CommitDir(Committed(b, k, FrozenInput, PayloadAccepted, payload))]
    case EncryptChallenge(_, b, c) =>
      [CreateFile(ChallengeFile, Secret(c)), Publish(SealedChallenge(b, c)),
       ClaimOp(s, ChallengePublished, OfMessage(SealedChallenge(b, c)))]
    case VerifyChallenge(_, b, k, c, envelope) =>
      [Publish(AckFor(b, envelope, c, k)), ClaimOp(s, ChallengeVerified, OfMessage(envelope))]
    case VerifyAck(_, _, _, _, _, ack) =>
      [ClaimOp(s, AckAccepted, OfMessage(ack))]
    case MakeResult(_, b, bundle) =>
      [ClaimOp(s, ResultStarted, OfBundle(bundle)), Publish(SealedResult(b, bundle))]
    case VerifyResult(_, _, bundle, envelope, output) =>
      [CommitOutput(output, Output(bundle)), ClaimOp(s, ResultAccepted, OfMessage(envelope))]
  }

  /** Between two writes, or inside a create: opened, then written but not yet
      synced; or taking back earlier writes after a failure. */
  datatype Phase = Ready | Opened | Unsynced | Undoing

  datatype Proc = Proc(script: Script, next: nat, phase: Phase)

  // ---- history ------------------------------------------------------------

  datatype Event =
    | KeyMade(dir: Id, binding: Binding, ackKey: Id)
    | Prepared(dir: Id, binding: Binding, ackKey: Id)
    | Accepted(dir: Id, binding: Binding, ackKey: Id)
    | ChallengeMade(dir: Id, challenge: Id)
    | ChallengeClaimed(dir: Id, challenge: Id)
    | Decrypted(dir: Id, binding: Binding, challenge: Id, ackKey: Id)
    | AckClaimed(dir: Id, binding: Binding, challenge: Id, ackKey: Id)
    | GateOpened(dir: Id)
    | ResultClaimed(dir: Id, bundle: Bundle)
    | ResultSealed(dir: Id, bundle: Bundle)
    | ResultKept(dir: Id, bundle: Bundle)

  type Log = seq<Event>

  datatype World = World(
    dirs: map<Id, Dir>, outputs: map<Id, Output>, channel: set<Message>,
    procs: map<Id, Proc>, log: Log, nextSecret: nat)

  const EMPTY_WORLD := World(map[], map[], {}, map[], [], 0)

  // ---- what a command must read to get under way --------------------------

  predicate RunnerReads(w: World, s: Script, claim: Name) {
    s.dir in w.dirs && w.dirs[s.dir].binding == s.binding
    && Readable(w.dirs[s.dir], BindingFile) && Claimed(w.dirs[s.dir], claim)
  }

  predicate OrchestratorReads(w: World, s: Script) {
    RunnerReads(w, s, PayloadPrepared) && Readable(w.dirs[s.dir], ReturnPrivate)
  }

  predicate Reads(w: World, s: Script) {
    match s
    case PrepareInput(_, b, k) => b.returnKey == w.nextSecret && k == w.nextSecret + 1
    case AcceptInput(_, b, k, payload) =>
      payload in w.channel && Unseal(payload, EncryptedInput, b.inputKey, b) == Some(Package(b, k, b.returnKey))
    case EncryptChallenge(_, _, c) => RunnerReads(w, s, PayloadAccepted) && c == w.nextSecret
    case VerifyChallenge(_, b, k, c, envelope) =>
      OrchestratorReads(w, s) && envelope in w.channel
      && Unseal(envelope, ChallengeResponse, b.returnKey, b) == Some(Challenge(c))
      && Readable(w.dirs[s.dir], AckKeyFile) && w.dirs[s.dir].ackKey == k
    case VerifyAck(_, b, k, c, envelope, ack) =>
      RunnerReads(w, s, ChallengePublished) && envelope in w.channel
      && Readable(w.dirs[s.dir], ChallengeFile) && w.dirs[s.dir].files[ChallengeFile].content == Secret(c)
      && Readable(w.dirs[s.dir], AckKeyFile) && w.dirs[s.dir].ackKey == k
      && ack in w.channel && AckVerifies(ack, b, envelope, c, k)
    case MakeResult(_, b, bundle) => RunnerReads(w, s, AckAccepted) && bundle.binding == b
    case VerifyResult(_, b, bundle, envelope, _) =>
      OrchestratorReads(w, s) && envelope in w.channel
      && Unseal(envelope, EncryptedResult, b.returnKey, b) == Some(Result(bundle)) && bundle.binding == b
  }

  /** Secrets are generated, and a challenge is decrypted, before the first write. */
  function StartEvents(s: Script): Log {
    match s
    case PrepareInput(o, b, k) => [KeyMade(o, b, k)]
    case EncryptChallenge(d, _, c) => [ChallengeMade(d, c)]
    case VerifyChallenge(o, b, k, c, _) => [Decrypted(o, b, c, k)]
    case _ => []
  }

  /** What becomes visible when write number `i` does. */
  function WriteEvents(s: Script, i: nat): Log {
    match s
    case PrepareInput(o, b, k) => if i == 0 then [Prepared(o, b, k)] else []
    case AcceptInput(d, b, k, _) => [Accepted(d, b, k)]
    case EncryptChallenge(d, _, c) => if i == 2 then [ChallengeClaimed(d, c)] else []
    case VerifyChallenge(_, _, _, _, _) => []
    case VerifyAck(d, b, k, c, _, _) => [AckClaimed(d, b, c, k)]
    case MakeResult(d, _, bundle) => if i == 0 then [ResultClaimed(d, bundle)] else [ResultSealed(d, bundle)]
    case VerifyResult(o, _, bundle, _, _) => if i == 1 then [ResultKept(o, bundle)] else []
  }

  function CloseEvents(s: Script): Log {
    if s.VerifyAck? then [GateOpened(s.dir)] else []
  }

  // ---- steps --------------------------------------------------------------

  datatype Step =
    | Start(pid: Id, script: Script)
    | Open(pid: Id)
    | Write(pid: Id)
    | Close(pid: Id)
    | Fail(pid: Id, unlinked: bool)
    | Undo(pid: Id, name: Name)
    | Crash(pid: Id)

  predicate At(w: World, pid: Id, phase: Phase) {
    pid in w.procs && w.procs[pid].phase == phase && w.procs[pid].next < |Ops(w.procs[pid].script)|
  }

  function OpAt(w: World, pid: Id): Op
    requires pid in w.procs && w.procs[pid].next < |Ops(w.procs[pid].script)|
  {
    Ops(w.procs[pid].script)[w.procs[pid].next]
  }

  function SetFile(w: World, d: Id, name: Name, file: File): World
    requires d in w.dirs
  {
    w.(dirs := w.dirs[d := w.dirs[d].(files := w.dirs[d].files[name := file])])
  }

  function Unlink(w: World, d: Id, name: Name): World
    requires d in w.dirs
  {
    w.(dirs := w.dirs[d := w.dirs[d].(files := w.dirs[d].files - {name})])
  }

  function Continue(w: World, pid: Id, next: nat, phase: Phase): World
    requires pid in w.procs
  {
    w.(procs := w.procs[pid := Proc(w.procs[pid].script, next, phase)])
  }

  function Record(w: World, events: Log): World {
    w.(log := w.log + events)
  }

  function DoStart(w: World, pid: Id, s: Script): World {
    if pid in w.procs || !Reads(w, s) then w
    else Record(w.(procs := w.procs[pid := Proc(s, 0, Ready)], nextSecret := w.nextSecret + 2), StartEvents(s))
  }

  /** Exclusive create; a directory appears whole or not at all. */
  function DoOpen(w: World, pid: Id): World {
    if !At(w, pid, Ready) then w
    else
      var p := w.procs[pid];
      match OpAt(w, pid)
      case CommitDir(created) =>
        if p.script.dir in w.dirs then w
        else Record(Continue(w.(dirs := w.dirs[p.script.dir := created]), pid, p.next + 1, Ready), WriteEvents(p.script, p.next))
      case CommitOutput(path, output) =>
        if path in w.outputs then w
        else Record(Continue(w.(outputs := w.outputs[path := output]), pid, p.next + 1, Ready), WriteEvents(p.script, p.next))
      case CreateFile(name, _) =>
        if p.script.dir !in w.dirs || name in w.dirs[p.script.dir].files then w
        else Continue(SetFile(w, p.script.dir, name, Torn), pid, p.next, Opened)
      case Publish(_) => Continue(w, pid, p.next, Opened)
  }

  /** The bytes arrive: the marker parses, or the message can be picked up. */
  function DoWrite(w: World, pid: Id): World {
    if !At(w, pid, Opened) then w
    else
      var p := w.procs[pid];
      match OpAt(w, pid)
      case CreateFile(name, content) =>
        if p.script.dir !in w.dirs then w
        else Record(Continue(SetFile(w, p.script.dir, name, Written(content)), pid, p.next, Unsynced), WriteEvents(p.script, p.next))
      case Publish(m) =>
        Record(Continue(w.(channel := w.channel + {m}), pid, p.next, Unsynced), WriteEvents(p.script, p.next))
      case _ => w
  }

  /** The write is synced and the command goes on, or returns. */
  function DoClose(w: World, pid: Id): World {
    if !At(w, pid, Unsynced) then w
    else Record(Continue(w, pid, w.procs[pid].next + 1, Ready), CloseEvents(w.procs[pid].script))
  }

  /** An operating-system call raises: `_atomic_create` removes its own file, unless
      that raises too, and the command's handler takes over. */
  function DoFail(w: World, pid: Id, unlinked: bool): World {
    if !(At(w, pid, Ready) || At(w, pid, Opened) || At(w, pid, Unsynced)) then w
    else
      var p := w.procs[pid];
      var op := OpAt(w, pid);
      var own := p.phase != Ready && op.CreateFile? && unlinked && p.script.dir in w.dirs;
      Continue(if own then Unlink(w, p.script.dir, op.name) else w, pid, p.next, Undoing)
  }

  /** One removal by the command's handler. */
  function DoUndo(w: World, pid: Id, name: Name): World {
    if !At(w, pid, Undoing) then w
    else
      var p := w.procs[pid];
      match p.script
      case EncryptChallenge(d, _, _) => if p.next > 0 && d in w.dirs then Unlink(w, d, ChallengeFile) else w
      case PrepareInput(o, _, _) => if p.next == 1 && o in w.dirs then Unlink(w, o, name) else w
      case VerifyResult(_, _, _, _, output) => if p.next == 1 then w.(outputs := w.outputs - {output}) else w
      case _ => w
  }

  /** The process is gone, whatever it was doing; also how a finished command leaves. */
  function DoCrash(w: World, pid: Id): World {
    w.(procs := w.procs - {pid})
  }

  function Apply(w: World, step: Step): World {
    match step
    case Start(pid, s) => DoStart(w, pid, s)
    case Open(pid) => DoOpen(w, pid)
    case Write(pid) => DoWrite(w, pid)
    case Close(pid) => DoClose(w, pid)
    case Fail(pid, unlinked) => DoFail(w, pid, unlinked)
    case Undo(pid, name) => DoUndo(w, pid, name)
    case Crash(pid) => DoCrash(w, pid)
  }

  /** Any interleaving of any number of commands. */
  function Run(w: World, steps: seq<Step>): World
    decreases |steps|
  {
    if steps == [] then w else Run(Apply(w, steps[0]), steps[1..])
  }

  lemma RunOne(w: World, a: Step)
    ensures Run(w, [a]) == Apply(w, a)
  {
    hide Apply;
  }

  lemma RunTwo(w: World, a: Step, b: Step)
    ensures Run(w, [a, b]) == Apply(Apply(w, a), b)
  {
    hide Apply;
    assert [a, b][1..] == [b];
    RunOne(Apply(w, a), b);
  }

  lemma RunThree(w: World, a: Step, b: Step, c: Step)
    ensures Run(w, [a, b, c]) == Apply(Apply(Apply(w, a), b), c)
  {
    hide Apply;
    assert [a, b, c][1..] == [b, c];
    RunTwo(Apply(w, a), b, c);
  }

  lemma {:induction false} RunConcat(w: World, some: seq<Step>, more: seq<Step>)
    ensures Run(w, some + more) == Run(Run(w, some), more)
    decreases |some|
  {
    hide Apply;
    if some == [] {
      assert some + more == more;
    } else {
      assert (some + more)[1..] == some[1..] + more;
      RunConcat(Apply(w, some[0]), some[1..], more);
    }
  }
}
