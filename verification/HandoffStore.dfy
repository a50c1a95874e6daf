/** One state directory as the commands of b2/blind_handoff.py change it, and the
    steps of `HandoffWorld` those changes are made of. */
module HandoffStore {
  import opened Wrappers
  import opened HandoffBinding
  import opened HandoffWorld

  type Files = map<Name, File>

  /** Where one exclusive create raises, and whether its own clean-up works. */
  datatype Fault = NoFault | OpenFails | WriteFails(unlinked: bool) | SyncFails(unlinked: bool)

  predicate Unlinks(fault: Fault) {
    match fault
    case WriteFails(unlinked) => unlinked
    case SyncFails(unlinked) => unlinked
    case _ => true
  }

  function AfterCreate(files: Files, name: Name, content: Content, fault: Fault): Files {
    if name in files || fault.OpenFails? then files
    else match fault
    case WriteFails(unlinked) => if unlinked then files else files[name := Torn]
    case SyncFails(unlinked) => if unlinked then files else files[name := Written(content)]
    case _ => files[name := Written(content)]
  }

  // ---- what the commands leave, whatever fails ------------------------------

  predicate MayEncrypt(dir: Dir) {
    Readable(dir, BindingFile) && Claimed(dir, PayloadAccepted)
  }

  function AfterEncrypt(dir: Dir, c: Id, fault: Fault, published: bool, claimFault: Fault, unlinked: bool): Files {
    if !MayEncrypt(dir) then dir.files
    else
      var created := AfterCreate(dir.files, ChallengeFile, Secret(c), fault);
      if ChallengeFile in dir.files || fault != NoFault then created
      else
        var artifact := OfMessage(SealedChallenge(dir.binding, c));
        var claimed := if published
                       then AfterCreate(created, ChallengePublished, Marker(ChallengePublished, dir.binding, artifact), claimFault)
                       else created;
        if published && ChallengePublished !in created && claimFault == NoFault then claimed
        else if unlinked then claimed - {ChallengeFile} else claimed
  }

  predicate Encrypts(dir: Dir, fault: Fault, published: bool, claimFault: Fault) {
    MayEncrypt(dir) && ChallengeFile !in dir.files && ChallengePublished !in dir.files
    && fault == NoFault && published && claimFault == NoFault
  }

  /** The binding is fresh and the acknowledgement one over this directory's own
      challenge, made with its key. */
  predicate MayOpenGate(dir: Dir, now: int, envelope: Message, ack: Message) {
    Fresh(dir.binding, now) && Readable(dir, BindingFile) && Claimed(dir, ChallengePublished) && Readable(dir, AckKeyFile) && Readable(dir, ChallengeFile)
    && dir.files[ChallengeFile].content.Secret?
    && AckVerifies(ack, dir.binding, envelope, dir.files[ChallengeFile].content.challenge, dir.ackKey)
  }

  function AfterAck(dir: Dir, now: int, envelope: Message, ack: Message, fault: Fault): Files {
    if !MayOpenGate(dir, now, envelope, ack) then dir.files
    else AfterCreate(dir.files, AckAccepted, Marker(AckAccepted, dir.binding, OfMessage(ack)), fault)
  }

  predicate MayStartResult(dir: Dir, now: int) {
    Fresh(dir.binding, now) && Readable(dir, BindingFile) && Claimed(dir, AckAccepted)
  }

  function AfterResult(dir: Dir, now: int, bundle: Bundle, fault: Fault): Files {
    if !MayStartResult(dir, now) then dir.files
    else AfterCreate(dir.files, ResultStarted, Marker(ResultStarted, dir.binding, OfBundle(bundle)), fault)
  }

  class StateDirectory {
    const binding: Binding
    const ackKey: Id
    var files: Files

    constructor (b: Binding, k: Id, committed: Files)
      ensures binding == b && ackKey == k && files == committed
    {
      binding := b;
      ackKey := k;
      files := committed;
    }

    function AsDir(): Dir
      reads this
    {
      Dir(binding, ackKey, files)
    }

    /** `_atomic_create`: exclusive create, then write and sync, else unlink. */
    method AtomicCreate(name: Name, content: Content, fault: Fault) returns (ok: bool)
      modifies this
      ensures files == AfterCreate(old(files), name, content, fault)
      ensures ok <==> name !in old(files) && fault == NoFault
    {
      if name in files || fault.OpenFails? {
        return false;
      }
      ghost var before := files;
      files := files[name := Torn];
      if fault.WriteFails? {
        if fault.unlinked {
          files := files - {name};
          assert files == before;
        }
        return false;
      }
      files := files[name := Written(content)];
      assert files == before[name := Written(content)];
      if fault.SyncFails? {
        if fault.unlinked {
          files := files - {name};
          assert files == before;
        }
        return false;
      }
      return true;
    }

    /** `_claim_once`. */
    method ClaimOnce(claim: Name, artifact: Artifact, fault: Fault) returns (ok: bool)
      modifies this
      ensures files == AfterCreate(old(files), claim, Marker(claim, binding, artifact), fault)
      ensures ok <==> claim !in old(files) && fault == NoFault
    {
      ok := AtomicCreate(claim, Marker(claim, binding, artifact), fault);
    }

    /** `_cmd_encrypt_challenge`, with `c` drawn by the caller: on success the challenge
        and its marker are both new, on failure with working clean-up nothing is. */
    method EncryptChallengeCommand(now: int, c: Id, fault: Fault, published: bool, claimFault: Fault, unlinked: bool)
      returns (envelope: Option<Message>)
      modifies this
      ensures envelope.Some? <==> Encrypts(old(AsDir()), fault, Fresh(binding, now) && published, claimFault)
      ensures files == AfterEncrypt(old(AsDir()), c, fault, Fresh(binding, now) && published, claimFault, unlinked)
      ensures envelope.Some? ==>
                envelope.value == SealedChallenge(binding, c)
                && files == old(files)[ChallengeFile := Written(Secret(c))]
                                     [ChallengePublished := Written(Marker(ChallengePublished, binding, OfMessage(envelope.value)))]
      ensures envelope.None? && Unlinks(fault) && Unlinks(claimFault) && unlinked ==> files == old(files)
    {
      if !MayEncrypt(AsDir()) {
        return None;
      }
      ghost var before := files;
      var ok := AtomicCreate(ChallengeFile, Secret(c), fault);
      if !ok {
        return None;
      }
      if Fresh(binding, now) && published {
        ok := ClaimOnce(ChallengePublished, OfMessage(SealedChallenge(binding, c)), claimFault);
        if ok {
          return Some(SealedChallenge(binding, c));
        }
      }
      if unlinked {
        files := files - {ChallengeFile};
        assert Unlinks(claimFault) ==> files == before;
      }
      return None;
    }

    /** `_cmd_verify_ack`: the gate opens only on an acknowledgement made with this
        directory's key over its own challenge. */
    method VerifyAckCommand(now: int, envelope: Message, ack: Message, fault: Fault) returns (gateOpen: bool)
      modifies this
      ensures gateOpen <==> MayOpenGate(old(AsDir()), now, envelope, ack) && AckAccepted !in old(files) && fault == NoFault
      ensures files == AfterAck(old(AsDir()), now, envelope, ack, fault)
      ensures gateOpen ==> files == old(files)[AckAccepted := Written(Marker(AckAccepted, binding, OfMessage(ack)))]
      ensures !gateOpen && Unlinks(fault) ==> files == old(files)
    {
      if !Readable(AsDir(), BindingFile) || !Claimed(AsDir(), ChallengePublished)
         || !Readable(AsDir(), AckKeyFile) || !Readable(AsDir(), ChallengeFile) || !files[ChallengeFile].content.Secret? {
        return false;
      }
      if !Fresh(binding, now) || !AckVerifies(ack, binding, envelope, files[ChallengeFile].content.challenge, ackKey) {
        return false;
      }
      gateOpen := ClaimOnce(AckAccepted, OfMessage(ack), fault);
    }

    /** `_cmd_make_smoke_result` and `_cmd_make_live_result` after their bundle is built:
        the claim comes first, so a failed publication is never tried again. */
    method MakeResultCommand(now: int, bundle: Bundle, fault: Fault, published: bool) returns (sealed: Option<Message>)
      requires bundle.binding == binding
      modifies this
      ensures sealed.Some? <==>
                MayStartResult(old(AsDir()), now) && ResultStarted !in old(files) && fault == NoFault && published
      ensures files == AfterResult(old(AsDir()), now, bundle, fault)
      ensures sealed.Some? ==>
                sealed.value == SealedResult(binding, bundle)
                && files == old(files)[ResultStarted := Written(Marker(ResultStarted, binding, OfBundle(bundle)))]
      ensures !published && fault == NoFault && MayStartResult(old(AsDir()), now) ==> ResultStarted in files
    {
      if !MayStartResult(AsDir(), now) {
        return None;
      }
      var ok := ClaimOnce(ResultStarted, OfBundle(bundle), fault);
      if ok && published {
        return Some(SealedResult(binding, bundle));
      }
      return None;
    }
  }

  // ---- the same changes as steps of the interleaved model ------------------

  function CreateSteps(pid: Id, fault: Fault): seq<Step> {
    match fault
    case NoFault => [Open(pid), Write(pid), Close(pid)]
    case OpenFails => [Fail(pid, true)]
    case WriteFails(unlinked) => [Open(pid), Fail(pid, unlinked)]
    case SyncFails(unlinked) => [Open(pid), Write(pid), Fail(pid, unlinked)]
  }

  function StepsOf(files: Files, name: Name, pid: Id, fault: Fault): seq<Step> {
    if name in files then [Fail(pid, true)] else CreateSteps(pid, fault)
  }

  function PublishSteps(pid: Id, published: bool): seq<Step> {
    if published then [Open(pid), Write(pid), Close(pid)] else [Fail(pid, true)]
  }

  /** Process `pid` has come to `p`, and its directory to `dir`. */
  predicate Holds(w: World, pid: Id, p: Proc, dir: Dir) {
    pid in w.procs && w.procs[pid] == p && p.script.dir in w.dirs && w.dirs[p.script.dir] == dir
  }

  predicate IsCreate(s: Script, i: nat, name: Name, content: Content) {
    i < |Ops(s)| && Ops(s)[i] == CreateFile(name, content)
  }

  predicate IsPublish(s: Script, i: nat) {
    i < |Ops(s)| && Ops(s)[i].Publish?
  }

  function Moved(s: Script, i: nat, ok: bool): Proc {
    if ok then Proc(s, i + 1, Ready) else Proc(s, i, Undoing)
  }

  /** Every outcome of `AtomicCreate` is a run of the process at that write. */
  lemma CreateIsRun(w: World, pid: Id, s: Script, i: nat, dir: Dir, name: Name, content: Content, fault: Fault)
    requires Holds(w, pid, Proc(s, i, Ready), dir) && IsCreate(s, i, name, content)
    ensures Holds(Run(w, StepsOf(dir.files, name, pid, fault)), pid, Moved(s, i, name !in dir.files && fault == NoFault),
                  Dir(dir.binding, dir.ackKey, AfterCreate(dir.files, name, content, fault)))
  {
    hide Ops, Run, DoOpen, DoWrite, DoClose, DoFail, Holds;
    var files := dir.files;
    if name in files || fault.OpenFails? {
      RunOne(w, Fail(pid, true));
      FailsBeforeOpen(w, pid, s, i, dir, name, content);
    } else {
      var a := DoOpen(w, pid);
      Opens(w, pid, s, i, dir, name, content);
      var torn := Dir(dir.binding, dir.ackKey, files[name := Torn]);
      if fault.WriteFails? {
        RunTwo(w, Open(pid), Fail(pid, fault.unlinked));
        FailsAfterOpen(a, pid, fault.unlinked, s, i, Opened, torn, name, content);
        assert files[name := Torn] - {name} == files;
      } else {
        var b := DoWrite(a, pid);
        Writes(a, pid, s, i, torn, name, content);
        assert files[name := Torn][name := Written(content)] == files[name := Written(content)];
        var full := Dir(dir.binding, dir.ackKey, files[name := Written(content)]);
        assert files[name := Written(content)] - {name} == files;
        if fault.SyncFails? {
          RunThree(w, Open(pid), Write(pid), Fail(pid, fault.unlinked));
          FailsAfterOpen(b, pid, fault.unlinked, s, i, Unsynced, full, name, content);
        } else {
          RunThree(w, Open(pid), Write(pid), Close(pid));
          Closes(b, pid, s, i, full);
        }
      }
    }
  }

  lemma Opens(w: World, pid: Id, s: Script, i: nat, dir: Dir, name: Name, content: Content)
    requires Holds(w, pid, Proc(s, i, Ready), dir) && IsCreate(s, i, name, content) && name !in dir.files
    ensures Holds(DoOpen(w, pid), pid, Proc(s, i, Opened), Dir(dir.binding, dir.ackKey, dir.files[name := Torn]))
  {
    hide Ops, WriteEvents;
  }

  lemma Writes(w: World, pid: Id, s: Script, i: nat, dir: Dir, name: Name, content: Content)
    requires Holds(w, pid, Proc(s, i, Opened), dir) && IsCreate(s, i, name, content)
    ensures Holds(DoWrite(w, pid), pid, Proc(s, i, Unsynced), Dir(dir.binding, dir.ackKey, dir.files[name := Written(content)]))
  {
    hide Ops, WriteEvents;
  }

  lemma Closes(w: World, pid: Id, s: Script, i: nat, dir: Dir)
    requires Holds(w, pid, Proc(s, i, Unsynced), dir) && i < |Ops(s)|
    ensures Holds(DoClose(w, pid), pid, Proc(s, i + 1, Ready), dir)
  {
    hide Ops, CloseEvents;
  }

  lemma FailsBeforeOpen(w: World, pid: Id, s: Script, i: nat, dir: Dir, name: Name, content: Content)
    requires Holds(w, pid, Proc(s, i, Ready), dir) && IsCreate(s, i, name, content)
    ensures Holds(DoFail(w, pid, true), pid, Proc(s, i, Undoing), dir)
  {
    hide Ops;
  }

  lemma FailsAfterOpen(w: World, pid: Id, unlinked: bool, s: Script, i: nat, phase: Phase, dir: Dir, name: Name, content: Content)
    requires Holds(w, pid, Proc(s, i, phase), dir) && IsCreate(s, i, name, content) && (phase == Opened || phase == Unsynced)
    ensures Holds(DoFail(w, pid, unlinked), pid, Proc(s, i, Undoing),
                  Dir(dir.binding, dir.ackKey, if unlinked then dir.files - {name} else dir.files))
  {
    hide Ops;
  }

  /** A publication leaves the directory alone. */
  lemma PublishIsRun(w: World, pid: Id, s: Script, i: nat, dir: Dir, published: bool)
    requires Holds(w, pid, Proc(s, i, Ready), dir) && IsPublish(s, i)
    ensures Holds(Run(w, PublishSteps(pid, published)), pid, Moved(s, i, published), dir)
  {
    hide Ops, WriteEvents, CloseEvents, Run;
    if published {
      RunThree(w, Open(pid), Write(pid), Close(pid));
    } else {
      RunOne(w, Fail(pid, true));
    }
  }

  // ---- whole commands -----------------------------------------------------

  /** The process has made all its writes. */
  predicate Returned(w: World, pid: Id) {
    pid in w.procs && w.procs[pid].phase == Ready && w.procs[pid].next == |Ops(w.procs[pid].script)|
  }

  /** `steps` start `s` as process `pid`, go on with that process alone, and leave these
      files; the process comes to its end exactly when `ok`. */
  ghost predicate RunsAs(w: World, steps: seq<Step>, pid: Id, s: Script, files: Files, ok: bool) {
    steps != [] && steps[0] == Start(pid, s) && (forall i | 0 <= i < |steps| :: steps[i].pid == pid)
    && var w' := Run(w, steps);
       s.dir in w'.dirs && w'.dirs[s.dir].files == files && (Returned(w', pid) <==> ok)
  }

  lemma Starts(w: World, pid: Id, s: Script)
    requires pid !in w.procs && s.dir in w.dirs
    ensures var w' := Run(w, [Start(pid, s)]);
            w' == DoStart(w, pid, s)
            && if Reads(w, s) then Holds(w', pid, Proc(s, 0, Ready), w.dirs[s.dir])
               else w' == w
  {
    hide StartEvents, Reads;
    RunOne(w, Start(pid, s));
  }

  /** An uninterrupted `verify-ack` over delivered messages is a run of its script. */
  lemma VerifyAckIsRun(w: World, pid: Id, d: Id, now: int, c: Id, envelope: Message, ack: Message, fault: Fault)
    returns (steps: seq<Step>)
    requires pid !in w.procs && d in w.dirs && envelope in w.channel && ack in w.channel
    requires Readable(w.dirs[d], ChallengeFile) && w.dirs[d].files[ChallengeFile].content.Secret?
             ==> w.dirs[d].files[ChallengeFile].content.challenge == c
    ensures var dir := w.dirs[d];
            RunsAs(w, steps, pid, VerifyAck(d, dir.binding, dir.ackKey, c, envelope, ack), AfterAck(dir, now, envelope, ack, fault),
                   MayOpenGate(dir, now, envelope, ack) && AckAccepted !in dir.files && fault == NoFault)
  {
    hide Run, DoStart;
    var dir := w.dirs[d];
    var s := VerifyAck(d, dir.binding, dir.ackKey, c, envelope, ack);
    steps := [Start(pid, s)];
    Starts(w, pid, s);
    if MayOpenGate(dir, now, envelope, ack) {
      var more := StepsOf(dir.files, AckAccepted, pid, fault);
      CreateIsRun(Run(w, steps), pid, s, 0, dir, AckAccepted, Marker(AckAccepted, dir.binding, OfMessage(ack)), fault);
      RunConcat(w, steps, more);
      steps := steps + more;
    } else {
      steps := Refuses(w, pid, s);
    }
  }

  /** A command that finds something wrong ends without a write. */
  lemma Refuses(w: World, pid: Id, s: Script) returns (steps: seq<Step>)
    requires pid !in w.procs && s.dir in w.dirs
    ensures RunsAs(w, steps, pid, s, w.dirs[s.dir].files, false)
  {
    hide Run, Reads, StartEvents, Ops;
    steps := [Start(pid, s), Crash(pid)];
    RunTwo(w, Start(pid, s), Crash(pid));
  }

  /** Steps of the process alone bring it to `p` and its directory to `files`. */
  ghost predicate Leads(w: World, steps: seq<Step>, pid: Id, p: Proc, dir: Dir, files: Files) {
    (forall i | 0 <= i < |steps| :: steps[i].pid == pid) && Holds(Run(w, steps), pid, p, Dir(dir.binding, dir.ackKey, files))
  }

  lemma LeadsOn(w: World, steps: seq<Step>, more: seq<Step>, pid: Id, p: Proc, q: Proc, dir: Dir, files: Files, later: Files)
    requires Leads(w, steps, pid, p, dir, files) && Leads(Run(w, steps), more, pid, q, dir, later)
    ensures Leads(w, steps + more, pid, q, dir, later)
  {
    hide Run, Holds;
    RunConcat(w, steps, more);
  }

  /** The handler of the challenge command takes the challenge file back. */
  lemma UndoIsRun(w: World, pid: Id, s: Script, i: nat, dir: Dir, unlinked: bool) returns (steps: seq<Step>)
    requires Holds(w, pid, Proc(s, i, Undoing), dir) && s.EncryptChallenge? && 0 < i < |Ops(s)|
    ensures Leads(w, steps, pid, Proc(s, i, Undoing), dir, if unlinked then dir.files - {ChallengeFile} else dir.files)
  {
    hide Ops;
    steps := [];
    if unlinked {
      steps := [Undo(pid, ChallengeFile)];
      RunOne(w, steps[0]);
    }
  }

  /** From the created challenge on. */
  lemma PublishedEncryptIsRun(w: World, pid: Id, s: Script, dir: Dir, published: bool, claimFault: Fault, unlinked: bool)
    returns (steps: seq<Step>, p: Proc)
    requires s.EncryptChallenge? && Holds(w, pid, Proc(s, 1, Ready), dir) && s.binding == dir.binding
    ensures var marker := Marker(ChallengePublished, dir.binding, OfMessage(SealedChallenge(dir.binding, s.challenge)));
            var claimed := if published then AfterCreate(dir.files, ChallengePublished, marker, claimFault) else dir.files;
            var ok := published && ChallengePublished !in dir.files && claimFault == NoFault;
            p == (if ok then Proc(s, 3, Ready) else Proc(s, if published then 2 else 1, Undoing))
            && Leads(w, steps, pid, p, dir, if !ok && unlinked then claimed - {ChallengeFile} else claimed)
  {
    hide Run, Holds, Leads;
    var artifact := OfMessage(SealedChallenge(dir.binding, s.challenge));
    var marker := Marker(ChallengePublished, dir.binding, artifact);
    steps := PublishSteps(pid, published);
    p := Moved(s, 1, published);
    PublishIsRun(w, pid, s, 1, dir, published);
    assert Leads(w, steps, pid, p, dir, dir.files) by { PublishLeads(w, pid, p, dir, published); }
    var claimed := dir;
    if published {
      var more := StepsOf(dir.files, ChallengePublished, pid, claimFault);
      CreateIsRun(Run(w, steps), pid, s, 2, dir, ChallengePublished, marker, claimFault);
      claimed := Dir(dir.binding, dir.ackKey, AfterCreate(dir.files, ChallengePublished, marker, claimFault));
      var q := Moved(s, 2, ChallengePublished !in dir.files && claimFault == NoFault);
      CreateLeads(Run(w, steps), pid, q, dir, dir.files, ChallengePublished, claimFault, claimed.files);
      LeadsOn(w, steps, more, pid, p, q, dir, dir.files, claimed.files);
      steps, p := steps + more, q;
    }
    if p.phase == Undoing {
      LeadsThere(w, steps, pid, p, dir, claimed);
      var last := UndoIsRun(Run(w, steps), pid, s, p.next, claimed, unlinked);
      var files := if unlinked then claimed.files - {ChallengeFile} else claimed.files;
      SameOwner(Run(w, steps), last, pid, p, claimed, dir, files);
      LeadsOn(w, steps, last, pid, p, p, dir, claimed.files, files);
      steps := steps + last;
    }
  }

  lemma PublishLeads(w: World, pid: Id, p: Proc, dir: Dir, published: bool)
    requires Holds(Run(w, PublishSteps(pid, published)), pid, p, dir)
    ensures Leads(w, PublishSteps(pid, published), pid, p, dir, dir.files)
  {
    hide Run;
  }

  lemma CreateLeads(w: World, pid: Id, p: Proc, dir: Dir, files: Files, name: Name, fault: Fault, later: Files)
    requires Holds(Run(w, StepsOf(files, name, pid, fault)), pid, p, Dir(dir.binding, dir.ackKey, later))
    ensures Leads(w, StepsOf(files, name, pid, fault), pid, p, dir, later)
  {
    hide Run;
  }

  lemma LeadsThere(w: World, steps: seq<Step>, pid: Id, p: Proc, dir: Dir, there: Dir)
    requires Leads(w, steps, pid, p, dir, there.files) && there == Dir(dir.binding, dir.ackKey, there.files)
    ensures Holds(Run(w, steps), pid, p, there)
  {
    hide Run, Holds;
  }

  lemma SameOwner(w: World, steps: seq<Step>, pid: Id, p: Proc, dir: Dir, dir': Dir, files: Files)
    requires Leads(w, steps, pid, p, dir, files) && dir.binding == dir'.binding && dir.ackKey == dir'.ackKey
    ensures Leads(w, steps, pid, p, dir', files)
  {
    hide Run, Holds;
  }

  /** An uninterrupted `encrypt-challenge` is a run of its script. */
  lemma EncryptChallengeIsRun(w: World, pid: Id, d: Id, fault: Fault, published: bool, claimFault: Fault, unlinked: bool)
    returns (steps: seq<Step>)
    requires pid !in w.procs && d in w.dirs
    ensures var dir, c := w.dirs[d], w.nextSecret;
            RunsAs(w, steps, pid, EncryptChallenge(d, dir.binding, c), AfterEncrypt(dir, c, fault, published, claimFault, unlinked),
                   Encrypts(dir, fault, published, claimFault))
  {
    hide Run, DoStart, Leads, Holds;
    var dir, c := w.dirs[d], w.nextSecret;
    var s := EncryptChallenge(d, dir.binding, c);
    steps := [Start(pid, s)];
    Starts(w, pid, s);
    if MayEncrypt(dir) {
      var w0 := Run(w, steps);
      var more := StepsOf(dir.files, ChallengeFile, pid, fault);
      var ok := ChallengeFile !in dir.files && fault == NoFault;
      var created := AfterCreate(dir.files, ChallengeFile, Secret(c), fault);
      var p := Moved(s, 0, ok);
      CreateIsRun(w0, pid, s, 0, dir, ChallengeFile, Secret(c), fault);
      CreateLeads(w0, pid, p, dir, dir.files, ChallengeFile, fault, created);
      if ok {
        var there := Dir(dir.binding, dir.ackKey, created);
        LeadsThere(w0, more, pid, p, dir, there);
        var last, q := PublishedEncryptIsRun(Run(w0, more), pid, s, there, published, claimFault, unlinked);
        var after := AfterEncrypt(dir, c, fault, published, claimFault, unlinked);
        SameOwner(Run(w0, more), last, pid, q, there, dir, after);
        LeadsOn(w0, more, last, pid, p, q, dir, created, after);
        more, p := more + last, q;
      }
      EndsAs(w, steps, more, pid, s, p, dir, AfterEncrypt(dir, c, fault, published, claimFault, unlinked));
      steps := steps + more;
    } else {
      steps := Refuses(w, pid, s);
    }
  }

  lemma EndsAs(w: World, steps: seq<Step>, more: seq<Step>, pid: Id, s: Script, p: Proc, dir: Dir, files: Files)
    requires steps == [Start(pid, s)] && Leads(Run(w, steps), more, pid, p, dir, files) && p.script == s
    ensures RunsAs(w, steps + more, pid, s, files, p.phase == Ready && p.next == |Ops(s)|)
  {
    hide Run, Ops;
    RunConcat(w, steps, more);
  }

  /** The same for the making of a result. */
  lemma MakeResultIsRun(w: World, pid: Id, d: Id, now: int, bundle: Bundle, fault: Fault, published: bool) returns (steps: seq<Step>)
    requires pid !in w.procs && d in w.dirs && bundle.binding == w.dirs[d].binding
    ensures var dir := w.dirs[d];
            RunsAs(w, steps, pid, MakeResult(d, dir.binding, bundle), AfterResult(dir, now, bundle, fault),
                   MayStartResult(dir, now) && ResultStarted !in dir.files && fault == NoFault && published)
  {
    hide Run, DoStart;
    var dir := w.dirs[d];
    var s := MakeResult(d, dir.binding, bundle);
    steps := [Start(pid, s)];
    Starts(w, pid, s);
    if MayStartResult(dir, now) {
      var more := StepsOf(dir.files, ResultStarted, pid, fault);
      CreateIsRun(Run(w, steps), pid, s, 0, dir, ResultStarted, Marker(ResultStarted, dir.binding, OfBundle(bundle)), fault);
      RunConcat(w, steps, more);
      steps := steps + more;
      if ResultStarted !in dir.files && fault == NoFault {
        var last := PublishSteps(pid, published);
        PublishIsRun(Run(w, steps), pid, s, 1, Dir(dir.binding, dir.ackKey, AfterResult(dir, now, bundle, fault)), published);
        RunConcat(w, steps, last);
        steps := steps + last;
      }
    } else {
      steps := Refuses(w, pid, s);
    }
  }
}
