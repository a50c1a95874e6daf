/** Every run of the handoff, however it is interleaved, interrupted or replayed,
    only writes justified histories. */
module HandoffInvariant {
  import opened HandoffBinding
  import opened HandoffWorld
  import opened HandoffHistory

  ghost predicate OrchestratorDir(log: Log, d: Id) {
    exists b, k :: Prepared(d, b, k) in log
  }

  // ---- what the history knows about a state -------------------------------

  ghost predicate MessageKnown(log: Log, m: Message) {
    match m
    case Envelope(_, _, header, plain) => (
      match plain
      case Package(b, k, _) => PreparedFor(log, b, k)
      case Challenge(c) => MadeForBinding(log, header, c)
      case Result(bundle) => SealedFor(log, bundle))
    case Ack(body, mac) => DecryptedFor(log, body.binding, mac.challenge, mac.key)
  }

  ghost predicate ChannelKnown(log: Log, channel: set<Message>) {
    forall m | m in channel :: MessageKnown(log, m)
  }

  ghost predicate FileKnown(log: Log, d: Id, name: Name, file: File) {
    match name
    case PayloadPrepared => OrchestratorDir(log, d)
    case PayloadAccepted => RunnerDir(log, d)
    case ChallengeFile => file.Written? && file.content.Secret? ==> ChallengeMade(d, file.content.challenge) in log
    case ChallengePublished => RunnerDir(log, d) && (file.Written? ==> ClaimedChallenge(log, d))
    case AckAccepted => RunnerDir(log, d) && (file.Written? ==> file.content.Marker? && AckedFor(log, d, file.content.binding))
    case ResultStarted => file.Written? ==> StartedIn(log, d)
    case ResultAccepted => file.Written? ==> KeptIn(log, d)
    case _ => true
  }

  ghost predicate OriginKnown(log: Log, d: Id, dir: Dir) {
    (RunnerDir(log, d) ==> Accepted(d, dir.binding, dir.ackKey) in log && !OrchestratorDir(log, d))
    && (OrchestratorDir(log, d) ==> Prepared(d, dir.binding, dir.ackKey) in log)
  }

  ghost predicate DirKnown(log: Log, d: Id, dir: Dir) {
    OriginKnown(log, d, dir) && forall name | name in dir.files :: FileKnown(log, d, name, dir.files[name])
  }

  ghost predicate DirsKnown(log: Log, dirs: map<Id, Dir>) {
    (forall d | d in dirs :: DirKnown(log, d, dirs[d]))
    && (forall d | RunnerDir(log, d) || OrchestratorDir(log, d) :: d in dirs)
  }

  ghost predicate OutputsKnown(log: Log, outputs: map<Id, Output>) {
    forall path | path in outputs :: SealedFor(log, outputs[path].bundle)
  }

  ghost predicate ProcKnown(log: Log, p: Proc) {
    match p.script
    case PrepareInput(o, b, k) => KeyMade(o, b, k) in log && (p.next > 0 || p.phase == Unsynced ==> Prepared(o, b, k) in log)
    case AcceptInput(_, b, k, _) => PreparedFor(log, b, k)
    case EncryptChallenge(d, b, c) => RunnerDir(log, d) && MadeForBinding(log, b, c) && ChallengeMade(d, c) in log
    case VerifyChallenge(o, b, k, c, _) => Decrypted(o, b, c, k) in log
    case VerifyAck(d, b, k, c, _, _) =>
      Accepted(d, b, k) in log && ChallengeMade(d, c) in log && ClaimedChallenge(log, d) && DecryptedFor(log, b, c, k)
      && (p.phase == Unsynced ==> Acked(log, d))
    case MakeResult(d, b, bundle) =>
      AckedFor(log, d, b) && bundle.binding == b
      && (p.next > 0 || p.phase == Unsynced ==> ResultClaimed(d, bundle) in log)
    case VerifyResult(o, b, bundle, _, _) => PreparedIn(log, o, b) && SealedFor(log, bundle) && bundle.binding == b
  }

  ghost predicate ProcsKnown(log: Log, procs: map<Id, Proc>) {
    forall pid | pid in procs :: ProcKnown(log, procs[pid])
  }

  /** The process is creating the marker that opens the gate of its directory. */
  predicate HoldsGate(p: Proc) {
    p.script.VerifyAck? && p.next == 0 && (p.phase == Opened || p.phase == Unsynced)
  }

  predicate GateShut(dirs: map<Id, Dir>, d: Id) {
    d in dirs && AckAccepted in dirs[d].files
  }

  /** One process at a time creates the marker, and none does once the gate was opened. */
  ghost predicate GateSound(log: Log, dirs: map<Id, Dir>, procs: map<Id, Proc>) {
    (forall d | GateOpened(d) in log :: RunnerDir(log, d) && GateShut(dirs, d))
    && (forall pid | pid in procs && HoldsGate(procs[pid]) ::
          GateShut(dirs, procs[pid].script.dir) && GateOpened(procs[pid].script.dir) !in log)
    && (forall pid, pid' | pid in procs && pid' in procs && HoldsGate(procs[pid]) && HoldsGate(procs[pid'])
                           && procs[pid].script.dir == procs[pid'].script.dir :: pid == pid')
  }

  ghost predicate SecretsBelow(log: Log, n: nat) {
    (forall e | e in log && e.KeyMade? :: e.binding.returnKey < n)
    && (forall e | e in log && e.ChallengeMade? :: e.challenge < n)
  }

  ghost predicate Inv(w: World) {
    AllJustified(w.log) && SecretsBelow(w.log, w.nextSecret) && ChannelKnown(w.log, w.channel)
    && DirsKnown(w.log, w.dirs) && OutputsKnown(w.log, w.outputs) && ProcsKnown(w.log, w.procs) && GateSound(w.log, w.dirs, w.procs)
  }

  // ---- knowledge only grows -----------------------------------------------

  lemma ChannelStaysKnown(log: Log, e: Event, channel: set<Message>)
    requires ChannelKnown(log, channel)
    ensures ChannelKnown(log + [e], channel)
  {
    forall m | m in channel ensures MessageKnown(log + [e], m) {
      MessageStaysKnown(log, e, m);
    }
  }

  lemma MessageStaysKnown(log: Log, e: Event, m: Message)
    requires MessageKnown(log, m)
    ensures MessageKnown(log + [e], m)
  {
    match m
    case Envelope(_, _, header, plain) => {
      match plain
      case Package(b, k, _) => { var o :| Prepared(o, b, k) in log; assert Prepared(o, b, k) in log + [e]; }
      case Challenge(c) => MadeStaysKnown(log, e, header, c);
      case Result(bundle) => { var d :| ResultSealed(d, bundle) in log; assert ResultSealed(d, bundle) in log + [e]; }
    }
    case Ack(body, mac) => {
      var o :| Decrypted(o, body.binding, mac.challenge, mac.key) in log;
      assert Decrypted(o, body.binding, mac.challenge, mac.key) in log + [e];
    }
  }

  lemma MadeStaysKnown(log: Log, e: Event, b: Binding, c: Id)
    requires MadeForBinding(log, b, c)
    ensures MadeForBinding(log + [e], b, c)
  {
    var d :| AcceptedIn(log, d, b) && ChallengeMade(d, c) in log;
    var k :| Accepted(d, b, k) in log;
    assert Accepted(d, b, k) in log + [e] && ChallengeMade(d, c) in log + [e];
    assert AcceptedIn(log + [e], d, b);
  }

  lemma RunnerDirStays(log: Log, e: Event, d: Id)
    ensures RunnerDir(log, d) ==> RunnerDir(log + [e], d)
    ensures OrchestratorDir(log, d) ==> OrchestratorDir(log + [e], d)
    ensures ClaimedChallenge(log, d) ==> ClaimedChallenge(log + [e], d)
    ensures StartedIn(log, d) ==> StartedIn(log + [e], d)
    ensures KeptIn(log, d) ==> KeptIn(log + [e], d)
    ensures !e.Accepted? && RunnerDir(log + [e], d) ==> RunnerDir(log, d)
    ensures !e.Prepared? && OrchestratorDir(log + [e], d) ==> OrchestratorDir(log, d)
    ensures (e.Accepted? || e.Prepared?) && e.dir != d && RunnerDir(log + [e], d) ==> RunnerDir(log, d)
    ensures (e.Accepted? || e.Prepared?) && e.dir != d && OrchestratorDir(log + [e], d) ==> OrchestratorDir(log, d)
  {
    if b, k :| Accepted(d, b, k) in log { assert Accepted(d, b, k) in log + [e]; }
    if b, k :| Prepared(d, b, k) in log { assert Prepared(d, b, k) in log + [e]; }
    if c :| ChallengeClaimed(d, c) in log { assert ChallengeClaimed(d, c) in log + [e]; }
    if bundle :| ResultClaimed(d, bundle) in log { assert ResultClaimed(d, bundle) in log + [e]; }
    if bundle :| ResultKept(d, bundle) in log { assert ResultKept(d, bundle) in log + [e]; }
  }

  lemma AckedStays(log: Log, e: Event, d: Id, b: Binding)
    requires AckedFor(log, d, b)
    ensures AckedFor(log + [e], d, b)
  {
    var c, k :| AckClaimed(d, b, c, k) in log;
    assert AckClaimed(d, b, c, k) in log + [e];
  }

  lemma ProcStaysKnown(log: Log, e: Event, p: Proc)
    requires ProcKnown(log, p)
    ensures ProcKnown(log + [e], p)
  {
    RunnerDirStays(log, e, p.script.dir);
    match p.script
    case PrepareInput(_, _, _) =>
    case AcceptInput(_, b, k, _) => { var o :| Prepared(o, b, k) in log; assert Prepared(o, b, k) in log + [e]; }
    case EncryptChallenge(_, b, c) => MadeStaysKnown(log, e, b, c);
    case VerifyChallenge(_, _, _, _, _) =>
    case VerifyAck(d, b, k, c, _, _) => {
      var o :| Decrypted(o, b, c, k) in log;
      assert Decrypted(o, b, c, k) in log + [e];
      if b' :| AckedFor(log, d, b') { AckedStays(log, e, d, b'); }
    }
    case MakeResult(d, b, _) => AckedStays(log, e, d, b);
    case VerifyResult(o, b, bundle, _, _) => {
      var k :| Prepared(o, b, k) in log;
      var d :| ResultSealed(d, bundle) in log;
      assert Prepared(o, b, k) in log + [e] && ResultSealed(d, bundle) in log + [e];
    }
  }

  lemma ProcsStayKnown(log: Log, e: Event, procs: map<Id, Proc>)
    requires ProcsKnown(log, procs)
    ensures ProcsKnown(log + [e], procs)
  {
    hide ProcKnown;
    forall pid | pid in procs ensures ProcKnown(log + [e], procs[pid]) {
      ProcStaysKnown(log, e, procs[pid]);
    }
  }

  lemma FileStaysKnown(log: Log, e: Event, d: Id, name: Name, file: File)
    requires FileKnown(log, d, name, file)
    ensures FileKnown(log + [e], d, name, file)
  {
    hide RunnerDir, OrchestratorDir, ClaimedChallenge, StartedIn, KeptIn;
    RunnerDirStays(log, e, d);
    if name == AckAccepted && file.Written? {
      AckedStays(log, e, d, file.content.binding);
    }
  }

  lemma DirStaysKnown(log: Log, e: Event, d: Id, dir: Dir)
    requires DirKnown(log, d, dir)
    requires e.Accepted? || e.Prepared? ==> e.dir != d
    ensures DirKnown(log + [e], d, dir)
  {
    RunnerDirStays(log, e, d);
    hide FileKnown, RunnerDir, OrchestratorDir;
    forall name | name in dir.files ensures FileKnown(log + [e], d, name, dir.files[name]) {
      FileStaysKnown(log, e, d, name, dir.files[name]);
    }
  }

  /** Directories stay known when the event is not the making of one of them. */
  lemma DirsStayKnown(log: Log, e: Event, dirs: map<Id, Dir>)
    requires DirsKnown(log, dirs) && !e.Accepted? && !e.Prepared?
    ensures DirsKnown(log + [e], dirs)
  {
    hide DirKnown, RunnerDir, OrchestratorDir;
    forall d | d in dirs ensures DirKnown(log + [e], d, dirs[d]) {
      DirStaysKnown(log, e, d, dirs[d]);
    }
    forall d | RunnerDir(log + [e], d) || OrchestratorDir(log + [e], d) ensures d in dirs {
      RunnerDirStays(log, e, d);
    }
  }

  lemma OutputsStayKnown(log: Log, e: Event, outputs: map<Id, Output>)
    requires OutputsKnown(log, outputs)
    ensures OutputsKnown(log + [e], outputs)
  {
    forall path | path in outputs ensures SealedFor(log + [e], outputs[path].bundle) {
      var d :| ResultSealed(d, outputs[path].bundle) in log;
      assert ResultSealed(d, outputs[path].bundle) in log + [e];
    }
  }

  lemma GateStaysSound(log: Log, e: Event, dirs: map<Id, Dir>, procs: map<Id, Proc>)
    requires GateSound(log, dirs, procs) && !e.GateOpened?
    ensures GateSound(log + [e], dirs, procs)
  {
    hide RunnerDir, GateShut;
    forall d | GateOpened(d) in log + [e] ensures RunnerDir(log + [e], d) && GateShut(dirs, d) {
      assert GateOpened(d) in log;
      RunnerDirStays(log, e, d);
    }
  }

  /** Recording one more justified event, other than the making of a directory or
      the opening of a gate. */
  lemma RecordKeeps(w: World, e: Event)
    requires Inv(w) && Justified(w.log, e)
    requires !e.Accepted? && !e.Prepared? && !e.GateOpened?
    requires e.KeyMade? ==> e.binding.returnKey < w.nextSecret
    requires e.ChallengeMade? ==> e.challenge < w.nextSecret
    ensures Inv(Record(w, [e]))
  {
    hide Justified, AllJustified, ChannelKnown, OutputsKnown, DirsKnown, ProcsKnown, GateSound;
    Extend(w.log, e);
    ChannelStaysKnown(w.log, e, w.channel);
    OutputsStayKnown(w.log, e, w.outputs);
    DirsStayKnown(w.log, e, w.dirs);
    ProcsStayKnown(w.log, e, w.procs);
    GateStaysSound(w.log, e, w.dirs, w.procs);
  }

  // ---- what a command has read --------------------------------------------

  lemma ReadFile(w: World, d: Id, name: Name)
    requires Inv(w) && d in w.dirs && name in w.dirs[d].files
    ensures FileKnown(w.log, d, name, w.dirs[d].files[name]) && OriginKnown(w.log, d, w.dirs[d])
  {
    assert DirKnown(w.log, d, w.dirs[d]);
  }

  lemma ReadMessage(w: World, m: Message)
    requires Inv(w) && m in w.channel
    ensures MessageKnown(w.log, m)
  {
  }

  lemma PrepareReads(w: World, s: Script)
    requires Inv(w) && Reads(w, s) && s.PrepareInput?
    ensures Justified(w.log, StartEvents(s)[0]) && ProcKnown(w.log + StartEvents(s), Proc(s, 0, Ready))
  {
    hide AllJustified, ChannelKnown, OutputsKnown, DirsKnown, ProcsKnown, GateSound;
  }

  lemma AcceptReads(w: World, s: Script)
    requires Inv(w) && Reads(w, s) && s.AcceptInput?
    ensures ProcKnown(w.log, Proc(s, 0, Ready))
  {
    hide Inv;
    ReadMessage(w, s.payload);
  }

  lemma EncryptReads(w: World, s: Script)
    requires Inv(w) && Reads(w, s) && s.EncryptChallenge?
    ensures Justified(w.log, StartEvents(s)[0]) && ProcKnown(w.log + StartEvents(s), Proc(s, 0, Ready))
  {
    var log, d, e := w.log, s.dir, StartEvents(s)[0];
    ReadFile(w, d, PayloadAccepted);
    assert ChallengeUnused(log, s.challenge);
    hide Inv, ChallengeUnused;
    RunnerDirStays(log, e, d);
    var k := w.dirs[d].ackKey;
    assert Accepted(d, s.binding, k) in log + [e] && ChallengeMade(d, s.challenge) in log + [e];
    assert AcceptedIn(log + [e], d, s.binding);
  }

  lemma ChallengeReads(w: World, s: Script)
    requires Inv(w) && Reads(w, s) && s.VerifyChallenge?
    ensures Justified(w.log, StartEvents(s)[0]) && ProcKnown(w.log + StartEvents(s), Proc(s, 0, Ready))
  {
    hide Inv, MadeForBinding, RunnerDir;
    ReadFile(w, s.dir, PayloadPrepared);
    ReadMessage(w, s.envelope);
  }

  lemma AckReads(w: World, s: Script)
    requires Inv(w) && Reads(w, s) && s.VerifyAck?
    ensures ProcKnown(w.log, Proc(s, 0, Ready))
  {
    hide Inv, ClaimedChallenge, RunnerDir, DecryptedFor;
    ReadFile(w, s.dir, ChallengePublished);
    ReadFile(w, s.dir, ChallengeFile);
    ReadMessage(w, s.ack);
  }

  lemma MakeReads(w: World, s: Script)
    requires Inv(w) && Reads(w, s) && s.MakeResult?
    ensures ProcKnown(w.log, Proc(s, 0, Ready))
  {
    hide Inv, RunnerDir;
    ReadFile(w, s.dir, AckAccepted);
  }

  lemma ResultReads(w: World, s: Script)
    requires Inv(w) && Reads(w, s) && s.VerifyResult?
    ensures ProcKnown(w.log, Proc(s, 0, Ready))
  {
    hide Inv, SealedFor, RunnerDir;
    ReadFile(w, s.dir, PayloadPrepared);
    ReadMessage(w, s.envelope);
  }

  lemma ReadsAreKnown(w: World, s: Script)
    requires Inv(w) && Reads(w, s)
    ensures StartEvents(s) != [] ==> Justified(w.log, StartEvents(s)[0])
    ensures ProcKnown(w.log + StartEvents(s), Proc(s, 0, Ready))
  {
    hide Inv, Reads, Justified, ProcKnown;
    assert w.log + [] == w.log;
    match s
    case PrepareInput(_, _, _) => PrepareReads(w, s);
    case AcceptInput(_, _, _, _) => AcceptReads(w, s);
    case EncryptChallenge(_, _, _) => EncryptReads(w, s);
    case VerifyChallenge(_, _, _, _, _) => ChallengeReads(w, s);
    case VerifyAck(_, _, _, _, _, _) => AckReads(w, s);
    case MakeResult(_, _, _) => MakeReads(w, s);
    case VerifyResult(_, _, _, _, _) => ResultReads(w, s);
  }

  lemma KnownProc(w: World, pid: Id)
    requires Inv(w) && pid in w.procs
    ensures ProcKnown(w.log, w.procs[pid])
  {
  }

  // ---- replacing one process ----------------------------------------------

  /** A process that is known and does not hold the gate can take any place. */
  lemma ReplaceProc(w: World, pid: Id, p: Proc)
    requires Inv(w) && ProcKnown(w.log, p)
    requires HoldsGate(p) ==> pid in w.procs && HoldsGate(w.procs[pid]) && w.procs[pid].script.dir == p.script.dir
    ensures Inv(w.(procs := w.procs[pid := p]))
  {
    hide ProcKnown, AllJustified, SecretsBelow, ChannelKnown, OutputsKnown, DirsKnown, RunnerDir, GateShut;
  }

  lemma StartKeeps(w: World, pid: Id, s: Script)
    requires Inv(w)
    ensures Inv(DoStart(w, pid, s))
  {
    hide Inv, ProcKnown, Reads, Justified, StartEvents, HoldsGate;
    if pid !in w.procs && Reads(w, s) {
      ReadsAreKnown(w, s);
      StartRecorded(w, s);
      var w2 := Record(World(w.dirs, w.outputs, w.channel, w.procs, w.log, w.nextSecret + 2), StartEvents(s));
      var p := Proc(s, 0, Ready);
      ReadyHoldsNothing(p);
      ReplaceProc(w2, pid, p);
    }
  }

  lemma ReadyHoldsNothing(p: Proc)
    requires p.phase == Ready
    ensures !HoldsGate(p)
  {
  }

  lemma StartRecorded(w: World, s: Script)
    requires Inv(w) && Reads(w, s) && (StartEvents(s) != [] ==> Justified(w.log, StartEvents(s)[0]))
    ensures Inv(Record(World(w.dirs, w.outputs, w.channel, w.procs, w.log, w.nextSecret + 2), StartEvents(s)))
  {
    var w1 := World(w.dirs, w.outputs, w.channel, w.procs, w.log, w.nextSecret + 2);
    assert Inv(w1) by { hide AllJustified, ChannelKnown, DirsKnown, OutputsKnown, ProcsKnown, GateSound; }
    StartSecrets(w, s);
    hide Inv, Reads, Justified;
    if StartEvents(s) == [] {
      assert w.log + [] == w.log;
    } else {
      assert StartEvents(s) == [StartEvents(s)[0]];
      RecordKeeps(w1, StartEvents(s)[0]);
    }
  }

  lemma StartSecrets(w: World, s: Script)
    requires Reads(w, s)
    ensures |StartEvents(s)| <= 1
    ensures forall e | e in StartEvents(s) :: !e.Accepted? && !e.Prepared? && !e.GateOpened?
    ensures forall e | e in StartEvents(s) && e.KeyMade? :: e.binding.returnKey < w.nextSecret + 2
    ensures forall e | e in StartEvents(s) && e.ChallengeMade? :: e.challenge < w.nextSecret + 2
  {
  }

  // ---- changing one file --------------------------------------------------

  /** Creating or filling a file keeps everything known. */
  lemma SetFileKeeps(w: World, d: Id, name: Name, file: File)
    requires Inv(w) && d in w.dirs && FileKnown(w.log, d, name, file)
    ensures Inv(SetFile(w, d, name, file))
  {
    hide FileKnown, OriginKnown, AllJustified, SecretsBelow, ChannelKnown, OutputsKnown, ProcsKnown, RunnerDir, OrchestratorDir;
    var w' := SetFile(w, d, name, file);
    assert DirKnown(w.log, d, w.dirs[d]);
    assert DirKnown(w.log, d, w'.dirs[d]) by { OriginIgnoresFiles(w.log, d, w.dirs[d], w'.dirs[d]); }
  }

  lemma OriginIgnoresFiles(log: Log, d: Id, dir: Dir, dir': Dir)
    requires OriginKnown(log, d, dir) && dir'.binding == dir.binding && dir'.ackKey == dir.ackKey
    ensures OriginKnown(log, d, dir')
  {
  }

  /** Removing a file keeps everything known, if it is not a marker the gate rests on. */
  lemma UnlinkKeeps(w: World, d: Id, name: Name)
    requires Inv(w) && d in w.dirs
    requires name == AckAccepted ==>
               GateOpened(d) !in w.log && forall pid | pid in w.procs && HoldsGate(w.procs[pid]) :: w.procs[pid].script.dir != d
    ensures Inv(Unlink(w, d, name))
  {
    hide FileKnown, OriginKnown, AllJustified, SecretsBelow, ChannelKnown, OutputsKnown, ProcsKnown, RunnerDir, OrchestratorDir;
    var w' := Unlink(w, d, name);
    assert DirKnown(w.log, d, w.dirs[d]);
    assert DirKnown(w.log, d, w'.dirs[d]) by { OriginIgnoresFiles(w.log, d, w.dirs[d], w'.dirs[d]); }
  }

  // ---- the steps of one command -------------------------------------------

  /** What a command writes is known once its events are recorded. */
  lemma WriteIsKnown(log: Log, p: Proc)
    requires ProcKnown(log, p) && p.next < |Ops(p.script)|
    requires Ops(p.script)[p.next].CreateFile? || Ops(p.script)[p.next].Publish?
    ensures |WriteEvents(p.script, p.next)| <= 1
    ensures forall e | e in WriteEvents(p.script, p.next) ::
              Justified(log, e) && (e.ChallengeClaimed? || e.AckClaimed? || e.ResultClaimed? || e.ResultSealed? || e.ResultKept?)
  {
  }

  lemma FileWriteIsKnown(log: Log, p: Proc)
    requires ProcKnown(log, p) && p.next < |Ops(p.script)| && Ops(p.script)[p.next].CreateFile?
    ensures FileKnown(log, p.script.dir, Ops(p.script)[p.next].name, Torn)
    ensures FileKnown(log + WriteEvents(p.script, p.next), p.script.dir, Ops(p.script)[p.next].name,
                      Written(Ops(p.script)[p.next].content))
    ensures ProcKnown(log + WriteEvents(p.script, p.next), Proc(p.script, p.next, Unsynced))
  {
    var d, events := p.script.dir, WriteEvents(p.script, p.next);
    if events == [] {
      assert log + events == log;
    } else {
      var e := events[0];
      assert events == [e];
      assert e in log + [e];
      ProcStaysKnown(log, e, p);
      RunnerDirStays(log, e, d);
      if p.script.VerifyAck? {
        assert AckedFor(log + [e], d, p.script.binding);
      }
    }
  }

  lemma PublishIsKnown(log: Log, p: Proc)
    requires ProcKnown(log, p) && p.next < |Ops(p.script)| && Ops(p.script)[p.next].Publish?
    ensures MessageKnown(log + WriteEvents(p.script, p.next), Ops(p.script)[p.next].message)
    ensures ProcKnown(log + WriteEvents(p.script, p.next), Proc(p.script, p.next, Unsynced))
  {
    var d, events := p.script.dir, WriteEvents(p.script, p.next);
    if events == [] {
      assert log + events == log;
    } else {
      var e := events[0];
      assert events == [e];
      assert e in log + [e];
      ProcStaysKnown(log, e, p);
    }
  }

  lemma RecordWrite(w: World, p: Proc)
    requires Inv(w) && ProcKnown(w.log, p) && p.next < |Ops(p.script)|
    requires Ops(p.script)[p.next].CreateFile? || Ops(p.script)[p.next].Publish?
    ensures Inv(Record(w, WriteEvents(p.script, p.next)))
  {
    WriteIsKnown(w.log, p);
    hide Inv, ProcKnown, WriteEvents, Ops, Justified;
    var events := WriteEvents(p.script, p.next);
    if events == [] {
      assert w.log + events == w.log;
    } else {
      assert events == [events[0]];
      RecordKeeps(w, events[0]);
    }
  }

  lemma WriteKeeps(w: World, pid: Id)
    requires Inv(w)
    ensures Inv(DoWrite(w, pid))
  {
    if At(w, pid, Opened) {
      var p := w.procs[pid];
      var op := OpAt(w, pid);
      assert ProcKnown(w.log, p) && (HoldsGate(p) <==> HoldsGate(Proc(p.script, p.next, Unsynced)));
      if op.CreateFile? && p.script.dir in w.dirs {
        RecordWrite(w, p);
        FileWriteIsKnown(w.log, p);
        hide Inv, ProcKnown, WriteEvents, FileKnown, HoldsGate, Ops;
        var w1 := Record(w, WriteEvents(p.script, p.next));
        SetFileKeeps(w1, p.script.dir, op.name, Written(op.content));
        ReplaceProc(SetFile(w1, p.script.dir, op.name, Written(op.content)), pid, Proc(p.script, p.next, Unsynced));
      } else if op.Publish? {
        RecordWrite(w, p);
        PublishIsKnown(w.log, p);
        hide ProcKnown, WriteEvents, MessageKnown, HoldsGate, Ops, AllJustified, SecretsBelow, DirsKnown, ProcsKnown, GateSound;
        var w1 := Record(w, WriteEvents(p.script, p.next));
        var w2 := w1.(channel := w1.channel + {op.message});
        assert Inv(w2);
        hide Inv;
        ReplaceProc(w2, pid, Proc(p.script, p.next, Unsynced));
      }
    }
  }

  lemma NewDirKnown(log: Log, d: Id, created: Dir, e: Event)
    requires !RunnerDir(log, d) && !OrchestratorDir(log, d)
    requires e == Prepared(d, created.binding, created.ackKey) || e == Accepted(d, created.binding, created.ackKey)
    ensures OriginKnown(log + [e], d, created)
  {
    RunnerDirStays(log, e, d);
    assert e in log + [e];
  }

  lemma NewDirsKnown(log: Log, dirs: map<Id, Dir>, d: Id, created: Dir, e: Event)
    requires DirsKnown(log, dirs) && d !in dirs
    requires e == Prepared(d, created.binding, created.ackKey) || e == Accepted(d, created.binding, created.ackKey)
    requires forall name | name in created.files :: FileKnown(log + [e], d, name, created.files[name])
    ensures DirsKnown(log + [e], dirs[d := created])
  {
    NewDirKnown(log, d, created, e);
    assert DirKnown(log + [e], d, created);
    hide DirKnown, RunnerDir, OrchestratorDir;
    forall d' | d' in dirs ensures DirKnown(log + [e], d', dirs[d']) {
      DirStaysKnown(log, e, d', dirs[d']);
    }
    forall d' | RunnerDir(log + [e], d') || OrchestratorDir(log + [e], d') ensures d' in dirs[d := created] {
      RunnerDirStays(log, e, d');
    }
  }

  lemma CommitKeeps(w: World, d: Id, created: Dir, e: Event)
    requires Inv(w) && d !in w.dirs && Justified(w.log, e)
    requires e == Prepared(d, created.binding, created.ackKey) || e == Accepted(d, created.binding, created.ackKey)
    requires forall name | name in created.files :: FileKnown(w.log + [e], d, name, created.files[name])
    ensures Inv(Record(w.(dirs := w.dirs[d := created]), [e]))
  {
    hide Justified, AllJustified, ChannelKnown, OutputsKnown, ProcsKnown, FileKnown, DirsKnown;
    var dirs := w.dirs[d := created];
    Extend(w.log, e);
    ChannelStaysKnown(w.log, e, w.channel);
    OutputsStayKnown(w.log, e, w.outputs);
    ProcsStayKnown(w.log, e, w.procs);
    NewDirsKnown(w.log, w.dirs, d, created, e);
    assert GateSound(w.log, dirs, w.procs) by { hide RunnerDir; }
    hide GateSound;
    GateStaysSound(w.log, e, dirs, w.procs);
  }

  lemma UnusedDir(w: World, d: Id)
    requires Inv(w) && d !in w.dirs
    ensures DirUnused(w.log, d)
  {
    assert !RunnerDir(w.log, d) && !OrchestratorDir(w.log, d);
  }

  lemma CommitIsJustified(w: World, p: Proc)
    requires Inv(w) && ProcKnown(w.log, p) && p.next < |Ops(p.script)|
    requires Ops(p.script)[p.next].CommitDir? && p.script.dir !in w.dirs
    ensures |WriteEvents(p.script, p.next)| == 1
    ensures var created, e := Ops(p.script)[p.next].created, WriteEvents(p.script, p.next)[0];
            Justified(w.log, e)
            && (e == Prepared(p.script.dir, created.binding, created.ackKey) || e == Accepted(p.script.dir, created.binding, created.ackKey))
            && (forall name | name in created.files :: FileKnown(w.log + [e], p.script.dir, name, created.files[name]))
            && ProcKnown(w.log + [e], Proc(p.script, p.next + 1, Ready))
  {
    UnusedDir(w, p.script.dir);
    hide Inv, DirUnused;
    var e := WriteEvents(p.script, p.next)[0];
    assert e in w.log + [e];
    assert e.Accepted? ==> RunnerDir(w.log + [e], p.script.dir);
    assert e.Prepared? ==> OrchestratorDir(w.log + [e], p.script.dir);
    ProcStaysKnown(w.log, e, p);
  }

  /** The two commits of a state directory. */
  lemma CommitIsKnown(w: World, pid: Id)
    requires Inv(w) && At(w, pid, Ready) && OpAt(w, pid).CommitDir?
    requires w.procs[pid].script.dir !in w.dirs
    ensures Inv(DoOpen(w, pid))
  {
    hide Inv, ProcKnown, Justified, FileKnown, WriteEvents, Ops;
    var p := w.procs[pid];
    var d, created, events := p.script.dir, OpAt(w, pid).created, WriteEvents(p.script, p.next);
    var q := Proc(p.script, p.next + 1, Ready);
    var w1 := Record(w.(dirs := w.dirs[d := created]), events);
    assert !HoldsGate(q);
    KnownProc(w, pid);
    hide DoOpen, HoldsGate;
    CommitIsJustified(w, p);
    assert events == [events[0]];
    CommitKeeps(w, d, created, events[0]);
    ReplaceProc(w1, pid, q);
    CommitShape(w, pid);
  }

  lemma CommitShape(w: World, pid: Id)
    requires At(w, pid, Ready) && OpAt(w, pid).CommitDir? && w.procs[pid].script.dir !in w.dirs
    requires var p := w.procs[pid];
             var w1 := Record(w.(dirs := w.dirs[p.script.dir := OpAt(w, pid).created]), WriteEvents(p.script, p.next));
             Inv(w1.(procs := w1.procs[pid := Proc(p.script, p.next + 1, Ready)]))
    ensures Inv(DoOpen(w, pid))
  {
    hide Ops, WriteEvents, Inv;
  }

  lemma OpenKeeps(w: World, pid: Id)
    requires Inv(w)
    ensures Inv(DoOpen(w, pid))
  {
    if At(w, pid, Ready) {
      var p := w.procs[pid];
      var op := OpAt(w, pid);
      assert ProcKnown(w.log, p);
      match op
      case CommitDir(_) => if p.script.dir !in w.dirs { CommitIsKnown(w, pid); }
      case CommitOutput(path, output) =>
        if path !in w.outputs {
          var w1 := w.(outputs := w.outputs[path := output]);
          assert w.log + [] == w.log && WriteEvents(p.script, p.next) == [];
          ReplaceProc(w1, pid, Proc(p.script, p.next + 1, Ready));
        }
      case CreateFile(name, _) =>
        if p.script.dir in w.dirs && name !in w.dirs[p.script.dir].files {
          OpenFileKeeps(w, pid);
        }
      case Publish(_) => ReplaceProc(w, pid, Proc(p.script, p.next, Opened));
    }
  }

  /** A process takes hold of a gate that nobody holds. */
  lemma TakeGate(w: World, pid: Id, q: Proc)
    requires Inv(w) && ProcKnown(w.log, q) && pid in w.procs && HoldsGate(q)
    requires GateShut(w.dirs, q.script.dir) && GateOpened(q.script.dir) !in w.log
    requires forall pid' | pid' in w.procs && HoldsGate(w.procs[pid']) :: w.procs[pid'].script.dir != q.script.dir
    ensures Inv(w.(procs := w.procs[pid := q]))
  {
    hide ProcKnown, AllJustified, SecretsBelow, ChannelKnown, OutputsKnown, DirsKnown, RunnerDir, GateShut, HoldsGate;
  }

  /** Only one process can create a marker: the gate stays in one hand. */
  lemma OpenFileKeeps(w: World, pid: Id)
    requires Inv(w) && At(w, pid, Ready) && OpAt(w, pid).CreateFile?
    requires w.procs[pid].script.dir in w.dirs && OpAt(w, pid).name !in w.dirs[w.procs[pid].script.dir].files
    ensures Inv(DoOpen(w, pid))
  {
    hide Inv, ProcKnown, FileKnown, Ops, DoOpen, WriteEvents, HoldsGate;
    var p := w.procs[pid];
    var d, name, q := p.script.dir, OpAt(w, pid).name, Proc(p.script, p.next, Opened);
    var w1 := SetFile(w, d, name, Torn);
    KnownProc(w, pid);
    OpenedIsKnown(w.log, p);
    FileWriteIsKnown(w.log, p);
    SetFileKeeps(w, d, name, Torn);
    if HoldsGate(q) {
      HolderCreatesGate(p);
      assert !GateShut(w.dirs, d) && GateShut(w1.dirs, d);
      NobodyHolds(w, d);
      TakeGate(w1, pid, q);
    } else {
      ReplaceProc(w1, pid, q);
    }
    OpenShape(w, pid, q);
  }

  lemma HolderCreatesGate(p: Proc)
    requires HoldsGate(Proc(p.script, p.next, Opened)) && p.next < |Ops(p.script)| && Ops(p.script)[p.next].CreateFile?
    ensures Ops(p.script)[p.next].name == AckAccepted
  {
  }

  lemma OpenShape(w: World, pid: Id, q: Proc)
    requires At(w, pid, Ready) && OpAt(w, pid).CreateFile? && q == Proc(w.procs[pid].script, w.procs[pid].next, Opened)
    requires w.procs[pid].script.dir in w.dirs && OpAt(w, pid).name !in w.dirs[w.procs[pid].script.dir].files
    requires var w1 := SetFile(w, w.procs[pid].script.dir, OpAt(w, pid).name, Torn);
             Inv(w1.(procs := w1.procs[pid := q]))
    ensures Inv(DoOpen(w, pid))
  {
    hide Inv, Ops, WriteEvents;
  }

  lemma OpenedIsKnown(log: Log, p: Proc)
    requires ProcKnown(log, p)
    ensures ProcKnown(log, Proc(p.script, p.next, Opened))
  {
    hide MadeForBinding, RunnerDir, PreparedFor, AckedFor, SealedFor;
  }

  lemma NobodyHolds(w: World, d: Id)
    requires Inv(w) && !GateShut(w.dirs, d)
    ensures GateOpened(d) !in w.log
    ensures forall pid | pid in w.procs && HoldsGate(w.procs[pid]) :: w.procs[pid].script.dir != d
  {
  }

  lemma ClosedIsKnown(log: Log, p: Proc)
    requires ProcKnown(log, p) && p.phase == Unsynced && p.next < |Ops(p.script)|
    ensures ProcKnown(log, Proc(p.script, p.next + 1, Ready)) && !HoldsGate(Proc(p.script, p.next + 1, Ready))
    ensures p.script.VerifyAck? ==> Acked(log, p.script.dir) && RunnerDir(log, p.script.dir) && HoldsGate(p)
  {
    hide MadeForBinding, PreparedFor, AckedFor, SealedFor;
  }

  lemma CloseKeeps(w: World, pid: Id)
    requires Inv(w)
    ensures Inv(DoClose(w, pid))
  {
    hide Inv;
    if At(w, pid, Unsynced) {
      CloseOne(w, pid);
    }
  }

  lemma CloseOne(w: World, pid: Id)
    requires Inv(w) && At(w, pid, Unsynced)
    ensures Inv(DoClose(w, pid))
  {
    hide Inv, ProcKnown, HoldsGate, DoClose, Ops, GateShut, Record, CloseEvents, Acked, RunnerDir;
    var p := w.procs[pid];
    var q := Proc(p.script, p.next + 1, Ready);
    KnownProc(w, pid);
    ClosedIsKnown(w.log, p);
    ReplaceProc(w, pid, q);
    if p.script.VerifyAck? { HolderLetsGo(w, pid, q); }
    RecordClose(w.(procs := w.procs[pid := q]), p.script);
    CloseShape(w, pid, q);
  }

  lemma RecordClose(w: World, s: Script)
    requires Inv(w)
    requires s.VerifyAck? ==>
               Acked(w.log, s.dir) && RunnerDir(w.log, s.dir) && GateOpened(s.dir) !in w.log && GateShut(w.dirs, s.dir)
    requires s.VerifyAck? ==>
               forall pid | pid in w.procs && HoldsGate(w.procs[pid]) :: w.procs[pid].script.dir != s.dir
    ensures Inv(Record(w, CloseEvents(s)))
  {
    hide Inv, HoldsGate, GateShut, Acked, RunnerDir;
    if s.VerifyAck? {
      RecordGate(w, s.dir);
    } else {
      assert w.log + [] == w.log;
    }
  }

  lemma CloseShape(w: World, pid: Id, q: Proc)
    requires At(w, pid, Unsynced) && q == Proc(w.procs[pid].script, w.procs[pid].next + 1, Ready)
    requires Inv(Record(w.(procs := w.procs[pid := q]), CloseEvents(q.script)))
    ensures Inv(DoClose(w, pid))
  {
    hide Ops, Inv;
  }

  lemma HolderLetsGo(w: World, pid: Id, q: Proc)
    requires Inv(w) && pid in w.procs && HoldsGate(w.procs[pid]) && !HoldsGate(q)
    ensures var d, procs := w.procs[pid].script.dir, w.procs[pid := q];
            GateShut(w.dirs, d) && GateOpened(d) !in w.log
            && forall pid' | pid' in procs && HoldsGate(procs[pid']) :: procs[pid'].script.dir != d
  {
    hide HoldsGate, GateShut;
  }

  lemma RecordGate(w: World, d: Id)
    requires Inv(w) && Acked(w.log, d) && RunnerDir(w.log, d) && GateOpened(d) !in w.log && GateShut(w.dirs, d)
    requires forall pid | pid in w.procs && HoldsGate(w.procs[pid]) :: w.procs[pid].script.dir != d
    ensures Inv(Record(w, [GateOpened(d)]))
  {
    hide Justified, AllJustified, ChannelKnown, OutputsKnown, DirsKnown, ProcsKnown, GateSound, RunnerDir, Acked, HoldsGate;
    var e := GateOpened(d);
    GateIsJustified(w.log, d);
    Extend(w.log, e);
    ChannelStaysKnown(w.log, e, w.channel);
    OutputsStayKnown(w.log, e, w.outputs);
    DirsStayKnown(w.log, e, w.dirs);
    ProcsStayKnown(w.log, e, w.procs);
    GateOpensSoundly(w.log, d, w.dirs, w.procs);
  }

  lemma GateIsJustified(log: Log, d: Id)
    requires Acked(log, d) && GateOpened(d) !in log
    ensures Justified(log, GateOpened(d))
  {
  }

  lemma GateOpensSoundly(log: Log, d: Id, dirs: map<Id, Dir>, procs: map<Id, Proc>)
    requires GateSound(log, dirs, procs) && RunnerDir(log, d) && GateShut(dirs, d)
    requires forall pid | pid in procs && HoldsGate(procs[pid]) :: procs[pid].script.dir != d
    ensures GateSound(log + [GateOpened(d)], dirs, procs)
  {
    hide RunnerDir, GateShut;
    forall d' | GateOpened(d') in log + [GateOpened(d)] ensures RunnerDir(log + [GateOpened(d)], d') && GateShut(dirs, d') {
      RunnerDirStays(log, GateOpened(d), d');
    }
  }

  lemma UndoingIsKnown(log: Log, p: Proc)
    requires ProcKnown(log, p)
    ensures ProcKnown(log, Proc(p.script, p.next, Undoing)) && !HoldsGate(Proc(p.script, p.next, Undoing))
  {
    hide MadeForBinding, RunnerDir, PreparedFor, AckedFor, SealedFor;
  }

  lemma FailKeeps(w: World, pid: Id, unlinked: bool)
    requires Inv(w)
    ensures Inv(DoFail(w, pid, unlinked))
  {
    hide Inv, ProcKnown, Ops, HoldsGate;
    if At(w, pid, Ready) || At(w, pid, Opened) || At(w, pid, Unsynced) {
      var p := w.procs[pid];
      var op, d, q := OpAt(w, pid), p.script.dir, Proc(p.script, p.next, Undoing);
      KnownProc(w, pid);
      UndoingIsKnown(w.log, p);
      ReplaceProc(w, pid, q);
      var w1 := w.(procs := w.procs[pid := q]);
      if p.phase != Ready && op.CreateFile? && unlinked && d in w.dirs {
        if op.name == AckAccepted {
          CreatorHolds(p);
          HolderLetsGo(w, pid, q);
        }
        UnlinkKeeps(w1, d, op.name);
      }
    }
  }

  lemma CreatorHolds(p: Proc)
    requires p.next < |Ops(p.script)| && Ops(p.script)[p.next].CreateFile? && Ops(p.script)[p.next].name == AckAccepted
    requires p.phase == Opened || p.phase == Unsynced
    ensures HoldsGate(p)
  {
  }

  lemma UndoKeeps(w: World, pid: Id, name: Name)
    requires Inv(w)
    ensures Inv(DoUndo(w, pid, name))
  {
    if At(w, pid, Undoing) {
      var p := w.procs[pid];
      var d := p.script.dir;
      assert ProcKnown(w.log, p);
      if p.script.EncryptChallenge? && d in w.dirs {
        UnlinkKeeps(w, d, ChallengeFile);
      }
      if p.script.PrepareInput? && p.next == 1 && d in w.dirs {
        NoGateInOrchestratorDir(w, d);
        hide AllJustified, SecretsBelow, ChannelKnown, OutputsKnown, DirsKnown, ProcsKnown, ProcKnown, GateSound;
        UnlinkKeeps(w, d, name);
      }
    }
  }

  lemma NoGateInOrchestratorDir(w: World, d: Id)
    requires Inv(w) && OrchestratorDir(w.log, d) && d in w.dirs
    ensures GateOpened(d) !in w.log
    ensures forall pid | pid in w.procs && HoldsGate(w.procs[pid]) :: w.procs[pid].script.dir != d
  {
    assert DirKnown(w.log, d, w.dirs[d]);
    assert !RunnerDir(w.log, d);
    assert AckAccepted in w.dirs[d].files ==> FileKnown(w.log, d, AckAccepted, w.dirs[d].files[AckAccepted]);
  }

  lemma CrashKeeps(w: World, pid: Id)
    requires Inv(w)
    ensures Inv(DoCrash(w, pid))
  {
    hide ProcKnown, AllJustified, SecretsBelow, ChannelKnown, OutputsKnown, DirsKnown, RunnerDir;
  }

  // ---- whole runs ---------------------------------------------------------

  lemma ApplyKeeps(w: World, step: Step)
    requires Inv(w)
    ensures Inv(Apply(w, step))
  {
    hide Inv, DoStart, DoOpen, DoWrite, DoClose, DoFail, DoUndo, DoCrash;
    match step
    case Start(pid, s) => StartKeeps(w, pid, s);
    case Open(pid) => OpenKeeps(w, pid);
    case Write(pid) => WriteKeeps(w, pid);
    case Close(pid) => CloseKeeps(w, pid);
    case Fail(pid, unlinked) => FailKeeps(w, pid, unlinked);
    case Undo(pid, name) => UndoKeeps(w, pid, name);
    case Crash(pid) => CrashKeeps(w, pid);
  }

  lemma {:induction false} RunKeeps(w: World, steps: seq<Step>)
    requires Inv(w)
    ensures Inv(Run(w, steps))
    decreases |steps|
  {
    hide Inv, Apply;
    if steps != [] {
      ApplyKeeps(w, steps[0]);
      RunKeeps(Apply(w, steps[0]), steps[1..]);
    }
  }

  /** Whatever commands run, in whatever order and however they fail, from no state
      directories at all: every event of the history is justified by those before it. */
  lemma EveryRunIsJustified(steps: seq<Step>)
    ensures AllJustified(Run(EMPTY_WORLD, steps).log)
  {
    assert Inv(EMPTY_WORLD);
    RunKeeps(EMPTY_WORLD, steps);
  }

  /** A readable ack-accepted marker in any state reached proves that the orchestrator
      which prepared this directory's binding decrypted this directory's challenge. */
  lemma GateFileProvesPossession(steps: seq<Step>, d: Id) returns (o: Id, c: Id)
    requires var w := Run(EMPTY_WORLD, steps); d in w.dirs && Claimed(w.dirs[d], AckAccepted)
    ensures var w := Run(EMPTY_WORLD, steps); var dir := w.dirs[d];
            PossessionProven(w.log, o, d, dir.binding, c, dir.ackKey) && Exclusive(w.log, o, d, dir.binding, c, dir.ackKey)
  {
    var w := Run(EMPTY_WORLD, steps);
    assert Inv(w) by { RunKeeps(EMPTY_WORLD, steps); }
    var b, log := w.dirs[d].binding, w.log;
    ReadFile(w, d, AckAccepted);
    assert AllJustified(log);
    hide Inv, AllJustified, PossessionProven, Exclusive, FileKnown;
    assert AckedFor(log, d, b) by { AckFileKnown(log, d, w.dirs[d]); }
    o, c := AckedProves(log, d, b, w.dirs[d].ackKey);
  }

  lemma AckFileKnown(log: Log, d: Id, dir: Dir)
    requires Claimed(dir, AckAccepted) && FileKnown(log, d, AckAccepted, dir.files[AckAccepted])
    ensures AckedFor(log, d, dir.binding) && RunnerDir(log, d)
  {
  }

  lemma AckedProves(log: Log, d: Id, b: Binding, ackKey: Id) returns (o: Id, c: Id)
    requires AllJustified(log) && AckedFor(log, d, b) && Accepted(d, b, ackKey) in log
    ensures PossessionProven(log, o, d, b, c, ackKey) && Exclusive(log, o, d, b, c, ackKey)
  {
    hide AllJustified, Exclusive;
    var k: Id;
    c, k :| AckClaimed(d, b, c, k) in log;
    var i := JustifiedAt(log, AckClaimed(d, b, c, k));
    o := OpenGateProvesPossession(log, i, d, b, c, k);
    assert log[..|log|] == log;
    StaysKnown(log, i, |log|, Accepted(d, b, k));
    OneInputPerRunner(log, d, b, ackKey, b, k);
    StaysKnown(log, i, |log|, Prepared(o, b, k));
    StaysKnown(log, i, |log|, ChallengeMade(d, c));
    StaysKnown(log, i, |log|, Decrypted(o, b, c, k));
    var c' :| ChallengeClaimed(d, c') in log[..i];
    StaysKnown(log, i, |log|, ChallengeClaimed(d, c'));
  }

  /** Whatever lies in a result directory was sealed by a runner whose gate was open. */
  lemma OutputsWereSealed(steps: seq<Step>, path: Id) returns (d: Id)
    requires path in Run(EMPTY_WORLD, steps).outputs
    ensures var w := Run(EMPTY_WORLD, steps); var bundle := w.outputs[path].bundle;
            ResultSealed(d, bundle) in w.log && AckedFor(w.log, d, bundle.binding)
  {
    var w := Run(EMPTY_WORLD, steps);
    assert Inv(w) by { RunKeeps(EMPTY_WORLD, steps); }
    var bundle := w.outputs[path].bundle;
    assert SealedFor(w.log, bundle) && AllJustified(w.log);
    hide Inv, AllJustified;
    d :| ResultSealed(d, bundle) in w.log;
    var i := JustifiedAt(w.log, ResultSealed(d, bundle));
    var j := Occurs(w.log, i, ResultClaimed(d, bundle));
    var c, k :| AckClaimed(d, bundle.binding, c, k) in w.log[..j];
    StaysKnown(w.log, j, |w.log|, AckClaimed(d, bundle.binding, c, k));
  }

  /** In any run a state directory opens its gate at most once. */
  lemma GateOpensAtMostOnce(steps: seq<Step>, d: Id, i: nat, j: nat)
    requires var log := Run(EMPTY_WORLD, steps).log;
             i < |log| && j < |log| && log[i] == GateOpened(d) && log[j] == GateOpened(d)
    ensures i == j
  {
    hide AllJustified, Run;
    EveryRunIsJustified(steps);
    GateOpensOnce(Run(EMPTY_WORLD, steps).log, d, i, j);
  }

  /** In any run, a result an orchestrator kept was sealed, for the same binding, by a
      runner directory whose gate had opened on a challenge of its own that this
      orchestrator directory had decrypted. */
  lemma KeptResultsAreTraceable(steps: seq<Step>, o: Id, bundle: Bundle)
    returns (d: Id, c: Id, k: Id, acked: nat, claimed: nat, sealed: nat, kept: nat)
    requires ResultKept(o, bundle) in Run(EMPTY_WORLD, steps).log
    ensures var log := Run(EMPTY_WORLD, steps).log;
            Traced(log, o, bundle, d, c, k, acked, claimed, sealed, kept)
            && PossessionProven(log[..acked], o, d, bundle.binding, c, k)
  {
    hide AllJustified, Run, Traced, PossessionProven;
    EveryRunIsJustified(steps);
    d, c, k, acked, claimed, sealed, kept := KeptResultIsTraceable(Run(EMPTY_WORLD, steps).log, o, bundle);
  }
}
