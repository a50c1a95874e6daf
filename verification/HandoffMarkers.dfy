/** The markers a runner directory holds at any one time: each is there only together
    with the ones before it, unless a command starts on a marker that the command
    before it has opened and not settled. */
module HandoffMarkers {
  import opened HandoffBinding
  import opened HandoffWorld
  import opened HandoffHistory
  import opened HandoffInvariant

  /** Later markers only beside earlier ones. */
  predicate Chained(dir: Dir) {
    (Readable(dir, ResultStarted) ==> Readable(dir, AckAccepted))
    && (Readable(dir, AckAccepted) ==> Readable(dir, ChallengePublished))
    && (Readable(dir, ChallengePublished) ==> Readable(dir, PayloadAccepted))
  }

  // ---- commands that rely on a marker that is not settled -------------------

  predicate InFlight(p: Proc) {
    p.phase == Opened || p.phase == Unsynced
  }

  predicate ChallengeInFlight(p: Proc) {
    p.script.EncryptChallenge? && p.next == 2 && InFlight(p)
  }

  predicate AckWaits(p: Proc) {
    p.script.VerifyAck? && p.next == 0 && p.phase == Ready
  }

  predicate AckInFlight(p: Proc) {
    p.script.VerifyAck? && p.next == 0 && InFlight(p)
  }

  predicate ResultWaits(p: Proc) {
    p.script.MakeResult? && p.next == 0 && p.phase == Ready
  }

  predicate ResultInFlight(p: Proc) {
    p.script.MakeResult? && p.next == 0 && InFlight(p)
  }

  /** The marker that `s` relies on has been opened by `p` and can still be withdrawn. */
  predicate Undermines(p: Proc, s: Script) {
    p.script.dir == s.dir && ((s.VerifyAck? && ChallengeInFlight(p)) || (s.MakeResult? && AckInFlight(p)))
  }

  /** The marker that `s` itself would set is not there yet. */
  predicate Unclaimed(dir: Dir, s: Script) {
    (s.VerifyAck? && AckAccepted !in dir.files) || (s.MakeResult? && ResultStarted !in dir.files)
  }

  predicate Hazard(w: World, s: Script) {
    s.dir in w.dirs && Unclaimed(w.dirs[s.dir], s) && exists pid :: pid in w.procs && Undermines(w.procs[pid], s)
  }

  /** A command gets under way on a marker whose own command is not done with it. */
  predicate Hasty(w: World, step: Step) {
    step.Start? && step.pid !in w.procs && Reads(w, step.script) && Hazard(w, step.script)
  }

  predicate Careful(w: World, steps: seq<Step>)
    decreases |steps|
  {
    steps == [] || (!Hasty(w, steps[0]) && Careful(Apply(w, steps[0]), steps[1..]))
  }

  // ---- the commands of one directory ----------------------------------------

  predicate SetsMarker(s: Script) {
    s.EncryptChallenge? || s.VerifyAck? || s.MakeResult?
  }

  /** What a command relies on is still there, or its own marker is taken; while its
      own marker is not settled nobody has relied on that. */
  predicate Grounded(dir: Dir, p: Proc) {
    (p.script.EncryptChallenge? ==> Readable(dir, PayloadAccepted))
    && (ChallengeInFlight(p) ==> !Readable(dir, AckAccepted))
    && (AckWaits(p) ==> Readable(dir, ChallengePublished) || AckAccepted in dir.files)
    && (AckInFlight(p) ==> Readable(dir, ChallengePublished) && !Readable(dir, ResultStarted))
    && (ResultWaits(p) ==> Readable(dir, AckAccepted) || ResultStarted in dir.files)
    && (ResultInFlight(p) ==> Readable(dir, AckAccepted))
  }

  predicate Orderly(dirs: map<Id, Dir>, p: Proc) {
    SetsMarker(p.script) ==> p.script.dir in dirs && Grounded(dirs[p.script.dir], p)
  }

  /** While the marker of `p` is not settled, `q` can do nothing on it. */
  predicate Waits(dir: Dir, p: Proc, q: Proc) {
    (ChallengeInFlight(p) ==> !AckInFlight(q) && (AckWaits(q) ==> AckAccepted in dir.files))
    && (AckInFlight(p) ==> !ResultInFlight(q) && (ResultWaits(q) ==> ResultStarted in dir.files))
  }

  predicate Compatible(dirs: map<Id, Dir>, p: Proc, q: Proc) {
    p.script.dir == q.script.dir && p.script.dir in dirs
    ==> Waits(dirs[p.script.dir], p, q) && Waits(dirs[p.script.dir], q, p)
  }

  predicate ChainedAt(dirs: map<Id, Dir>, d: Id) {
    d in dirs ==> Chained(dirs[d])
  }

  ghost predicate MarkerInv(w: World) {
    Inv(w)
    && (forall d | d in w.dirs :: Chained(w.dirs[d]))
    && (forall pid | pid in w.procs :: Orderly(w.dirs, w.procs[pid]))
    && (forall pid, pid' | pid in w.procs && pid' in w.procs :: Compatible(w.dirs, w.procs[pid], w.procs[pid']))
  }

  /** The step of `pid` touches one directory and one process. */
  ghost predicate Local(w: World, w': World, pid: Id) {
    pid in w.procs
    && (forall d | d != w.procs[pid].script.dir :: (d in w'.dirs <==> d in w.dirs) && (d in w.dirs ==> w'.dirs[d] == w.dirs[d]))
    && (forall other | other != pid :: (other in w'.procs <==> other in w.procs) && (other in w.procs ==> w'.procs[other] == w.procs[other]))
    && (pid in w'.procs ==> w'.procs[pid].script == w.procs[pid].script)
  }

  /** Directory `d` with the process at work and two others in it. */
  predicate Trio(w: World, d: Id, pid: Id, q: Proc, r: Proc) {
    q.script.dir == d && r.script.dir == d && ChainedAt(w.dirs, d)
    && Orderly(w.dirs, q) && Orderly(w.dirs, r) && Compatible(w.dirs, q, r)
    && (pid in w.procs ==>
          w.procs[pid].script.dir == d && Orderly(w.dirs, w.procs[pid])
          && Compatible(w.dirs, w.procs[pid], q) && Compatible(w.dirs, w.procs[pid], r))
  }

  /** Whatever two other processes are in the directory, the step leaves all in order. */
  ghost predicate Preserves(w: World, w': World, pid: Id)
    requires pid in w.procs
  {
    var d := w.procs[pid].script.dir;
    forall q, r | Trio(w, d, pid, q, r) :: Trio(w', d, pid, q, r)
  }

  /** A process that sets no marker. */
  function Bystander(d: Id, b: Binding): Proc {
    Proc(AcceptInput(d, b, 0, Payload(b, 0)), 0, Ready)
  }

  lemma StaysCompatible(w: World, w': World, pid: Id, i: Id, j: Id)
    requires MarkerInv(w) && Local(w, w', pid) && Preserves(w, w', pid)
    requires i in w'.procs && j in w'.procs
    ensures Orderly(w'.dirs, w'.procs[i]) && Compatible(w'.dirs, w'.procs[i], w'.procs[j])
  {
    hide Inv, Chained, Grounded, Waits;
    var d := w.procs[pid].script.dir;
    assert w.procs[i].script.dir == w'.procs[i].script.dir && w.procs[j].script.dir == w'.procs[j].script.dir;
    var other := Bystander(d, w.procs[pid].script.binding);
    var q := if i != pid && w.procs[i].script.dir == d then w.procs[i] else other;
    var r := if j != pid && w.procs[j].script.dir == d then w.procs[j] else other;
    BystanderIsCompatible(w.dirs, other, w.procs[pid]);
    BystanderIsCompatible(w.dirs, other, q);
    BystanderIsCompatible(w.dirs, other, r);
    assert Trio(w, d, pid, q, r);
    assert Trio(w', d, pid, q, r);
    if i == pid && j == pid {
      AloneIsCompatible(w'.dirs, w'.procs[pid]);
    }
    Symmetric(w'.dirs, w'.procs[i], w'.procs[j]);
  }

  lemma BystanderIsCompatible(dirs: map<Id, Dir>, q: Proc, p: Proc)
    requires q == Bystander(q.script.dir, q.script.binding)
    ensures Orderly(dirs, q) && Compatible(dirs, p, q) && Compatible(dirs, q, p)
  {}

  lemma AloneIsCompatible(dirs: map<Id, Dir>, p: Proc)
    ensures Compatible(dirs, p, p)
  {}

  lemma Symmetric(dirs: map<Id, Dir>, p: Proc, q: Proc)
    ensures Compatible(dirs, p, q) == Compatible(dirs, q, p)
  {
    hide Waits;
  }

  lemma LocalKeeps(w: World, w': World, pid: Id)
    requires MarkerInv(w) && Inv(w') && Local(w, w', pid) && Preserves(w, w', pid)
    ensures MarkerInv(w')
  {
    hide Inv, Chained, Orderly, Compatible;
    var d := w.procs[pid].script.dir;
    forall i, j | i in w'.procs && j in w'.procs
      ensures Orderly(w'.dirs, w'.procs[i]) && Compatible(w'.dirs, w'.procs[i], w'.procs[j])
    {
      StaysCompatible(w, w', pid, i, j);
    }
    var other := Bystander(d, w.procs[pid].script.binding);
    BystanderIsCompatible(w.dirs, other, w.procs[pid]);
    BystanderIsCompatible(w.dirs, other, other);
    assert Trio(w, d, pid, other, other);
    assert Trio(w', d, pid, other, other);
  }

  // ---- each step ----------------------------------------------------------

  lemma OpenIsLocal(w: World, pid: Id)
    requires pid in w.procs
    ensures Local(w, DoOpen(w, pid), pid)
  {
    hide Ops, WriteEvents;
  }

  lemma StepsAreLocal(w: World, pid: Id)
    requires pid in w.procs
    ensures Local(w, DoWrite(w, pid), pid) && Local(w, DoClose(w, pid), pid) && Local(w, DoCrash(w, pid), pid)
  {
    hide Ops, WriteEvents, CloseEvents;
  }

  lemma FailIsLocal(w: World, pid: Id, unlinked: bool)
    requires pid in w.procs
    ensures Local(w, DoFail(w, pid, unlinked), pid)
  {
    hide Ops;
  }

  lemma UndoIsLocal(w: World, pid: Id, name: Name)
    requires pid in w.procs
    ensures Local(w, DoUndo(w, pid, name), pid)
  {
    hide Ops;
  }

  /** The marker that an exclusive create of the process makes, if it makes one. */
  predicate CreatesFor(p: Proc, name: Name) {
    (name == PayloadAccepted ==> false)
    && (name == ChallengePublished <==> p.script.EncryptChallenge? && p.next == 2)
    && (name == AckAccepted <==> p.script.VerifyAck? && p.next == 0)
    && (name == ResultStarted <==> p.script.MakeResult? && p.next == 0)
  }

  lemma CreatedMarker(w: World, pid: Id)
    requires pid in w.procs && w.procs[pid].next < |Ops(w.procs[pid].script)|
    ensures OpAt(w, pid).CreateFile? ==> CreatesFor(w.procs[pid], OpAt(w, pid).name)
    ensures !OpAt(w, pid).CreateFile? ==> var p := w.procs[pid];
              !(p.script.EncryptChallenge? && p.next == 2) && !(p.script.VerifyAck? && p.next == 0) && !(p.script.MakeResult? && p.next == 0)
    ensures OpAt(w, pid).CommitDir? ==> !SetsMarker(w.procs[pid].script) && FreshlyChained(OpAt(w, pid).created)
  {}

  predicate FreshlyChained(dir: Dir) {
    ChallengePublished !in dir.files && AckAccepted !in dir.files && ResultStarted !in dir.files
  }

  lemma OpenPreserves(w: World, pid: Id)
    requires pid in w.procs
    ensures Preserves(w, DoOpen(w, pid), pid)
  {
    hide Ops, Preserves;
    if At(w, pid, Ready) && OpAt(w, pid).CreateFile? {
      CreatePreserves(w, pid);
    } else {
      OtherOpenPreserves(w, pid);
    }
  }

  /** The three processes over the files of their directory. */
  predicate TrioIn(dir: Dir, p: Proc, q: Proc, r: Proc) {
    Chained(dir)
    && (SetsMarker(p.script) ==> Grounded(dir, p)) && (SetsMarker(q.script) ==> Grounded(dir, q))
    && (SetsMarker(r.script) ==> Grounded(dir, r))
    && Waits(dir, p, q) && Waits(dir, q, p) && Waits(dir, p, r) && Waits(dir, r, p) && Waits(dir, q, r) && Waits(dir, r, q)
  }

  lemma InDirectory(w: World, d: Id, pid: Id, q: Proc, r: Proc)
    requires d in w.dirs && pid in w.procs
    requires w.procs[pid].script.dir == d && q.script.dir == d && r.script.dir == d
    ensures Trio(w, d, pid, q, r) <==> TrioIn(w.dirs[d], w.procs[pid], q, r)
  {
    hide Chained, Grounded, Waits, SetsMarker;
  }

  function WithFiles(dir: Dir, files: map<Name, File>): Dir {
    Dir(dir.binding, dir.ackKey, files)
  }

  lemma TornIn(dir: Dir, p: Proc, q: Proc, r: Proc, name: Name)
    requires TrioIn(dir, p, q, r) && p.phase == Ready && CreatesFor(p, name) && name !in dir.files
    ensures TrioIn(WithFiles(dir, dir.files[name := Torn]), Proc(p.script, p.next, Opened), q, r)
  {}

  lemma FilledIn(dir: Dir, p: Proc, q: Proc, r: Proc, name: Name, content: Content)
    requires TrioIn(dir, p, q, r) && p.phase == Opened && CreatesFor(p, name)
    ensures TrioIn(WithFiles(dir, dir.files[name := Written(content)]), Proc(p.script, p.next, Unsynced), q, r)
  {}

  lemma WithdrawnIn(dir: Dir, p: Proc, q: Proc, r: Proc, name: Name)
    requires TrioIn(dir, p, q, r) && InFlight(p) && CreatesFor(p, name)
    ensures TrioIn(WithFiles(dir, dir.files - {name}), Proc(p.script, p.next, Undoing), q, r)
  {}

  lemma StoppedIn(dir: Dir, p: Proc, q: Proc, r: Proc)
    requires TrioIn(dir, p, q, r)
    ensures TrioIn(dir, Proc(p.script, p.next, Undoing), q, r)
  {}

  lemma CreatePreserves(w: World, pid: Id)
    requires At(w, pid, Ready) && OpAt(w, pid).CreateFile?
    ensures Preserves(w, DoOpen(w, pid), pid)
  {
    hide Ops, WriteEvents, Trio, TrioIn, CreatesFor;
    CreatedMarker(w, pid);
    var d, w' := w.procs[pid].script.dir, DoOpen(w, pid);
    forall q, r | Trio(w, d, pid, q, r) ensures Trio(w', d, pid, q, r) {
      if w' != w {
        SameDirectory(w, d, pid, q, r);
        InDirectory(w, d, pid, q, r);
        TornIn(w.dirs[d], w.procs[pid], q, r, OpAt(w, pid).name);
        InDirectory(w', d, pid, q, r);
      }
    }
  }

  lemma SameDirectory(w: World, d: Id, pid: Id, q: Proc, r: Proc)
    requires Trio(w, d, pid, q, r)
    ensures q.script.dir == d && r.script.dir == d
  {}

  lemma OtherOpenPreserves(w: World, pid: Id)
    requires pid in w.procs && !(At(w, pid, Ready) && OpAt(w, pid).CreateFile?)
    ensures Preserves(w, DoOpen(w, pid), pid)
  {
    hide Ops, WriteEvents, Trio, TrioIn, CreatesFor, Preserves;
    var d, p, w' := w.procs[pid].script.dir, w.procs[pid], DoOpen(w, pid);
    if p.next < |Ops(p.script)| {
      CreatedMarker(w, pid);
    }
    if d in w'.dirs && d !in w.dirs {
      CommittedPreserves(w, w', d, pid);
    } else {
      SamePlacePreserves(w, w', d, pid);
    }
  }

  lemma CommittedPreserves(w: World, w': World, d: Id, pid: Id)
    requires pid in w.procs && w.procs[pid].script.dir == d && d !in w.dirs && d in w'.dirs
    requires FreshlyChained(w'.dirs[d]) && !SetsMarker(w.procs[pid].script)
    requires pid in w'.procs && w'.procs[pid].script == w.procs[pid].script
    ensures Preserves(w, w', pid)
  {
    hide Grounded;
  }

  /** The process only moves on, at a write that makes no marker. */
  lemma SamePlacePreserves(w: World, w': World, d: Id, pid: Id)
    requires pid in w.procs && w.procs[pid].script.dir == d && pid in w'.procs
    requires w'.procs[pid] == w.procs[pid] || (w'.procs[pid].script == w.procs[pid].script && MovesOn(w.procs[pid], w'.procs[pid]))
    requires (d in w'.dirs <==> d in w.dirs) && (d in w.dirs ==> w'.dirs[d] == w.dirs[d])
    ensures Preserves(w, w', pid)
  {
    hide Chained;
  }

  predicate MovesOn(p: Proc, p': Proc) {
    !ChallengeInFlight(p') && !AckWaits(p') && !AckInFlight(p') && !ResultWaits(p') && !ResultInFlight(p')
  }

  lemma WritePreserves(w: World, pid: Id)
    requires pid in w.procs
    ensures Preserves(w, DoWrite(w, pid), pid)
  {
    hide Ops, Preserves;
    if At(w, pid, Opened) && OpAt(w, pid).CreateFile? {
      FilledPreserves(w, pid);
    } else {
      OtherWritePreserves(w, pid);
    }
  }

  lemma FilledPreserves(w: World, pid: Id)
    requires At(w, pid, Opened) && OpAt(w, pid).CreateFile?
    ensures Preserves(w, DoWrite(w, pid), pid)
  {
    hide Ops, WriteEvents, Trio, TrioIn, CreatesFor;
    CreatedMarker(w, pid);
    var d, w' := w.procs[pid].script.dir, DoWrite(w, pid);
    forall q, r | Trio(w, d, pid, q, r) ensures Trio(w', d, pid, q, r) {
      if w' != w {
        SameDirectory(w, d, pid, q, r);
        InDirectory(w, d, pid, q, r);
        FilledIn(w.dirs[d], w.procs[pid], q, r, OpAt(w, pid).name, OpAt(w, pid).content);
        InDirectory(w', d, pid, q, r);
      }
    }
  }

  lemma OtherWritePreserves(w: World, pid: Id)
    requires pid in w.procs && !(At(w, pid, Opened) && OpAt(w, pid).CreateFile?)
    ensures Preserves(w, DoWrite(w, pid), pid)
  {
    hide Ops, WriteEvents;
  }

  lemma ClosePreserves(w: World, pid: Id)
    requires pid in w.procs
    ensures Preserves(w, DoClose(w, pid), pid)
  {
    hide CloseEvents;
  }

  lemma FailPreserves(w: World, pid: Id, unlinked: bool)
    requires pid in w.procs
    ensures Preserves(w, DoFail(w, pid, unlinked), pid)
  {
    hide Ops, Trio, TrioIn, CreatesFor;
    var d, p, w' := w.procs[pid].script.dir, w.procs[pid], DoFail(w, pid, unlinked);
    if d in w.dirs && w' != w {
      CreatedMarker(w, pid);
      forall q, r | Trio(w, d, pid, q, r) ensures Trio(w', d, pid, q, r) {
        SameDirectory(w, d, pid, q, r);
        InDirectory(w, d, pid, q, r);
        if p.phase != Ready && OpAt(w, pid).CreateFile? && unlinked {
          WithdrawnIn(w.dirs[d], p, q, r, OpAt(w, pid).name);
        } else {
          StoppedIn(w.dirs[d], p, q, r);
        }
        InDirectory(w', d, pid, q, r);
      }
    } else {
      Unplaced(w, w', d, pid);
    }
  }

  /** A directory that is not there has no marker and no process that sets one. */
  lemma Unplaced(w: World, w': World, d: Id, pid: Id)
    requires pid in w.procs && w.procs[pid].script.dir == d
    requires w' == w || (d !in w.dirs && d !in w'.dirs && pid in w'.procs && w'.procs[pid].script == w.procs[pid].script)
    ensures Preserves(w, w', pid)
  {
    hide Chained, Grounded, Waits;
  }

  lemma CrashPreserves(w: World, pid: Id)
    requires pid in w.procs
    ensures Preserves(w, DoCrash(w, pid), pid)
  {
    hide Chained, Orderly, Compatible;
  }

  lemma UndoPreserves(w: World, pid: Id, name: Name)
    requires pid in w.procs && !w.procs[pid].script.PrepareInput?
    ensures Preserves(w, DoUndo(w, pid, name), pid)
  {
    hide Ops;
  }

  /** No command that sets a marker works in an orchestrator directory, and there is
      no marker to lose in it. */
  lemma UndoPreparedKeeps(w: World, pid: Id, name: Name)
    requires MarkerInv(w) && pid in w.procs && w.procs[pid].script.PrepareInput? && Inv(DoUndo(w, pid, name))
    ensures MarkerInv(DoUndo(w, pid, name))
  {
    hide Inv, Ops, Chained, Grounded, Waits;
    KnownProc(w, pid);
    var d, w' := w.procs[pid].script.dir, DoUndo(w, pid, name);
    if w' != w && d in w.dirs {
      NoMarkersInOrchestratorDir(w, d);
      UnlinkedStaysChained(w.dirs[d], name);
      forall i | i in w.procs && SetsMarker(w.procs[i].script) ensures w.procs[i].script.dir != d {
        MarkersAreSetInRunnerDirs(w, i);
      }
      forall i, j | i in w'.procs && j in w'.procs
        ensures Orderly(w'.dirs, w'.procs[i]) && Compatible(w'.dirs, w'.procs[i], w'.procs[j])
      {
        assert Orderly(w.dirs, w.procs[i]) && Compatible(w.dirs, w.procs[i], w.procs[j]);
        if w.procs[i].script.dir == d { WithoutMarkers(w', i, j); }
      }
    }
  }

  lemma WithoutMarkers(w: World, i: Id, j: Id)
    requires i in w.procs && j in w.procs
    requires w.procs[i].script.dir == w.procs[j].script.dir ==>
               !SetsMarker(w.procs[i].script) && !SetsMarker(w.procs[j].script)
    ensures Compatible(w.dirs, w.procs[i], w.procs[j])
  {}

  lemma UnlinkedStaysChained(dir: Dir, name: Name)
    requires !Readable(dir, ChallengePublished) && !Readable(dir, AckAccepted) && !Readable(dir, ResultStarted)
    ensures Chained(dir.(files := dir.files - {name}))
  {}

  lemma MarkersAreSetInRunnerDirs(w: World, i: Id)
    requires Inv(w) && i in w.procs && SetsMarker(w.procs[i].script)
    requires w.procs[i].script.dir in w.dirs
    ensures !OrchestratorDir(w.log, w.procs[i].script.dir)
  {
    KnownProc(w, i);
    var s := w.procs[i].script;
    assert RunnerDir(w.log, s.dir) by {
      if s.MakeResult? {
        var c, k :| AckClaimed(s.dir, s.binding, c, k) in w.log;
        var at := JustifiedAt(w.log, AckClaimed(s.dir, s.binding, c, k));
      }
    }
    assert DirKnown(w.log, s.dir, w.dirs[s.dir]);
  }

  lemma NoMarkersInOrchestratorDir(w: World, d: Id)
    requires Inv(w) && OrchestratorDir(w.log, d) && d in w.dirs && Chained(w.dirs[d])
    ensures !Readable(w.dirs[d], ChallengePublished) && !Readable(w.dirs[d], AckAccepted) && !Readable(w.dirs[d], ResultStarted)
  {
    if Readable(w.dirs[d], ChallengePublished) {
      ReadFile(w, d, ChallengePublished);
    }
  }

  lemma StartStaysOrderly(w: World, pid: Id, s: Script)
    requires MarkerInv(w) && !Hasty(w, Start(pid, s)) && Inv(DoStart(w, pid, s))
    ensures MarkerInv(DoStart(w, pid, s))
  {
    hide Inv, Chained, StartEvents, Waits, Grounded, Reads, Hasty, SetsMarker;
    var w' := DoStart(w, pid, s);
    if w' != w {
      var p := Proc(s, 0, Ready);
      StartedIsOrderly(w, s);
      AloneIsCompatible(w.dirs, p);
      forall i, j | i in w'.procs && j in w'.procs ensures Compatible(w'.dirs, w'.procs[i], w'.procs[j]) {
        if i == pid && j != pid {
          StartedIsCompatible(w, pid, s, j);
        } else if j == pid && i != pid {
          StartedIsCompatible(w, pid, s, i);
          Symmetric(w.dirs, w.procs[i], p);
        }
      }
    }
  }

  lemma StartedIsOrderly(w: World, s: Script)
    requires Reads(w, s)
    ensures Orderly(w.dirs, Proc(s, 0, Ready))
  {}

  lemma StartedIsCompatible(w: World, pid: Id, s: Script, i: Id)
    requires Reads(w, s) && pid !in w.procs && i in w.procs && !Hasty(w, Start(pid, s))
    ensures Compatible(w.dirs, Proc(s, 0, Ready), w.procs[i])
  {
    hide Reads;
    assert s.dir in w.dirs && Unclaimed(w.dirs[s.dir], s) ==> !Undermines(w.procs[i], s);
  }

  /** Steps of processes that are gone change nothing. */
  lemma GoneDoesNothing(w: World, step: Step)
    requires !step.Start? && step.pid !in w.procs
    ensures Apply(w, step) == w
  {
    hide Ops;
    assert w.procs - {step.pid} == w.procs;
  }

  lemma CarefulStepKeeps(w: World, step: Step)
    requires MarkerInv(w) && !Hasty(w, step)
    ensures MarkerInv(Apply(w, step))
  {
    ApplyKeeps(w, step);
    var pid := step.pid;
    hide Inv, Local, MarkerInv, DoOpen, DoWrite, DoClose, DoFail, DoUndo, DoCrash, DoStart, Preserves, Hasty;
    if step.Start? {
      StartStaysOrderly(w, pid, step.script);
    } else if pid !in w.procs {
      GoneDoesNothing(w, step);
    } else if step.Undo? && w.procs[pid].script.PrepareInput? {
      UndoPreparedKeeps(w, pid, step.name);
    } else {
      StepsAreLocal(w, pid);
      match step
      case Open(_) => OpenIsLocal(w, pid); OpenPreserves(w, pid); LocalKeeps(w, DoOpen(w, pid), pid);
      case Write(_) => WritePreserves(w, pid); LocalKeeps(w, DoWrite(w, pid), pid);
      case Close(_) => ClosePreserves(w, pid); LocalKeeps(w, DoClose(w, pid), pid);
      case Fail(_, unlinked) =>
        FailIsLocal(w, pid, unlinked); FailPreserves(w, pid, unlinked); LocalKeeps(w, DoFail(w, pid, unlinked), pid);
      case Undo(_, name) =>
        UndoIsLocal(w, pid, name); UndoPreserves(w, pid, name); LocalKeeps(w, DoUndo(w, pid, name), pid);
      case Crash(_) => CrashPreserves(w, pid); LocalKeeps(w, DoCrash(w, pid), pid);
    }
  }

  lemma {:induction false} CarefulRunKeeps(w: World, steps: seq<Step>)
    requires MarkerInv(w) && Careful(w, steps)
    ensures MarkerInv(Run(w, steps))
    decreases |steps|
  {
    hide MarkerInv, Apply, Hasty;
    if steps != [] {
      CarefulStepKeeps(w, steps[0]);
      CarefulRunKeeps(Apply(w, steps[0]), steps[1..]);
    }
  }

  lemma EmptyWorldIsOrderly()
    ensures MarkerInv(EMPTY_WORLD)
  {
    EveryRunIsJustified([]);
    RunKeeps(EMPTY_WORLD, []);
  }

  /** In a run without hasty starts a started result stands beside an accepted
      acknowledgement, that beside a published challenge, that beside an accepted input. */
  lemma MarkersStayChained(steps: seq<Step>, d: Id)
    requires Careful(EMPTY_WORLD, steps) && d in Run(EMPTY_WORLD, steps).dirs
    ensures Chained(Run(EMPTY_WORLD, steps).dirs[d])
  {
    EmptyWorldIsOrderly();
    CarefulRunKeeps(EMPTY_WORLD, steps);
  }

  // ---- nothing less than this is enough -----------------------------------

  /** Some continuation without hasty starts leaves a later marker without an earlier one. */
  ghost predicate CanBreak(w: World) {
    exists more, d :: Careful(w, more) && d in Run(w, more).dirs && !Chained(Run(w, more).dirs[d])
  }

  /** The marker that is taken away when the first of two commands fails. */
  function Relied(s: Script): Name {
    if s.VerifyAck? then ChallengePublished else AckAccepted
  }

  function Own(s: Script): Name {
    if s.VerifyAck? then AckAccepted else ResultStarted
  }

  /** The late command has made its marker readable, the early one is not done with its own. */
  predicate BothReadable(w: World, early: Id, s: Script) {
    early in w.procs && Undermines(w.procs[early], s) && s.dir in w.dirs && Readable(w.dirs[s.dir], Own(s))
  }

  lemma LateOpens(w: World, early: Id, pid: Id, s: Script)
    requires early in w.procs && Undermines(w.procs[early], s) && pid !in w.procs && Reads(w, s)
    requires s.dir in w.dirs && Unclaimed(w.dirs[s.dir], s)
    ensures var w' := DoOpen(DoStart(w, pid, s), pid);
            early in w'.procs && w'.procs[early] == w.procs[early] && s.dir in w'.dirs
            && pid != early && pid in w'.procs && w'.procs[pid] == Proc(s, 0, Opened)
  {
    hide Reads, StartEvents;
  }

  lemma LateWrites(w: World, early: Id, pid: Id, s: Script)
    requires early in w.procs && Undermines(w.procs[early], s) && s.dir in w.dirs
    requires pid != early && pid in w.procs && w.procs[pid] == Proc(s, 0, Opened)
    ensures BothReadable(DoWrite(w, pid), early, s)
  {
    hide WriteEvents;
  }

  lemma EarlyFails(w: World, early: Id, s: Script)
    requires BothReadable(w, early, s)
    ensures var w' := DoFail(w, early, true); s.dir in w'.dirs && !Chained(w'.dirs[s.dir])
  {
    var files := w.dirs[s.dir].files;
    assert Own(s) in files - {Relied(s)};
  }

  /** From any state: once a hasty start has been made, the late command can set its
      marker and the early one then lose the marker that stands before it. */
  lemma HastyStartCanBreak(w: World, pid: Id, s: Script)
    requires pid !in w.procs && Reads(w, s) && Hazard(w, s)
    ensures CanBreak(Apply(w, Start(pid, s)))
  {
    hide Reads, Undermines, Unclaimed, Chained, DoStart, DoOpen, DoWrite, DoFail, Hasty, Run, Careful;
    var early :| early in w.procs && Undermines(w.procs[early], s);
    var w0 := DoStart(w, pid, s);
    var w1 := DoOpen(w0, pid);
    var w2 := DoWrite(w1, pid);
    LateOpens(w, early, pid, s);
    LateWrites(w1, early, pid, s);
    EarlyFails(w2, early, s);
    var more := [Open(pid), Write(pid), Fail(early, true)];
    RunThree(w0, Open(pid), Write(pid), Fail(early, true));
    NoStartIsCareful(w0, more);
  }

  lemma {:induction false} NoStartIsCareful(w: World, steps: seq<Step>)
    requires forall i | 0 <= i < |steps| :: !steps[i].Start?
    ensures Careful(w, steps)
    decreases |steps|
  {
    hide Apply, Reads, Hazard;
    if steps != [] {
      NoStartIsCareful(Apply(w, steps[0]), steps[1..]);
    }
  }

  /** After any run without hasty starts: letting a command start can break the order of
      markers if and only if the command sets a marker that is not set yet and the
      marker it relies on has been opened but not settled by its own command. */
  lemma StartCanBreakIffHazard(steps: seq<Step>, pid: Id, s: Script)
    requires Careful(EMPTY_WORLD, steps)
    requires pid !in Run(EMPTY_WORLD, steps).procs && Reads(Run(EMPTY_WORLD, steps), s)
    ensures var w := Run(EMPTY_WORLD, steps); CanBreak(Apply(w, Start(pid, s))) <==> Hazard(w, s)
  {
    hide MarkerInv, Reads, Hazard, Run, Apply, Careful, Chained;
    var w := Run(EMPTY_WORLD, steps);
    var w' := Apply(w, Start(pid, s));
    if Hazard(w, s) {
      HastyStartCanBreak(w, pid, s);
    } else {
      EmptyWorldIsOrderly();
      CarefulRunKeeps(EMPTY_WORLD, steps);
      CarefulStepKeeps(w, Start(pid, s));
      forall more, d | Careful(w', more) && d in Run(w', more).dirs ensures Chained(Run(w', more).dirs[d]) {
        CarefulRunKeeps(w', more);
        OrderlyIsChained(Run(w', more), d);
      }
    }
  }

  lemma OrderlyIsChained(w: World, d: Id)
    requires MarkerInv(w) && d in w.dirs
    ensures Chained(w.dirs[d])
  {}

  // ---- one command at a time ----------------------------------------------

  /** A command starts only when no other is at work in its directory. */
  predicate Alone(w: World, step: Step) {
    step.Start? ==> forall pid | pid in w.procs :: w.procs[pid].script.dir != step.script.dir
  }

  predicate Serial(w: World, steps: seq<Step>)
    decreases |steps|
  {
    steps == [] || (Alone(w, steps[0]) && Serial(Apply(w, steps[0]), steps[1..]))
  }

  /** One command at a time per directory is careful enough. */
  lemma {:induction false} SerialIsCareful(w: World, steps: seq<Step>)
    requires Serial(w, steps)
    ensures Careful(w, steps)
    decreases |steps|
  {
    hide Apply, Reads;
    if steps != [] {
      SerialIsCareful(Apply(w, steps[0]), steps[1..]);
    }
  }
}
