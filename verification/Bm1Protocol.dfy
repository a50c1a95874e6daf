/** Any number of BM1 runners over one durable claim store, interleaved between
    the single operations of `run_next` and `run_all`, with a crash possible
    between any two of them. */
module Bm1Protocol {
  import opened Wrappers
  import opened Bm1Attempt
  import opened Bm1Runner

  /** Where a runner stands inside `run_next` for its next attempt. */
  datatype Phase = Idle | Ready | Created | Written | Claimed | Cleared | Sent

  datatype Proc = Proc(setup: Setup, st: RunnerState, phase: Phase)

  datatype Send = Send(runner: nat, index: nat)

  /** `files` and `sends` outlive every process. */
  datatype World = World(files: ClaimFiles, procs: map<nat, Proc>, born: set<nat>, sends: seq<Send>)

  const START := World(map[], map[], {}, [])

  datatype Step =
    | Spawn(r: nat, setup: Setup)
    | Crash(r: nat)
    | EnterCall(r: nat, attemptId: string, gate: Gate)
    | CreateFile(r: nat)
    | WriteFile(r: nat)
    | ConfirmFile(r: nat)
    | AbandonClaim(r: nat)
    | PassGate(r: nat)
    | FailGate(r: nat, gate: Gate, safe: bool)
    | Transmit(r: nat)
    | Settled(r: nat, s: Surroundings)
    | Block(r: nat)

  function Put(w: World, r: nat, p: Proc): World {
    w.(procs := w.procs[r := p])
  }

  // Each operation of a live runner; one that is not enabled changes nothing.

  function DoEnter(m: Manifest, w: World, r: nat, attemptId: string, gate: Gate): World
    requires m.Accepted() && r in w.procs
  {
    var p := w.procs[r];
    if !p.phase.Idle? then w
    else match Begin(m, p.setup.transports, p.st, attemptId, if p.setup.live then gate else GatePass)
      case Refuse(st, _) => Put(w, r, p.(st := st))
      case Proceed => Put(w, r, p.(phase := Ready))
  }

  function DoCreate(m: Manifest, w: World, r: nat): World
    requires m.Accepted() && r in w.procs
  {
    var p := w.procs[r];
    if !p.phase.Ready? || |p.st.receipts| >= |m.plan| then w
    else
      var id := m.plan[|p.st.receipts|].attemptId;
      if id in w.files then Put(w, r, p.(phase := Idle))
      else Put(w, r, p.(phase := Created)).(files := w.files[id := ClaimFile(r, false)])
  }

  function DoWrite(m: Manifest, w: World, r: nat): World
    requires m.Accepted() && r in w.procs
  {
    var p := w.procs[r];
    if !p.phase.Created? || |p.st.receipts| >= |m.plan| then w
    else Put(w, r, p.(phase := Written))
         .(files := w.files[m.plan[|p.st.receipts|].attemptId := ClaimFile(r, true)])
  }

  /** Read the claim back, give the claim up, or pass the last gate. A live
      runner passes it only with a complete claim in the store. */
  function DoQuiet(m: Manifest, w: World, step: Step): World
    requires m.Accepted() && step.r in w.procs
  {
    var p := w.procs[step.r];
    if step.ConfirmFile? && p.phase.Written? then Put(w, step.r, p.(phase := Claimed))
    else if step.AbandonClaim? && (p.phase.Ready? || p.phase.Created? || p.phase.Written?) then
      Put(w, step.r, p.(phase := Idle))
    else if step.PassGate? && p.phase.Claimed? && |p.st.receipts| < |m.plan|
      && (p.setup.live ==> var id := m.plan[|p.st.receipts|].attemptId; id in w.files && w.files[id].complete) then
      Put(w, step.r, p.(phase := Cleared))
    else w
  }

  function DoFailGate(m: Manifest, w: World, r: nat, gate: Gate, safe: bool): World
    requires m.Accepted() && r in w.procs
  {
    var p := w.procs[r];
    if p.phase.Claimed? && p.setup.live && !gate.GatePass? && |p.st.receipts| < MAX_PLANNED_ATTEMPTS
    then Put(w, r, Proc(p.setup, FailBeforeSend(m, p.st, gate, safe).0, Idle)) else w
  }

  function DoTransmit(w: World, r: nat): World
    requires r in w.procs
  {
    var p := w.procs[r];
    if !p.phase.Cleared? then w
    else Put(w, r, Proc(p.setup, p.st.(requests := p.st.requests + 1), Sent))
         .(sends := w.sends + [Send(r, |p.st.receipts|)])
  }

  function DoSettle(m: Manifest, w: World, r: nat, s: Surroundings): World
    requires m.Accepted() && r in w.procs
  {
    var p := w.procs[r];
    if !p.phase.Sent? || |p.st.receipts| >= MAX_PLANNED_ATTEMPTS then w
    else Put(w, r, Proc(p.setup, AfterSend(m, p.st, s).0, Idle))
  }

  function DoBlock(m: Manifest, w: World, r: nat): World
    requires m.Accepted() && r in w.procs
  {
    var p := w.procs[r];
    if p.phase.Idle? && p.st.stop.Some? && |p.st.receipts| < MAX_PLANNED_ATTEMPTS
    then Put(w, r, p.(st := Append(p.st, BlockedReceipt(m, p.st)))) else w
  }

  function DoSpawn(w: World, r: nat, setup: Setup): World {
    if r in w.born || setup.id != r then w
    else Put(w, r, Proc(setup, FRESH, Idle)).(born := w.born + {r})
  }

  function DoCrash(w: World, r: nat): World {
    w.(procs := w.procs - {r})
  }

  function Apply(m: Manifest, w: World, step: Step): World
    requires m.Accepted()
  {
    if step.Spawn? then DoSpawn(w, step.r, step.setup)
    else if step.r !in w.procs then w
    else match step
      case Crash(r) => DoCrash(w, r)
      case EnterCall(r, attemptId, gate) => DoEnter(m, w, r, attemptId, gate)
      case CreateFile(r) => DoCreate(m, w, r)
      case WriteFile(r) => DoWrite(m, w, r)
      case FailGate(r, gate, safe) => DoFailGate(m, w, r, gate, safe)
      case Transmit(r) => DoTransmit(w, r)
      case Settled(r, s) => DoSettle(m, w, r, s)
      case Block(r) => DoBlock(m, w, r)
      case _ => DoQuiet(m, w, step)
  }

  function Execute(m: Manifest, w: World, steps: seq<Step>): World
    requires m.Accepted()
    decreases |steps|
  {
    if steps == [] then w else Execute(m, Apply(m, w, steps[0]), steps[1..])
  }

  // ---- invariant ----------------------------------------------------------

  predicate Owns(m: Manifest, files: ClaimFiles, r: nat, i: nat) {
    i < |m.plan| && m.plan[i].attemptId in files && files[m.plan[i].attemptId].owner == r
  }

  predicate OwnsComplete(m: Manifest, files: ClaimFiles, r: nat, i: nat) {
    Owns(m, files, r, i) && files[m.plan[i].attemptId].complete
  }

  /** What one live runner knows about the shared store and the sends. */
  predicate ProcInv(m: Manifest, w: World, r: nat, p: Proc) {
    && p.setup.id == r
    && ValidState(m, p.st)
    && LostSendIsClaimed(m, p.st, w.files)
    && (forall j: nat | j < Started(p.st.receipts) :: Owns(m, w.files, r, j))
    && (p.st.requests > 0 ==> Owns(m, w.files, r, 0))
    && (if Owns(m, w.files, r, 0) then |w.sends| == p.st.requests else p.st.requests == 0)
    && (!p.phase.Idle? ==>
          p.st.stop.None? && |p.st.receipts| < |m.plan|)
    && (p.phase.Created? || p.phase.Written? || p.phase.Claimed? || p.phase.Cleared? ==>
          p.st.requests == |p.st.receipts| && Owns(m, w.files, r, |p.st.receipts|))
    && (p.phase.Written? || p.phase.Claimed? || p.phase.Cleared? ==>
          OwnsComplete(m, w.files, r, |p.st.receipts|))
    && (p.phase.Sent? ==>
          p.st.requests == |p.st.receipts| + 1 && Owns(m, w.files, r, |p.st.receipts|))
  }

  /** The sends so far are the first attempts of the plan, each behind a complete
      claim, all by the runner that claimed the first attempt. */
  predicate SendsInOrder(m: Manifest, w: World) {
    forall k | 0 <= k < |w.sends| ::
      && w.sends[k].index == k
      && OwnsComplete(m, w.files, w.sends[k].runner, k)
      && Owns(m, w.files, w.sends[k].runner, 0)
  }

  lemma SendAt(m: Manifest, w: World, k: nat)
    requires SendsInOrder(m, w) && k < |w.sends|
    ensures k < |m.plan| && m.plan[0].attemptId in w.files
  {
    assert OwnsComplete(m, w.files, w.sends[k].runner, k);
  }

  predicate Inv(m: Manifest, w: World) {
    && w.procs.Keys <= w.born
    && (forall id | id in w.files :: w.files[id].owner in w.born)
    && SendsInOrder(m, w)
    && forall r | r in w.procs :: ProcInv(m, w, r, w.procs[r])
  }

  /** The change one runner makes: another runner's knowledge survives when the
      files only grow and only claims of `r` change. */
  lemma OthersKeep(m: Manifest, w: World, w1: World, r: nat, q: nat, p: Proc)
    requires m.Accepted() && ProcInv(m, w, q, p) && q != r
    requires w.files.Keys <= w1.files.Keys
    requires forall id | id in w.files ::
               w1.files[id].owner == w.files[id].owner && (w.files[id].complete ==> w1.files[id].complete)
    requires forall id | id in w1.files && id !in w.files :: w1.files[id].owner == r
    requires w1.sends == w.sends || Owns(m, w.files, r, 0)
    ensures ProcInv(m, w1, q, p)
  {
    assert Owns(m, w1.files, q, 0) <==> Owns(m, w.files, q, 0);
    forall j: nat | Owns(m, w.files, q, j) ensures Owns(m, w1.files, q, j) {}
  }

  lemma AllKeep(m: Manifest, w: World, w1: World, r: nat)
    requires m.Accepted() && Inv(m, w) && r in w.procs && r in w1.procs
    requires w1.born == w.born && w1.procs == w.procs[r := w1.procs[r]]
    requires w.files.Keys <= w1.files.Keys
    requires forall id | id in w.files ::
               w1.files[id].owner == w.files[id].owner && (w.files[id].complete ==> w1.files[id].complete)
    requires forall id | id in w1.files && id !in w.files :: w1.files[id].owner == r
    requires w1.sends == w.sends || Owns(m, w.files, r, 0)
    requires ProcInv(m, w1, r, w1.procs[r])
    requires SendsInOrder(m, w1)
    ensures Inv(m, w1)
  {
    hide ProcInv;
    forall q | q in w1.procs ensures ProcInv(m, w1, q, w1.procs[q]) {
      if q != r {
        OthersKeep(m, w, w1, r, q, w.procs[q]);
      }
    }
  }

  lemma SendsSurvive(m: Manifest, w: World, w1: World)
    requires SendsInOrder(m, w) && w1.sends == w.sends
    requires w.files.Keys <= w1.files.Keys
    requires forall id | id in w.files ::
               w1.files[id].owner == w.files[id].owner && (w.files[id].complete ==> w1.files[id].complete)
    ensures SendsInOrder(m, w1)
  {}

  /** A runner whose own state is untouched by a change of phase alone. */
  lemma PhaseKeeps(m: Manifest, w: World, r: nat, phase: Phase)
    requires m.Accepted() && Inv(m, w) && r in w.procs
    requires ProcInv(m, w, r, w.procs[r].(phase := phase))
    ensures Inv(m, Put(w, r, w.procs[r].(phase := phase)))
  {
    hide ProcInv;
    var w1 := Put(w, r, w.procs[r].(phase := phase));
    ProcInvDependsOn(m, w, w1, r, w1.procs[r]);
    AllKeep(m, w, w1, r);
  }

  lemma ProcInvDependsOn(m: Manifest, w: World, w1: World, r: nat, p: Proc)
    requires ProcInv(m, w, r, p) && w1.files == w.files && w1.sends == w.sends
    ensures ProcInv(m, w1, r, p)
  {}

  lemma SpawnKeeps(m: Manifest, w: World, r: nat, setup: Setup)
    requires m.Accepted() && Inv(m, w)
    ensures Inv(m, DoSpawn(w, r, setup))
  {
    var w1 := DoSpawn(w, r, setup);
    if w1 != w {
      forall q | q in w1.procs ensures ProcInv(m, w1, q, w1.procs[q]) {
        if q == r {
          FreshIsValid(m);
          assert !Owns(m, w1.files, q, 0);
        } else {
          ProcInvDependsOn(m, w, w1, q, w.procs[q]);
        }
      }
      SendsSurvive(m, w, w1);
    }
  }

  lemma FreshIsValid(m: Manifest)
    requires m.Accepted()
    ensures ValidState(m, FRESH) && LostSendIsClaimed(m, FRESH, map[])
  {}

  lemma CrashKeeps(m: Manifest, w: World, r: nat)
    requires m.Accepted() && Inv(m, w)
    ensures Inv(m, DoCrash(w, r))
  {
    hide ProcInv;
    var w1 := DoCrash(w, r);
    forall q | q in w1.procs ensures ProcInv(m, w1, q, w1.procs[q]) {
      ProcInvDependsOn(m, w, w1, q, w.procs[q]);
    }
    SendsSurvive(m, w, w1);
  }

  lemma StoppedKeeps(m: Manifest, w: World, r: nat, st: RunnerState)
    requires m.Accepted() && Inv(m, w) && r in w.procs && w.procs[r].phase.Idle?
    requires ValidState(m, st) && st.stop.Some? && st.requests == w.procs[r].st.requests
    requires Started(st.receipts) == Started(w.procs[r].st.receipts)
    ensures Inv(m, Put(w, r, w.procs[r].(st := st)))
  {
    hide RequestsCounted, ErrorsCounted, BlockedSuffix, Started;
    var w1 := Put(w, r, w.procs[r].(st := st));
    SendsSurvive(m, w, w1);
    AllKeep(m, w, w1, r);
  }

  lemma BeginShape(m: Manifest, transports: set<ProviderId>, st: RunnerState, attemptId: string, gate: Gate)
    requires m.Accepted()
    ensures match Begin(m, transports, st, attemptId, gate)
      case Refuse(st1, _) => st1 == st || (st.stop.None? && st1 == st.(stop := Some(CostCeilingGuard)))
      case Proceed => st.stop.None? && |st.receipts| < |m.plan|
  {
    hide Affordable;
  }

  lemma EnterKeeps(m: Manifest, w: World, r: nat, attemptId: string, gate: Gate)
    requires m.Accepted() && Inv(m, w) && r in w.procs
    ensures Inv(m, DoEnter(m, w, r, attemptId, gate))
  {
    hide Begin, ValidState;
    var p := w.procs[r];
    if p.phase.Idle? {
      var liveGate := if p.setup.live then gate else GatePass;
      BeginShape(m, p.setup.transports, p.st, attemptId, liveGate);
      match Begin(m, p.setup.transports, p.st, attemptId, liveGate)
      case Proceed => PhaseKeeps(m, w, r, Ready);
      case Refuse(st, _) =>
        if st != p.st {
          RefusalKeeps(m, p.st, st);
          StoppedKeeps(m, w, r, st);
        }
    }
  }

  lemma CreateKeeps(m: Manifest, w: World, r: nat)
    requires m.Accepted() && Inv(m, w) && r in w.procs
    ensures Inv(m, DoCreate(m, w, r))
  {
    hide ValidState;
    var w1, p := DoCreate(m, w, r), w.procs[r];
    if w1 != w {
      var id := m.plan[|p.st.receipts|].attemptId;
      if id in w.files {
        PhaseKeeps(m, w, r, Idle);
      } else {
        ReadyToSend(m, p.st, w.files);
        SendsSurvive(m, w, w1);
        CreatedOwnership(m, w, w1, r, p);
        AllKeep(m, w, w1, r);
      }
    }
  }

  lemma CreatedOwnership(m: Manifest, w: World, w1: World, r: nat, p: Proc)
    requires m.Accepted() && Inv(m, w) && r in w.procs && p == w.procs[r] && p.phase.Ready?
    requires p.st.requests == |p.st.receipts| < |m.plan|
    requires m.plan[|p.st.receipts|].attemptId !in w.files
    requires w1.files == w.files[m.plan[|p.st.receipts|].attemptId := ClaimFile(r, false)]
    requires w1.sends == w.sends && w1.procs == w.procs[r := p.(phase := Created)]
    ensures ProcInv(m, w1, r, w1.procs[r])
  {
    hide RequestsCounted, ErrorsCounted, BlockedSuffix;
    var i := |p.st.receipts|;
    forall j: nat | Owns(m, w.files, r, j) ensures Owns(m, w1.files, r, j) {}
    if i == 0 {
      assert Owns(m, w1.files, r, 0);
      if w.sends != [] {
        SendAt(m, w, 0);
      }
    } else {
      assert Owns(m, w1.files, r, 0) <==> Owns(m, w.files, r, 0);
    }
  }

  lemma WriteKeeps(m: Manifest, w: World, r: nat)
    requires m.Accepted() && Inv(m, w) && r in w.procs
    ensures Inv(m, DoWrite(m, w, r))
  {
    hide ValidState;
    var w1, p := DoWrite(m, w, r), w.procs[r];
    if w1 != w {
      assert Owns(m, w.files, r, |p.st.receipts|);
      SendsSurvive(m, w, w1);
      forall j: nat | j < |m.plan| ensures Owns(m, w.files, r, j) <==> Owns(m, w1.files, r, j) {}
      AllKeep(m, w, w1, r);
    }
  }

  lemma ValidUnstopped(m: Manifest, st: RunnerState)
    requires ValidState(m, st) && st.stop.None?
    ensures Started(st.receipts) == |st.receipts|
    ensures |st.receipts| < |m.plan| && st.requests <= |st.receipts| && |m.plan| == MAX_PLANNED_ATTEMPTS
            ==> ValidState(m, st.(requests := st.requests + 1))
  {
    UnstoppedAllStarted(st, |st.receipts|);
    assert st.receipts[..|st.receipts|] == st.receipts;
  }

  lemma TransmitKeeps(m: Manifest, w: World, r: nat)
    requires m.Accepted() && Inv(m, w) && r in w.procs
    ensures Inv(m, DoTransmit(w, r))
  {
    hide RequestsCounted, ErrorsCounted, BlockedSuffix, Started;
    var w1, p := DoTransmit(w, r), w.procs[r];
    if w1 != w {
      ValidUnstopped(m, p.st);
      assert Owns(m, w.files, r, 0);
      assert ProcInv(m, w1, r, w1.procs[r]);
      hide ProcInv;
      AllKeep(m, w, w1, r);
    }
  }

  /** A runner that held the claim of its next attempt leaves `run_next`, with or without a receipt. */
  lemma ReturnKeeps(m: Manifest, w: World, r: nat, st: RunnerState)
    requires m.Accepted() && Inv(m, w) && r in w.procs && w.procs[r].st.stop.None?
    requires var before := w.procs[r].st;
      && Owns(m, w.files, r, |before.receipts|)
      && st.requests == before.requests
      && (st.receipts == before.receipts
          || (|st.receipts| == |before.receipts| + 1 && st.receipts[..|before.receipts|] == before.receipts))
    requires ValidState(m, st) && (st.stop.None? ==> st.requests <= |w.procs[r].st.receipts| + 1)
    ensures Inv(m, Put(w, r, Proc(w.procs[r].setup, st, Idle)))
  {
    var p := w.procs[r];
    var w1 := Put(w, r, Proc(p.setup, st, Idle));
    ValidUnstopped(m, p.st);
    StartedGrows(p.st.receipts, st.receipts);
    hide RequestsCounted, ErrorsCounted, BlockedSuffix, Started;
    SendsSurvive(m, w, w1);
    AllKeep(m, w, w1, r);
  }

  lemma FailGateKeeps(m: Manifest, w: World, r: nat, gate: Gate, safe: bool)
    requires m.Accepted() && Inv(m, w) && r in w.procs
    ensures Inv(m, DoFailGate(m, w, r, gate, safe))
  {
    var p := w.procs[r];
    if DoFailGate(m, w, r, gate, safe) != w {
      FailBeforeSendKeeps(m, p.st, gate, safe);
      FailBeforeSendShape(m, p.st, gate, safe);
      hide FailBeforeSend, RequestsCounted, ErrorsCounted, BlockedSuffix;
      ReturnKeeps(m, w, r, FailBeforeSend(m, p.st, gate, safe).0);
    }
  }

  lemma StartedGrows(a: seq<Receipt>, b: seq<Receipt>)
    requires b == a || (|b| == |a| + 1 && b[..|a|] == a)
    ensures Started(a) <= Started(b) <= Started(a) + 1
    ensures b != a ==> Started(b) == Started(a) + if b[|a|].terminal.BLOCKED? then 0 else 1
  {}

  lemma SettleStepKeeps(m: Manifest, w: World, r: nat, s: Surroundings)
    requires m.Accepted() && Inv(m, w) && r in w.procs
    ensures Inv(m, DoSettle(m, w, r, s))
  {
    var p := w.procs[r];
    if DoSettle(m, w, r, s) != w {
      BeforeSend(m, p.st);
      AfterSendKeeps(m, p.st.(requests := p.st.requests - 1), s);
      AfterSendShape(m, p.st, s);
      hide AfterSend, RequestsCounted, ErrorsCounted, BlockedSuffix;
      ReturnKeeps(m, w, r, AfterSend(m, p.st, s).0);
    }
  }

  lemma BeforeSend(m: Manifest, st: RunnerState)
    requires ValidState(m, st) && st.stop.None? && st.requests == |st.receipts| + 1
    ensures ValidState(m, st.(requests := st.requests - 1))
  {
    ValidUnstopped(m, st);
  }

  lemma BlockStepKeeps(m: Manifest, w: World, r: nat)
    requires m.Accepted() && Inv(m, w) && r in w.procs
    ensures Inv(m, DoBlock(m, w, r))
  {
    var p := w.procs[r];
    var w1 := DoBlock(m, w, r);
    if w1 != w {
      BlockKeeps(m, p.st);
      BlockedIsNotStarted(m, p.st);
      hide Inv;
      StoppedKeeps(m, w, r, Append(p.st, BlockedReceipt(m, p.st)));
    }
  }

  lemma BlockedIsNotStarted(m: Manifest, st: RunnerState)
    requires m.Accepted() && st.stop.Some? && |st.receipts| < MAX_PLANNED_ATTEMPTS
    ensures Started(Append(st, BlockedReceipt(m, st)).receipts) == Started(st.receipts)
  {
    assert Append(st, BlockedReceipt(m, st)).receipts[..|st.receipts|] == st.receipts;
  }

  lemma QuietKeeps(m: Manifest, w: World, step: Step)
    requires m.Accepted() && Inv(m, w) && step.r in w.procs
    ensures Inv(m, DoQuiet(m, w, step))
  {
    hide ValidState;
    if DoQuiet(m, w, step) != w {
      PhaseKeeps(m, w, step.r, DoQuiet(m, w, step).procs[step.r].phase);
    }
  }

  lemma StepKeeps(m: Manifest, w: World, step: Step)
    requires m.Accepted() && Inv(m, w)
    ensures Inv(m, Apply(m, w, step))
  {
    hide Inv, DoSpawn, DoCrash, DoEnter, DoCreate, DoWrite, DoQuiet, DoFailGate, DoTransmit, DoSettle, DoBlock;
    if step.Spawn? {
      SpawnKeeps(m, w, step.r, step.setup);
    } else if step.r in w.procs {
      match step
      case Crash(r) => CrashKeeps(m, w, r);
      case EnterCall(r, attemptId, gate) => EnterKeeps(m, w, r, attemptId, gate);
      case CreateFile(r) => CreateKeeps(m, w, r);
      case WriteFile(r) => WriteKeeps(m, w, r);
      case FailGate(r, gate, safe) => FailGateKeeps(m, w, r, gate, safe);
      case Transmit(r) => TransmitKeeps(m, w, r);
      case Settled(r, s) => SettleStepKeeps(m, w, r, s);
      case Block(r) => BlockStepKeeps(m, w, r);
      case _ => QuietKeeps(m, w, step);
    }
  }

  lemma {:induction false} ExecutionKeeps(m: Manifest, w: World, steps: seq<Step>)
    requires m.Accepted() && Inv(m, w)
    ensures Inv(m, Execute(m, w, steps))
    decreases |steps|
  {
    hide Inv, Apply;
    if steps != [] {
      StepKeeps(m, w, steps[0]);
      ExecutionKeeps(m, Apply(m, w, steps[0]), steps[1..]);
    }
  }

  // ---- main results -------------------------------------------------------

  /** However many runners interleave and crash, the sends ever made are the
      first attempts of the plan, each once and in order, each behind a complete
      claim of its sender, and all by the runner that claimed the first attempt. */
  lemma OneRunnerSendsThePlanOnce(m: Manifest, steps: seq<Step>)
    requires m.Accepted()
    ensures var w := Execute(m, START, steps);
      && |w.sends| <= |m.plan|
      && forall k | 0 <= k < |w.sends| ::
           && m.plan[0].attemptId in w.files
           && w.sends[k] == Send(w.files[m.plan[0].attemptId].owner, k)
           && m.plan[k].attemptId in w.files
           && w.files[m.plan[k].attemptId] == ClaimFile(w.sends[k].runner, true)
  {
    ExecutionKeeps(m, START, steps);
    var w := Execute(m, START, steps);
    if |w.sends| > |m.plan| {
      SendAt(m, w, |m.plan|);
    }
    forall k | 0 <= k < |w.sends|
      ensures m.plan[0].attemptId in w.files && w.sends[k] == Send(w.files[m.plan[0].attemptId].owner, k)
      ensures m.plan[k].attemptId in w.files
      ensures w.files[m.plan[k].attemptId] == ClaimFile(w.sends[k].runner, true)
    {
      assert OwnsComplete(m, w.files, w.sends[k].runner, k);
    }
  }

  /** The request counter of the runner that sends counts exactly the sends made;
      every other runner has sent nothing and stands behind no attempt. */
  lemma CounterCountsSends(m: Manifest, steps: seq<Step>, r: nat)
    requires m.Accepted() && r in Execute(m, START, steps).procs
    ensures var w := Execute(m, START, steps); var st := w.procs[r].st;
      && ValidState(m, st)
      && (if Owns(m, w.files, r, 0) then st.requests == |w.sends|
          else st.requests == 0 && Started(st.receipts) == 0 && forall k | 0 <= k < |w.sends| :: w.sends[k].runner != r)
  {
    ExecutionKeeps(m, START, steps);
    var w := Execute(m, START, steps);
    assert ProcInv(m, w, r, w.procs[r]);
    forall k | 0 <= k < |w.sends| && w.sends[k].runner == r ensures Owns(m, w.files, r, 0) {}
  }

  /** A later execution only adds sends and claims: nothing is sent again after a
      crash, and a tombstone stays. */
  lemma {:induction false} HistoryOnlyGrows(m: Manifest, w: World, steps: seq<Step>)
    requires m.Accepted() && Inv(m, w)
    ensures w.sends <= Execute(m, w, steps).sends
    ensures w.files.Keys <= Execute(m, w, steps).files.Keys
    ensures forall id | id in w.files :: Execute(m, w, steps).files[id].owner == w.files[id].owner
    decreases |steps|
  {
    if steps != [] {
      StepKeeps(m, w, steps[0]);
      StepGrows(m, w, steps[0]);
      hide Inv, Apply;
      HistoryOnlyGrows(m, Apply(m, w, steps[0]), steps[1..]);
    }
  }

  lemma StepGrows(m: Manifest, w: World, step: Step)
    requires m.Accepted() && Inv(m, w)
    ensures w.sends <= Apply(m, w, step).sends
    ensures w.files.Keys <= Apply(m, w, step).files.Keys
    ensures forall id | id in w.files :: Apply(m, w, step).files[id].owner == w.files[id].owner
  {
    hide ValidState, AfterSend, FailBeforeSend, Begin, BlockedReceipt;
    if step.WriteFile? && step.r in w.procs {
      var p := w.procs[step.r];
      assert ProcInv(m, w, step.r, p);
      assert p.phase.Created? ==> Owns(m, w.files, step.r, |p.st.receipts|);
    }
  }

  // ---- spend over every execution -----------------------------------------

  predicate SpendInv(m: Manifest, w: World) {
    forall r | r in w.procs ::
      SpendGuarded(m, w.procs[r].st) && (!w.procs[r].phase.Idle? ==> Affordable(m, w.procs[r].st))
  }

  lemma SpendPut(m: Manifest, w: World, r: nat, p: Proc)
    requires SpendInv(m, w) && SpendGuarded(m, p.st) && (!p.phase.Idle? ==> Affordable(m, p.st))
    ensures SpendInv(m, Put(w, r, p))
  {
    hide SpendGuarded, Affordable;
  }

  lemma SpendWithinReserve(m: Manifest, st: RunnerState, st1: RunnerState)
    requires SpendGuarded(m, st) && Committed(m, st1) <= Committed(m, st)
    requires Spent(st1.receipts) == Spent(st.receipts) || Affordable(m, st)
    ensures SpendGuarded(m, st1)
  {}

  lemma SpendReturn(m: Manifest, w: World, r: nat, p: Proc)
    requires SpendInv(m, w) && r in w.procs && p.phase.Idle?
    requires Committed(m, p.st) <= Committed(m, w.procs[r].st)
    requires Spent(p.st.receipts) == Spent(w.procs[r].st.receipts) || !w.procs[r].phase.Idle?
    ensures SpendInv(m, Put(w, r, p))
  {
    SpendWithinReserve(m, w.procs[r].st, p.st);
    SpendPut(m, w, r, p);
  }

  lemma SpendFailGate(m: Manifest, w: World, r: nat, gate: Gate, safe: bool)
    requires m.Accepted() && m.NonNegativePrices() && SpendInv(m, w) && r in w.procs
    ensures SpendInv(m, DoFailGate(m, w, r, gate, safe))
  {
    hide FailBeforeSend, SpendInv, Spent, Remaining, Committed;
    if DoFailGate(m, w, r, gate, safe) != w {
      FailBeforeSendWithinReserve(m, w.procs[r].st, gate, safe);
      SpendReturn(m, w, r, DoFailGate(m, w, r, gate, safe).procs[r]);
    }
  }

  lemma SpendSettle(m: Manifest, w: World, r: nat, s: Surroundings)
    requires m.Accepted() && m.NonNegativePrices() && SpendInv(m, w) && r in w.procs
    ensures SpendInv(m, DoSettle(m, w, r, s))
  {
    hide AfterSend, SpendInv, Spent, Remaining, Committed;
    if DoSettle(m, w, r, s) != w {
      AfterSendWithinReserve(m, w.procs[r].st, s);
      SpendReturn(m, w, r, DoSettle(m, w, r, s).procs[r]);
    }
  }

  lemma SpendBlock(m: Manifest, w: World, r: nat)
    requires m.Accepted() && m.NonNegativePrices() && SpendInv(m, w) && r in w.procs
    ensures SpendInv(m, DoBlock(m, w, r))
  {
    hide BlockedReceipt, SpendInv, Spent, Remaining, Committed;
    if DoBlock(m, w, r) != w {
      BlockWithinReserve(m, w.procs[r].st);
      SpendReturn(m, w, r, DoBlock(m, w, r).procs[r]);
    }
  }

  lemma SpendElse(m: Manifest, w: World, step: Step)
    requires m.Accepted() && SpendInv(m, w)
    requires !(step.FailGate? || step.Settled? || step.Block?)
    ensures SpendInv(m, Apply(m, w, step))
  {
    NothingSpent();
    hide Spent, Remaining;
  }

  lemma SpendStepKeeps(m: Manifest, w: World, step: Step)
    requires m.Accepted() && m.NonNegativePrices() && SpendInv(m, w)
    ensures SpendInv(m, Apply(m, w, step))
  {
    hide SpendInv, DoSpawn, DoCrash, DoEnter, DoCreate, DoWrite, DoQuiet, DoFailGate, DoTransmit, DoSettle, DoBlock;
    if step.FailGate? && step.r in w.procs {
      SpendFailGate(m, w, step.r, step.gate, step.safe);
    } else if step.Settled? && step.r in w.procs {
      SpendSettle(m, w, step.r, step.s);
    } else if step.Block? && step.r in w.procs {
      SpendBlock(m, w, step.r);
    } else if step.r in w.procs || step.Spawn? {
      SpendElse(m, w, step);
    }
  }

  lemma NothingSpent()
    ensures Spent(FRESH.receipts) == 0.0
  {}

  lemma {:induction false} SpendExecutionKeeps(m: Manifest, w: World, steps: seq<Step>)
    requires m.Accepted() && m.NonNegativePrices() && SpendInv(m, w)
    ensures SpendInv(m, Execute(m, w, steps))
    decreases |steps|
  {
    hide SpendInv, Apply;
    if steps != [] {
      SpendStepKeeps(m, w, steps[0]);
      SpendExecutionKeeps(m, Apply(m, w, steps[0]), steps[1..]);
    }
  }

  /** In every reachable state the spend attributed over a runner's receipts is
      within the ceiling, and only the runner that sends has spent anything. */
  lemma SpendNeverExceedsCeiling(m: Manifest, steps: seq<Step>, r: nat)
    requires m.Accepted() && m.NonNegativePrices() && r in Execute(m, START, steps).procs
    ensures var w := Execute(m, START, steps); var st := w.procs[r].st;
      && Spent(st.receipts) <= MAX_TOTAL_SPEND + SLACK
      && (!Owns(m, w.files, r, 0) ==> Spent(st.receipts) == 0.0)
  {
    var w := Execute(m, START, steps);
    var st := w.procs[r].st;
    SpendExecutionKeeps(m, START, steps);
    RemainingNonNegative(m, |st.receipts|);
    CounterCountsSends(m, steps, r);
    if !Owns(m, w.files, r, 0) {
      BlockedCostsNothing(m, st, |st.receipts|);
    }
  }

  lemma {:induction false} BlockedCostsNothing(m: Manifest, st: RunnerState, n: nat)
    requires ValidState(m, st) && Started(st.receipts) == 0 && n <= |st.receipts|
    ensures Spent(st.receipts[..n]) == 0.0 && st.receipts[..|st.receipts|] == st.receipts
  {
    if n > 0 {
      BlockedCostsNothing(m, st, n - 1);
      StartedIsPrefix(st.receipts, n - 1);
      assert st.receipts[..n][..n - 1] == st.receipts[..n - 1];
    }
  }

  // ---- the object's calls are executions ----------------------------------

  lemma ExecuteFirst(m: Manifest, w: World, step: Step, rest: seq<Step>)
    requires m.Accepted()
    ensures Execute(m, w, [step] + rest) == Execute(m, Apply(m, w, step), rest)
  {
    hide Apply;
    assert ([step] + rest)[1..] == rest;
  }

  lemma ExecuteOne(m: Manifest, w: World, step: Step)
    requires m.Accepted()
    ensures Execute(m, w, [step]) == Apply(m, w, step)
  {
    hide Apply;
    assert [step][1..] == [];
  }

  /** The world after the claim succeeded and the call went on to its end. */
  ghost function AfterClaim(m: Manifest, w: World, r: nat, s: Surroundings): World
    requires m.Accepted() && r in w.procs && |w.procs[r].st.receipts| < |m.plan|
  {
    var p := w.procs[r];
    if p.setup.live && !s.preSend.GatePass? then
      Put(w, r, Proc(p.setup, FailBeforeSend(m, p.st, s.preSend, s.receiptSafe).0, Idle))
    else
      var w1 := Put(w, r, Proc(p.setup, AfterSend(m, p.st.(requests := p.st.requests + 1), s).0, Idle));
      World(w1.files, w1.procs, w1.born, w.sends + [Send(r, |p.st.receipts|)])
  }

  /** The world after a call that passed its guards. */
  ghost function AfterGuards(m: Manifest, w: World, r: nat, s: Surroundings, fault: ClaimFault): World
    requires m.Accepted() && r in w.procs && |w.procs[r].st.receipts| < |m.plan|
  {
    var p := w.procs[r];
    var (files, ok) := Bm1Runner.Claimed(w.files, m.plan[|p.st.receipts|].attemptId, r, fault);
    var claimed := World(files, w.procs[r := Proc(p.setup, p.st, Idle)], w.born, w.sends);
    if ok then AfterClaim(m, claimed, r, s) else claimed
  }

  /** A whole uninterrupted `run_next` of one runner is an execution: the object
      proved against `RunNextOutcome` inherits every result above. */
  lemma CallIsExecution(m: Manifest, w: World, r: nat, attemptId: string, s: Surroundings, fault: ClaimFault)
    returns (steps: seq<Step>)
    requires m.Accepted() && Inv(m, w) && r in w.procs && w.procs[r].phase.Idle?
    ensures var p := w.procs[r];
      var o := RunNextOutcome(m, p.setup, p.st, w.files, attemptId, s, fault);
      Execute(m, w, steps) == World(o.files, w.procs[r := Proc(p.setup, o.st, Idle)], w.born,
                                    w.sends + if o.sent then [Send(r, |p.st.receipts|)] else [])
  {
    hide AfterSend, FailBeforeSend, ValidState, Begin, Execute, AfterClaim;
    var p := w.procs[r];
    var gate := if p.setup.live then s.entryGate else GatePass;
    var enter := EnterCall(r, attemptId, s.entryGate);
    if Begin(m, p.setup.transports, p.st, attemptId, gate).Refuse? {
      steps := [enter];
      ExecuteOne(m, w, enter);
    } else {
      BeginNamesNext(m, p.setup.transports, p.st, attemptId, gate);
      var ready := Put(w, r, Proc(p.setup, p.st, Ready));
      assert p.setup.id == r;
      assert Apply(m, w, enter) == ready;
      var rest := ClaimIsExecution(m, ready, r, s, fault);
      steps := [enter] + rest;
      ExecuteFirst(m, w, enter, rest);
      GuardsThenOutcome(m, w, r, attemptId, s, fault);
    }
  }

  lemma GuardsThenOutcome(m: Manifest, w: World, r: nat, attemptId: string, s: Surroundings, fault: ClaimFault)
    requires m.Accepted() && r in w.procs && w.procs[r].setup.id == r
    requires |w.procs[r].st.receipts| < |m.plan| && attemptId == m.plan[|w.procs[r].st.receipts|].attemptId
    requires Begin(m, w.procs[r].setup.transports, w.procs[r].st, attemptId,
                   if w.procs[r].setup.live then s.entryGate else GatePass).Proceed?
    ensures var p := w.procs[r];
      var o := RunNextOutcome(m, p.setup, p.st, w.files, attemptId, s, fault);
      AfterGuards(m, Put(w, r, Proc(p.setup, p.st, Ready)), r, s, fault)
      == World(o.files, w.procs[r := Proc(p.setup, o.st, Idle)], w.born,
               w.sends + if o.sent then [Send(r, |p.st.receipts|)] else [])
  {
    hide AfterSend, FailBeforeSend, Begin;
  }

  lemma BeginNamesNext(m: Manifest, transports: set<ProviderId>, st: RunnerState, attemptId: string, gate: Gate)
    requires m.Accepted() && Begin(m, transports, st, attemptId, gate).Proceed?
    ensures |st.receipts| < |m.plan| && attemptId == m.plan[|st.receipts|].attemptId
  {}

  /** From the guards on: claim, last gate, send, settle. */
  lemma ClaimIsExecution(m: Manifest, w: World, r: nat, s: Surroundings, fault: ClaimFault) returns (steps: seq<Step>)
    requires m.Accepted() && r in w.procs && w.procs[r].phase.Ready?
    requires w.procs[r].setup.id == r && |w.procs[r].st.receipts| < |m.plan|
    ensures Execute(m, w, steps) == AfterGuards(m, w, r, s, fault)
  {
    hide AfterSend, FailBeforeSend, Execute, AfterClaim;
    var p := w.procs[r];
    var id := m.plan[|p.st.receipts|].attemptId;
    var create, write, confirm, abandon := CreateFile(r), WriteFile(r), ConfirmFile(r), AbandonClaim(r);
    if id in w.files {
      steps := [create];
      ExecuteOne(m, w, create);
    } else if fault.FailsBeforeCreate? {
      steps := [abandon];
      ExecuteOne(m, w, abandon);
    } else {
      var w1 := Apply(m, w, create);
      if fault.FailsWhileWriting? {
        steps := [create] + [abandon];
        ExecuteFirst(m, w, create, [abandon]);
        ExecuteOne(m, w1, abandon);
      } else {
        var tail := WriteIsExecution(m, w1, r, s, fault);
        steps := [create] + tail;
        ExecuteFirst(m, w, create, tail);
        var q := Proc(p.setup, p.st, Idle);
        assert w1.files == w.files[id := ClaimFile(r, false)] && w1.procs[r].setup == p.setup && w1.procs[r].st == p.st;
        assert w1.files[id := ClaimFile(r, true)] == w.files[id := ClaimFile(r, true)];
        assert w1.procs[r := q] == w.procs[r := q];
      }
    }
  }

  /** From a created claim file on. */
  lemma WriteIsExecution(m: Manifest, w: World, r: nat, s: Surroundings, fault: ClaimFault) returns (steps: seq<Step>)
    requires m.Accepted() && r in w.procs && w.procs[r].phase.Created?
    requires w.procs[r].setup.id == r && |w.procs[r].st.receipts| < |m.plan|
    requires m.plan[|w.procs[r].st.receipts|].attemptId in w.files
    requires w.files[m.plan[|w.procs[r].st.receipts|].attemptId] == ClaimFile(r, false)
    requires fault.NoFault? || fault.FailsAfterWriting?
    ensures var p := w.procs[r];
      var written := World(w.files[m.plan[|p.st.receipts|].attemptId := ClaimFile(r, true)],
                           w.procs[r := Proc(p.setup, p.st, Idle)], w.born, w.sends);
      Execute(m, w, steps) == if fault.NoFault? then AfterClaim(m, written, r, s) else written
  {
    hide AfterSend, FailBeforeSend, Execute;
    var write, confirm, abandon := WriteFile(r), ConfirmFile(r), AbandonClaim(r);
    var w2 := Apply(m, w, write);
    if fault.FailsAfterWriting? {
      steps := [write] + [abandon];
      ExecuteFirst(m, w, write, [abandon]);
      ExecuteOne(m, w2, abandon);
    } else {
      var w3 := Apply(m, w2, confirm);
      var last := SendIsExecution(m, w3, r, s);
      steps := [write] + ([confirm] + last);
      ExecuteFirst(m, w, write, [confirm] + last);
      ExecuteFirst(m, w2, confirm, last);
    }
  }

  lemma SendIsExecution(m: Manifest, w: World, r: nat, s: Surroundings) returns (steps: seq<Step>)
    requires m.Accepted() && r in w.procs && w.procs[r].phase.Claimed? && |w.procs[r].st.receipts| < |m.plan|
    requires OwnsComplete(m, w.files, r, |w.procs[r].st.receipts|)
    ensures Execute(m, w, steps) == AfterClaim(m, w, r, s)
  {
    hide AfterSend, FailBeforeSend, Execute;
    var p := w.procs[r];
    if p.setup.live && !s.preSend.GatePass? {
      steps := [FailGate(r, s.preSend, s.receiptSafe)];
      ExecuteOne(m, w, steps[0]);
    } else {
      var pass, transmit, settle := PassGate(r), Transmit(r), Settled(r, s);
      var w1 := Apply(m, w, pass);
      var w2 := Apply(m, w1, transmit);
      steps := [pass] + ([transmit] + [settle]);
      ExecuteFirst(m, w, pass, [transmit] + [settle]);
      ExecuteFirst(m, w1, transmit, [settle]);
      ExecuteOne(m, w2, settle);
    }
  }

  lemma {:induction false} ExecuteConcat(m: Manifest, w: World, some: seq<Step>, more: seq<Step>)
    requires m.Accepted()
    ensures Execute(m, w, some + more) == Execute(m, Execute(m, w, some), more)
    decreases |some|
  {
    hide Apply;
    if some == [] {
      assert some + more == more;
    } else {
      assert (some + more)[1..] == some[1..] + more;
      ExecuteConcat(m, Apply(m, w, some[0]), some[1..], more);
    }
  }

  /** The inner loop of `run_all`. */
  lemma {:induction false} BlockingIsExecution(m: Manifest, w: World, r: nat) returns (steps: seq<Step>)
    requires m.Accepted() && r in w.procs && w.procs[r].phase.Idle? && w.procs[r].st.stop.Some?
    ensures var p := w.procs[r];
      Execute(m, w, steps) == World(w.files, w.procs[r := Proc(p.setup, BlockRest(m, p.st), Idle)], w.born, w.sends)
    decreases MAX_PLANNED_ATTEMPTS - |w.procs[r].st.receipts|
  {
    hide BlockedReceipt, Execute;
    var p := w.procs[r];
    if |p.st.receipts| >= MAX_PLANNED_ATTEMPTS {
      steps := [];
      assert w.procs[r := Proc(p.setup, p.st, Idle)] == w.procs;
      ExecuteNothing(m, w);
    } else {
      var w1 := DoBlock(m, w, r);
      var rest := BlockingIsExecution(m, w1, r);
      steps := [Block(r)] + rest;
      ExecuteFirst(m, w, Block(r), rest);
      var last := Proc(p.setup, BlockRest(m, p.st), Idle);
      assert w1.procs[r := last] == w.procs[r := last];
    }
  }

  lemma ExecuteNothing(m: Manifest, w: World)
    requires m.Accepted()
    ensures Execute(m, w, []) == w
  {}

  /** `w1` is `w` after runner `r` alone went on to `st` and `files`. */
  ghost predicate RanAlone(w: World, w1: World, r: nat, st: RunnerState, files: ClaimFiles)
    requires r in w.procs
  {
    && w1.files == files && w1.born == w.born
    && w1.procs == w.procs[r := Proc(w.procs[r].setup, st, Idle)]
    && w.sends <= w1.sends && |w1.sends| == |w.sends| + st.requests - w.procs[r].st.requests
    && forall k | |w.sends| <= k < |w1.sends| :: w1.sends[k].runner == r
  }

  lemma RanOn(w: World, w1: World, w2: World, r: nat, st: RunnerState, files: ClaimFiles)
    requires r in w.procs && r in w1.procs && RanAlone(w, w1, r, w1.procs[r].st, w1.files)
    requires RanAlone(w1, w2, r, st, files)
    ensures RanAlone(w, w2, r, st, files)
  {
    assert w.procs[r := w1.procs[r]][r := w2.procs[r]] == w.procs[r := w2.procs[r]];
  }

  lemma AtRest(m: Manifest, w: World, r: nat)
    requires m.Accepted() && Inv(m, w) && r in w.procs
    ensures var st := w.procs[r].st; ValidState(m, st) && LostSendIsClaimed(m, st, w.files)
  {}

  /** A whole uninterrupted `run_all` of one runner is an execution too. */
  lemma {:induction false} RunAllIsExecution(m: Manifest, w: World, r: nat, script: Script) returns (steps: seq<Step>)
    requires m.Accepted() && Inv(m, w) && r in w.procs && w.procs[r].phase.Idle?
    ensures var p := w.procs[r]; ValidState(m, p.st) && LostSendIsClaimed(m, p.st, w.files)
    ensures var p := w.procs[r];
      var result := RunAllOutcome(m, p.setup, p.st, w.files, script);
      RanAlone(w, Execute(m, w, steps), r, result.st, result.files)
    decreases MAX_PLANNED_ATTEMPTS - |w.procs[r].st.receipts|
  {
    hide RunNextOutcome, BlockRest, Execute, Inv, RanAlone, ValidState;
    AtRest(m, w, r);
    var p := w.procs[r];
    if |p.st.receipts| >= MAX_PLANNED_ATTEMPTS {
      steps := [];
      ExecuteNothing(m, w);
      StoodStill(w, r);
    } else if p.st.stop.Some? {
      steps := BlockingIsExecution(m, w, r);
      BlockRestExtends(m, p.st);
      Blocked(m, w, r);
    } else {
      var attemptId := m.plan[|p.st.receipts|].attemptId;
      var (s, fault) := script(|p.st.receipts|);
      RunNextKeeps(m, p.setup, p.st, w.files, attemptId, s, fault);
      steps := CallIsExecution(m, w, r, attemptId, s, fault);
      var w1 := Execute(m, w, steps);
      var o := RunNextOutcome(m, p.setup, p.st, w.files, attemptId, s, fault);
      RanOne(w, w1, r, o.st, o.files, o.sent);
      if o.result.Done? {
        ExecutionKeeps(m, w, steps);
        var rest := RunAllIsExecution(m, w1, r, script);
        ExecuteConcat(m, w, steps, rest);
        var result := RunAllOutcome(m, p.setup, o.st, o.files, script);
        RanOn(w, w1, Execute(m, w1, rest), r, result.st, result.files);
        steps := steps + rest;
      }
    }
  }

  lemma StoodStill(w: World, r: nat)
    requires r in w.procs && w.procs[r].phase.Idle?
    ensures RanAlone(w, w, r, w.procs[r].st, w.files)
  {
    assert w.procs[r := w.procs[r]] == w.procs;
  }

  lemma Blocked(m: Manifest, w: World, r: nat)
    requires m.Accepted() && r in w.procs && w.procs[r].st.stop.Some?
    requires BlockRest(m, w.procs[r].st).requests == w.procs[r].st.requests
    ensures var st := BlockRest(m, w.procs[r].st);
      RanAlone(w, World(w.files, w.procs[r := Proc(w.procs[r].setup, st, Idle)], w.born, w.sends), r, st, w.files)
  {
    hide BlockRest;
  }

  lemma RanOne(w: World, w1: World, r: nat, st: RunnerState, files: ClaimFiles, sent: bool)
    requires r in w.procs && st.requests == w.procs[r].st.requests + if sent then 1 else 0
    requires w1 == World(files, w.procs[r := Proc(w.procs[r].setup, st, Idle)], w.born,
                         w.sends + if sent then [Send(r, |w.procs[r].st.receipts|)] else [])
    ensures RanAlone(w, w1, r, st, files)
  {}

  // ---- BLOCKED does not mean unsent ---------------------------------------

  /** Every event that loses a receipt has a run in which `run_all` then marks that
      very attempt BLOCKED; `BlockedStandsForLostReceiptIff` says there are no others. */
  lemma SentAttemptMayEndBlocked(m: Manifest, u: Setup, s: Surroundings)
    requires m.Accepted() && Affordable(m, FRESH) && OpenAI in u.transports
    requires s.entryGate.GatePass? && s.preSend.GatePass? && LosesReceipt(m, m.plan[0], s)
    ensures var o := RunNextOutcome(m, u, FRESH, map[], m.plan[0].attemptId, s, NoFault);
      && o.sent && o.st.stop.Some?
      && BlockedWasSent(BlockRest(m, o.st), 0)
      && BlockRest(m, o.st).receipts[0].reason == Stop(o.st.stop.value)
  {
    hide AfterSend, LosesReceipt;
    var sent := FRESH.(requests := 1);
    assert Begin(m, u.transports, FRESH, m.plan[0].attemptId, GatePass).Proceed?;
    ReceiptLostIff(m, sent, s);
    AfterSendShape(m, sent, s);
    var st := AfterSend(m, sent, s).0;
    BlockRestExtends(m, Append(st, BlockedReceipt(m, st)));
  }
}
