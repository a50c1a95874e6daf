/** Two runs in which a command starts on a marker that another command has opened
    and not settled, and the markers end up out of order. */
module HandoffMarkerRuns {
  import opened HandoffBinding
  import opened HandoffWorld
  import opened HandoffMarkers

  /** One more step at the end of a run. */
  lemma Then(w: World, steps: seq<Step>, step: Step) returns (longer: seq<Step>)
    ensures longer == steps + [step] && Run(w, longer) == Apply(Run(w, steps), step)
  {
    hide Apply;
    longer := steps + [step];
    RunConcat(w, steps, [step]);
    assert Run(Run(w, steps), [step]) == Apply(Run(w, steps), step);
  }

  const TERMS := Binding(9, 0, Bytes(0, 1), Bytes(1, 1), Smoke, 0, 0, 1, 2, 0)
  const ORCHESTRATOR := Committed(TERMS, 1, ReturnPrivate, PayloadPrepared, Payload(TERMS, 1))
  const RUNNER := Committed(TERMS, 1, FrozenInput, PayloadAccepted, Payload(TERMS, 1))
  const ENCRYPT := EncryptChallenge(1, TERMS, 4)
  const SEALED := SealedChallenge(TERMS, 4)
  const ACK := AckFor(TERMS, SEALED, 4, 1)

  const OPEN_GATE := VerifyAck(1, TERMS, 1, 4, SEALED, ACK)
  const ANSWER := Bundle(TERMS, 0)

  /** Directory 0 prepared, directory 1 accepted, pids from 2 on unused. */
  predicate InputAccepted(w: World) {
    0 in w.dirs && w.dirs[0] == ORCHESTRATOR && 1 in w.dirs && w.dirs[1] == RUNNER
    && w.nextSecret == 4 && 2 !in w.procs && 3 !in w.procs && 4 !in w.procs && 5 !in w.procs
  }

  lemma AcceptAnInput() returns (steps: seq<Step>)
    ensures InputAccepted(Run(EMPTY_WORLD, steps))
  {
    steps := [];
    steps := Then(EMPTY_WORLD, steps, Start(0, PrepareInput(0, TERMS, 1)));
    steps := Then(EMPTY_WORLD, steps, Open(0));
    steps := PublishDelivers(steps, 0, Payload(TERMS, 1));
    steps := Then(EMPTY_WORLD, steps, Start(1, AcceptInput(1, TERMS, 1, Payload(TERMS, 1))));
    steps := Then(EMPTY_WORLD, steps, Open(1));
  }

  /** The challenge marker can be read; `encrypt` is how far its command is. */
  predicate ChallengeReadable(w: World, encrypt: Proc) {
    0 in w.dirs && w.dirs[0] == ORCHESTRATOR && 1 in w.dirs
    && w.dirs[1].binding == TERMS && w.dirs[1].ackKey == 1
    && AckAccepted !in w.dirs[1].files && ResultStarted !in w.dirs[1].files
    && Readable(w.dirs[1], BindingFile) && Readable(w.dirs[1], AckKeyFile)
    && Readable(w.dirs[1], ChallengeFile) && w.dirs[1].files[ChallengeFile].content == Secret(4)
    && Claimed(w.dirs[1], ChallengePublished)
    && SEALED in w.channel && 2 in w.procs && w.procs[2] == encrypt && 4 !in w.procs && 5 !in w.procs
  }

  const WRITTEN_CHALLENGE := Proc(ENCRYPT, 2, Unsynced)
  const SETTLED_CHALLENGE := Proc(ENCRYPT, 3, Ready)

  /** The gate marker can be read too, but its command is not done with it. */
  predicate GateReadable(w: World, encrypt: Proc) {
    1 in w.dirs && w.dirs[1].binding == TERMS && ResultStarted !in w.dirs[1].files
    && Readable(w.dirs[1], BindingFile) && Claimed(w.dirs[1], AckAccepted)
    && 2 in w.procs && w.procs[2] == encrypt && 4 in w.procs && w.procs[4] == Proc(OPEN_GATE, 0, Unsynced) && 5 !in w.procs
  }

  predicate ChallengeWritten(w: World, next: nat) {
    0 in w.dirs && w.dirs[0] == ORCHESTRATOR && 1 in w.dirs
    && w.dirs[1] == Dir(TERMS, 1, RUNNER.files[ChallengeFile := Written(Secret(4))])
    && 2 in w.procs && w.procs[2] == Proc(ENCRYPT, next, Ready)
    && 3 !in w.procs && 4 !in w.procs && 5 !in w.procs
  }

  /** `w'` is `w` with one file created by `pid` and not yet synced. */
  predicate Created(w: World, w': World, pid: Id, d: Id, name: Name, content: Content)
    requires d in w.dirs && pid in w.procs
  {
    w'.dirs == w.dirs[d := Dir(w.dirs[d].binding, w.dirs[d].ackKey, w.dirs[d].files[name := Written(content)])]
    && w'.procs == w.procs[pid := Proc(w.procs[pid].script, w.procs[pid].next, Unsynced)] && w'.channel == w.channel
  }

  lemma CreateEffect(w: World, pid: Id, d: Id, name: Name, content: Content)
    requires At(w, pid, Ready) && OpAt(w, pid) == CreateFile(name, content) && w.procs[pid].script.dir == d
    requires d in w.dirs && name !in w.dirs[d].files
    ensures Created(w, DoWrite(DoOpen(w, pid), pid), pid, d, name, content)
  {
    hide Ops, WriteEvents;
    var during := DoOpen(w, pid);
    var torn, files := during.dirs[d].files, w.dirs[d].files;
    assert torn[name := Written(content)] == files[name := Written(content)];
    var written := DoWrite(during, pid);
    assert written.dirs[d] == Dir(w.dirs[d].binding, w.dirs[d].ackKey, files[name := Written(content)]);
  }

  /** Opening and writing an absent file makes it readable. */
  lemma CreateMakesReadable(before: seq<Step>, pid: Id, d: Id, name: Name, content: Content) returns (steps: seq<Step>)
    requires var w := Run(EMPTY_WORLD, before);
             At(w, pid, Ready) && OpAt(w, pid) == CreateFile(name, content) && w.procs[pid].script.dir == d
             && d in w.dirs && name !in w.dirs[d].files
    ensures Created(Run(EMPTY_WORLD, before), Run(EMPTY_WORLD, steps), pid, d, name, content)
  {
    hide Run, DoOpen, DoWrite, Created, Ops;
    steps := Then(EMPTY_WORLD, before, Open(pid));
    steps := Then(EMPTY_WORLD, steps, Write(pid));
    CreateEffect(Run(EMPTY_WORLD, before), pid, d, name, content);
  }

  lemma WriteAChallenge(before: seq<Step>) returns (steps: seq<Step>)
    requires InputAccepted(Run(EMPTY_WORLD, before))
    ensures ChallengeWritten(Run(EMPTY_WORLD, steps), 1)
  {
    hide Run;
    steps := Then(EMPTY_WORLD, before, Start(2, ENCRYPT));
    steps := CreateMakesReadable(steps, 2, 1, ChallengeFile, Secret(4));
    steps := Then(EMPTY_WORLD, steps, Close(2));
  }

  lemma SendTheChallenge(before: seq<Step>) returns (steps: seq<Step>)
    requires ChallengeWritten(Run(EMPTY_WORLD, before), 1)
    ensures ChallengeWritten(Run(EMPTY_WORLD, steps), 2) && SEALED in Run(EMPTY_WORLD, steps).channel
  {
    hide Run;
    steps := PublishDelivers(before, 2, SEALED);
    steps := Then(EMPTY_WORLD, steps, Close(2));
  }

  lemma ClaimTheChallenge(before: seq<Step>) returns (steps: seq<Step>)
    requires ChallengeWritten(Run(EMPTY_WORLD, before), 2) && SEALED in Run(EMPTY_WORLD, before).channel
    ensures ChallengeReadable(Run(EMPTY_WORLD, steps), WRITTEN_CHALLENGE) && 3 !in Run(EMPTY_WORLD, steps).procs
  {
    hide Run;
    steps := CreateMakesReadable(before, 2, 1, ChallengePublished, Marker(ChallengePublished, TERMS, OfMessage(SEALED)));
  }

  /** Opening and writing an output delivers its message. */
  lemma PublishDelivers(before: seq<Step>, pid: Id, m: Message) returns (steps: seq<Step>)
    requires At(Run(EMPTY_WORLD, before), pid, Ready) && OpAt(Run(EMPTY_WORLD, before), pid) == Publish(m)
    ensures var w, w' := Run(EMPTY_WORLD, before), Run(EMPTY_WORLD, steps);
            w'.dirs == w.dirs && w'.channel == w.channel + {m} && w'.nextSecret == w.nextSecret
            && w'.procs == w.procs[pid := Proc(w.procs[pid].script, w.procs[pid].next, Unsynced)]
  {
    hide Run, Ops, WriteEvents;
    steps := Then(EMPTY_WORLD, before, Open(pid));
    steps := Then(EMPTY_WORLD, steps, Write(pid));
    var w := Run(EMPTY_WORLD, before);
    var q := w.procs[pid];
    assert w.procs[pid := Proc(q.script, q.next, Opened)][pid := Proc(q.script, q.next, Unsynced)]
        == w.procs[pid := Proc(q.script, q.next, Unsynced)];
  }

  lemma AcknowledgeIt(before: seq<Step>, encrypt: Proc) returns (steps: seq<Step>)
    requires ChallengeReadable(Run(EMPTY_WORLD, before), encrypt) && 3 !in Run(EMPTY_WORLD, before).procs
    ensures ChallengeReadable(Run(EMPTY_WORLD, steps), encrypt) && ACK in Run(EMPTY_WORLD, steps).channel
  {
    hide Run;
    steps := Then(EMPTY_WORLD, before, Start(3, VerifyChallenge(0, TERMS, 1, 4, SEALED)));
    steps := PublishDelivers(steps, 3, ACK);
  }

  lemma AcceptTheAck(before: seq<Step>, encrypt: Proc) returns (steps: seq<Step>)
    requires ChallengeReadable(Run(EMPTY_WORLD, before), encrypt) && ACK in Run(EMPTY_WORLD, before).channel
    ensures GateReadable(Run(EMPTY_WORLD, steps), encrypt)
  {
    hide Run;
    steps := Then(EMPTY_WORLD, before, Start(4, OPEN_GATE));
    steps := CreateMakesReadable(steps, 4, 1, AckAccepted, Marker(AckAccepted, TERMS, OfMessage(ACK)));
  }

  /** The challenge is published and read, its command not done with the marker. */
  lemma PublishTheChallenge() returns (steps: seq<Step>)
    ensures ChallengeReadable(Run(EMPTY_WORLD, steps), WRITTEN_CHALLENGE) && 3 !in Run(EMPTY_WORLD, steps).procs
  {
    hide Run, InputAccepted, ChallengeWritten, ChallengeReadable;
    steps := AcceptAnInput();
    steps := WriteAChallenge(steps);
    steps := SendTheChallenge(steps);
    steps := ClaimTheChallenge(steps);
  }

  lemma ReturnFromTheGate(before: seq<Step>, encrypt: Proc) returns (steps: seq<Step>)
    requires GateReadable(Run(EMPTY_WORLD, before), encrypt)
    ensures var w := Run(EMPTY_WORLD, steps);
            1 in w.dirs && Readable(w.dirs[1], AckAccepted) && 2 in w.procs && w.procs[2] == encrypt
            && 4 in w.procs && w.procs[4] == Proc(OPEN_GATE, 1, Ready)
  {
    hide Run;
    steps := Then(EMPTY_WORLD, before, Close(4));
  }

  /** While the challenge command still waits for its sync, another command accepts the
      acknowledgement and returns; then the sync fails and the challenge marker is withdrawn. */
  lemma ConcurrentCommandsBreakTheChain() returns (steps: seq<Step>)
    ensures var w := Run(EMPTY_WORLD, steps);
            1 in w.dirs && Readable(w.dirs[1], AckAccepted) && !Readable(w.dirs[1], ChallengePublished)
    ensures !Careful(EMPTY_WORLD, steps)
  {
    hide Run, Careful;
    steps := PublishTheChallenge();
    steps := AcknowledgeIt(steps, WRITTEN_CHALLENGE);
    steps := AcceptTheAck(steps, WRITTEN_CHALLENGE);
    steps := ReturnFromTheGate(steps, WRITTEN_CHALLENGE);
    steps := Then(EMPTY_WORLD, steps, Fail(2, true));
    if Careful(EMPTY_WORLD, steps) { MarkersStayChained(steps, 1); }
  }

  lemma StartTheResult(before: seq<Step>, encrypt: Proc) returns (steps: seq<Step>)
    requires GateReadable(Run(EMPTY_WORLD, before), encrypt)
    ensures var w := Run(EMPTY_WORLD, steps);
            1 in w.dirs && Readable(w.dirs[1], ResultStarted) && 4 in w.procs && w.procs[4] == Proc(OPEN_GATE, 0, Unsynced)
  {
    hide Run;
    steps := Then(EMPTY_WORLD, before, Start(5, MakeResult(1, TERMS, ANSWER)));
    steps := CreateMakesReadable(steps, 5, 1, ResultStarted, Marker(ResultStarted, TERMS, OfBundle(ANSWER)));
  }

  /** The challenge is settled. While the gate command still waits for its sync, a result
      is started; then the sync fails and the acknowledgement marker is withdrawn. */
  lemma ResultMayOutliveItsAck() returns (steps: seq<Step>)
    ensures var w := Run(EMPTY_WORLD, steps);
            1 in w.dirs && Readable(w.dirs[1], ResultStarted) && !Readable(w.dirs[1], AckAccepted)
    ensures !Careful(EMPTY_WORLD, steps)
  {
    hide Run, Careful;
    steps := PublishTheChallenge();
    steps := Then(EMPTY_WORLD, steps, Close(2));
    steps := AcknowledgeIt(steps, SETTLED_CHALLENGE);
    steps := AcceptTheAck(steps, SETTLED_CHALLENGE);
    steps := StartTheResult(steps, SETTLED_CHALLENGE);
    steps := Then(EMPTY_WORLD, steps, Fail(4, true));
    if Careful(EMPTY_WORLD, steps) { MarkersStayChained(steps, 1); }
  }
}
