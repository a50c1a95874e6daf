/** `commit_cli_outputs` of b2/blind_eval.py: two output files replaced as a pair,
    with a failure possible at every file operation. */
module BlindCommit {
  import opened Wrappers
  import opened HandoffBinding
  import opened BlindReceipt

  /** A file's bytes and the run that wrote them. */
  datatype Artifact = Artifact(run: Id, body: Bytes)

  /** What a reader, or a restart after a crash, would find at one instant. */
  datatype Snapshot = Snapshot(raw: Option<Artifact>, receipt: Option<Artifact>)

  /** Raw answer and receipt never come from different runs. */
  predicate Unambiguous(s: Snapshot) {
    s.raw.Some? && s.receipt.Some? ==> s.raw.value.run == s.receipt.value.run
  }

  /** How writing a temporary file ends: `Unwritten` before it exists, `Broken`
      half written, with its own removal working or not. */
  datatype Staging = Staged | Unwritten | Broken(removed: bool)

  /** Which operations work. */
  datatype Faults = Faults(
    stageRaw: Staging, stageReceipt: Staging, clearRaw: bool, clearReceipt: bool,
    replaceRaw: bool, replaceReceipt: bool, undoRaw: bool, undoReceipt: bool,
    dropRaw: bool, dropReceipt: bool, dropRawTemp: bool, dropReceiptTemp: bool)

  predicate StagingCleans(s: Staging) {
    s.Broken? ==> s.removed
  }

  /** Every removal made while handling a failure works. */
  predicate RemovalsWork(f: Faults) {
    StagingCleans(f.stageRaw) && StagingCleans(f.stageReceipt) && f.undoRaw && f.undoReceipt
    && f.dropRaw && f.dropReceipt && f.dropRawTemp && f.dropReceiptTemp
  }

  function Count(present: bool): nat {
    if present then 1 else 0
  }

  datatype Outcome = Committed | Refused | Failed

  class OutputPair {
    var raw: Option<Artifact>
    var receipt: Option<Artifact>
    /** Temporary files on disk; every one has a name of its own. */
    var temps: nat
    /** Every instant so far. */
    ghost var history: seq<Snapshot>

    constructor (raw: Option<Artifact>, receipt: Option<Artifact>)
      ensures this.raw == raw && this.receipt == receipt && temps == 0 && history == [Now()]
    {
      this.raw := raw;
      this.receipt := receipt;
      temps := 0;
      history := [Snapshot(raw, receipt)];
    }

    ghost function Now(): Snapshot
      reads this
    {
      Snapshot(raw, receipt)
    }

    ghost predicate NeverMixed()
      reads this
    {
      Unambiguous(Now()) && forall s | s in history :: Unambiguous(s)
    }

    /** `_remove_if_exists`. */
    method RemoveRaw(works: bool)
      modifies `raw, `history
      ensures raw == if works then None else old(raw)
      ensures history == old(history) + [Now()]
    {
      if works { raw := None; }
      history := history + [Now()];
    }

    method RemoveReceipt(works: bool)
      modifies `receipt, `history
      ensures receipt == if works then None else old(receipt)
      ensures history == old(history) + [Now()]
    {
      if works { receipt := None; }
      history := history + [Now()];
    }

    /** The body of the outer `try`: stage, clear, publish raw first and receipt last.
        `rawStaged` and `receiptStaged` are the two temporary-path variables. */
    method Publish(newRaw: Option<Artifact>, newReceipt: Artifact, f: Faults)
      returns (raised: bool, rawStaged: bool, receiptStaged: bool)
      requires NeverMixed()
      requires newRaw.Some? ==> newRaw.value.run == newReceipt.run
      modifies this
      ensures NeverMixed() && old(history) <= history
      ensures !raised ==> raw == newRaw && receipt == Some(newReceipt) && temps == old(temps) && !rawStaged && !receiptStaged
      ensures raised ==> receipt.None? || receipt == old(receipt)
      ensures temps >= old(temps) + Count(rawStaged) + Count(receiptStaged)
      ensures StagingCleans(f.stageRaw) && StagingCleans(f.stageReceipt) ==> temps == old(temps) + Count(rawStaged) + Count(receiptStaged)
    {
      rawStaged, receiptStaged := false, false;
      if newRaw.Some? {
        if f.stageRaw.Staged? || f.stageRaw == Broken(false) { temps := temps + 1; }
        if !f.stageRaw.Staged? { return true, rawStaged, receiptStaged; }
        rawStaged := true;
      }
      if f.stageReceipt.Staged? || f.stageReceipt == Broken(false) { temps := temps + 1; }
      if !f.stageReceipt.Staged? { return true, rawStaged, receiptStaged; }
      receiptStaged := true;

      RemoveRaw(f.clearRaw);
      if !f.clearRaw { return true, rawStaged, receiptStaged; }
      RemoveReceipt(f.clearReceipt);
      if !f.clearReceipt { return true, rawStaged, receiptStaged; }

      if newRaw.Some? {
        if !f.replaceRaw { return true, rawStaged, receiptStaged; }
        raw, temps := newRaw, temps - 1;
        history := history + [Now()];
        rawStaged := false;
        if !f.replaceReceipt {
          RemoveRaw(f.undoRaw);
          if f.undoRaw { RemoveReceipt(f.undoReceipt); }
          return true, rawStaged, receiptStaged;
        }
      } else if !f.replaceReceipt {
        return true, rawStaged, receiptStaged;
      }
      receipt, temps := Some(newReceipt), temps - 1;
      history := history + [Now()];
      receiptStaged := false;
      raised := false;
    }

    /** `commit_cli_outputs`: the new pair (or, without PASS, the receipt alone) is
        in place exactly on a normal return; a failure whose removals work leaves
        nothing at all; and no instant ever shows files of two runs. */
    method Commit(status: Status, newRaw: Option<Artifact>, newReceipt: Artifact, f: Faults) returns (outcome: Outcome)
      requires NeverMixed()
      requires newRaw.Some? ==> newRaw.value.run == newReceipt.run
      modifies this
      ensures NeverMixed() && old(history) <= history
      ensures outcome == Refused <==> (status == PASS) != newRaw.Some?
      ensures outcome == Refused ==> Now() == old(Now()) && temps == old(temps) && history == old(history)
      ensures outcome == Committed ==> raw == newRaw && receipt == Some(newReceipt) && temps == old(temps)
      ensures outcome == Failed ==> receipt.None? || receipt == old(receipt)
      ensures outcome == Failed && RemovalsWork(f) ==> raw.None? && receipt.None? && temps == old(temps)
    {
      if (status == PASS) != newRaw.Some? {
        return Refused;
      }
      var raised, rawStaged, receiptStaged := Publish(newRaw, newReceipt, f);
      if raised {
        RemoveRaw(f.dropRaw);
        if f.dropRaw { RemoveReceipt(f.dropReceipt); }
      }
      var unlinked := true;
      if rawStaged {
        unlinked := f.dropRawTemp;
        if unlinked { temps := temps - 1; }
      }
      if receiptStaged && unlinked && f.dropReceiptTemp {
        temps := temps - 1;
      }
      return if raised then Failed else Committed;
    }
  }
}
