/** The independent check of a restore receipt, and exactly what it adds to the clock's own guarantees. */
module RestoreEvidence {
  import opened Prelude
  import opened RestoreClock

  datatype Plan = Plan(startS: nat, durationS: nat)

  datatype Action = Action(startS: nat, durationS: nat, recoveryS: nat)

  const BACKUP_NAME := "campaign-source"

  predicate Numbers(r: Receipt) {
    && U64(r.planned) && U64(r.lossNs) && U64(r.deadline) && U64(r.completedNs)
    && U64(r.preparationNs) && U64(r.acknowledged.boundNs) && U64(r.acknowledged.commands)
    && U64(r.acknowledged.frontier)
    && U64(r.backup.operationStarted) && U64(r.backup.operationCompleted) && U64(r.backup.operationDeadline)
    && U64(r.backup.durableNs) && U64(r.backup.bytes)
  }

  predicate SchedulePart(r: Receipt, plan: Plan, action: Action) {
    && r.planned == plan.startS * SECOND
    && r.planned <= r.lossNs < r.planned + SECOND && r.deadline == r.lossNs + RECOVERY_LIMIT
    && r.lossNs <= r.completedNs <= r.deadline
    && r.completedNs <= (action.startS + action.durationS + action.recoveryS) * SECOND
  }

  predicate PreparationPart(r: Receipt) {
    && r.planned - PREPARATION_LIMIT <= r.preparationNs <= r.acknowledged.boundNs < r.planned
    && 0 < r.acknowledged.commands <= (r.acknowledged.boundNs / SECOND + 1) * 100
    && r.acknowledged.frontier >= r.acknowledged.commands
  }

  predicate BackupPart(r: Receipt) {
    var b := r.backup;
    && b.name == BACKUP_NAME
    && r.acknowledged.boundNs <= b.operationStarted <= b.operationCompleted <= b.durableNs < r.planned
    && b.operationStarted < b.operationDeadline <= r.planned
    && InventoryOk(b.artifacts, b.manifest) && b.bytes == TotalBytes(b.artifacts)
  }

  /** Writes come back only after the planned hold; everything else happens inside it. */
  predicate Timely(r: Receipt, plan: Plan, i: nat)
    requires i < |r.phases|
  {
    if r.phases[i].phase == FirstWrite then r.phases[i].ns >= r.lossNs + plan.durationS * SECOND
    else r.phases[i].ns < r.lossNs + plan.durationS * SECOND
  }

  ghost predicate ClockAccepted(r: Receipt, plan: Plan, action: Action) {
    && Numbers(r) && SchedulePart(r, plan, action) && PreparationPart(r) && BackupPart(r)
    && |r.phases| == 7 && Ordered(r.phases, r.lossNs, r.completedNs)
    && (forall i :: 0 <= i < |r.phases| ==> Timely(r, plan, i))
    && Names(r.phases) == REPLAY_FIRST
  }

  /** The receipt check, with its loop over the recovery phases. */
  method ValidateClock(r: Receipt, plan: Plan, action: Action) returns (interval: Option<(nat, nat)>)
    requires NamesDiffer(r.backup.artifacts)
    ensures interval.Some? <==> ClockAccepted(r, plan, action)
    ensures interval.Some? ==> interval.value == (r.preparationNs / SECOND, plan.startS)
  {
    if !Numbers(r) || !SchedulePart(r, plan, action) || !PreparationPart(r) {
      return None;
    }
    var b := r.backup;
    if b.name != BACKUP_NAME
       || !(r.acknowledged.boundNs <= b.operationStarted <= b.operationCompleted <= b.durableNs < r.planned)
       || !(b.operationStarted < b.operationDeadline <= r.planned) {
      return None;
    }
    var size := BindArtifacts(b.artifacts, b.manifest);
    if size.None? || size.value != b.bytes || |r.phases| != 7 {
      return None;
    }
    var previous := r.lossNs;
    var names: seq<Phase> := [];
    for i := 0 to |r.phases|
      invariant previous == (if i == 0 then r.lossNs else r.phases[i - 1].ns) && names == Names(r.phases[..i])
      invariant forall j :: 0 <= j < i ==> InOrder(r.phases, j, r.lossNs, r.completedNs) && Timely(r, plan, j)
    {
      var instant := r.phases[i].ns;
      if !(previous <= instant <= r.completedNs) {
        assert !InOrder(r.phases, i, r.lossNs, r.completedNs);
        return None;
      }
      names := names + [r.phases[i].phase];
      previous := instant;
      if !Timely(r, plan, i) {
        return None;
      }
    }
    assert r.phases[..|r.phases|] == r.phases;
    if names != REPLAY_FIRST {
      return None;
    }
    return Some((r.preparationNs / SECOND, r.planned / SECOND));
  }

  /** What the checker alone demands of a receipt the clock handed out. */
  ghost predicate CheckerOnlyFacts(r: Receipt, plan: Plan, action: Action) {
    && r.planned == plan.startS * SECOND
    && r.completedNs <= (action.startS + action.durationS + action.recoveryS) * SECOND
    && r.acknowledged.commands <= (r.acknowledged.boundNs / SECOND + 1) * 100
    && r.acknowledged.commands <= r.acknowledged.frontier
    && r.backup.name == BACKUP_NAME
    && r.acknowledged.boundNs <= r.backup.operationStarted && r.backup.operationCompleted <= r.backup.durableNs
    && (forall i :: 0 <= i < |r.phases| ==> Timely(r, plan, i))
    && Names(r.phases) == REPLAY_FIRST
  }

  lemma {:induction false} WholeSecond(planned: nat, start: nat, loss: nat)
    requires planned == start * SECOND && loss / SECOND == planned / SECOND
    ensures planned <= loss < planned + SECOND
  {
    assert planned / SECOND == start;
  }

  /**
   * A receipt of any finished run passes the check exactly when those facts hold: the
   * planned loss is a whole second, the action covers the completion, no more commands
   * were acknowledged than offered or committed, the named backup was started after the
   * acknowledgements were bound and answered by the durable instant, and writes returned
   * last and on time.
   */
  lemma {:induction false} ReceiptAcceptedIff(r: Receipt, plan: Plan, action: Action)
    requires Sound(r)
    ensures ClockAccepted(r, plan, action) <==> CheckerOnlyFacts(r, plan, action)
  {
    if r.planned == plan.startS * SECOND {
      WholeSecond(r.planned, plan.startS, r.lossNs);
    }
    assert |Names(r.phases)| == |r.phases| == 7;
    assert r.backup.bytes <= MAX_BACKUP_BYTES;
  }

  const SOURCE: seq<Artifact> :=
    [Artifact("database.redb", false, "", 1), Artifact("journal.riffextent", false, "", 1),
     Artifact("format.riffdb", false, "", 1), Artifact(MANIFEST, false, "", 1)]

  /** A receipt with the given planned loss, loss and start of the backup operation; all else fits the check. */
  function Example(planned: nat, loss: nat, operation: nat): Receipt {
    Receipt(planned, 250_000_000_000, Acknowledged(260_000_000_000, 1, 1, ""),
            Backup(BACKUP_NAME, "", "", "", operation, 270_000_000_000, 280_000_000_000, SOURCE, 4, 290_000_000_000),
            loss, loss + RECOVERY_LIMIT, loss + RECOVERY_LIMIT,
            [PhaseDone(TargetSetup, loss), PhaseDone(TargetAdmission, loss), PhaseDone(RestoreDone, loss),
             PhaseDone(Readiness, loss), PhaseDone(OriginalReplay, loss), PhaseDone(StateReconciliation, loss),
             PhaseDone(FirstWrite, loss + 180_000_000_000)])
  }

  lemma {:induction false} SourceInventory()
    ensures InventoryOk(SOURCE, "") && TotalBytes(SOURCE) == 4
  {
    assert SOURCE[0].name == "database.redb" && SOURCE[1].name == "journal.riffextent";
    assert SOURCE[2].name == "format.riffdb" && SOURCE[3].name == MANIFEST;
    assert SOURCE[0].name[0] != SOURCE[2].name[0];
    assert SOURCE[..3][..2] == SOURCE[..2] && SOURCE[..2][..1] == SOURCE[..1] && SOURCE[..1][..0] == [];
    assert TotalBytes(SOURCE[..1]) == TotalBytes([]) + 1;
    assert TotalBytes(SOURCE[..2]) == 2;
    assert TotalBytes(SOURCE[..3]) == 3;
  }

  lemma {:induction false} ExampleSound(planned: nat, loss: nat, operation: nat)
    requires 300_000_000_000 <= planned < 301_000_000_000 && 300_000_000_000 <= loss < 301_000_000_000
    requires 250_000_000_000 <= operation <= 270_000_000_000
    ensures Sound(Example(planned, loss, operation))
  {
    var r := Example(planned, loss, operation);
    SourceInventory();
    assert Names(r.phases) == REPLAY_FIRST;
  }

  /**
   * Two of those facts can fail on a receipt some run hands out: the backup operation may
   * have begun before the acknowledgements were bound, and with a planned loss inside a
   * second the loss may precede its own plan.
   */
  lemma {:induction false} ClockIsWeaker()
    ensures exists calls, now, r :: && HandsOut(calls, now, r) && r.backup.operationStarted < r.acknowledged.boundNs
                                    && r.planned == 300 * SECOND
                                    && !ClockAccepted(r, Plan(300, 180), Action(300, 180, 60))
    ensures exists calls, now, r :: && HandsOut(calls, now, r) && r.lossNs < r.planned
                                    && forall plan, action :: !ClockAccepted(r, plan, action)
  {
    var early := Example(300_000_000_000, 300_000_000_000, 255_000_000_000);
    ExampleSound(300_000_000_000, 300_000_000_000, 255_000_000_000);
    HandedOutIff(early);
    var first := Example(300_500_000_000, 300_100_000_000, 265_000_000_000);
    ExampleSound(300_500_000_000, 300_100_000_000, 265_000_000_000);
    HandedOutIff(first);
  }
}
