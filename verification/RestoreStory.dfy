/**
 * Which call sequences the restore clock comes through unfailed, said without its state: the
 * fixed order of its calls, the instants they may have, and what each must repeat of the others.
 */
module RestoreStory {
  import opened Prelude
  import opened RestoreClock
  import M = Maintenance

  /** The phases completed by these calls, in order. */
  ghost function PhasesOf(calls: seq<Call>): seq<PhaseDone> {
    if |calls| == 0 then []
    else
      var before, last := PhasesOf(calls[..|calls| - 1]), calls[|calls| - 1];
      if last.CallPhase? && last.now >= 0 then before + [PhaseDone(last.phase, last.now)] else before
  }

  ghost predicate Ordered(phases: seq<PhaseDone>) {
    Names(phases) <= WRITE_FIRST || Names(phases) <= REPLAY_FIRST
  }

  /** Never back, and after the loss within the 240 s it leaves. */
  ghost predicate OnTime(calls: seq<Call>, i: int)
    requires 0 <= i < |calls|
  {
    && (if i == 0 then 0 else calls[i - 1].now) <= calls[i].now <= MAX_U64
    && (i > 3 ==> calls[i].now <= calls[3].now + 240_000_000_000)
  }

  /** The backup's operation was begun in the preparation, for the time before the planned loss, and succeeded. */
  ghost predicate OperationDone(op: M.State, begun: int, now: int, planned: nat) {
    && op.kind == M.Create && op.started && op.complete && !op.failed && op.phase == Some(M.Succeeded)
    && op.operation.Some? && op.inputHash.Some? && begun <= op.startedNs <= now && op.deadlineNs <= planned
  }

  /** What the `i`th call must be. */
  ghost predicate CallFits(planned: nat, calls: seq<Call>, i: int)
    requires 0 <= i < |calls|
  {
    var call := calls[i];
    && OnTime(calls, i)
    && (i < 3 ==> call.now < planned)
    && (i == 0 ==> call.CallBegin? && planned - 120_000_000_000 <= call.now)
    && (i == 1 ==> call.CallBind? && 0 < call.commands <= 8_640_000 && 0 < call.frontier <= MAX_U64)
    && (i == 2 ==> && call.CallDurable? && OperationDone(call.op, calls[0].now, call.now, planned)
                   && InventoryOk(call.artifacts, call.manifest))
    && (i == 3 ==> && call.CallLoss? && call.now / SECOND == planned / SECOND
                   && call.now + 240_000_000_000 <= MAX_U64
                   && calls[1].CallBind? && call.commands == calls[1].commands && call.digest == calls[1].digest
                   && calls[2].CallDurable? && call.manifest == calls[2].manifest)
    && (i > 3 ==> && (call.CallObserve? || call.CallPhase? || call.CallFinish?) && !calls[i - 1].CallFinish?
                  && (call.CallPhase? ==> Ordered(PhasesOf(calls[..i + 1])))
                  && (call.CallFinish? ==> |PhasesOf(calls[..i])| == 7))
  }

  ghost predicate Story(planned: nat, calls: seq<Call>) {
    forall i :: 0 <= i < |calls| ==> CallFits(planned, calls, i)
  }

  // --- what the clock then holds -------------------------------------------

  function StageAfter(n: nat, finished: bool): Stage {
    if finished then Complete
    else if n == 0 then Idle
    else if n == 1 then Quiescing
    else if n == 2 then Preparing
    else if n == 3 then BackupDurable
    else Recovering
  }

  ghost predicate BackupOf(b: Backup, call: Call)
    requires call.CallDurable?
  {
    && b.name == call.op.name && call.op.operation == Some(b.operation) && call.op.inputHash == Some(b.inputHash)
    && b.manifest == call.manifest && b.artifacts == call.artifacts && b.bytes == TotalBytes(call.artifacts)
    && b.operationStarted == call.op.startedNs && b.operationCompleted == call.op.lastNs
    && b.operationDeadline == call.op.deadlineNs && b.durableNs == call.now
  }

  /** Every field is what the call that set it said. */
  ghost predicate Holds(c: Clock, planned: nat, calls: seq<Call>) {
    var n := |calls|;
    && c.planned == planned && c.stage == StageAfter(n, n > 0 && calls[n - 1].CallFinish?)
    && (c.lastNs.Some? <==> n > 0) && (n > 0 ==> c.lastNs.value == calls[n - 1].now)
    && (c.preparationNs.Some? <==> n > 0) && (n > 0 ==> c.preparationNs.value == calls[0].now)
    && (c.acknowledged.Some? <==> n > 1)
    && (n > 1 ==> && calls[1].CallBind?
                  && var a := c.acknowledged.value;
                  && a.boundNs == calls[1].now && a.commands == calls[1].commands
                  && a.frontier == calls[1].frontier && a.digest == calls[1].digest)
    && (c.backup.Some? <==> n > 2) && (n > 2 ==> calls[2].CallDurable? && BackupOf(c.backup.value, calls[2]))
    && (c.lossNs.Some? <==> n > 3) && (n > 3 ==> c.lossNs.value == calls[3].now)
    && c.phases == PhasesOf(calls)
  }

  lemma {:induction false} PhasesOn(calls: seq<Call>, call: Call)
    ensures PhasesOf(calls + [call])
         == if call.CallPhase? && call.now >= 0 then PhasesOf(calls) + [PhaseDone(call.phase, call.now)]
            else PhasesOf(calls)
  {
    assert (calls + [call])[..|calls|] == calls;
  }

  lemma {:induction false} FewPhases(phases: seq<PhaseDone>, phase: Phase, now: nat)
    ensures PhaseAllowed(phases, phase) <==> Ordered(phases + [PhaseDone(phase, now)])
  {
    assert Names(phases + [PhaseDone(phase, now)]) == Names(phases) + [phase];
  }

  lemma {:induction false} StepFits(c: Clock, call: Call, planned: nat, calls: seq<Call>)
    requires Holds(c, planned, calls) && (|calls| > 0 ==> CallFits(planned, calls, |calls| - 1))
    ensures Step(c, call).Some? <==> CallFits(planned, calls + [call], |calls|)
  {
    var more := calls + [call];
    PhasesOn(calls, call);
    assert more[..|calls|] == calls && more[..|calls| + 1] == more;
    if call.CallPhase? && call.now >= 0 {
      FewPhases(c.phases, call.phase, call.now);
    }
  }

  lemma {:induction false} StepHolds(c: Clock, call: Call, planned: nat, calls: seq<Call>)
    requires Holds(c, planned, calls) && Step(c, call).Some?
    ensures Holds(Step(c, call).value, planned, calls + [call])
  {
    PhasesOn(calls, call);
  }

  lemma {:induction false} RunOn(c: Clock, calls: seq<Call>, call: Call)
    ensures Run(c, calls + [call]) == if Run(c, calls).None? then None else Step(Run(c, calls).value, call)
    decreases |calls|
  {
    var more := calls + [call];
    if |calls| == 0 {
      assert more[0] == call && |more[1..]| == 0;
    } else {
      assert more[0] == calls[0] && more[1..] == calls[1..] + [call];
      if Step(c, calls[0]).Some? {
        RunOn(Step(c, calls[0]).value, calls[1..], call);
      }
    }
  }

  lemma {:induction false} FitsEarlier(planned: nat, calls: seq<Call>, call: Call, i: nat)
    requires i < |calls|
    ensures CallFits(planned, calls + [call], i) <==> CallFits(planned, calls, i)
  {
    var more := calls + [call];
    assert more[..i] == calls[..i] && more[..i + 1] == calls[..i + 1];
  }

  lemma {:induction false} StoryOn(planned: nat, calls: seq<Call>, call: Call)
    ensures Story(planned, calls + [call]) <==> Story(planned, calls) && CallFits(planned, calls + [call], |calls|)
  {
    var more := calls + [call];
    forall i | 0 <= i < |calls|
      ensures CallFits(planned, more, i) <==> CallFits(planned, calls, i)
    {
      FitsEarlier(planned, calls, call, i);
    }
    if Story(planned, more) {
      forall i | 0 <= i < |calls|
        ensures CallFits(planned, calls, i)
      {
        assert CallFits(planned, more, i);
      }
    }
  }

  /** The clock comes through unfailed exactly on these call sequences, and then holds what they said. */
  lemma {:induction false} UnfailedIff(planned: nat, calls: seq<Call>)
    ensures Run(Fresh(planned), calls).Some? <==> Story(planned, calls)
    ensures Run(Fresh(planned), calls).Some? ==> Holds(Run(Fresh(planned), calls).value, planned, calls)
    decreases |calls|
  {
    if |calls| > 0 {
      var before, last := calls[..|calls| - 1], calls[|calls| - 1];
      assert calls == before + [last];
      RunOn(Fresh(planned), before, last);
      UnfailedIff(planned, before);
      StoryOn(planned, before, last);
      if Run(Fresh(planned), before).Some? {
        var c := Run(Fresh(planned), before).value;
        StepFits(c, last, planned, before);
        if Step(c, last).Some? {
          StepHolds(c, last, planned, before);
        }
      }
    }
  }

  /** The receipt a finished clock hands out repeats its calls. */
  lemma {:induction false} ReceiptTold(planned: nat, calls: seq<Call>, now: nat)
    requires Run(Fresh(planned), calls).Some? && MayFinish(Run(Fresh(planned), calls).value, now)
    ensures var r := ReceiptAt(Run(Fresh(planned), calls).value, now);
            && |calls| > 3 && calls[1].CallBind? && calls[2].CallDurable?
            && r.planned == planned && r.preparationNs == calls[0].now && r.acknowledged.boundNs == calls[1].now
            && r.acknowledged.commands == calls[1].commands && r.acknowledged.frontier == calls[1].frontier
            && r.acknowledged.digest == calls[1].digest && BackupOf(r.backup, calls[2])
            && r.lossNs == calls[3].now && r.deadline == calls[3].now + 240_000_000_000 && r.completedNs == now
            && r.phases == PhasesOf(calls)
  {
    UnfailedIff(planned, calls);
  }
}
