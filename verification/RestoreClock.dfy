/**
 * The restore fault's one clock: a visible preparation that ends in a durable backup,
 * the primary loss, and a recovery whose deadline never moves.
 */
module RestoreClock {
  import opened Prelude
  import M = Maintenance

  const MAX_BACKUP_BYTES: int := 32 * 1024 * 1024 * 1024
  const MAX_MANIFEST_BYTES: int := 32 * 1024 * 1024
  const MAX_ARTIFACTS := 4096
  const MAX_COMMANDS := 8_640_000
  const RECOVERY_LIMIT: int := 240_000_000_000
  const PREPARATION_LIMIT: int := 120_000_000_000

  // --- backup inventory ----------------------------------------------------

  /** One backup file; `numberedExtent` says its name is that of a numbered sealed extent. */
  datatype Artifact = Artifact(name: string, numberedExtent: bool, sha256: string, bytes: nat)

  const MANIFEST := "manifest.riffdb"
  const FIXED: set<string> := {"database.redb", "journal.riffextent", "format.riffdb", MANIFEST}

  function TotalBytes(artifacts: seq<Artifact>): nat {
    if |artifacts| == 0 then 0 else TotalBytes(artifacts[..|artifacts| - 1]) + artifacts[|artifacts| - 1].bytes
  }

  predicate ArtifactOk(a: Artifact) {
    (a.name in FIXED || a.numberedExtent) && 0 < a.bytes <= MAX_BACKUP_BYTES
  }

  predicate ManifestOk(a: Artifact, manifest: string) {
    a.name == MANIFEST ==> a.sha256 == manifest && a.bytes <= MAX_MANIFEST_BYTES
  }

  predicate FixedPresent(artifacts: seq<Artifact>) {
    forall n :: n in FIXED ==> exists i :: 0 <= i < |artifacts| && artifacts[i].name == n
  }

  predicate NamesDiffer(artifacts: seq<Artifact>) {
    forall i, j :: 0 <= i < j < |artifacts| ==> artifacts[i].name != artifacts[j].name
  }

  /** Every fixed file once, nothing but fixed files and sealed extents, and a bounded whole. */
  predicate InventoryOk(artifacts: seq<Artifact>, manifest: string) {
    && 4 <= |artifacts| <= MAX_ARTIFACTS
    && FixedPresent(artifacts) && NamesDiffer(artifacts)
    && (forall i :: 0 <= i < |artifacts| ==> ArtifactOk(artifacts[i]) && ManifestOk(artifacts[i], manifest))
    && TotalBytes(artifacts) <= MAX_BACKUP_BYTES
  }

  lemma {:induction false} TotalPrefix(artifacts: seq<Artifact>, n: nat)
    requires n <= |artifacts|
    ensures TotalBytes(artifacts[..n]) <= TotalBytes(artifacts)
    decreases |artifacts|
  {
    if n < |artifacts| {
      TotalPrefix(artifacts[..|artifacts| - 1], n);
      assert artifacts[..|artifacts| - 1][..n] == artifacts[..n];
    } else {
      assert artifacts[..n] == artifacts;
    }
  }

  /** Adds the files up one by one, refusing as soon as the running total is too much. */
  method SumArtifacts(artifacts: seq<Artifact>) returns (total: Option<nat>)
    ensures total.Some? <==>
            (forall i :: 0 <= i < |artifacts| ==> ArtifactOk(artifacts[i]))
            && TotalBytes(artifacts) <= MAX_BACKUP_BYTES
    ensures total.Some? ==> total.value == TotalBytes(artifacts)
  {
    var sum := 0;
    for i := 0 to |artifacts|
      invariant sum == TotalBytes(artifacts[..i]) <= MAX_BACKUP_BYTES
      invariant forall j :: 0 <= j < i ==> ArtifactOk(artifacts[j])
    {
      assert artifacts[..i + 1][..i] == artifacts[..i];
      TotalPrefix(artifacts, i + 1);
      sum := sum + artifacts[i].bytes;
      if !ArtifactOk(artifacts[i]) || sum > MAX_BACKUP_BYTES {
        return None;
      }
    }
    assert artifacts[..|artifacts|] == artifacts;
    return Some(sum);
  }

  /** The inventory is a dictionary, so its names differ. */
  method BindArtifacts(artifacts: seq<Artifact>, manifest: string) returns (size: Option<nat>)
    requires NamesDiffer(artifacts)
    ensures size.Some? <==> InventoryOk(artifacts, manifest)
    ensures size.Some? ==> size.value == TotalBytes(artifacts)
  {
    if !(4 <= |artifacts| <= MAX_ARTIFACTS) || !FixedPresent(artifacts) {
      return None;
    }
    size := SumArtifacts(artifacts);
    if exists i :: 0 <= i < |artifacts| && !ManifestOk(artifacts[i], manifest) {
      size := None;
    }
  }

  // --- clock ---------------------------------------------------------------

  datatype Stage = Idle | Quiescing | Preparing | BackupDurable | Recovering | Complete

  datatype Phase =
    TargetSetup | TargetAdmission | RestoreDone | Readiness | FirstWrite | OriginalReplay | StateReconciliation

  const WRITE_FIRST: seq<Phase> :=
    [TargetSetup, TargetAdmission, RestoreDone, Readiness, FirstWrite, OriginalReplay, StateReconciliation]
  const REPLAY_FIRST: seq<Phase> :=
    [TargetSetup, TargetAdmission, RestoreDone, Readiness, OriginalReplay, StateReconciliation, FirstWrite]

  datatype Acknowledged = Acknowledged(boundNs: nat, commands: nat, frontier: nat, digest: string)

  datatype Backup = Backup(name: string, operation: string, inputHash: string, manifest: string, operationStarted: nat,
                           operationCompleted: nat, operationDeadline: nat, artifacts: seq<Artifact>, bytes: nat,
                           durableNs: nat)

  datatype PhaseDone = PhaseDone(phase: Phase, ns: nat)

  datatype Clock = Clock(planned: nat, stage: Stage, lastNs: Option<nat>, preparationNs: Option<nat>,
                         acknowledged: Option<Acknowledged>, backup: Option<Backup>, lossNs: Option<nat>,
                         phases: seq<PhaseDone>)

  /** What `finish` hands out. */
  datatype Receipt = Receipt(planned: nat, preparationNs: nat, acknowledged: Acknowledged, backup: Backup, lossNs: nat,
                             deadline: nat, completedNs: nat, phases: seq<PhaseDone>)

  predicate ScheduleAdmits(planned: int) {
    RECOVERY_LIMIT <= planned <= MAX_U64 - RECOVERY_LIMIT
  }

  function Fresh(planned: nat): Clock {
    Clock(planned, Idle, None, None, None, None, None, [])
  }

  predicate Ticks(c: Clock, now: int) {
    && U64(now) && c.stage != Complete && Since(c.lastNs) <= now
    && (c.lossNs.Some? ==> now <= c.lossNs.value + RECOVERY_LIMIT)
  }

  function BeginPreparation(c: Clock, now: int): Option<Clock> {
    if Ticks(c, now) && c.stage == Idle && c.planned - PREPARATION_LIMIT <= now < c.planned
    then Some(c.(lastNs := Some(now), preparationNs := Some(now), stage := Quiescing))
    else None
  }

  function BindAcknowledgements(c: Clock, now: int, commands: int, frontier: int, digest: string): Option<Clock> {
    if && Ticks(c, now) && c.stage == Quiescing && now < c.planned
       && 0 < commands <= MAX_COMMANDS && 0 < frontier <= MAX_U64
    then Some(c.(lastNs := Some(now), acknowledged := Some(Acknowledged(now, commands, frontier, digest)),
                 stage := Preparing))
    else None
  }

  predicate DurableOperation(c: Clock, now: int, op: M.State) {
    && c.preparationNs.Some?
    && op.kind == M.Create && op.started && op.complete && !op.failed && op.phase == Some(M.Succeeded)
    && c.preparationNs.value <= op.startedNs <= now && op.deadlineNs <= c.planned
    && op.operation.Some? && op.inputHash.Some?
  }

  function MakeDurable(c: Clock, now: int, op: M.State, manifest: string, artifacts: seq<Artifact>): Option<Clock> {
    if && Ticks(c, now) && c.stage == Preparing && now < c.planned
       && DurableOperation(c, now, op) && InventoryOk(artifacts, manifest)
    then Some(c.(lastNs := Some(now), stage := BackupDurable,
                 backup := Some(Backup(op.name, op.operation.value, op.inputHash.value, manifest, op.startedNs,
                                       op.lastNs, op.deadlineNs, artifacts, TotalBytes(artifacts), now))))
    else None
  }

  function PrimaryLoss(c: Clock, now: int, commands: int, digest: string, manifest: string): Option<Clock> {
    if && Ticks(c, now) && c.stage == BackupDurable && now / SECOND == c.planned / SECOND
       && c.acknowledged.Some? && commands == c.acknowledged.value.commands && digest == c.acknowledged.value.digest
       && c.backup.Some? && manifest == c.backup.value.manifest
       && now + RECOVERY_LIMIT <= MAX_U64
    then Some(c.(lastNs := Some(now), lossNs := Some(now), stage := Recovering))
    else None
  }

  /** An unknown poll consumes the deadline without advancing anything. */
  function Observe(c: Clock, now: int): Option<Clock> {
    if Ticks(c, now) && c.stage == Recovering then Some(c.(lastNs := Some(now))) else None
  }

  function Names(phases: seq<PhaseDone>): (names: seq<Phase>)
    ensures |names| == |phases|
    ensures forall i :: 0 <= i < |phases| ==> names[i] == phases[i].phase
  {
    seq(|phases|, i requires 0 <= i < |phases| => phases[i].phase)
  }

  predicate PhaseAllowed(phases: seq<PhaseDone>, phase: Phase) {
    var candidate := Names(phases) + [phase];
    |phases| < 7 && (candidate <= WRITE_FIRST || candidate <= REPLAY_FIRST)
  }

  function CompletePhase(c: Clock, phase: Phase, now: int): Option<Clock> {
    if Ticks(c, now) && c.stage == Recovering && PhaseAllowed(c.phases, phase)
    then Some(c.(lastNs := Some(now), phases := c.phases + [PhaseDone(phase, now)]))
    else None
  }

  predicate MayFinish(c: Clock, now: int) {
    && Ticks(c, now) && c.stage == Recovering && |c.phases| == 7
    && c.preparationNs.Some? && c.acknowledged.Some? && c.backup.Some? && c.lossNs.Some?
  }

  function Finish(c: Clock, now: int): Option<Clock> {
    if MayFinish(c, now) then Some(c.(lastNs := Some(now), stage := Complete)) else None
  }

  function ReceiptAt(c: Clock, now: nat): Receipt
    requires c.preparationNs.Some? && c.acknowledged.Some? && c.backup.Some? && c.lossNs.Some?
  {
    Receipt(c.planned, c.preparationNs.value, c.acknowledged.value, c.backup.value, c.lossNs.value,
            c.lossNs.value + RECOVERY_LIMIT, now, c.phases)
  }

  datatype Call =
    | CallBegin(now: int)
    | CallBind(now: int, commands: int, frontier: int, digest: string)
    | CallDurable(now: int, op: M.State, manifest: string, artifacts: seq<Artifact>)
    | CallLoss(now: int, commands: int, digest: string, manifest: string)
    | CallObserve(now: int)
    | CallPhase(phase: Phase, now: int)
    | CallFinish(now: int)

  function Step(c: Clock, call: Call): Option<Clock> {
    match call
    case CallBegin(now) => BeginPreparation(c, now)
    case CallBind(now, commands, frontier, digest) => BindAcknowledgements(c, now, commands, frontier, digest)
    case CallDurable(now, op, manifest, artifacts) => MakeDurable(c, now, op, manifest, artifacts)
    case CallLoss(now, commands, digest, manifest) => PrimaryLoss(c, now, commands, digest, manifest)
    case CallObserve(now) => Observe(c, now)
    case CallPhase(phase, now) => CompletePhase(c, phase, now)
    case CallFinish(now) => Finish(c, now)
  }

  function Run(c: Clock, calls: seq<Call>): Option<Clock>
    decreases |calls|
  {
    if |calls| == 0 then Some(c)
    else
      var next := Step(c, calls[0]);
      if next.None? then None else Run(next.value, calls[1..])
  }

  // --- what every unfailed run keeps ---------------------------------------

  function StageRank(stage: Stage): nat {
    match stage
    case Idle => 0
    case Quiescing => 1
    case Preparing => 2
    case BackupDurable => 3
    case Recovering => 4
    case Complete => 5
  }

  ghost predicate PreparationInv(c: Clock) {
    && (c.preparationNs.Some? <==> StageRank(c.stage) >= 1)
    && (c.acknowledged.Some? <==> StageRank(c.stage) >= 2)
    && (c.preparationNs.Some? ==> c.planned - PREPARATION_LIMIT <= c.preparationNs.value < c.planned
                                  && c.preparationNs.value <= Since(c.lastNs))
    && (c.acknowledged.Some? ==> && c.preparationNs.value <= c.acknowledged.value.boundNs < c.planned
                                 && c.acknowledged.value.boundNs <= Since(c.lastNs)
                                 && 0 < c.acknowledged.value.commands <= MAX_COMMANDS
                                 && 0 < c.acknowledged.value.frontier <= MAX_U64)
  }

  ghost predicate BackupInv(c: Clock) {
    && (c.backup.Some? <==> StageRank(c.stage) >= 3)
    && (c.backup.Some? ==>
          var b := c.backup.value;
          && c.acknowledged.Some? && c.acknowledged.value.boundNs <= b.durableNs < c.planned
          && b.durableNs <= Since(c.lastNs)
          && c.preparationNs.Some? && c.preparationNs.value <= b.operationStarted <= b.durableNs
          && b.operationStarted <= b.operationCompleted < b.operationDeadline
          && b.operationDeadline <= Min(c.planned, b.operationStarted + M.LIMIT)
          && InventoryOk(b.artifacts, b.manifest) && b.bytes == TotalBytes(b.artifacts))
  }

  predicate InOrder(phases: seq<PhaseDone>, i: nat, from: nat, to: int)
    requires i < |phases|
  {
    (if i == 0 then from else phases[i - 1].ns) <= phases[i].ns <= to
  }

  predicate Ordered(phases: seq<PhaseDone>, from: nat, to: int) {
    forall i :: 0 <= i < |phases| ==> InOrder(phases, i, from, to)
  }

  ghost predicate RecoveryInv(c: Clock) {
    && (c.lossNs.Some? <==> StageRank(c.stage) >= 4)
    && (c.lossNs.None? ==> c.phases == [])
    && (c.lossNs.Some? ==>
          && c.lossNs.value / SECOND == c.planned / SECOND
          && c.backup.Some? && c.backup.value.durableNs <= c.lossNs.value
          && c.lossNs.value <= Since(c.lastNs) <= c.lossNs.value + RECOVERY_LIMIT
          && c.lossNs.value + RECOVERY_LIMIT <= MAX_U64
          && Ordered(c.phases, c.lossNs.value, Since(c.lastNs)))
    && (Names(c.phases) <= WRITE_FIRST || Names(c.phases) <= REPLAY_FIRST)
    && (c.stage == Complete ==> |c.phases| == 7)
  }

  ghost predicate Inv(c: Clock) {
    && ScheduleAdmits(c.planned) && U64(Since(c.lastNs)) && PreparationInv(c) && BackupInv(c) && RecoveryInv(c)
  }

  /** What a later state may not take back. */
  ghost predicate Keeps(c: Clock, next: Clock) {
    && next.planned == c.planned && StageRank(c.stage) <= StageRank(next.stage) && Since(c.lastNs) <= Since(next.lastNs)
    && (c.preparationNs.Some? ==> next.preparationNs == c.preparationNs)
    && (c.acknowledged.Some? ==> next.acknowledged == c.acknowledged)
    && (c.backup.Some? ==> next.backup == c.backup)
    && (c.lossNs.Some? ==> next.lossNs == c.lossNs)
    && c.phases <= next.phases
  }

  lemma {:induction false} OrderedLater(phases: seq<PhaseDone>, from: nat, to: int, later: int)
    requires Ordered(phases, from, to) && to <= later
    ensures Ordered(phases, from, later)
  {
    forall i | 0 <= i < |phases|
      ensures InOrder(phases, i, from, later)
    {
      assert InOrder(phases, i, from, to);
    }
  }

  lemma {:induction false} PhaseKeeps(c: Clock, phase: Phase, now: int)
    requires Inv(c) && CompletePhase(c, phase, now).Some?
    ensures Inv(CompletePhase(c, phase, now).value)
  {
    var next := CompletePhase(c, phase, now).value;
    assert Names(next.phases) == Names(c.phases) + [phase];
    forall i | 0 <= i < |next.phases|
      ensures InOrder(next.phases, i, c.lossNs.value, now)
    {
      if i < |c.phases| {
        assert InOrder(c.phases, i, c.lossNs.value, Since(c.lastNs));
      } else if i > 0 {
        assert InOrder(c.phases, i - 1, c.lossNs.value, Since(c.lastNs));
      }
    }
  }

  /** The clock is only ever shown operations that their own calls can have produced. */
  ghost predicate RealOperation(call: Call) {
    call.CallDurable? ==> M.Reachable(call.op)
  }

  ghost predicate AllReal(calls: seq<Call>) {
    forall i :: 0 <= i < |calls| ==> RealOperation(calls[i])
  }

  lemma {:induction false} DurableKeeps(c: Clock, now: int, op: M.State, manifest: string, artifacts: seq<Artifact>)
    requires Inv(c) && MakeDurable(c, now, op, manifest, artifacts).Some? && M.Reachable(op)
    ensures Inv(MakeDurable(c, now, op, manifest, artifacts).value)
  {
    M.ReachableInv(op);
  }

  lemma {:induction false} LaterKeeps(c: Clock, next: Clock)
    requires Inv(c) && c.lossNs.Some? && next.lastNs.Some?
             && Since(c.lastNs) <= next.lastNs.value <= c.lossNs.value + RECOVERY_LIMIT
    requires || next == c.(lastNs := next.lastNs)
             || (next == c.(lastNs := next.lastNs, stage := Complete) && |c.phases| == 7)
    ensures Inv(next)
  {
    OrderedLater(c.phases, c.lossNs.value, Since(c.lastNs), next.lastNs.value);
  }

  lemma {:induction false} StepGrows(c: Clock, call: Call)
    requires PreparationInv(c) && BackupInv(c) && RecoveryInv(c) && Step(c, call).Some?
    ensures Keeps(c, Step(c, call).value) && c.stage != Complete
  {
  }

  lemma {:induction false} SourceKeeps(c: Clock, call: Call)
    requires Inv(c) && Step(c, call).Some? && (call.CallBegin? || call.CallBind? || call.CallLoss?)
    ensures Inv(Step(c, call).value)
  {
  }

  lemma {:induction false} StepKeeps(c: Clock, call: Call)
    requires Inv(c) && Step(c, call).Some? && RealOperation(call)
    ensures Inv(Step(c, call).value) && Keeps(c, Step(c, call).value) && c.stage != Complete
  {
    StepGrows(c, call);
    if call.CallPhase? {
      PhaseKeeps(c, call.phase, call.now);
    } else if call.CallDurable? {
      DurableKeeps(c, call.now, call.op, call.manifest, call.artifacts);
    } else if call.CallObserve? || call.CallFinish? {
      LaterKeeps(c, Step(c, call).value);
    } else {
      SourceKeeps(c, call);
    }
  }

  /** One deadline, fixed at the loss; a durable backup before it; phases in order inside it. */
  lemma {:induction false} RunKeeps(c: Clock, calls: seq<Call>)
    requires Inv(c) && Run(c, calls).Some? && AllReal(calls)
    ensures Inv(Run(c, calls).value) && Keeps(c, Run(c, calls).value)
    decreases |calls|
  {
    if calls != [] {
      StepKeeps(c, calls[0]);
      RunKeeps(Step(c, calls[0]).value, calls[1..]);
    }
  }

  /**
   * The backup was durable before the loss and before its plan, the deadline is the loss
   * plus 240 s, and all seven phases lie in one admitted order between them.
   */
  ghost predicate Sound(r: Receipt) {
    && ScheduleAdmits(r.planned)
    && r.planned - PREPARATION_LIMIT <= r.preparationNs <= r.acknowledged.boundNs <= r.backup.durableNs < r.planned
    && 0 < r.acknowledged.commands <= MAX_COMMANDS && 0 < r.acknowledged.frontier <= MAX_U64
    && r.preparationNs <= r.backup.operationStarted <= r.backup.operationCompleted < r.backup.operationDeadline
    && r.backup.operationDeadline <= Min(r.planned, r.backup.operationStarted + M.LIMIT)
    && r.backup.operationStarted <= r.backup.durableNs
    && InventoryOk(r.backup.artifacts, r.backup.manifest) && r.backup.bytes == TotalBytes(r.backup.artifacts)
    && r.lossNs / SECOND == r.planned / SECOND
    && r.backup.durableNs <= r.lossNs <= r.completedNs <= r.deadline == r.lossNs + RECOVERY_LIMIT <= MAX_U64
    && Ordered(r.phases, r.lossNs, r.completedNs)
    && (Names(r.phases) == WRITE_FIRST || Names(r.phases) == REPLAY_FIRST)
  }

  lemma {:induction false} ReceiptIsSound(c: Clock, now: int)
    requires Inv(c) && MayFinish(c, now)
    ensures Sound(ReceiptAt(c, now))
  {
    OrderedLater(c.phases, c.lossNs.value, Since(c.lastNs), now);
  }

  ghost predicate HandsOut(calls: seq<Call>, now: int, r: Receipt) {
    && ScheduleAdmits(r.planned) && AllReal(calls) && Run(Fresh(r.planned), calls).Some?
    && MayFinish(Run(Fresh(r.planned), calls).value, now) && r == ReceiptAt(Run(Fresh(r.planned), calls).value, now)
  }

  /** Every call sequence that finishes hands out a sound receipt. */
  lemma {:induction false} FinishedReceipt(calls: seq<Call>, now: int, r: Receipt)
    requires HandsOut(calls, now, r)
    ensures Sound(r)
  {
    RunKeeps(Fresh(r.planned), calls);
    ReceiptIsSound(Run(Fresh(r.planned), calls).value, now);
  }

  // --- every sound receipt is handed out by some run -----------------------

  lemma {:induction false} RunAppend(c: Clock, before: seq<Call>, after: seq<Call>)
    requires Run(c, before).Some?
    ensures Run(c, before + after) == Run(Run(c, before).value, after)
    decreases |before|
  {
    if before == [] {
      assert before + after == after;
    } else {
      assert (before + after)[1..] == before[1..] + after;
      RunAppend(Step(c, before[0]).value, before[1..], after);
    }
  }

  ghost function PhaseCalls(phases: seq<PhaseDone>): (calls: seq<Call>)
    ensures |calls| == |phases| && forall i :: 0 <= i < |calls| ==> calls[i] == CallPhase(phases[i].phase, phases[i].ns)
  {
    seq(|phases|, i requires 0 <= i < |phases| => CallPhase(phases[i].phase, phases[i].ns))
  }

  lemma {:induction false} PhaseFits(r: Receipt, k: nat)
    requires (Names(r.phases) == WRITE_FIRST || Names(r.phases) == REPLAY_FIRST) && k < 7
    ensures |r.phases| == 7 && PhaseAllowed(r.phases[..k], r.phases[k].phase)
  {
    assert |Names(r.phases)| == 7;
    assert Names(r.phases[..k]) + [r.phases[k].phase] == Names(r.phases)[..k + 1];
  }

  lemma {:induction false} PhaseStep(r: Receipt, c: Clock, k: nat)
    requires Sound(r) && k < 7 && c.stage == Recovering && c.lossNs == Some(r.lossNs) && c.phases == r.phases[..k]
    requires Since(c.lastNs) <= (if k == 0 then r.lossNs else r.phases[k - 1].ns)
    ensures |r.phases| == 7
    ensures Step(c, CallPhase(r.phases[k].phase, r.phases[k].ns))
         == Some(c.(lastNs := Some(r.phases[k].ns), phases := r.phases[..k + 1]))
  {
    PhaseFits(r, k);
    assert InOrder(r.phases, k, r.lossNs, r.completedNs);
    assert r.phases[..k] + [r.phases[k]] == r.phases[..k + 1];
  }

  lemma {:induction false} PhasesRun(r: Receipt, c: Clock, k: nat)
    requires Sound(r) && k <= 7 && c.stage == Recovering && c.lossNs == Some(r.lossNs) && c.phases == r.phases[..k]
    requires Since(c.lastNs) <= (if k == 0 then r.lossNs else r.phases[k - 1].ns)
    ensures var last := Run(c, PhaseCalls(r.phases[k..]));
            last.Some? && last.value.(lastNs := c.lastNs, phases := c.phases) == c && last.value.phases == r.phases
            && Since(last.value.lastNs) <= r.completedNs
    decreases 7 - k
  {
    if k < 7 {
      var calls := PhaseCalls(r.phases[k..]);
      PhaseStep(r, c, k);
      assert calls[0] == CallPhase(r.phases[k].phase, r.phases[k].ns);
      assert calls[1..] == PhaseCalls(r.phases[k + 1..]);
      PhasesRun(r, Step(c, calls[0]).value, k + 1);
    } else {
      assert r.phases[..k] == r.phases;
      if |r.phases| > 0 {
        assert InOrder(r.phases, 6, r.lossNs, r.completedNs);
      }
    }
  }

  ghost function OperationCalls(b: Backup): seq<M.Call> {
    [M.StartCall(b.operationStarted,
                 M.Receipt(M.NewlyAccepted, M.Create, b.name, b.operation, b.inputHash, M.Succeeded, true),
                 b.operationCompleted)]
  }

  /** The operation a receipt names: one mutation, answered as succeeded. */
  ghost function OperationOf(b: Backup): M.State {
    M.Run(M.Initial(M.Create, b.name, b.operationStarted, b.operationDeadline), OperationCalls(b))
  }

  lemma {:induction false} OperationIsReal(b: Backup)
    requires b.operationStarted <= b.operationCompleted < b.operationDeadline <= b.operationStarted + M.LIMIT
    ensures M.Reachable(OperationOf(b))
    ensures var op := OperationOf(b);
            && op.kind == M.Create && op.name == b.name && op.started && op.complete && !op.failed
            && op.phase == Some(M.Succeeded)
            && op.startedNs == b.operationStarted && op.lastNs == b.operationCompleted
            && op.deadlineNs == b.operationDeadline
            && op.operation == Some(b.operation) && op.inputHash == Some(b.inputHash)
  {
    var calls := OperationCalls(b);
    var first := M.Initial(M.Create, b.name, b.operationStarted, b.operationDeadline);
    assert calls[1..] == [];
    assert M.Run(first, calls) == M.Step(first, calls[0]);
  }

  ghost function SourceCalls(r: Receipt): seq<Call> {
    [CallBegin(r.preparationNs),
     CallBind(r.acknowledged.boundNs, r.acknowledged.commands, r.acknowledged.frontier, r.acknowledged.digest),
     CallDurable(r.backup.durableNs, OperationOf(r.backup), r.backup.manifest, r.backup.artifacts),
     CallLoss(r.lossNs, r.acknowledged.commands, r.acknowledged.digest, r.backup.manifest)]
  }

  lemma {:induction false} SourceRun(r: Receipt)
    requires Sound(r)
    ensures Run(Fresh(r.planned), SourceCalls(r))
         == Some(Clock(r.planned, Recovering, Some(r.lossNs), Some(r.preparationNs), Some(r.acknowledged),
                       Some(r.backup),
                       Some(r.lossNs), []))
  {
    OperationIsReal(r.backup);
    var calls := SourceCalls(r);
    var begun := Step(Fresh(r.planned), calls[0]).value;
    var bound := Step(begun, calls[1]).value;
    var durable := Step(bound, calls[2]).value;
    var lost := Step(durable, calls[3]).value;
    assert calls[1..][1..][1..][1..] == [];
    assert Run(lost, calls[1..][1..][1..][1..]) == Some(lost);
    assert Run(durable, calls[1..][1..][1..]) == Some(lost);
    assert Run(bound, calls[1..][1..]) == Some(lost);
    assert Run(begun, calls[1..]) == Some(lost);
  }

  lemma {:induction false} CallsAreReal(r: Receipt)
    requires Sound(r)
    ensures AllReal(SourceCalls(r) + PhaseCalls(r.phases))
  {
    OperationIsReal(r.backup);
  }

  lemma {:induction false} PhasesFinish(r: Receipt, lost: Clock)
    requires Sound(r) && lost == Clock(r.planned, Recovering, Some(r.lossNs), Some(r.preparationNs),
                                       Some(r.acknowledged),
                                       Some(r.backup), Some(r.lossNs), [])
    ensures var last := Run(lost, PhaseCalls(r.phases));
            last.Some? && MayFinish(last.value, r.completedNs) && ReceiptAt(last.value, r.completedNs) == r
  {
    assert |Names(r.phases)| == 7;
    assert r.phases[..0] == [] && r.phases[0..] == r.phases;
    PhasesRun(r, lost, 0);
  }

  lemma {:induction false} SoundHandedOut(r: Receipt)
    requires Sound(r)
    ensures HandsOut(SourceCalls(r) + PhaseCalls(r.phases), r.completedNs, r)
  {
    SourceRun(r);
    PhasesFinish(r, Run(Fresh(r.planned), SourceCalls(r)).value);
    RunAppend(Fresh(r.planned), SourceCalls(r), PhaseCalls(r.phases));
    CallsAreReal(r);
  }

  /** The receipts handed out are exactly the sound ones. */
  lemma {:induction false} HandedOutIff(r: Receipt)
    ensures (exists calls, now :: HandsOut(calls, now, r)) <==> Sound(r)
  {
    forall calls, now | HandsOut(calls, now, r)
      ensures Sound(r)
    {
      FinishedReceipt(calls, now, r);
    }
    if Sound(r) {
      SoundHandedOut(r);
    }
  }

  class RecoveryClock {
    const planned: nat
    var stage: Stage
    var failed: bool
    var lastNs: Option<nat>
    var preparationNs: Option<nat>
    var acknowledged: Option<Acknowledged>
    var backup: Option<Backup>
    var lossNs: Option<nat>
    var phases: seq<PhaseDone>

    function View(): Clock
      reads this
    {
      Clock(planned, stage, lastNs, preparationNs, acknowledged, backup, lossNs, phases)
    }

    constructor (planned: nat)
      requires ScheduleAdmits(planned)
      ensures View() == Fresh(planned) && !failed
    {
      this.planned := planned;
      stage, failed, lastNs, preparationNs, acknowledged := Idle, false, None, None, None;
      backup, lossNs, phases := None, None, [];
    }

    /** Every method below: a refusal fails the clock, and a failed clock refuses. */
    method Begin(now: int) returns (ok: bool)
      modifies this
      ensures old(failed) ==> !ok && failed && View() == old(View())
      ensures !old(failed) ==> ok == BeginPreparation(old(View()), now).Some? && failed == !ok
      ensures ok ==> View() == BeginPreparation(old(View()), now).value
    {
      ok := !failed && Ticks(View(), now) && stage == Idle && planned - PREPARATION_LIMIT <= now < planned;
      failed := !ok;
      if ok {
        lastNs, preparationNs, stage := Some(now), Some(now), Quiescing;
      }
    }

    method Bind(now: int, commands: int, frontier: int, digest: string) returns (ok: bool)
      modifies this
      ensures old(failed) ==> !ok && failed && View() == old(View())
      ensures !old(failed) ==>
                ok == BindAcknowledgements(old(View()), now, commands, frontier, digest).Some? && failed == !ok
      ensures ok ==> View() == BindAcknowledgements(old(View()), now, commands, frontier, digest).value
    {
      ok := && !failed && Ticks(View(), now) && stage == Quiescing && now < planned
            && 0 < commands <= MAX_COMMANDS && 0 < frontier <= MAX_U64;
      failed := !ok;
      if ok {
        acknowledged := Some(Acknowledged(now, commands, frontier, digest));
        lastNs, stage := Some(now), Preparing;
      }
    }

    method Durable(now: int, op: M.State, manifest: string, artifacts: seq<Artifact>) returns (ok: bool)
      requires NamesDiffer(artifacts)
      modifies this
      ensures old(failed) ==> !ok && failed && View() == old(View())
      ensures !old(failed) ==> ok == MakeDurable(old(View()), now, op, manifest, artifacts).Some? && failed == !ok
      ensures ok ==> View() == MakeDurable(old(View()), now, op, manifest, artifacts).value
    {
      var size := BindArtifacts(artifacts, manifest);
      ok := !failed && Ticks(View(), now) && stage == Preparing && now < planned && DurableOperation(View(), now, op)
          && size.Some?;
      failed := !ok;
      if ok {
        backup := Some(Backup(op.name, op.operation.value, op.inputHash.value, manifest, op.startedNs, op.lastNs,
                              op.deadlineNs, artifacts, size.value, now));
        lastNs, stage := Some(now), BackupDurable;
      }
    }

    method Lose(now: int, commands: int, digest: string, manifest: string) returns (ok: bool)
      modifies this
      ensures old(failed) ==> !ok && failed && View() == old(View())
      ensures !old(failed) ==> ok == PrimaryLoss(old(View()), now, commands, digest, manifest).Some? && failed == !ok
      ensures ok ==> View() == PrimaryLoss(old(View()), now, commands, digest, manifest).value
    {
      ok := && !failed && Ticks(View(), now) && stage == BackupDurable && now / SECOND == planned / SECOND
            && acknowledged.Some? && commands == acknowledged.value.commands && digest == acknowledged.value.digest
            && backup.Some? && manifest == backup.value.manifest && now + RECOVERY_LIMIT <= MAX_U64;
      failed := !ok;
      if ok {
        lastNs, lossNs, stage := Some(now), Some(now), Recovering;
      }
    }

    method Watch(now: int) returns (ok: bool, left: int)
      modifies this
      ensures old(failed) ==> !ok && failed && View() == old(View())
      ensures !old(failed) ==> ok == Observe(old(View()), now).Some? && failed == !ok
      ensures ok ==> View() == Observe(old(View()), now).value
      ensures ok && lossNs.Some? ==> left == lossNs.value + RECOVERY_LIMIT - now
    {
      ok := !failed && Ticks(View(), now) && stage == Recovering;
      failed, left := !ok, 0;
      if ok {
        lastNs := Some(now);
        left := if lossNs.Some? then lossNs.value + RECOVERY_LIMIT - now else 0;
      }
    }

    method Advance(phase: Phase, now: int) returns (ok: bool)
      modifies this
      ensures old(failed) ==> !ok && failed && View() == old(View())
      ensures !old(failed) ==> ok == CompletePhase(old(View()), phase, now).Some? && failed == !ok
      ensures ok ==> View() == CompletePhase(old(View()), phase, now).value
    {
      ok := !failed && Ticks(View(), now) && stage == Recovering && PhaseAllowed(phases, phase);
      failed := !ok;
      if ok {
        lastNs, phases := Some(now), phases + [PhaseDone(phase, now)];
      }
    }

    method Conclude(now: int) returns (receipt: Option<Receipt>)
      modifies this
      ensures old(failed) ==> receipt.None? && failed && View() == old(View())
      ensures !old(failed) ==> receipt.Some? == Finish(old(View()), now).Some? && failed == receipt.None?
      ensures receipt.Some? ==> View() == Finish(old(View()), now).value && receipt == Some(ReceiptAt(old(View()), now))
    {
      receipt := None;
      if !failed && MayFinish(View(), now) {
        receipt := Some(ReceiptAt(View(), now));
        lastNs, stage := Some(now), Complete;
      } else {
        failed := true;
      }
    }
  }
}
