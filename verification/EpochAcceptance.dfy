/**
 * Producer against checker: what the three offline checks make of the streams any
 * unfailed, finished run leaves behind.
 */
module EpochAcceptance {
  import opened Prelude
  import opened Windows
  import opened LogTail
  import opened NativeSampler
  import opened EpochModel
  import opened EpochHistory
  import opened EpochInvariant
  import opened EpochCheckers

  // --- what finishing a run establishes -----------------------------------

  ghost predicate Finished(s: State) {
    && s.complete && LogCurrent(s) && |s.native| > s.startedNative
    && forall c: Component :: CollectorFinishes(c, s.samples.Of(c), s.duration)
  }

  lemma {:induction false} PollKeeps(s: State, t: int, retired: Option<Kind>, r: Roster, file: LogFile)
    requires PollLog(s, t, retired, r, file).Some?
    ensures var next := PollLog(s, t, retired, r, file).value.state;
            next.complete == s.complete && s.output <= next.output && next.duration == s.duration
  {
    var scan := ScanFrom(file.content, s.log.offset, {}, 0);
    var ticked := s.(lastNs := Some(t), log := s.log.(observed := |file.content|));
    LinesTouchOnlySamples(ticked, scan.lines, file, t);
  }

  /** Rows are never taken back, and only `finish` completes a run, after which nothing is accepted. */
  lemma {:induction false} StepKeeps(s: State, call: Call)
    requires Step(s, call).Some?
    ensures !s.complete && s.output <= Step(s, call).value.output && Step(s, call).value.duration == s.duration
    ensures Step(s, call).value.complete ==> Finished(Step(s, call).value)
  {
    match call
    case CallPoll(t, retired, r, file) => PollKeeps(s, t, retired, r, file);
    case CallGaps(t, r, file) =>
      if s.log.enabled && s.log.open && (s.lastNs.None? || t > s.lastNs.value) {
        PollKeeps(s, t, None, r, file);
      }
    case _ =>
  }

  lemma {:induction false} RunKeeps(s: State, calls: seq<Call>)
    requires Run(s, calls).Some? && (s.complete ==> Finished(s))
    ensures var end := Run(s, calls).value;
            s.output <= end.output && end.duration == s.duration && (end.complete ==> Finished(end))
    decreases |calls|
  {
    if calls != [] {
      StepKeeps(s, calls[0]);
      RunKeeps(Step(s, calls[0]).value, calls[1..]);
    }
  }

  // --- the planned epochs --------------------------------------------------

  ghost predicate Planned(epochs: seq<EpochRow>) {
    |epochs| == |KINDS| && forall e :: 0 <= e < |epochs| ==> epochs[e].Transition? && epochs[e].kind == KINDS[e]
  }

  /** Owner counts, release and incarnation follow from the kinds alone. */
  lemma {:induction false} PlannedOwners(epochs: seq<EpochRow>, duration: nat, e: nat)
    requires EpochsOk(epochs, duration) && Planned(epochs) && e < |epochs|
    requires epochs[0].server == 1 && epochs[0].sampler == 1
    ensures epochs[e].server == Max(1, e) && epochs[e].sampler == e + 1
    ensures epochs[e].version == (if e == 0 then 1 else 2) && epochs[e].incarnation == (if e == 4 then 2 else 1)
    decreases e
  {
    if e > 0 {
      PlannedOwners(epochs, duration, e - 1);
      assert EpochStepOk(epochs[e - 1], epochs[e]);
    }
  }

  lemma {:induction false} EpochsPrefix(output: seq<EpochRow>, n: nat)
    requires n <= |output|
    ensures Epochs(output[..n]) <= Epochs(output)
    decreases |output|
  {
    if n < |output| {
      EpochsPrefix(output[..|output| - 1], n);
      assert output[..|output| - 1][..n] == output[..n];
    } else {
      assert output[..n] == output;
    }
  }

  // --- bounds --------------------------------------------------------------

  lemma {:induction false} NativeEpochOf(epochs: seq<EpochRow>, duration: nat, n: nat, i: nat) returns (e: nat)
    requires EpochsOk(epochs, duration) && i < n
    ensures InNativeEpoch(epochs, n, e, i)
  {
    e := |epochs| - 1;
    while i < epochs[e].native
      invariant e < |epochs| && (e + 1 < |epochs| ==> i < epochs[e + 1].native)
    {
      e := e - 1;
    }
  }

  lemma {:induction false} AttemptsAreThree(rows: seq<NativeRow>, n: nat)
    requires n <= |rows| && forall i :: 0 <= i < n ==> rows[i].reading.attempts == 3
    ensures SumAttempts(rows[..n]) == 3 * n
  {
    if n > 0 {
      AttemptsAreThree(rows, n - 1);
      assert rows[..n][..n - 1] == rows[..n - 1];
    }
  }

  lemma {:induction false} PeakBounded(rows: seq<Row>, n: nat)
    requires n <= |rows| && forall i :: 0 <= i < n ==> rows[i].reading.charged <= PROVIDER_LIMIT
    ensures PeakOf(rows[..n]) <= PROVIDER_LIMIT
  {
    if n > 0 {
      PeakBounded(rows, n - 1);
      assert rows[..n][..n - 1] == rows[..n - 1];
    }
  }

  lemma {:induction false} NativeAttempts(s: State)
    requires OwnersInv(s) && NativeInv(s)
    ensures forall i :: 0 <= i < |s.native| ==> s.native[i].reading.attempts == 3
  {
    forall i | 0 <= i < |s.native|
      ensures s.native[i].reading.attempts == 3
    {
      var e := NativeEpochOf(Epochs(s.output), s.duration, |s.native|, i);
      assert NativeInEpoch(s.native[i], Epochs(s.output), e, i, s.duration);
    }
  }

  lemma {:induction false} ProviderCharges(s: State)
    requires OwnersInv(s) && ComponentInv(s, Provider)
    ensures forall i ::
              0 <= i < |s.samples.Of(Provider).rows|
              ==> s.samples.Of(Provider).rows[i].reading.charged <= PROVIDER_LIMIT
  {
    var rows := s.samples.Of(Provider).rows;
    forall i | 0 <= i < |rows|
      ensures rows[i].reading.charged <= PROVIDER_LIMIT
    {
      var e := EpochOf(Epochs(s.output), Provider, |rows|, i, s.duration);
      assert RowInEpoch(Provider, rows[i], Epochs(s.output), e, s.duration);
    }
  }

  /** Every number a transition row carries fits, because the streams themselves are bounded. */
  lemma {:induction false} TransitionNumbers(s: State, e: nat)
    requires Inv(s) && e < |Epochs(s.output)|
    ensures var row := Epochs(s.output)[e];
            && row.native <= MAX_NATIVE_ROWS && row.attempts == 3 * row.native && row.peak <= PROVIDER_LIMIT
            && forall c: Component :: row.samples.Of(c) <= MAX_COMPONENT_ROWS
  {
    var epochs := Epochs(s.output);
    var row := epochs[e];
    NativeAttempts(s);
    AttemptsAreThree(s.native, row.native);
    assert ComponentInv(s, Provider);
    ProviderCharges(s);
    PeakBounded(s.samples.Of(Provider).rows, row.samples.Of(Provider));
    forall c: Component
      ensures row.samples.Of(c) <= MAX_COMPONENT_ROWS
    {
      assert ComponentInv(s, c);
      CutsAscend(epochs, c, s.duration, e, s.epoch);
    }
  }

  // --- the twelve-row stream -----------------------------------------------

  /** Where in the planned sequence a stream with `k` transitions and this custody stands. */
  function Position(k: nat, custody: Custody): int {
    if k == 1 && custody.Unlogged? then 1
    else if k == 1 && custody.Bound? then 2
    else if k == 2 && custody.Bound? then 3
    else if k == 2 && custody.Retired? then 4
    else if 3 <= k <= 5 && custody.Replaced? then 3 * k - 4
    else if 3 <= k <= 5 && custody.Bound? then 3 * k - 3
    else if 3 <= k <= 4 && custody.Retired? then 3 * k - 2
    else -1
  }

  /** Streams that can no longer reach a bound fifth epoch. */
  predicate Dead(k: nat, custody: Custody) {
    (custody.Unlogged? && k >= 2) || (custody.Retired? && (k == 1 || k == 5))
  }

  /** Each row is the planned one. */
  ghost predicate OnSequence(output: seq<EpochRow>) {
    && |output| <= |SEQUENCE|
    && forall i :: 0 <= i < |output| ==> TagOf(output[i]) == SEQUENCE[i].0 && output[i].epoch == SEQUENCE[i].1
  }

  ghost predicate OnPlan(output: seq<EpochRow>) {
    var k, custody := |Epochs(output)|, CustodyOf(output);
    Dead(k, custody) || (|output| == Position(k, custody) && OnSequence(output))
  }

  /** The only rows that may come next are the planned row, or one that strands the stream. */
  lemma {:induction false} NextOnPlan(k: nat, custody: Custody, row: EpochRow)
    requires 1 <= k <= 5 && NextCustody(custody, row) != Broken && (Dead(k, custody) || 1 <= Position(k, custody) <= 12)
    requires if row.Transition? then k < 5 && row.kind == KINDS[k] && row.epoch == k else row.epoch == k - 1
    ensures var next := if row.Transition? then k + 1 else k;
            var at := Position(k, custody);
            || Dead(next, NextCustody(custody, row))
            || (&& !Dead(k, custody) && at < 12 && Position(next, NextCustody(custody, row)) == at + 1
                && TagOf(row) == SEQUENCE[at].0 && row.epoch == SEQUENCE[at].1)
  {
    assert KINDS[1] == Deploy && KINDS[2] == Restart && KINDS[3] == Kill && KINDS[4] == Restore;
  }

  lemma {:induction false} OnPlanStep(output: seq<EpochRow>, row: EpochRow)
    requires OnPlan(output) && 1 <= |Epochs(output)| <= 5 && NextCustody(CustodyOf(output), row) != Broken
    requires Dead(|Epochs(output)|, CustodyOf(output)) || 1 <= |output|
    requires var k := |Epochs(output)|;
             if row.Transition? then k < 5 && row.kind == KINDS[k] && row.epoch == k else row.epoch == k - 1
    ensures OnPlan(output + [row])
  {
    EpochsAppend(output, row);
    assert (output + [row])[..|output|] == output;
    NextOnPlan(|Epochs(output)|, CustodyOf(output), row);
  }

  /** The last row of an initial part of the stream, after the rows before it. */
  lemma {:induction false} RowOnPlan(output: seq<EpochRow>, duration: nat, part: seq<EpochRow>, prefix: seq<EpochRow>,
                                     row: EpochRow)
    requires StreamOk(output) && EpochsOk(Epochs(output), duration) && Planned(Epochs(output))
    requires part <= output && part == prefix + [row]
    ensures |Epochs(prefix)| <= 5 && NextCustody(CustodyOf(prefix), row) != Broken && RowFollows(prefix, row)
    ensures row.Transition? ==> && |Epochs(prefix)| < 5 && row.kind == KINDS[|Epochs(prefix)|]
                                && row.epoch == |Epochs(prefix)|
  {
    assert prefix == output[..|prefix|] && row == output[|prefix|] && part == output[..|part|];
    EpochsAppend(prefix, row);
    EpochsPrefix(output, |prefix|);
    EpochsPrefix(output, |part|);
    if row.Transition? {
      assert Epochs(output)[|Epochs(prefix)|] == row && EpochRowOk(row, |Epochs(prefix)|, duration);
    }
  }

  lemma {:induction false} FirstOnPlan(output: seq<EpochRow>, prefix: seq<EpochRow>, row: EpochRow)
    requires |prefix| == 0 && output == prefix + [row] && row.Transition? && row.kind == Initial && row.epoch == 0
    ensures OnPlan(output) && |Epochs(output)| == 1
  {
    EpochsAppend(prefix, row);
    assert output[..0] == prefix;
  }

  lemma {:induction false} PartOnPlan(output: seq<EpochRow>, duration: nat, part: seq<EpochRow>)
    requires StreamOk(output) && EpochsOk(Epochs(output), duration) && Planned(Epochs(output))
    requires part <= output && |part| > 0
    ensures OnPlan(part) && |Epochs(part)| > 0
    decreases |part|
  {
    var prefix, row := part[..|part| - 1], part[|part| - 1];
    assert part == prefix + [row];
    RowOnPlan(output, duration, part, prefix, row);
    if |prefix| == 0 {
      FirstOnPlan(part, prefix, row);
    } else {
      PartOnPlan(output, duration, prefix);
      OnPlanStep(prefix, row);
      EpochsAppend(prefix, row);
    }
  }

  /** A bound log's exclusion is the one its retirement is held to. */
  lemma {:induction false} ExclusionIsCustody(output: seq<EpochRow>)
    requires CustodyOf(output).Bound?
    ensures LastExcluded(output) == CustodyOf(output).excluded
  {
    if output != [] && !output[|output| - 1].BoundLog? {
      ExclusionIsCustody(output[..|output| - 1]);
    }
  }

  lemma {:induction false} RetiredPrefix(output: seq<EpochRow>, n: nat)
    requires n <= |output|
    ensures RetiredBytes(output[..n]) <= RetiredBytes(output)
    decreases |output|
  {
    if n < |output| {
      RetiredPrefix(output[..|output| - 1], n);
      assert output[..|output| - 1][..n] == output[..n];
    } else {
      assert output[..n] == output;
    }
  }

  lemma {:induction false} RetirementBeforeKill(output: seq<EpochRow>, i: nat)
    requires StreamOk(output) && i + 1 < |output| && output[i].RetiredLog? && output[i + 1].Transition?
    ensures output[i].partialBytes != 0 ==> output[i + 1].kind == Kill
  {
    assert RowFollows(output[..i], output[i]) && RowFollows(output[..i + 1], output[i + 1]);
    assert output[..i + 1][..i] == output[..i];
  }

  /** A row is the next transition, or names the transition that opened its epoch. */
  lemma {:induction false} RowEpoch(output: seq<EpochRow>, duration: nat, i: nat)
    requires StreamOk(output) && EpochsOk(Epochs(output), duration) && i < |output|
    ensures var row, epochs := output[i], Epochs(output);
            && row.epoch < |epochs|
            && (if row.Transition? then epochs[row.epoch] == row
                else row.server == epochs[row.epoch].server && row.sampler == epochs[row.epoch].sampler)
  {
    var row := output[i];
    assert RowFollows(output[..i], row);
    EpochsPrefix(output, i);
    EpochsPrefix(output, i + 1);
    assert output[..i + 1] == output[..i] + [row];
    EpochsAppend(output[..i], row);
    if row.Transition? {
      assert Epochs(output)[|Epochs(output[..i])|] == row;
      assert EpochRowOk(row, |Epochs(output[..i])|, duration);
    }
  }

  lemma {:induction false} BoundAt(output: seq<EpochRow>, i: nat)
    requires StreamOk(output) && i < |output| && output[i].BoundLog?
    ensures output[i].excluded <= MAX_LOG_BYTES && (output[i].epoch == 0 || output[i].excluded == 0)
  {
    assert RowFollows(output[..i], output[i]);
  }

  lemma {:induction false} RetiredAt(output: seq<EpochRow>, i: nat)
    requires StreamOk(output) && i < |output| && output[i].RetiredLog? && RetiredBytes(output) <= MAX_LOG_BYTES
    ensures var row := output[i];
            && LastExcluded(output[..i]) <= row.bytes && RetiredBytes(output[..i + 1]) <= MAX_LOG_BYTES
            && row.bytes <= MAX_LOG_BYTES && row.partialBytes <= Min(MAX_LINE, row.bytes)
  {
    assert RowFollows(output[..i], output[i]);
    ExclusionIsCustody(output[..i]);
    RetiredPrefix(output, i + 1);
    assert output[..i + 1][..i] == output[..i];
  }

  lemma {:induction false} RowOwners(s: State, i: nat)
    requires Inv(s) && Planned(Epochs(s.output)) && i < |s.output|
    requires Epochs(s.output)[0].server == 1 && Epochs(s.output)[0].sampler == 1
    ensures var row := s.output[i];
            row.server == Max(1, row.epoch) && row.sampler == row.epoch + 1 && Numbers(row)
  {
    var row := s.output[i];
    RowEpoch(s.output, s.duration, i);
    PlannedOwners(Epochs(s.output), s.duration, row.epoch);
    assert U64(row.ns) by {
      assert RowFollows(s.output[..i], row);
    }
    if row.Transition? {
      TransitionNumbers(s, row.epoch);
    } else if row.RetiredLog? {
      RetiredAt(s.output, i);
    } else {
      BoundAt(s.output, i);
    }
  }

  lemma {:induction false} PartialOnlyOnKill(output: seq<EpochRow>, i: nat)
    requires StreamOk(output) && i < |output| == |SEQUENCE| && OnSequence(output) && output[i].RetiredLog?
    ensures output[i].epoch == 2 || output[i].partialBytes == 0
  {
    assert TagOf(output[i]) == SEQUENCE[i].0;
    assert i == 3 || i == 6 || i == 9;
    assert TagOf(output[i + 1]) == SEQUENCE[i + 1].0;
    RetirementBeforeKill(output, i);
  }

  lemma {:induction false} RecordOnPlan(s: State, i: nat)
    requires Inv(s) && Planned(Epochs(s.output)) && i < |s.output| == |SEQUENCE| && OnSequence(s.output)
    requires Epochs(s.output)[0].server == 1 && Epochs(s.output)[0].sampler == 1
    ensures RecordAccepted(s.output, i)
  {
    var output, row := s.output, s.output[i];
    RowOwners(s, i);
    if i > 0 {
      assert RowFollows(output[..i], row) && output[..i][i - 1] == output[i - 1];
    }
    if row.BoundLog? {
      BoundAt(output, i);
    } else if row.RetiredLog? {
      RetiredAt(output, i);
      PartialOnlyOnKill(output, i);
    }
  }

  /**
   * Every unfailed run of deploy, graceful restart, kill and restore that bound its log
   * and still holds it at the end leaves a twelve-row stream the first checker accepts.
   */
  lemma {:induction false} StreamAccepted(s: State)
    requires Inv(s) && Planned(Epochs(s.output)) && s.log.enabled && s.log.open
    requires Epochs(s.output)[0].server == 1 && Epochs(s.output)[0].sampler == 1
    ensures TransitionsAccepted(s.output)
  {
    PartOnPlan(s.output, s.duration, s.output);
    forall i | 0 <= i < |s.output|
      ensures RecordAccepted(s.output, i)
    {
      RecordOnPlan(s, i);
    }
  }

  // --- provider, native and history cuts ----------------------------------

  ghost predicate StrictTransitions(epochs: seq<EpochRow>) {
    forall e :: 0 < e < |epochs| ==> epochs[e - 1].ns < epochs[e].ns
  }

  /** Every component was observed after the last transition. */
  ghost predicate SeenAgain(s: State) {
    forall c: Component :: |s.samples.Of(c).rows| > s.started.Of(c)
  }

  /** The three facts the checkers demand and the controller does not enforce. */
  ghost predicate CheckerOnlyFacts(s: State) {
    && StrictTransitions(Epochs(s.output))
    && |s.native| <= 4096
    && SeenAgain(s)
  }

  function Streams(samples: Per<Collector>): Per<seq<Row>> {
    Per(samples.provider.rows, samples.source.rows, samples.logical.rows, samples.physical.rows)
  }

  /** Every transition is a row of the stream, so its clock reading fits. */
  lemma {:induction false} RowInOutput(output: seq<EpochRow>, e: nat)
    requires StreamOk(output) && e < |Epochs(output)|
    ensures U64(Epochs(output)[e].ns)
    decreases |output|
  {
    var shorter := output[..|output| - 1];
    assert RowFollows(shorter, output[|output| - 1]);
    if e < |Epochs(shorter)| {
      forall i | 0 <= i < |shorter|
        ensures RowFollows(shorter[..i], shorter[i])
      {
        assert shorter[..i] == output[..i] && RowFollows(output[..i], output[i]);
      }
      RowInOutput(shorter, e);
    }
  }

  lemma {:induction false} EpochAcceptedFrom(s: State, durationS: nat, e: nat)
    requires Inv(s) && Planned(Epochs(s.output)) && e < |KINDS| && s.duration == durationS * SECOND
    requires Epochs(s.output)[0].server == 1 && Epochs(s.output)[0].sampler == 1
    requires StrictTransitions(Epochs(s.output))
    requires |s.native| > s.startedNative && |s.samples.provider.rows| > s.started.provider
    ensures EpochAccepted(Epochs(s.output), e, durationS, |s.native|, |s.samples.provider.rows|)
  {
    var epochs := Epochs(s.output);
    RowInOutput(s.output, e);
    PlannedOwners(epochs, s.duration, e);
    TransitionNumbers(s, e);
    CutsAscend(epochs, Provider, s.duration, e, 4);
    NativeCutsAscend(epochs, s.duration, e, 4);
    if e > 0 {
      assert EpochStepOk(epochs[e - 1], epochs[e]);
    }
  }

  lemma {:induction false} ProviderStream(s: State)
    requires Inv(s) && Finished(s) && |s.samples.provider.rows| > 0
    ensures var rows := s.samples.provider.rows;
            && HistoryOk(Provider, rows, Epochs(s.output), s.duration) && Dense(Instants(rows), GAP)
            && |rows| <= MAX_COMPONENT_ROWS && PeaksOk(rows, Epochs(s.output))
            && Covered(Instants(rows), s.duration / WINDOW) && s.duration - rows[|rows| - 1].ns <= GAP
  {
    assert s.samples.provider.rows == s.samples.Of(Provider).rows;
    assert ComponentInv(s, Provider) && CollectorFinishes(Provider, s.samples.Of(Provider), s.duration);
  }

  lemma {:induction false} ProviderHolds(s: State, durationS: nat)
    requires Inv(s) && Finished(s) && Planned(Epochs(s.output)) && s.duration == durationS * SECOND
             && CampaignDuration(durationS)
    requires Epochs(s.output)[0].server == 1 && Epochs(s.output)[0].sampler == 1
    requires StrictTransitions(Epochs(s.output)) && |s.samples.provider.rows| > s.started.provider
    ensures ProviderAccepted(s.samples.provider.rows, Epochs(s.output), durationS, |s.native|)
  {
    var rows := s.samples.provider.rows;
    ProviderStream(s);
    forall e | 0 <= e < |KINDS|
      ensures EpochAccepted(Epochs(s.output), e, durationS, |s.native|, |rows|)
    {
      EpochAcceptedFrom(s, durationS, e);
    }
    assert s.duration / WINDOW == durationS / 300;
  }

  lemma {:induction false} CutsHold(s: State, durationS: nat)
    requires Inv(s) && Planned(Epochs(s.output)) && s.duration == durationS * SECOND
    requires |s.native| > s.startedNative && CheckerOnlyFacts(s)
    ensures CutsAccepted(s.native, Streams(s.samples), Epochs(s.output), durationS)
  {
    var epochs := Epochs(s.output);
    assert NativeAccepted(s.native, epochs, durationS) by {
      forall e, i | InNativeEpoch(epochs, |s.native|, e, i)
        ensures NativeCut(s.native[i], epochs, e, i, s.duration)
      {
        assert NativeInEpoch(s.native[i], epochs, e, i, s.duration);
      }
    }
    forall c: Component | c != Provider
      ensures HistoryAccepted(c, Streams(s.samples).Of(c), epochs, durationS)
    {
      assert ComponentInv(s, c) && |s.samples.Of(c).rows| > s.started.Of(c);
    }
  }

  lemma {:induction false} AcceptedMeansFacts(s: State, durationS: nat)
    requires OwnersInv(s) && Planned(Epochs(s.output))
    requires ProviderAccepted(s.samples.provider.rows, Epochs(s.output), durationS, |s.native|)
    requires CutsAccepted(s.native, Streams(s.samples), Epochs(s.output), durationS)
    ensures CheckerOnlyFacts(s)
  {
    var epochs := Epochs(s.output);
    var n := |s.samples.provider.rows|;
    forall e | 0 < e < |epochs|
      ensures epochs[e - 1].ns < epochs[e].ns
    {
      assert EpochAccepted(epochs, e, durationS, |s.native|, n);
    }
    assert EpochAccepted(epochs, 4, durationS, |s.native|, n);
    forall c: Component
      ensures |s.samples.Of(c).rows| > s.started.Of(c)
    {
      if c != Provider {
        assert HistoryAccepted(c, Streams(s.samples).Of(c), epochs, durationS);
      }
    }
  }

  /**
   * The remaining two checkers accept a finished run's streams exactly when the
   * transitions fell at distinct instants, at most 4096 native rows were written, and
   * every component was observed again after the last transition.
   */
  lemma {:induction false} CutsAcceptedIff(s: State, durationS: nat)
    requires Inv(s) && Finished(s) && Planned(Epochs(s.output)) && s.duration == durationS * SECOND
             && CampaignDuration(durationS)
    requires Epochs(s.output)[0].server == 1 && Epochs(s.output)[0].sampler == 1
    ensures (&& ProviderAccepted(s.samples.provider.rows, Epochs(s.output), durationS, |s.native|)
             && CutsAccepted(s.native, Streams(s.samples), Epochs(s.output), durationS))
            <==> CheckerOnlyFacts(s)
  {
    var epochs := Epochs(s.output);
    if CheckerOnlyFacts(s) {
      assert |s.samples.Of(Provider).rows| > s.started.Of(Provider);
      ProviderHolds(s, durationS);
      CutsHold(s, durationS);
    } else if ProviderAccepted(s.samples.provider.rows, epochs, durationS, |s.native|)
           && CutsAccepted(s.native, Streams(s.samples), epochs, durationS) {
      AcceptedMeansFacts(s, durationS);
      assert false;
    }
  }

  lemma {:induction false} EpochInstants(epochs: seq<EpochRow>, duration: nat, a: nat, b: nat)
    requires EpochsOk(epochs, duration) && a <= b < |epochs|
    ensures epochs[a].ns <= epochs[b].ns
    decreases b - a
  {
    if a < b {
      assert EpochStepOk(epochs[b - 1], epochs[b]);
      EpochInstants(epochs, duration, a, b - 1);
    }
  }

  lemma {:induction false} LastRowBefore(c: Component, rows: seq<Row>, epochs: seq<EpochRow>, duration: nat)
    requires EpochsOk(epochs, duration) && HistoryOk(c, rows, epochs, duration)
    requires rows != [] && epochs[|epochs| - 1].samples.Of(c) == |rows|
    ensures rows[|rows| - 1].ns <= epochs[|epochs| - 1].ns
  {
    var e := EpochOf(epochs, c, |rows|, |rows| - 1, duration);
    assert RowInEpoch(c, rows[|rows| - 1], epochs, e, duration);
    EpochInstants(epochs, duration, e + 1, |epochs| - 1);
  }

  /** A last transition more than one component gap before the end leaves room for every component. */
  lemma {:induction false} EarlyRestoreObservesAll(s: State, c: Component)
    requires OwnersInv(s) && ComponentInv(s, c) && CollectorFinishes(c, s.samples.Of(c), s.duration)
    requires s.duration > Epochs(s.output)[s.epoch].ns + 275_000_000_000
    ensures |s.samples.Of(c).rows| > s.started.Of(c)
  {
    var rows := s.samples.Of(c).rows;
    assert rows != [] && s.samples.Of(c).lastNs == Some(rows[|rows| - 1].ns);
    if |rows| == s.started.Of(c) {
      LastRowBefore(c, rows, Epochs(s.output), s.duration);
    }
  }

  // --- the whole run -------------------------------------------------------

  lemma {:induction false} FirstEpoch(start: seq<EpochRow>, output: seq<EpochRow>)
    requires |start| == 1 && start[0].Transition? && start <= output
    ensures Epochs(output) != [] && Epochs(output)[0] == start[0]
  {
    assert start[..0] == [] && output[..1] == start && Epochs(start) == [start[0]];
    EpochsPrefix(output, 1);
  }

  /**
   * From a fresh controller with one server and one sampler: any unfailed call sequence
   * that reaches `finish` having bound its log and made the four planned transitions.
   */
  lemma {:induction false} FinishedRunAccepted(durationS: nat, identity: Identity, owners: Owners, calls: seq<Call>)
    requires CampaignDuration(durationS) && owners.serverCount == 1 && owners.samplerCount == 1
    requires var run := Run(InitialState(durationS, identity, owners), calls);
             run.Some? && run.value.complete && run.value.log.enabled && Planned(Epochs(run.value.output))
    ensures var s := Run(InitialState(durationS, identity, owners), calls).value;
            && TransitionsAccepted(s.output)
            && (&& ProviderAccepted(s.samples.provider.rows, Epochs(s.output), durationS, |s.native|)
                && CutsAccepted(s.native, Streams(s.samples), Epochs(s.output), durationS)
                <==> CheckerOnlyFacts(s))
            && (s.duration > Epochs(s.output)[4].ns + 275_000_000_000 && StrictTransitions(Epochs(s.output))
                && |s.native| <= 4096
                ==> CheckerOnlyFacts(s))
  {
    var start := InitialState(durationS, identity, owners);
    var s := Run(start, calls).value;
    InitialInv(durationS, identity, owners);
    RunInv(start, calls);
    RunKeeps(start, calls);
    FirstEpoch(start.output, s.output);
    StreamAccepted(s);
    CutsAcceptedIff(s, durationS);
    if s.duration > Epochs(s.output)[4].ns + 275_000_000_000 {
      forall c: Component
        ensures |s.samples.Of(c).rows| > s.started.Of(c)
      {
        assert ComponentInv(s, c) && CollectorFinishes(c, s.samples.Of(c), s.duration);
        EarlyRestoreObservesAll(s, c);
      }
    }
  }

  // --- cursors over the whole run ------------------------------------------

  /** Every cursor a component reports, by name. */
  datatype Cursor =
    | ProviderAllocations | ProviderOwners | SourceRoot | SourceResume | LogicalRoot | LogicalWatermark | LogicalHead
    | PhysicalRoot | PhysicalWatermark | PhysicalMinimumResume | PhysicalActiveGeneration

  function ComponentOf(cursor: Cursor): Component {
    match cursor
    case ProviderAllocations => Provider
    case ProviderOwners => Provider
    case SourceRoot => Source
    case SourceResume => Source
    case LogicalRoot => Logical
    case LogicalWatermark => Logical
    case LogicalHead => Logical
    case _ => Physical
  }

  function Value(r: Reading, cursor: Cursor): nat {
    match cursor
    case ProviderAllocations => r.releasedAllocations
    case ProviderOwners => r.releasedOwners
    case SourceRoot => r.root
    case SourceResume => r.resume
    case LogicalRoot => r.root
    case LogicalWatermark => r.watermark
    case LogicalHead => r.head
    case PhysicalRoot => r.root
    case PhysicalWatermark => r.watermark
    case PhysicalMinimumResume => r.minimumResume
    case PhysicalActiveGeneration => r.activeGeneration
  }

  /** Lost with the server process: the provider's counts and the roots. */
  predicate OfProcess(cursor: Cursor) {
    || cursor == ProviderAllocations || cursor == ProviderOwners
    || cursor == SourceRoot || cursor == LogicalRoot || cursor == PhysicalRoot
  }

  lemma {:induction false} FieldOf(cursor: Cursor) returns (f: Field)
    ensures f in Continuity(ComponentOf(cursor)) && forall r: Reading :: At(r, f) == Value(r, cursor)
    ensures f in Durable(ComponentOf(cursor)) <==> !OfProcess(cursor)
    ensures f == Head <==> cursor == LogicalHead
  {
    match cursor
    case ProviderAllocations => f := ReleasedAllocations;
    case ProviderOwners => f := ReleasedOwners;
    case SourceResume => f := Resume;
    case LogicalWatermark => f := Watermark;
    case PhysicalWatermark => f := Watermark;
    case LogicalHead => f := Head;
    case PhysicalMinimumResume => f := MinimumResume;
    case PhysicalActiveGeneration => f := ActiveGeneration;
    case _ => f := Root;
  }

  lemma {:induction false} FallIsCut(c: Component, rows: seq<Row>, epochs: seq<EpochRow>, duration: nat, i: nat,
                                     f: Field) returns (e: nat)
    requires EpochsOk(epochs, duration) && HistoryOk(c, rows, epochs, duration)
    requires 0 < i < |rows| && f in Continuity(c) && At(rows[i - 1].reading, f) > At(rows[i].reading, f)
    ensures 0 < e < |epochs| && epochs[e].samples.Of(c) == i
    ensures epochs[e].kind in {Restart, Kill, Restore} && (f == Head ==> c != Logical)
    ensures f in Durable(c) ==> epochs[e].kind == Restore
  {
    e := EpochOf(epochs, c, |rows|, i, duration);
    assert RowStep(c, rows, epochs, e, i);
    assert EpochRowOk(epochs[e], e, duration);
  }

  /**
   * The logical head never falls. The other durable cursors fall only where a restored history
   * begins, and what belongs to the process only where a server was replaced.
   */
  lemma {:induction false} CursorFallIsDeclared(s: State, cursor: Cursor, i: nat) returns (e: nat)
    requires Inv(s) && 0 < i < |s.samples.Of(ComponentOf(cursor)).rows|
    requires var rows := s.samples.Of(ComponentOf(cursor)).rows;
             Value(rows[i - 1].reading, cursor) > Value(rows[i].reading, cursor)
    ensures 0 < e < |Epochs(s.output)| && Epochs(s.output)[e].samples.Of(ComponentOf(cursor)) == i
    ensures Epochs(s.output)[e].kind in {Restart, Kill, Restore} && cursor != LogicalHead
    ensures !OfProcess(cursor) ==> Epochs(s.output)[e].kind == Restore
  {
    var c := ComponentOf(cursor);
    var f := FieldOf(cursor);
    assert ComponentInv(s, c);
    e := FallIsCut(c, s.samples.Of(c).rows, Epochs(s.output), s.duration, i, f);
  }

  lemma {:induction false} DenseRows(rows: seq<Row>, gap: int, i: nat)
    requires Dense(Instants(rows), gap) && i < |rows|
    ensures rows[i].ns - (if i == 0 then 0 else rows[i - 1].ns) <= gap
  {
    assert Instants(rows)[i] == rows[i].ns && (i > 0 ==> Instants(rows)[i - 1] == rows[i - 1].ns);
  }

  lemma {:induction false} HeardLast(s: State, c: Component)
    requires Inv(s) && |s.samples.Of(c).rows| > 0
    ensures var rows := s.samples.Of(c).rows;
            s.samples.Of(c).lastNs == Some(rows[|rows| - 1].ns) && Dense(Instants(rows), GapOf(c))
  {
    assert ComponentInv(s, c);
  }

  /** No component is silent for longer than its gap, from the beginning on, and to the end once finished. */
  lemma {:induction false} SilenceBounded(s: State, c: Component, i: nat)
    requires Inv(s) && i < |s.samples.Of(c).rows|
    ensures var rows, gap := s.samples.Of(c).rows, if c == Provider then 255_000_000_000 else 275_000_000_000;
            && rows[i].ns - (if i == 0 then 0 else rows[i - 1].ns) <= gap
            && (Finished(s) ==> s.duration - rows[|rows| - 1].ns <= gap)
  {
    HeardLast(s, c);
    DenseRows(s.samples.Of(c).rows, GapOf(c), i);
    if Finished(s) {
      assert CollectorFinishes(c, s.samples.Of(c), s.duration);
    }
  }

  // --- the records of a poll become rows, once and in order ----------------

  /** The reading of one line, if its bytes make it a record of component `c`. */
  function ReadingOf(line: Bytes, parsed: map<Bytes, Parsed>, c: Component): seq<Reading> {
    if RecordOf(line, c) && line in parsed && parsed[line].Sample? then [parsed[line].reading] else []
  }

  /** The readings among these lines that belong to component `c`. */
  function Readings(lines: seq<Bytes>, parsed: map<Bytes, Parsed>, c: Component): seq<Reading> {
    if |lines| == 0 then [] else ReadingOf(lines[0], parsed, c) + Readings(lines[1..], parsed, c)
  }

  lemma {:induction false} ReadingsAppend(a: seq<Bytes>, b: seq<Bytes>, parsed: map<Bytes, Parsed>, c: Component)
    ensures Readings(a + b, parsed, c) == Readings(a, parsed, c) + Readings(b, parsed, c)
  {
    if a == [] {
      assert a + b == b;
    } else {
      ReadingsAppend(a[1..], b, parsed, c);
      assert (a + b)[1..] == a[1..] + b && (a + b)[0] == a[0];
      var head, middle, tail := ReadingOf(a[0], parsed, c), Readings(a[1..], parsed, c), Readings(b, parsed, c);
      assert (head + middle) + tail == head + (middle + tail);
    }
  }

  function RowReadings(rows: seq<Row>): (r: seq<Reading>)
    ensures |r| == |rows|
    ensures forall i :: 0 <= i < |rows| ==> r[i] == rows[i].reading
  {
    seq(|rows|, i requires 0 <= i < |rows| => rows[i].reading)
  }

  lemma {:induction false} LineBecomesRow(s: State, next: State, line: Bytes, file: LogFile, t: nat, c: Component)
    requires t < s.duration
    requires if Family(line).None? then next == s
             else ObserveComponent(s, Family(line).value, ParsedLine(file, line), t) == Some(next)
    ensures next.duration == s.duration
    ensures RowReadings(next.samples.Of(c).rows) == RowReadings(s.samples.Of(c).rows) + ReadingOf(line, file.parsed, c)
  {
    FamilyIff(line, c);
  }

  /**
   * Before the end of the campaign, a poll's lines become exactly the rows of their
   * readings: none dropped, none twice, in log order, for every component at once.
   */
  lemma {:induction false} LinesBecomeRows(s: State, lines: seq<Bytes>, file: LogFile, t: nat, c: Component)
    requires t < s.duration && ObserveLines(s, lines, file, t).Some?
    ensures var next := ObserveLines(s, lines, file, t).value;
            RowReadings(next.samples.Of(c).rows) == RowReadings(s.samples.Of(c).rows) + Readings(lines, file.parsed, c)
    decreases |lines|
  {
    if lines != [] {
      var family := Family(lines[0]);
      var next := if family.None? then s else ObserveComponent(s, family.value, ParsedLine(file, lines[0]), t).value;
      var head, tail := ReadingOf(lines[0], file.parsed, c), Readings(lines[1..], file.parsed, c);
      LineBecomesRow(s, next, lines[0], file, t, c);
      LinesBecomeRows(next, lines[1..], file, t, c);
      assert (RowReadings(s.samples.Of(c).rows) + head) + tail == RowReadings(s.samples.Of(c).rows) + (head + tail);
    }
  }
}
