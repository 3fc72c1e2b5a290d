/** What every unfailed controller run keeps, call by call. */
module EpochInvariant {
  import opened Prelude
  import opened Windows
  import opened LogTail
  import opened NativeSampler
  import opened EpochModel
  import opened EpochHistory

  // --- log custody along the stream ---------------------------------------

  /** Who holds the log, as the rows alone tell it. */
  datatype Custody = Unlogged | Bound(excluded: nat) | Retired(killOnly: bool) | Replaced | Broken

  function NextCustody(custody: Custody, row: EpochRow): Custody {
    if row.Transition? then
      if custody.Unlogged? || (custody.Bound? && row.kind == Deploy) then custody
      else if custody.Retired? && row.kind in {Restart, Kill, Restore} && (custody.killOnly ==> row.kind == Kill)
      then Replaced
      else Broken
    else if row.BoundLog? then
      if custody.Unlogged? && row.epoch == 0 && row.excluded <= MAX_LOG_BYTES then Bound(row.excluded)
      else if custody.Replaced? && row.excluded == 0 then Bound(0)
      else Broken
    else if custody.Bound? && custody.excluded <= row.bytes && row.partialBytes <= Min(MAX_LINE, row.bytes)
    then Retired(row.partialBytes != 0)
    else Broken
  }

  function CustodyOf(output: seq<EpochRow>): Custody {
    if |output| == 0 then Unlogged else NextCustody(CustodyOf(output[..|output| - 1]), output[|output| - 1])
  }

  function RetiredBytes(output: seq<EpochRow>): nat {
    if |output| == 0 then 0
    else
      var row := output[|output| - 1];
      RetiredBytes(output[..|output| - 1]) + if row.RetiredLog? then row.bytes else 0
  }

  /** The row after this stream names its owners and does not go back in time. */
  ghost predicate RowFollows(output: seq<EpochRow>, row: EpochRow) {
    var epochs := Epochs(output);
    && (output != [] ==> output[|output| - 1].ns <= row.ns)
    && (!row.Transition? ==> epochs != [] && var last := epochs[|epochs| - 1];
                             row.epoch == |epochs| - 1 && row.server == last.server && row.sampler == last.sampler)
    && NextCustody(CustodyOf(output), row) != Broken
    && U64(row.ns)
  }

  ghost predicate StreamOk(output: seq<EpochRow>) {
    forall i :: 0 <= i < |output| ==> RowFollows(output[..i], output[i])
  }

  lemma {:induction false} StreamAppend(output: seq<EpochRow>, row: EpochRow)
    requires StreamOk(output) && RowFollows(output, row)
    ensures StreamOk(output + [row])
    ensures CustodyOf(output + [row]) == NextCustody(CustodyOf(output), row)
    ensures RetiredBytes(output + [row]) == RetiredBytes(output) + if row.RetiredLog? then row.bytes else 0
  {
    var more := output + [row];
    assert more[..|output|] == output;
    forall i | 0 <= i < |more|
      ensures RowFollows(more[..i], more[i])
    {
      if i < |output| {
        assert more[..i] == output[..i];
        assert RowFollows(output[..i], output[i]);
      }
    }
  }

  // --- invariant -----------------------------------------------------------

  /** The open epoch as the controller's fields record it. */
  ghost predicate OwnersInv(s: State) {
    var epochs := Epochs(s.output);
    && EpochsOk(epochs, s.duration) && |epochs| == s.epoch + 1
    && var open := epochs[s.epoch];
    && open.ns <= Since(s.lastNs) && open.server == s.owners.serverCount && open.sampler == s.owners.samplerCount
    && open.version == s.version && open.incarnation == s.incarnation
    && open.samples == s.started && open.native == s.startedNative
  }

  /** The cursors the next reading is held to are those of the last row written. */
  ghost predicate CursorInv(s: State, c: Component, kind: Kind)
  {
    var k := s.samples.Of(c);
    if k.rows == [] then k.last.None? && k.lastNs.None? && s.floors.Of(c).None?
    else
      var row := k.rows[|k.rows| - 1];
      && k.lastNs == Some(row.ns) && row.ns <= Since(s.lastNs)
      && if |k.rows| > s.started.Of(c) || kind == Deploy then k.last == Some(row.reading) && s.floors.Of(c).None?
         else k.last.None? && s.floors.Of(c).Some? && s.floors.Of(c).value == Floor(FloorFields(c, kind), row.reading)
  }

  ghost predicate ComponentInv(s: State, c: Component)
    requires |Epochs(s.output)| == s.epoch + 1 && Epochs(s.output)[s.epoch].Transition?
  {
    && HistoryOk(c, s.samples.Of(c).rows, Epochs(s.output), s.duration)
    && Dense(Instants(s.samples.Of(c).rows), GapOf(c))
    && s.started.Of(c) <= |s.samples.Of(c).rows| <= MAX_COMPONENT_ROWS
    && (s.epoch > 0 ==> s.started.Of(c) > 0)
    && CursorInv(s, c, Epochs(s.output)[s.epoch].kind)
  }

  ghost predicate PeakInv(s: State)
  {
    PeaksOk(s.samples.Of(Provider).rows, Epochs(s.output))
    && s.samples.Of(Provider).peak == PeakOf(s.samples.Of(Provider).rows)
  }

  ghost predicate NativeInv(s: State) {
    && NativeOk(s.native, Epochs(s.output), s.duration)
    && s.attempts == SumAttempts(s.native) && s.startedNative <= |s.native| <= MAX_NATIVE_ROWS
    && (s.epoch > 0 ==> s.startedNative > 0)
    && if s.native == [] then s.sampler.None? && s.nativeFloor.None?
       else
         var row := s.native[|s.native| - 1];
         && row.ns <= Since(s.lastNs)
         && if |s.native| > s.startedNative
            then && s.sampler == Some(row.reading) && s.nativeFloor.None?
                 && row.reading.identity == s.identity && row.reading.incarnation == s.incarnation
            else && s.sampler.None? && s.nativeFloor.Some?
                 && s.nativeFloor.value.values == row.reading
                 && s.nativeFloor.value.keys
                    == if row.reading.identity == s.identity && row.reading.incarnation == s.incarnation
                       then ALL_NATIVE else {SampledHead, StatisticsHead}
  }

  ghost predicate LogInv(s: State)
  {
    var custody := CustodyOf(s.output);
    && StreamOk(s.output) && s.output != [] && s.output[|s.output| - 1].ns <= Since(s.lastNs)
    && RetiredBytes(s.output) == s.log.completed <= MAX_LOG_BYTES
    && custody != Broken
    && (s.log.enabled <==> !custody.Unlogged?)
    && (s.log.open <==> custody.Bound?)
    && (custody.Bound? ==> s.log.owner == s.owners.server && custody.excluded <= s.log.offset)
    && (custody.Retired? ==> s.log.owner == s.owners.server && s.log.retired.Some?
                             && s.log.retired.value in {Restart, Kill, Restore}
                             && (custody.killOnly ==> s.log.retired == Some(Kill)))
    && (custody.Replaced? ==> |s.native| == s.startedNative)
  }

  ghost predicate ComponentsInv(s: State)
    requires OwnersInv(s)
  {
    forall c: Component :: ComponentInv(s, c)
  }

  ghost predicate Inv(s: State) {
    && OwnersInv(s) && U64(Since(s.lastNs))
    && ComponentsInv(s) && PeakInv(s) && NativeInv(s) && LogInv(s)
  }

  lemma {:induction false} InitialStream(row: EpochRow, duration: nat)
    requires EpochRowOk(row, 0, duration) && row.ns == 0 && row.native == 0 && row.attempts == 0 && row.peak == 0
    requires row.version == 1 && row.incarnation == 1 && forall c: Component :: row.samples.Of(c) == 0
    ensures Epochs([row]) == [row] && EpochsOk([row], duration)
    ensures StreamOk([row]) && CustodyOf([row]) == Unlogged && RetiredBytes([row]) == 0
  {
    assert [row][..0] == [];
    assert [] + [row] == [row];
    assert RowFollows([], row);
  }

  lemma {:induction false} InitialParts(s: State, row: EpochRow)
    requires s.output == [row] && Epochs(s.output) == [row] && EpochsOk([row], s.duration)
    requires s.epoch == 0 && s.started == row.samples && s.startedNative == 0 && s.native == [] && s.attempts == 0
    requires s.sampler.None? && s.nativeFloor.None?
    requires forall c: Component :: s.samples.Of(c) == Collector(None, None, [], 0) && s.floors.Of(c).None?
    requires OwnersInv(s)
    ensures ComponentsInv(s) && PeakInv(s) && NativeInv(s)
  {
    assert s.native[..0] == [] && s.samples.Of(Provider).rows[..0] == [];
  }

  lemma {:induction false} InitialInv(durationS: nat, identity: Identity, owners: Owners)
    requires CampaignDuration(durationS)
    ensures Inv(InitialState(durationS, identity, owners))
  {
    var s := InitialState(durationS, identity, owners);
    var row := s.output[0];
    assert s.output == [row];
    InitialStream(row, s.duration);
    InitialParts(s, row);
  }

  // --- frames: what a later clock and untouched fields keep ----------------

  ghost predicate Later(s: State, next: State) {
    && next.duration == s.duration && Epochs(next.output) == Epochs(s.output) && next.epoch == s.epoch
    && next.started == s.started && next.startedNative == s.startedNative
    && Since(s.lastNs) <= Since(next.lastNs) && U64(Since(next.lastNs))
    && next.version == s.version && next.incarnation == s.incarnation && next.identity == s.identity
    && next.owners == s.owners
  }

  lemma {:induction false} OwnersFrame(s: State, next: State)
    requires OwnersInv(s) && Later(s, next)
    ensures OwnersInv(next)
  {
  }

  lemma {:induction false} ComponentFrame(s: State, next: State, c: Component)
    requires OwnersInv(s) && Later(s, next) && ComponentInv(s, c)
    requires next.samples.Of(c) == s.samples.Of(c)
    requires next.floors.Of(c).Some? <==> s.floors.Of(c).Some?
    requires s.floors.Of(c).Some? ==> next.floors.Of(c).value == s.floors.Of(c).value
    ensures ComponentInv(next, c)
  {
  }

  lemma {:induction false} ComponentsFrame(s: State, next: State)
    requires OwnersInv(s) && ComponentsInv(s) && Later(s, next) && OwnersInv(next)
    requires next.samples == s.samples && next.floors == s.floors
    ensures ComponentsInv(next)
  {
    forall c: Component
      ensures ComponentInv(next, c)
    {
      ComponentFrame(s, next, c);
    }
  }

  lemma {:induction false} NativeFrame(s: State, next: State)
    requires NativeInv(s) && Later(s, next) && next.native == s.native && next.attempts == s.attempts
    requires next.sampler == s.sampler && next.nativeFloor == s.nativeFloor
    ensures NativeInv(next)
  {
  }

  lemma {:induction false} LogFrame(s: State, next: State)
    requires LogInv(s) && Later(s, next) && next.output == s.output
    requires next.log == s.log.(offset := next.log.offset, observed := next.log.observed)
    requires next.log.offset >= s.log.offset
    requires |next.native| == |s.native| || s.log.open || !s.log.enabled
    ensures LogInv(next)
  {
  }

  /** A call that only moved the clock, or read further in the log. */
  lemma {:induction false} ClockInv(s: State, next: State)
    requires Inv(s) && Later(s, next) && next.output == s.output && next.samples == s.samples && next.floors == s.floors
    requires next.native == s.native && next.attempts == s.attempts
    requires next.sampler == s.sampler && next.nativeFloor == s.nativeFloor
    requires next.log == s.log.(offset := next.log.offset, observed := next.log.observed)
    requires next.log.offset >= s.log.offset
    ensures Inv(next)
  {
    OwnersFrame(s, next);
    ComponentsFrame(s, next);
    NativeFrame(s, next);
    LogFrame(s, next);
  }

  // --- component observation ----------------------------------------------

  /** One accepted reading extends its own component's history. */
  lemma {:induction false} CollectedInv(s: State, next: State, c: Component, r: Reading, t: nat)
    requires OwnersInv(s) && ComponentInv(s, c)
    requires s.lastNs == Some(t) && t < s.duration && ReadingBounded(c, r)
    requires s.floors.Of(c).Some? ==> NoLower(s.floors.Of(c).value.values, r, s.floors.Of(c).value.keys)
    requires Admits(c, s.samples.Of(c), r, t, s.incarnation)
    requires Later(s, next) && next.lastNs == s.lastNs
    requires next.samples.Of(c) == Collected(s.samples.Of(c), r, t) && next.floors.Of(c).None?
    ensures ComponentInv(next, c)
  {
    HistoryRow(c, s.samples.Of(c).rows, Epochs(s.output), s.duration, Row(r, t));
  }

  lemma {:induction false} CollectedComponents(s: State, next: State, c: Component, r: Reading, t: nat)
    requires OwnersInv(s) && ComponentsInv(s)
    requires s.lastNs == Some(t) && t < s.duration && ReadingBounded(c, r) && U64(t)
    requires s.floors.Of(c).Some? ==> NoLower(s.floors.Of(c).value.values, r, s.floors.Of(c).value.keys)
    requires Admits(c, s.samples.Of(c), r, t, s.incarnation)
    requires Later(s, next) && next.lastNs == s.lastNs && OwnersInv(next)
    requires next.samples == s.samples.With(c, Collected(s.samples.Of(c), r, t))
             && next.floors == s.floors.With(c, None)
    ensures ComponentsInv(next)
  {
    CollectedInv(s, next, c, r, t);
    forall d: Component | d != c
      ensures ComponentInv(next, d)
    {
      ComponentFrame(s, next, d);
    }
  }

  lemma {:induction false} CollectedPeak(s: State, next: State, c: Component, r: Reading, t: nat)
    requires PeakInv(s) && next.output == s.output
    requires next.samples == s.samples.With(c, Collected(s.samples.Of(c), r, t)) && next.started == s.started
    ensures PeakInv(next)
  {
    PeaksRow(s.samples.Of(Provider).rows, Epochs(s.output), Row(r, t));
  }

  lemma {:induction false} CollectedKeepsInv(s: State, next: State, c: Component, r: Reading, t: nat)
    requires Inv(s)
    requires s.lastNs == Some(t) && t < s.duration && ReadingBounded(c, r)
    requires s.floors.Of(c).Some? ==> NoLower(s.floors.Of(c).value.values, r, s.floors.Of(c).value.keys)
    requires Admits(c, s.samples.Of(c), r, t, s.incarnation)
    requires next == s.(samples := s.samples.With(c, Collected(s.samples.Of(c), r, t)),
                        floors := s.floors.With(c, None))
    ensures Inv(next)
  {
    assert Later(s, next);
    OwnersFrame(s, next);
    CollectedComponents(s, next, c, r, t);
    CollectedPeak(s, next, c, r, t);
    NativeFrame(s, next);
    LogFrame(s, next);
  }

  lemma {:induction false} ObserveComponentInv(s: State, c: Component, parsed: Parsed, t: nat)
    requires Inv(s) && s.lastNs == Some(t) && ObserveComponent(s, c, parsed, t).Some?
    ensures Inv(ObserveComponent(s, c, parsed, t).value)
    ensures Later(s, ObserveComponent(s, c, parsed, t).value)
  {
    var next := ObserveComponent(s, c, parsed, t).value;
    if next != s {
      CollectedKeepsInv(s, next, c, parsed.reading, t);
    }
  }

  lemma {:induction false} ObserveLineInv(s: State, next: State, line: Bytes, file: LogFile, t: nat)
    requires Inv(s) && s.lastNs == Some(t)
    requires if Family(line).None? then next == s
             else ObserveComponent(s, Family(line).value, ParsedLine(file, line), t) == Some(next)
    ensures Inv(next) && Later(s, next) && next.lastNs == s.lastNs && next.log == s.log && next.complete == s.complete
  {
    if Family(line).Some? {
      ObserveComponentInv(s, Family(line).value, ParsedLine(file, line), t);
    }
  }

  lemma {:induction false} LaterOn(a: State, b: State, c: State)
    requires Later(a, b) && Later(b, c)
    ensures Later(a, c)
  {
  }

  lemma {:induction false} ObserveLinesInv(s: State, lines: seq<Bytes>, file: LogFile, t: nat)
    requires Inv(s) && s.lastNs == Some(t) && ObserveLines(s, lines, file, t).Some?
    ensures var next := ObserveLines(s, lines, file, t).value;
            Inv(next) && Later(s, next) && next.lastNs == s.lastNs && next.log == s.log && next.complete == s.complete
    decreases |lines|
  {
    if lines != [] {
      var family := Family(lines[0]);
      var next := if family.None? then s else ObserveComponent(s, family.value, ParsedLine(file, lines[0]), t).value;
      ObserveLineInv(s, next, lines[0], file, t);
      ObserveLinesInv(next, lines[1..], file, t);
      LaterOn(s, next, ObserveLines(s, lines, file, t).value);
    }
  }

  lemma {:induction false} ObserveInv(s: State, c: Component, parsed: Parsed, t: int, r: Roster)
    requires Inv(s) && Observe(s, c, parsed, t, r).Some?
    ensures Inv(Observe(s, c, parsed, t, r).value)
  {
    var ticked := s.(lastNs := Some(t));
    ClockInv(s, ticked);
    ObserveComponentInv(ticked, c, parsed, t);
  }

  // --- native observation --------------------------------------------------

  /** The new row continues the last one, and stands in the open epoch at its sampler's index. */
  lemma {:induction false} NativeRowFollows(s: State, v: NativeReading, t: nat)
    requires OwnersInv(s) && NativeInv(s) && Since(s.lastNs) <= t < s.duration
    requires |s.native| > 0 ==> t > s.native[|s.native| - 1].ns
    requires SamplerAdmits(s.sampler, s.identity, s.version, v) && v.incarnation == s.incarnation
             && NativeFloorHolds(s, v)
    ensures |s.native| > 0 ==> NativeStep(s.native[|s.native| - 1], NativeRow(v, t))
    ensures NativeInEpoch(NativeRow(v, t), Epochs(s.output), s.epoch, |s.native|, s.duration)
  {
    if |s.native| > s.startedNative {
      assert InNativeEpoch(Epochs(s.output), |s.native|, s.epoch, |s.native| - 1);
      assert NativeInEpoch(s.native[|s.native| - 1], Epochs(s.output), s.epoch, |s.native| - 1, s.duration);
    }
  }

  lemma {:induction false} NativeRowInv(s: State, next: State, v: NativeReading, t: nat)
    requires OwnersInv(s) && NativeInv(s) && Later(s, next) && next.lastNs == Some(t)
    requires t < s.duration && |s.native| < MAX_NATIVE_ROWS && (s.native != [] ==> t > s.native[|s.native| - 1].ns)
    requires SamplerAdmits(s.sampler, s.identity, s.version, v) && v.incarnation == s.incarnation
             && NativeFloorHolds(s, v)
    requires next.native == s.native + [NativeRow(v, t)] && next.attempts == s.attempts + v.attempts
    requires next.sampler == Some(v) && next.nativeFloor.None?
    ensures NativeInv(next)
  {
    var epochs, row := Epochs(s.output), NativeRow(v, t);
    NativeRowFollows(s, v, t);
    NativeAppend(s.native, epochs, s.duration, row);
  }

  lemma {:induction false} ObserveNativeInv(s: State, v: NativeReading, t: int, r: Roster)
    requires Inv(s) && ObserveNative(s, v, t, r).Some?
    ensures Inv(ObserveNative(s, v, t, r).value)
  {
    var next := ObserveNative(s, v, t, r).value;
    OwnersFrame(s, next);
    ComponentsFrame(s, next);
    NativeRowInv(s, next, v, t);
    LogFrame(s, next);
  }

  // --- owner transition ----------------------------------------------------

  lemma {:induction false} AttemptsGrow(rows: seq<NativeRow>, a: nat)
    requires a < |rows| && forall i :: a <= i < |rows| ==> rows[i].reading.attempts == 3
    ensures SumAttempts(rows[..a]) < SumAttempts(rows)
    decreases |rows|
  {
    var shorter := rows[..|rows| - 1];
    if a < |shorter| {
      AttemptsGrow(shorter, a);
      assert shorter[..a] == rows[..a];
    }
  }

  lemma {:induction false} PeakGrows(rows: seq<Row>, a: nat)
    requires a <= |rows|
    ensures PeakOf(rows[..a]) <= PeakOf(rows)
    decreases |rows|
  {
    if a < |rows| {
      var shorter := rows[..|rows| - 1];
      PeakGrows(shorter, a);
      assert shorter[..a] == rows[..a];
    } else {
      assert rows[..a] == rows;
    }
  }

  lemma {:induction false} AttemptsSinceOpen(s: State)
    requires OwnersInv(s) && NativeInv(s) && |s.native| > s.startedNative
    ensures Epochs(s.output)[s.epoch].attempts < s.attempts
  {
    var epochs := Epochs(s.output);
    forall i | s.startedNative <= i < |s.native|
      ensures s.native[i].reading.attempts == 3
    {
      assert InNativeEpoch(epochs, |s.native|, s.epoch, i);
    }
    AttemptsGrow(s.native, s.startedNative);
  }

  /** The new transition row against the open one. */
  lemma {:induction false} TransitionStep(s: State, row: EpochRow, kind: Kind, t: nat, version: nat, incarnation: nat,
                                          identity: Identity, r: Roster)
    requires OwnersInv(s) && PeakInv(s) && NativeInv(s) && EpochComplete(s) && Since(s.lastNs) <= t
    requires ReleaseAdmitted(s, kind, version, incarnation, identity) && OwnersReplaced(s, kind, r)
    requires row == TransitionRow(s, kind, t, version, incarnation, r)
    ensures EpochStepOk(Epochs(s.output)[s.epoch], row)
  {
    var open := Epochs(s.output)[s.epoch];
    AttemptsSinceOpen(s);
    PeakGrows(s.samples.Of(Provider).rows, open.samples.Of(Provider));
    assert open.peak <= row.peak;
    forall c: Component
      ensures open.samples.Of(c) < row.samples.Of(c)
    {
      assert |s.samples.Of(c).rows| > s.started.Of(c);
    }
  }

  lemma {:induction false} TransitionOwners(s: State, next: State, row: EpochRow)
    requires OwnersInv(s) && row.Transition? && row.epoch == s.epoch + 1 && row.kind != Initial && row.ns < s.duration
    requires EpochStepOk(Epochs(s.output)[s.epoch], row)
    requires next.output == s.output + [row] && next.duration == s.duration && next.epoch == s.epoch + 1
    requires next.lastNs == Some(row.ns) && next.started == row.samples && next.startedNative == row.native
    requires next.version == row.version && next.incarnation == row.incarnation
    requires next.owners.serverCount == row.server && next.owners.samplerCount == row.sampler
    ensures OwnersInv(next) && Epochs(next.output) == Epochs(s.output) + [row]
  {
    EpochsAppend(s.output, row);
    EpochsOkExtend(Epochs(s.output), row, s.duration);
  }

  lemma {:induction false} TransitionComponent(s: State, next: State, row: EpochRow, kind: Kind, t: nat, c: Component)
    requires OwnersInv(s) && ComponentInv(s, c) && OwnersInv(next) && Epochs(next.output) == Epochs(s.output) + [row]
    requires |s.samples.Of(c).rows| > s.started.Of(c) && s.samples.Of(c).last.Some?
    requires row.Transition? && row.kind == kind != Initial && row.ns == t && Since(s.lastNs) <= t
             && next.lastNs == Some(t)
    requires next.epoch == s.epoch + 1 && next.duration == s.duration
    requires row.samples.Of(c) == next.started.Of(c) == |s.samples.Of(c).rows|
    requires next.samples.Of(c) == if kind == Deploy then s.samples.Of(c) else s.samples.Of(c).(last := None)
    requires next.floors.Of(c) == if kind == Deploy then s.floors.Of(c)
                                  else Some(Floor(FloorFields(c, kind), s.samples.Of(c).last.value))
    ensures ComponentInv(next, c)
  {
    var rows := s.samples.Of(c).rows;
    var epochs := Epochs(s.output);
    HistoryAscends(c, rows, epochs, s.duration);
    assert EpochRowOk(row, |epochs|, s.duration) by {
      assert Epochs(next.output)[|epochs|] == row;
    }
    HistoryEpoch(c, rows, epochs, s.duration, row);
  }

  lemma {:induction false} TransitionPeaks(s: State, next: State, row: EpochRow)
    requires PeakInv(s) && Epochs(next.output) == Epochs(s.output) + [row] && row.Transition?
    requires next.samples.provider.rows == s.samples.provider.rows
             && next.samples.provider.peak == s.samples.provider.peak
    requires row.samples.Of(Provider) == |s.samples.provider.rows| && row.peak == s.samples.provider.peak
    ensures PeakInv(next)
  {
    var rows := s.samples.provider.rows;
    assert rows[..|rows|] == rows;
  }

  lemma {:induction false} TransitionNative(s: State, next: State, row: EpochRow, kind: Kind, t: nat)
    requires NativeInv(s) && Epochs(next.output) == Epochs(s.output) + [row] && row.Transition? && row.ns == t
    requires |s.native| > s.startedNative && Since(s.lastNs) <= t && next.lastNs == Some(t)
    requires row.native == |s.native| && row.attempts == s.attempts
    requires next.native == s.native && next.attempts == s.attempts && next.startedNative == |s.native|
    requires next.sampler.None? && next.nativeFloor == Some(NativeFloorAfter(s, kind, next.identity))
    requires next.incarnation == s.incarnation + (if kind == Restore then 1 else 0) && next.duration == s.duration
    ensures NativeInv(next)
  {
    NativeEpoch(s.native, Epochs(s.output), s.duration, row);
  }

  lemma {:induction false} TransitionLog(s: State, next: State, row: EpochRow, kind: Kind, t: nat)
    requires LogInv(s) && next.output == s.output + [row] && row.Transition? && row.kind == kind != Initial
             && row.ns == t
    requires Since(s.lastNs) <= t && next.lastNs == Some(t) && U64(t)
    requires LogReleased(s, kind) && |s.native| > s.startedNative && next.startedNative == |s.native|
             && next.native == s.native
    requires next.log == s.log && (kind == Deploy ==> next.owners.server == s.owners.server)
    ensures LogInv(next)
  {
    assert NextCustody(CustodyOf(s.output), row) != Broken;
    StreamAppend(s.output, row);
  }

  lemma {:induction false} TransitionInv(s: State, kind: Kind, t: int, version: int, incarnation: int,
                                         identity: Identity, r: Roster)
    requires Inv(s) && MakeTransition(s, kind, t, version, incarnation, identity, r).Some?
    ensures Inv(MakeTransition(s, kind, t, version, incarnation, identity, r).value)
  {
    var next := MakeTransition(s, kind, t, version, incarnation, identity, r).value;
    var row := TransitionRow(s, kind, t, version, incarnation, r);
    TransitionStep(s, row, kind, t, version, incarnation, identity, r);
    TransitionOwners(s, next, row);
    forall c: Component
      ensures ComponentInv(next, c)
    {
      assert ComponentInv(s, c);
      assert |s.samples.Of(c).rows| > s.started.Of(c);
      TransitionComponent(s, next, row, kind, t, c);
    }
    TransitionPeaks(s, next, row);
    TransitionNative(s, next, row, kind, t);
    TransitionLog(s, next, row, kind, t);
  }

  // --- log custody ---------------------------------------------------------

  /** A custody row leaves every epoch and history untouched. */
  lemma {:induction false} CustodyRowInv(s: State, next: State, row: EpochRow)
    requires Inv(s) && !row.Transition? && next.output == s.output + [row] && LogInv(next)
    requires next == s.(lastNs := next.lastNs, log := next.log, output := next.output)
    requires Since(s.lastNs) <= Since(next.lastNs) && U64(Since(next.lastNs))
    ensures Inv(next)
  {
    EpochsAppend(s.output, row);
    OwnersFrame(s, next);
    ComponentsFrame(s, next);
    NativeFrame(s, next);
  }

  lemma {:induction false} BindCustody(s: State, next: State, row: EpochRow, t: nat, file: LogFile)
    requires OwnersInv(s) && LogInv(s) && !s.log.open && Since(s.lastNs) <= t && next.lastNs == Some(t) && U64(t)
    requires if s.log.enabled then s.epoch > s.log.epoch && s.log.owner != s.owners.server else s.epoch == 0
    requires s.log.completed + |file.content| <= MAX_LOG_BYTES
    requires row.BoundLog? && row.epoch == s.epoch && row.ns == t
    requires row.server == s.owners.serverCount && row.sampler == s.owners.samplerCount
    requires row.excluded == (if s.log.enabled then 0 else |file.content|)
    requires next == s.(lastNs := next.lastNs, log := next.log, output := next.output)
             && next.output == s.output + [row]
    requires next.log.enabled && next.log.open && next.log.owner == s.owners.server
             && next.log.completed == s.log.completed
    requires next.log.offset == row.excluded
    ensures LogInv(next)
  {
    assert RowFollows(s.output, row);
    StreamAppend(s.output, row);
  }

  lemma {:induction false} BindLogInv(s: State, t: int, r: Roster, file: LogFile)
    requires Inv(s) && BindLog(s, t, r, file).Some?
    ensures Inv(BindLog(s, t, r, file).value)
  {
    var next := BindLog(s, t, r, file).value;
    var row := next.output[|s.output|];
    BindCustody(s, next, row, t, file);
    CustodyRowInv(s, next, row);
  }

  lemma {:induction false} CloseCustody(s: State, next: State, row: EpochRow, kind: Kind, t: nat, bytes: nat,
                                        partialBytes: nat)
    requires OwnersInv(s) && LogInv(s) && s.log.open && s.lastNs == next.lastNs == Some(t) && U64(t)
    requires kind in {Restart, Kill, Restore} && (partialBytes != 0 ==> kind == Kill)
    requires partialBytes <= MAX_LINE && s.log.offset + partialBytes == bytes
             && s.log.completed + bytes <= MAX_LOG_BYTES
    requires row == RetiredLog(s.epoch, t, s.owners.serverCount, s.owners.samplerCount, bytes, partialBytes)
    requires next == s.(log := next.log, output := s.output + [row])
    requires next.log == s.log.(open := false, retired := Some(kind), completed := s.log.completed + bytes)
    ensures LogInv(next)
  {
    assert RowFollows(s.output, row);
    StreamAppend(s.output, row);
  }

  lemma {:induction false} CloseRetiredInv(s: State, kind: Kind, t: nat, file: LogFile, partialBytes: nat)
    requires Inv(s) && s.lastNs == Some(t) && s.log.open && kind in {Restart, Kill, Restore}
    requires partialBytes <= MAX_LINE && s.log.offset + partialBytes == |file.content|
    requires s.log.completed + |file.content| <= MAX_LOG_BYTES
    requires CloseRetired(s, kind, t, file, partialBytes).Some?
    ensures Inv(CloseRetired(s, kind, t, file, partialBytes).value)
  {
    var next := CloseRetired(s, kind, t, file, partialBytes).value;
    var row := RetiredLog(s.epoch, t, s.owners.serverCount, s.owners.samplerCount, |file.content|, partialBytes);
    CloseCustody(s, next, row, kind, t, |file.content|, partialBytes);
    CustodyRowInv(s, next, row);
  }

  lemma {:induction false} AfterScanInv(s: State, t: nat, retired: Option<Kind>, file: LogFile, scan: Scan)
    requires Inv(s) && s.lastNs == Some(t) && s.log.open && AfterScan(s, t, retired, file, scan).Some?
    requires retired.Some? ==> retired.value in {Restart, Kill, Restore}
    requires s.log.offset <= scan.offset <= |file.content| && s.log.completed + |file.content| <= MAX_LOG_BYTES
    requires ExactText(file.content, s.log.offset, scan)
    ensures Inv(AfterScan(s, t, retired, file, scan).value.state)
  {
    ObserveLinesInv(s, scan.lines, file, t);
    var observed := ObserveLines(s, scan.lines, file, t).value;
    var read := observed.(log := observed.log.(offset := scan.offset));
    ClockInv(observed, read);
    if retired.Some? && scan.end != Repeat {
      CloseRetiredInv(read, retired.value, t, file, if scan.end == Eof then 0 else scan.end.bytes);
    }
  }

  lemma {:induction false} PollLogInv(s: State, t: int, retired: Option<Kind>, r: Roster, file: LogFile)
    requires Inv(s) && PollLog(s, t, retired, r, file).Some?
    ensures Inv(PollLog(s, t, retired, r, file).value.state)
  {
    var ticked := s.(lastNs := Some(t), log := s.log.(observed := |file.content|));
    ClockInv(s, ticked);
    ScanIsExact(file.content, s.log.offset, {}, 0);
    AfterScanInv(ticked, t, retired, file, ScanFrom(file.content, s.log.offset, {}, 0));
  }

  // --- every call, and every run -------------------------------------------

  lemma {:induction false} CheckGapsInv(s: State, t: int, r: Roster, file: LogFile)
    requires Inv(s) && CheckGaps(s, t, r, file).Some?
    ensures Inv(CheckGaps(s, t, r, file).value)
  {
    if s.log.enabled && s.log.open && (s.lastNs.None? || t > s.lastNs.value) {
      PollLogInv(s, t, None, r, file);
    } else {
      ClockInv(s, CheckGaps(s, t, r, file).value);
    }
  }

  lemma {:induction false} FinishInv(s: State, t: int, r: Roster)
    requires Inv(s) && Finish(s, t, r).Some?
    ensures Inv(Finish(s, t, r).value)
  {
    ClockInv(s, Finish(s, t, r).value);
  }

  lemma {:induction false} StepInv(s: State, call: Call)
    requires Inv(s) && Step(s, call).Some?
    ensures Inv(Step(s, call).value)
  {
    match call
    case CallObserve(c, parsed, t, r) => ObserveInv(s, c, parsed, t, r);
    case CallNative(v, t, r) => ObserveNativeInv(s, v, t, r);
    case CallTransition(kind, t, version, incarnation, identity, r) =>
      TransitionInv(s, kind, t, version, incarnation, identity, r);
    case CallBind(t, r, file) => BindLogInv(s, t, r, file);
    case CallPoll(t, retired, r, file) => PollLogInv(s, t, retired, r, file);
    case CallGaps(t, r, file) => CheckGapsInv(s, t, r, file);
    case CallFinish(t, r) => FinishInv(s, t, r);
  }

  lemma {:induction false} RunInv(s: State, calls: seq<Call>)
    requires Inv(s) && Run(s, calls).Some?
    ensures Inv(Run(s, calls).value)
    decreases |calls|
  {
    if calls != [] {
      StepInv(s, calls[0]);
      RunInv(Step(s, calls[0]).value, calls[1..]);
    }
  }
}
