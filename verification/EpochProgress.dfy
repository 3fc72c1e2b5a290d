/**
 * The native rows of a finished run before the progress reconciler: three facts it wants
 * and the controller does not see to decide whether it accepts them.
 */
module EpochProgress {
  import opened Prelude
  import opened Windows
  import opened LogTail
  import opened NativeSampler
  import opened EpochModel
  import opened EpochHistory
  import opened EpochInvariant
  import opened EpochCheckers
  import opened EpochAcceptance
  import opened EpochRuns
  import P = Progress

  // --- what every run keeps of the native rows ------------------------------

  /** The row is the next of its sampler's life, under its own projection and release. */
  ghost predicate Lived(rows: seq<NativeRow>, i: nat)
    requires i < |rows|
  {
    var v := rows[i].reading;
    SamplerAdmits(P.LifeBefore(rows, i), v.identity, v.version, v)
  }

  /** Rows of the first release name the projection the run began with, later ones the deployed one. */
  ghost predicate Named(s: State, first: Identity, i: nat)
    requires i < |s.native|
  {
    var v := s.native[i].reading;
    v.identity == (if v.version == 1 then first else s.identity) && (s.version == 1 ==> v.version == 1)
  }

  ghost predicate Traced(s: State, first: Identity) {
    && (s.version == 1 ==> s.identity == first)
    && forall i :: 0 <= i < |s.native| ==> Lived(s.native, i) && Named(s, first, i)
  }

  lemma {:induction false} PollNative(s: State, t: int, retired: Option<Kind>, r: Roster, file: LogFile)
    requires PollLog(s, t, retired, r, file).Some?
    ensures var next := PollLog(s, t, retired, r, file).value.state;
            next.native == s.native && next.identity == s.identity && next.version == s.version
  {
    var scan := ScanFrom(file.content, s.log.offset, {}, 0);
    var ticked := s.(lastNs := Some(t), log := s.log.(observed := |file.content|));
    LinesTouchOnlySamples(ticked, scan.lines, file, t);
  }

  /** Only a native sample adds a row, and only a deployment changes the projection. */
  ghost predicate Carries(s: State, next: State) {
    && next.native == s.native
    && if next.version == s.version then next.identity == s.identity else s.version == 1 && next.version == 2
  }

  lemma {:induction false} StepCarries(s: State, call: Call)
    requires Step(s, call).Some? && !call.CallNative?
    ensures Carries(s, Step(s, call).value)
  {
    match call
    case CallPoll(t, retired, r, file) => PollNative(s, t, retired, r, file);
    case CallGaps(t, r, file) =>
      if s.log.enabled && s.log.open && (s.lastNs.None? || t > s.lastNs.value) {
        PollNative(s, t, None, r, file);
      }
    case _ =>
  }

  lemma {:induction false} SampleTraced(s: State, v: NativeReading, t: int, r: Roster, first: Identity)
    requires Inv(s) && Traced(s, first) && ObserveNative(s, v, t, r).Some?
    ensures Traced(ObserveNative(s, v, t, r).value, first)
  {
    var next := ObserveNative(s, v, t, r).value;
    forall i | 0 <= i < |next.native|
      ensures Lived(next.native, i) && Named(next, first, i)
    {
      if i < |s.native| {
        assert Lived(s.native, i) && Named(s, first, i);
      }
    }
  }

  lemma {:induction false} MoveTraced(s: State, next: State, first: Identity)
    requires Traced(s, first) && Carries(s, next)
    ensures Traced(next, first)
  {
    forall i | 0 <= i < |next.native|
      ensures Lived(next.native, i) && Named(next, first, i)
    {
      assert Lived(s.native, i) && Named(s, first, i);
    }
  }

  lemma {:induction false} StepTraced(s: State, call: Call, first: Identity)
    requires Inv(s) && Traced(s, first) && Step(s, call).Some?
    ensures Traced(Step(s, call).value, first)
  {
    if call.CallNative? {
      SampleTraced(s, call.v, call.t, call.roster, first);
    } else {
      StepCarries(s, call);
      MoveTraced(s, Step(s, call).value, first);
    }
  }

  lemma {:induction false} RunTraced(s: State, calls: seq<Call>, first: Identity)
    requires Inv(s) && Traced(s, first) && Run(s, calls).Some?
    ensures Traced(Run(s, calls).value, first)
    decreases |calls|
  {
    if |calls| > 0 {
      StepInv(s, calls[0]);
      StepTraced(s, calls[0], first);
      RunTraced(Step(s, calls[0]).value, calls[1..], first);
    }
  }

  // --- releases and incarnations, row by row --------------------------------

  /** Row `i` lies in epoch `e` and carries what the plan says of it. */
  ghost predicate RowOf(s: State, i: nat, e: nat)
    requires i < |s.native|
  {
    var v := s.native[i].reading;
    && InNativeEpoch(Epochs(s.output), |s.native|, e, i) && s.native[i].ns < s.duration
    && v.version == (if e == 0 then 1 else 2) && v.incarnation == (if e == 4 then 2 else 1)
  }

  ghost predicate Stands(s: State) {
    && Inv(s) && Finished(s) && Planned(Epochs(s.output))
    && Epochs(s.output)[0].server == 1 && Epochs(s.output)[0].sampler == 1
  }

  lemma {:induction false} RowEpochIs(s: State, i: nat) returns (e: nat)
    requires Stands(s) && i < |s.native|
    ensures RowOf(s, i, e)
  {
    e := NativeEpochOf(Epochs(s.output), s.duration, |s.native|, i);
    assert NativeInEpoch(s.native[i], Epochs(s.output), e, i, s.duration);
    PlannedOwners(Epochs(s.output), s.duration, e);
  }

  /** The first row is of the first epoch, the last of the last. */
  lemma {:induction false} Ends(s: State)
    requires Stands(s)
    ensures |s.native| > 0 && RowOf(s, 0, 0) && RowOf(s, |s.native| - 1, 4)
  {
    var epochs, n := Epochs(s.output), |s.native|;
    var a := RowEpochIs(s, 0);
    var b := RowEpochIs(s, n - 1);
    NativeCutsAscend(epochs, s.duration, 0, a);
    if b < 4 {
      NativeCutsAscend(epochs, s.duration, b + 1, 4);
    }
  }

  lemma {:induction false} EpochsAscend(s: State, i: nat, a: nat, b: nat)
    requires Stands(s) && 0 < i < |s.native| && RowOf(s, i - 1, a) && RowOf(s, i, b)
    ensures a <= b
  {
    if b < a {
      NativeCutsAscend(Epochs(s.output), s.duration, b + 1, a);
    }
  }

  /** Releases, incarnations and, in one projection, the cursors never fall. */
  lemma {:induction false} FloorsHold(s: State, i: nat)
    requires Stands(s) && 0 < i < |s.native| && s.native[i - 1].reading.identity == s.native[i].reading.identity
    ensures P.NativeFloors(s.native[i].reading, s.native[i - 1].reading) && s.native[i - 1].ns < s.native[i].ns
  {
    var a := RowEpochIs(s, i - 1);
    var b := RowEpochIs(s, i);
    EpochsAscend(s, i, a, b);
    assert NativeStep(s.native[i - 1], s.native[i]);
  }

  // --- the verdict ----------------------------------------------------------

  /** No two native rows, nor the last and the end, are further apart than the gap. */
  ghost predicate NeverSilent(rows: seq<NativeRow>, duration: nat) {
    |rows| > 0 && Dense(P.NativeInstants(rows), GAP) && duration - rows[|rows| - 1].ns <= GAP
  }

  ghost predicate OneProjection(rows: seq<NativeRow>, projection: Identity) {
    forall i :: 0 <= i < |rows| ==> rows[i].reading.identity == projection
  }

  /** The row follows the one before, or the beginning, within the gap. */
  ghost predicate Timely(rows: seq<NativeRow>, i: nat)
    requires i < |rows|
  {
    rows[i].ns - (if i == 0 then 0 else rows[i - 1].ns) <= GAP
  }

  lemma {:induction false} DenseIsTimely(rows: seq<NativeRow>)
    ensures Dense(P.NativeInstants(rows), GAP) <==> forall i :: 0 <= i < |rows| ==> Timely(rows, i)
  {
    var ts := P.NativeInstants(rows);
    if forall i :: 0 <= i < |rows| ==> Timely(rows, i) {
      forall i | 0 < i < |ts|
        ensures ts[i] - ts[i - 1] <= GAP
      {
        assert Timely(rows, i);
      }
      assert |rows| > 0 ==> Timely(rows, 0);
    }
  }

  lemma {:induction false} RowAccepted(s: State, first: Identity, projection: Identity, i: nat)
    requires Stands(s) && Traced(s, first) && i < |s.native| && U64(s.duration)
    requires OneProjection(s.native, projection)
    ensures P.NativeRowOk(s.native, i, s.duration, projection) <==> Timely(s.native, i)
  {
    var e := RowEpochIs(s, i);
    assert Lived(s.native, i);
    if i > 0 {
      FloorsHold(s, i);
    }
  }

  lemma {:induction false} RowsAccepted(s: State, first: Identity, projection: Identity)
    requires Stands(s) && Traced(s, first) && U64(s.duration) && OneProjection(s.native, projection)
    ensures forall i ::
              0 <= i < |s.native|
              ==> (P.NativeRowOk(s.native, i, s.duration, projection) <==> Timely(s.native, i))
  {
    forall i | 0 <= i < |s.native|
      ensures P.NativeRowOk(s.native, i, s.duration, projection) <==> Timely(s.native, i)
    {
      RowAccepted(s, first, projection, i);
    }
  }

  /** One projection throughout is the one begun with and deployed again. */
  lemma {:induction false} ProjectionIff(s: State, first: Identity, projection: Identity)
    requires Stands(s) && Traced(s, first)
    ensures OneProjection(s.native, projection) <==> first == projection && s.identity == projection
  {
    Ends(s);
    assert Named(s, first, 0) && Named(s, first, |s.native| - 1);
    if first == projection && s.identity == projection {
      forall i | 0 <= i < |s.native|
        ensures s.native[i].reading.identity == projection
      {
        assert Named(s, first, i);
      }
    }
  }

  lemma {:induction false} NativeVerdict(s: State, first: Identity, projection: Identity, durationS: nat)
    requires Stands(s) && Traced(s, first) && s.duration == durationS * SECOND && CampaignDuration(durationS)
    ensures P.NativeOk(s.native, durationS, projection)
            <==> && |s.native| <= 4096 && NeverSilent(s.native, durationS * SECOND)
                 && first == projection && s.identity == projection
  {
    Ends(s);
    ProjectionIff(s, first, projection);
    DenseIsTimely(s.native);
    if OneProjection(s.native, projection) {
      RowsAccepted(s, first, projection);
    } else {
      var i :| 0 <= i < |s.native| && s.native[i].reading.identity != projection;
      assert !P.NativeRowOk(s.native, i, s.duration, projection);
    }
  }

  /**
   * The native rows of any unfailed run that finished on the planned epochs pass the
   * progress reconciler exactly when they are few enough, never silent for longer than the
   * gap, and the deployment kept the projection asked for.
   */
  lemma {:induction false} NativesAccepted(durationS: nat, first: Identity, owners: Owners, calls: seq<Call>,
                                           projection: Identity)
    requires CampaignDuration(durationS) && owners.serverCount == 1 && owners.samplerCount == 1
    requires var run := Run(InitialState(durationS, first, owners), calls);
             run.Some? && run.value.complete && Planned(Epochs(run.value.output))
    ensures var s := Run(InitialState(durationS, first, owners), calls).value;
            P.NativeOk(s.native, durationS, projection)
            <==> && |s.native| <= 4096 && NeverSilent(s.native, durationS * SECOND)
                 && first == projection && s.identity == projection
  {
    var start := InitialState(durationS, first, owners);
    var s := Run(start, calls).value;
    InitialInv(durationS, first, owners);
    RunInv(start, calls);
    RunKeeps(start, calls);
    FirstEpoch(start.output, s.output);
    RunTraced(start, calls, first);
    NativeVerdict(s, first, projection, durationS);
  }

  // --- runs on both sides ---------------------------------------------------

  lemma {:induction false} BeatsDense(s: State, w: World, m: nat)
    requires NativeBeat(s, w, m) && m > 0
    ensures Dense(P.NativeInstants(s.native), GAP) && s.native[m - 1].ns == m * BEAT
  {
  }

  /** For every campaign length some run finishes that the epoch checkers and this one accept. */
  lemma {:induction false} SteadyRunAccepted(durationS: nat) returns (calls: seq<Call>)
    requires CampaignDuration(durationS)
    ensures Finishes(durationS, calls) && BothAccept(durationS, calls)
    ensures P.NativeOk(Run(Start(durationS), calls).value.native, durationS, PROJECTION)
  {
    EpochRuns.Counted(durationS);
    calls := AcceptedRun(durationS, PROJECTION);
    BeatsDense(Run(Start(durationS), calls).value, World(durationS * SECOND, PROJECTION), Count(durationS));
    NativesAccepted(durationS, PROJECTION, OWNERS, calls, PROJECTION);
  }

  /** A sampler silent at the end: the epoch checkers accept, this one refuses for that alone. */
  lemma {:induction false} SilentRunRefused(durationS: nat) returns (calls: seq<Call>)
    requires CampaignDuration(durationS)
    ensures Finishes(durationS, calls) && BothAccept(durationS, calls)
    ensures var s := Run(Start(durationS), calls).value;
            && !P.NativeOk(s.native, durationS, PROJECTION) && |s.native| <= 4096 && s.identity == PROJECTION
            && Dense(P.NativeInstants(s.native), GAP)
  {
    EpochRuns.Counted(durationS);
    calls := SilentSampler(durationS);
    BeatsDense(Run(Start(durationS), calls).value, World(durationS * SECOND, PROJECTION), Count(durationS) - 2);
    NativesAccepted(durationS, PROJECTION, OWNERS, calls, PROJECTION);
  }

  /** A deployment that brings another projection: the epoch checkers accept, this one refuses every identity. */
  lemma {:induction false} RenamedRunRefused(durationS: nat, deployed: Identity) returns (calls: seq<Call>)
    requires CampaignDuration(durationS) && U64(deployed.projectionId) && deployed != PROJECTION
    ensures Finishes(durationS, calls) && BothAccept(durationS, calls)
    ensures var s := Run(Start(durationS), calls).value;
            && |s.native| <= 4096 && NeverSilent(s.native, durationS * SECOND)
            && forall projection :: !P.NativeOk(s.native, durationS, projection)
  {
    EpochRuns.Counted(durationS);
    calls := AcceptedRun(durationS, deployed);
    var s := Run(Start(durationS), calls).value;
    BeatsDense(s, World(durationS * SECOND, deployed), Count(durationS));
    forall projection
      ensures !P.NativeOk(s.native, durationS, projection)
    {
      NativesAccepted(durationS, PROJECTION, OWNERS, calls, projection);
    }
  }
}
