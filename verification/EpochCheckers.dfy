/**
 * The offline join of epoch rows, native rows and component rows: the checkers'
 * loops, each proved to accept exactly what its declarative specification describes.
 */
module EpochCheckers {
  import opened Prelude
  import opened Windows
  import opened LogTail
  import opened NativeSampler
  import opened EpochModel
  import opened EpochHistory
  import opened EpochInvariant

  // --- the mixed stream ----------------------------------------------------

  datatype Tag = TransitionTag(kind: Kind) | BoundTag | RetiredTag

  function TagOf(row: EpochRow): Tag {
    match row
    case Transition(kind, _, _, _, _, _, _, _, _, _, _) => TransitionTag(kind)
    case BoundLog(_, _, _, _, _) => BoundTag
    case RetiredLog(_, _, _, _, _, _) => RetiredTag
  }

  const SEQUENCE: seq<(Tag, nat)> := [
    (TransitionTag(Initial), 0), (BoundTag, 0), (TransitionTag(Deploy), 1),
    (RetiredTag, 1), (TransitionTag(Restart), 2), (BoundTag, 2),
    (RetiredTag, 2), (TransitionTag(Kill), 3), (BoundTag, 3),
    (RetiredTag, 3), (TransitionTag(Restore), 4), (BoundTag, 4)]

  const KINDS: seq<Kind> := [Initial, Deploy, Restart, Kill, Restore]

  predicate Numbers(row: EpochRow) {
    && U64(row.ns) && U64(row.server) && U64(row.sampler)
    && (row.Transition? ==>
        U64(row.version) && U64(row.incarnation) && U64(row.native) && U64(row.attempts) && U64(row.peak))
    && (row.BoundLog? ==> U64(row.excluded))
    && (row.RetiredLog? ==> U64(row.bytes) && U64(row.partialBytes))
  }

  /** What the latest binding before this point excluded. */
  function LastExcluded(records: seq<EpochRow>): nat {
    if |records| == 0 then 0
    else if records[|records| - 1].BoundLog? then records[|records| - 1].excluded
    else LastExcluded(records[..|records| - 1])
  }

  predicate RecordAccepted(records: seq<EpochRow>, i: nat)
    requires i < |records| == |SEQUENCE|
  {
    var row := records[i];
    && TagOf(row) == SEQUENCE[i].0 && row.epoch == SEQUENCE[i].1 && Numbers(row)
    && (i > 0 ==> records[i - 1].ns <= row.ns)
    && row.server == Max(1, row.epoch) && row.sampler == row.epoch + 1
    && (row.BoundLog? ==> row.excluded <= MAX_LOG_BYTES && (row.epoch == 0 || row.excluded == 0))
    && (row.RetiredLog? ==> && LastExcluded(records[..i]) <= row.bytes
                            && RetiredBytes(records[..i + 1]) <= MAX_LOG_BYTES
                            && row.partialBytes <= Min(MAX_LINE, row.bytes)
                            && (row.epoch == 2 || row.partialBytes == 0))
  }

  ghost predicate TransitionsAccepted(records: seq<EpochRow>) {
    |records| == |SEQUENCE| && forall i :: 0 <= i < |records| ==> RecordAccepted(records, i)
  }

  method CheckTransitions(records: seq<EpochRow>) returns (r: Option<seq<EpochRow>>)
    ensures r.Some? <==> TransitionsAccepted(records)
    ensures r.Some? ==> r.value == Epochs(records)
  {
    if |records| != |SEQUENCE| {
      return None;
    }
    var transitions: seq<EpochRow> := [];
    var lastNs, excluded, total := 0, 0, 0;
    for i := 0 to |records|
      invariant forall j :: 0 <= j < i ==> RecordAccepted(records, j)
      invariant transitions == Epochs(records[..i])
      invariant lastNs == (if i == 0 then 0 else records[i - 1].ns)
      invariant excluded == LastExcluded(records[..i]) && total == RetiredBytes(records[..i])
    {
      assert records[..i + 1][..i] == records[..i];
      var row := records[i];
      if && TagOf(row) == SEQUENCE[i].0 && row.epoch == SEQUENCE[i].1 && Numbers(row)
         && row.ns >= lastNs && row.server == Max(1, row.epoch) && row.sampler == row.epoch + 1
      {
      } else {
        assert !RecordAccepted(records, i);
        return None;
      }
      lastNs := row.ns;
      if row.BoundLog? {
        excluded := row.excluded;
        if !(excluded <= MAX_LOG_BYTES && (row.epoch == 0 || excluded == 0)) {
          assert !RecordAccepted(records, i);
          return None;
        }
      } else if row.RetiredLog? {
        total := total + row.bytes;
        if !(excluded <= row.bytes && total <= MAX_LOG_BYTES && row.partialBytes <= Min(MAX_LINE, row.bytes)
             && (row.epoch == 2 || row.partialBytes == 0)) {
          assert !RecordAccepted(records, i);
          return None;
        }
      } else {
        transitions := transitions + [row];
      }
    }
    assert records[..|records|] == records;
    return Some(transitions);
  }

  // --- transitions ---------------------------------------------------------

  predicate EpochAccepted(epochs: seq<EpochRow>, i: nat, durationS: nat, nativeCount: nat, providerRows: nat)
    requires i < |epochs| == |KINDS|
  {
    var row := epochs[i];
    && row.Transition? && row.kind == KINDS[i] && Numbers(row)
    && row.epoch == i && row.sampler == i + 1 && row.server == Max(1, i)
    && row.version == (if i == 0 then 1 else 2) && row.incarnation == (if i == 4 then 2 else 1)
    && (forall c: Component :: U64(row.samples.Of(c)))
    && row.ns < durationS * SECOND && row.native < nativeCount && row.samples.Of(Provider) < providerRows
    && (if i == 0
        then && row.ns == 0 && row.native == 0 && row.attempts == 0 && row.peak == 0
             && (forall c: Component :: row.samples.Of(c) == 0)
        else && epochs[i - 1].Transition?
             && epochs[i - 1].ns < row.ns && epochs[i - 1].native < row.native && epochs[i - 1].attempts < row.attempts
             && (forall c: Component :: epochs[i - 1].samples.Of(c) < row.samples.Of(c))
             && epochs[i - 1].peak <= row.peak)
  }

  ghost predicate EpochsAccepted(epochs: seq<EpochRow>, durationS: nat, nativeCount: nat, providerRows: nat) {
    && |epochs| == |KINDS|
    && forall i :: 0 <= i < |epochs| ==> EpochAccepted(epochs, i, durationS, nativeCount, providerRows)
  }

  /** The five declared epochs, with a new server exactly where one was replaced. */
  ghost predicate PlannedKinds(epochs: seq<EpochRow>) {
    && |epochs| == |KINDS| && (forall e :: 0 <= e < |epochs| ==> epochs[e].Transition? && epochs[e].kind == KINDS[e])
    && forall e :: 0 < e < |epochs| ==> (epochs[e].server != epochs[e - 1].server <==> epochs[e].kind != Deploy)
  }

  /** Accepted transitions are an orderly epoch history. */
  lemma {:induction false} AcceptedEpochsOk(epochs: seq<EpochRow>, durationS: nat, nativeCount: nat, providerRows: nat)
    requires EpochsAccepted(epochs, durationS, nativeCount, providerRows)
    ensures EpochsOk(epochs, durationS * SECOND) && PlannedKinds(epochs)
  {
    forall e | 0 <= e < |epochs|
      ensures EpochRowOk(epochs[e], e, durationS * SECOND) && epochs[e].kind == KINDS[e]
    {
      assert EpochAccepted(epochs, e, durationS, nativeCount, providerRows);
    }
    forall e | 0 < e < |epochs|
      ensures EpochStepOk(epochs[e - 1], epochs[e])
      ensures epochs[e].server != epochs[e - 1].server <==> epochs[e].kind != Deploy
    {
      assert EpochAccepted(epochs, e - 1, durationS, nativeCount, providerRows);
      assert EpochAccepted(epochs, e, durationS, nativeCount, providerRows);
    }
    assert EpochAccepted(epochs, 0, durationS, nativeCount, providerRows);
  }

  // --- component rows ------------------------------------------------------

  ghost predicate RowGood(c: Component, rows: seq<Row>, epochs: seq<EpochRow>, duration: nat, e: nat, i: nat)
    requires InEpoch(epochs, c, |rows|, e, i)
  {
    RowInEpoch(c, rows[i], epochs, e, duration) && (i > 0 ==> RowStep(c, rows, epochs, e, i))
  }

  lemma {:induction false} EpochUnique(epochs: seq<EpochRow>, c: Component, duration: nat, n: nat, i: nat, a: nat,
                                       b: nat)
    requires EpochsOk(epochs, duration) && InEpoch(epochs, c, n, a, i) && InEpoch(epochs, c, n, b, i)
    ensures a == b
  {
    if a < b {
      CutsAscend(epochs, c, duration, a + 1, b);
    } else if b < a {
      CutsAscend(epochs, c, duration, b + 1, a);
    }
  }

  /** Rows checked one by one, each in its own epoch, make up an acceptable history. */
  lemma {:induction false} HistoryFromRows(c: Component, rows: seq<Row>, epochs: seq<EpochRow>, duration: nat,
                                           owner: seq<nat>)
    requires EpochsOk(epochs, duration) && |owner| == |rows|
    requires forall j :: 0 <= j < |rows| ==>
              InEpoch(epochs, c, |rows|, owner[j], j) && RowGood(c, rows, epochs, duration, owner[j], j)
    ensures HistoryOk(c, rows, epochs, duration)
  {
    forall e, i | InEpoch(epochs, c, |rows|, e, i)
      ensures RowGood(c, rows, epochs, duration, e, i)
    {
      EpochUnique(epochs, c, duration, |rows|, i, e, owner[i]);
    }
  }

  ghost predicate HistoryAccepted(c: Component, rows: seq<Row>, epochs: seq<EpochRow>, durationS: nat)
    requires |epochs| == |KINDS| && epochs[4].Transition?
  {
    && 0 < |rows| <= MAX_COMPONENT_ROWS && epochs[4].samples.Of(c) < |rows|
    && HistoryOk(c, rows, epochs, durationS * SECOND)
  }

  /** Advance to the epoch of row `i`, which is at most the next one. */
  lemma {:induction false} NextOwner(epochs: seq<EpochRow>, c: Component, duration: nat, n: nat, i: nat, e: nat,
                                     next: nat)
    requires EpochsOk(epochs, duration) && i < n && e < |epochs| && epochs[e].samples.Of(c) <= i
    requires e + 1 < |epochs| ==> i <= epochs[e + 1].samples.Of(c)
    requires next == if e + 1 < |epochs| && i == epochs[e + 1].samples.Of(c) then e + 1 else e
    ensures InEpoch(epochs, c, n, next, i)
  {
    if next + 1 < |epochs| {
      CutsAscend(epochs, c, duration, e, next + 1);
    }
  }

  /** Rows checked so far, with the epoch each was found in. */
  ghost predicate Checked(c: Component, rows: seq<Row>, epochs: seq<EpochRow>, duration: nat, owner: seq<nat>) {
    && |owner| <= |rows|
    && forall j :: 0 <= j < |owner| ==>
        InEpoch(epochs, c, |rows|, owner[j], j) && RowGood(c, rows, epochs, duration, owner[j], j)
  }

  /** Where the loop stands before row `i`: in the epoch of the row before. */
  ghost predicate Standing(c: Component, epochs: seq<EpochRow>, e: nat, i: nat)
    requires |epochs| == 5 && forall k :: 0 <= k < 5 ==> epochs[k].Transition?
  {
    && e <= 4 && epochs[e].samples.Of(c) <= i && (i == 0 ==> e == 0) && (i > 0 ==> epochs[e].samples.Of(c) < i)
    && (e < 4 ==> i <= epochs[e + 1].samples.Of(c))
  }

  /** What the loop requires of row `i` once its epoch, floor and prior reading are known. */
  predicate RowHolds(c: Component, rows: seq<Row>, epochs: seq<EpochRow>, duration: nat, e: nat, i: nat,
                     floor: set<Field>, floored: Option<Reading>, prior: Option<Reading>)
    requires i < |rows| && e < |epochs| == 5 && epochs[e].Transition?
  {
    var value := rows[i].reading;
    && ReadingBounded(c, value)
    && epochs[e].ns <= rows[i].ns < duration
    && (e == 4 || rows[i].ns <= epochs[e + 1].ns)
    && value.incarnation == epochs[e].incarnation
    && (i > 0 ==> rows[i].ns > rows[i - 1].ns)
    && (floored.Some? ==> NoLower(floored.value, value, floor))
    && (prior.Some? ==> NoLower(prior.value, value, {Root} + Durable(c)))
  }

  /** The loop's verdict on one row is the specification's. */
  lemma {:induction false} RowVerdict(c: Component, rows: seq<Row>, epochs: seq<EpochRow>, duration: nat, e: nat,
                                      i: nat, floor: set<Field>, floored: Option<Reading>, prior: Option<Reading>)
    requires c != Provider && |epochs| == 5 && InEpoch(epochs, c, |rows|, e, i) && epochs[e].kind == KINDS[e]
    requires i == 0 ==> floored.None? && prior.None?
    requires i > 0 && (i > epochs[e].samples.Of(c) || epochs[e].kind == Deploy) ==>
               floored.None? && prior == Some(rows[i - 1].reading)
    requires i > 0 && i == epochs[e].samples.Of(c) && epochs[e].kind != Deploy ==>
               prior.None? && floored == Some(rows[i - 1].reading)
               && floor == if e == 4 then (if c == Logical then {Head} else {}) else Durable(c)
    ensures RowHolds(c, rows, epochs, duration, e, i, floor, floored, prior)
            <==> RowGood(c, rows, epochs, duration, e, i)
  {
    assert {Root} + Durable(c) == Continuity(c);
  }

  /** One row: enter the next epoch at its cut, carry the floors over a replaced server, then compare. */
  method CheckRow(c: Component, rows: seq<Row>, epochs: seq<EpochRow>, duration: nat, i: nat, from: nat)
    returns (good: bool, epoch: nat)
    requires c != Provider && EpochsOk(epochs, duration) && PlannedKinds(epochs) && i < |rows|
             && Standing(c, epochs, from, i)
    ensures InEpoch(epochs, c, |rows|, epoch, i) && Standing(c, epochs, epoch, i + 1)
    ensures good <==> RowGood(c, rows, epochs, duration, epoch, i)
  {
    var prior := if i == 0 then None else Some(rows[i - 1].reading);
    var floor: set<Field>, floored: Option<Reading> := {}, None;
    epoch := from;
    if epoch < 4 && i == epochs[epoch + 1].samples.Of(c) {
      epoch := epoch + 1;
      if epochs[epoch].server != epochs[epoch - 1].server {
        floor := if epoch == 4 then (if c == Logical then {Head} else {}) else Durable(c);
        floored, prior := prior, None;
      }
    }
    NextOwner(epochs, c, duration, |rows|, i, from, epoch);
    RowVerdict(c, rows, epochs, duration, epoch, i, floor, floored, prior);
    good := RowHolds(c, rows, epochs, duration, epoch, i, floor, floored, prior);
  }

  /** One history component's rows against the transitions, cuts, floors and clock. */
  method CheckHistory(c: Component, rows: seq<Row>, epochs: seq<EpochRow>, durationS: nat) returns (ok: bool)
    requires c != Provider && EpochsOk(epochs, durationS * SECOND) && PlannedKinds(epochs)
    ensures ok <==> HistoryAccepted(c, rows, epochs, durationS)
  {
    if !(0 < |rows| <= MAX_COMPONENT_ROWS) || epochs[4].samples.Of(c) >= |rows| {
      return false;
    }
    var epoch := 0;
    ghost var owner: seq<nat> := [];
    for i := 0 to |rows|
      invariant Standing(c, epochs, epoch, i)
      invariant |owner| == i && Checked(c, rows, epochs, durationS * SECOND, owner)
    {
      var good, next := CheckRow(c, rows, epochs, durationS * SECOND, i, epoch);
      if !good {
        return false;
      }
      epoch, owner := next, owner + [next];
    }
    HistoryFromRows(c, rows, epochs, durationS * SECOND, owner);
    return true;
  }

  // --- provider rows -------------------------------------------------------

  ghost predicate ProviderAccepted(rows: seq<Row>, epochs: seq<EpochRow>, durationS: nat, nativeCount: nat) {
    && CampaignDuration(durationS) && 0 < |rows| <= MAX_COMPONENT_ROWS
    && EpochsAccepted(epochs, durationS, nativeCount, |rows|)
    && HistoryOk(Provider, rows, epochs, durationS * SECOND)
    && Dense(Instants(rows), GAP) && PeaksOk(rows, epochs)
    && Covered(Instants(rows), durationS / 300)
    && durationS * SECOND - rows[|rows| - 1].ns <= GAP
  }

  /** What the loop requires of row `i` once its epoch and prior reading are known. */
  predicate ProviderRowHolds(rows: seq<Row>, epochs: seq<EpochRow>, duration: nat, e: nat, i: nat,
                             prior: Option<Reading>)
    requires i < |rows| && e < |epochs| == 5
  {
    var value, elapsed := rows[i].reading, rows[i].ns;
    && ReadingBounded(Provider, value) && elapsed < duration && (i == 0 || elapsed > rows[i - 1].ns)
    && elapsed >= epochs[e].ns && (e == 4 || elapsed <= epochs[e + 1].ns)
    && (prior.Some? ==> NoLower(prior.value, value, {ReleasedAllocations, ReleasedOwners}))
  }

  /** The loop's verdict on one provider row is the specification's. */
  lemma {:induction false} ProviderVerdict(rows: seq<Row>, epochs: seq<EpochRow>, duration: nat, e: nat, i: nat,
                                           prior: Option<Reading>)
    requires |epochs| == 5 && InEpoch(epochs, Provider, |rows|, e, i) && epochs[e].kind == KINDS[e]
    requires i == 0 ==> prior.None?
    requires i > 0 && (i > epochs[e].samples.Of(Provider) || epochs[e].kind == Deploy)
             ==> prior == Some(rows[i - 1].reading)
    requires i > 0 && i == epochs[e].samples.Of(Provider) && epochs[e].kind != Deploy ==> prior.None?
    ensures ProviderRowHolds(rows, epochs, duration, e, i, prior) <==> RowGood(Provider, rows, epochs, duration, e, i)
  {
  }

  method CheckProviderRow(rows: seq<Row>, epochs: seq<EpochRow>, duration: nat, i: nat, from: nat, peak: nat)
    returns (good: bool, epoch: nat)
    requires EpochsOk(epochs, duration) && PlannedKinds(epochs) && i < |rows| && Standing(Provider, epochs, from, i)
    ensures InEpoch(epochs, Provider, |rows|, epoch, i) && Standing(Provider, epochs, epoch, i + 1)
    ensures from <= epoch <= from + 1 && (epoch > from ==> epochs[epoch].samples.Of(Provider) == i)
    ensures good <==> && RowGood(Provider, rows, epochs, duration, epoch, i)
                      && rows[i].ns - (if i == 0 then 0 else rows[i - 1].ns) <= GAP
                      && (epoch > from ==> epochs[epoch].peak == peak)
  {
    var prior := if i == 0 then None else Some(rows[i - 1].reading);
    good := rows[i].ns - (if i == 0 then 0 else rows[i - 1].ns) <= GAP;
    epoch := from;
    if epoch < 4 && i == epochs[epoch + 1].samples.Of(Provider) {
      epoch := epoch + 1;
      good := good && epochs[epoch].peak == peak;
      if epochs[epoch].server != epochs[epoch - 1].server {
        prior := None;
      }
    }
    NextOwner(epochs, Provider, duration, |rows|, i, from, epoch);
    ProviderVerdict(rows, epochs, duration, epoch, i, prior);
    good := good && ProviderRowHolds(rows, epochs, duration, epoch, i, prior);
  }

  ghost predicate PeaksUpTo(rows: seq<Row>, epochs: seq<EpochRow>, e: nat) {
    forall d :: 0 <= d <= e < |epochs| ==>
      && epochs[d].Transition? && epochs[d].samples.Of(Provider) <= |rows|
      && epochs[d].peak == PeakOf(rows[..epochs[d].samples.Of(Provider)])
  }

  /** Running peak, peaks at the cuts passed, and the gaps so far. */
  ghost predicate ProviderTotals(rows: seq<Row>, epochs: seq<EpochRow>, i: nat, e: nat, peak: nat) {
    && i <= |rows| && peak == PeakOf(rows[..i]) && PeaksUpTo(rows, epochs, e) && Dense(Instants(rows[..i]), GAP)
  }

  /** Everything the provider loop knows before row `i`, but for the window counters. */
  ghost predicate ProviderSoFar(rows: seq<Row>, epochs: seq<EpochRow>, duration: nat, i: nat, e: nat, peak: nat,
                                owner: seq<nat>)
    requires |epochs| == 5 && forall k :: 0 <= k < 5 ==> epochs[k].Transition?
  {
    && Standing(Provider, epochs, e, i) && |owner| == i && Checked(Provider, rows, epochs, duration, owner)
    && ProviderTotals(rows, epochs, i, e, peak)
  }

  /** The window counters count the instants seen. */
  ghost predicate Counted(rows: seq<Row>, i: nat, coverage: seq<nat>, n: nat) {
    i <= |rows| && |coverage| == n && forall k :: 0 <= k < n ==> coverage[k] == Hits(Instants(rows[..i]), k, n)
  }

  lemma {:induction false} ProviderStart(rows: seq<Row>, epochs: seq<EpochRow>, duration: nat, coverage: seq<nat>,
                                         n: nat, owner: seq<nat>)
    requires EpochsOk(epochs, duration) && PlannedKinds(epochs) && |owner| == 0
    requires |coverage| == n && forall k :: 0 <= k < n ==> coverage[k] == 0
    ensures ProviderSoFar(rows, epochs, duration, 0, 0, 0, owner) && Counted(rows, 0, coverage, n)
  {
  }

  lemma {:induction false} InstantsStep(rows: seq<Row>, i: nat)
    requires i < |rows|
    ensures Instants(rows[..i + 1])[..i] == Instants(rows[..i])
    ensures Dense(Instants(rows[..i]), GAP) && rows[i].ns - (if i == 0 then 0 else rows[i - 1].ns) <= GAP
            ==> Dense(Instants(rows[..i + 1]), GAP)
  {
  }

  lemma {:induction false} ProviderTotalsStep(rows: seq<Row>, epochs: seq<EpochRow>, i: nat, e: nat, next: nat,
                                              peak: nat)
    requires i < |rows| && ProviderTotals(rows, epochs, i, e, peak) && e <= next <= e + 1 && next < |epochs|
    requires next > e ==>
              epochs[next].Transition? && epochs[next].samples.Of(Provider) == i && epochs[next].peak == peak
    requires rows[i].ns - (if i == 0 then 0 else rows[i - 1].ns) <= GAP
    ensures ProviderTotals(rows, epochs, i + 1, next, Max(peak, rows[i].reading.charged))
  {
    assert rows[..i + 1][..i] == rows[..i];
    InstantsStep(rows, i);
  }

  lemma {:induction false} ProviderOn(rows: seq<Row>, epochs: seq<EpochRow>, duration: nat, i: nat, e: nat, next: nat,
                                      peak: nat, owner: seq<nat>)
    requires PlannedKinds(epochs) && i < |rows| && ProviderSoFar(rows, epochs, duration, i, e, peak, owner)
    requires InEpoch(epochs, Provider, |rows|, next, i) && Standing(Provider, epochs, next, i + 1)
    requires RowGood(Provider, rows, epochs, duration, next, i)
             && rows[i].ns - (if i == 0 then 0 else rows[i - 1].ns) <= GAP
    requires e <= next <= e + 1 && (next > e ==> epochs[next].samples.Of(Provider) == i && epochs[next].peak == peak)
    ensures ProviderSoFar(rows, epochs, duration, i + 1, next, Max(peak, rows[i].reading.charged), owner + [next])
  {
    ProviderTotalsStep(rows, epochs, i, e, next, peak);
  }

  lemma {:induction false} LastEpochReached(c: Component, epochs: seq<EpochRow>, duration: nat, n: nat, e: nat)
    requires EpochsOk(epochs, duration) && PlannedKinds(epochs) && Standing(c, epochs, e, n)
             && epochs[4].samples.Of(c) < n
    ensures e == 4
  {
    if e < 4 {
      CutsAscend(epochs, c, duration, e + 1, 4);
    }
  }

  lemma {:induction false} ProviderTotalsEnd(rows: seq<Row>, epochs: seq<EpochRow>, duration: nat, e: nat, peak: nat,
                                             coverage: seq<nat>, n: nat)
    requires EpochsOk(epochs, duration) && PlannedKinds(epochs) && Standing(Provider, epochs, e, |rows|)
    requires epochs[4].samples.Of(Provider) < |rows| && ProviderTotals(rows, epochs, |rows|, e, peak)
             && Counted(rows, |rows|, coverage, n)
    ensures e == 4 && PeaksOk(rows, epochs) && peak == PeakOf(rows) && Dense(Instants(rows), GAP)
    ensures (forall k :: 0 <= k < n ==> coverage[k] > 0) <==> Covered(Instants(rows), n)
  {
    assert rows[..|rows|] == rows;
    LastEpochReached(Provider, epochs, duration, |rows|, e);
  }

  lemma {:induction false} CountedStep(rows: seq<Row>, i: nat, coverage: seq<nat>, n: nat)
    requires i < |rows| && Counted(rows, i, coverage, n) && rows[i].ns / WINDOW < n
    ensures Counted(rows, i + 1, coverage[rows[i].ns / WINDOW := coverage[rows[i].ns / WINDOW] + 1], n)
  {
    InstantsStep(rows, i);
  }

  lemma {:induction false} ProviderRowRefused(rows: seq<Row>, epochs: seq<EpochRow>, duration: nat, i: nat, from: nat,
                                              e: nat, peak: nat)
    requires i < |rows| && InEpoch(epochs, Provider, |rows|, e, i) && peak == PeakOf(rows[..i])
    requires e > from ==> epochs[e].samples.Of(Provider) == i
    requires || !RowGood(Provider, rows, epochs, duration, e, i)
             || rows[i].ns - (if i == 0 then 0 else rows[i - 1].ns) > GAP
             || (e > from && epochs[e].peak != peak)
    ensures !(HistoryOk(Provider, rows, epochs, duration) && Dense(Instants(rows), GAP) && PeaksOk(rows, epochs))
  {
  }

  /** The provider rows once the transitions are accepted. */
  method CheckProviderRows(rows: seq<Row>, epochs: seq<EpochRow>, durationS: nat) returns (ok: bool, peak: nat)
    requires CampaignDuration(durationS) && EpochsOk(epochs, durationS * SECOND) && PlannedKinds(epochs)
    requires rows != [] && epochs[4].samples.Of(Provider) < |rows|
    ensures ok <==> && HistoryOk(Provider, rows, epochs, durationS * SECOND)
                    && Dense(Instants(rows), GAP) && PeaksOk(rows, epochs)
                    && Covered(Instants(rows), durationS / 300)
                    && durationS * SECOND - rows[|rows| - 1].ns <= GAP
    ensures ok ==> peak == PeakOf(rows)
  {
    var duration := durationS * SECOND;
    var n := durationS / 300;
    var epoch := 0;
    var coverage: seq<nat> := seq(n, _ => 0);
    ghost var owner: seq<nat> := [];
    peak := 0;
    ProviderStart(rows, epochs, duration, coverage, n, owner);
    for i := 0 to |rows|
      invariant ProviderSoFar(rows, epochs, duration, i, epoch, peak, owner)
      invariant Counted(rows, i, coverage, n)
    {
      var good, next := CheckProviderRow(rows, epochs, duration, i, epoch, peak);
      if !good {
        ProviderRowRefused(rows, epochs, duration, i, epoch, next, peak);
        return false, peak;
      }
      assert rows[i].ns / WINDOW < n;
      ProviderOn(rows, epochs, duration, i, epoch, next, peak, owner);
      CountedStep(rows, i, coverage, n);
      coverage := coverage[rows[i].ns / WINDOW := coverage[rows[i].ns / WINDOW] + 1];
      peak := Max(peak, rows[i].reading.charged);
      epoch, owner := next, owner + [next];
    }
    HistoryFromRows(Provider, rows, epochs, duration, owner);
    ProviderTotalsEnd(rows, epochs, duration, epoch, peak, coverage, n);
    ok := epoch == 4 && (forall k :: 0 <= k < n ==> coverage[k] > 0) && duration - rows[|rows| - 1].ns <= GAP;
  }

  method CheckProviderEpochs(rows: seq<Row>, epochs: seq<EpochRow>, durationS: nat, nativeCount: nat)
    returns (ok: bool, peak: nat)
    ensures ok <==> ProviderAccepted(rows, epochs, durationS, nativeCount)
    ensures ok ==> peak == PeakOf(rows)
  {
    peak := 0;
    if !CampaignDuration(durationS) || !(0 < |rows| <= MAX_COMPONENT_ROWS) || |epochs| != |KINDS| {
      return false, peak;
    }
    for i := 0 to |epochs|
      invariant forall j :: 0 <= j < i ==> EpochAccepted(epochs, j, durationS, nativeCount, |rows|)
    {
      if !EpochAccepted(epochs, i, durationS, nativeCount, |rows|) {
        return false, peak;
      }
    }
    AcceptedEpochsOk(epochs, durationS, nativeCount, |rows|);
    assert EpochAccepted(epochs, 4, durationS, nativeCount, |rows|);
    ok, peak := CheckProviderRows(rows, epochs, durationS);
  }

  // --- native rows ---------------------------------------------------------

  ghost predicate NativeAccepted(native: seq<NativeRow>, epochs: seq<EpochRow>, durationS: nat)
    requires |epochs| == |KINDS| && forall e :: 0 <= e < |epochs| ==> epochs[e].Transition?
  {
    && 0 < |native| <= 4096 && epochs[4].native < |native|
    && (forall e, i :: InNativeEpoch(epochs, |native|, e, i) ==> NativeCut(native[i], epochs, e, i, durationS * SECOND))
    && (forall e :: 0 <= e < |epochs| ==> epochs[e].native <= |native|
                                          && epochs[e].attempts == SumAttempts(native[..epochs[e].native]))
  }

  /** All four streams, once the transitions are accepted. */
  ghost predicate CutsAccepted(native: seq<NativeRow>, samples: Per<seq<Row>>, epochs: seq<EpochRow>, durationS: nat)
    requires |epochs| == |KINDS| && forall e :: 0 <= e < |epochs| ==> epochs[e].Transition?
  {
    && NativeAccepted(native, epochs, durationS)
    && (forall c: Component :: c != Provider ==> HistoryAccepted(c, samples.Of(c), epochs, durationS))
  }

  /** Where the native loop stands before row `i`. */
  ghost predicate NativeStanding(epochs: seq<EpochRow>, e: nat, i: nat)
    requires |epochs| == 5 && forall k :: 0 <= k < 5 ==> epochs[k].Transition?
  {
    && e <= 4 && epochs[e].native <= i && (i == 0 ==> e == 0) && (i > 0 ==> epochs[e].native < i)
    && (e < 4 ==> i <= epochs[e + 1].native)
  }

  ghost predicate NativeChecked(native: seq<NativeRow>, epochs: seq<EpochRow>, duration: nat, owner: seq<nat>) {
    && |owner| <= |native|
    && forall j :: 0 <= j < |owner| ==>
        InNativeEpoch(epochs, |native|, owner[j], j) && NativeCut(native[j], epochs, owner[j], j, duration)
  }

  ghost predicate AttemptsUpTo(native: seq<NativeRow>, epochs: seq<EpochRow>, e: nat) {
    forall d :: 0 <= d <= e < |epochs| ==>
      && epochs[d].Transition? && epochs[d].native <= |native|
      && epochs[d].attempts == SumAttempts(native[..epochs[d].native])
  }

  lemma {:induction false} NativeCutsAscend(epochs: seq<EpochRow>, duration: nat, a: nat, b: nat)
    requires EpochsOk(epochs, duration) && a <= b < |epochs|
    ensures epochs[a].native + (b - a) <= epochs[b].native
    decreases b - a
  {
    if a < b {
      assert EpochStepOk(epochs[b - 1], epochs[b]);
      NativeCutsAscend(epochs, duration, a, b - 1);
    }
  }

  lemma {:induction false} NativeFromRows(native: seq<NativeRow>, epochs: seq<EpochRow>, duration: nat, owner: seq<nat>)
    requires EpochsOk(epochs, duration) && |owner| == |native| && NativeChecked(native, epochs, duration, owner)
    ensures forall e, i :: InNativeEpoch(epochs, |native|, e, i) ==> NativeCut(native[i], epochs, e, i, duration)
  {
    forall e, i | InNativeEpoch(epochs, |native|, e, i)
      ensures NativeCut(native[i], epochs, e, i, duration)
    {
      if e < owner[i] {
        NativeCutsAscend(epochs, duration, e + 1, owner[i]);
      } else if owner[i] < e {
        NativeCutsAscend(epochs, duration, owner[i] + 1, e);
      }
    }
  }

  method CheckNativeRow(native: seq<NativeRow>, epochs: seq<EpochRow>, duration: nat, i: nat, from: nat, attempts: nat)
    returns (good: bool, epoch: nat)
    requires EpochsOk(epochs, duration) && PlannedKinds(epochs) && i < |native| && NativeStanding(epochs, from, i)
    ensures InNativeEpoch(epochs, |native|, epoch, i) && NativeStanding(epochs, epoch, i + 1)
    ensures from <= epoch <= from + 1 && (epoch > from ==> epochs[epoch].native == i)
    ensures good <==>
            NativeCut(native[i], epochs, epoch, i, duration)
            && (epochs[epoch].native == i ==> epochs[epoch].attempts == attempts)
  {
    epoch := from;
    if epoch < 4 && i == epochs[epoch + 1].native {
      epoch := epoch + 1;
    }
    if epoch < 4 {
      NativeCutsAscend(epochs, duration, from, epoch + 1);
    }
    good := (i == epochs[epoch].native ==> epochs[epoch].attempts == attempts)
        && NativeCut(native[i], epochs, epoch, i, duration);
  }

  lemma {:induction false} AttemptsStep(native: seq<NativeRow>, epochs: seq<EpochRow>, i: nat, e: nat, next: nat,
                                        attempts: nat)
    requires i < |native| && AttemptsUpTo(native, epochs, e) && e <= next <= e + 1 && next < |epochs|
    requires attempts == SumAttempts(native[..i])
    requires next > e ==> epochs[next].Transition? && epochs[next].native == i && epochs[next].attempts == attempts
    ensures AttemptsUpTo(native, epochs, next)
    ensures SumAttempts(native[..i + 1]) == attempts + native[i].reading.attempts
  {
    assert native[..i + 1][..i] == native[..i];
  }

  lemma {:induction false} NativeRowRefused(native: seq<NativeRow>, epochs: seq<EpochRow>, durationS: nat, i: nat,
                                            e: nat, attempts: nat)
    requires PlannedKinds(epochs) && i < |native| && InNativeEpoch(epochs, |native|, e, i)
             && attempts == SumAttempts(native[..i])
    requires !NativeCut(native[i], epochs, e, i, durationS * SECOND)
             || (epochs[e].native == i && epochs[e].attempts != attempts)
    ensures !NativeAccepted(native, epochs, durationS)
  {
  }

  /** Everything the native loop knows before row `i`. */
  ghost predicate NativeSoFar(native: seq<NativeRow>, epochs: seq<EpochRow>, duration: nat, i: nat, e: nat,
                              attempts: nat, owner: seq<nat>)
  {
    && |epochs| == 5 && (forall k :: 0 <= k < 5 ==> epochs[k].Transition?)
    && i <= |native| && NativeStanding(epochs, e, i) && attempts == SumAttempts(native[..i])
    && |owner| == i && NativeChecked(native, epochs, duration, owner) && AttemptsUpTo(native, epochs, e)
  }

  lemma {:induction false} CheckedOn(native: seq<NativeRow>, epochs: seq<EpochRow>, duration: nat, owner: seq<nat>,
                                     next: nat)
    requires NativeChecked(native, epochs, duration, owner) && |owner| < |native|
    requires InNativeEpoch(epochs, |native|, next, |owner|)
             && NativeCut(native[|owner|], epochs, next, |owner|, duration)
    ensures NativeChecked(native, epochs, duration, owner + [next])
  {
  }

  lemma {:induction false} NativeOn(native: seq<NativeRow>, epochs: seq<EpochRow>, duration: nat, i: nat, e: nat,
                                    next: nat, attempts: nat, owner: seq<nat>)
    requires PlannedKinds(epochs) && i < |native| && NativeSoFar(native, epochs, duration, i, e, attempts, owner)
    requires NativeStanding(epochs, next, i + 1) && InNativeEpoch(epochs, |native|, next, i)
             && NativeCut(native[i], epochs, next, i, duration)
    requires e <= next <= e + 1 && (next > e ==> epochs[next].native == i)
             && (epochs[next].native == i ==> epochs[next].attempts == attempts)
    ensures NativeSoFar(native, epochs, duration, i + 1, next, attempts + native[i].reading.attempts, owner + [next])
  {
    AttemptsStep(native, epochs, i, e, next, attempts);
    CheckedOn(native, epochs, duration, owner, next);
  }

  /** One native row, and what the loop knows after it. */
  method NextNativeRow(native: seq<NativeRow>, epochs: seq<EpochRow>, durationS: nat, i: nat, from: nat, attempts: nat,
                       ghost owner: seq<nat>) returns (good: bool, epoch: nat)
    requires EpochsOk(epochs, durationS * SECOND) && PlannedKinds(epochs) && i < |native|
    requires NativeSoFar(native, epochs, durationS * SECOND, i, from, attempts, owner)
    ensures if good
            then NativeSoFar(native, epochs, durationS * SECOND, i + 1, epoch, attempts + native[i].reading.attempts,
                             owner + [epoch])
            else !NativeAccepted(native, epochs, durationS)
  {
    good, epoch := CheckNativeRow(native, epochs, durationS * SECOND, i, from, attempts);
    if good {
      NativeOn(native, epochs, durationS * SECOND, i, from, epoch, attempts, owner);
    } else {
      NativeRowRefused(native, epochs, durationS, i, epoch, attempts);
    }
  }

  lemma {:induction false} NativeStart(native: seq<NativeRow>, epochs: seq<EpochRow>, duration: nat, zero: nat,
                                       owner: seq<nat>)
    requires EpochsOk(epochs, duration) && PlannedKinds(epochs) && |owner| == 0 && zero == 0
    ensures NativeSoFar(native, epochs, duration, zero, zero, zero, owner)
  {
  }

  lemma {:induction false} NativeEnd(native: seq<NativeRow>, epochs: seq<EpochRow>, duration: nat, e: nat)
    requires EpochsOk(epochs, duration) && PlannedKinds(epochs) && native != []
    requires NativeStanding(epochs, e, |native|) && AttemptsUpTo(native, epochs, e)
    ensures e == 4 <==> epochs[4].native < |native|
    ensures e == 4 ==> forall d :: 0 <= d < 5 ==> epochs[d].native <= |native|
                                                  && epochs[d].attempts == SumAttempts(native[..epochs[d].native])
  {
    if e < 4 {
      NativeCutsAscend(epochs, duration, e + 1, 4);
    }
  }

  lemma {:induction false} NativeVerdict(native: seq<NativeRow>, epochs: seq<EpochRow>, durationS: nat, e: nat,
                                         attempts: nat, owner: seq<nat>)
    requires EpochsOk(epochs, durationS * SECOND) && PlannedKinds(epochs) && 0 < |native| <= 4096
    requires NativeSoFar(native, epochs, durationS * SECOND, |native|, e, attempts, owner)
    ensures e == 4 <==> NativeAccepted(native, epochs, durationS)
  {
    NativeFromRows(native, epochs, durationS * SECOND, owner);
    NativeEnd(native, epochs, durationS * SECOND, e);
  }

  method CheckNative(native: seq<NativeRow>, epochs: seq<EpochRow>, durationS: nat) returns (ok: bool)
    requires EpochsOk(epochs, durationS * SECOND) && PlannedKinds(epochs)
    ensures ok <==> NativeAccepted(native, epochs, durationS)
  {
    if !(0 < |native| <= 4096) {
      return false;
    }
    var i: nat, attempts: nat, epoch: nat := 0, 0, 0;
    ghost var owner: seq<nat> := [];
    NativeStart(native, epochs, durationS * SECOND, i, owner);
    while i < |native|
      invariant NativeSoFar(native, epochs, durationS * SECOND, i, epoch, attempts, owner)
    {
      var good, next := NextNativeRow(native, epochs, durationS, i, epoch, attempts, owner);
      if !good {
        return false;
      }
      attempts := attempts + native[i].reading.attempts;
      i, epoch, owner := i + 1, next, owner + [next];
    }
    NativeVerdict(native, epochs, durationS, epoch, attempts, owner);
    return epoch == 4;
  }

  /** The join itself: every sample reset, release and prefix count bound to its recorded owner. */
  method CheckCuts(native: seq<NativeRow>, samples: Per<seq<Row>>, epochs: seq<EpochRow>, durationS: nat)
    returns (ok: bool)
    requires EpochsOk(epochs, durationS * SECOND) && PlannedKinds(epochs)
    ensures ok <==> CutsAccepted(native, samples, epochs, durationS)
  {
    ok := CheckNative(native, epochs, durationS);
    if ok {
      ok := CheckHistory(Source, samples.source, epochs, durationS);
    }
    if ok {
      ok := CheckHistory(Logical, samples.logical, epochs, durationS);
    }
    if ok {
      ok := CheckHistory(Physical, samples.physical, epochs, durationS);
    }
    assert samples.Of(Source) == samples.source && samples.Of(Logical) == samples.logical
           && samples.Of(Physical) == samples.physical;
  }
}
