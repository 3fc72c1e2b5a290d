/** A campaign the progress reconciler accepts, and where its terminal observation comes from. */
module ProgressExamples {
  import opened Prelude
  import opened Windows
  import opened NativeSampler
  import opened Progress
  import R = Releases

  // --- the terminal identity -----------------------------------------------

  /** The terminal observation names exactly the identity every plan of seven faults ends at. */
  lemma {:induction false} TerminalIsEnd(t: Observation, last: Observation, durationS: nat, kinds: seq<R.Kind>)
    requires R.Plan(kinds) && TerminalObserverOk(t, last, durationS)
    ensures var end := R.Folded(R.ORIGINAL, kinds);
            t.generation == end.generation && t.incarnation == end.incarnation
  {
    R.CampaignEnds(kinds);
  }

  // --- one steady campaign -------------------------------------------------

  const STRIDE: nat := 200_000_000_000

  /** Everything moved `i` times. */
  function Observed(i: nat): Observation {
    Observation(i * 200, 1024, 0, i, i, i, 2, i, 6, 2, false, false)
  }

  function Sampled(i: nat, index: nat): NativeReading {
    NativeReading(index, 2, 2, Identity(1, ""), i, i, 1, i, 0, 0, false, 3, 0, 1)
  }

  function Observers(n: nat): (rows: seq<ObserverRow>)
    ensures |rows| == n && forall i :: 0 <= i < n ==> rows[i] == ObserverRow((i + 1) * STRIDE, 0, Observed(i + 1))
  {
    seq(n, i requires 0 <= i < n => ObserverRow((i + 1) * STRIDE, 0, Observed(i + 1)))
  }

  function NativeRows(n: nat): (rows: seq<NativeRow>)
    ensures |rows| == n && forall i :: 0 <= i < n ==> rows[i] == NativeRow(Sampled(i + 1, i), (i + 1) * STRIDE)
  {
    seq(n, i requires 0 <= i < n => NativeRow(Sampled(i + 1, i), (i + 1) * STRIDE))
  }

  function Count(durationS: nat): nat
    requires durationS > 0
  {
    (durationS - 1) / 200
  }

  function Terminal(durationS: nat): Observation
    requires durationS > 0
  {
    Observed(Count(durationS)).(events := Events(durationS * 100))
  }

  function End(durationS: nat): NativeRow
    requires durationS > 0
  {
    NativeRow(Sampled(Count(durationS), Count(durationS)), durationS * SECOND)
  }

  lemma {:induction false} StridesFit(durationS: nat)
    requires CampaignDuration(durationS)
    ensures var n := Count(durationS);
            109 <= n <= 431 && n * STRIDE < durationS * SECOND && durationS * SECOND - n * STRIDE <= STRIDE
  {
  }

  lemma {:induction false} ObserversHold(durationS: nat)
    requires CampaignDuration(durationS)
    ensures ObserverOk(Observers(Count(durationS)), durationS)
  {
    var n := Count(durationS);
    var rows := Observers(n);
    StridesFit(durationS);
    forall i | 0 <= i < n
      ensures ObserverRowOk(rows, i, durationS * SECOND)
    {
      assert rows[i].ns <= n * STRIDE;
    }
  }

  lemma {:induction false} NativesHold(durationS: nat)
    requires CampaignDuration(durationS)
    ensures NativeOk(NativeRows(Count(durationS)), durationS, Identity(1, ""))
  {
    var n := Count(durationS);
    var rows := NativeRows(n);
    StridesFit(durationS);
    forall i | 0 <= i < n
      ensures NativeRowOk(rows, i, durationS * SECOND, Identity(1, ""))
    {
      assert rows[i].ns <= n * STRIDE;
    }
  }

  /** The row a window reports lies in it. */
  lemma {:induction false} ObservedIn(rows: seq<ObserverRow>, k: int, n: nat) returns (i: nat)
    requires LastObserved(rows, k, n).Some?
    ensures i < |rows| && WindowOf(rows[i].ns, n) == k && LastObserved(rows, k, n).value == rows[i].value
  {
    i := |rows| - 1;
    if WindowOf(rows[i].ns, n) != k {
      i := ObservedIn(rows[..i], k, n);
    }
  }

  lemma {:induction false} NativeIn(rows: seq<NativeRow>, k: int, n: nat) returns (i: nat)
    requires LastNative(rows, k, n).Some?
    ensures i < |rows| && WindowOf(rows[i].ns, n) == k && LastNative(rows, k, n).value == rows[i].reading
  {
    i := |rows| - 1;
    if WindowOf(rows[i].ns, n) != k {
      i := NativeIn(rows[..i], k, n);
    }
  }

  lemma {:induction false} LaterWindow(a: nat, b: nat, windows: nat)
    requires WindowOf(a, windows) < WindowOf(b, windows)
    ensures a < b
  {
  }

  lemma {:induction false} ObserversMove(rows: seq<ObserverRow>, windows: nat, j: int, k: int)
    requires rows == Observers(|rows|) && j < k
    requires LastObserved(rows, j, windows).Some? && LastObserved(rows, k, windows).Some?
    ensures var a, b := LastObserved(rows, j, windows).value, LastObserved(rows, k, windows).value;
            b.liveUpdates > a.liveUpdates && b.liveRenewals > a.liveRenewals
  {
    var a := ObservedIn(rows, j, windows);
    var b := ObservedIn(rows, k, windows);
    LaterWindow(rows[a].ns, rows[b].ns, windows);
    assert rows[a] == ObserverRow((a + 1) * STRIDE, 0, Observed(a + 1));
    assert rows[b] == ObserverRow((b + 1) * STRIDE, 0, Observed(b + 1));
  }

  lemma {:induction false} NativesMove(rows: seq<NativeRow>, windows: nat, j: int, k: int)
    requires rows == NativeRows(|rows|) && j < k
    requires LastNative(rows, j, windows).Some? && LastNative(rows, k, windows).Some?
    ensures var x, y := LastNative(rows, j, windows).value, LastNative(rows, k, windows).value;
            y.sampledHead > x.sampledHead && y.appliedThrough > x.appliedThrough
  {
    var x := NativeIn(rows, j, windows);
    var y := NativeIn(rows, k, windows);
    LaterWindow(rows[x].ns, rows[y].ns, windows);
    assert rows[x] == NativeRow(Sampled(x + 1, x), (x + 1) * STRIDE);
    assert rows[y] == NativeRow(Sampled(y + 1, y), (y + 1) * STRIDE);
  }

  lemma {:induction false} EndHolds(durationS: nat)
    requires CampaignDuration(durationS)
    ensures var n := Count(durationS);
            && n > 0 && TerminalObserverOk(Terminal(durationS), Observed(n), durationS)
            && EndpointOk(End(durationS), Sampled(n, n - 1), Terminal(durationS), durationS, Identity(1, ""))
  {
    StridesFit(durationS);
    EventsCounts(durationS * 100);
    EventsMonotone(0, durationS * 100);
  }

  /** For every campaign length a campaign whose progress is accepted. */
  lemma {:induction false} SteadyAccepted(durationS: nat)
    requires CampaignDuration(durationS)
    ensures var n := Count(durationS);
            Accepted(Observers(n), NativeRows(n), durationS, Terminal(durationS), End(durationS), Identity(1, ""))
  {
    var n, w := Count(durationS), durationS / 300;
    StridesFit(durationS);
    ObserversHold(durationS);
    NativesHold(durationS);
    EndHolds(durationS);
    var seen, native := Seen(Observers(n), w), Natives(NativeRows(n), w);
    forall k | 0 <= k < w
      ensures seen[k].Some? && native[k].Some?
    {
      CoverageImplied(Observers(n), NativeRows(n), durationS, Identity(1, ""), k);
    }
    forall k | 0 < k < w
      ensures Moves(seen[k - 1], seen[k], native[k - 1], native[k])
    {
      assert seen[k - 1].Some? && native[k - 1].Some?;
      ObserversMove(Observers(n), w, k - 1, k);
      NativesMove(NativeRows(n), w, k - 1, k);
    }
  }
}
