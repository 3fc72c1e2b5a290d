/**
 * The timing argument several samplers and reconcilers share: observations that
 * never leave a silence longer than a gap must fall in every longer window.
 */
module Windows {
  import opened Prelude

  /** Instants begin and continue without a silence longer than `gap`. */
  ghost predicate Dense(ts: seq<nat>, gap: int) {
    && (ts != [] ==> ts[0] <= gap)
    && forall i :: 0 < i < |ts| ==> ts[i] - ts[i - 1] <= gap
  }

  ghost predicate Ascending(ts: seq<nat>) {
    forall i :: 0 < i < |ts| ==> ts[i - 1] < ts[i]
  }

  /** Every interval of length `width` that ends by `end` holds one of the instants. */
  lemma {:induction false} DenseHitsInterval(ts: seq<nat>, gap: int, width: int, lo: nat, end: int) returns (i: nat)
    requires ts != [] && Dense(ts, gap) && end - ts[|ts| - 1] <= gap
    requires gap < width && lo + width <= end
    ensures i < |ts| && lo <= ts[i] < lo + width
  {
    i := 0;
    while ts[i] < lo
      invariant i < |ts|
      invariant i > 0 ==> ts[i - 1] < lo
      decreases |ts| - i
    {
      i := i + 1;
    }
  }

  function WindowOf(t: nat, windows: nat): int {
    Min(t / WINDOW, windows - 1)
  }

  /** How many of the instants fall in window `k`; the last window also takes later instants. */
  function Hits(ts: seq<nat>, k: int, windows: nat): nat {
    if |ts| == 0 then 0
    else Hits(ts[..|ts| - 1], k, windows)
         + if WindowOf(ts[|ts| - 1], windows) == k then 1 else 0
  }

  lemma {:induction false} HitsPositive(ts: seq<nat>, k: int, windows: nat, i: nat)
    requires i < |ts| && WindowOf(ts[i], windows) == k
    ensures Hits(ts, k, windows) > 0
  {
    if i < |ts| - 1 {
      HitsPositive(ts[..|ts| - 1], k, windows, i);
    }
  }

  ghost predicate Covered(ts: seq<nat>, windows: nat) {
    forall k :: 0 <= k < windows ==> Hits(ts, k, windows) > 0
  }

  /**
   * The campaign's coverage theorem: no silence over `gap` < 300 s, from the origin up to
   * the end of the last window, puts an observation in every window.
   */
  lemma {:induction false} DenseCovers(ts: seq<nat>, gap: int, windows: nat)
    requires ts != [] && Dense(ts, gap) && gap < WINDOW
    requires windows * WINDOW - ts[|ts| - 1] <= gap
    ensures Covered(ts, windows)
  {
    forall k | 0 <= k < windows
      ensures Hits(ts, k, windows) > 0
    {
      var lo := k * 300_000_000_000;
      assert lo + WINDOW <= windows * WINDOW;
      var i := DenseHitsInterval(ts, gap, WINDOW, lo, windows * WINDOW);
      assert ts[i] / WINDOW == k;
      HitsPositive(ts, k, windows, i);
    }
  }

  /** Instants at least `step` apart inside `[0, end)` are few: at most one per step. */
  lemma {:induction false} SpacedCount(ts: seq<nat>, step: int)
    requires ts != [] && 0 < step
    requires forall i :: 0 < i < |ts| ==> ts[i] - ts[i - 1] >= step
    ensures ts[|ts| - 1] >= (|ts| - 1) * step
  {
    if |ts| > 1 {
      SpacedCount(ts[..|ts| - 1], step);
      assert (|ts| - 1) * step == (|ts| - 2) * step + step;
    }
  }
}
