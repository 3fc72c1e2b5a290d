/** Which polls the disk sampler comes through unfailed, and the rows, maxima and coverage it then holds. */
module DiskStory {
  import opened Prelude
  import opened Windows
  import opened DiskSamples
  import W = DiskWalk

  /** The first poll, a terminal one, and any 30 s after the last sample take one. */
  predicate Due(sampled: Option<Poll>, p: Poll) {
    p.terminal || sampled.None? || p.elapsed >= sampled.value.elapsed + 30_000_000_000
  }

  ghost function LastSampled(polls: seq<Poll>): Option<Poll> {
    if |polls| == 0 then None
    else
      var before, last := LastSampled(polls[..|polls| - 1]), polls[|polls| - 1];
      if Due(before, last) then Some(last) else before
  }

  /** The polls that took a sample, in order. */
  ghost function Taken(polls: seq<Poll>): seq<Poll> {
    if |polls| == 0 then []
    else
      var front, last := polls[..|polls| - 1], polls[|polls| - 1];
      Taken(front) + if Due(LastSampled(front), last) then [last] else []
  }

  /** Some sample falls in the window. */
  ghost predicate Seen(taken: seq<Poll>, k: int, windows: nat) {
    exists i :: 0 <= i < |taken| && taken[i].elapsed >= 0 && WindowOf(taken[i].elapsed, windows) == k
  }

  /** The walk and the archive answered, with no more than the host allows. */
  ghost predicate Affordable(p: Poll, limits: Resources) {
    && p.found.Some? && p.archive.Some? && p.archive.value <= limits.sink
    && forall c: W.Category :: W.Of(p.found.value.totals, c) <= W.Of(limits.files, c)
  }

  /** What the next poll must be, after these. */
  ghost predicate NextFits(polls: seq<Poll>, p: Poll, duration: nat, limits: Resources) {
    var sampled := LastSampled(polls);
    && (|polls| > 0 ==> !polls[|polls| - 1].terminal && polls[|polls| - 1].elapsed <= p.elapsed)
    && 0 <= p.elapsed <= duration + 255_000_000_000
    && p.elapsed <= (if sampled.Some? then sampled.value.elapsed else 0) + 255_000_000_000
    && (Due(sampled, p) ==> |Taken(polls)| < 4096 && Affordable(p, limits))
    && (p.terminal ==> && duration <= p.elapsed && !p.outage
                       && forall k :: 0 <= k < duration / WINDOW ==> Seen(Taken(polls) + [p], k, duration / WINDOW))
  }

  ghost predicate Story(polls: seq<Poll>, duration: nat, limits: Resources) {
    forall i :: 0 <= i < |polls| ==> NextFits(polls[..i], polls[i], duration, limits)
  }

  ghost predicate RowTells(row: Row, p: Poll) {
    && row.ns == p.elapsed && p.archive == Some(row.values.sink) && p.found.Some?
    && row.entries == p.found.value.entries && row.directories == p.found.value.directories
    && row.values.files == p.found.value.totals
  }

  ghost predicate Holds(s: State, polls: seq<Poll>, duration: nat, limits: Resources) {
    var sampled, taken := LastSampled(polls), Taken(polls);
    && s.duration == duration && s.limits == limits && |s.rows| == |taken|
    && (forall i :: 0 <= i < |s.rows| ==> RowTells(s.rows[i], taken[i]))
    && (s.lastNs.Some? <==> |polls| > 0) && (|polls| > 0 ==> s.lastNs.value == polls[|polls| - 1].elapsed)
    && (s.lastSampleNs.Some? <==> sampled.Some?) && (sampled.Some? ==> s.lastSampleNs.value == sampled.value.elapsed)
    && s.complete == (|polls| > 0 && polls[|polls| - 1].terminal)
    && Counts(s, duration / WINDOW)
  }

  lemma {:induction false} TakenOn(polls: seq<Poll>, p: Poll)
    ensures LastSampled(polls + [p]) == if Due(LastSampled(polls), p) then Some(p) else LastSampled(polls)
    ensures Taken(polls + [p]) == Taken(polls) + if Due(LastSampled(polls), p) then [p] else []
  {
    assert (polls + [p])[..|polls|] == polls;
  }

  lemma {:induction false} HitIff(ts: seq<nat>, k: int, windows: nat)
    ensures Hits(ts, k, windows) > 0 <==> exists i :: 0 <= i < |ts| && WindowOf(ts[i], windows) == k
  {
    if |ts| > 0 {
      var n := |ts| - 1;
      HitIff(ts[..n], k, windows);
      if i :| 0 <= i < |ts| && WindowOf(ts[i], windows) == k {
        HitsPositive(ts, k, windows, i);
      }
      if j :| 0 <= j < n && WindowOf(ts[..n][j], windows) == k {
        assert WindowOf(ts[j], windows) == k;
      }
    }
  }

  /** The window counts say which windows were seen. */
  lemma {:induction false} SeenIff(rows: seq<Row>, taken: seq<Poll>, k: int, windows: nat)
    requires |rows| == |taken| && forall i :: 0 <= i < |rows| ==> rows[i].ns == taken[i].elapsed
    ensures Hits(Instants(rows), k, windows) > 0 <==> Seen(taken, k, windows)
  {
    HitIff(Instants(rows), k, windows);
    if Seen(taken, k, windows) {
      var i :| 0 <= i < |taken| && taken[i].elapsed >= 0 && WindowOf(taken[i].elapsed, windows) == k;
      assert WindowOf(Instants(rows)[i], windows) == k;
    }
    if i :| 0 <= i < |rows| && WindowOf(Instants(rows)[i], windows) == k {
      assert WindowOf(taken[i].elapsed, windows) == k;
    }
  }

  /** A sampled poll: its row follows, and the counts move on. */
  lemma {:induction false} CoveredIff(s: State, taken: seq<Poll>, n: nat)
    requires Counts(s, n) && |s.rows| == |taken| && forall i :: 0 <= i < |s.rows| ==> RowTells(s.rows[i], taken[i])
    requires n > 0
    ensures AllCovered(s.coverage) <==> forall k :: 0 <= k < n ==> Seen(taken, k, n)
  {
    forall k | 0 <= k < n
      ensures s.coverage[k] > 0 <==> Seen(taken, k, n)
    {
      SeenIff(s.rows, taken, k, n);
    }
  }

  lemma {:induction false} SampleHolds(s: State, p: Poll, polls: seq<Poll>, duration: nat, limits: Resources)
    requires Holds(s, polls, duration, limits) && duration / WINDOW > 0 && Due(LastSampled(polls), p)
    requires p.elapsed >= 0 && p.found.Some? && p.archive.Some?
    ensures var next := Sampled(s, RowOf(p));
            && Holds(next.(complete := p.terminal), polls + [p], duration, limits)
            && (AllCovered(next.coverage)
                <==> forall k :: 0 <= k < duration / WINDOW ==> Seen(Taken(polls) + [p], k, duration / WINDOW))
  {
    var next, n := Sampled(s, RowOf(p)), duration / WINDOW;
    CountsKept(s, RowOf(p), n);
    TakenOn(polls, p);
    CoveredIff(next, Taken(polls) + [p], n);
  }

  lemma {:induction false} AffordableIff(s: State, p: Poll, limits: Resources)
    requires s.limits == limits && p.elapsed >= 0
    ensures Countable(s, p) <==> |s.rows| < 4096 && Affordable(p, limits)
  {
  }

  lemma {:induction false} StepIff(s: State, p: Poll, polls: seq<Poll>, duration: nat, limits: Resources)
    requires Holds(s, polls, duration, limits) && duration / WINDOW > 0
    ensures Step(s, p).Some? <==> NextFits(polls, p, duration, limits)
    ensures Step(s, p).Some? ==> Holds(Step(s, p).value, polls + [p], duration, limits)
  {
    TakenOn(polls, p);
    assert NotDue(s, p) <==> !Due(LastSampled(polls), p);
    if p.elapsed >= 0 {
      AffordableIff(s, p, limits);
      if Due(LastSampled(polls), p) && p.found.Some? && p.archive.Some? {
        SampleHolds(s, p, polls, duration, limits);
      }
    }
  }

  lemma {:induction false} StoryOn(polls: seq<Poll>, p: Poll, duration: nat, limits: Resources)
    ensures Story(polls + [p], duration, limits)
            <==> Story(polls, duration, limits) && NextFits(polls, p, duration, limits)
  {
    var more := polls + [p];
    assert more[..|polls|] == polls;
    forall i | 0 <= i < |polls|
      ensures more[..i] == polls[..i] && more[i] == polls[i]
    {
    }
    if Story(more, duration, limits) {
      assert NextFits(more[..|polls|], more[|polls|], duration, limits);
      forall i | 0 <= i < |polls|
        ensures NextFits(polls[..i], polls[i], duration, limits)
      {
        assert NextFits(more[..i], more[i], duration, limits);
      }
    }
  }

  lemma {:induction false} InitialHolds(durationS: nat, limits: Resources, polls: seq<Poll>)
    requires CampaignDuration(durationS) && |polls| == 0
    ensures durationS * SECOND / WINDOW == durationS / 300
    ensures Holds(Initial(durationS, limits), polls, durationS * SECOND, limits)
  {
    InitialInv(durationS, limits);
  }

  /**
   * The sampler comes through unfailed exactly on these polls, and then holds a row for each
   * sample taken, with the maxima and the coverage of those rows.
   */
  lemma {:induction false} UnfailedIff(durationS: nat, limits: Resources, polls: seq<Poll>)
    requires CampaignDuration(durationS)
    ensures Run(Initial(durationS, limits), polls).Some? <==> Story(polls, durationS * SECOND, limits)
    ensures Run(Initial(durationS, limits), polls).Some? ==>
              Holds(Run(Initial(durationS, limits), polls).value, polls, durationS * SECOND, limits)
    decreases |polls|
  {
    var start := Initial(durationS, limits);
    if |polls| == 0 {
      InitialHolds(durationS, limits, polls);
    } else {
      var before, last := polls[..|polls| - 1], polls[|polls| - 1];
      assert polls == before + [last];
      RunLast(start, before, last);
      UnfailedIff(durationS, limits, before);
      StoryOn(before, last, durationS * SECOND, limits);
      if Run(start, before).Some? {
        StepIff(Run(start, before).value, last, before, durationS * SECOND, limits);
      }
    }
  }
}
