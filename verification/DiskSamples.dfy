/**
 * Disk samples on the campaign clock: per-window maxima, coverage and a terminal sample,
 * and the offline pass that recomputes all of it from the rows.
 */
module DiskSamples {
  import opened Prelude
  import opened Windows
  import W = DiskWalk

  const CADENCE: int := 30_000_000_000
  const MAX_ROWS := 4096

  datatype Resources = Resources(sink: nat, files: W.Totals)

  const NONE := Resources(0, W.ZERO)

  function Highest(a: Resources, b: Resources): Resources {
    Resources(Max(a.sink, b.sink),
              map c | c in a.files.Keys + b.files.Keys :: Max(W.Of(a.files, c), W.Of(b.files, c)))
  }

  predicate AtMost(a: Resources, limits: Resources) {
    a.sink <= limits.sink && forall c: W.Category :: W.Of(a.files, c) <= W.Of(limits.files, c)
  }

  datatype Row = Row(ns: nat, entries: nat, directories: nat, values: Resources)

  /** One poll: the clock, what the walk would find, and the archive's size if its identity holds. */
  datatype Poll = Poll(elapsed: int, terminal: bool, outage: bool, found: Option<W.Account>, archive: Option<nat>)

  /** The walk was over some actual tree. */
  ghost predicate Real(p: Poll) {
    p.found.Some? ==> W.Walked(p.found.value)
  }

  /** The poll of this tree: its walk answers exactly within the walk's limits, with the tree's account. */
  ghost function PollOf(elapsed: int, terminal: bool, outage: bool, tree: seq<W.Entry>, archive: Option<nat>): (p: Poll)
    ensures Real(p)
  {
    var account := W.Total(tree);
    Poll(elapsed, terminal, outage, if W.Within(account) then Some(account) else None, archive)
  }

  datatype State = State(duration: nat, limits: Resources, lastNs: Option<nat>, lastSampleNs: Option<nat>,
                         complete: bool, windows: seq<Resources>, coverage: seq<nat>, rows: seq<Row>)

  function Initial(durationS: nat, limits: Resources): State {
    var n := durationS / 300;
    State(durationS * SECOND, limits, None, None, false, seq(n, _ => NONE), seq(n, _ => 0), [])
  }

  predicate Timely(s: State, p: Poll) {
    && !s.complete && 0 <= p.elapsed <= s.duration + GAP && Since(s.lastNs) <= p.elapsed
    && p.elapsed - Since(s.lastSampleNs) <= GAP
  }

  predicate NotDue(s: State, p: Poll) {
    !p.terminal && s.lastSampleNs.Some? && p.elapsed - s.lastSampleNs.value < CADENCE
  }

  function RowOf(p: Poll): Row
    requires p.elapsed >= 0 && p.archive.Some? && p.found.Some?
  {
    var t := p.found.value;
    Row(p.elapsed, t.entries, t.directories, Resources(p.archive.value, t.totals))
  }

  predicate Countable(s: State, p: Poll) {
    |s.rows| < MAX_ROWS && p.archive.Some? && p.found.Some? && 0 <= p.elapsed && AtMost(RowOf(p).values, s.limits)
  }

  function Sampled(s: State, row: Row): State
    requires |s.windows| == |s.coverage| > 0
  {
    var k := WindowOf(row.ns, |s.windows|);
    s.(lastNs := Some(row.ns), lastSampleNs := Some(row.ns), rows := s.rows + [row],
       windows := s.windows[k := Highest(s.windows[k], row.values)], coverage := s.coverage[k := s.coverage[k] + 1])
  }

  predicate AllCovered(coverage: seq<nat>) {
    forall k :: 0 <= k < |coverage| ==> coverage[k] > 0
  }

  function Step(s: State, p: Poll): Option<State> {
    if !Timely(s, p) then None
    else if NotDue(s, p) then Some(s.(lastNs := Some(p.elapsed)))
    else if !Countable(s, p) || !(|s.windows| == |s.coverage| > 0) then None
    else
      var next := Sampled(s, RowOf(p));
      if !p.terminal then Some(next)
      else if p.elapsed >= s.duration && !p.outage && AllCovered(next.coverage) then Some(next.(complete := true))
      else None
  }

  function Run(s: State, polls: seq<Poll>): Option<State>
    decreases |polls|
  {
    if |polls| == 0 then Some(s)
    else
      var next := Step(s, polls[0]);
      if next.None? then None else Run(next.value, polls[1..])
  }

  // --- what the rows say ---------------------------------------------------

  function Instants(rows: seq<Row>): (ts: seq<nat>)
    ensures |ts| == |rows|
    ensures forall i :: 0 <= i < |rows| ==> ts[i] == rows[i].ns
  {
    seq(|rows|, i requires 0 <= i < |rows| => rows[i].ns)
  }

  /** The maxima of the rows that fall in window `k`. */
  function Peak(rows: seq<Row>, k: int, windows: nat): Resources {
    if |rows| == 0 then NONE
    else
      var rest, last := Peak(rows[..|rows| - 1], k, windows), rows[|rows| - 1];
      if WindowOf(last.ns, windows) == k then Highest(rest, last.values) else rest
  }

  datatype Resource = Sink | Files(category: W.Category)

  function Amount(r: Resources, what: Resource): nat {
    if what.Sink? then r.sink else W.Of(r.files, what.category)
  }

  ghost predicate InWindow(rows: seq<Row>, i: int, k: int, windows: nat) {
    0 <= i < |rows| && WindowOf(rows[i].ns, windows) == k
  }

  /** No row of the window has more, and some row has as much, unless the window has no row. */
  ghost predicate TopOf(rows: seq<Row>, k: int, windows: nat, top: Resources, what: Resource) {
    && (forall i :: InWindow(rows, i, k, windows) ==> Amount(rows[i].values, what) <= Amount(top, what))
    && ((exists i :: InWindow(rows, i, k, windows) && Amount(rows[i].values, what) == Amount(top, what))
        || ((forall i :: !InWindow(rows, i, k, windows)) && Amount(top, what) == 0))
  }

  lemma {:induction false} HighestAmount(a: Resources, b: Resources, what: Resource)
    ensures Amount(Highest(a, b), what) == Max(Amount(a, what), Amount(b, what)) && Amount(NONE, what) == 0
  {
  }

  /** The window's maxima are the greatest its rows reach, resource by resource. */
  lemma {:induction false} PeakIsTop(rows: seq<Row>, k: int, windows: nat, what: Resource)
    ensures TopOf(rows, k, windows, Peak(rows, k, windows), what)
  {
    var top := Peak(rows, k, windows);
    HighestAmount(NONE, NONE, what);
    if |rows| > 0 {
      var n := |rows| - 1;
      var before := rows[..n];
      var rest := Peak(before, k, windows);
      PeakIsTop(before, k, windows, what);
      HighestAmount(rest, rows[n].values, what);
      forall i | InWindow(rows, i, k, windows)
        ensures Amount(rows[i].values, what) <= Amount(top, what)
      {
        assert i < n ==> InWindow(before, i, k, windows);
      }
      if InWindow(rows, n, k, windows) && Amount(rest, what) <= Amount(rows[n].values, what) {
        assert Amount(rows[n].values, what) == Amount(top, what);
      } else if i :| InWindow(before, i, k, windows) && Amount(before[i].values, what) == Amount(rest, what) {
        assert InWindow(rows, i, k, windows) && Amount(rows[i].values, what) == Amount(top, what);
      } else {
        forall i
          ensures !InWindow(rows, i, k, windows)
        {
          assert InWindow(rows, i, k, windows) && i < n ==> InWindow(before, i, k, windows);
        }
      }
    }
  }

  /** Every window reports the greatest of its rows. */
  ghost predicate Tops(rows: seq<Row>, windows: seq<Resources>) {
    forall k, what :: 0 <= k < |windows| ==> TopOf(rows, k, |windows|, windows[k], what)
  }

  lemma {:induction false} PeaksAreTops(rows: seq<Row>, windows: seq<Resources>)
    requires forall k :: 0 <= k < |windows| ==> windows[k] == Peak(rows, k, |windows|)
    ensures Tops(rows, windows)
  {
    forall k, what | 0 <= k < |windows|
      ensures TopOf(rows, k, |windows|, windows[k], what)
    {
      PeakIsTop(rows, k, |windows|, what);
    }
  }

  /** What holds of each row by itself and against the one before it. */
  predicate RowFits(rows: seq<Row>, i: nat, duration: nat, limits: Resources)
    requires i < |rows|
  {
    && W.CountsAccepted(rows[i].entries, rows[i].directories) && AtMost(rows[i].values, limits)
    && rows[i].ns <= duration + GAP
    && rows[i].ns - (if i == 0 then 0 else rows[i - 1].ns) <= GAP
  }

  ghost predicate Fit(rows: seq<Row>, duration: nat, limits: Resources) {
    forall i :: 0 <= i < |rows| ==> RowFits(rows, i, duration, limits)
  }

  ghost predicate Counts(s: State, n: nat) {
    && |s.windows| == |s.coverage| == n
    && (forall k :: 0 <= k < n ==> s.coverage[k] == Hits(Instants(s.rows), k, n))
    && (forall k :: 0 <= k < n ==> s.windows[k] == Peak(s.rows, k, n))
  }

  /** All rows but a terminal one are at least the cadence apart. */
  ghost predicate Spaced(rows: seq<Row>) {
    forall i :: 0 < i < |rows| ==> rows[i].ns - rows[i - 1].ns >= CADENCE
  }

  ghost predicate Inv(s: State, durationS: nat) {
    && CampaignDuration(durationS) && s.duration == durationS * SECOND
    && Counts(s, durationS / 300) && Fit(s.rows, s.duration, s.limits)
    && (s.rows == [] ==> s.lastSampleNs.None?)
    && (s.rows != [] ==> s.lastSampleNs == Some(s.rows[|s.rows| - 1].ns) && s.lastSampleNs.value <= Since(s.lastNs))
    && (if s.complete then |s.rows| > 0 && s.rows[|s.rows| - 1].ns >= s.duration && Spaced(s.rows[..|s.rows| - 1])
                           && (|s.rows| > 1 ==> s.rows[|s.rows| - 2].ns <= s.rows[|s.rows| - 1].ns)
        else Spaced(s.rows))
  }

  lemma {:induction false} InitialInv(durationS: nat, limits: Resources)
    requires CampaignDuration(durationS)
    ensures Inv(Initial(durationS, limits), durationS)
  {
  }

  lemma {:induction false} CountsKept(s: State, row: Row, n: nat)
    requires Counts(s, n) && n > 0
    ensures Counts(Sampled(s, row), n)
  {
    var next := Sampled(s, row);
    assert next.rows[..|s.rows|] == s.rows;
    assert Instants(next.rows)[..|s.rows|] == Instants(s.rows);
  }

  lemma {:induction false} FitKept(rows: seq<Row>, row: Row, duration: nat, limits: Resources)
    requires Fit(rows, duration, limits) && RowFits(rows + [row], |rows|, duration, limits)
    ensures Fit(rows + [row], duration, limits)
  {
    forall i | 0 <= i < |rows + [row]|
      ensures RowFits(rows + [row], i, duration, limits)
    {
      if i < |rows| {
        assert RowFits(rows, i, duration, limits);
      }
    }
  }

  lemma {:induction false} RowJoins(s: State, p: Poll, durationS: nat)
    requires Inv(s, durationS) && Timely(s, p) && Countable(s, p) && Real(p)
    ensures Counts(Sampled(s, RowOf(p)), durationS / 300) && Fit(Sampled(s, RowOf(p)).rows, s.duration, s.limits)
  {
    CountsKept(s, RowOf(p), durationS / 300);
    W.WalkedCounts(p.found.value);
    FitKept(s.rows, RowOf(p), s.duration, s.limits);
  }

  lemma {:induction false} StepKeeps(s: State, p: Poll, durationS: nat)
    requires Inv(s, durationS) && Step(s, p).Some? && Real(p)
    ensures Inv(Step(s, p).value, durationS)
  {
    if !NotDue(s, p) {
      RowJoins(s, p, durationS);
      assert (s.rows + [RowOf(p)])[..|s.rows|] == s.rows;
    }
  }

  lemma {:induction false} RunKeeps(s: State, polls: seq<Poll>, durationS: nat)
    requires Inv(s, durationS) && Run(s, polls).Some? && forall i :: 0 <= i < |polls| ==> Real(polls[i])
    ensures Inv(Run(s, polls).value, durationS)
    decreases |polls|
  {
    if polls != [] {
      StepKeeps(s, polls[0], durationS);
      RunKeeps(Step(s, polls[0]).value, polls[1..], durationS);
    }
  }

  /** Thirty-second spacing: the row bound never is the reason a poll is refused. */
  lemma {:induction false} RowBoundUnreachable(s: State, p: Poll, durationS: nat)
    requires Inv(s, durationS) && Timely(s, p)
    ensures |s.rows| < MAX_ROWS
  {
    if s.rows != [] {
      SpacedCount(Instants(s.rows), 30_000_000_000);
    }
  }

  lemma {:induction false} FitDense(rows: seq<Row>, duration: nat, limits: Resources)
    requires Fit(rows, duration, limits)
    ensures Dense(Instants(rows), GAP)
  {
    if rows != [] {
      assert RowFits(rows, 0, duration, limits);
    }
    forall i | 0 < i < |rows|
      ensures Instants(rows)[i] - Instants(rows)[i - 1] <= GAP
    {
      assert RowFits(rows, i, duration, limits);
    }
  }

  lemma {:induction false} FitCovers(s: State, durationS: nat)
    requires CampaignDuration(durationS) && s.rows != [] && Counts(s, durationS / 300)
             && Fit(s.rows, durationS * SECOND, s.limits)
    requires s.rows[|s.rows| - 1].ns >= durationS * SECOND
    ensures Covered(Instants(s.rows), durationS / 300) && AllCovered(s.coverage)
  {
    FitDense(s.rows, durationS * SECOND, s.limits);
    DenseCovers(Instants(s.rows), GAP, durationS / 300);
  }

  /** Once the gap checks have held, the terminal coverage check cannot fail. */
  lemma {:induction false} TerminalCovered(s: State, p: Poll, durationS: nat)
    requires Inv(s, durationS) && Timely(s, p) && Countable(s, p) && p.terminal && p.elapsed >= s.duration && Real(p)
    ensures AllCovered(Sampled(s, RowOf(p)).coverage)
    ensures Step(s, p).Some? <==> !p.outage
  {
    RowJoins(s, p, durationS);
    FitCovers(Sampled(s, RowOf(p)), durationS);
  }

  // --- the offline pass ----------------------------------------------------

  predicate RowAccepted(rows: seq<Row>, i: nat, duration: nat, limits: Resources)
    requires i < |rows|
  {
    && RowFits(rows, i, duration, limits) && U64(rows[i].ns)
    && (i > 0 ==> rows[i].ns > rows[i - 1].ns)
    && (rows[i].ns >= duration ==> i == |rows| - 1)
  }

  ghost predicate Accepted(rows: seq<Row>, durationS: nat, limits: Resources) {
    && CampaignDuration(durationS) && 0 < |rows| <= MAX_ROWS
    && (forall i :: 0 <= i < |rows| ==> RowAccepted(rows, i, durationS * SECOND, limits))
    && Covered(Instants(rows), durationS / 300)
    && rows[|rows| - 1].ns >= durationS * SECOND
  }

  method Reconcile(rows: seq<Row>, durationS: nat, limits: Resources) returns (ok: bool, windows: seq<Resources>)
    ensures ok <==> Accepted(rows, durationS, limits)
    ensures ok ==> |windows| == durationS / 300 && Tops(rows, windows)
    ensures ok ==> forall k :: 0 <= k < |windows| ==> windows[k] == Peak(rows, k, |windows|)
  {
    windows := [];
    if !CampaignDuration(durationS) || !(0 < |rows| <= MAX_ROWS) {
      return false, windows;
    }
    var n := durationS / 300;
    var s := State(durationS * SECOND, limits, None, None, false, seq(n, _ => NONE), seq(n, _ => 0), []);
    for i := 0 to |rows|
      invariant s.rows == rows[..i] && Counts(s, n)
      invariant forall j :: 0 <= j < i ==> RowAccepted(rows, j, durationS * SECOND, limits)
    {
      if !RowAccepted(rows, i, durationS * SECOND, limits) {
        return false, windows;
      }
      CountsKept(s, rows[i], n);
      assert rows[..i] + [rows[i]] == rows[..i + 1];
      s := Sampled(s, rows[i]);
    }
    assert rows[..|rows|] == rows;
    windows := s.windows;
    PeaksAreTops(rows, windows);
    ok := AllCovered(s.coverage) && rows[|rows| - 1].ns >= durationS * SECOND;
  }

  // --- producer against reconciler -----------------------------------------

  lemma {:induction false} LimitsFixed(s: State, polls: seq<Poll>)
    requires Run(s, polls).Some?
    ensures Run(s, polls).value.limits == s.limits
    decreases |polls|
  {
    if polls != [] {
      LimitsFixed(Step(s, polls[0]).value, polls[1..]);
    }
  }

  lemma {:induction false} FewRows(rows: seq<Row>, durationS: nat, limits: Resources)
    requires CampaignDuration(durationS) && rows != [] && Spaced(rows[..|rows| - 1])
             && Fit(rows, durationS * SECOND, limits)
    ensures |rows| <= MAX_ROWS
  {
    if |rows| > 1 {
      SpacedCount(Instants(rows[..|rows| - 1]), 30_000_000_000);
      assert RowFits(rows, |rows| - 2, durationS * SECOND, limits);
    }
  }

  lemma {:induction false} RisesTo(rows: seq<Row>, i: nat)
    requires Spaced(rows) && i < |rows|
    ensures rows[i].ns <= rows[|rows| - 1].ns
    decreases |rows| - i
  {
    if i < |rows| - 1 {
      assert rows[i + 1].ns - rows[i].ns >= CADENCE;
      RisesTo(rows, i + 1);
    }
  }

  lemma {:induction false} AscendToEnd(s: State, durationS: nat)
    requires Inv(s, durationS) && s.complete && (|s.rows| > 1 ==> s.rows[|s.rows| - 2].ns < s.duration)
    ensures forall i :: 0 <= i < |s.rows| ==> RowAccepted(s.rows, i, s.duration, s.limits)
  {
    var front := s.rows[..|s.rows| - 1];
    forall i | 0 <= i < |s.rows|
      ensures RowAccepted(s.rows, i, s.duration, s.limits)
    {
      assert RowFits(s.rows, i, s.duration, s.limits);
      if i < |front| {
        RisesTo(front, i);
        assert front[i] == s.rows[i];
        if i > 0 {
          assert front[i].ns - front[i - 1].ns >= CADENCE;
        }
      }
    }
  }

  lemma {:induction false} AcceptedIff(s: State, durationS: nat)
    requires Inv(s, durationS) && s.complete
    ensures Accepted(s.rows, durationS, s.limits) <==> (|s.rows| > 1 ==> s.rows[|s.rows| - 2].ns < s.duration)
  {
    var m := |s.rows|;
    if m > 1 && s.rows[m - 2].ns >= s.duration {
      assert !RowAccepted(s.rows, m - 2, s.duration, s.limits);
    } else {
      AscendToEnd(s, durationS);
      FitCovers(s, durationS);
      FewRows(s.rows, durationS, s.limits);
    }
  }

  /**
   * A completed run's rows are accepted exactly when its last sample before the terminal
   * one was taken before the campaign's end; and then the windows kept while sampling are
   * the windows the offline pass computes.
   */
  lemma {:induction false} CompletedAcceptedIff(durationS: nat, limits: Resources, polls: seq<Poll>)
    requires CampaignDuration(durationS) && forall i :: 0 <= i < |polls| ==> Real(polls[i])
    requires Run(Initial(durationS, limits), polls).Some? && Run(Initial(durationS, limits), polls).value.complete
    ensures var s := Run(Initial(durationS, limits), polls).value;
            && (Accepted(s.rows, durationS, limits)
                <==> (|s.rows| > 1 ==> s.rows[|s.rows| - 2].ns < durationS * SECOND))
            && |s.windows| == durationS / 300 && Tops(s.rows, s.windows)
            && forall k :: 0 <= k < |s.windows| ==> s.windows[k] == Peak(s.rows, k, |s.windows|)
  {
    var s := Run(Initial(durationS, limits), polls).value;
    InitialInv(durationS, limits);
    RunKeeps(Initial(durationS, limits), polls, durationS);
    LimitsFixed(Initial(durationS, limits), polls);
    AcceptedIff(s, durationS);
    PeaksAreTops(s.rows, s.windows);
  }

  // --- a run whose rows are refused ----------------------------------------

  const STRIDE: int := 200_000_000_000

  /** What an unchanging host shows a poll: the campaign's files and its archive. */
  datatype Host = Host(found: W.Account, archive: nat)

  ghost predicate Fits(h: Host, limits: Resources) {
    W.Walked(h.found) && AtMost(Resources(h.archive, h.found.totals), limits)
  }

  /** The poll at the k-th multiple of 200 s. */
  function Steady(h: Host, k: nat, terminal: bool): Poll {
    Poll(k * 200_000_000_000, terminal, false, Some(h.found), Some(h.archive))
  }

  lemma {:induction false} SteadyStep(s: State, h: Host, k: nat, durationS: nat, terminal: bool)
    requires Inv(s, durationS) && Fits(h, s.limits) && !s.complete && s.lastNs == s.lastSampleNs
             && k * STRIDE <= s.duration + GAP
    requires s.lastNs == (if k == 0 then None else Some((k - 1) * STRIDE)) || (terminal && s.lastNs == Some(k * STRIDE))
    requires terminal ==> k * STRIDE >= s.duration
    ensures var p := Steady(h, k, terminal);
            Real(p) && Step(s, p) == Some(Sampled(s, RowOf(p)).(complete := terminal))
            && Inv(Step(s, p).value, durationS)
  {
    var p := Steady(h, k, terminal);
    RowBoundUnreachable(s, p, durationS);
    if terminal {
      TerminalCovered(s, p, durationS);
    }
    StepKeeps(s, p, durationS);
  }

  lemma {:induction false} RunLast(s: State, polls: seq<Poll>, p: Poll)
    ensures Run(s, polls + [p]) == if Run(s, polls).None? then None else Step(Run(s, polls).value, p)
    decreases |polls|
  {
    var more := polls + [p];
    if |polls| == 0 {
      assert more[0] == p && |more[1..]| == 0;
    } else {
      assert more[0] == polls[0] && more[1..] == polls[1..] + [p];
      if Step(s, polls[0]).Some? {
        RunLast(Step(s, polls[0]).value, polls[1..], p);
      }
    }
  }

  lemma {:induction false} NoPolls(s: State) returns (polls: seq<Poll>)
    ensures Run(s, polls) == Some(s)
  {
    polls := [];
  }

  /** Polled every 200 s up to the `k`th time. */
  ghost predicate Polled(start: State, durationS: nat, k: nat, polls: seq<Poll>, s: State) {
    && Run(start, polls) == Some(s) && Inv(s, durationS) && s.limits == start.limits
    && !s.complete && s.lastNs == s.lastSampleNs == Some(k * STRIDE)
  }

  lemma {:induction false} SteadyOn(start: State, durationS: nat, h: Host, k: nat, polls: seq<Poll>, s: State)
    returns (more: seq<Poll>, next: State)
    requires Run(start, polls) == Some(s) && Inv(s, durationS) && s.limits == start.limits && Fits(h, s.limits)
    requires !s.complete && s.lastNs == s.lastSampleNs == (if k == 0 then None else Some((k - 1) * STRIDE))
    requires k * STRIDE <= durationS * SECOND + GAP
    ensures Polled(start, durationS, k, more, next)
  {
    var p := Steady(h, k, false);
    SteadyStep(s, h, k, durationS, false);
    RunLast(start, polls, p);
    more, next := polls + [p], Step(s, p).value;
  }

  /** Polling such a host every 200 s, past the end, is accepted. */
  lemma {:induction false} SteadyRun(start: State, durationS: nat, limits: Resources, h: Host, k: nat)
    returns (polls: seq<Poll>, s: State)
    requires start == Initial(durationS, limits)
    requires CampaignDuration(durationS) && Fits(h, limits) && k * STRIDE <= durationS * SECOND + GAP
    ensures Polled(start, durationS, k, polls, s)
    decreases k
  {
    if k == 0 {
      s := start;
      polls := NoPolls(s);
      InitialInv(durationS, limits);
    } else {
      polls, s := SteadyRun(start, durationS, limits, h, k - 1);
    }
    polls, s := SteadyOn(start, durationS, h, k, polls, s);
  }

  /** For every duration and every host within the limits, some run completes whose rows are refused. */
  lemma {:induction false} LateSampleRefused(durationS: nat, limits: Resources, h: Host)
    returns (polls: seq<Poll>, s: State)
    requires CampaignDuration(durationS) && Fits(h, limits)
    ensures Run(Initial(durationS, limits), polls) == Some(s) && s.complete
    ensures !Accepted(s.rows, durationS, limits)
  {
    var k := (durationS + 199) / 200;
    var start := Initial(durationS, limits);
    polls, s := SteadyRun(start, durationS, limits, h, k);
    SteadyStep(s, h, k, durationS, true);
    RunLast(start, polls, Steady(h, k, true));
    polls, s := polls + [Steady(h, k, true)], Step(s, Steady(h, k, true)).value;
    AcceptedIff(s, durationS);
  }

  // --- the sampler ---------------------------------------------------------

  /** The row is the account of this tree and of the archive, at this instant. */
  ghost predicate Tells(row: Row, elapsed: int, tree: seq<W.Entry>, archive: Option<nat>) {
    && row.ns == elapsed && archive == Some(row.values.sink)
    && exists shares ::
         W.Balances(tree, W.Account(row.values.files, row.entries, row.directories, true), shares)
  }

  lemma {:induction false} RowTells(p: Poll, elapsed: int, terminal: bool, outage: bool, tree: seq<W.Entry>,
                                    archive: Option<nat>)
    requires p == PollOf(elapsed, terminal, outage, tree, archive)
    requires p.elapsed >= 0 && p.archive.Some? && p.found.Some?
    ensures Tells(RowOf(p), elapsed, tree, archive)
  {
    var shares := W.ChargedByPath(tree);
    var row := RowOf(p);
    assert W.Total(tree) == W.Account(row.values.files, row.entries, row.directories, true);
  }

  method Look(tree: seq<W.Entry>) returns (found: Option<W.Account>)
    ensures found == if W.Within(W.Total(tree)) then Some(W.Total(tree)) else None
  {
    var within, account := W.Snapshot(tree);
    found := if within then Some(account) else None;
  }

  class Sampler {
    const duration: nat
    const limits: Resources
    var lastNs: Option<nat>
    var lastSampleNs: Option<nat>
    var complete: bool
    var failed: bool
    var windows: seq<Resources>
    var coverage: seq<nat>
    var rows: seq<Row>

    ghost function View(): State
      reads this
    {
      State(duration, limits, lastNs, lastSampleNs, complete, windows, coverage, rows)
    }

    constructor (durationS: nat, limits: Resources)
      requires CampaignDuration(durationS)
      ensures View() == Initial(durationS, limits) && !failed
    {
      duration, this.limits := durationS * SECOND, limits;
      lastNs, lastSampleNs, complete, failed := None, None, false, false;
      windows, coverage, rows := seq(durationS / 300, _ => NONE), seq(durationS / 300, _ => 0), [];
    }

    /** Write the row, then judge the terminal coverage. */
    method Take(p: Poll) returns (ok: bool)
      requires |windows| == |coverage| > 0 && failed
      requires p.archive.Some? && p.found.Some? && Timely(View(), p) && !NotDue(View(), p) && |rows| < MAX_ROWS
      modifies this
      ensures |windows| == |coverage| > 0
      ensures ok == Step(old(View()), p).Some? && failed == !ok
      ensures ok ==> View() == Step(old(View()), p).value
      ensures rows == old(rows) || rows == old(rows) + [RowOf(p)]
      ensures ok ==> rows == old(rows) + [RowOf(p)]
    {
      var row := RowOf(p);
      if !AtMost(row.values, limits) {
        return false;
      }
      var k := WindowOf(row.ns, |windows|);
      lastNs, lastSampleNs, rows := Some(row.ns), Some(row.ns), rows + [row];
      coverage := coverage[k := coverage[k] + 1];
      windows := windows[k := Highest(windows[k], row.values)];
      if p.terminal {
        if row.ns < duration || p.outage || !AllCovered(coverage) {
          return false;
        }
        complete := true;
      }
      failed := false;
      return true;
    }

    /** A sample is due: walk the tree and take what it gives. */
    method WalkAndTake(elapsed: int, terminal: bool, outage: bool, tree: seq<W.Entry>, archive: Option<nat>)
      returns (ok: bool)
      requires |windows| == |coverage| > 0 && failed
      requires var p := PollOf(elapsed, terminal, outage, tree, archive); Timely(View(), p) && !NotDue(View(), p)
      modifies this
      ensures |windows| == |coverage| > 0
      ensures var p := PollOf(elapsed, terminal, outage, tree, archive);
              && ok == Step(old(View()), p).Some? && failed == !ok
              && (ok ==> View() == Step(old(View()), p).value)
      ensures old(rows) <= rows && |rows| <= |old(rows)| + 1 && (ok ==> |rows| > |old(rows)|)
      ensures |rows| > |old(rows)| ==> Tells(rows[|rows| - 1], elapsed, tree, archive)
    {
      ghost var p := PollOf(elapsed, terminal, outage, tree, archive);
      var found := Look(tree);
      if |rows| >= MAX_ROWS || archive.None? || found.None? {
        return false;
      }
      RowTells(p, elapsed, terminal, outage, tree, archive);
      ok := Take(Poll(elapsed, terminal, outage, found, archive));
    }

    /** Walks the tree only when a sample is due. */
    method PollOnce(elapsed: int, terminal: bool, outage: bool, tree: seq<W.Entry>, archive: Option<nat>)
      returns (ok: bool)
      requires |windows| == |coverage| > 0
      modifies this
      ensures |windows| == |coverage| > 0
      ensures old(failed) ==> !ok && failed && View() == old(View())
      ensures var p := PollOf(elapsed, terminal, outage, tree, archive);
              !old(failed) ==> && ok == Step(old(View()), p).Some? && failed == !ok
                               && (ok ==> View() == Step(old(View()), p).value)
      ensures old(rows) <= rows && |rows| <= |old(rows)| + 1
      ensures ok ==> (|rows| > |old(rows)| <==>
                      terminal || old(lastSampleNs).None? || elapsed - old(lastSampleNs).value >= CADENCE)
      ensures |rows| > |old(rows)| ==> Tells(rows[|rows| - 1], elapsed, tree, archive)
    {
      if failed {
        return false;
      }
      failed := true;
      var last := if lastNs.Some? then lastNs.value else 0;
      var sampled := if lastSampleNs.Some? then lastSampleNs.value else 0;
      if complete || !(0 <= elapsed <= duration + GAP) || elapsed < last || elapsed - sampled > GAP {
        return false;
      }
      if !terminal && lastSampleNs.Some? && elapsed - sampled < CADENCE {
        failed, lastNs := false, Some(elapsed);
        return true;
      }
      ok := WalkAndTake(elapsed, terminal, outage, tree, archive);
    }
  }
}
