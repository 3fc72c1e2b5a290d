/**
 * Competing-workload census on the reserved host: the polled collector, and the
 * reconciler that later re-reads the rows it wrote.
 */
module Interference {
  import opened Prelude
  import opened Windows

  const MAX_ROWS := 17281
  const MAX_SCANNED := 32768
  const CADENCE: int := 5_000_000_000

  // --- census --------------------------------------------------------------

  /** `heavy` is the frozen name policy's verdict on the process name. */
  datatype Process = Process(parent: nat, birth: nat, name: string, heavy: bool)

  /** One directory entry of the process table, with what reading it gave. */
  datatype Entry =
    | Unrelated
    | Running(pid: nat, process: Process)
    | Zombie(pid: nat)
    | Gone(pid: nat)
    | Unreadable(pid: nat)

  datatype Observation = Observation(seen: nat, owned: nat, competing: map<nat, Process>, disappeared: nat)

  function Observed(entries: seq<Entry>): map<nat, Process> {
    if |entries| == 0 then map[]
    else
      var earlier := Observed(entries[..|entries| - 1]);
      match entries[|entries| - 1]
      case Running(pid, process) => earlier[pid := process]
      case _ => earlier
  }

  function Disappeared(entries: seq<Entry>): nat {
    if |entries| == 0 then 0
    else Disappeared(entries[..|entries| - 1]) + if entries[|entries| - 1].Gone? then 1 else 0
  }

  function Competitors(observed: map<nat, Process>, owned: set<nat>): map<nat, Process> {
    map pid | pid in observed && pid !in owned && observed[pid].heavy :: observed[pid]
  }

  predicate OwnersAdmitted(owned: set<nat>) {
    0 < |owned| <= 32 && 0 !in owned
  }

  /** What the census answers, or nothing when it refuses. */
  function CensusOf(entries: seq<Entry>, owned: set<nat>): Option<Observation> {
    var observed := Observed(entries);
    var bad := Competitors(observed, owned);
    if OwnersAdmitted(owned) && |entries| <= MAX_SCANNED && (forall e <- entries :: !e.Unreadable?)
       && owned <= observed.Keys && |bad| <= 32
    then Some(Observation(|observed|, |owned|, bad, Disappeared(entries)))
    else None
  }

  lemma {:induction false} ObservedWithinScan(entries: seq<Entry>)
    ensures |Observed(entries)| + Disappeared(entries) <= |entries|
  {
    if entries != [] {
      ObservedWithinScan(entries[..|entries| - 1]);
      var earlier := Observed(entries[..|entries| - 1]);
      match entries[|entries| - 1]
      case Running(pid, process) =>
        assert earlier[pid := process].Keys == earlier.Keys + {pid};
      case _ =>
    }
  }

  lemma {:induction false} SubsetCardinality(a: set<nat>, b: set<nat>)
    requires a <= b
    ensures |a| <= |b|
  {
    assert b == a + (b - a);
  }

  /** The inventory bounds the reconciler demands hold of every census that answers at all. */
  lemma {:induction false} CensusWithinInventory(entries: seq<Entry>, owned: set<nat>)
    requires CensusOf(entries, owned).Some?
    ensures var o := CensusOf(entries, owned).value;
            0 < o.owned <= 32 && o.owned <= o.seen <= MAX_SCANNED && o.disappeared <= MAX_SCANNED
  {
    ObservedWithinScan(entries);
    SubsetCardinality(owned, Observed(entries).Keys);
  }

  /** The entry is what the scan finally knows of its process. */
  ghost predicate LastSeen(entries: seq<Entry>, i: int) {
    && 0 <= i < |entries| && entries[i].Running?
    && forall j :: i < j < |entries| && entries[j].Running? ==> entries[j].pid != entries[i].pid
  }

  lemma {:induction false} ObservedKeepsLast(entries: seq<Entry>, i: nat)
    requires LastSeen(entries, i)
    ensures entries[i].pid in Observed(entries)
    ensures Observed(entries)[entries[i].pid] == entries[i].process
  {
    if i < |entries| - 1 {
      ObservedKeepsLast(entries[..|entries| - 1], i);
    }
  }

  lemma {:induction false} ObservedWasSeen(entries: seq<Entry>, pid: nat) returns (i: nat)
    requires pid in Observed(entries)
    ensures LastSeen(entries, i) && entries[i].pid == pid && Observed(entries)[pid] == entries[i].process
  {
    var n := |entries| - 1;
    if entries[n].Running? && entries[n].pid == pid {
      i := n;
    } else {
      i := ObservedWasSeen(entries[..n], pid);
    }
  }

  /** A running process outside the owners that the name policy calls heavy. */
  ghost predicate Competes(entries: seq<Entry>, owned: set<nat>, i: int) {
    LastSeen(entries, i) && entries[i].pid !in owned && entries[i].process.heavy
  }

  /** Exactly the heavy processes outside the owners are reported, each as it was last seen. */
  lemma {:induction false} CompetitorsMeant(entries: seq<Entry>, owned: set<nat>, pid: nat)
    requires CensusOf(entries, owned).Some?
    ensures pid in CensusOf(entries, owned).value.competing
            <==> exists i :: Competes(entries, owned, i) && entries[i].pid == pid
    ensures forall i :: Competes(entries, owned, i) && entries[i].pid == pid
              ==> CensusOf(entries, owned).value.competing[pid] == entries[i].process
  {
    var bad := CensusOf(entries, owned).value.competing;
    if pid in bad {
      var i := ObservedWasSeen(entries, pid);
      assert Competes(entries, owned, i);
    }
    forall i | Competes(entries, owned, i) && entries[i].pid == pid
      ensures pid in bad && bad[pid] == entries[i].process
    {
      ObservedKeepsLast(entries, i);
    }
  }

  /** A census reports no competitor exactly when it saw no heavy process outside the owners. */
  lemma {:induction false} QuietCensus(entries: seq<Entry>, owned: set<nat>)
    requires CensusOf(entries, owned).Some?
    ensures CensusOf(entries, owned).value.competing == map[] <==> forall i :: !Competes(entries, owned, i)
  {
    var bad := CensusOf(entries, owned).value.competing;
    if forall i :: !Competes(entries, owned, i) {
      forall pid
        ensures pid !in bad
      {
        CompetitorsMeant(entries, owned, pid);
      }
    } else {
      var i :| Competes(entries, owned, i);
      CompetitorsMeant(entries, owned, entries[i].pid);
    }
  }

  ghost function Pids(entries: seq<Entry>): set<nat> {
    set i | 0 <= i < |entries| && entries[i].Running? :: entries[i].pid
  }

  ghost function GoneAt(entries: seq<Entry>): set<int> {
    set i | 0 <= i < |entries| && entries[i].Gone?
  }

  lemma {:induction false} PidsObserved(entries: seq<Entry>)
    ensures Observed(entries).Keys == Pids(entries)
  {
    if |entries| > 0 {
      var n := |entries| - 1;
      PidsObserved(entries[..n]);
      assert Pids(entries) == Pids(entries[..n]) + if entries[n].Running? then {entries[n].pid} else {};
    }
  }

  lemma {:induction false} GoneCounted(entries: seq<Entry>)
    ensures Disappeared(entries) == |GoneAt(entries)|
  {
    if |entries| > 0 {
      var n := |entries| - 1;
      GoneCounted(entries[..n]);
      assert GoneAt(entries) == GoneAt(entries[..n]) + if entries[n].Gone? then {n} else {};
    }
  }

  /** The counts of a census: the processes running, the owners, and the entries that were gone. */
  lemma {:induction false} CensusCounts(entries: seq<Entry>, owned: set<nat>)
    requires CensusOf(entries, owned).Some?
    ensures var o := CensusOf(entries, owned).value;
            && o.seen == |Pids(entries)| && o.owned == |owned| && owned <= Pids(entries)
            && o.disappeared == |GoneAt(entries)|
  {
    PidsObserved(entries);
    GoneCounted(entries);
    assert |Observed(entries)| == |Observed(entries).Keys|;
  }

  /** The directory scan. Its second bound, on the processes seen so far, never refuses. */
  method Census(entries: seq<Entry>, owned: set<nat>) returns (r: Option<Observation>)
    ensures r == CensusOf(entries, owned)
  {
    if !(0 < |owned| <= 32) || 0 in owned {
      return None;
    }
    var observed: map<nat, Process> := map[];
    var races, scanned := 0, 0;
    for i := 0 to |entries|
      invariant scanned == i <= MAX_SCANNED
      invariant observed == Observed(entries[..i]) && races == Disappeared(entries[..i])
      invariant forall e <- entries[..i] :: !e.Unreadable?
    {
      assert entries[..i + 1][..i] == entries[..i];
      scanned := scanned + 1;
      if scanned > MAX_SCANNED {
        return None;
      }
      match entries[i]
      case Unrelated =>
      case Zombie(_) =>
      case Gone(_) =>
        races := races + 1;
      case Unreadable(_) =>
        assert entries[i] in entries;
        return None;
      case Running(pid, process) =>
        ObservedWithinScan(entries[..i]);
        assert |observed| < MAX_SCANNED;
        observed := observed[pid := process];
    }
    assert entries[..|entries|] == entries;
    if !(owned <= observed.Keys) {
      return None;
    }
    var bad := map pid | pid in observed && pid !in owned && observed[pid].heavy :: observed[pid];
    if |bad| > 32 {
      return None;
    }
    return Some(Observation(|observed|, |owned|, bad, races));
  }

  // --- polled collector ----------------------------------------------------

  datatype Row = Row(ns: nat, boot: string, census: Observation)

  /** One poll's clock reading and what the host and roster would answer. */
  datatype Poll = Poll(elapsed: int, rosterReady: bool, owners: set<nat>, boot: Option<string>, entries: seq<Entry>)

  datatype State = State(duration: nat, lastNs: Option<nat>, boot: Option<string>, count: nat, rows: seq<Row>)

  function Initial(durationS: nat): State {
    State(durationS * SECOND, None, None, 0, [])
  }

  function Step(s: State, p: Poll): Option<State> {
    if !U64(p.elapsed) || p.elapsed < Since(s.lastNs) || p.elapsed - Since(s.lastNs) > GAP then None
    else if p.elapsed >= s.duration then Some(s)
    else if s.lastNs.Some? && p.elapsed - s.lastNs.value < CADENCE then Some(s)
    else if s.count >= MAX_ROWS || !p.rosterReady || p.boot.None? || (s.boot.Some? && s.boot != p.boot) then None
    else
      var census := CensusOf(p.entries, p.owners);
      if census.None? || census.value.competing != map[] then None
      else Some(s.(lastNs := Some(p.elapsed), boot := p.boot, count := s.count + 1,
                   rows := s.rows + [Row(p.elapsed, p.boot.value, census.value)]))
  }

  /** A whole run: nothing once any poll refuses. */
  function Run(s: State, polls: seq<Poll>): Option<State>
    decreases |polls|
  {
    if |polls| == 0 then Some(s)
    else
      var next := Step(s, polls[0]);
      if next.None? then None else Run(next.value, polls[1..])
  }

  class Sampler {
    const duration: nat
    var lastNs: Option<nat>
    var boot: Option<string>
    var count: nat
    var failed: bool
    var rows: seq<Row>

    ghost function View(): State
      reads this
    {
      State(duration, lastNs, boot, count, rows)
    }

    constructor (durationS: nat)
      requires CampaignDuration(durationS)
      ensures View() == Initial(durationS) && !failed
    {
      duration := durationS * SECOND;
      lastNs, boot, count, failed, rows := None, None, 0, false, [];
    }

    /** A refused poll fails the collector for good; a detected competitor leaves its row behind. */
    method PollOnce(p: Poll) returns (ok: bool)
      modifies this
      ensures old(failed) ==> !ok && failed && View() == old(View())
      ensures !old(failed) ==> ok == Step(old(View()), p).Some? && failed == !ok
      ensures ok ==> View() == Step(old(View()), p).value
      ensures old(rows) <= rows
    {
      if failed {
        return false;
      }
      failed := true;
      var last := match lastNs case None => 0 case Some(t) => t;
      if !U64(p.elapsed) || p.elapsed < last || p.elapsed - last > GAP {
        return false;
      }
      if p.elapsed >= duration || (lastNs.Some? && p.elapsed - last < CADENCE) {
        failed := false;
        return true;
      }
      if count >= MAX_ROWS || !p.rosterReady || p.boot.None? || (boot.Some? && boot != p.boot) {
        return false;
      }
      var census := Census(p.entries, p.owners);
      if census.None? {
        return false;
      }
      rows := rows + [Row(p.elapsed, p.boot.value, census.value)];
      boot, lastNs, count := p.boot, Some(p.elapsed), count + 1;
      if census.value.competing != map[] {
        return false;
      }
      failed := false;
      return true;
    }
  }

  // --- reconciler ----------------------------------------------------------

  function Instants(rows: seq<Row>): (ts: seq<nat>)
    ensures |ts| == |rows|
    ensures forall i :: 0 <= i < |rows| ==> ts[i] == rows[i].ns
  {
    seq(|rows|, i requires 0 <= i < |rows| => rows[i].ns)
  }

  predicate RowAccepted(rows: seq<Row>, i: nat, durationS: nat)
    requires i < |rows|
  {
    var row := rows[i];
    && row.ns < durationS * SECOND
    && row.ns - (if i == 0 then 0 else rows[i - 1].ns) <= GAP
    && (i > 0 ==> row.ns > rows[i - 1].ns && row.boot == rows[i - 1].boot)
    && 0 < row.census.owned <= 32 && row.census.owned <= row.census.seen <= MAX_SCANNED
    && row.census.disappeared <= MAX_SCANNED
    && row.census.competing == map[]
  }

  ghost predicate Accepts(rows: seq<Row>, durationS: nat) {
    && CampaignDuration(durationS)
    && 0 < |rows| <= MAX_ROWS
    && (forall i :: 0 <= i < |rows| ==> RowAccepted(rows, i, durationS))
    && durationS * SECOND - rows[|rows| - 1].ns <= GAP
    && Covered(Instants(rows), durationS / 300)
  }

  lemma {:induction false} InstantsExtend(rows: seq<Row>, i: nat)
    requires i < |rows|
    ensures Instants(rows[..i + 1])[..i] == Instants(rows[..i])
  {
  }

  /** The offline loop accepts exactly the row sequences `Accepts` describes. */
  method Reconcile(rows: seq<Row>, durationS: nat) returns (ok: bool, windows: seq<nat>)
    ensures ok <==> Accepts(rows, durationS)
    ensures ok ==> |windows| == durationS / 300
                   && forall k :: 0 <= k < |windows| ==> windows[k] == Hits(Instants(rows), k, |windows|)
  {
    windows := [];
    if !CampaignDuration(durationS) || !(0 < |rows| <= MAX_ROWS) {
      return false, windows;
    }
    var n := durationS / 300;
    windows := seq(n, _ => 0);
    for i := 0 to |rows|
      invariant |windows| == n
      invariant forall j :: 0 <= j < i ==> RowAccepted(rows, j, durationS)
      invariant forall k :: 0 <= k < n ==> windows[k] == Hits(Instants(rows[..i]), k, n)
    {
      if !RowAccepted(rows, i, durationS) {
        return false, windows;
      }
      InstantsExtend(rows, i);
      var k := rows[i].ns / WINDOW;
      windows := windows[k := windows[k] + 1];
    }
    assert rows[..|rows|] == rows;
    var covered := forall k :: 0 <= k < n ==> windows[k] > 0;
    ok := durationS * SECOND - rows[|rows| - 1].ns <= GAP && covered;
  }

  // --- producer against reconciler ----------------------------------------

  /** What every state of an unfailed run satisfies. */
  ghost predicate Inv(s: State, durationS: nat) {
    && s.duration == durationS * SECOND
    && s.count == |s.rows|
    && (s.rows == [] ==> s.lastNs.None? && s.boot.None?)
    && (s.rows != [] ==> s.lastNs == Some(s.rows[|s.rows| - 1].ns) && s.boot == Some(s.rows[|s.rows| - 1].boot))
    && (forall i :: 0 <= i < |s.rows| ==> RowAccepted(s.rows, i, durationS))
    && (forall i :: 0 < i < |s.rows| ==> s.rows[i].ns - s.rows[i - 1].ns >= CADENCE)
  }

  lemma {:induction false} StepKeepsInv(s: State, p: Poll, durationS: nat)
    requires Inv(s, durationS) && Step(s, p).Some?
    ensures Inv(Step(s, p).value, durationS)
  {
    var next := Step(s, p).value;
    if next != s {
      CensusWithinInventory(p.entries, p.owners);
      forall i | 0 <= i < |next.rows|
        ensures RowAccepted(next.rows, i, durationS)
      {
        if i < |s.rows| {
          assert RowAccepted(s.rows, i, durationS);
        }
      }
    }
  }

  /** Five-second spacing: the row bound never is the reason a due sample is refused. */
  lemma {:induction false} RowBoundUnreachable(s: State, elapsed: nat, durationS: nat)
    requires Inv(s, durationS) && CampaignDuration(durationS)
    requires elapsed < s.duration && (s.lastNs.Some? ==> elapsed - s.lastNs.value >= CADENCE)
    ensures s.count < MAX_ROWS
  {
    if s.rows != [] {
      SpacedCount(Instants(s.rows) + [elapsed], 5_000_000_000);
    }
  }

  lemma {:induction false} RunKeepsInv(s: State, polls: seq<Poll>, durationS: nat)
    requires Inv(s, durationS) && Run(s, polls).Some?
    ensures var end := Run(s, polls).value;
            && Inv(end, durationS)
            && (polls != [] && polls[|polls| - 1].elapsed >= end.duration
                ==> end.duration - Since(end.lastNs) <= GAP)
    decreases |polls|
  {
    if polls != [] {
      var next := Step(s, polls[0]).value;
      StepKeepsInv(s, polls[0], durationS);
      RunKeepsInv(next, polls[1..], durationS);
    }
  }

  lemma {:induction false} FewRows(rows: seq<Row>, durationS: nat)
    requires CampaignDuration(durationS) && rows != []
    requires forall i :: 0 < i < |rows| ==> rows[i].ns - rows[i - 1].ns >= CADENCE
    requires RowAccepted(rows, |rows| - 1, durationS)
    ensures |rows| <= MAX_ROWS
  {
    SpacedCount(Instants(rows), 5_000_000_000);
  }

  lemma {:induction false} RowsDense(rows: seq<Row>, durationS: nat)
    requires forall i :: 0 <= i < |rows| ==> RowAccepted(rows, i, durationS)
    ensures Dense(Instants(rows), GAP)
  {
    if rows != [] {
      assert RowAccepted(rows, 0, durationS);
    }
    forall i | 0 < i < |rows|
      ensures Instants(rows)[i] - Instants(rows)[i - 1] <= GAP
    {
      assert RowAccepted(rows, i, durationS);
    }
  }

  lemma {:induction false} EndAccepted(end: State, durationS: nat)
    requires CampaignDuration(durationS) && Inv(end, durationS) && end.duration - Since(end.lastNs) <= GAP
    ensures Accepts(end.rows, durationS)
  {
    RowsDense(end.rows, durationS);
    FewRows(end.rows, durationS);
    DenseCovers(Instants(end.rows), GAP, durationS / 300);
  }

  /** Every unfailed run polled to or past the end leaves rows the reconciler accepts. */
  lemma {:induction false} CompletedRunAccepted(durationS: nat, polls: seq<Poll>)
    requires CampaignDuration(durationS)
    requires polls != [] && polls[|polls| - 1].elapsed >= durationS * SECOND
    requires Run(Initial(durationS), polls).Some?
    ensures Accepts(Run(Initial(durationS), polls).value.rows, durationS)
  {
    RunKeepsInv(Initial(durationS), polls, durationS);
    EndAccepted(Run(Initial(durationS), polls).value, durationS);
  }

  // --- hosts that pass and hosts that do not -------------------------------

  const STRIDE: nat := 200_000_000_000

  /** A host whose process table does not change. */
  datatype Host = Host(owners: set<nat>, boot: string, entries: seq<Entry>)

  function Steady(h: Host, k: nat): Poll {
    Poll(k * 200_000_000_000, true, h.owners, Some(h.boot), h.entries)
  }

  ghost predicate Quiet(h: Host) {
    CensusOf(h.entries, h.owners).Some? && forall i :: !Competes(h.entries, h.owners, i)
  }

  lemma {:induction false} RunLast(s: State, polls: seq<Poll>, p: Poll)
    ensures Run(s, polls + [p]) == if Run(s, polls).None? then None else Step(Run(s, polls).value, p)
    decreases |polls|
  {
    var more := polls + [p];
    if |polls| == 0 {
      assert more[0] == p && |more[1..]| == 0;
    } else {
      assert more[0] == polls[0] && more[1..] == polls[1..] + [p];
      if Step(s, polls[0]).Some? {
        RunLast(Step(s, polls[0]).value, polls[1..], p);
      }
    }
  }

  /** Every row so far holds this host's census, at the polled instants. */
  ghost predicate Watched(s: State, h: Host, n: nat) {
    && |s.rows| == n && (n > 0 ==> s.lastNs == Some((n - 1) * STRIDE) && s.boot == Some(h.boot))
    && forall i :: 0 <= i < n ==> s.rows[i].ns == i * STRIDE && Some(s.rows[i].census) == CensusOf(h.entries, h.owners)
  }

  lemma {:induction false} QuietPolls(durationS: nat, h: Host, n: nat) returns (polls: seq<Poll>)
    requires CampaignDuration(durationS) && Quiet(h) && (n > 0 ==> (n - 1) * STRIDE < durationS * SECOND)
    ensures Run(Initial(durationS), polls).Some?
    ensures var s := Run(Initial(durationS), polls).value; Inv(s, durationS) && Watched(s, h, n)
    decreases n
  {
    polls := [];
    if n > 0 {
      polls := QuietPolls(durationS, h, n - 1);
      var s, p := Run(Initial(durationS), polls).value, Steady(h, n - 1);
      QuietCensus(h.entries, h.owners);
      RowBoundUnreachable(s, p.elapsed, durationS);
      RunLast(Initial(durationS), polls, p);
      StepKeepsInv(s, p, durationS);
      polls := polls + [p];
    }
  }

  /** However many ordinary processes a host runs, a campaign on it completes and is accepted. */
  lemma {:induction false} QuietHostPasses(durationS: nat, h: Host) returns (polls: seq<Poll>)
    requires CampaignDuration(durationS) && Quiet(h)
    ensures |polls| > 0 && polls[|polls| - 1].elapsed >= durationS * SECOND && Run(Initial(durationS), polls).Some?
    ensures var s := Run(Initial(durationS), polls).value;
            Accepts(s.rows, durationS) && Watched(s, h, (durationS - 1) / 200 + 1)
  {
    var n := (durationS - 1) / 200 + 1;
    polls := QuietPolls(durationS, h, n);
    var s, p := Run(Initial(durationS), polls).value, Steady(h, n);
    RunLast(Initial(durationS), polls, p);
    polls := polls + [p];
    CompletedRunAccepted(durationS, polls);
  }

  /** One heavy process outside the owners, and the first sample already refuses. */
  lemma {:induction false} NoisyHostRefused(durationS: nat, p: Poll, i: nat)
    requires CampaignDuration(durationS) && p.elapsed < durationS * SECOND && Competes(p.entries, p.owners, i)
    ensures Step(Initial(durationS), p).None?
  {
    if CensusOf(p.entries, p.owners).Some? {
      QuietCensus(p.entries, p.owners);
    }
  }
}
