/** The offered load, window by window: what was offered, completed and still open. */
module LoadWindows {
  import opened Prelude
  import opened Windows
  import P = Progress

  const COMMANDS := 30000
  const READS := 120000

  datatype Worker = Worker(startS: nat, endS: nat, offeredCommands: nat, offeredReads: nat, commands: nat,
                           readCount: nat)

  /** One canonical-history observation: live history bytes plus removed keys. */
  datatype History = History(ns: nat, amount: nat)

  datatype Window = Window(startS: nat, endS: nat, commands: nat, readCount: nat, unresolved: int, history: nat,
                           backlog: int)

  function Commands(load: seq<Worker>): nat {
    if |load| == 0 then 0 else Commands(load[..|load| - 1]) + load[|load| - 1].commands
  }

  function Reads(load: seq<Worker>): nat {
    if |load| == 0 then 0 else Reads(load[..|load| - 1]) + load[|load| - 1].readCount
  }

  /** The largest history amount seen in window `k`. */
  function Largest(logical: seq<History>, k: int, windows: nat): Option<nat> {
    if |logical| == 0 then None
    else
      var rest, last := Largest(logical[..|logical| - 1], k, windows), logical[|logical| - 1];
      if WindowOf(last.ns, windows) == k then Some(Max(Since(rest), last.amount)) else rest
  }

  /** Some row of the window has this amount and none has more; without a row there is no amount. */
  ghost predicate GreatestIn(logical: seq<History>, k: int, windows: nat, top: Option<nat>) {
    if top.None? then forall i :: 0 <= i < |logical| ==> WindowOf(logical[i].ns, windows) != k
    else && (exists i :: 0 <= i < |logical| && WindowOf(logical[i].ns, windows) == k && logical[i].amount == top.value)
         && forall i :: 0 <= i < |logical| && WindowOf(logical[i].ns, windows) == k ==> logical[i].amount <= top.value
  }

  lemma {:induction false} LargestIsGreatest(logical: seq<History>, k: int, windows: nat)
    ensures GreatestIn(logical, k, windows, Largest(logical, k, windows))
  {
    if |logical| > 0 {
      var n := |logical| - 1;
      var front, top := logical[..n], Largest(logical, k, windows);
      LargestIsGreatest(front, k, windows);
      assert forall i :: 0 <= i < n ==> front[i] == logical[i];
      if top.Some? {
        if WindowOf(logical[n].ns, windows) != k || logical[n].amount != top.value {
          var i :| 0 <= i < |front| && WindowOf(front[i].ns, windows) == k && front[i].amount == top.value;
          assert logical[i].amount == top.value;
        }
      }
    }
  }

  predicate HistoryOk(h: History, duration: nat) {
    h.ns < duration && U64(h.amount) && U64(h.ns)
  }

  ghost predicate LogicalOk(logical: seq<History>, durationS: nat) {
    && 0 < |logical| <= 2048 && (forall i :: 0 <= i < |logical| ==> HistoryOk(logical[i], durationS * SECOND))
    && forall k :: 0 <= k < durationS / 300 ==> Largest(logical, k, durationS / 300).Some?
  }

  predicate WorkerOk(w: Worker, i: nat) {
    && w.startS == i * 300 && w.endS == (i + 1) * 300 && w.offeredCommands == COMMANDS && w.offeredReads == READS
    && U64(w.commands) && U64(w.readCount)
  }

  /** Nothing completes before it was offered, and no event is seen before its command could be. */
  ghost predicate WindowOk(load: seq<Worker>, events: seq<nat>, i: nat)
    requires i < |load| == |events|
  {
    && WorkerOk(load[i], i) && Commands(load[..i + 1]) <= (i + 1) * 300 * 100
    && Reads(load[..i + 1]) <= (i + 1) * 300 * 400
    && events[i] <= P.Events((i + 1) * 300 * 100) && U64(events[i])
  }

  ghost predicate Accepted(load: seq<Worker>, events: seq<nat>, logical: seq<History>, durationS: nat) {
    && CampaignDuration(durationS) && |load| == |events| == durationS / 300 && LogicalOk(logical, durationS)
    && (forall i :: 0 <= i < |load| ==> WindowOk(load, events, i))
    && Commands(load) == durationS * 100 && Reads(load) == durationS * 400
  }

  /** What window `i` reports: the running balance of the load, and offered matches less acknowledged events. */
  ghost function Reported(load: seq<Worker>, events: seq<nat>, logical: seq<History>, i: nat): Window
    requires i < |load| == |events|
  {
    Window(i * 300, (i + 1) * 300, load[i].commands, load[i].readCount, (i + 1) * COMMANDS - Commands(load[..i + 1]),
           Since(Largest(logical, i, |load|)), 1024 + P.Matches((i + 1) * COMMANDS) - events[i])
  }

  method Maxima(logical: seq<History>, durationS: nat) returns (ok: bool, maxima: seq<Option<nat>>)
    requires CampaignDuration(durationS)
    ensures ok <==> LogicalOk(logical, durationS)
    ensures ok ==> |maxima| == durationS / 300
    ensures ok ==> forall k :: 0 <= k < |maxima| ==> maxima[k] == Largest(logical, k, |maxima|)
    ensures ok ==> forall k :: 0 <= k < |maxima| ==> GreatestIn(logical, k, |maxima|, maxima[k])
  {
    var n := durationS / 300;
    maxima := seq(n, _ => None);
    if !(0 < |logical| <= 2048) {
      return false, maxima;
    }
    for i := 0 to |logical|
      invariant forall j :: 0 <= j < i ==> HistoryOk(logical[j], durationS * SECOND)
      invariant |maxima| == n && forall k :: 0 <= k < n ==> maxima[k] == Largest(logical[..i], k, n)
    {
      if !HistoryOk(logical[i], durationS * SECOND) {
        return false, maxima;
      }
      assert logical[..i + 1][..i] == logical[..i];
      var k := logical[i].ns / WINDOW;
      maxima := maxima[k := Some(Max(Since(maxima[k]), logical[i].amount))];
    }
    assert logical[..|logical|] == logical;
    forall k | 0 <= k < n
      ensures GreatestIn(logical, k, n, maxima[k])
    {
      LargestIsGreatest(logical, k, n);
    }
    ok := forall k :: 0 <= k < n ==> maxima[k].Some?;
  }

  /** Accepts exactly the balanced loads, and reports the running balance of every window. */
  method Observe(load: seq<Worker>, events: seq<nat>, logical: seq<History>, durationS: nat)
    returns (ok: bool, windows: seq<Window>)
    ensures ok <==> Accepted(load, events, logical, durationS)
    ensures ok ==> |windows| == |load| == |events|
                   && forall i :: 0 <= i < |load| ==> windows[i] == Reported(load, events, logical, i)
  {
    windows := [];
    if !CampaignDuration(durationS) || |load| != durationS / 300 || |events| != durationS / 300 {
      return false, windows;
    }
    var historyOk, maxima := Maxima(logical, durationS);
    if !historyOk {
      return false, windows;
    }
    var commands, done := 0, 0;
    for i := 0 to |load|
      invariant commands == Commands(load[..i]) && done == Reads(load[..i])
      invariant forall j :: 0 <= j < i ==> WindowOk(load, events, j)
      invariant |windows| == i && forall j :: 0 <= j < i ==> windows[j] == Reported(load, events, logical, j)
    {
      assert load[..i + 1][..i] == load[..i];
      commands, done := commands + load[i].commands, done + load[i].readCount;
      var end := (i + 1) * 300;
      if !WorkerOk(load[i], i) || commands > end * 100 || done > end * 400 || events[i] > P.Events(end * 100)
         || !U64(events[i]) {
        assert !WindowOk(load, events, i);
        return false, windows;
      }
      P.EventsCounts(end * 100);
      windows := windows + [Window(i * 300, end, load[i].commands, load[i].readCount, end * 100 - commands,
                                   Since(maxima[i]), P.Events(end * 100) - events[i])];
    }
    assert load[..|load|] == load;
    ok := commands == durationS * 100 && done == durationS * 400;
  }

  /** Backlog is never negative; the open commands are a running balance that ends at zero. */
  lemma {:induction false} BalanceHolds(load: seq<Worker>, events: seq<nat>, logical: seq<History>, durationS: nat,
                                        i: nat)
    requires Accepted(load, events, logical, durationS) && i < |load|
    ensures var w := Reported(load, events, logical, i);
            && w.backlog >= 0 && w.unresolved >= 0
            && (w.unresolved - COMMANDS + w.commands
                == if i == 0 then 0 else Reported(load, events, logical, i - 1).unresolved)
            && (i == |load| - 1 ==> w.unresolved == 0)
            && w.commands == load[i].commands && w.readCount == load[i].readCount
            && w.startS == i * 300 && w.endS == w.startS + 300
            && GreatestIn(logical, i, |load|, Some(w.history))
  {
    LargestIsGreatest(logical, i, |load|);
    assert WindowOk(load, events, i);
    P.EventsCounts((i + 1) * 300 * 100);
    assert load[..i + 1][..i] == load[..i];
    assert Commands(load[..i + 1]) == Commands(load[..i]) + load[i].commands;
    if i == 0 {
      assert load[..i] == [];
    }
    if i == |load| - 1 {
      assert load[..i + 1] == load;
    }
  }

  // --- a load that is accepted ---------------------------------------------

  function Even(n: nat): (load: seq<Worker>)
    ensures |load| == n && forall i :: 0 <= i < n ==>
              load[i] == Worker(i * 300, (i + 1) * 300, COMMANDS, READS, COMMANDS, READS)
  {
    seq(n, i requires 0 <= i < n => Worker(i * 300, (i + 1) * 300, COMMANDS, READS, COMMANDS, READS))
  }

  function Histories(n: nat): (logical: seq<History>)
    ensures |logical| == n && forall i :: 0 <= i < n ==> logical[i] == History(i * WINDOW, i)
  {
    seq(n, i requires 0 <= i < n => History(i * WINDOW, i))
  }

  lemma {:induction false} EvenSums(load: seq<Worker>, n: nat)
    requires n <= |load| && forall i :: 0 <= i < |load| ==> load[i].commands == COMMANDS && load[i].readCount == READS
    ensures Commands(load[..n]) == n * COMMANDS && Reads(load[..n]) == n * READS
  {
    if n > 0 {
      EvenSums(load, n - 1);
      assert load[..n][..n - 1] == load[..n - 1];
    } else {
      assert |load[..n]| == 0;
    }
  }

  lemma {:induction false} EvenHistory(n: nat, k: nat)
    requires k < n
    ensures Largest(Histories(n), k, n) == Some(k)
  {
    var logical := Histories(n);
    LargestIsGreatest(logical, k, n);
    assert WindowOf(logical[k].ns, n) == k;
    var top := Largest(logical, k, n);
    if top.Some? {
      var i :| 0 <= i < n && WindowOf(logical[i].ns, n) == k && logical[i].amount == top.value;
      assert i * WINDOW / WINDOW == i;
    }
  }

  lemma {:induction false} EvenWindow(load: seq<Worker>, events: seq<nat>, i: nat)
    requires i < |load| == |events| <= 288 && load == Even(|load|) && events[i] == P.Events((i + 1) * COMMANDS)
    ensures WindowOk(load, events, i) && Commands(load[..i + 1]) == (i + 1) * COMMANDS
    ensures 1024 + P.Matches((i + 1) * COMMANDS) == events[i]
  {
    EvenSums(load, i + 1);
    P.EventsCounts((i + 1) * COMMANDS);
    P.EventsMonotone(0, (i + 1) * COMMANDS);
  }

  /** Completing exactly what is offered, window by window, is accepted with nothing ever open. */
  lemma {:induction false} EvenLoadAccepted(durationS: nat, events: seq<nat>)
    requires CampaignDuration(durationS) && |events| == durationS / 300
    requires forall i :: 0 <= i < |events| ==> events[i] == P.Events((i + 1) * COMMANDS)
    ensures var n := durationS / 300;
            && Accepted(Even(n), events, Histories(n), durationS)
            && forall i :: 0 <= i < n ==>
                 Reported(Even(n), events, Histories(n), i)
                 == Window(i * 300, (i + 1) * 300, COMMANDS, READS, 0, i, 0)
  {
    var n := durationS / 300;
    var load := Even(n);
    forall k | 0 <= k < n
      ensures Largest(Histories(n), k, n) == Some(k)
    {
      EvenHistory(n, k);
    }
    forall i | 0 <= i < n
      ensures WindowOk(load, events, i) && Commands(load[..i + 1]) == (i + 1) * COMMANDS
      ensures 1024 + P.Matches((i + 1) * COMMANDS) == events[i]
    {
      EvenWindow(load, events, i);
    }
    EvenSums(load, n);
    assert load[..n] == load;
  }
}
