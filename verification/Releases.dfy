/** Generation, contract version and history incarnation over a whole campaign of seven faults. */
module Releases {
  import opened Prelude
  import Q = Quiescence

  datatype Kind =
    | ConsumerOutage | SinkOutage | CapabilityRotation | AdditiveDeploy | GracefulRestart | ProcessKill | BackupRestore

  const KINDS: set<Kind> :=
    {ConsumerOutage, SinkOutage, CapabilityRotation, AdditiveDeploy, GracefulRestart, ProcessKill, BackupRestore}

  predicate Releasing(kind: Kind) {
    kind != ConsumerOutage && kind != SinkOutage
  }

  /** The identity the workers are released under after the fault. */
  function After(id: Q.Identity, kind: Kind): Q.Identity {
    Q.Identity(id.generation + (if Releasing(kind) then 1 else 0),
               if kind == AdditiveDeploy then 2 else id.version,
               id.incarnation + (if kind == BackupRestore then 1 else 0))
  }

  function Folded(id: Q.Identity, kinds: seq<Kind>): Q.Identity {
    if |kinds| == 0 then id else After(Folded(id, kinds[..|kinds| - 1]), kinds[|kinds| - 1])
  }

  /** A plan holds each of the seven kinds once, in some order. */
  predicate Plan(kinds: seq<Kind>) {
    |kinds| == 7 && forall i, j :: 0 <= i < j < |kinds| ==> kinds[i] != kinds[j]
  }

  const ORIGINAL := Q.Identity(1, 1, 1)

  // --- counting ------------------------------------------------------------

  ghost function Counted(kinds: seq<Kind>): nat {
    if |kinds| == 0 then 0
    else Counted(kinds[..|kinds| - 1]) + (if Releasing(kinds[|kinds| - 1]) then 1 else 0)
  }

  lemma {:induction false} FoldCounts(id: Q.Identity, kinds: seq<Kind>)
    requires forall i, j :: 0 <= i < j < |kinds| ==> kinds[i] != kinds[j]
    ensures Folded(id, kinds).generation == id.generation + Counted(kinds)
    ensures Folded(id, kinds).version == (if AdditiveDeploy in kinds then 2 else id.version)
    ensures Folded(id, kinds).incarnation == id.incarnation + (if BackupRestore in kinds then 1 else 0)
    decreases |kinds|
  {
    if kinds != [] {
      var front, last := kinds[..|kinds| - 1], kinds[|kinds| - 1];
      FoldCounts(id, front);
      assert kinds == front + [last];
    }
  }

  ghost function Seen(kinds: seq<Kind>): set<Kind> {
    set i | 0 <= i < |kinds| :: kinds[i]
  }

  lemma {:induction false} SeenDistinct(kinds: seq<Kind>)
    requires forall i, j :: 0 <= i < j < |kinds| ==> kinds[i] != kinds[j]
    ensures |Seen(kinds)| == |kinds|
    decreases |kinds|
  {
    if kinds != [] {
      var front, last := kinds[..|kinds| - 1], kinds[|kinds| - 1];
      SeenDistinct(front);
      assert Seen(kinds) == Seen(front) + {last};
    }
  }

  lemma {:induction false} CountSplit(kinds: seq<Kind>)
    requires forall i, j :: 0 <= i < j < |kinds| ==> kinds[i] != kinds[j]
    ensures Counted(kinds) + (if ConsumerOutage in kinds then 1 else 0)
            + (if SinkOutage in kinds then 1 else 0) == |kinds|
    decreases |kinds|
  {
    if kinds != [] {
      var front, last := kinds[..|kinds| - 1], kinds[|kinds| - 1];
      CountSplit(front);
      assert kinds == front + [last];
    }
  }

  lemma {:induction false} Smaller(some: set<Kind>, all: set<Kind>)
    requires some <= all
    ensures |some| <= |all|
    decreases |all|
  {
    if x :| x in all {
      Smaller(some - {x}, all - {x});
    }
  }

  lemma {:induction false} FullSet(some: set<Kind>, all: set<Kind>)
    requires some <= all && |some| == |all|
    ensures some == all
    decreases |all|
  {
    if x :| x in all {
      if x !in some {
        Smaller(some, all - {x});
      } else {
        FullSet(some - {x}, all - {x});
        assert some == some - {x} + {x} && all == all - {x} + {x};
      }
    }
  }

  lemma {:induction false} PlanHolds(kinds: seq<Kind>, kind: Kind)
    requires Plan(kinds)
    ensures kind in kinds && Counted(kinds) == 5
  {
    CountSplit(kinds);
    SeenDistinct(kinds);
    assert Seen(kinds) <= KINDS && |KINDS| == 7;
    FullSet(Seen(kinds), KINDS);
    assert kind in Seen(kinds) && ConsumerOutage in Seen(kinds) && SinkOutage in Seen(kinds);
  }

  /** In whatever order the seven faults are planned, the campaign ends where the checkers expect it. */
  lemma {:induction false} CampaignEnds(kinds: seq<Kind>)
    requires Plan(kinds)
    ensures Folded(ORIGINAL, kinds) == Q.Identity(6, 2, 2)
  {
    FoldCounts(ORIGINAL, kinds);
    PlanHolds(kinds, AdditiveDeploy);
    PlanHolds(kinds, BackupRestore);
  }

  // --- where the restore may stand -----------------------------------------

  lemma {:induction false} CountedFrom(kinds: seq<Kind>, n: nat)
    requires n <= |kinds|
    ensures Counted(kinds[..n]) <= Counted(kinds)
    ensures Counted(kinds[..n]) == Counted(kinds) <==> forall j :: n <= j < |kinds| ==> !Releasing(kinds[j])
    decreases |kinds|
  {
    if n < |kinds| {
      var front := kinds[..|kinds| - 1];
      CountedFrom(front, n);
      assert front[..n] == kinds[..n];
    } else {
      assert kinds[..n] == kinds;
    }
  }

  /**
   * The restore's own release carries the final identity, as the first-write check demands,
   * exactly when no releasing fault is planned after it.
   */
  lemma {:induction false} RestoreReleasesLastIff(kinds: seq<Kind>, p: nat)
    requires Plan(kinds) && p < |kinds| && kinds[p] == BackupRestore
    ensures Folded(ORIGINAL, kinds[..p + 1]) == Q.Identity(6, 2, 2)
       <==> forall j :: p < j < |kinds| ==> !Releasing(kinds[j])
  {
    var part := kinds[..p + 1];
    FoldCounts(ORIGINAL, part);
    CountedFrom(kinds, p + 1);
    PlanHolds(kinds, AdditiveDeploy);
    assert part[p] == BackupRestore;
    if forall j :: p < j < |kinds| ==> !Releasing(kinds[j]) {
      var d :| 0 <= d < |kinds| && kinds[d] == AdditiveDeploy;
      assert part[d] == AdditiveDeploy;
    }
  }
}
