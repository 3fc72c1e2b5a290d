/** The handover as the object the controller drives, sharing the restore clock it was given. */
module Handover {
  import opened Prelude
  import opened Quiescence
  import C = RestoreClock

  /**
   * Every method: a refusal fails the release, a failed release refuses everything and
   * stays as it is, and an accepted call takes the step of the same name.
   */
  class QuiescentRelease {
    const id: Identity
    const clock: C.RecoveryClock?
    var failed: bool
    var stage: Stage
    var started: Option<nat>
    var lastNs: nat
    var loadPaused: bool
    var observer: Option<Observer>
    var snapshot: Option<Snapshot>
    var admission: Option<Reads>
    var witnessed: Option<Witness>
    var published: Option<Published>
    var resumed: Option<Resumed>

    function View(): State
      reads this
    {
      State(id, stage, started, lastNs, loadPaused, observer, snapshot, admission, witnessed, published, resumed)
    }

    function FaultNow(): Option<Fault>
      reads this, clock
    {
      if clock == null then None else Some(Fault(clock.View(), clock.failed))
    }

    constructor (id: Identity, clock: C.RecoveryClock?)
      requires IdentityAdmits(id)
      ensures View() == Fresh(id) && !failed && this.clock == clock
    {
      this.id, this.clock, failed := id, clock, false;
      stage, started, lastNs, loadPaused := Idle, None, 0, false;
      observer, snapshot, admission, witnessed, published, resumed := None, None, None, None, None, None;
    }

    method Start(now: int, pauseLoad: bool, io: bool) returns (ok: bool)
      modifies this
      ensures old(failed) ==> !ok && failed && View() == old(View())
      ensures !old(failed) ==> ok == Begin(old(View()), now, old(FaultNow()), pauseLoad, io).Some? && failed == !ok
      ensures ok ==> View() == Begin(old(View()), now, old(FaultNow()), pauseLoad, io).value
    {
      ok := !failed && MayBegin(View(), now, FaultNow(), pauseLoad, io);
      failed := !ok;
      if ok {
        stage, started, lastNs, loadPaused := Pausing, Some(now), now, pauseLoad;
      }
    }

    /** Read both acknowledgements; ready once both workers have stopped. */
    method PollOnce(now: int, load: File<Load>, seen: File<Observer>) returns (ok: bool, ready: bool)
      modifies this`failed, this`lastNs, this`observer, this`snapshot
      ensures old(failed) ==> !ok && failed && View() == old(View())
      ensures !old(failed) ==> ok == Poll(old(View()), now, old(FaultNow()), load, seen).Some? && failed == !ok
      ensures ok ==> View() == Poll(old(View()), now, old(FaultNow()), load, seen).value
      ensures !ok ==> View() == old(View())
      ensures ready == (ok && Ready(load, seen))
    {
      ok := !failed && MayPoll(View(), now, FaultNow(), load, seen);
      failed, ready := !ok, false;
      if ok {
        lastNs := now;
        if seen.Holds? {
          observer := Some(seen.value);
        }
        if load.Holds? && seen.Holds? {
          snapshot, ready := Some(Snapshot(load.value, seen.value)), true;
        }
      }
    }

    method StopLoad(now: int, load: File<Load>, seen: File<Observer>, io: bool) returns (ok: bool)
      modifies this
      ensures old(failed) ==> !ok && failed && View() == old(View())
      ensures !old(failed) ==> ok == PauseLoad(old(View()), now, old(FaultNow()), load, seen, io).Some? && failed == !ok
      ensures ok ==> View() == PauseLoad(old(View()), now, old(FaultNow()), load, seen, io).value
    {
      if failed {
        return false;
      }
      var paused := loadPaused;
      var polled, _ := PollOnce(now, load, seen);
      ok := !paused && polled && observer.Some? && io;
      failed := !ok;
      if ok {
        loadPaused := true;
      }
    }

    method AdmitReads(now: int, load: File<Load>, seen: File<Observer>, io: bool) returns (ok: bool)
      modifies this
      ensures old(failed) ==> !ok && failed && View() == old(View())
      ensures !old(failed) ==>
                ok == AllowReads(old(View()), now, old(FaultNow()), load, seen, io).Some? && failed == !ok
      ensures ok ==> View() == AllowReads(old(View()), now, old(FaultNow()), load, seen, io).value
    {
      if failed {
        return false;
      }
      var fault := FaultNow();
      var polled, ready := PollOnce(now, load, seen);
      ok := ready && admission.None? && SourceKept(fault, load.value) && io;
      failed := !ok;
      if ok {
        admission := Some(Reads(now, None, None, None));
      }
    }

    method SeeReadsStart(now: int, ack: File<Resumed>) returns (ok: bool, begun: bool)
      modifies this
      ensures old(failed) ==> !ok && failed && View() == old(View())
      ensures !old(failed) ==> ok == ReadsStarted(old(View()), now, old(FaultNow()), ack).Some? && failed == !ok
      ensures ok ==> View() == ReadsStarted(old(View()), now, old(FaultNow()), ack).value && begun == ack.Holds?
    {
      ok := !failed && MayReadsStart(View(), now, FaultNow(), ack);
      failed, begun := !ok, ack.Holds?;
      if ok {
        lastNs := now;
        if ack.Holds? && admission.value.reading.None? {
          admission := Some(admission.value.(reading := Some(Seen(ack.value, now))));
        }
      }
    }

    method StopReads(now: int, marker: File<Identity>, io: bool) returns (ok: bool)
      modifies this
      ensures old(failed) ==> !ok && failed && View() == old(View())
      ensures !old(failed) ==> ok == PauseReads(old(View()), now, old(FaultNow()), marker, io).Some? && failed == !ok
      ensures ok ==> View() == PauseReads(old(View()), now, old(FaultNow()), marker, io).value
    {
      ok := !failed && MayPauseReads(View(), now, FaultNow(), marker, io);
      failed := !ok;
      if ok {
        lastNs, admission := now, Some(admission.value.(pausedNs := Some(now)));
      }
    }

    method SeeReadsStop(now: int, ack: File<Resumed>) returns (ok: bool, done: bool)
      modifies this
      ensures old(failed) ==> !ok && failed && View() == old(View())
      ensures !old(failed) ==> ok == ReadsQuiesced(old(View()), now, old(FaultNow()), ack).Some? && failed == !ok
      ensures ok ==> View() == ReadsQuiesced(old(View()), now, old(FaultNow()), ack).value && done == ack.Holds?
    {
      ok := !failed && MayQuiesceReads(View(), now, FaultNow(), ack);
      failed, done := !ok, ack.Holds?;
      if ok {
        lastNs := now;
        if ack.Holds? {
          if admission.value.quiesced.None? {
            admission := Some(admission.value.(quiesced := Some(Seen(ack.value, now))));
          }
          witnessed := Some(WitnessOf(snapshot.value.load, admission.value));
        }
      }
    }

    method Release(now: int, load: File<Load>, seen: File<Observer>, version: int, incarnation: int, restore: bool,
                   markerGone: bool, io: bool) returns (ok: bool)
      modifies this
      ensures old(failed) ==> !ok && failed && View() == old(View())
      ensures !old(failed) ==>
                ok == Publish(old(View()), now, old(FaultNow()), load, seen, version, incarnation, restore, markerGone,
                              io).Some?
                && failed == !ok
      ensures ok ==>
                View() == Publish(old(View()), now, old(FaultNow()), load, seen, version, incarnation, restore,
                                  markerGone, io).value
    {
      if failed {
        return false;
      }
      var may := MayPublish(View(), version, incarnation, restore, markerGone);
      var polled, ready := PollOnce(now, load, seen);
      ok := ready && may && io;
      failed := !ok;
      if ok {
        published, stage := Some(Published(id.generation + 1, version, incarnation, restore)), Released;
      }
    }

    method LetGo(now: int, io: bool) returns (ok: bool)
      modifies this
      ensures old(failed) ==> !ok && failed && View() == old(View())
      ensures !old(failed) ==> ok == Resume(old(View()), now, old(FaultNow()), io).Some? && failed == !ok
      ensures ok ==> View() == Resume(old(View()), now, old(FaultNow()), io).value
    {
      ok := !failed && Ticks(View(), now, FaultNow()) && stage == Released && io;
      failed := !ok;
      if ok {
        lastNs, stage := now, Resuming;
      }
    }

    method SeeResumed(now: int, generation: int, incarnation: int, duplicates: int, ack: File<Resumed>, io: bool)
      returns (ok: bool)
      modifies this
      ensures old(failed) ==> !ok && failed && View() == old(View())
      ensures !old(failed) ==>
                ok == WorkersResumed(old(View()), now, old(FaultNow()), generation, incarnation, duplicates, ack,
                                     io).Some?
                && failed == !ok
      ensures ok ==>
                View() == WorkersResumed(old(View()), now, old(FaultNow()), generation, incarnation, duplicates, ack,
                                         io).value
    {
      ok := !failed && MayComplete(View(), now, FaultNow(), generation, incarnation, duplicates, ack, io);
      failed := !ok;
      if ok {
        lastNs, resumed, stage := now, Some(ack.value), Complete;
      }
    }
  }
}
