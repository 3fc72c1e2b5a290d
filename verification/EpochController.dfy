/** The controller object whose calls `EpochModel` describes value by value. */
module EpochController {
  import opened Prelude
  import opened Windows
  import opened LogTail
  import opened NativeSampler
  import Model = EpochModel
  import opened EpochModel

  /** What the open epoch was released with. */
  datatype Release = Release(version: nat, incarnation: nat, identity: Identity, epoch: nat, owners: Owners,
                             started: Per<nat>, startedNative: nat)

  /** The component collectors, with the floors their next readings are held to. */
  datatype Components = Components(samples: Per<Collector>, floors: Per<Option<Floor>>)

  /** The native sampler's rows and the floor of its next reading. */
  datatype NativeSide = NativeSide(sampler: Option<NativeReading>, rows: seq<NativeRow>, attempts: nat,
                                   floor: Option<NativeFloor>)

  /**
   * Observe a poll's lines in order. What a line is depends on nothing observed, so reading
   * them all first comes to the same as observing each as it is read.
   */
  method ObserveRead(s: State, lines: seq<Bytes>, file: LogFile, t: nat) returns (read: Option<State>)
    ensures read == ObserveLines(s, lines, file, t)
  {
    read := Some(s);
    assert lines[0..] == lines;
    for i := 0 to |lines|
      invariant read.Some? && ObserveLines(read.value, lines[i..], file, t) == ObserveLines(s, lines, file, t)
    {
      var family := Family(lines[i]);
      assert lines[i..][1..] == lines[i + 1..];
      if family.Some? {
        read := Model.ObserveComponent(read.value, family.value, ParsedLine(file, lines[i]), t);
        if read.None? {
          return;
        }
      }
    }
  }

  class Controller {
    const duration: nat
    var release: Release
    var components: Components
    var native: NativeSide
    var lastNs: Option<nat>
    var complete: bool
    var failed: bool
    var log: Log
    var output: seq<EpochRow>

    function View(): State
      reads this
    {
      State(duration, release.version, release.incarnation, release.identity, components.samples, native.sampler,
            native.rows,
            native.attempts, native.floor, lastNs, complete, release.epoch, components.floors, release.owners,
            release.started, release.startedNative, log, output)
    }

    constructor (durationS: nat, identity: Identity, owners: Owners)
      requires CampaignDuration(durationS)
      ensures View() == InitialState(durationS, identity, owners) && !failed
    {
      duration := durationS * SECOND;
      release := Release(1, 1, identity, 0, owners, Per(0, 0, 0, 0), 0);
      var empty := Collector(None, None, [], 0);
      components := Components(Per(empty, empty, empty, empty), Per(None, None, None, None));
      native := NativeSide(None, [], 0, None);
      lastNs, complete, failed := None, false, false;
      log := Log(false, false, 0, 0, None, {}, 0, 0, 0, 0);
      output := [Transition(Initial, 0, 0, owners.serverCount, owners.samplerCount, 1, 1, Per(0, 0, 0, 0), 0, 0, 0)];
    }

    method ObserveComponent(c: Component, parsed: Parsed, t: nat) returns (ok: bool)
      modifies this`components
      ensures ok == Model.ObserveComponent(old(View()), c, parsed, t).Some?
      ensures ok ==> View() == Model.ObserveComponent(old(View()), c, parsed, t).value
    {
      if parsed.Malformed? {
        return false;
      }
      if parsed.Ignored? {
        return true;
      }
      var value := parsed.reading;
      if !ReadingBounded(c, value) {
        return false;
      }
      if t >= duration {
        return true;
      }
      var floor, k := components.floors.Of(c), components.samples.Of(c);
      if floor.Some? && !NoLower(floor.value.values, value, floor.value.keys) {
        return false;
      }
      if !Admits(c, k, value, t, release.incarnation) {
        return false;
      }
      components := Components(components.samples.With(c, Collected(k, value, t)), components.floors.With(c, None));
      return true;
    }

    /** A refusal of any call below leaves the controller failed, and a failed controller refuses every call. */
    method Observe(c: Component, parsed: Parsed, t: int, r: Roster) returns (ok: bool)
      modifies this
      ensures old(failed) ==> !ok && failed && View() == old(View())
      ensures !old(failed) ==> ok == Model.Observe(old(View()), c, parsed, t, r).Some? && failed == !ok
      ensures ok ==> View() == Model.Observe(old(View()), c, parsed, t, r).value
    {
      if failed {
        return false;
      }
      ok := ClockAdmits(View(), t) && OwnersCurrent(View(), r) && LogCurrent(View());
      if ok {
        lastNs := Some(t);
        ok := ObserveComponent(c, parsed, t);
      }
      failed := !ok;
    }

    method ObserveNative(v: NativeReading, t: int, r: Roster) returns (ok: bool)
      modifies this
      ensures old(failed) ==> !ok && failed && View() == old(View())
      ensures !old(failed) ==> ok == Model.ObserveNative(old(View()), v, t, r).Some? && failed == !ok
      ensures ok ==> View() == Model.ObserveNative(old(View()), v, t, r).value
    {
      if failed {
        return false;
      }
      ok := CanObserveNative(View(), v, t, r);
      failed := !ok;
      if ok {
        lastNs := Some(t);
        native := NativeSide(Some(v), native.rows + [NativeRow(v, t)], native.attempts + v.attempts, None);
      }
    }

    method MakeTransition(kind: Kind, t: int, version': int, incarnation': int, identity': Identity, r: Roster)
      returns (ok: bool)
      modifies this
      ensures old(failed) ==> !ok && failed && View() == old(View())
      ensures !old(failed) ==>
                ok == Model.MakeTransition(old(View()), kind, t, version', incarnation', identity', r).Some?
                && failed == !ok
      ensures ok ==> View() == Model.MakeTransition(old(View()), kind, t, version', incarnation', identity', r).value
    {
      if failed {
        return false;
      }
      ok := CanTransition(View(), kind, t, version', incarnation', identity', r);
      failed := !ok;
      if ok {
        OpenEpoch(kind, t, version', incarnation', identity', r);
      }
    }

    /** Reset what belongs to the replaced processes, carry the floors over, and record the transition. */
    method OpenEpoch(kind: Kind, t: nat, version': nat, incarnation': nat, identity': Identity, r: Roster)
      requires CanTransition(View(), kind, t, version', incarnation', identity', r)
      modifies this`release, this`native, this`components, this`lastNs, this`output
      ensures Some(View()) == Model.MakeTransition(old(View()), kind, t, version', incarnation', identity', r)
    {
      var s := View();
      var kept := kind != Restore && identity' == release.identity;
      var keys := if kept then ALL_NATIVE else {SampledHead, StatisticsHead};
      var floor := NativeFloor(keys, native.rows[|native.rows| - 1].reading);
      var owners := Owners(r.server.value, r.sampler.value, r.serverCount, r.samplerCount);
      release := Release(version', incarnation', identity', release.epoch + 1, owners, Counts(s), |native.rows|);
      native, lastNs := native.(sampler := None, floor := Some(floor)), Some(t);
      components := Components(SamplesAfter(s, kind), FloorsAfter(s, kind));
      output := output + [TransitionRow(s, kind, t, version', incarnation', r)];
    }

    method BindLog(t: int, r: Roster, file: LogFile) returns (ok: bool)
      modifies this
      ensures old(failed) ==> !ok && failed && View() == old(View())
      ensures !old(failed) ==> ok == Model.BindLog(old(View()), t, r, file).Some? && failed == !ok
      ensures ok ==> View() == Model.BindLog(old(View()), t, r, file).value
    {
      if failed {
        return false;
      }
      ok := CanBind(View(), t, r, file);
      failed := !ok;
      if ok {
        var offset := if log.enabled then 0 else |file.content|;
        lastNs := Some(t);
        log := Log(true, true, release.owners.server, release.epoch, None, log.identities + {file.identity},
                   file.identity, log.completed,
                   |file.content|, offset);
        output := output + [BoundLog(release.epoch, t, release.owners.serverCount, release.owners.samplerCount,
                                     offset)];
      }
    }

    method PollLog(t: int, retired: Option<Kind>, r: Roster, file: LogFile) returns (ok: bool, drained: bool)
      modifies this
      ensures old(failed) ==> !ok && failed && View() == old(View())
      ensures !old(failed) ==> ok == Model.PollLog(old(View()), t, retired, r, file).Some? && failed == !ok
      ensures ok ==> Polled(View(), drained) == Model.PollLog(old(View()), t, retired, r, file).value
    {
      drained := false;
      if failed {
        return false, drained;
      }
      ok := CanPoll(View(), t, retired, r, file);
      if ok {
        lastNs := Some(t);
        log := log.(observed := |file.content|);
        var scan := ReadLines(file.content, log.offset, {}, 0);
        var read := ObserveRead(View(), scan.lines, file, t);
        ok := scan.end != OverBound && read.Some?;
        if ok {
          LinesTouchOnlySamples(View(), scan.lines, file, t);
          components := Components(read.value.samples, read.value.floors);
          log := log.(offset := scan.offset);
          ok, drained := AfterRead(t, retired, file, scan.end);
        }
      }
      failed := !ok;
    }

    /** Leave a live or unfinished file open; close a drained retired one. */
    method AfterRead(t: nat, retired: Option<Kind>, file: LogFile, end: End) returns (ok: bool, drained: bool)
      requires end != OverBound
      modifies this`log, this`output
      ensures var s := old(View());
              if retired.None? || end == Repeat then ok && View() == s && drained == (end == Eof)
              else
                var closed := CloseRetired(s, retired.value, t, file, if end == Eof then 0 else end.bytes);
                ok == closed.Some? && (ok ==> View() == closed.value && drained)
    {
      ok, drained := true, end == Eof;
      if retired.Some? && end != Repeat {
        var partialBytes := if end == Eof then 0 else end.bytes;
        ok, drained := partialBytes == 0 || retired.value == Kill, true;
        if ok {
          output := output + [RetiredLog(release.epoch, t, release.owners.serverCount, release.owners.samplerCount,
                                         |file.content|, partialBytes)];
          log := log.(open := false, retired := retired, completed := log.completed + |file.content|);
        }
      }
    }

    method CheckGaps(t: int, r: Roster, file: LogFile) returns (ok: bool)
      modifies this
      ensures old(failed) ==> !ok && failed && View() == old(View())
      ensures !old(failed) ==> ok == Model.CheckGaps(old(View()), t, r, file).Some? && failed == !ok
      ensures ok ==> View() == Model.CheckGaps(old(View()), t, r, file).value
    {
      if failed {
        return false;
      }
      if log.enabled && log.open && (lastNs.None? || t > lastNs.value) {
        var drained;
        ok, drained := PollLog(t, None, r, file);
      } else {
        ok := ClockAdmits(View(), t);
        lastNs := if ok then Some(t) else lastNs;
      }
      ok := ok && GapsHold(View(), t);
      failed := !ok;
    }

    method Finish(t: int, r: Roster) returns (ok: bool)
      modifies this
      ensures old(failed) ==> !ok && failed && View() == old(View())
      ensures !old(failed) ==> ok == Model.Finish(old(View()), t, r).Some? && failed == !ok
      ensures ok ==> View() == Model.Finish(old(View()), t, r).value
    {
      if failed {
        return false;
      }
      ok := && ClockAdmits(View(), t) && OwnersCurrent(View(), r) && LogCurrent(View())
            && |native.rows| > release.startedNative && t >= duration
            && forall c: Component :: CollectorFinishes(c, components.samples.Of(c), duration);
      failed := !ok;
      if ok {
        lastNs, complete := Some(t), true;
      }
    }
  }
}
