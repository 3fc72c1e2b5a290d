/** What the native sampler reports, and the continuity one lifetime of it is held to. */
module NativeSampler {
  import opened Prelude

  const MAX_NATIVE_ROWS := 86400

  datatype Identity = Identity(projectionId: nat, planHash: string)

  datatype NativeField = SampledHead | StatisticsHead | ProjectionGeneration | AppliedThrough

  datatype NativeReading = NativeReading(index: nat, version: nat, incarnation: nat, identity: Identity,
                                         sampledHead: nat, statisticsHead: nat, projectionGeneration: nat,
                                         appliedThrough: nat, projectionBacklog: nat, outboxBacklog: nat,
                                         outboxDegraded: bool, attempts: nat, retries: nat, auxiliarySlots: nat)

  datatype NativeRow = NativeRow(reading: NativeReading, ns: nat)

  const ALL_NATIVE: set<NativeField> := {SampledHead, StatisticsHead, ProjectionGeneration, AppliedThrough}

  function NativeAt(v: NativeReading, f: NativeField): nat {
    match f
    case SampledHead => v.sampledHead
    case StatisticsHead => v.statisticsHead
    case ProjectionGeneration => v.projectionGeneration
    case AppliedThrough => v.appliedThrough
  }

  predicate NativeNoLower(before: NativeReading, after: NativeReading, fields: set<NativeField>) {
    forall f :: f in fields ==> NativeAt(before, f) <= NativeAt(after, f)
  }

  predicate NativeNumbers(v: NativeReading) {
    && U64(v.index) && U64(v.version) && U64(v.incarnation) && U64(v.identity.projectionId) && U64(v.sampledHead)
    && U64(v.statisticsHead) && U64(v.projectionGeneration) && U64(v.appliedThrough) && U64(v.projectionBacklog)
    && U64(v.outboxBacklog) && U64(v.attempts) && U64(v.retries) && U64(v.auxiliarySlots)
  }

  /** One sampler lifetime accepts `v` after `last`. */
  predicate SamplerAdmits(last: Option<NativeReading>, identity: Identity, version: nat, v: NativeReading) {
    && v.index == (if last.None? then 0 else last.value.index + 1) && v.index < MAX_NATIVE_ROWS
    && NativeNumbers(v) && 1 <= version <= 2 && v.version == version && v.identity == identity
    && 0 < v.sampledHead <= v.statisticsHead && 0 < v.incarnation && 0 < v.projectionGeneration && 0 < v.appliedThrough
    && v.projectionBacklog == Max(v.sampledHead - v.appliedThrough, 0)
    && v.attempts == 3 && v.retries == 0 && v.auxiliarySlots == 1
    && (last.Some? ==> v.incarnation == last.value.incarnation && NativeNoLower(last.value, v, ALL_NATIVE))
  }
}
