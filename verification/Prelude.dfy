/** Vocabulary shared by the campaign controllers and their checkers. */
module Prelude {

  datatype Option<+T> = None | Some(value: T)

  newtype Byte = x: int | 0 <= x < 256

  type Bytes = seq<Byte>

  const SECOND: int := 1_000_000_000
  const MAX_U64: int := 0xFFFF_FFFF_FFFF_FFFF

  /** Longest silence any campaign sampler may leave, and the length of one load window. */
  const GAP: int := 255_000_000_000
  const WINDOW: int := 300_000_000_000

  predicate U64(n: int) {
    0 <= n <= MAX_U64
  }

  /** The whole-window campaign lengths every component admits: 73 to 288 windows of 300 s. */
  predicate CampaignDuration(durationS: int) {
    durationS % 300 == 0 && 73 <= durationS / 300 <= 288
  }

  /** Python's `last or 0`. */
  function Since(last: Option<nat>): nat {
    match last
    case None => 0
    case Some(t) => t
  }

  function Max(a: int, b: int): int {
    if a < b then b else a
  }

  function Min(a: int, b: int): int {
    if a < b then a else b
  }
}
