/**
 * `duration` of `Muxer` (src/format/muxer.rs) and `Demuxer`
 * (src/format/demuxer.rs): the format context's `duration`, an `int64_t`
 * count of AV_TIME_BASE units (microseconds), as whole seconds in a `u32`.
 * Both read the same field with the same expression.
 */
module Durations {
  import opened Ints
  import opened Ffi

  /** The greatest value the as-written expression can produce: (2^32 - 1) div 10^6. */
  const MAX_AS_WRITTEN: nat := 4294

  /**
   * As written: `duration as u32 / AV_TIME_BASE`. The cast keeps the low
   * 32 bits of the microsecond count before the division, so no duration
   * reads as more than 4294 seconds, and one of exactly 2^32 microseconds
   * reads as zero.
   */
  function SecondsAsWritten(raw: i64): (r: u32)
    ensures raw <= 0 ==> r == 0
    ensures r <= MAX_AS_WRITTEN
    ensures 0 < raw ==> r * AV_TIME_BASE <= raw % TWO_32 < (r + 1) * AV_TIME_BASE
  {
    if raw <= 0 then 0 else WrapU32(raw) / AV_TIME_BASE
  }

  /**
   * Corrected: divide first, then cast, giving the floored number of
   * seconds for every duration of less than 2^32 seconds.
   */
  function Seconds(raw: i64): (r: u32)
    ensures raw <= 0 ==> r == 0
    ensures 0 < raw && raw / AV_TIME_BASE < TWO_32 ==> r * AV_TIME_BASE <= raw < (r + 1) * AV_TIME_BASE
  {
    if raw <= 0 then 0 else WrapU32(raw / AV_TIME_BASE)
  }

  /** The two agree on every duration the 32-bit cast leaves intact. */
  lemma AgreeBelowTwoTo32(raw: i64)
    requires raw < TWO_32
    ensures SecondsAsWritten(raw) == Seconds(raw)
  {
  }

  /** A duration of 2^32 microseconds (about 71.6 minutes) reads as 0 seconds instead of 4294. */
  lemma TruncationCounterexample()
    ensures SecondsAsWritten(TWO_32) == 0
    ensures Seconds(TWO_32) == 4294
  {
  }
}
