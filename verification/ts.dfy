/** `src/common/ts.rs`: a timestamp in a time base, ordered by `av_compare_ts`. */
module Timestamps {
  import opened Ints
  import opened Timebases

  datatype Ts = Ts(index: i64, timeBase: Timebase)

  /** The library's `av_compare_ts(a, tb_a, b, tb_b)`, abstract. */
  type Compare = (i64, Rational, i64, Rational) -> int

  datatype Ordering = Less | Equal | Greater

  function New(index: i64, timeBase: Timebase): (t: Ts)
    ensures Index(t) == index && TimeBase(t) == timeBase
  {
    Ts(index, timeBase)
  }

  function Index(t: Ts): i64 { t.index }

  function TimeBase(t: Ts): Timebase { t.timeBase }

  /** The one library comparison both `eq` and `cmp` make. */
  function RawCompare(a: Ts, b: Ts, compare: Compare): int
  {
    compare(a.index, IntoRational(a.timeBase), b.index, IntoRational(b.timeBase))
  }

  /** `PartialEq::eq`. */
  predicate Eq(a: Ts, b: Ts, compare: Compare)
  {
    RawCompare(a, b, compare) == 0
  }

  /** `Ord::cmp`: -1, 0, 1 map to Less, Equal, Greater; any other answer is `unreachable!`. */
  function Cmp(a: Ts, b: Ts, compare: Compare): (o: Ordering)
    requires RawCompare(a, b, compare) in {-1, 0, 1}
    ensures o == Less <==> RawCompare(a, b, compare) == -1
    ensures o == Equal <==> RawCompare(a, b, compare) == 0
    ensures o == Greater <==> RawCompare(a, b, compare) == 1
  {
    var c := RawCompare(a, b, compare);
    if c == -1 then Less else if c == 0 then Equal else Greater
  }

  /** `eq` and `cmp` agree, because both ask the library the same question. */
  lemma EqIffCmpEqual(a: Ts, b: Ts, compare: Compare)
    requires RawCompare(a, b, compare) in {-1, 0, 1}
    ensures Eq(a, b, compare) <==> Cmp(a, b, compare) == Equal
  {
  }

  /** `ts += rhs` (an overflowing add panics in a debug build, so it is excluded). */
  function AddAssign(t: Ts, rhs: i64): (r: Ts)
    requires IsI64(t.index + rhs)
    ensures r.index == t.index + rhs
    ensures r.timeBase == t.timeBase
  {
    Ts(t.index + rhs, t.timeBase)
  }

  /** Two additions in a row are one addition of the sum. */
  lemma AddAssignComposes(t: Ts, a: i64, b: i64)
    requires IsI64(t.index + a) && IsI64(t.index + a + b) && IsI64(a + b)
    ensures AddAssign(AddAssign(t, a), b) == AddAssign(t, a + b)
  {
  }
}
