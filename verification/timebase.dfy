/** `src/common/timebase.rs`: a newtype around `AVRational`. */
module Timebases {
  import opened Ints

  /** The library's `AVRational`. */
  datatype Rational = Rational(num: i32, den: i32)

  datatype Timebase = Timebase(rat: Rational)

  function New(num: i32, den: i32): (tb: Timebase)
    ensures Num(tb) == num && Den(tb) == den
  {
    Timebase(Rational(num, den))
  }

  function Num(tb: Timebase): i32 { tb.rat.num }

  function Den(tb: Timebase): i32 { tb.rat.den }

  /** `From<(c_int, c_int)>`. */
  function FromPair(pair: (i32, i32)): (tb: Timebase)
    ensures Num(tb) == pair.0 && Den(tb) == pair.1
  {
    New(pair.0, pair.1)
  }

  /** `From<c_int>`: the time base 1/den. */
  function FromDen(den: i32): (tb: Timebase)
    ensures Num(tb) == 1 && Den(tb) == den
  {
    New(1, den)
  }

  /** `From<AVRational>`. */
  function FromRational(r: Rational): (tb: Timebase)
    ensures Num(tb) == r.num && Den(tb) == r.den
  {
    Timebase(r)
  }

  /** `Into<AVRational>`. */
  function IntoRational(tb: Timebase): (r: Rational)
    ensures r.num == Num(tb) && r.den == Den(tb)
  {
    tb.rat
  }

  /** The two conversions are mutually inverse. */
  lemma RationalRoundTrip(r: Rational, tb: Timebase)
    ensures IntoRational(FromRational(r)) == r
    ensures FromRational(IntoRational(tb)) == tb
  {
  }
}
