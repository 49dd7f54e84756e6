/**
 * Rounding to eight decimals, as `toBTCDigits` does for every BTC amount
 * of the source. src/utils/toBTCDigits.ts is not part of this model; it is
 * modelled as rounding to the nearest satoshi, halves upward.
 */
module BtcDigits {

  const SatoshisPerBtc: int := 100000000

  /** The nearest integer to `x`, halves rounded upward. */
  function RoundHalfUp(x: real): (r: int)
    ensures x - 0.5 < r as real <= x + 0.5
  {
    (x + 0.5).Floor
  }

  /** An integer needs no rounding. */
  lemma RoundHalfUpOfInt(n: int)
    ensures RoundHalfUp(n as real) == n
  {
  }

  /** Rounding stays within [lo, hi] when `x` does, for integer bounds. */
  lemma RoundHalfUpBetween(x: real, lo: int, hi: int)
    requires lo as real <= x <= hi as real
    ensures lo <= RoundHalfUp(x) <= hi
  {
  }

  /** True when `x` has at most eight decimals. */
  predicate IsBtcDigits(x: real)
  {
    (x * SatoshisPerBtc as real).Floor as real == x * SatoshisPerBtc as real
  }

  /** A BTC amount rounded to eight decimals. */
  function ToBtcDigits(x: real): (r: real)
    ensures IsBtcDigits(r)
    ensures x - 0.000000005 < r <= x + 0.000000005
  {
    RoundHalfUp(x * SatoshisPerBtc as real) as real / SatoshisPerBtc as real
  }

  /** Rounding is idempotent: a rounded value rounds to itself. */
  lemma ToBtcDigitsIdempotent(x: real)
    ensures ToBtcDigits(ToBtcDigits(x)) == ToBtcDigits(x)
  {
    var k := RoundHalfUp(x * SatoshisPerBtc as real);
    assert ToBtcDigits(x) * SatoshisPerBtc as real == k as real;
    RoundHalfUpOfInt(k);
  }
}
