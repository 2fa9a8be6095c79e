/** Decimal arithmetic of the schedulers. Every ease factor they produce is
    2.5 plus a sum of whole hundredths, so an ease factor is kept here as an
    integer count of hundredths: 250 stands for 2.5, 130 for the floor 1.3. */
module Ease {

  /** The ease of a card never reviewed (2.5). */
  const DefaultEase: int := 250

  /** The lowest ease any update produces (1.3). */
  const MinEase: int := 130

  function Max(a: int, b: int): (m: int)
    ensures m >= a && m >= b
    ensures m == a || m == b
  {
    if a >= b then a else b
  }

  /** `Math.round(n / 100)`: the integer nearest to n/100, a half rounded
      up (towards positive infinity). */
  function RoundHundredths(n: int): (r: int)
    ensures 100 * r - 50 <= n < 100 * r + 50
  {
    (n + 50) / 100
  }

  /** Rounding is monotone. */
  lemma RoundMonotone(a: int, b: int)
    requires a <= b
    ensures RoundHundredths(a) <= RoundHundredths(b)
  {
  }

  /** `Math.round(interval * ease)` never falls below the interval when the
      ease is at least the floor 1.3 and the interval is positive. */
  lemma ScaledIntervalGrows(interval: int, ease: int)
    ensures interval >= 1 && ease >= MinEase ==> RoundHundredths(interval * ease) >= interval
  {
    if interval >= 1 && ease >= MinEase {
      assert interval * ease >= interval * MinEase;
      RoundMonotone(100 * interval, interval * ease);
    }
  }
}
