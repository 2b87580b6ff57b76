/** `Math.round` and `Number.prototype.toFixed(1)` of a ratio, computed exactly on integers. */
module Rounding {
  import opened Text

  /** `Math.round(p / q)`: the integer nearest to p/q, halves rounded up. */
  function RoundDiv(p: int, q: int): (r: int)
    requires q > 0
    ensures 2 * q * r - q <= 2 * p < 2 * q * r + q
  {
    var n := 2 * p + q;
    var d := 2 * q;
    var r := n / d;
    assert d * r <= n < d * r + d;
    r
  }

  /** `total > 0 ? Math.round((part / total) * 100) : 100`, the success rate used by the ping
      summary and by the dashboard. */
  function RoundedPercent(part: nat, total: nat): nat
  {
    if total == 0 then 100 else RoundDiv(100 * part, total)
  }

  /** A rate never exceeds 100 when the part is at most the whole, a full part is 100 and
      an empty one, out of a positive total, is 0. */
  lemma RoundedPercentBounds(part: nat, total: nat)
    requires part <= total
    ensures RoundedPercent(part, total) <= 100
    ensures part == total ==> RoundedPercent(part, total) == 100
    ensures total > 0 && part == 0 ==> RoundedPercent(part, total) == 0
  {
    if total > 0 {
      var r := RoundDiv(100 * part, total);
      RoundedBelow(100 * part, total, r, 100);
      if part == total {
        RoundedAbove(100 * part, total, r, 100);
      }
      if part == 0 {
        RoundedBelow(0, total, r, 0);
      }
    }
  }

  /** A rounded quotient of p by q is at most m when p is at most m times q. */
  lemma RoundedBelow(p: int, q: int, r: int, m: int)
    requires q > 0 && 2 * q * r - q <= 2 * p && p <= m * q
    ensures r <= m
  {
    assert q * (2 * r - 2 * m - 1) <= 0;
    NonPositiveFactor(q, 2 * r - 2 * m - 1);
  }

  /** A rounded quotient of p by q is at least m when p is at least m times q. */
  lemma RoundedAbove(p: int, q: int, r: int, m: int)
    requires q > 0 && 2 * p < 2 * q * r + q && m * q <= p
    ensures m <= r
  {
    assert q * (2 * m - 2 * r - 1) < 0;
    NonPositiveFactor(q, 2 * m - 2 * r - 1);
  }

  lemma NonPositiveFactor(q: int, x: int)
    requires q > 0 && q * x <= 0
    ensures x <= 0
  {
  }

  /** The worked figures: no pings is 100%, three successes out of four is 75%. */
  lemma RoundedPercentExamples()
    ensures RoundedPercent(0, 0) == 100
    ensures RoundedPercent(3, 4) == 75
    ensures RoundedPercent(1, 8) == 13
  {
  }

  /** `x.toFixed(1)` for x = tenths / 10: the integer part, a dot and one decimal. */
  function FixedOne(tenths: nat): string
  {
    NatToDecimal(tenths / 10) + "." + [DigitChar(tenths % 10)]
  }
}
