/** Numeric helpers: Python's `int()` on a float, JavaScript's `Math.round`, and
    the min / max / sum / mean aggregates of a non-empty sequence of prices. */
module Numbers {

  /** Python's `int(x)` on a float: truncation toward zero. */
  function Trunc(x: real): (r: int)
    ensures x >= 0.0 ==> 0 <= r && r as real <= x < r as real + 1.0
    ensures x < 0.0 ==> r <= 0 && r as real - 1.0 < x <= r as real
  {
    if x >= 0.0 then x.Floor else -((-x).Floor)
  }

  /** JavaScript's `Math.round(x)`: the nearest integer, halves rounded up. */
  function RoundHalfUp(x: real): (r: int)
    ensures x - 0.5 < r as real <= x + 0.5
  {
    (x + 0.5).Floor
  }

  function SumOf(s: seq<real>): real
  {
    if s == [] then 0.0 else s[0] + SumOf(s[1..])
  }

  function MinOf(s: seq<real>): (m: real)
    requires |s| > 0
    ensures m in s
    ensures forall i :: 0 <= i < |s| ==> m <= s[i]
  {
    if |s| == 1 then s[0]
    else
      var rest := MinOf(s[1..]);
      if s[0] <= rest then s[0] else rest
  }

  function MaxOf(s: seq<real>): (m: real)
    requires |s| > 0
    ensures m in s
    ensures forall i :: 0 <= i < |s| ==> s[i] <= m
  {
    if |s| == 1 then s[0]
    else
      var rest := MaxOf(s[1..]);
      if s[0] >= rest then s[0] else rest
  }

  /** `sum(s) / len(s)`. */
  function MeanOf(s: seq<real>): real
    requires |s| > 0
  {
    SumOf(s) / (|s| as real)
  }

  /** Every element lies between the bounds, so the sum lies between |s| copies of them. */
  lemma {:induction false} SumBetween(s: seq<real>, lo: real, hi: real)
    requires forall i :: 0 <= i < |s| ==> lo <= s[i] <= hi
    ensures (|s| as real) * lo <= SumOf(s) <= (|s| as real) * hi
  {
    if s != [] {
      SumBetween(s[1..], lo, hi);
      assert (|s| as real) * lo == lo + (|s[1..]| as real) * lo;
      assert (|s| as real) * hi == hi + (|s[1..]| as real) * hi;
    }
  }

  /** A mean respects any bounds that every element respects. */
  lemma MeanBetween(s: seq<real>, lo: real, hi: real)
    requires |s| > 0
    requires forall i :: 0 <= i < |s| ==> lo <= s[i] <= hi
    ensures lo <= MeanOf(s) <= hi
  {
    SumBetween(s, lo, hi);
    DivBounds(SumOf(s), |s| as real, lo, hi);
  }

  /** The mean of a non-empty sequence lies between its minimum and its maximum. */
  lemma MeanBetweenMinAndMax(s: seq<real>)
    requires |s| > 0
    ensures MinOf(s) <= MeanOf(s) <= MaxOf(s)
  {
    MeanBetween(s, MinOf(s), MaxOf(s));
  }

  lemma DivBounds(sum: real, n: real, lo: real, hi: real)
    requires n > 0.0 && n * lo <= sum <= n * hi
    ensures lo <= sum / n <= hi
  {
  }
}
