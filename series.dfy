/** Daily OHLCV bars and the arithmetic over price sequences that several components share. */
module Series {
  import opened Calendar

  /** One trading day: `{date, open, high, low, close, volume}`. */
  datatype Bar = Bar(date: Day, open: real, high: real, low: real, close: real, volume: int)

  /** `data.map(item => item.close)`. */
  function Closes(bars: seq<Bar>): (r: seq<real>)
    ensures |r| == |bars|
    ensures forall k :: 0 <= k < |bars| ==> r[k] == bars[k].close
  {
    seq(|bars|, k requires 0 <= k < |bars| => bars[k].close)
  }

  /** `reduce((sum, x) => sum + x, 0)`: a left fold, so the last element is added last. */
  function Min(a: int, b: int): int {
    if a <= b then a else b
  }

  function Sum(s: seq<real>): real {
    if s == [] then 0.0 else Sum(s[..|s| - 1]) + s[|s| - 1]
  }

  function Mean(s: seq<real>): real
    requires |s| > 0
  {
    Sum(s) / (|s| as real)
  }

  predicate Within(s: seq<real>, lo: real, hi: real) {
    forall k :: 0 <= k < |s| ==> lo <= s[k] <= hi
  }

  lemma {:induction false} SumAppend(a: seq<real>, x: real)
    ensures Sum(a + [x]) == Sum(a) + x
  {
    assert (a + [x])[..|a + [x]| - 1] == a;
  }

  lemma {:induction false} SumBounds(s: seq<real>, lo: real, hi: real)
    requires Within(s, lo, hi)
    ensures (|s| as real) * lo <= Sum(s) <= (|s| as real) * hi
  {
    if s != [] {
      var init := s[..|s| - 1];
      assert Within(init, lo, hi) by {
        forall k | 0 <= k < |init| ensures lo <= init[k] <= hi { assert init[k] == s[k]; }
      }
      SumBounds(init, lo, hi);
    }
  }

  /** Dividing by a positive count keeps a total between `n lo` and `n hi` within `[lo, hi]`. */
  lemma DivideWithin(total: real, n: real, lo: real, hi: real)
    requires n > 0.0 && n * lo <= total <= n * hi
    ensures lo <= total / n <= hi
  {
    assert total / n - lo == (total - n * lo) / n;
    assert hi - total / n == (n * hi - total) / n;
  }

  /** The mean of values that all lie in `[lo, hi]` lies in `[lo, hi]`. */
  lemma MeanWithin(s: seq<real>, lo: real, hi: real)
    requires |s| > 0 && Within(s, lo, hi)
    ensures lo <= Mean(s) <= hi
  {
    SumBounds(s, lo, hi);
    DivideWithin(Sum(s), |s| as real, lo, hi);
  }

  /** `Math.min(...s)`: a member of `s` no larger than any member. */
  function MinOf(s: seq<real>): (m: real)
    requires |s| > 0
    ensures exists k :: 0 <= k < |s| && s[k] == m
    ensures forall k :: 0 <= k < |s| ==> m <= s[k]
  {
    if |s| == 1 then s[0]
    else
      var rest := MinOf(s[1..]);
      assert forall k :: 1 <= k < |s| ==> s[k] == s[1..][k - 1];
      if s[0] <= rest then s[0] else rest
  }

  /** `Math.max(...s)`: a member of `s` no smaller than any member. */
  function MaxOf(s: seq<real>): (m: real)
    requires |s| > 0
    ensures exists k :: 0 <= k < |s| && s[k] == m
    ensures forall k :: 0 <= k < |s| ==> s[k] <= m
  {
    if |s| == 1 then s[0]
    else
      var rest := MaxOf(s[1..]);
      assert forall k :: 1 <= k < |s| ==> s[k] == s[1..][k - 1];
      if s[0] >= rest then s[0] else rest
  }
}
