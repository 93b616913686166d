/** The four statistic cards of a stock's detail page, derived from its daily bars. */
module StockStats {
  import opened Wrappers
  import opened Series

  /** Trading days in a year: the 52-week window is the last this many bars. */
  const YearDays: nat := 252

  /** The latest bar, the bar it is compared with, the price change and whether the card shows
      the rising (green) indicator. The 52-week figures and the average volume are computed from
      the bars by the functions below. */
  datatype Stats = Stats(latest: Bar, previous: Bar, change: real, up: bool)

  /** `stockData.slice(-252)`. */
  function YearWindow(data: seq<Bar>): (w: seq<Bar>)
    ensures |w| == if |data| < YearDays then |data| else YearDays
    ensures w == data[|data| - |w|..]
  {
    if |data| <= YearDays then data else data[|data| - YearDays..]
  }

  function Highs(bars: seq<Bar>): (r: seq<real>)
    ensures |r| == |bars| && forall k :: 0 <= k < |bars| ==> r[k] == bars[k].high
  {
    seq(|bars|, k requires 0 <= k < |bars| => bars[k].high)
  }

  function Lows(bars: seq<Bar>): (r: seq<real>)
    ensures |r| == |bars| && forall k :: 0 <= k < |bars| ==> r[k] == bars[k].low
  {
    seq(|bars|, k requires 0 <= k < |bars| => bars[k].low)
  }

  function Volumes(bars: seq<Bar>): (r: seq<real>)
    ensures |r| == |bars| && forall k :: 0 <= k < |bars| ==> r[k] == bars[k].volume as real
  {
    seq(|bars|, k requires 0 <= k < |bars| => bars[k].volume as real)
  }

  /** `(priceChange / previousData.close) * 100`; `None` where the source divides by zero. */
  function PercentChange(s: Stats): (r: Option<real>)
    ensures r.None? <==> s.previous.close == 0.0
    ensures r.Some? ==> r.value * s.previous.close == s.change * 100.0
  {
    if s.previous.close == 0.0 then None
    else
      var q := s.change / s.previous.close;
      assert q * s.previous.close == s.change;
      Some(q * 100.0)
  }


  /** `Math.max(...yearData.map(d => d.high))`. */
  function High52(data: seq<Bar>): (m: real)
    requires |data| > 0
    ensures data[|data| - 1].high <= m
  {
    var w := YearWindow(data);
    assert Highs(w)[|w| - 1] == data[|data| - 1].high;
    MaxOf(Highs(w))
  }

  /** `Math.min(...yearData.map(d => d.low))`. */
  function Low52(data: seq<Bar>): (m: real)
    requires |data| > 0
    ensures m <= data[|data| - 1].low
  {
    var w := YearWindow(data);
    assert Lows(w)[|w| - 1] == data[|data| - 1].low;
    MinOf(Lows(w))
  }

  /** `yearData.reduce((sum, d) => sum + d.volume, 0) / yearData.length`. */
  function AverageVolume(data: seq<Bar>): (a: real)
    requires |data| > 0
    ensures MinOf(Volumes(YearWindow(data))) <= a <= MaxOf(Volumes(YearWindow(data)))
  {
    var v := Volumes(YearWindow(data));
    MeanWithin(v, MinOf(v), MaxOf(v));
    Mean(v)
  }

  /** `(close - low) / (high - low) * 100`; `None` where the source divides by zero. */
  function Position(close: real, low: real, high: real): (r: Option<real>)
    ensures r.None? <==> high == low
    ensures r.Some? ==> r.value * (high - low) == (close - low) * 100.0
  {
    if high == low then None
    else
      var q := (close - low) / (high - low);
      assert q * (high - low) == close - low;
      Some(q * 100.0)
  }

  /** A close between the low and the high sits between 0 % and 100 % of that range. */
  lemma PositionBounds(close: real, low: real, high: real)
    requires low <= close <= high
    ensures Position(close, low, high).Some? ==> 0.0 <= Position(close, low, high).value <= 100.0
  {
    if high != low {
      var q := (close - low) / (high - low);
      assert q * (high - low) == close - low;
    }
  }

  /** The latest close's position within the 52-week range, in percent. */
  function RangePosition(data: seq<Bar>): (r: Option<real>)
    requires |data| > 0
    ensures r.None? <==> Low52(data) == High52(data)
  {
    Position(data[|data| - 1].close, Low52(data), High52(data))
  }

  /** The component's computation; `None` is the `return null` for a missing or empty series. */
  function Summarise(stockData: Option<seq<Bar>>): (r: Option<Stats>)
    ensures r.None? <==> stockData.None? || |stockData.value| == 0
    ensures r.Some? ==>
              var data := stockData.value;
              var n := |data|;
              var s := r.value;
              s.latest == data[n - 1] &&
              s.previous == (if n >= 2 then data[n - 2] else data[n - 1]) &&
              s.change == s.latest.close - s.previous.close &&
              (s.up <==> s.change >= 0.0)
  {
    if stockData.None? || |stockData.value| == 0 then None
    else
      var data := stockData.value;
      var latestData := data[|data| - 1];
      var previousData := if |data| >= 2 then data[|data| - 2] else latestData;
      var priceChange := latestData.close - previousData.close;
      Some(Stats(latestData, previousData, priceChange, priceChange >= 0.0))
  }

  /** A single bar is its own previous bar: the change is 0 and the indicator is up. */
  lemma SingleBarNoChange(b: Bar)
    ensures var s := Summarise(Some([b])).value;
            s.change == 0.0 && s.up && s.previous == b
  {
    assert [b][0] == b;
  }

  /** With a positive previous close the percent change has the sign the indicator shows. */
  lemma PercentMatchesIndicator(data: seq<Bar>)
    requires |data| > 0
    requires var s := Summarise(Some(data)).value; s.previous.close > 0.0
    ensures var s := Summarise(Some(data)).value;
            PercentChange(s).Some? && (PercentChange(s).value >= 0.0 <==> s.up)
  {
    var s := Summarise(Some(data)).value;
    var q := s.change / s.previous.close;
    assert q * s.previous.close == s.change;
  }

  /** The 52-week high is the highest high of the last `min(252, n)` bars, so it is at least the
      latest high. */
  lemma YearHigh(data: seq<Bar>)
    requires |data| > 0
    ensures var w := YearWindow(data);
            (exists k :: 0 <= k < |w| && w[k].high == High52(data)) &&
            (forall k :: 0 <= k < |w| ==> w[k].high <= High52(data)) &&
            data[|data| - 1].high <= High52(data)
  {
    var w := YearWindow(data);
    var h := Highs(w);
    var m := MaxOf(h);
    assert High52(data) == m;
    var kh :| 0 <= kh < |h| && h[kh] == m;
    assert w[kh].high == m;
    forall k | 0 <= k < |w| ensures w[k].high <= m {
      assert h[k] == w[k].high;
    }
    assert w[|w| - 1] == data[|data| - 1];
  }

  /** The 52-week low is the lowest low of the same window, so it is at most the latest low. */
  lemma YearLow(data: seq<Bar>)
    requires |data| > 0
    ensures var w := YearWindow(data);
            (exists k :: 0 <= k < |w| && w[k].low == Low52(data)) &&
            (forall k :: 0 <= k < |w| ==> Low52(data) <= w[k].low) &&
            Low52(data) <= data[|data| - 1].low
  {
    var w := YearWindow(data);
    var l := Lows(w);
    var m := MinOf(l);
    assert Low52(data) == m;
    var kl :| 0 <= kl < |l| && l[kl] == m;
    assert w[kl].low == m;
    forall k | 0 <= k < |w| ensures m <= w[k].low {
      assert l[k] == w[k].low;
    }
    assert w[|w| - 1] == data[|data| - 1];
  }

  /** The average volume is the mean over the same window, so it lies between the window's
      smallest and largest volumes. */
  lemma AverageVolumeWithin(data: seq<Bar>, lo: real, hi: real)
    requires |data| > 0
    requires forall k :: 0 <= k < |YearWindow(data)| ==> lo <= YearWindow(data)[k].volume as real <= hi
    ensures lo <= AverageVolume(data) <= hi
  {
    var v := Volumes(YearWindow(data));
    assert Within(v, lo, hi);
    MeanWithin(v, lo, hi);
  }

  /** When the latest close lies within its own bar, the range position is a percentage in
      `[0, 100]`. */
  lemma RangePositionPercent(data: seq<Bar>)
    requires |data| > 0
    requires data[|data| - 1].low <= data[|data| - 1].close <= data[|data| - 1].high
    ensures RangePosition(data).Some? ==> 0.0 <= RangePosition(data).value <= 100.0
  {
    YearHigh(data);
    YearLow(data);
    PositionBounds(data[|data| - 1].close, Low52(data), High52(data));
  }
}
