/** The forecast engine: three predictors over daily bars and a dispatcher that runs them all.
    Each predictor walks the calendar days `last+1 .. last+h` after the last bar and emits one
    point per day that is not a Saturday or Sunday. */
module Prediction {
  import opened Wrappers
  import opened Calendar
  import opened Series

  /** `{date, predicted, actual: null}`. */
  datatype Point = Point(date: Day, predicted: real, actual: Option<real>)

  /** The `model` label of a result; the moving-average label carries its window. */
  datatype ModelLabel = LinearRegressionLabel | MovingAverageLabel(window: int) | RandomForestLabel

  datatype Forecast = Forecast(predictions: seq<Point>, model: ModelLabel)

  /** The object `getAllPredictions` returns. */
  datatype Bundle = Bundle(linearRegression: Forecast, movingAverage: Forecast, randomForest: Forecast)

  // ---------------------------------------------------------------------------------------
  // The calendar rule shared by the three predictors

  /** The offsets `i` in `1..h` whose date `last + i` is not a weekend day, in increasing order. */
  function TradingOffsets(last: Day, h: int): (r: seq<int>)
    decreases h
  {
    if h <= 0 then [] else TradingOffsets(last, h - 1) + (if IsWeekend(last + h) then [] else [h])
  }

  lemma TradingOffsetsStep(last: Day, h: int)
    requires h > 0
    ensures TradingOffsets(last, h) == TradingOffsets(last, h - 1) + (if IsWeekend(last + h) then [] else [h])
  {
  }

  /** At most `h` offsets, each in `1..h` and landing on a weekday. */
  lemma {:induction false} TradingOffsetsInRange(last: Day, h: int)
    ensures var r := TradingOffsets(last, h);
            |r| <= (if h < 0 then 0 else h) &&
            forall k :: 0 <= k < |r| ==> 1 <= r[k] <= h && !IsWeekend(last + r[k])
  {
    if h > 0 {
      TradingOffsetsInRange(last, h - 1);
      TradingOffsetsStep(last, h);
      var prev := TradingOffsets(last, h - 1);
      var r := TradingOffsets(last, h);
      forall k | 0 <= k < |r| ensures 1 <= r[k] <= h && !IsWeekend(last + r[k]) {
        if k < |prev| { assert r[k] == prev[k]; } else { assert r[k] == h; }
      }
    }
  }

  /** The offsets are strictly increasing. */
  lemma {:induction false} TradingOffsetsIncreasing(last: Day, h: int)
    ensures var r := TradingOffsets(last, h);
            forall j, k :: 0 <= j < k < |r| ==> r[j] < r[k]
  {
    if h > 0 {
      TradingOffsetsIncreasing(last, h - 1);
      TradingOffsetsInRange(last, h - 1);
      TradingOffsetsStep(last, h);
      var prev := TradingOffsets(last, h - 1);
      var r := TradingOffsets(last, h);
      forall j, k | 0 <= j < k < |r| ensures r[j] < r[k] {
        assert r[j] == prev[j];
        if k < |prev| { assert r[k] == prev[k]; } else { assert r[k] == h; }
      }
    }
  }

  /** Every weekday offset in `1..h` is among them. */
  lemma {:induction false} TradingOffsetsComplete(last: Day, h: int, i: int)
    requires 1 <= i <= h && !IsWeekend(last + i)
    ensures i in TradingOffsets(last, h)
  {
    TradingOffsetsStep(last, h);
    if i < h {
      TradingOffsetsComplete(last, h - 1, i);
    }
  }

  /** Seven more calendar days always add exactly five predictions. */
  lemma {:induction false} SevenMoreDaysAddFive(last: Day, h: nat)
    ensures |TradingOffsets(last, h + 7)| == |TradingOffsets(last, h)| + 5
  {
    Calendar.TwoWeekendDaysPerWeek(last + h);
    assert |TradingOffsets(last, h + 1)| == |TradingOffsets(last, h)| + (if IsWeekend(last + h + 1) then 0 else 1);
    assert |TradingOffsets(last, h + 2)| == |TradingOffsets(last, h + 1)| + (if IsWeekend(last + h + 2) then 0 else 1);
    assert |TradingOffsets(last, h + 3)| == |TradingOffsets(last, h + 2)| + (if IsWeekend(last + h + 3) then 0 else 1);
    assert |TradingOffsets(last, h + 4)| == |TradingOffsets(last, h + 3)| + (if IsWeekend(last + h + 4) then 0 else 1);
    assert |TradingOffsets(last, h + 5)| == |TradingOffsets(last, h + 4)| + (if IsWeekend(last + h + 5) then 0 else 1);
    assert |TradingOffsets(last, h + 6)| == |TradingOffsets(last, h + 5)| + (if IsWeekend(last + h + 6) then 0 else 1);
    assert |TradingOffsets(last, h + 7)| == |TradingOffsets(last, h + 6)| + (if IsWeekend(last + h + 7) then 0 else 1);
  }

  /** A horizon of 7 calendar days yields 5 predictions whatever weekday the last bar falls on;
      a horizon of 7q days yields 5q. */
  lemma {:induction false} WholeWeeksYieldFivePerWeek(last: Day, q: nat)
    ensures |TradingOffsets(last, 7 * q)| == 5 * q
  {
    if q > 0 {
      WholeWeeksYieldFivePerWeek(last, q - 1);
      SevenMoreDaysAddFive(last, 7 * (q - 1));
    }
  }

  /** The predictions are the trading offsets' dates, in order, with no actual value. */
  ghost predicate OnCalendar(preds: seq<Point>, last: Day, h: int) {
    var offs := TradingOffsets(last, h);
    |preds| == |offs| &&
    forall k :: 0 <= k < |preds| ==> preds[k].date == last + offs[k] && preds[k].actual == None
  }

  /** What the calendar rule promises of any predictor's output: at most `h` points, dated
      within the horizon on weekdays, strictly increasing, with no actual value. */
  lemma CalendarFacts(preds: seq<Point>, last: Day, h: int)
    requires OnCalendar(preds, last, h)
    ensures |preds| <= (if h < 0 then 0 else h)
    ensures forall k :: 0 <= k < |preds| ==> last < preds[k].date <= last + h && !IsWeekend(preds[k].date)
    ensures forall j, k :: 0 <= j < k < |preds| ==> preds[j].date < preds[k].date
    ensures forall k :: 0 <= k < |preds| ==> preds[k].actual == None
  {
    var offs := TradingOffsets(last, h);
    TradingOffsetsInRange(last, h);
    TradingOffsetsIncreasing(last, h);
    forall k | 0 <= k < |preds| ensures last < preds[k].date <= last + h && !IsWeekend(preds[k].date) {
      assert preds[k].date == last + offs[k];
    }
    forall j, k | 0 <= j < k < |preds| ensures preds[j].date < preds[k].date {
      assert preds[j].date == last + offs[j] && preds[k].date == last + offs[k];
    }
  }

  /** Every weekday within the horizon gets a point. */
  lemma CalendarComplete(preds: seq<Point>, last: Day, h: int, d: Day)
    requires OnCalendar(preds, last, h)
    requires last < d <= last + h && !IsWeekend(d)
    ensures exists k :: 0 <= k < |preds| && preds[k].date == d
  {
    var offs := TradingOffsets(last, h);
    TradingOffsetsComplete(last, h, d - last);
    var k :| 0 <= k < |offs| && offs[k] == d - last;
    assert preds[k].date == d;
  }

  /** One more calendar day keeps a prediction list on the calendar: a weekend day adds nothing,
      a weekday adds one point dated that day. */
  lemma OnCalendarStep(preds: seq<Point>, last: Day, h: int, v: real)
    requires h > 0 && OnCalendar(preds, last, h - 1)
    ensures OnCalendar(if IsWeekend(last + h) then preds else preds + [Point(last + h, v, None)], last, h)
  {
    TradingOffsetsStep(last, h);
  }

  // ---------------------------------------------------------------------------------------
  // Linear regression: an ordinary least-squares line of close against the index 0..n-1

  /** Sum of the indices `0 .. n-1`. */
  function SumX(n: nat): real {
    if n == 0 then 0.0 else SumX(n - 1) + (n - 1) as real
  }

  /** Sum of the squared indices `0 .. n-1`. */
  function SumXX(n: nat): real {
    if n == 0 then 0.0 else var k := (n - 1) as real; SumXX(n - 1) + k * k
  }

  /** Sum of `k * y[k]`. */
  function SumXY(y: seq<real>): real {
    if y == [] then 0.0 else SumXY(y[..|y| - 1]) + ((|y| - 1) as real) * y[|y| - 1]
  }

  lemma {:induction false} SumXClosed(n: nat)
    ensures 2.0 * SumX(n) == (n as real) * ((n as real) - 1.0)
  {
    if n > 0 { SumXClosed(n - 1); }
  }

  lemma {:induction false} SumXXClosed(n: nat)
    ensures 6.0 * SumXX(n) == (n as real) * ((n as real) - 1.0) * (2.0 * (n as real) - 1.0)
  {
    if n > 0 {
      SumXXClosed(n - 1);
      var m := (n - 1) as real;
      assert 6.0 * SumXX(n - 1) == m * (m - 1.0) * (2.0 * m - 1.0);
      assert 6.0 * SumXX(n) == m * (m - 1.0) * (2.0 * m - 1.0) + 6.0 * m * m;
      assert m * (m - 1.0) * (2.0 * m - 1.0) + 6.0 * m * m == (m + 1.0) * m * (2.0 * m + 1.0);
    }
  }

  /** `n Sxx - Sx^2`, the denominator of the slope. */
  function Spread(n: real, sx: real, sxx: real): real {
    n * sxx - sx * sx
  }

  /** From the closed forms of `Sx` and `Sxx`: `12 (n Sxx - Sx^2) = n^2 (n - 1) (n + 1)`. */
  lemma SpreadFromClosedForms(m: real, sx: real, sxx: real)
    requires m >= 2.0 && 2.0 * sx == m * (m - 1.0) && 6.0 * sxx == m * (m - 1.0) * (2.0 * m - 1.0)
    ensures Spread(m, sx, sxx) > 0.0
  {
    var d := m * sxx - sx * sx;
    assert 12.0 * d == 2.0 * m * (6.0 * sxx) - 3.0 * (2.0 * sx) * (2.0 * sx);
    assert 12.0 * d == 2.0 * m * (m * (m - 1.0) * (2.0 * m - 1.0)) - 3.0 * (m * (m - 1.0)) * (m * (m - 1.0));
    assert 12.0 * d == (m * m) * ((m - 1.0) * (m + 1.0));
    assert m * m > 0.0;
    assert (m - 1.0) * (m + 1.0) > 0.0;
  }

  /** With at least two distinct indices the slope's denominator is positive. */
  lemma SpreadPositive(n: nat)
    requires n >= 2
    ensures Spread(n as real, SumX(n), SumXX(n)) > 0.0
  {
    SumXClosed(n);
    SumXXClosed(n);
    SpreadFromClosedForms(n as real, SumX(n), SumXX(n));
  }

  /** A fitted line: `predict(x) = slope * x + intercept`. */
  datatype Line = Line(slope: real, intercept: real)

  function LineAt(l: Line, x: real): real {
    l.slope * x + l.intercept
  }

  /** A line solves the normal equations with sums `n`, `Sx`, `Sxx`, `Sy`, `Sxy`: the residuals sum
      to zero and are uncorrelated with the index. */
  predicate SolvesSums(n: real, sx: real, sxx: real, sy: real, sxy: real, l: Line) {
    sy == n * l.intercept + l.slope * sx && sxy == l.intercept * sx + l.slope * sxx
  }

  /** The least-squares normal equations for a line through the points `(k, y[k])`. */
  ghost predicate NormalEquations(y: seq<real>, l: Line) {
    SolvesSums(|y| as real, SumX(|y|), SumXX(|y|), Sum(y), SumXY(y), l)
  }

  /** The library's closed form: `slope = (n Sxy - Sx Sy) / (n Sxx - Sx^2)`,
      `intercept = Sy / n - slope Sx / n`. */
  function ClosedForm(n: real, sx: real, sxx: real, sy: real, sxy: real): Line
    requires n > 0.0 && Spread(n, sx, sxx) != 0.0
  {
    var slope := (n * sxy - sx * sy) / Spread(n, sx, sxx);
    Line(slope, sy / n - slope * sx / n)
  }

  lemma SolvesWithoutDivision(n: real, sx: real, sxx: real, sy: real, sxy: real, l: Line)
    requires n != 0.0
    requires l.slope * Spread(n, sx, sxx) == n * sxy - sx * sy
    requires n * l.intercept == sy - l.slope * sx
    ensures SolvesSums(n, sx, sxx, sy, sxy, l)
  {
    var a, b := l.intercept, l.slope;
    assert n * (a * sx + b * sxx) == (n * a) * sx + b * (n * sxx);
    assert n * (a * sx + b * sxx) == n * sxy;
  }

  lemma ClosedFormSolves(n: real, sx: real, sxx: real, sy: real, sxy: real)
    requires n > 0.0 && Spread(n, sx, sxx) != 0.0
    ensures SolvesSums(n, sx, sxx, sy, sxy, ClosedForm(n, sx, sxx, sy, sxy))
  {
    var l := ClosedForm(n, sx, sxx, sy, sxy);
    assert l.slope * Spread(n, sx, sxx) == n * sxy - sx * sy;
    assert n * l.intercept == n * (sy / n) - n * (l.slope * sx / n);
    SolvesWithoutDivision(n, sx, sxx, sy, sxy, l);
  }

  /** The normal equations have one solution once the denominator is non-zero. */
  lemma SolutionUnique(n: real, sx: real, sxx: real, sy: real, sxy: real, l1: Line, l2: Line)
    requires n > 0.0 && Spread(n, sx, sxx) != 0.0
    requires SolvesSums(n, sx, sxx, sy, sxy, l1) && SolvesSums(n, sx, sxx, sy, sxy, l2)
    ensures l1 == l2
  {
    var da, db := l1.intercept - l2.intercept, l1.slope - l2.slope;
    assert n * da + db * sx == 0.0;
    assert da * sx + db * sxx == 0.0;
    assert db * (n * sxx - sx * sx) == n * (da * sx + db * sxx) - sx * (n * da + db * sx);
    assert db == 0.0;
    assert n * da == 0.0;
  }

  lemma NormalEquationsUnique(y: seq<real>, l1: Line, l2: Line)
    requires |y| >= 2 && NormalEquations(y, l1) && NormalEquations(y, l2)
    ensures l1 == l2
  {
    SpreadPositive(|y|);
    SolutionUnique(|y| as real, SumX(|y|), SumXX(|y|), Sum(y), SumXY(y), l1, l2);
  }

  /** `new SimpleLinearRegression(x, y)` with `x = 0..n-1`: the library's closed form over the
      sums of the points `(k, y[k])`. */
  function Fit(y: seq<real>): Line
    requires |y| >= 2
  {
    SpreadPositive(|y|);
    ClosedForm(|y| as real, SumX(|y|), SumXX(|y|), Sum(y), SumXY(y))
  }

  /** The fitted line is the least-squares line: it solves the normal equations. */
  lemma FitSolvesNormalEquations(y: seq<real>)
    requires |y| >= 2
    ensures NormalEquations(y, Fit(y))
  {
    SpreadPositive(|y|);
    ClosedFormSolves(|y| as real, SumX(|y|), SumXX(|y|), Sum(y), SumXY(y));
  }

  /** `y[k]` is the line at `k` for every index `k`, stated from the last element back. */
  ghost predicate OnLine(y: seq<real>, l: Line)
    decreases |y|
  {
    y == [] || (OnLine(y[..|y| - 1], l) && y[|y| - 1] == LineAt(l, (|y| - 1) as real))
  }

  lemma {:induction false} OnLineFromPointwise(y: seq<real>, l: Line)
    requires forall k :: 0 <= k < |y| ==> y[k] == LineAt(l, k as real)
    ensures OnLine(y, l)
  {
    if y != [] {
      var init := y[..|y| - 1];
      assert forall k :: 0 <= k < |init| ==> init[k] == y[k];
      OnLineFromPointwise(init, l);
    }
  }

  /** Adding the point `(m, v)` of the line `l` to sums that `l` solves gives sums it solves. */
  lemma SolvesSumsStep(m: real, sx: real, sxx: real, sy: real, sxy: real, l: Line, v: real)
    requires SolvesSums(m, sx, sxx, sy, sxy, l) && v == LineAt(l, m)
    ensures SolvesSums(m + 1.0, sx + m, sxx + m * m, sy + v, sxy + m * v, l)
  {
    var a, b := l.intercept, l.slope;
    assert m * v == a * m + b * (m * m);
  }

  /** Points that lie exactly on a line solve its normal equations. */
  lemma {:induction false} ExactLineSolves(y: seq<real>, l: Line)
    requires OnLine(y, l)
    ensures NormalEquations(y, l)
  {
    if y != [] {
      var init := y[..|y| - 1];
      ExactLineSolves(init, l);
      var m := (|y| - 1) as real;
      assert (|init| as real) == m;
      SolvesSumsStep(m, SumX(|y| - 1), SumXX(|y| - 1), Sum(init), SumXY(init), l, y[|y| - 1]);
    }
  }

  /** The line that solves the normal equations is the fitted one. */
  lemma FitIsTheSolution(y: seq<real>, l: Line)
    requires |y| >= 2 && NormalEquations(y, l)
    ensures Fit(y) == l
  {
    FitSolvesNormalEquations(y);
    NormalEquationsUnique(y, Fit(y), l);
  }

  /** On closes exactly linear in the index the fit reproduces the line. */
  lemma ExactLineRecovered(y: seq<real>, l: Line)
    requires |y| >= 2 && OnLine(y, l)
    ensures Fit(y) == l
  {
    ExactLineSolves(y, l);
    FitIsTheSolution(y, l);
  }

  /** The point the linear model emits for calendar offset `i`: the line at index `n + i - 1`. */
  function LinearPoint(l: Line, n: nat, last: Day, i: int): Point {
    Point(last + i, LineAt(l, (n + i - 1) as real), None)
  }

  function LinearPoints(l: Line, n: nat, last: Day, offs: seq<int>): (r: seq<Point>)
    ensures |r| == |offs|
  {
    if offs == [] then [] else LinearPoints(l, n, last, offs[..|offs| - 1]) + [LinearPoint(l, n, last, offs[|offs| - 1])]
  }

  lemma LinearPointsSnoc(l: Line, n: nat, last: Day, offs: seq<int>, i: int)
    ensures LinearPoints(l, n, last, offs + [i]) == LinearPoints(l, n, last, offs) + [LinearPoint(l, n, last, i)]
  {
    assert (offs + [i])[..|offs|] == offs;
  }

  lemma {:induction false} LinearPointsAt(l: Line, n: nat, last: Day, offs: seq<int>, k: nat)
    requires k < |offs|
    ensures LinearPoints(l, n, last, offs)[k] == LinearPoint(l, n, last, offs[k])
  {
    if k < |offs| - 1 {
      LinearPointsAt(l, n, last, offs[..|offs| - 1], k);
    }
  }

  /** One day of the forecast loop: a trading day appends its point, a weekend day adds none. */
  lemma LinearPointsStep(l: Line, n: nat, last: Day, i: int)
    requires i >= 1
    ensures !IsWeekend(last + i) ==>
              LinearPoints(l, n, last, TradingOffsets(last, i)) ==
              LinearPoints(l, n, last, TradingOffsets(last, i - 1)) + [Point(last + i, LineAt(l, (n + i - 1) as real), None)]
    ensures IsWeekend(last + i) ==>
              LinearPoints(l, n, last, TradingOffsets(last, i)) == LinearPoints(l, n, last, TradingOffsets(last, i - 1))
  {
    var offs := TradingOffsets(last, i - 1);
    TradingOffsetsStep(last, i);
    if !IsWeekend(last + i) {
      assert TradingOffsets(last, i) == offs + [i];
      LinearPointsSnoc(l, n, last, offs, i);
    } else {
      assert TradingOffsets(last, i) == offs;
    }
  }

  /** The line's points at the trading offsets follow the calendar rule. */
  lemma LinearPointsOnCalendar(l: Line, n: nat, last: Day, h: int)
    ensures OnCalendar(LinearPoints(l, n, last, TradingOffsets(last, h)), last, h)
  {
    var offs := TradingOffsets(last, h);
    forall k | 0 <= k < |offs| {
      LinearPointsAt(l, n, last, offs, k);
    }
  }

  function LastDate(data: seq<Bar>): Day
    requires |data| > 0
  {
    data[|data| - 1].date
  }

  /** The result of `linearRegressionPredict(data, h)` (without the library's `score`). */
  function LinearForecast(data: seq<Bar>, h: int): (f: Forecast)
    requires |data| >= 2
    ensures OnCalendar(f.predictions, LastDate(data), h)
  {
    LinearPointsOnCalendar(Fit(Closes(data)), |data|, LastDate(data), h);
    Forecast(LinearPoints(Fit(Closes(data)), |data|, LastDate(data), TradingOffsets(LastDate(data), h)),
             LinearRegressionLabel)
  }

  method LinearRegressionPredict(data: seq<Bar>, daysToPredict: int) returns (r: Forecast)
    requires |data| >= 2
    ensures r == LinearForecast(data, daysToPredict)
  {
    var y := Closes(data);
    var regression := Fit(y);
    var predictions: seq<Point> := [];
    var lastDate := data[|data| - 1].date;
    var i := 1;
    while i <= daysToPredict
      invariant 1 <= i <= (if daysToPredict < 0 then 0 else daysToPredict) + 1
      invariant predictions == LinearPoints(regression, |data|, lastDate, TradingOffsets(lastDate, i - 1))
    {
      LinearPointsStep(regression, |data|, lastDate, i);
      var nextDate := lastDate + i;
      if !IsWeekend(nextDate) {
        var predictedValue := LineAt(regression, (|data| + i - 1) as real);
        predictions := predictions + [Point(nextDate, predictedValue, None)];
      }
      i := i + 1;
    }
    assert TradingOffsets(lastDate, i - 1) == TradingOffsets(lastDate, daysToPredict);
    r := Forecast(predictions, LinearRegressionLabel);
  }


  /** Every linear prediction is the fitted line's point for its calendar offset. */
  lemma LinearAtCalendarOffset(data: seq<Bar>, h: int, k: nat)
    requires |data| >= 2 && k < |TradingOffsets(LastDate(data), h)|
    ensures LinearForecast(data, h).predictions[k] ==
            LinearPoint(Fit(Closes(data)), |data|, LastDate(data), TradingOffsets(LastDate(data), h)[k])
  {
    LinearPointsAt(Fit(Closes(data)), |data|, LastDate(data), TradingOffsets(LastDate(data), h), k);
  }

  /** After a Friday the first trading offset is 3, the Monday. */
  lemma FirstOffsetAfterFriday(last: Day, h: int)
    requires Weekday(last) == 5 && h >= 3
    ensures var offs := TradingOffsets(last, h);
            |offs| > 0 && offs[0] == 3 && Weekday(last + 3) == 1
  {
    var offs := TradingOffsets(last, h);
    Calendar.WeekdayNext(last);
    Calendar.WeekdayNext(last + 1);
    Calendar.WeekdayNext(last + 2);
    TradingOffsetsComplete(last, h, 3);
    TradingOffsetsInRange(last, h);
    var k :| 0 <= k < |offs| && offs[k] == 3;
    assert IsWeekend(last + 1) && IsWeekend(last + 2);
    assert 3 <= offs[0];
    if 0 < k {
      TradingOffsetsIncreasing(last, h);
    }
  }

  /** After a Friday the first point is Monday, offset 3, evaluated at index `n + 2`, not `n`. */
  lemma LinearAfterFriday(data: seq<Bar>, h: int)
    requires |data| >= 2 && Weekday(LastDate(data)) == 5 && h >= 3
    ensures var p := LinearForecast(data, h).predictions;
            |p| > 0 && p[0].date == LastDate(data) + 3 && Weekday(p[0].date) == 1 &&
            p[0].predicted == LineAt(Fit(Closes(data)), (|data| + 2) as real)
  {
    FirstOffsetAfterFriday(LastDate(data), h);
    LinearAtCalendarOffset(data, h, 0);
  }

  /** When the closes lie exactly on a line, the forecast continues that line. */
  lemma LinearReproducesLine(data: seq<Bar>, h: int, l: Line)
    requires |data| >= 2 && OnLine(Closes(data), l)
    ensures LinearForecast(data, h).predictions ==
            LinearPoints(l, |data|, LastDate(data), TradingOffsets(LastDate(data), h))
  {
    ExactLineRecovered(Closes(data), l);
  }

  /** The `k`-th point of a line's forecast is dated `last + offs[k]` and is the line at index
      `n + offs[k] - 1`. */
  lemma LinearPointsOnLine(l: Line, n: nat, last: Day, offs: seq<int>, k: nat)
    requires k < |offs|
    ensures LinearPoints(l, n, last, offs)[k].date == last + offs[k]
    ensures LinearPoints(l, n, last, offs)[k].predicted == l.intercept + l.slope * ((n + offs[k] - 1) as real)
  {
    LinearPointsAt(l, n, last, offs, k);
  }

  /** On constant closes every prediction equals the constant. */
  lemma LinearConstant(data: seq<Bar>, h: int, c: real)
    requires |data| >= 2
    requires forall j :: 0 <= j < |data| ==> data[j].close == c
    ensures var p := LinearForecast(data, h).predictions;
            forall k :: 0 <= k < |p| ==> p[k].predicted == c
  {
    var y := Closes(data);
    forall j | 0 <= j < |y| ensures y[j] == LineAt(Line(0.0, c), j as real) {
      assert y[j] == data[j].close;
    }
    OnLineFromPointwise(y, Line(0.0, c));
    LinearReproducesLine(data, h, Line(0.0, c));
    var offs := TradingOffsets(LastDate(data), h);
    forall k | 0 <= k < |offs|
      ensures LinearPoints(Line(0.0, c), |data|, LastDate(data), offs)[k].predicted == c
    {
      LinearPointsOnLine(Line(0.0, c), |data|, LastDate(data), offs, k);
    }
  }

  // ---------------------------------------------------------------------------------------
  // Moving average over a buffer that each prediction is appended to

  /** The last `window` values of `prices`, or all of them when there are fewer. */
  function Trailing(prices: seq<real>, window: int): (r: seq<real>)
    requires window >= 1
    ensures |r| == Min(window, |prices|)
    ensures r == prices[|prices| - |r|..]
  {
    prices[|prices| - Min(window, |prices|)..]
  }

  /** `getMA(prices, window)`. */
  function GetMA(prices: seq<real>, window: int): real
    requires |prices| > 0 && window >= 1
  {
    if |prices| < window then Sum(prices) / (|prices| as real)
    else Sum(prices[|prices| - window..]) / (window as real)
  }

  /** The moving average is the mean of the last `window` prices, or of all of them when
      there are fewer. */
  lemma GetMAIsMean(prices: seq<real>, window: int)
    requires |prices| > 0 && window >= 1
    ensures GetMA(prices, window) == Mean(Trailing(prices, window))
  {
  }

  /** The moving average lies within the range of the buffer. */
  lemma GetMAWithin(prices: seq<real>, window: int, lo: real, hi: real)
    requires |prices| > 0 && window >= 1 && Within(prices, lo, hi)
    ensures lo <= GetMA(prices, window) <= hi
  {
    var t := Trailing(prices, window);
    assert Within(t, lo, hi) by {
      forall k | 0 <= k < |t| ensures lo <= t[k] <= hi {
        assert t[k] == prices[|prices| - |t| + k];
      }
    }
    MeanWithin(t, lo, hi);
    GetMAIsMean(prices, window);
  }

  /** The buffer `predictedPrices` and the emitted points after the offsets `1..i`. */
  datatype MAState = MAState(buffer: seq<real>, predictions: seq<Point>)

  function MARun(closes: seq<real>, last: Day, window: int, i: int): (s: MAState)
    requires |closes| > 0 && window >= 1
    decreases i
    ensures |s.buffer| == |closes| + |s.predictions|
  {
    if i <= 0 then MAState(closes, [])
    else
      var s := MARun(closes, last, window, i - 1);
      if IsWeekend(last + i) then s
      else
        var ma := GetMA(s.buffer, window);
        MAState(s.buffer + [ma], s.predictions + [Point(last + i, ma, None)])
  }

  /** One more calendar day: a weekend day changes nothing, a weekday appends the moving average
      of the buffer to both the buffer and the predictions. */
  lemma MARunStep(closes: seq<real>, last: Day, window: int, i: int, buffer: seq<real>, preds: seq<Point>)
    requires |closes| > 0 && window >= 1 && i >= 1
    requires MARun(closes, last, window, i - 1) == MAState(buffer, preds)
    ensures |buffer| > 0
    ensures MARun(closes, last, window, i) ==
            if IsWeekend(last + i) then MAState(buffer, preds)
            else MAState(buffer + [GetMA(buffer, window)], preds + [Point(last + i, GetMA(buffer, window), None)])
  {
  }

  /** A horizon of zero or fewer days leaves the buffer at the closes and emits nothing. */
  lemma MARunNoDays(closes: seq<real>, last: Day, window: int, h: int)
    requires |closes| > 0 && window >= 1 && h <= 0
    ensures MARun(closes, last, window, h) == MAState(closes, [])
  {
  }

  /** The result of `movingAveragePredict(data, h, window)`. */
  function MovingAverageForecast(data: seq<Bar>, h: int, window: int): (f: Forecast)
    requires |data| >= 1 && window >= 1
    ensures OnCalendar(f.predictions, LastDate(data), h)
  {
    MAOnCalendar(Closes(data), LastDate(data), window, h);
    Forecast(MARun(Closes(data), LastDate(data), window, h).predictions, MovingAverageLabel(window))
  }

  method MovingAveragePredict(data: seq<Bar>, daysToPredict: int, window: int) returns (r: Forecast)
    requires |data| >= 1 && window >= 1
    ensures r == MovingAverageForecast(data, daysToPredict, window)
  {
    var closePrices := Closes(data);
    var predictions: seq<Point> := [];
    var lastDate := data[|data| - 1].date;
    var predictedPrices := closePrices;
    var i := 1;
    while i <= daysToPredict
      invariant 1 <= i <= (if daysToPredict < 0 then 0 else daysToPredict) + 1
      invariant MAState(predictedPrices, predictions) == MARun(closePrices, lastDate, window, i - 1)
    {
      MARunStep(closePrices, lastDate, window, i, predictedPrices, predictions);
      var nextDate := lastDate + i;
      if !IsWeekend(nextDate) {
        var ma := GetMA(predictedPrices, window);
        predictedPrices := predictedPrices + [ma];
        predictions := predictions + [Point(nextDate, ma, None)];
      }
      i := i + 1;
    }
    assert predictions == MARun(closePrices, lastDate, window, daysToPredict).predictions by {
      if daysToPredict <= 0 {
        MARunNoDays(closePrices, lastDate, window, i - 1);
        MARunNoDays(closePrices, lastDate, window, daysToPredict);
      }
    }
    r := Forecast(predictions, MovingAverageLabel(window));
  }

  lemma {:induction false} MAOnCalendar(closes: seq<real>, last: Day, window: int, h: int)
    requires |closes| > 0 && window >= 1
    ensures OnCalendar(MARun(closes, last, window, h).predictions, last, h)
  {
    if h > 0 {
      MAOnCalendar(closes, last, window, h - 1);
      var s := MARun(closes, last, window, h - 1);
      OnCalendarStep(s.predictions, last, h, GetMA(s.buffer, window));
    }
  }

  /** The predicted values of a list of points, in order. */
  function Predicted(preds: seq<Point>): (r: seq<real>)
    ensures |r| == |preds|
  {
    seq(|preds|, k requires 0 <= k < |preds| => preds[k].predicted)
  }

  lemma PredictedSnoc(preds: seq<Point>, p: Point)
    ensures Predicted(preds + [p]) == Predicted(preds) + [p.predicted]
  {
    assert forall k :: 0 <= k < |preds| ==> Predicted(preds + [p])[k] == Predicted(preds)[k];
  }

  lemma BufferSnoc(closes: seq<real>, preds: seq<Point>, p: Point)
    ensures closes + Predicted(preds + [p]) == (closes + Predicted(preds)) + [p.predicted]
  {
    PredictedSnoc(preds, p);
  }

  /** The buffer is the closes followed by the predicted values, newest last. */
  lemma {:induction false} MABufferIsClosesThenPredictions(closes: seq<real>, last: Day, window: int, h: int)
    requires |closes| > 0 && window >= 1
    ensures var s := MARun(closes, last, window, h);
            s.buffer == closes + Predicted(s.predictions)
  {
    if h > 0 {
      MABufferIsClosesThenPredictions(closes, last, window, h - 1);
      var s := MARun(closes, last, window, h - 1);
      MARunStep(closes, last, window, h, s.buffer, s.predictions);
      if !IsWeekend(last + h) {
        var ma := GetMA(s.buffer, window);
        BufferSnoc(closes, s.predictions, Point(last + h, ma, None));
      }
    }
  }

  /** The buffer grows by exactly one value per emitted prediction, and never on a weekend
      offset: after the horizon it holds the closes plus one value per trading offset. */
  lemma MABufferGrowth(closes: seq<real>, last: Day, window: int, h: int)
    requires |closes| > 0 && window >= 1
    ensures |MARun(closes, last, window, h).buffer| == |closes| + |TradingOffsets(last, h)|
  {
    MAOnCalendar(closes, last, window, h);
  }

  /** If the closes lie in `[lo, hi]`, so does the whole buffer and every moving-average prediction. */
  lemma {:induction false} MAStaysWithin(closes: seq<real>, last: Day, window: int, h: int, lo: real, hi: real)
    requires |closes| > 0 && window >= 1 && Within(closes, lo, hi)
    ensures Within(MARun(closes, last, window, h).buffer, lo, hi)
    ensures forall k :: 0 <= k < |MARun(closes, last, window, h).predictions| ==>
              lo <= MARun(closes, last, window, h).predictions[k].predicted <= hi
  {
    if h > 0 {
      MAStaysWithin(closes, last, window, h - 1, lo, hi);
      var s := MARun(closes, last, window, h - 1);
      if !IsWeekend(last + h) {
        GetMAWithin(s.buffer, window, lo, hi);
      }
    }
  }

  /** Every moving-average prediction lies between the lowest and the highest close. */
  lemma MABetweenMinAndMaxClose(data: seq<Bar>, h: int, window: int)
    requires |data| >= 1 && window >= 1
    ensures var p := MovingAverageForecast(data, h, window).predictions;
            forall k :: 0 <= k < |p| ==> MinOf(Closes(data)) <= p[k].predicted <= MaxOf(Closes(data))
  {
    var c := Closes(data);
    MAStaysWithin(c, LastDate(data), window, h, MinOf(c), MaxOf(c));
  }

  /** Window 3 over closes 10, 20, 30 with a one-day horizon landing on a weekday predicts 20. */
  lemma MAThreeDayExample(data: seq<Bar>)
    requires |data| == 3 && data[0].close == 10.0 && data[1].close == 20.0 && data[2].close == 30.0
    requires !IsWeekend(LastDate(data) + 1)
    ensures MovingAverageForecast(data, 1, 3).predictions == [Point(LastDate(data) + 1, 20.0, None)]
  {
    var c := Closes(data);
    assert c == [10.0, 20.0, 30.0];
    assert Sum([10.0]) == 10.0 by { assert [10.0][..0] == []; }
    assert Sum([10.0, 20.0]) == 30.0 by { assert [10.0, 20.0][..1] == [10.0]; }
    assert Sum(c) == 60.0 by { assert c[..2] == [10.0, 20.0]; }
    assert GetMA(c, 3) == 20.0 by { assert c[0..] == c; }
    MARunNoDays(c, LastDate(data), 3, 0);
    MARunStep(c, LastDate(data), 3, 1, c, []);
  }

  // ---------------------------------------------------------------------------------------
  // "Random forest": engineered features and an autoregressive 7-slot forecast vector

  /** The trained forest, a foreign library call: features to a predicted close. */
  type Predictor = seq<real> -> real

  /** `rf.train(features, targets)` followed by `rf.predict`: the library, taken as a parameter. */
  type Trainer = (seq<seq<real>>, seq<real>) -> Predictor

  /** The feature vector for day `k` (also the first forecast vector when `k = n`):
      the five previous closes, newest first, then the previous day's volume and range. */
  function FeatureAt(data: seq<Bar>, k: int): (f: seq<real>)
    requires 5 <= k <= |data|
    ensures |f| == 7
  {
    [data[k - 1].close, data[k - 2].close, data[k - 3].close, data[k - 4].close, data[k - 5].close,
     data[k - 1].volume as real, data[k - 1].high - data[k - 1].low]
  }

  function TrainingSize(data: seq<Bar>): nat {
    if |data| > 5 then |data| - 5 else 0
  }

  function TrainingFeatures(data: seq<Bar>): seq<seq<real>> {
    seq(TrainingSize(data), k requires 0 <= k < TrainingSize(data) => FeatureAt(data, k + 5))
  }

  function TrainingTargets(data: seq<Bar>): seq<real> {
    seq(TrainingSize(data), k requires 0 <= k < TrainingSize(data) => data[k + 5].close)
  }

  /** The feature loop: one example per day from the sixth on, so `n - 5` examples. */
  method BuildTrainingSet(data: seq<Bar>) returns (features: seq<seq<real>>, targets: seq<real>)
    ensures |features| == |targets| == TrainingSize(data)
    ensures forall k :: 0 <= k < |features| ==> features[k] == FeatureAt(data, k + 5) && targets[k] == data[k + 5].close
    ensures features == TrainingFeatures(data) && targets == TrainingTargets(data)
  {
    features, targets := [], [];
    var i := 5;
    while i < |data|
      invariant |features| == |targets| == (if i < |data| then i - 5 else TrainingSize(data))
      invariant 5 <= i && (|data| > 5 ==> i <= |data|)
      invariant forall k :: 0 <= k < |features| ==> features[k] == FeatureAt(data, k + 5) && targets[k] == data[k + 5].close
    {
      features := features + [FeatureAt(data, i)];
      targets := targets + [data[i].close];
      i := i + 1;
    }
  }

  /** `lastPredictions` and the emitted points after the offsets `1..i`. */
  datatype RFState = RFState(vector: seq<real>, predictions: seq<Point>)

  function RFRun(model: Predictor, init: seq<real>, last: Day, i: int): (s: RFState)
    requires |init| == 7
    decreases i
    ensures |s.vector| == 7
  {
    if i <= 0 then RFState(init, [])
    else
      var s := RFRun(model, init, last, i - 1);
      if IsWeekend(last + i) then s
      else
        var p := model(s.vector[..7]);
        RFState(([p] + s.vector)[..|s.vector|], s.predictions + [Point(last + i, p, None)])
  }

  /** The predicted values of a sequence of points, newest first. */
  function NewestFirst(preds: seq<Point>): (r: seq<real>)
    ensures |r| == |preds|
  {
    if preds == [] then [] else [preds[|preds| - 1].predicted] + NewestFirst(preds[..|preds| - 1])
  }

  const ReadUndefinedDate: string := "Cannot read properties of undefined (reading 'date')"
  const ReadUndefinedClose: string := "Cannot read properties of undefined (reading 'close')"

  /** The result of `randomForestPredict(data, h)` with the forest `train` builds. */
  function RandomForestForecast(data: seq<Bar>, h: int, train: Trainer): (r: Result<Forecast>)
    ensures r.Err? <==> |data| < 5
    ensures r.Ok? ==> OnCalendar(r.value.predictions, LastDate(data), h)
  {
    if |data| == 0 then Err(ReadUndefinedDate)
    else if |data| < 5 then Err(ReadUndefinedClose)
    else
      var rf := train(TrainingFeatures(data), TrainingTargets(data));
      RFOnCalendar(rf, FeatureAt(data, |data|), LastDate(data), h);
      Ok(Forecast(RFRun(rf, FeatureAt(data, |data|), LastDate(data), h).predictions, RandomForestLabel))
  }

  method RandomForestPredict(data: seq<Bar>, daysToPredict: int, train: Trainer) returns (r: Result<Forecast>)
    ensures r == RandomForestForecast(data, daysToPredict, train)
  {
    var features, targets := BuildTrainingSet(data);
    var rf := train(features, targets);
    if |data| == 0 {
      return Err(ReadUndefinedDate);
    }
    var lastDate := data[|data| - 1].date;
    if |data| < 5 {
      return Err(ReadUndefinedClose);
    }
    var lastPredictions := FeatureAt(data, |data|);
    var predictions: seq<Point> := [];
    var i := 1;
    while i <= daysToPredict
      invariant 1 <= i <= (if daysToPredict < 0 then 0 else daysToPredict) + 1
      invariant RFState(lastPredictions, predictions) == RFRun(rf, FeatureAt(data, |data|), lastDate, i - 1)
    {
      var nextDate := lastDate + i;
      if !IsWeekend(nextDate) {
        var predictedValue := rf(lastPredictions[..7]);
        lastPredictions := [predictedValue] + lastPredictions;
        lastPredictions := lastPredictions[..|lastPredictions| - 1];
        predictions := predictions + [Point(nextDate, predictedValue, None)];
      }
      assert RFState(lastPredictions, predictions) == RFRun(rf, FeatureAt(data, |data|), lastDate, i);
      i := i + 1;
    }
    assert RFRun(rf, FeatureAt(data, |data|), lastDate, i - 1) == RFRun(rf, FeatureAt(data, |data|), lastDate, daysToPredict);
    r := Ok(Forecast(predictions, RandomForestLabel));
  }

  lemma {:induction false} RFOnCalendar(model: Predictor, init: seq<real>, last: Day, h: int)
    requires |init| == 7
    ensures OnCalendar(RFRun(model, init, last, h).predictions, last, h)
  {
    if h > 0 {
      RFOnCalendar(model, init, last, h - 1);
      var s := RFRun(model, init, last, h - 1);
      OnCalendarStep(s.predictions, last, h, model(s.vector[..7]));
    }
  }

  /** The forecast vector is always the first seven of: the predictions so far, newest first,
      followed by the initial vector. Weekend offsets leave it unchanged. */
  lemma {:induction false} RFVectorShifts(model: Predictor, init: seq<real>, last: Day, h: int)
    requires |init| == 7
    ensures var s := RFRun(model, init, last, h);
            s.vector == (NewestFirst(s.predictions) + init)[..7]
  {
    if h > 0 {
      RFVectorShifts(model, init, last, h - 1);
      var s := RFRun(model, init, last, h - 1);
      if !IsWeekend(last + h) {
        var p := model(s.vector[..7]);
        var t := s.predictions + [Point(last + h, p, None)];
        assert t[..|t| - 1] == s.predictions;
        assert NewestFirst(t) + init == [p] + (NewestFirst(s.predictions) + init);
      }
    }
  }

  /** While at most seven points have been emitted, the vector is those points' values, newest
      first, followed by what is left of the initial vector. */
  lemma RFVectorWhileShort(model: Predictor, init: seq<real>, last: Day, h: int)
    requires |init| == 7
    ensures var s := RFRun(model, init, last, h);
            |s.predictions| <= 7 ==> s.vector == NewestFirst(s.predictions) + init[..7 - |s.predictions|]
  {
    var s := RFRun(model, init, last, h);
    RFVectorShifts(model, init, last, h);
    if |s.predictions| <= 7 {
      assert (NewestFirst(s.predictions) + init)[..7] == NewestFirst(s.predictions) + init[..7 - |s.predictions|];
    }
  }

  /** After the first prediction `p` the vector is `[p, c1, c2, c3, c4, c5, volume]`: the range has
      been shifted out. After the second it is `[p2, p1, c1, c2, c3, c4, c5]`: volume and range are
      not held fixed. */
  lemma RandomForestVolumeShiftsOut(data: seq<Bar>, model: Predictor, h: int)
    requires |data| >= 5
    ensures var s := RFRun(model, FeatureAt(data, |data|), LastDate(data), h);
            var n := |data|;
            (|s.predictions| == 1 ==>
               s.vector == [s.predictions[0].predicted, data[n - 1].close, data[n - 2].close, data[n - 3].close,
                            data[n - 4].close, data[n - 5].close, data[n - 1].volume as real]) &&
            (|s.predictions| == 2 ==>
               s.vector == [s.predictions[1].predicted, s.predictions[0].predicted, data[n - 1].close,
                            data[n - 2].close, data[n - 3].close, data[n - 4].close, data[n - 5].close])
  {
    var init := FeatureAt(data, |data|);
    var s := RFRun(model, init, LastDate(data), h);
    RFVectorWhileShort(model, init, LastDate(data), h);
    if |s.predictions| == 1 {
      assert NewestFirst(s.predictions) == [s.predictions[0].predicted];
    } else if |s.predictions| == 2 {
      var t := s.predictions[..1];
      assert NewestFirst(t) == [s.predictions[0].predicted];
      assert NewestFirst(s.predictions) == [s.predictions[1].predicted, s.predictions[0].predicted];
    }
  }

  // ---------------------------------------------------------------------------------------
  // The dispatcher

  const DefaultWindow: int := 20

  /** `getAllPredictions(data, h)`: linear, then moving average (window 20), then forest; a
      failure of any of them fails the whole bundle. */
  method GetAllPredictions(data: seq<Bar>, daysToPredict: int, train: Trainer) returns (r: Result<Bundle>)
    requires |data| >= 2
    ensures r.Ok? <==> |data| >= 5
    ensures r.Ok? ==> r.value == Bundle(LinearForecast(data, daysToPredict),
                                        MovingAverageForecast(data, daysToPredict, DefaultWindow),
                                        RandomForestForecast(data, daysToPredict, train).value)
    ensures r.Err? ==> r == Err(ReadUndefinedClose)
  {
    var linear := LinearRegressionPredict(data, daysToPredict);
    var moving := MovingAveragePredict(data, daysToPredict, DefaultWindow);
    var forest := RandomForestPredict(data, daysToPredict, train);
    if forest.Err? {
      return Err(forest.message);
    }
    r := Ok(Bundle(linear, moving, forest.value));
  }
}
