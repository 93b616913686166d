/** The simulation page's synthetic price history. `Math.random` is a sequence of draws in
    `[0, 1)`, consumed in call order: per day first the trend draw (only for the four known
    scenarios), then the volume draw. Today's date is a parameter. */
module Simulation {
  import opened Calendar
  import opened Series

  const StartPrice: real := 1000.0

  /** The `case` labels of the scenario `switch`; any other name falls through all of them. */
  datatype Scenario = BullMarket | BearMarket | Sideways | Volatile | Unrecognised

  function ScenarioOf(id: string): (r: Scenario)
    ensures r == Unrecognised <==>
              id != "bullMarket" && id != "bearMarket" && id != "sideways" && id != "volatile"
  {
    if id == "bullMarket" then BullMarket
    else if id == "bearMarket" then BearMarket
    else if id == "sideways" then Sideways
    else if id == "volatile" then Volatile
    else Unrecognised
  }

  /** The four scenarios whose `switch` case draws a random trend. */
  predicate KnownScenario(scenario: Scenario) {
    scenario != Unrecognised
  }

  /** Random draws used by the first `n` days: two per day for a known scenario, else one. */
  function DrawsFor(scenario: Scenario, n: nat): nat {
    if KnownScenario(scenario) then 2 * n else n
  }

  /** The `switch (scenario)` for one trend draw `r`; an unknown scenario keeps `trend = 0`. */
  function Trend(scenario: Scenario, r: real, vf: real): real {
    match scenario
    case BullMarket => 0.001 * (1.0 + r * vf)
    case BearMarket => -0.001 * (1.0 + r * vf)
    case Sideways => (r - 0.5) * 0.002 * vf
    case Volatile => (r - 0.5) * 0.004 * vf
    case Unrecognised => 0.0
  }

  /** `0 <= r * vf <= vf`, strictly below `vf` when `vf > 0`. */
  lemma ScaledDrawBounds(r: real, vf: real)
    requires 0.0 <= r < 1.0 && vf >= 0.0
    ensures 0.0 <= r * vf <= vf && (vf > 0.0 ==> r * vf < vf)
  {
    assert vf - r * vf == (1.0 - r) * vf;
    if vf > 0.0 {
      assert (1.0 - r) * vf > 0.0;
    }
  }

  /** `-vf/2 <= (r - 1/2) * vf <= vf/2`. */
  lemma CenteredDrawBounds(r: real, vf: real)
    requires 0.0 <= r < 1.0 && vf >= 0.0
    ensures -0.5 * vf <= (r - 0.5) * vf <= 0.5 * vf
  {
    assert (r - 0.5) * vf + 0.5 * vf == r * vf;
    assert 0.5 * vf - (r - 0.5) * vf == (1.0 - r) * vf;
    ScaledDrawBounds(r, vf);
  }

  /** A bull market's trend lies in `[0.001, 0.001 (1 + vf)]`, below the top when `vf > 0`. */
  lemma BullTrend(r: real, vf: real)
    requires 0.0 <= r < 1.0 && vf >= 0.0
    ensures var t := Trend(BullMarket, r, vf);
            0.001 <= t <= 0.001 * (1.0 + vf) && (vf > 0.0 ==> t < 0.001 * (1.0 + vf))
  {
    ScaledDrawBounds(r, vf);
    var x := r * vf;
    assert Trend(BullMarket, r, vf) == 0.001 * (1.0 + x);
  }

  /** A bear market's trend lies in `[-0.001 (1 + vf), -0.001]`, above the bottom when `vf > 0`. */
  lemma BearTrend(r: real, vf: real)
    requires 0.0 <= r < 1.0 && vf >= 0.0
    ensures var t := Trend(BearMarket, r, vf);
            -0.001 * (1.0 + vf) <= t <= -0.001 && (vf > 0.0 ==> -0.001 * (1.0 + vf) < t)
  {
    ScaledDrawBounds(r, vf);
    var x := r * vf;
    assert Trend(BearMarket, r, vf) == -0.001 * (1.0 + x);
  }

  /** A sideways trend is at most `0.001 vf` either way, a volatile one at most `0.002 vf`. */
  lemma SidewaysAndVolatileTrend(r: real, vf: real)
    requires 0.0 <= r < 1.0 && vf >= 0.0
    ensures -0.001 * vf <= Trend(Sideways, r, vf) <= 0.001 * vf
    ensures -0.002 * vf <= Trend(Volatile, r, vf) <= 0.002 * vf
  {
    CenteredDrawBounds(r, vf);
    var x := (r - 0.5) * vf;
    assert Trend(Sideways, r, vf) == 0.002 * x;
    assert Trend(Volatile, r, vf) == 0.004 * x;
  }

  /** Any other scenario name leaves the trend at zero, whatever is drawn. */
  lemma UnknownTrend(scenario: Scenario, r: real, vf: real)
    requires !KnownScenario(scenario)
    ensures Trend(scenario, r, vf) == 0.0
  {
  }

  /** One generated bar around the close `price`, with the day's volume draw `r`. */
  function DayBar(date: Day, price: real, vf: real, r: real): (b: Bar)
    ensures b.date == date && b.close == price
    ensures 0.0 <= r < 1.0 ==> 1000000 <= b.volume < 2000000
  {
    var dv := price * 0.02 * vf;
    Bar(date, price - dv / 2.0, price + dv, price - dv, price, (1000000.0 + r * 1000000.0).Floor)
  }

  /** A bar around a positive close with non-negative volatility is well formed: the open lies
      half the daily swing below the close, the high and low a whole swing above and below, and
      the volume is an integer in `[1000000, 2000000)`. */
  lemma DayBarShape(date: Day, price: real, vf: real, r: real)
    requires price > 0.0 && vf >= 0.0 && 0.0 <= r < 1.0
    ensures var b := DayBar(date, price, vf, r);
            var dv := 0.02 * vf * price;
            b.low <= b.open <= b.close <= b.high &&
            b.high - b.close == dv && b.close - b.open == dv / 2.0 && b.close - b.low == dv &&
            1000000 <= b.volume < 2000000
  {
    assert price * 0.02 * vf == 0.02 * vf * price;
    assert price * 0.02 * vf >= 0.0;
  }

  /** `volatilityLevel / 100`: the slider's percentage as a factor. */
  function VolatilityFactor(level: real): real {
    level / 100.0
  }

  function Max0(n: int): nat {
    if n < 0 then 0 else n
  }

  /** The trend of day `k`: drawn from `draws[2k]` for a known scenario, else 0. */
  function DayTrend(scenario: Scenario, draws: seq<real>, k: nat, vf: real): real
    requires DrawsFor(scenario, k + 1) <= |draws|
  {
    if KnownScenario(scenario) then Trend(scenario, draws[2 * k], vf) else 0.0
  }

  /** The volume draw of day `k`: the last draw of that day. */
  function VolumeDraw(scenario: Scenario, draws: seq<real>, k: nat): real
    requires DrawsFor(scenario, k + 1) <= |draws|
  {
    draws[DrawsFor(scenario, k + 1) - 1]
  }

  predicate AllDraws(draws: seq<real>) {
    forall k :: 0 <= k < |draws| ==> 0.0 <= draws[k] < 1.0
  }

  /** The scenario and volatility keep every close positive: bull and unknown scenarios always,
      a bear market while `vf < 999`, a sideways one while `vf < 1000` and a volatile one while
      `vf < 500`. The page's slider keeps `vf` within `[0.1, 1]`, so all four qualify. */
  predicate StaysPositive(scenario: Scenario, vf: real) {
    vf >= 0.0 &&
    (scenario == BullMarket || !KnownScenario(scenario) || (scenario == BearMarket && vf < 999.0) ||
     (scenario == Sideways && vf < 1000.0) || (scenario == Volatile && vf < 500.0))
  }

  /** Under such a scenario one plus the trend is positive. */
  lemma PositiveFactor(scenario: Scenario, r: real, vf: real)
    requires StaysPositive(scenario, vf) && 0.0 <= r < 1.0
    ensures 1.0 + Trend(scenario, r, vf) > 0.0
  {
    if scenario == BullMarket {
      BullTrend(r, vf);
    } else if scenario == BearMarket {
      BearTrend(r, vf);
    } else if scenario == Sideways || scenario == Volatile {
      SidewaysAndVolatileTrend(r, vf);
    }
  }

  /** The page's volatility slider runs from 10 to 100 percent, and at every such level each
      scenario it generates keeps its closes positive. */
  lemma SliderKeepsPricesPositive(scenario: Scenario, level: real)
    requires 10.0 <= level <= 100.0
    ensures StaysPositive(scenario, VolatilityFactor(level))
  {
  }

  /** `basePrice * (1 + trend)`: the close after a day with the given trend. */
  function Grow(price: real, trend: real): real {
    price * (1.0 + trend)
  }

  lemma ProductPositive(a: real, b: real)
    requires a > 0.0 && b > 0.0
    ensures a * b > 0.0
  {
  }

  /** A positive price stays positive when `1 + t > 0`; it rises when `t > 0` and falls when
      `t < 0`. */
  lemma GrowMoves(p: real, t: real)
    requires p > 0.0
    ensures 1.0 + t > 0.0 ==> Grow(p, t) > 0.0
    ensures t > 0.0 ==> Grow(p, t) > p
    ensures t < 0.0 ==> Grow(p, t) < p
  {
    assert Grow(p, t) == p + p * t;
    if 1.0 + t > 0.0 { ProductPositive(p, 1.0 + t); }
    if t > 0.0 { ProductPositive(p, t); }
    if t < 0.0 { ProductPositive(p, -t); }
  }

  /** The close of day `k`: the previous close (the start price before day 0) times one plus
      that day's trend. */
  function PriceAt(scenario: Scenario, draws: seq<real>, vf: real, k: nat): real
    requires DrawsFor(scenario, k + 1) <= |draws|
  {
    Grow(if k == 0 then StartPrice else PriceAt(scenario, draws, vf, k - 1), DayTrend(scenario, draws, k, vf))
  }

  /** With a scenario that keeps prices positive, every close is positive. */
  lemma {:induction false} PricePositive(scenario: Scenario, draws: seq<real>, vf: real, k: nat)
    requires DrawsFor(scenario, k + 1) <= |draws| && AllDraws(draws) && StaysPositive(scenario, vf)
    ensures PriceAt(scenario, draws, vf, k) > 0.0
  {
    var prev := if k == 0 then StartPrice else PriceAt(scenario, draws, vf, k - 1);
    if k > 0 {
      PricePositive(scenario, draws, vf, k - 1);
    }
    var t := DayTrend(scenario, draws, k, vf);
    assert PriceAt(scenario, draws, vf, k) == Grow(prev, t);
    if KnownScenario(scenario) {
      PositiveFactor(scenario, draws[2 * k], vf);
    }
    GrowMoves(prev, t);
  }

  /** In a bull market every close is strictly above the one before. */
  lemma BullRises(draws: seq<real>, vf: real, k: nat)
    requires 2 * (k + 1) <= |draws| && AllDraws(draws) && vf >= 0.0 && k > 0
    ensures PriceAt(BullMarket, draws, vf, k - 1) < PriceAt(BullMarket, draws, vf, k)
  {
    var prev := PriceAt(BullMarket, draws, vf, k - 1);
    PricePositive(BullMarket, draws, vf, k - 1);
    BullTrend(draws[2 * k], vf);
    var t := Trend(BullMarket, draws[2 * k], vf);
    assert PriceAt(BullMarket, draws, vf, k) == Grow(prev, t);
    GrowMoves(prev, t);
  }

  /** In a bear market (with `vf < 999`) every close is strictly below the one before, and
      stays positive. */
  lemma BearFalls(draws: seq<real>, vf: real, k: nat)
    requires 2 * (k + 1) <= |draws| && AllDraws(draws) && 0.0 <= vf < 999.0 && k > 0
    ensures 0.0 < PriceAt(BearMarket, draws, vf, k) < PriceAt(BearMarket, draws, vf, k - 1)
  {
    var prev := PriceAt(BearMarket, draws, vf, k - 1);
    PricePositive(BearMarket, draws, vf, k);
    PricePositive(BearMarket, draws, vf, k - 1);
    BearTrend(draws[2 * k], vf);
    var t := Trend(BearMarket, draws[2 * k], vf);
    assert PriceAt(BearMarket, draws, vf, k) == Grow(prev, t);
    GrowMoves(prev, t);
  }

  /** An unknown scenario never moves the price: every close is the start price. */
  lemma {:induction false} UnknownStaysFlat(scenario: Scenario, draws: seq<real>, vf: real, k: nat)
    requires !KnownScenario(scenario) && k + 1 <= |draws|
    ensures PriceAt(scenario, draws, vf, k) == StartPrice
  {
    if k > 0 {
      UnknownStaysFlat(scenario, draws, vf, k - 1);
    }
  }

  /** `data` holds the first `|data|` generated bars, day `k` dated `first + k`. */
  predicate GeneratedBars(scenario: Scenario, draws: seq<real>, vf: real, first: Day, data: seq<Bar>) {
    DrawsFor(scenario, |data|) <= |draws| &&
    forall k :: 0 <= k < |data| ==>
      data[k] == DayBar(first + k, PriceAt(scenario, draws, vf, k), vf, VolumeDraw(scenario, draws, k))
  }

  lemma GeneratedBarsSnoc(scenario: Scenario, draws: seq<real>, vf: real, first: Day, data: seq<Bar>, bar: Bar)
    requires GeneratedBars(scenario, draws, vf, first, data)
    requires DrawsFor(scenario, |data| + 1) <= |draws|
    requires bar == DayBar(first + |data|, PriceAt(scenario, draws, vf, |data|), vf, VolumeDraw(scenario, draws, |data|))
    ensures GeneratedBars(scenario, draws, vf, first, data + [bar])
  {
    var d := data + [bar];
    forall k | 0 <= k < |d|
      ensures d[k] == DayBar(first + k, PriceAt(scenario, draws, vf, k), vf, VolumeDraw(scenario, draws, k))
    {
      if k < |data| {
        assert d[k] == data[k];
      } else {
        assert d[k] == bar;
      }
    }
    assert GeneratedBars(scenario, draws, vf, first, d);
  }

  /** `generateHistoricalData(scenario, days, volatilityLevel)`, with the scenario id already
      matched against the `case` labels: one bar per calendar day from
      `today - days` to `today - 1`, weekends included, each around that day's close. */
  method GenerateHistoricalData(scenario: Scenario, days: int, volatilityLevel: real, today: Day, draws: seq<real>)
    returns (data: seq<Bar>)
    requires DrawsFor(scenario, Max0(days)) <= |draws|
    ensures |data| == Max0(days)
    ensures forall k :: 0 <= k < |data| ==> data[k].date == today - days + k
    ensures GeneratedBars(scenario, draws, VolatilityFactor(volatilityLevel), today - days, data)
  {
    data := [];
    var basePrice := StartPrice;
    var volatilityFactor := VolatilityFactor(volatilityLevel);
    var next := 0;
    var i := 0;
    while i < days
      invariant 0 <= i <= Max0(days) && |data| == i
      invariant next == DrawsFor(scenario, i)
      invariant i > 0 ==> basePrice == PriceAt(scenario, draws, volatilityFactor, i - 1)
      invariant i == 0 ==> basePrice == StartPrice
      invariant GeneratedBars(scenario, draws, volatilityFactor, today - days, data)
    {
      var date := today - (days - i);
      var trend := 0.0;
      if KnownScenario(scenario) {
        trend := Trend(scenario, draws[next], volatilityFactor);
        next := next + 1;
      }
      assert trend == DayTrend(scenario, draws, i, volatilityFactor);
      basePrice := Grow(basePrice, trend);
      var bar := DayBar(date, basePrice, volatilityFactor, draws[next]);
      GeneratedBarsSnoc(scenario, draws, volatilityFactor, today - days, data, bar);
      next := next + 1;
      data := data + [bar];
      i := i + 1;
    }
  }

  /** What the generated history looks like: every bar is well formed with a positive close in
      all four scenarios (at any slider level), a bull market's closes rise day by day, a bear
      market's fall, and an unknown scenario stays at the start price. */
  lemma GeneratedShape(scenario: Scenario, draws: seq<real>, vf: real, first: Day, data: seq<Bar>)
    requires GeneratedBars(scenario, draws, vf, first, data) && AllDraws(draws) && StaysPositive(scenario, vf)
    ensures forall k :: 0 <= k < |data| ==> data[k].low <= data[k].open <= data[k].close <= data[k].high
    ensures forall k :: 0 <= k < |data| ==> 0.0 < data[k].close && 1000000 <= data[k].volume < 2000000
    ensures scenario == BullMarket ==> forall k :: 0 < k < |data| ==> data[k - 1].close < data[k].close
    ensures scenario == BearMarket ==> forall k :: 0 < k < |data| ==> data[k].close < data[k - 1].close
    ensures !KnownScenario(scenario) ==> forall k :: 0 <= k < |data| ==> data[k].close == StartPrice
  {
    forall k | 0 <= k < |data|
      ensures data[k].low <= data[k].open <= data[k].close <= data[k].high
      ensures 0.0 < data[k].close && 1000000 <= data[k].volume < 2000000
      ensures !KnownScenario(scenario) ==> data[k].close == StartPrice
    {
      PricePositive(scenario, draws, vf, k);
      DayBarShape(first + k, PriceAt(scenario, draws, vf, k), vf, VolumeDraw(scenario, draws, k));
      if !KnownScenario(scenario) {
        UnknownStaysFlat(scenario, draws, vf, k);
      }
    }
    forall k | 0 < k < |data|
      ensures scenario == BullMarket ==> data[k - 1].close < data[k].close
      ensures scenario == BearMarket ==> data[k].close < data[k - 1].close
    {
      assert data[k].close == PriceAt(scenario, draws, vf, k);
      assert data[k - 1].close == PriceAt(scenario, draws, vf, k - 1);
      if scenario == BullMarket {
        BullRises(draws, vf, k);
      } else if scenario == BearMarket {
        BearFalls(draws, vf, k);
      }
    }
  }
}
