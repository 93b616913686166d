# StockPred core, modelled in Dafny

StockPred is a web application for Indian stocks. It fetches daily bars and quotes from a market-data
provider, draws charts and forecasts closing prices with three predictors:

- an ordinary least-squares line;
- a compounding moving average;
- a "random forest" that runs autoregressively over a 7-slot feature vector.

This project models the application's logic:

- the forecast engine and its dispatcher;
- the saved-stocks list kept per user in the realtime database;
- the market-data helpers: the one-hour response cache, the daily-series transform, the index-quote
  fallback, the gainers/losers/most-active ranking and the volume formatter;
- the rule functions of the pages and components:
  - the synthetic price history of the simulation page;
  - the market open/closed rule and the load sequence of the market overview;
  - the relative timestamps of the news list;
  - the statistic cards of a stock;
  - the submit handlers of the registration and login forms.

Dates are day ordinals (day 0 is 1970-01-01, a Thursday) and `Weekday` plays `Date.getDay`. Prices are
`real`. Clocks, `Math.random`, network responses, the auth outcome and the foreign number parsers are
parameters.

Modules, one per source file plus three shared ones:

- shared: `Wrappers` (`Option`, `Result`), `Calendar`, `Series` (bars, sums, minimum and maximum);
- `Prediction` (`src/services/predictionService.ts`);
- `SavedStocks` (`src/services/authService.ts`);
- `MarketData` (`src/services/stockService.ts`);
- `Simulation` (`src/pages/SimulationPage.tsx`);
- `MarketOverview` (`src/components/MarketOverview.tsx`);
- `News` (`src/components/NewsSection.tsx`);
- `StockStats` (`src/components/StockStats.tsx`);
- `RegisterForm` (`src/pages/RegisterPage.tsx`);
- `LoginForm` (`src/pages/LoginPage.tsx`).

Parts of the code change state step by step: the predictor loops, the saved-stocks store, the API cache,
the history generator and the component handlers. These are methods, proved against specification
functions (`LinearForecast`, `MARun`, `RFRun`, `Saved`, `Without`, `GeneratedBars`, `StatusAt`). The
component state and the database are classes with `modifies` clauses. The pure pipelines are
functions, and lemmas state what the source promises about them.

Where the code and the written design disagree, the model follows the code:

- The forest's forecast vector is a shift register: `unshift(pred)` followed by `pop()`. So the volume
  and the high-low range are shifted out after the first and second predictions; they are not held at
  their last observed values. `RandomForestVolumeShiftsOut` proves the vectors after one and after two
  predictions.
- With exactly five bars the forest is trained on an empty set; it does not fail early. What the library
  does with an empty set is the trainer parameter's business.
- The forecast loops run over `h` calendar days, so a horizon of `h` yields at most `h` points (five per
  seven days), not `h` trading days.

## Model

| member | source | states |
|---|---|---|
| Calendar.Weekday | src/services/predictionService.ts:23 | `getDay` of a date is a weekday number in 0..6, 0 being Sunday |
| Calendar.WeekdayNext | src/services/predictionService.ts:19-20 | the day after has the next weekday number, Saturday wrapping to Sunday |
| Calendar.TwoWeekendDaysPerWeek | src/services/predictionService.ts:22-25 | any seven consecutive days contain exactly two Saturday/Sunday days |
| Series.Closes | src/services/predictionService.ts:9 | `data.map(item => item.close)`: same length, k-th entry is the k-th bar's close |
| Series.SumAppend | src/services/predictionService.ts:57 | the left-fold sum of a sequence with `x` appended is the old sum plus `x` |
| Series.SumBounds | src/services/predictionService.ts:57 | values all in `[lo, hi]` sum to between `n·lo` and `n·hi` |
| Series.MeanWithin | src/services/predictionService.ts:57-61 | the mean of values all in `[lo, hi]` lies in `[lo, hi]` |
| Series.MinOf | src/components/StockStats.tsx:28 | `Math.min(...s)` is a member of `s` and no member is smaller |
| Series.MaxOf | src/components/StockStats.tsx:27 | `Math.max(...s)` is a member of `s` and no member is larger |
| Prediction.TradingOffsetsInRange | src/services/predictionService.ts:18-25 | at most `h` emitted offsets, each in `1..h`, each landing on a weekday |
| Prediction.TradingOffsetsIncreasing | src/services/predictionService.ts:18-25 | the emitted offsets are strictly increasing |
| Prediction.TradingOffsetsComplete | src/services/predictionService.ts:18-25 | every offset in `1..h` whose date is a weekday is emitted (weekends do not consume a weekday's slot) |
| Prediction.SevenMoreDaysAddFive | src/services/predictionService.ts:18-25 | seven more calendar days of horizon add exactly five points, whatever the start weekday |
| Prediction.WholeWeeksYieldFivePerWeek | src/services/predictionService.ts:18-25 | a horizon of `7q` days yields exactly `5q` points; `h = 7` gives 5 |
| Prediction.CalendarFacts | src/services/predictionService.ts:18-33 | a predictor's output has at most `h` points, dated in `(last, last+h]` on weekdays, strictly increasing, each with `actual = null` |
| Prediction.CalendarComplete | src/services/predictionService.ts:18-25 | every weekday within the horizon has a point dated that day |
| Prediction.SumXClosed | src/services/predictionService.ts:8 | the indices `0..n−1` sum to `n(n−1)/2` |
| Prediction.SumXXClosed | src/services/predictionService.ts:8 | their squares sum to `n(n−1)(2n−1)/6` |
| Prediction.SpreadFromClosedForms | src/services/predictionService.ts:8-12 | given the closed forms of `Σk` and `Σk²` for `m ≥ 2` points, the least-squares denominator `m·Σk² − (Σk)²` is positive |
| Prediction.SpreadPositive | src/services/predictionService.ts:8-12 | that denominator is positive for `n ≥ 2`, so the line is defined |
| Prediction.SolvesWithoutDivision | src/services/predictionService.ts:12 | a line satisfying the cross-multiplied closed form solves the two normal equations |
| Prediction.ClosedFormSolves | src/services/predictionService.ts:12 | the closed-form slope and intercept solve the normal equations |
| Prediction.SolutionUnique | src/services/predictionService.ts:12 | with a positive denominator the normal equations have one solution |
| Prediction.NormalEquationsUnique | src/services/predictionService.ts:8-12 | two lines that both solve a series' normal equations are equal |
| Prediction.FitSolvesNormalEquations | src/services/predictionService.ts:8-12 | the fitted line is the least-squares line: it solves the normal equations over `(k, close[k])` |
| Prediction.ExactLineSolves | src/services/predictionService.ts:8-12 | closes lying exactly on a line solve that line's normal equations |
| Prediction.FitIsTheSolution | src/services/predictionService.ts:12 | any line solving the normal equations is the fitted one |
| Prediction.ExactLineRecovered | src/services/predictionService.ts:8-12 | on closes exactly linear in the index the fit reproduces that line |
| Prediction.LinearPoints | src/services/predictionService.ts:27-33 | one point per trading offset |
| Prediction.LinearPointsAt | src/services/predictionService.ts:27-33 | the k-th point is the line's point for the k-th offset |
| Prediction.LinearRegressionPredict | src/services/predictionService.ts:5-40 | the loop returns exactly the fitted line's points at the trading offsets, labelled linear regression |
| Prediction.LinearPointsOnCalendar | src/services/predictionService.ts:18-33 | the line's points at the trading offsets follow the calendar rule |
| Prediction.LinearForecast | src/services/predictionService.ts:15-40 | the result of `linearRegressionPredict` follows the calendar rule: one point per trading offset, dated `last+offset`, `actual = null` |
| Prediction.LinearAtCalendarOffset | src/services/predictionService.ts:27 | the k-th linear prediction is the fitted line at `n−1+offset`, with the calendar offset, not the point count |
| Prediction.FirstOffsetAfterFriday | src/services/predictionService.ts:18-25 | after a Friday the first offset is 3, a Monday |
| Prediction.LinearAfterFriday | src/services/predictionService.ts:27 | after a Friday the first linear point is Monday's, evaluated at index `n+2` |
| Prediction.LinearReproducesLine | src/services/predictionService.ts:8-27 | on exactly linear closes the forecast continues that line |
| Prediction.LinearPointsOnLine | src/services/predictionService.ts:27-31 | each point is `a + b·(n−1+i)` at date `last+i` |
| Prediction.LinearConstant | src/services/predictionService.ts:8-27 | on constant closes every prediction equals the constant |
| Prediction.Trailing | src/services/predictionService.ts:56-60 | the last `window` prices, or all when fewer: a suffix of length `min(window, n)` |
| Prediction.GetMAIsMean | src/services/predictionService.ts:55-62 | `getMA` is the mean of the trailing window |
| Prediction.GetMAWithin | src/services/predictionService.ts:55-62 | `getMA` lies in any range containing the whole buffer |
| Prediction.MARun | src/services/predictionService.ts:64-82 | the buffer holds the closes plus one value per emitted point |
| Prediction.MovingAveragePredict | src/services/predictionService.ts:48-88 | the loop returns the points of the compounding run, labelled with the window |
| Prediction.MovingAverageForecast | src/services/predictionService.ts:64-88 | the result of `movingAveragePredict` follows the calendar rule |
| Prediction.MAOnCalendar | src/services/predictionService.ts:66-82 | the moving-average forecast follows the calendar rule |
| Prediction.MABufferIsClosesThenPredictions | src/services/predictionService.ts:64-76 | the buffer is always the closes followed by the predicted values, in order (the input is copied, not mutated) |
| Prediction.MABufferGrowth | src/services/predictionService.ts:64-76 | the buffer grows by one value per trading offset and never on a weekend offset |
| Prediction.MAStaysWithin | src/services/predictionService.ts:64-82 | if the closes lie in `[lo, hi]`, so do the buffer and every prediction |
| Prediction.MABetweenMinAndMaxClose | src/services/predictionService.ts:64-82 | every moving-average prediction lies between the lowest and the highest close |
| Prediction.MAThreeDayExample | src/services/predictionService.ts:55-82 | window 3 over closes 10, 20, 30 with one weekday ahead predicts 20 |
| Prediction.FeatureAt | src/services/predictionService.ts:103-111 | a feature vector has the seven entries: five previous closes, newest first, then volume and range |
| Prediction.BuildTrainingSet | src/services/predictionService.ts:99-115 | exactly `n−5` examples (none when `n ≤ 5`); example `k` is day `k+5`'s features with target its close |
| Prediction.RFRun | src/services/predictionService.ts:142-162 | the forecast vector always has seven entries |
| Prediction.RandomForestPredict | src/services/predictionService.ts:96-172 | fails with the `date` read error on no bars and the `close` read error on fewer than 5; otherwise returns the shift-register run's points |
| Prediction.RandomForestForecast | src/services/predictionService.ts:96-172 | the result of `randomForestPredict` is an error exactly when there are fewer than five bars; otherwise it follows the calendar rule |
| Prediction.RFOnCalendar | src/services/predictionService.ts:142-161 | the forest forecast follows the calendar rule |
| Prediction.RFVectorShifts | src/services/predictionService.ts:151-155 | the vector is the first seven of the predictions (newest first) followed by the initial vector; weekend offsets leave it unchanged |
| Prediction.RFVectorWhileShort | src/services/predictionService.ts:151-155 | while at most seven points exist, the vector is those values then the initial vector's first `7−k` entries |
| Prediction.RandomForestVolumeShiftsOut | src/services/predictionService.ts:132-155 | after one prediction the vector is `[p, c1..c5, volume]`, after two `[p2, p1, c1..c5]` |
| Prediction.GetAllPredictions | src/services/predictionService.ts:175-181 | the bundle of the three forecasts (window 20); it fails exactly when the forest fails, with no error isolation |
| SavedStocks.Saved | src/services/authService.ts:74-84 | the result contains the symbol; the old list is its prefix; one `{symbol, name, savedAt}` is appended exactly when the symbol was absent |
| SavedStocks.Without | src/services/authService.ts:103 | the filter keeps exactly the entries whose symbol differs |
| SavedStocks.WithoutRemovesSymbol | src/services/authService.ts:103 | after removal no entry carries the symbol |
| SavedStocks.WithoutAppend | src/services/authService.ts:103 | the filter distributes over concatenation, so order is preserved |
| SavedStocks.WithoutAbsent | src/services/authService.ts:103 | removing an absent symbol changes nothing |
| SavedStocks.WithoutKeepsDistinct | src/services/authService.ts:103 | removal keeps distinct symbols distinct |
| SavedStocks.SaveIdempotent | src/services/authService.ts:74-84 | saving a symbol already present returns the list unchanged |
| SavedStocks.SaveKeepsDistinct | src/services/authService.ts:74-84 | saving keeps symbols distinct |
| SavedStocks.SaveThenRemove | src/services/authService.ts:74-106 | saving a new symbol and then removing it restores the original list |
| SavedStocks.UserStore.RegisterUser | src/services/authService.ts:12-29 | a created user's record starts with `savedStocks = []` (one write); a failed creation writes nothing |
| SavedStocks.UserStore.SaveStock | src/services/authService.ts:62-88 | returns the saved list of the stored array, or of `[]` for a missing or non-array value; writes it back only when the symbol was new |
| SavedStocks.UserStore.RemoveStock | src/services/authService.ts:91-113 | an array is filtered and written back; a missing or non-array value yields `[]` and no write |
| SavedStocks.UserStore.GetSavedStocks | src/services/authService.ts:116-130 | the stored array, or `[]` when missing or not an array |
| SavedStocks.RegisterThenSave | src/services/authService.ts:18-84 | a new user reads back `[]` and a first save yields exactly that one entry |
| MarketData.ApiCache.constructor | src/services/stockService.ts:7 | the cache starts empty |
| MarketData.ApiCache.CachedApiCall | src/services/stockService.ts:11-33 | a hit (key present and younger than one hour) returns the stored data with no fetch or change; a miss fetches and stores `{data, now}` under that key only |
| MarketData.CacheExample | src/services/stockService.ts:16-20 | an entry one millisecond short of an hour is a hit; one exactly an hour old is a miss |
| MarketData.Insert | src/services/stockService.ts:68 | insertion adds exactly the element (same multiset plus `x`) |
| MarketData.InsertSorted | src/services/stockService.ts:68 | inserting into a sorted list keeps it sorted |
| MarketData.SortBy | src/services/stockService.ts:68 | the result is sorted by the key and is a permutation of the input |
| MarketData.Recent | src/services/stockService.ts:58-59 | the kept bars are exactly those dated on or after the cutoff |
| MarketData.DailyStockData | src/services/stockService.ts:45-68 | a series is returned exactly when there is no provider error and the response has a daily series |
| MarketData.DailyStockDataContract | src/services/stockService.ts:45-68 | the provider's error wins, then "No data available for this stock"; otherwise exactly the recent bars, ascending by date |
| MarketData.FormatVolume | src/services/stockService.ts:384-393 | the four tiers are exclusive and exhaustive; each tier divides by its unit and the scaled value lies in `[1, 100)` below crore |
| MarketData.OrZero | src/services/stockService.ts:163 | `s \|\| '0'` is never empty, keeps a non-empty `s` and gives `'0'` for a missing or empty one |
| MarketData.RemoveFirstPercent | src/services/stockService.ts:164 | `replace('%', '')` removes one character exactly when a `%` is present, and leaves a string without `%` unchanged |
| MarketData.RemovesFirstPercent | src/services/stockService.ts:164 | when `i` is the first `%`, the result is the string without position `i`, the rest in order |
| MarketData.IndexRowFor | src/services/stockService.ts:150-201 | a usable BSE quote, else a usable NSE quote, else (or when the BSE call throws) the placeholder, whose volume alone reads `N/A` |
| MarketData.TopIndices | src/services/stockService.ts:138-210 | one row per index in list order, each given by the fallback rule |
| MarketData.BeforeDot | src/services/stockService.ts:240 | `split('.')[0]` is the prefix of the symbol up to its first `.`, or the whole symbol when it has none |
| MarketData.Present | src/services/stockService.ts:258 | a value is kept exactly when it occurs as a non-null entry |
| MarketData.PresentCounts | src/services/stockService.ts:258 | each value is kept as many times as it occurs |
| MarketData.PresentAppend | src/services/stockService.ts:258 | the filter distributes over concatenation, so the kept entries stay in input order |
| MarketData.NothingPresent | src/services/stockService.ts:258 | all-null candidates leave nothing |
| MarketData.TopFourSplit | src/services/stockService.ts:257-262 | the result is the first `min(4, valid)` of the sorted valid entries |
| MarketData.TopFourFromCandidates | src/services/stockService.ts:257-262 | every returned entry was a valid candidate |
| MarketData.TopFourSorted | src/services/stockService.ts:257-262 | the returned entries are in key order |
| MarketData.TopFourBeatsRest | src/services/stockService.ts:257-262 | no returned entry ranks after a valid entry left out |
| MarketData.TopFourContract | src/services/stockService.ts:257-262 | at most four valid entries, in key order, none ranked after one left out |
| MarketData.TopGainers | src/services/stockService.ts:213-267 | `getTopGainers` returns at most four entries |
| MarketData.TopLosers | src/services/stockService.ts:270-324 | `getTopLosers` returns at most four entries |
| MarketData.MostActive | src/services/stockService.ts:327-381 | `getMostActive` returns at most four entries |
| MarketData.TopGainersContract | src/services/stockService.ts:213-267 | at most four gainers, by change descending, each from a usable quote |
| MarketData.TopLosersContract | src/services/stockService.ts:270-324 | at most four losers, by change ascending |
| MarketData.MostActiveContract | src/services/stockService.ts:327-381 | at most four rows, by volume descending |
| MarketData.RankingsOfFailures | src/services/stockService.ts:248-252 | when every quote request fails, each ranking is empty |
| Simulation.ScenarioOf | src/pages/SimulationPage.tsx:38-51 | a name matches no `case` exactly when it is none of the four labels |
| Simulation.BullTrend | src/pages/SimulationPage.tsx:39-41 | the bull trend is in `[0.001, 0.001(1+vf))` |
| Simulation.BearTrend | src/pages/SimulationPage.tsx:42-44 | the bear trend is in `(−0.001(1+vf), −0.001]` |
| Simulation.SidewaysAndVolatileTrend | src/pages/SimulationPage.tsx:45-50 | sideways \|trend\| ≤ 0.001·vf, volatile ≤ 0.002·vf |
| Simulation.UnknownTrend | src/pages/SimulationPage.tsx:37-51 | any other scenario keeps the trend at 0 |
| Simulation.DayBarShape | src/pages/SimulationPage.tsx:54-62 | `low ≤ open ≤ close ≤ high` with `high−close = dv`, `close−open = dv/2`, `dv = 0.02·vf·close`; volume in `[1000000, 2000000)` |
| Simulation.DayBar | src/pages/SimulationPage.tsx:54-63 | the bar is dated on its day and closes at the day's price; with a draw in `[0, 1)` its volume is an integer in `[1000000, 2000000)` |
| Simulation.PositiveFactor | src/pages/SimulationPage.tsx:39-53 | `1 + trend > 0` for bull and unknown scenarios, bear with `vf < 999`, sideways with `vf < 1000` and volatile with `vf < 500` |
| Simulation.SliderKeepsPricesPositive | src/pages/SimulationPage.tsx:187-191 | every slider level in `10..100` puts all four scenarios in that range |
| Simulation.GrowMoves | src/pages/SimulationPage.tsx:53 | a positive price stays positive, rises with a positive trend, falls with a negative one |
| Simulation.PricePositive | src/pages/SimulationPage.tsx:30-53 | every close is positive under such a scenario |
| Simulation.BullRises | src/pages/SimulationPage.tsx:39-53 | bull closes strictly increase |
| Simulation.BearFalls | src/pages/SimulationPage.tsx:42-53 | bear closes (with `vf < 999`) strictly decrease and stay positive |
| Simulation.UnknownStaysFlat | src/pages/SimulationPage.tsx:30-53 | an unknown scenario keeps every close at 1000 |
| Simulation.GenerateHistoricalData | src/pages/SimulationPage.tsx:28-67 | exactly `days` bars dated `today−days … today−1`, weekends included, bar `k` built from the `k`-th compounded close and its draws |
| Simulation.GeneratedShape | src/pages/SimulationPage.tsx:33-63 | in all four scenarios every generated bar is well formed with positive close and volume in range; bull rises, bear falls, unknown stays at 1000 |
| MarketOverview.StatusAt | src/components/MarketOverview.tsx:20-35 | Sunday and Saturday are closed; a weekday is open iff `555 ≤ h·60+m ≤ 930` |
| MarketOverview.SaturdayOffset | src/components/MarketOverview.tsx:23-37 | the offset is 0 on Saturday, 6 on Sunday, in `1..5` on a weekday |
| MarketOverview.SaturdayOffsetLandsOnSaturday | src/components/MarketOverview.tsx:20-38 | the announced day is the first Saturday on or after today |
| MarketOverview.SessionBoundsInclusive | src/components/MarketOverview.tsx:28-33 | 9:15 and 15:30 are open, 9:14 and 15:31 closed |
| MarketOverview.Panel.constructor | src/components/MarketOverview.tsx:8-12 | initial state: no indices, not loading, closed, no announced day, not fetched |
| MarketOverview.Panel.CheckMarketStatus | src/components/MarketOverview.tsx:14-40 | sets the status by the rule; a closed status announces the Saturday; the open branch leaves `nextClosedDay`; nothing else changes |
| MarketOverview.Panel.FetchIndicesData | src/components/MarketOverview.tsx:42-54 | success sets the indices, the status and `dataFetched`; failure changes none of them; `loading` is false afterwards |
| MarketOverview.FirstLoad | src/components/MarketOverview.tsx:42-56 | after a first load the load prompt shows again exactly when the fetch failed |
| News.ElapsedSeconds | src/components/NewsSection.tsx:74 | `floor(elapsed_ms / 1000)`, also for a future date |
| News.FormatTimeAgo | src/components/NewsSection.tsx:73-80 | seconds iff `s < 60`, minutes iff `60 ≤ s < 3600`, hours iff `3600 ≤ s < 86400`, the article's date iff `s ≥ 86400` |
| News.TimeAgoUnits | src/components/NewsSection.tsx:77-78 | a minute count is in 1..59 and an hour count in 1..23, each the whole units elapsed |
| News.FutureReadsAsNegativeSeconds | src/components/NewsSection.tsx:74-76 | a future date reads as a negative number of seconds |
| News.CoarserWithTime | src/components/NewsSection.tsx:73-80 | as time passes a timestamp only moves to coarser units |
| StockStats.YearWindow | src/components/StockStats.tsx:26 | `slice(-252)` is the last `min(252, n)` bars |
| StockStats.Highs | src/components/StockStats.tsx:27 | the window's highs, in order |
| StockStats.Lows | src/components/StockStats.tsx:28 | the window's lows, in order |
| StockStats.Volumes | src/components/StockStats.tsx:31 | the window's volumes, in order |
| StockStats.PercentChange | src/components/StockStats.tsx:23 | no value exactly when the previous close is 0; otherwise the value times the previous close is 100 times the change |
| StockStats.High52 | src/components/StockStats.tsx:26-27 | the 52-week high is at least the latest high |
| StockStats.Low52 | src/components/StockStats.tsx:26-28 | the 52-week low is at most the latest low |
| StockStats.AverageVolume | src/components/StockStats.tsx:26-31 | the average volume lies between the window's smallest and largest volume |
| StockStats.Position | src/components/StockStats.tsx:61 | no value exactly when high equals low; otherwise the value times `high − low` is 100 times `close − low` |
| StockStats.RangePosition | src/components/StockStats.tsx:26-61 | no value exactly when the 52-week high equals the 52-week low |
| StockStats.Summarise | src/components/StockStats.tsx:13-22 | nothing for an absent or empty series; else the latest bar, the previous one (the latest when alone), the change and `up iff change ≥ 0` |
| StockStats.SingleBarNoChange | src/components/StockStats.tsx:18-22 | a single bar gives change 0 and the up indicator |
| StockStats.PercentMatchesIndicator | src/components/StockStats.tsx:23-45 | with a positive previous close the percent change is non-negative exactly when the indicator is up |
| StockStats.YearHigh | src/components/StockStats.tsx:26-27 | the 52-week high is a high of the window, no window high exceeds it, and it is at least the latest high |
| StockStats.YearLow | src/components/StockStats.tsx:26-28 | the 52-week low is a low of the window, none is below it, and it is at most the latest low |
| StockStats.AverageVolumeWithin | src/components/StockStats.tsx:31 | the average volume lies within the window's volume range |
| StockStats.PositionBounds | src/components/StockStats.tsx:61 | a close within `[low, high]` is at 0–100 % of the range |
| StockStats.RangePositionPercent | src/components/StockStats.tsx:26-61 | a latest close within its own bar sits at 0–100 % of the 52-week range |
| RegisterForm.Utf16Length | src/pages/RegisterPage.tsx:25 | `password.length` counts UTF-16 units: between the number of characters and twice it |
| RegisterForm.Utf16LengthOfPlaneZero | src/pages/RegisterPage.tsx:25 | for characters of the Basic Multilingual Plane it is the number of characters |
| RegisterForm.Validate | src/pages/RegisterPage.tsx:19-28 | a mismatch is reported first; then a UTF-16 length below 6; the form submits iff the passwords match and their UTF-16 length is ≥ 6 |
| RegisterForm.ValidationOrder | src/pages/RegisterPage.tsx:19-28 | a short mismatched pair reports the mismatch; six or more characters always pass the length check |
| RegisterForm.SurrogatePairCountsTwice | src/pages/RegisterPage.tsx:25 | five characters, one outside the Basic Multilingual Plane, measure 6 and pass |
| RegisterForm.RegisterErrorMessage | src/pages/RegisterPage.tsx:37-46 | each of the three known codes has its own message; every other code gives "Failed to create account" |
| RegisterForm.RegisterPage.constructor | src/pages/RegisterPage.tsx:11-12 | no error, not loading, nothing sent |
| RegisterForm.RegisterPage.Submit | src/pages/RegisterPage.tsx:15-34 | invalid input shows the check's message, sends nothing and leaves `loading`; valid input shows the pending state (`loading`, no error) and sends one request |
| RegisterForm.RegisterPage.Settle | src/pages/RegisterPage.tsx:33-51 | from the pending state: success navigates home with no error, failure shows the mapped message; `loading` ends false and nothing more is sent |
| RegisterForm.RegisterPage.HandleSubmit | src/pages/RegisterPage.tsx:15-52 | invalid input shows the check's message and sends nothing; valid input sends one request, then navigates home or shows the mapped error; `loading` ends false |
| RegisterForm.SubmitOnce | src/pages/RegisterPage.tsx:15-52 | mismatched passwords send nothing; a valid form sends exactly one request and shows no error iff it succeeded |
| LoginForm.LoginErrorMessage | src/pages/LoginPage.tsx:22-31 | user-not-found and wrong-password share one message; too-many-requests and invalid-email have their own; anything else gives "Failed to login" |
| LoginForm.LoginPage.constructor | src/pages/LoginPage.tsx:9-10 | no error, not loading, nothing sent |
| LoginForm.LoginPage.Submit | src/pages/LoginPage.tsx:13-19 | every attempt shows the pending state (`loading`, no error) and sends one request |
| LoginForm.LoginPage.Settle | src/pages/LoginPage.tsx:18-36 | from the pending state: success navigates home with no error, failure shows the mapped message; `loading` ends false and nothing more is sent |
| LoginForm.LoginPage.HandleSubmit | src/pages/LoginPage.tsx:13-37 | every attempt sends exactly one request with no client-side check; success navigates home with no error; failure shows the mapped message; `loading` ends false |
| LoginForm.RetryAfterFailure | src/pages/LoginPage.tsx:15-20 | a success after a failure clears the earlier message and navigates home |

## Left out

- Floating point: prices, trends and averages are exact reals. NaN, Infinity, rounding and the rendering
  of `toFixed`, `toLocaleString` and `toLocaleDateString` are not modelled. A division by zero is `None`
  in `StockStats.PercentChange` and `StockStats.Position`, where JavaScript would show Infinity or NaN.
- Time zones: a date is a day ordinal and the local weekday is `Weekday`. The UTC/local shift of
  `new Date(string)`, `getDay` and `toISOString` is not modelled. `nextClosedDay` and `OnDate` hold the
  day or instant, not the rendered string.
- The regression library is not part of this model. `Fit` writes the ordinary least-squares closed form
  over `x = 0..n-1`. `score()` (the `r2` field) is not modelled.
- The forest library is not part of this model. Training and prediction are a `Trainer` parameter, and a
  training failure (for instance on the empty set of `n ≤ 5`) is not modelled.
- Prediction.LinearRegressionPredict: requires `n ≥ 2`. With one bar the library divides by zero (floating
  point); with none the code reads a missing bar.
- Prediction.MovingAveragePredict: requires `n ≥ 1` and `window ≥ 1`. With no bars the code reads a
  missing bar, and the dispatcher always passes window 20.
- Prediction.GetAllPredictions: requires `n ≥ 2`, the linear predictor's requirement.
- `Math.random` is a sequence of draws in `[0, 1)`, consumed trend first, then volume. `Date.now`,
  `new Date()` and the clock after a request are parameters.
- The network (axios, `Promise.all`), Firebase authentication and database I/O, and console logging
  are not modelled. The database is a map from user id to the stored value. Responses and auth outcomes
  are parameters, and `parseFloat` and `parseInt` are function parameters.
- The JSON cache key `JSON.stringify({url, params})` is an opaque string.
- The outer `catch` of the three rankings, which would return `[]`, cannot be reached: every per-stock
  failure is already mapped to `null`. It is not modelled separately; `RankingsOfFailures` covers the
  all-fail case.
- The realtime database drops empty arrays. A freshly registered user therefore may read back a missing
  value; both read as `[]`.
- MarketData.SortBy: the sort is proved sorted and a permutation. That it keeps equal keys in their
  original order (stability) is not proved.
- MarketOverview.Panel.CheckMarketStatus: `now` and `nextSaturday` are two reads of the clock; a call that
  crosses midnight between them is not modelled.
- Prediction.RandomForestPredict: the training-set size `n − 5` and the shift register are stated, not
  the forest's prediction values.
- The user interface is not modelled: JSX rendering, routing, animation, the news polling interval, the
  prediction display indices of the stock page, the theme toggle, the search debounce and the save
  button's timer flag.
