/** The market-data layer: a one-hour response cache, the daily-series transform, the index quote
    fallback, the gainers/losers/most-active ranking and the volume formatter. Network responses
    are parameters; `parseFloat`/`parseInt` are foreign and passed in as functions. */
module MarketData {
  import opened Wrappers
  import opened Calendar
  import opened Series

  // ---------------------------------------------------------------------------------------
  // The response cache

  /** `CACHE_DURATION`: one hour in milliseconds. */
  const CacheDuration: int := 60 * 60 * 1000

  /** `{data, timestamp}`. */
  datatype CacheEntry<T> = CacheEntry(data: T, timestamp: int)

  /** `apiCache`, keyed by `JSON.stringify({url, params})`. */
  class ApiCache<T> {
    var entries: map<string, CacheEntry<T>>
    /** The keys the network was asked for, oldest first. */
    ghost var fetched: seq<string>

    constructor ()
      ensures entries == map[] && fetched == []
    {
      entries := map[];
      fetched := [];
    }

    /** A cached response younger than one hour at time `now`. */
    predicate Fresh(key: string, now: int)
      reads this
    {
      key in entries && now - entries[key].timestamp < CacheDuration
    }

    /** `cachedApiCall`: a fresh entry is returned without fetching; otherwise `response` (what
        the network gives for `key`; `Err` when the request throws) is fetched and, on success,
        stored under `key` stamped with `storedAt`, the clock after the request. */
    method CachedApiCall(key: string, now: int, response: Result<T>, storedAt: int) returns (r: Result<T>)
      modifies this
      ensures old(Fresh(key, now)) ==>
                r == Ok(old(entries)[key].data) && entries == old(entries) && fetched == old(fetched)
      ensures !old(Fresh(key, now)) ==> r == response && fetched == old(fetched) + [key]
      ensures !old(Fresh(key, now)) && response.Ok? ==>
                entries == old(entries)[key := CacheEntry(response.value, storedAt)]
      ensures !old(Fresh(key, now)) && response.Err? ==> entries == old(entries)
    {
      if key in entries && now - entries[key].timestamp < CacheDuration {
        return Ok(entries[key].data);
      }
      fetched := fetched + [key];
      if response.Err? {
        return response;
      }
      entries := entries[key := CacheEntry(response.value, storedAt)];
      r := response;
    }
  }

  /** A cache hit happens exactly when the key is stored and younger than one hour; an entry
      exactly one hour old is a miss, and every other key keeps its entry after a miss. */
  method CacheExample(response: string, later: string) returns (first: Result<string>, second: Result<string>, third: Result<string>)
    ensures first == Ok(response)
    ensures second == Ok(response)
    ensures third == Ok(later)
  {
    var cache := new ApiCache<string>();
    first := cache.CachedApiCall("daily", 0, Ok(response), 0);
    second := cache.CachedApiCall("daily", CacheDuration - 1, Ok(later), CacheDuration - 1);
    third := cache.CachedApiCall("daily", CacheDuration, Ok(later), CacheDuration);
  }

  // ---------------------------------------------------------------------------------------
  // A stable sort by a key, as `Array.prototype.sort` with a numeric comparator

  predicate SortedBy<T>(s: seq<T>, key: T -> real) {
    forall i, j :: 0 <= i < j < |s| ==> key(s[i]) <= key(s[j])
  }

  /** A sorted sequence stays sorted when an element no smaller than its last is appended. */
  lemma SortedSnoc<T>(s: seq<T>, y: T, key: T -> real)
    requires SortedBy(s, key) && (s == [] || key(s[|s| - 1]) <= key(y))
    ensures SortedBy(s + [y], key)
  {
    var r := s + [y];
    forall i, j | 0 <= i < j < |r| ensures key(r[i]) <= key(r[j]) {
      if j == |s| && i < |s| - 1 {
        assert key(s[i]) <= key(s[|s| - 1]);
      }
    }
  }

  /** Insert `x` after the trailing elements whose keys exceed `x`'s: scanning from the end,
      `x` goes right after the last element whose key is at most its own. */
  function Insert<T>(x: T, s: seq<T>, key: T -> real): (r: seq<T>)
    ensures multiset(r) == multiset(s) + multiset{x}
    ensures |r| == |s| + 1
  {
    if s == [] then [x]
    else if key(s[|s| - 1]) <= key(x) then s + [x]
    else
      var init := s[..|s| - 1];
      assert s == init + [s[|s| - 1]];
      Insert(x, init, key) + [s[|s| - 1]]
  }

  /** Dropping the last element keeps a sequence sorted. */
  lemma SortedInit<T>(s: seq<T>, key: T -> real)
    requires s != [] && SortedBy(s, key)
    ensures SortedBy(s[..|s| - 1], key)
  {
    var init := s[..|s| - 1];
    forall i, j | 0 <= i < j < |init| ensures key(init[i]) <= key(init[j]) {
      assert init[i] == s[i] && init[j] == s[j];
    }
  }

  /** The last element after an insertion is `x` or the old last element. */
  lemma InsertLast<T>(x: T, s: seq<T>, key: T -> real)
    ensures var r := Insert(x, s, key);
            r[|r| - 1] == x || (s != [] && r[|r| - 1] == s[|s| - 1])
  {
  }

  /** Inserting into a sorted sequence keeps it sorted. */
  lemma {:induction false} InsertSorted<T>(x: T, s: seq<T>, key: T -> real)
    requires SortedBy(s, key)
    ensures SortedBy(Insert(x, s, key), key)
  {
    if s != [] {
      var last := s[|s| - 1];
      if key(last) <= key(x) {
        SortedSnoc(s, x, key);
      } else {
        var init := s[..|s| - 1];
        SortedInit(s, key);
        InsertSorted(x, init, key);
        InsertLast(x, init, key);
        var front := Insert(x, init, key);
        assert key(front[|front| - 1]) <= key(last) by {
          if init != [] {
            assert init[|init| - 1] == s[|s| - 2];
            assert key(s[|s| - 2]) <= key(last);
          }
        }
        SortedSnoc(front, last, key);
      }
    }
  }

  /** Insertion sort, ascending by `key`; elements with equal keys keep their order. */
  function SortBy<T>(s: seq<T>, key: T -> real): (r: seq<T>)
    ensures SortedBy(r, key)
    ensures multiset(r) == multiset(s)
    ensures |r| == |s|
  {
    if s == [] then []
    else
      assert s == s[..|s| - 1] + [s[|s| - 1]];
      InsertSorted(s[|s| - 1], SortBy(s[..|s| - 1], key), key);
      Insert(s[|s| - 1], SortBy(s[..|s| - 1], key), key)
  }

  // ---------------------------------------------------------------------------------------
  // Daily series

  /** The parts of a `TIME_SERIES_DAILY` response the transform reads: the `Error Message`
      string (`""` when absent) and the `Time Series (Daily)` object as its entries. */
  datatype DailyResponse = DailyResponse(errorMessage: string, timeSeries: Option<seq<Bar>>)

  const NoDataMessage: string := "No data available for this stock"

  /** `new Date(date) >= fiveYearsAgo`: the bar's midnight is not before the cutoff instant. */
  predicate OnOrAfter(b: Bar, cutoffMs: int) {
    b.date * MsPerDay >= cutoffMs
  }

  function Recent(entries: seq<Bar>, cutoffMs: int): (r: seq<Bar>)
    ensures forall b :: b in r <==> b in entries && OnOrAfter(b, cutoffMs)
    ensures multiset(r) <= multiset(entries)
  {
    if entries == [] then []
    else
      var last := entries[|entries| - 1];
      var init := entries[..|entries| - 1];
      assert entries == init + [last];
      Recent(init, cutoffMs) + (if OnOrAfter(last, cutoffMs) then [last] else [])
  }

  function DateKey(b: Bar): real {
    b.date as real
  }

  /** `getDailyStockData` after the cached call: the provider's error first, then the missing
      series, else the bars of the last five years in ascending date order. */
  function DailyStockData(response: DailyResponse, cutoffMs: int): (r: Result<seq<Bar>>)
    ensures r.Ok? <==> response.errorMessage == "" && response.timeSeries.Some?
  {
    if response.errorMessage != "" then Err(response.errorMessage)
    else if response.timeSeries.None? then Err(NoDataMessage)
    else Ok(SortBy(Recent(response.timeSeries.value, cutoffMs), DateKey))
  }

  /** The error order and the shape of the result: a provider error wins, a missing series comes
      next, and otherwise the bars are exactly the recent entries, ascending by date. */
  lemma DailyStockDataContract(response: DailyResponse, cutoffMs: int)
    ensures var r := DailyStockData(response, cutoffMs);
            (response.errorMessage != "" ==> r == Err(response.errorMessage)) &&
            (response.errorMessage == "" && response.timeSeries.None? ==> r == Err(NoDataMessage)) &&
            (response.errorMessage == "" && response.timeSeries.Some? ==>
               r.Ok? &&
               (forall i, j :: 0 <= i < j < |r.value| ==> r.value[i].date <= r.value[j].date) &&
               (forall b :: b in r.value <==> b in response.timeSeries.value && OnOrAfter(b, cutoffMs)) &&
               multiset(r.value) == multiset(Recent(response.timeSeries.value, cutoffMs)))
  {
    if response.errorMessage == "" && response.timeSeries.Some? {
      var r := SortBy(Recent(response.timeSeries.value, cutoffMs), DateKey);
      forall i, j | 0 <= i < j < |r| ensures r[i].date <= r[j].date {
        assert DateKey(r[i]) <= DateKey(r[j]);
      }
      forall b ensures b in r <==> b in Recent(response.timeSeries.value, cutoffMs) {
        assert b in r <==> b in multiset(r);
      }
    }
  }

  // ---------------------------------------------------------------------------------------
  // Volume formatting

  /** `formatVolume`'s result before `toFixed(2)`: crore, lakh, thousand, or the plain number. */
  datatype VolumeText = Crore(scaled: real) | Lakh(scaled: real) | Thousand(scaled: real) | Plain(n: int)

  function FormatVolume(volume: int): (r: VolumeText)
    ensures r.Crore? <==> volume >= 10000000
    ensures r.Lakh? <==> 100000 <= volume < 10000000
    ensures r.Thousand? <==> 1000 <= volume < 100000
    ensures r.Plain? <==> volume < 1000
    ensures r.Plain? ==> r.n == volume
    ensures r.Crore? ==> r.scaled * 10000000.0 == volume as real && r.scaled >= 1.0
    ensures r.Lakh? ==> r.scaled * 100000.0 == volume as real && 1.0 <= r.scaled < 100.0
    ensures r.Thousand? ==> r.scaled * 1000.0 == volume as real && 1.0 <= r.scaled < 100.0
  {
    if volume >= 10000000 then Crore(volume as real / 10000000.0)
    else if volume >= 100000 then Lakh(volume as real / 100000.0)
    else if volume >= 1000 then Thousand(volume as real / 1000.0)
    else Plain(volume)
  }

  // ---------------------------------------------------------------------------------------
  // Quotes

  /** A `Global Quote` object: field name to string value. */
  type Quote = map<string, string>

  /** What one `GLOBAL_QUOTE` call gives: `Err` when it throws, `None` when the response has no
      `Global Quote`, else the quote object. */
  type QuoteResponse = Result<Option<Quote>>

  /** `response['Global Quote'] && Object.keys(...).length > 0`. */
  predicate Usable(response: QuoteResponse) {
    response.Ok? && response.value.Some? && |response.value.value| > 0
  }

  /** `s || '0'`: a missing or empty string becomes `'0'`. */
  function OrZero(v: Option<string>): (r: string)
    ensures r != ""
    ensures v.Some? && v.value != "" ==> r == v.value
    ensures v.None? || v.value == "" ==> r == "0"
  {
    if v.Some? && v.value != "" then v.value else "0"
  }

  function Field(q: Quote, name: string): Option<string> {
    if name in q then Some(q[name]) else None
  }

  /** `s.replace('%', '')`: the first `%` removed. */
  function RemoveFirstPercent(s: string): (r: string)
    ensures |r| == |s| - (if '%' in s then 1 else 0)
    ensures '%' !in s ==> r == s
  {
    if s == [] then []
    else if s[0] == '%' then s[1..]
    else [s[0]] + RemoveFirstPercent(s[1..])
  }

  /** When `i` is the first `%`, that character and no other is removed. */
  lemma {:induction false} RemovesFirstPercent(s: string, i: nat)
    requires i < |s| && s[i] == '%' && '%' !in s[..i]
    ensures RemoveFirstPercent(s) == s[..i] + s[i + 1..]
  {
    if i > 0 {
      assert s[0] == s[..i][0];
      assert s[1..][..i - 1] == s[1..i];
      var head := s[1..][..i - 1];
      assert '%' !in head by {
        forall k | 0 <= k < |head| ensures head[k] != '%' {
          assert head[k] == s[..i][k + 1];
        }
      }
      RemovesFirstPercent(s[1..], i - 1);
      calc {
        RemoveFirstPercent(s);
        [s[0]] + RemoveFirstPercent(s[1..]);
        [s[0]] + (s[1..][..i - 1] + s[1..][i..]);
        { assert [s[0]] + s[1..][..i - 1] == s[..i]; assert s[1..][i..] == s[i + 1..]; }
        s[..i] + s[i + 1..];
      }
    }
  }

  /** `quote['10. change percent']?.replace('%', '') || '0'`. */
  function ChangeText(q: Quote): string {
    var c := Field(q, "10. change percent");
    OrZero(if c.Some? then Some(RemoveFirstPercent(c.value)) else None)
  }

  function Price(q: Quote): string {
    OrZero(Field(q, "05. price"))
  }

  /** `parseInt(quote['06. volume'] || '0')`, with `parseInt` given. */
  function VolumeValue(q: Quote, parseInt: string -> int): int {
    parseInt(OrZero(Field(q, "06. volume")))
  }

  // ---------------------------------------------------------------------------------------
  // Top indices: BSE quote, then NSE quote, then a placeholder

  datatype VolumeLabel = Formatted(text: VolumeText) | NotAvailable

  datatype IndexRow = IndexRow(symbol: string, price: string, change: string, volume: VolumeLabel)

  /** `{symbol, name}` of the four indices, in display order. */
  const TopIndexList: seq<(string, string)> :=
    [("NIFTY", "NIFTY 50"), ("SENSEX", "BSE SENSEX"), ("BANKNIFTY", "NIFTY BANK"), ("NIFTYIT", "NIFTY IT")]

  function QuoteRow(name: string, q: Quote, parseInt: string -> int): IndexRow {
    IndexRow(name, Price(q), ChangeText(q), Formatted(FormatVolume(VolumeValue(q, parseInt))))
  }

  function Placeholder(name: string): IndexRow {
    IndexRow(name, "0", "0", NotAvailable)
  }

  /** One index: the `.BSE` quote when usable, else the `.NS` quote when usable, else the
      placeholder; a throwing `.BSE` call skips the `.NS` one and gives the placeholder too. */
  function IndexRowFor(name: string, bse: QuoteResponse, nse: QuoteResponse, parseInt: string -> int): (r: IndexRow)
    ensures r.symbol == name
    ensures Usable(bse) ==> r == QuoteRow(name, bse.value.value, parseInt)
    ensures bse.Ok? && !Usable(bse) && Usable(nse) ==> r == QuoteRow(name, nse.value.value, parseInt)
    ensures bse.Err? || (!Usable(bse) && !Usable(nse)) ==> r == Placeholder(name)
    ensures r.volume.NotAvailable? <==> bse.Err? || (!Usable(bse) && !Usable(nse))
  {
    if bse.Err? then Placeholder(name)
    else if Usable(bse) then QuoteRow(name, bse.value.value, parseInt)
    else if nse.Err? then Placeholder(name)
    else if Usable(nse) then QuoteRow(name, nse.value.value, parseInt)
    else Placeholder(name)
  }

  /** `getTopIndices`: one row per index, in order; it never fails, because each index's own
      failure becomes its placeholder. */
  function TopIndices(bse: seq<QuoteResponse>, nse: seq<QuoteResponse>, parseInt: string -> int): (r: seq<IndexRow>)
    requires |bse| == |nse| == |TopIndexList|
    ensures |r| == |TopIndexList|
    ensures forall k :: 0 <= k < |r| ==> r[k] == IndexRowFor(TopIndexList[k].1, bse[k], nse[k], parseInt)
  {
    seq(|TopIndexList|, k requires 0 <= k < |TopIndexList| => IndexRowFor(TopIndexList[k].1, bse[k], nse[k], parseInt))
  }

  // ---------------------------------------------------------------------------------------
  // Gainers, losers, most active

  /** `symbol.split('.')[0]`. */
  function BeforeDot(s: string): (r: string)
    ensures |r| <= |s| && r == s[..|r|] && '.' !in r
    ensures |r| == |s| || s[|r|] == '.'
  {
    if s == [] || s[0] == '.' then [] else [s[0]] + BeforeDot(s[1..])
  }

  /** A gainer or loser: `{symbol, name, price, change, changeValue}`. */
  datatype Mover = Mover(symbol: string, name: string, price: string, change: string, changeValue: real)

  /** A most-active row: `{symbol, name, price, volume, volumeValue}`. */
  datatype Active = Active(symbol: string, name: string, price: string, volume: VolumeText, volumeValue: int)

  const PotentialGainers: seq<(string, string)> :=
    [("RELIANCE.BSE", "Reliance Industries"), ("TCS.BSE", "Tata Consultancy Services"),
     ("INFY.BSE", "Infosys Limited"), ("HDFCBANK.BSE", "HDFC Bank"), ("ICICIBANK.BSE", "ICICI Bank"),
     ("HINDUNILVR.BSE", "Hindustan Unilever"), ("SBIN.BSE", "State Bank of India"), ("BHARTIARTL.BSE", "Bharti Airtel")]

  const PotentialLosers: seq<(string, string)> :=
    [("SUNPHARMA.BSE", "Sun Pharmaceutical"), ("TATAMOTORS.BSE", "Tata Motors"), ("AXISBANK.BSE", "Axis Bank"),
     ("WIPRO.BSE", "Wipro Limited"), ("TATASTEEL.BSE", "Tata Steel"), ("MARUTI.BSE", "Maruti Suzuki"),
     ("BAJFINANCE.BSE", "Bajaj Finance"), ("HCLTECH.BSE", "HCL Technologies")]

  const PotentialActive: seq<(string, string)> :=
    [("SBIN.BSE", "State Bank of India"), ("TATASTEEL.BSE", "Tata Steel"), ("BHARTIARTL.BSE", "Bharti Airtel"),
     ("WIPRO.BSE", "Wipro Limited"), ("RELIANCE.BSE", "Reliance Industries"), ("INFY.BSE", "Infosys Limited"),
     ("HDFCBANK.BSE", "HDFC Bank"), ("ICICIBANK.BSE", "ICICI Bank")]

  /** One candidate of the gainers or losers list; `None` stands for `null`. */
  function MoverFor(stock: (string, string), response: QuoteResponse, parseFloat: string -> real): Option<Mover> {
    if !Usable(response) then None
    else
      var q := response.value.value;
      Some(Mover(BeforeDot(stock.0), stock.1, Price(q), ChangeText(q), parseFloat(ChangeText(q))))
  }

  function ActiveFor(stock: (string, string), response: QuoteResponse, parseInt: string -> int): Option<Active> {
    if !Usable(response) then None
    else
      var q := response.value.value;
      Some(Active(BeforeDot(stock.0), stock.1, Price(q), FormatVolume(VolumeValue(q, parseInt)), VolumeValue(q, parseInt)))
  }

  /** `.filter(stock => stock !== null)`. */
  function Present<T(!new)>(s: seq<Option<T>>): (r: seq<T>)
    ensures |r| <= |s|
    ensures forall x :: x in r <==> Some(x) in s
  {
    if s == [] then []
    else
      var init := s[..|s| - 1];
      assert s == init + [s[|s| - 1]];
      Present(init) + (if s[|s| - 1].Some? then [s[|s| - 1].value] else [])
  }

  /** Filter out the nulls, sort ascending by `key`, keep the first four. */
  function TopFour<T(!new)>(candidates: seq<Option<T>>, key: T -> real): seq<T> {
    var sorted := SortBy(Present(candidates), key);
    sorted[..Min(4, |sorted|)]
  }

  /** In a sorted sequence every element before position `m` ranks no later than every element
      from `m` on. */
  lemma PrefixRanksFirst<T>(sorted: seq<T>, m: nat, key: T -> real)
    requires SortedBy(sorted, key) && m <= |sorted|
    ensures forall x, y :: x in sorted[..m] && y in sorted[m..] ==> key(x) <= key(y)
  {
    forall x, y | x in sorted[..m] && y in sorted[m..] ensures key(x) <= key(y) {
      var i :| 0 <= i < m && sorted[..m][i] == x;
      var j :| 0 <= j < |sorted| - m && sorted[m..][j] == y;
      assert sorted[i] == x && sorted[m + j] == y;
    }
  }

  /** The filter keeps the order of what it keeps: it distributes over concatenation. */
  lemma {:induction false} PresentAppend<T(!new)>(a: seq<Option<T>>, b: seq<Option<T>>)
    ensures Present(a + b) == Present(a) + Present(b)
    decreases |b|
  {
    if b == [] {
      assert a + b == a;
    } else {
      var init := b[..|b| - 1];
      var last := b[|b| - 1];
      var tail: seq<T> := if last.Some? then [last.value] else [];
      var ab := a + b;
      assert ab[..|ab| - 1] == a + init;
      assert ab[|ab| - 1] == last;
      assert Present(ab) == Present(a + init) + tail;
      assert Present(b) == Present(init) + tail;
      PresentAppend(a, init);
    }
  }

  /** The filter keeps every present value as many times as it occurs. */
  lemma {:induction false} PresentCounts<T(!new)>(s: seq<Option<T>>, x: T)
    ensures multiset(Present(s))[x] == multiset(s)[Some(x)]
  {
    if s != [] {
      var init := s[..|s| - 1];
      var last := s[|s| - 1];
      var tail: seq<T> := if last.Some? then [last.value] else [];
      assert s == init + [last];
      assert Present(s) == Present(init) + tail;
      PresentCounts(init, x);
      assert multiset(s) == multiset(init) + multiset{last};
      assert multiset(Present(s)) == multiset(Present(init)) + multiset(tail);
    }
  }

  lemma NothingPresent<T(!new)>(s: seq<Option<T>>)
    requires forall k :: 0 <= k < |s| ==> s[k].None?
    ensures Present(s) == []
  {
  }

  /** The kept entries are a prefix of the sorted valid ones, and what is left out is the rest. */
  lemma TopFourSplit<T(!new)>(candidates: seq<Option<T>>, key: T -> real)
    ensures var valid := Present(candidates);
            var sorted := SortBy(valid, key);
            var r := TopFour(candidates, key);
            r == sorted[..|r|] && |r| == Min(4, |valid|) &&
            multiset(valid) - multiset(r) == multiset(sorted[|r|..]) && multiset(r) <= multiset(valid)
  {
    var valid := Present(candidates);
    var sorted := SortBy(valid, key);
    var m := Min(4, |sorted|);
    assert sorted == sorted[..m] + sorted[m..];
  }

  lemma TopFourFromCandidates<T(!new)>(candidates: seq<Option<T>>, key: T -> real)
    ensures forall x :: x in TopFour(candidates, key) ==> Some(x) in candidates
  {
    var valid := Present(candidates);
    var r := TopFour(candidates, key);
    TopFourSplit(candidates, key);
    forall x | x in r ensures Some(x) in candidates {
      assert x in multiset(r);
      assert x in multiset(valid);
    }
  }

  lemma TopFourSorted<T(!new)>(candidates: seq<Option<T>>, key: T -> real)
    ensures SortedBy(TopFour(candidates, key), key)
  {
    TopFourSplit(candidates, key);
  }

  lemma TopFourBeatsRest<T(!new)>(candidates: seq<Option<T>>, key: T -> real)
    ensures var r := TopFour(candidates, key);
            forall x, y :: x in r && y in multiset(Present(candidates)) - multiset(r) ==> key(x) <= key(y)
  {
    var valid := Present(candidates);
    var sorted := SortBy(valid, key);
    var r := TopFour(candidates, key);
    TopFourSplit(candidates, key);
    PrefixRanksFirst(sorted, |r|, key);
    forall x, y | x in r && y in multiset(valid) - multiset(r) ensures key(x) <= key(y) {
      assert y in sorted[|r|..];
    }
  }

  /** At most four entries, all from the valid candidates, in key order, and none ranked after an
      entry that was left out. */
  lemma TopFourContract<T(!new)>(candidates: seq<Option<T>>, key: T -> real)
    ensures var r := TopFour(candidates, key);
            var valid := Present(candidates);
            |r| == Min(4, |valid|) &&
            (forall x :: x in r ==> Some(x) in candidates) &&
            SortedBy(r, key) &&
            multiset(r) <= multiset(valid) &&
            (forall x, y :: x in r && y in multiset(valid) - multiset(r) ==> key(x) <= key(y))
  {
    TopFourSplit(candidates, key);
    TopFourFromCandidates(candidates, key);
    TopFourSorted(candidates, key);
    TopFourBeatsRest(candidates, key);
  }

  function DescendingChange(m: Mover): real { -m.changeValue }
  function AscendingChange(m: Mover): real { m.changeValue }
  function DescendingVolume(a: Active): real { -(a.volumeValue as real) }

  /** `getTopGainers`, given the eight responses in list order. */
  function TopGainers(responses: seq<QuoteResponse>, parseFloat: string -> real): (r: seq<Mover>)
    requires |responses| == |PotentialGainers|
    ensures |r| <= 4
  {
    TopFour(seq(|responses|, k requires 0 <= k < |responses| => MoverFor(PotentialGainers[k], responses[k], parseFloat)),
            DescendingChange)
  }

  /** `getTopLosers`, given the eight responses in list order. */
  function TopLosers(responses: seq<QuoteResponse>, parseFloat: string -> real): (r: seq<Mover>)
    requires |responses| == |PotentialLosers|
    ensures |r| <= 4
  {
    TopFour(seq(|responses|, k requires 0 <= k < |responses| => MoverFor(PotentialLosers[k], responses[k], parseFloat)),
            AscendingChange)
  }

  /** `getMostActiveStocks`, given the eight responses in list order. */
  function MostActive(responses: seq<QuoteResponse>, parseInt: string -> int): (r: seq<Active>)
    requires |responses| == |PotentialActive|
    ensures |r| <= 4
  {
    TopFour(seq(|responses|, k requires 0 <= k < |responses| => ActiveFor(PotentialActive[k], responses[k], parseInt)),
            DescendingVolume)
  }

  /** Gainers: at most four, by change descending, each at least as high as any usable quote left
      out; a quote that failed or was empty never appears. */
  lemma TopGainersContract(responses: seq<QuoteResponse>, parseFloat: string -> real)
    requires |responses| == |PotentialGainers|
    ensures var r := TopGainers(responses, parseFloat);
            |r| <= 4 &&
            (forall i, j :: 0 <= i < j < |r| ==> r[i].changeValue >= r[j].changeValue) &&
            (forall x :: x in r ==> exists k :: 0 <= k < |responses| && Usable(responses[k]) &&
                                          MoverFor(PotentialGainers[k], responses[k], parseFloat) == Some(x))
  {
    var cands := seq(|responses|, k requires 0 <= k < |responses| => MoverFor(PotentialGainers[k], responses[k], parseFloat));
    var r := TopGainers(responses, parseFloat);
    assert r == TopFour(cands, DescendingChange);
    TopFourSorted(cands, DescendingChange);
    forall i, j | 0 <= i < j < |r| ensures r[i].changeValue >= r[j].changeValue {
      assert DescendingChange(r[i]) <= DescendingChange(r[j]);
    }
    TopFourFromCandidates(cands, DescendingChange);
    forall x | x in r ensures exists k :: 0 <= k < |responses| && Usable(responses[k]) &&
                                   MoverFor(PotentialGainers[k], responses[k], parseFloat) == Some(x) {
      assert Some(x) in cands;
      var k :| 0 <= k < |cands| && cands[k] == Some(x);
      assert MoverFor(PotentialGainers[k], responses[k], parseFloat) == Some(x);
    }
  }

  /** Losers: at most four, by change ascending. */
  lemma TopLosersContract(responses: seq<QuoteResponse>, parseFloat: string -> real)
    requires |responses| == |PotentialLosers|
    ensures var r := TopLosers(responses, parseFloat);
            |r| <= 4 && forall i, j :: 0 <= i < j < |r| ==> r[i].changeValue <= r[j].changeValue
  {
    var cands := seq(|responses|, k requires 0 <= k < |responses| => MoverFor(PotentialLosers[k], responses[k], parseFloat));
    var r := TopLosers(responses, parseFloat);
    assert r == TopFour(cands, AscendingChange);
    TopFourSorted(cands, AscendingChange);
    forall i, j | 0 <= i < j < |r| ensures r[i].changeValue <= r[j].changeValue {
      assert AscendingChange(r[i]) <= AscendingChange(r[j]);
    }
  }

  /** Most active: at most four, by volume descending. */
  lemma MostActiveContract(responses: seq<QuoteResponse>, parseInt: string -> int)
    requires |responses| == |PotentialActive|
    ensures var r := MostActive(responses, parseInt);
            |r| <= 4 && forall i, j :: 0 <= i < j < |r| ==> r[i].volumeValue >= r[j].volumeValue
  {
    var cands := seq(|responses|, k requires 0 <= k < |responses| => ActiveFor(PotentialActive[k], responses[k], parseInt));
    var r := MostActive(responses, parseInt);
    assert r == TopFour(cands, DescendingVolume);
    TopFourSorted(cands, DescendingVolume);
    forall i, j | 0 <= i < j < |r| ensures r[i].volumeValue >= r[j].volumeValue {
      assert DescendingVolume(r[i]) <= DescendingVolume(r[j]);
    }
  }

  /** When every request fails, each ranking is empty. */
  lemma RankingsOfFailures(responses: seq<QuoteResponse>, parseFloat: string -> real, parseInt: string -> int)
    requires |responses| == 8 && forall k :: 0 <= k < 8 ==> responses[k].Err?
    ensures TopGainers(responses, parseFloat) == [] && TopLosers(responses, parseFloat) == []
    ensures MostActive(responses, parseInt) == []
  {
    var g := seq(|responses|, k requires 0 <= k < |responses| => MoverFor(PotentialGainers[k], responses[k], parseFloat));
    var l := seq(|responses|, k requires 0 <= k < |responses| => MoverFor(PotentialLosers[k], responses[k], parseFloat));
    var a := seq(|responses|, k requires 0 <= k < |responses| => ActiveFor(PotentialActive[k], responses[k], parseInt));
    NothingPresent(g);
    NothingPresent(l);
    NothingPresent(a);
  }
}
