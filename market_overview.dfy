/** The market-overview panel: whether the Indian market is open now, the next Saturday it is
    closed on, and the state sequence of loading the index table. The clock is a parameter:
    `today` is the local date and `hours`, `minutes` the local time. */
module MarketOverview {
  import opened Wrappers
  import opened Calendar
  import opened MarketData

  datatype Status = Open | Closed

  const MarketOpenMinutes: int := 9 * 60 + 15
  const MarketCloseMinutes: int := 15 * 60 + 30

  /** The status the check sets for weekday `day` (0 Sunday .. 6 Saturday) at `hours:minutes`. */
  function StatusAt(day: int, hours: int, minutes: int): (r: Status)
    requires 0 <= day < 7
    ensures (day == 0 || day == 6) ==> r == Closed
    ensures r == Open <==> 1 <= day <= 5 && 555 <= hours * 60 + minutes <= 930
  {
    if day == 0 || day == 6 then Closed
    else
      var currentTimeInMinutes := hours * 60 + minutes;
      if MarketOpenMinutes <= currentTimeInMinutes <= MarketCloseMinutes then Open else Closed
  }

  /** Days from today to the Saturday the closed branches announce: `(6 - day + 7) % 7` on a
      weekend, `6 - day` on a weekday. */
  function SaturdayOffset(day: int): (r: int)
    requires 0 <= day < 7
    ensures 0 <= r <= 6
    ensures day == 6 ==> r == 0
    ensures day == 0 ==> r == 6
    ensures 1 <= day <= 5 ==> 1 <= r <= 5
  {
    if day == 0 || day == 6 then (6 - day + 7) % 7 else 6 - day
  }

  /** Moving `j < 7` days ahead moves the weekday `j` places round the week. */
  lemma WeekdayAhead(today: Day, j: int)
    requires 0 <= j < 7
    ensures Weekday(today + j) == (Weekday(today) + j) % 7
  {
    var q := (today + 4) / 7;
    assert today + 4 == 7 * q + Weekday(today);
    assert today + j + 4 == 7 * q + (Weekday(today) + j);
  }

  /** The announced day is the first Saturday on or after today. */
  lemma SaturdayOffsetLandsOnSaturday(today: Day)
    ensures var off := SaturdayOffset(Weekday(today));
            Weekday(today + off) == 6 &&
            forall d :: today <= d < today + off ==> Weekday(d) != 6
  {
    var off := SaturdayOffset(Weekday(today));
    forall d | today <= d < today + off ensures Weekday(d) != 6 {
      WeekdayAhead(today, d - today);
    }
    WeekdayAhead(today, off);
  }

  /** Both ends of the session count as open: 9:15 and 15:30 are open, 9:14 and 15:31 closed. */
  lemma SessionBoundsInclusive(day: int)
    requires 1 <= day <= 5
    ensures StatusAt(day, 9, 15) == Open && StatusAt(day, 15, 30) == Open
    ensures StatusAt(day, 9, 14) == Closed && StatusAt(day, 15, 31) == Closed
  {
  }

  /** The component's state. `nextClosedDay` is the date of the announced Saturday, `None`
      while it still holds its initial empty string. */
  class Panel {
    var indices: seq<IndexRow>
    var loading: bool
    var marketStatus: Status
    var nextClosedDay: Option<Day>
    var dataFetched: bool

    constructor ()
      ensures indices == [] && !loading && marketStatus == Closed
      ensures nextClosedDay == None && !dataFetched
    {
      indices := [];
      loading := false;
      marketStatus := Closed;
      nextClosedDay := None;
      dataFetched := false;
    }

    /** The panel shows the "Load Market Data" prompt instead of the table. */
    predicate ShowsLoadPrompt()
      reads this
    {
      !dataFetched && !loading
    }

    /** `checkMarketStatus()`. The open branch leaves `nextClosedDay` as it was. */
    method CheckMarketStatus(today: Day, hours: int, minutes: int)
      modifies this
      ensures marketStatus == StatusAt(Weekday(today), hours, minutes)
      ensures marketStatus == Closed ==> nextClosedDay == Some(today + SaturdayOffset(Weekday(today)))
      ensures marketStatus == Open ==> nextClosedDay == old(nextClosedDay)
      ensures indices == old(indices) && loading == old(loading) && dataFetched == old(dataFetched)
    {
      var day := Weekday(today);
      if day == 0 || day == 6 {
        marketStatus := Closed;
        nextClosedDay := Some(today + (6 - day + 7) % 7);
        return;
      }
      var currentTimeInMinutes := hours * 60 + minutes;
      if currentTimeInMinutes >= MarketOpenMinutes && currentTimeInMinutes <= MarketCloseMinutes {
        marketStatus := Open;
      } else {
        marketStatus := Closed;
        nextClosedDay := Some(today + (6 - day));
      }
    }

    /** `fetchIndicesData()`, with `fetched` the outcome of `getTopIndices()`. On success the
        table, the status and `dataFetched` are set; a failure changes none of them. `loading`
        is false afterwards either way. */
    method FetchIndicesData(fetched: Result<seq<IndexRow>>, today: Day, hours: int, minutes: int)
      modifies this
      ensures !loading
      ensures fetched.Ok? ==> indices == fetched.value && dataFetched &&
                              marketStatus == StatusAt(Weekday(today), hours, minutes)
      ensures fetched.Ok? && marketStatus == Closed ==>
                nextClosedDay == Some(today + SaturdayOffset(Weekday(today)))
      ensures fetched.Ok? && marketStatus == Open ==> nextClosedDay == old(nextClosedDay)
      ensures fetched.Err? ==> indices == old(indices) && dataFetched == old(dataFetched) &&
                               marketStatus == old(marketStatus) && nextClosedDay == old(nextClosedDay)
    {
      loading := true;
      if fetched.Ok? {
        indices := fetched.value;
        CheckMarketStatus(today, hours, minutes);
        dataFetched := true;
      }
      loading := false;
    }
  }

  /** Loading once from a fresh panel: after a successful fetch the prompt is gone; after a
      failed one it is shown again. */
  method FirstLoad(fetched: Result<seq<IndexRow>>, today: Day, hours: int, minutes: int) returns (prompt: bool)
    ensures prompt <==> fetched.Err?
  {
    var panel := new Panel();
    panel.FetchIndicesData(fetched, today, hours, minutes);
    prompt := panel.ShowsLoadPrompt();
  }
}
