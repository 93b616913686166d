/** The news list's relative timestamps. Both instants are milliseconds since the epoch; the
    current time is a parameter. */
module News {

  /** The four shapes of text `formatTimeAgo` returns; the last is the article's own date
      rendered by `toLocaleDateString`. */
  datatype TimeAgo = SecondsAgo(seconds: int) | MinutesAgo(minutes: int) | HoursAgo(hours: int) | OnDate(ms: int)

  /** `Math.floor((now - date) / 1000)`. Dafny's `/` rounds down for a positive divisor, as
      `Math.floor` does, also when the article lies in the future. */
  function ElapsedSeconds(nowMs: int, dateMs: int): (s: int)
    ensures s * 1000 <= nowMs - dateMs < (s + 1) * 1000
  {
    (nowMs - dateMs) / 1000
  }

  /** `formatTimeAgo(date)` at time `nowMs`. */
  function FormatTimeAgo(nowMs: int, dateMs: int): (r: TimeAgo)
    ensures var s := ElapsedSeconds(nowMs, dateMs);
            (r.SecondsAgo? <==> s < 60) &&
            (r.MinutesAgo? <==> 60 <= s < 3600) &&
            (r.HoursAgo? <==> 3600 <= s < 86400) &&
            (r.OnDate? <==> 86400 <= s)
    ensures r.SecondsAgo? ==> r.seconds == ElapsedSeconds(nowMs, dateMs)
    ensures r.OnDate? ==> r.ms == dateMs
  {
    var seconds := ElapsedSeconds(nowMs, dateMs);
    if seconds < 60 then SecondsAgo(seconds)
    else if seconds < 3600 then MinutesAgo(seconds / 60)
    else if seconds < 86400 then HoursAgo(seconds / 3600)
    else OnDate(dateMs)
  }

  /** A minute count lies in 1..59 and is the number of whole minutes elapsed; an hour count
      lies in 1..23 and is the number of whole hours elapsed. */
  lemma TimeAgoUnits(nowMs: int, dateMs: int)
    ensures var r := FormatTimeAgo(nowMs, dateMs);
            var s := ElapsedSeconds(nowMs, dateMs);
            (r.MinutesAgo? ==> 1 <= r.minutes <= 59 && r.minutes * 60 <= s < (r.minutes + 1) * 60) &&
            (r.HoursAgo? ==> 1 <= r.hours <= 23 && r.hours * 3600 <= s < (r.hours + 1) * 3600)
  {
    var s := ElapsedSeconds(nowMs, dateMs);
    if 60 <= s < 3600 {
      var m := s / 60;
      assert m * 60 <= s < (m + 1) * 60;
    } else if 3600 <= s < 86400 {
      var h := s / 3600;
      assert h * 3600 <= s < (h + 1) * 3600;
    }
  }

  /** An article dated in the future reads as a negative number of seconds ago. */
  lemma FutureReadsAsNegativeSeconds(nowMs: int, dateMs: int)
    requires dateMs > nowMs
    ensures FormatTimeAgo(nowMs, dateMs).SecondsAgo? && FormatTimeAgo(nowMs, dateMs).seconds < 0
  {
  }

  /** How coarse a timestamp's unit is. */
  function Rank(t: TimeAgo): nat {
    match t
    case SecondsAgo(_) => 0
    case MinutesAgo(_) => 1
    case HoursAgo(_) => 2
    case OnDate(_) => 3
  }

  /** As time passes a timestamp only moves towards coarser units: seconds, then minutes, then
      hours, then the date. */
  lemma CoarserWithTime(now1: int, now2: int, dateMs: int)
    requires now1 <= now2
    ensures Rank(FormatTimeAgo(now1, dateMs)) <= Rank(FormatTimeAgo(now2, dateMs))
  {
    var s1 := ElapsedSeconds(now1, dateMs);
    var s2 := ElapsedSeconds(now2, dateMs);
    assert s1 * 1000 < (s2 + 1) * 1000;
  }
}
