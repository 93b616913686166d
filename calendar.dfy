/** Calendar dates as day ordinals. Day 0 is 1970-01-01, which was a Thursday. */
module Calendar {

  /** A calendar date, counted in days from 1970-01-01. */
  type Day = int

  const MsPerDay: int := 86400000

  /** `Date.prototype.getDay`: 0 is Sunday, 6 is Saturday. */
  function Weekday(d: Day): (w: int)
    ensures 0 <= w < 7
  {
    (d + 4) % 7
  }

  predicate IsWeekend(d: Day) {
    Weekday(d) == 0 || Weekday(d) == 6
  }

  lemma WeekdayNext(d: Day)
    ensures Weekday(d + 1) == if Weekday(d) == 6 then 0 else Weekday(d) + 1
  {
  }

  /** Of any seven consecutive days exactly the first five after a Sunday are weekdays:
      whatever day `d` is, `d+1 .. d+7` hold exactly two weekend days. */
  lemma {:induction false} TwoWeekendDaysPerWeek(d: Day)
    ensures (if IsWeekend(d + 1) then 1 else 0) + (if IsWeekend(d + 2) then 1 else 0)
          + (if IsWeekend(d + 3) then 1 else 0) + (if IsWeekend(d + 4) then 1 else 0)
          + (if IsWeekend(d + 5) then 1 else 0) + (if IsWeekend(d + 6) then 1 else 0)
          + (if IsWeekend(d + 7) then 1 else 0) == 2
  {
    WeekdayNext(d);
    WeekdayNext(d + 1);
    WeekdayNext(d + 2);
    WeekdayNext(d + 3);
    WeekdayNext(d + 4);
    WeekdayNext(d + 5);
    WeekdayNext(d + 6);
  }
}
