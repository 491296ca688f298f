/** The elapsed-time arithmetic shared by the relative-time formatters of
    ActivityAdapter.java, GroupedActivityAdapter.java, CommentAdapter.java
    and PostDetailActivity.java: the millisecond difference `now - time`
    is divided successively by 1000, 60, 60 and 24 with Java's truncating
    `/` on `long`. */
module Elapsed {
  import opened Common

  const SECOND: int := 1000
  const MINUTE: int := 60 * SECOND
  const HOUR: int := 60 * MINUTE
  const DAY: int := 24 * HOUR

  /** The four successive quotients every formatter computes. */
  datatype Elapsed = Elapsed(seconds: int, minutes: int, hours: int, days: int)

  /** `seconds = diff / 1000; minutes = seconds / 60; hours = minutes / 60;
      days = hours / 24`. Truncating division composes, so each unit is the
      difference divided once by that unit's length. */
  function ElapsedOf(diff: int): (e: Elapsed)
    ensures e.seconds == JDiv(diff, SECOND)
    ensures e.minutes == JDiv(diff, MINUTE)
    ensures e.hours == JDiv(diff, HOUR)
    ensures e.days == JDiv(diff, DAY)
  {
    var seconds := JDiv(diff, 1000);
    var minutes := JDiv(seconds, 60);
    var hours := JDiv(minutes, 60);
    var days := JDiv(hours, 24);
    SecondsToMinutes(diff);
    MinutesToHours(diff);
    HoursToDays(diff);
    Elapsed(seconds, minutes, hours, days)
  }

  /** Truncating division twice is truncating division by the product,
      for each step of the cascade. */
  lemma SecondsToMinutes(diff: int)
    ensures JDiv(JDiv(diff, SECOND), 60) == JDiv(diff, MINUTE)
  {
  }

  lemma MinutesToHours(diff: int)
    ensures JDiv(JDiv(diff, MINUTE), 60) == JDiv(diff, HOUR)
  {
  }

  lemma HoursToDays(diff: int)
    ensures JDiv(JDiv(diff, HOUR), 24) == JDiv(diff, DAY)
  {
  }

  // ---------------------------------------------------------------------
  // The largest whole unit, read off the difference directly

  /** The largest unit with a positive count, and that count. */
  datatype Age = Months(n: int) | Weeks(n: int) | Days(n: int) | Hours(n: int) | Minutes(n: int) | Moment

  /** The age of a difference, from direct thresholds on the milliseconds:
      a month is thirty days and a week seven. */
  function AgeOf(diff: int): (a: Age)
    ensures !a.Moment? ==> a.n >= 1
    ensures a.Moment? <==> diff < MINUTE
  {
    if diff >= 30 * DAY then Months(diff / (30 * DAY))
    else if diff >= 7 * DAY then Weeks(diff / (7 * DAY))
    else if diff >= DAY then Days(diff / DAY)
    else if diff >= HOUR then Hours(diff / HOUR)
    else if diff >= MINUTE then Minutes(diff / MINUTE)
    else Moment
  }

  /** The largest of days, hours and minutes alone, as CommentAdapter.java
      and PostDetailActivity.java report it. */
  function ShortAgeOf(diff: int): (a: Age)
    ensures a.Months? == false && a.Weeks? == false
    ensures !a.Moment? ==> a.n >= 1
    ensures a.Moment? <==> diff < MINUTE
  {
    if diff >= DAY then Days(diff / DAY)
    else if diff >= HOUR then Hours(diff / HOUR)
    else if diff >= MINUTE then Minutes(diff / MINUTE)
    else Moment
  }

  /** The quotients the five-unit formatters test, in their order: months
      (days / 30), weeks (days / 7), days, hours, minutes. The first
      positive one is the age. */
  lemma CascadeIsAge(diff: int)
    ensures var e := ElapsedOf(diff);
      var months := JDiv(e.days, 30);
      var weeks := JDiv(e.days, 7);
      AgeOf(diff) ==
        if months > 0 then Months(months)
        else if weeks > 0 then Weeks(weeks)
        else if e.days > 0 then Days(e.days)
        else if e.hours > 0 then Hours(e.hours)
        else if e.minutes > 0 then Minutes(e.minutes)
        else Moment
  {
  }

  /** The same for the three-unit formatters. */
  lemma ShortCascadeIsAge(diff: int)
    ensures var e := ElapsedOf(diff);
      ShortAgeOf(diff) ==
        if e.days > 0 then Days(e.days)
        else if e.hours > 0 then Hours(e.hours)
        else if e.minutes > 0 then Minutes(e.minutes)
        else Moment
  {
  }

  /** Within the five-unit age, a day count stays below a week and an hour
      count below a day. */
  lemma AgeBounds(diff: int)
    ensures AgeOf(diff).Days? ==> AgeOf(diff).n < 7
    ensures AgeOf(diff).Hours? ==> AgeOf(diff).n < 24
    ensures AgeOf(diff).Minutes? ==> AgeOf(diff).n < 60
  {
  }
}
