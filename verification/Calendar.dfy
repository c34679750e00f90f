/** The proleptic Gregorian calendar behind Go's time.Time in UTC. */
module Calendar {

  const NS_PER_SECOND: int := 1_000_000_000
  const SECONDS_PER_DAY: int := 86_400

  /** Days from 1 January of year 0 to 1 January 1970. */
  const EPOCH_DAYS: int := 719_528

  datatype Date = Date(year: int, month: int, day: int)
  datatype Clock = Clock(hour: int, minute: int, second: int)

  predicate Leap(year: int) {
    year % 4 == 0 && (year % 100 != 0 || year % 400 == 0)
  }

  function DaysIn(month: int, year: int): int {
    if month == 2 then (if Leap(year) then 29 else 28)
    else if month in {4, 6, 9, 11} then 30
    else 31
  }

  predicate ValidDate(d: Date) {
    1 <= d.month <= 12 && 1 <= d.day <= DaysIn(d.month, d.year)
  }

  predicate ValidClock(c: Clock) {
    0 <= c.hour < 24 && 0 <= c.minute < 60 && 0 <= c.second < 60
  }

  /** Days from 1 January of year 0 to 1 January of the given year. */
  function YearStart(year: int): int {
    365 * year + (year + 3) / 4 - (year + 99) / 100 + (year + 399) / 400
  }

  /** Days of the year before the first of the month. */
  function MonthStart(month: int, year: int): int
    requires 1 <= month <= 13
  {
    [0, 31, 59, 90, 120, 151, 181, 212, 243, 273, 304, 334, 365][month - 1]
    + (if month > 2 && Leap(year) then 1 else 0)
  }

  /** Days since 1970-01-01. */
  function DayNumber(d: Date): int
    requires 1 <= d.month <= 12
  {
    YearStart(d.year) + MonthStart(d.month, d.year) + d.day - 1 - EPOCH_DAYS
  }

  function YearOf(days: int): int {
    var n := days + EPOCH_DAYS;
    var guess := 400 * n / 146_097;
    if n < YearStart(guess) then guess - 1
    else if n >= YearStart(guess + 1) then guess + 1
    else guess
  }

  function MonthFrom(yearDay: int, year: int, month: int): int
    requires 1 <= month <= 12
    decreases 12 - month
  {
    if month == 12 || yearDay < MonthStart(month + 1, year) then month
    else MonthFrom(yearDay, year, month + 1)
  }

  function DateOf(days: int): Date {
    var year := YearOf(days);
    var yearDay := days + EPOCH_DAYS - YearStart(year);
    var month := MonthFrom(yearDay, year, 1);
    assert 1 <= month <= 12 by { MonthBounds(yearDay, year, 1); }
    Date(year, month, yearDay - MonthStart(month, year) + 1)
  }

  function ClockOf(secondOfDay: int): Clock {
    Clock(secondOfDay / 3600, secondOfDay / 60 % 60, secondOfDay % 60)
  }

  function SecondOf(c: Clock): int {
    c.hour * 3600 + c.minute * 60 + c.second
  }

  /** Seconds since the epoch of a civil date and time in UTC. */
  function UnixSeconds(d: Date, c: Clock): int
    requires 1 <= d.month <= 12
  {
    DayNumber(d) * SECONDS_PER_DAY + SecondOf(c)
  }

  lemma MonthBounds(yearDay: int, year: int, month: int)
    requires 1 <= month <= 12
    ensures month <= MonthFrom(yearDay, year, month) <= 12
    decreases 12 - month
  {
  }

  lemma {:induction false} MonthFound(yearDay: int, year: int, month: int)
    requires 1 <= month <= 12
    requires MonthStart(month, year) <= yearDay < MonthStart(13, year)
    ensures var m := MonthFrom(yearDay, year, month);
            && month <= m <= 12
            && MonthStart(m, year) <= yearDay < MonthStart(m + 1, year)
    decreases 12 - month
  {
    if month < 12 && yearDay >= MonthStart(month + 1, year) {
      MonthFound(yearDay, year, month + 1);
    }
  }

  lemma YearLength(year: int)
    ensures YearStart(year + 1) == YearStart(year) + 365 + (if Leap(year) then 1 else 0)
  {
    Quarters(year);
    Centuries(year);
    FourCenturies(year);
    Multiples(year);
  }

  lemma Quarters(year: int)
    ensures (year + 4) / 4 == (year + 3) / 4 + (if year % 4 == 0 then 1 else 0)
  {
  }

  lemma Centuries(year: int)
    ensures (year + 100) / 100 == (year + 99) / 100 + (if year % 100 == 0 then 1 else 0)
  {
    var q, r := year / 100, year % 100;
    assert year == 100 * q + r && 0 <= r < 100;
    assert (year + 100) / 100 == q + 1;
    if r == 0 {
      assert (year + 99) / 100 == q;
    } else {
      assert (year + 99) / 100 == q + 1;
    }
  }

  lemma FourCenturies(year: int)
    ensures (year + 400) / 400 == (year + 399) / 400 + (if year % 400 == 0 then 1 else 0)
  {
    var q, r := year / 400, year % 400;
    assert year == 400 * q + r && 0 <= r < 400;
    assert (year + 400) / 400 == q + 1;
    if r == 0 {
      assert (year + 399) / 400 == q;
    } else {
      assert (year + 399) / 400 == q + 1;
    }
  }

  lemma FourTimes(year: int, m: int)
    requires year == 4 * m
    ensures year % 4 == 0
  {
    assert year / 4 == m;
  }

  lemma HundredTimes(year: int, m: int)
    requires year == 100 * m
    ensures year % 100 == 0
  {
    assert year / 100 == m;
  }

  lemma Multiples(year: int)
    ensures year % 400 == 0 ==> year % 100 == 0
    ensures year % 100 == 0 ==> year % 4 == 0
  {
    if year % 400 == 0 { HundredTimes(year, 4 * (year / 400)); }
    if year % 100 == 0 { FourTimes(year, 25 * (year / 100)); }
  }

  /** A year is within two days of 146097/400 days per year. */
  lemma YearStartBounds(year: int)
    ensures 146_097 * year - 396 <= 400 * YearStart(year) <= 146_097 * year + 699
  {
  }

  lemma YearFound(days: int)
    ensures YearStart(YearOf(days)) <= days + EPOCH_DAYS < YearStart(YearOf(days) + 1)
  {
    var n := days + EPOCH_DAYS;
    var guess := 400 * n / 146_097;
    YearStartBounds(guess - 1);
    YearStartBounds(guess + 2);
  }

  lemma MonthLength(month: int, year: int)
    requires 1 <= month <= 12
    ensures MonthStart(month + 1, year) - MonthStart(month, year) == DaysIn(month, year)
  {
  }

  /** The civil date of a day is a real date, and it is the date of no other day. */
  lemma DateRoundTrip(days: int)
    ensures ValidDate(DateOf(days)) && DayNumber(DateOf(days)) == days
  {
    var year := YearOf(days);
    var yearDay := days + EPOCH_DAYS - YearStart(year);
    assert 0 <= yearDay < MonthStart(13, year) by {
      YearFound(days);
      YearLength(year);
    }
    DateInYear(yearDay, year);
  }

  lemma DateInYear(yearDay: int, year: int)
    requires 0 <= yearDay < MonthStart(13, year)
    ensures var month := MonthFrom(yearDay, year, 1);
            1 <= month <= 12 && ValidDate(Date(year, month, yearDay - MonthStart(month, year) + 1))
  {
    MonthFound(yearDay, year, 1);
    MonthLength(MonthFrom(yearDay, year, 1), year);
  }

  // ---- The calendar from one day to the next --------------------------------------------------------------

  /** The day after a date: in the same month, on the first of the next, or on 1 January. */
  function Tomorrow(d: Date): Date {
    if d.day < DaysIn(d.month, d.year) then Date(d.year, d.month, d.day + 1)
    else if d.month < 12 then Date(d.year, d.month + 1, 1)
    else Date(d.year + 1, 1, 1)
  }

  lemma DayFollows(d: Date)
    requires ValidDate(d)
    ensures ValidDate(Tomorrow(d)) && DayNumber(Tomorrow(d)) == DayNumber(d) + 1
  {
    MonthLength(d.month, d.year);
    YearLength(d.year);
  }

  lemma YearsInOrder(year: int, later: int)
    requires year <= later
    ensures YearStart(year) <= YearStart(later)
    decreases later - year
  {
    if year < later {
      YearLength(year);
      YearsInOrder(year + 1, later);
    }
  }

  lemma {:induction false} MonthsInOrder(month: int, later: int, year: int)
    requires 1 <= month <= later <= 13
    ensures MonthStart(month, year) <= MonthStart(later, year)
    decreases later - month
  {
    if month < later {
      MonthLength(month, year);
      MonthsInOrder(month + 1, later, year);
    }
  }

  lemma DateInItsYear(d: Date)
    requires ValidDate(d)
    ensures YearStart(d.year) <= DayNumber(d) + EPOCH_DAYS < YearStart(d.year + 1)
  {
    MonthLength(d.month, d.year);
    MonthsInOrder(1, d.month, d.year);
    MonthsInOrder(d.month + 1, 13, d.year);
    YearLength(d.year);
  }

  lemma SameYear(d: Date, e: Date)
    requires ValidDate(d) && ValidDate(e) && DayNumber(d) == DayNumber(e)
    ensures d.year == e.year
  {
    DateInItsYear(d);
    DateInItsYear(e);
    if d.year < e.year { YearsInOrder(d.year + 1, e.year); }
    if e.year < d.year { YearsInOrder(e.year + 1, d.year); }
  }

  /** Two dates are the same day only if they are the same. */
  lemma OneDate(d: Date, e: Date)
    requires ValidDate(d) && ValidDate(e) && DayNumber(d) == DayNumber(e)
    ensures d == e
  {
    SameYear(d, e);
    MonthLength(d.month, d.year);
    MonthLength(e.month, e.year);
    if d.month < e.month { MonthsInOrder(d.month + 1, e.month, d.year); }
    if e.month < d.month { MonthsInOrder(e.month + 1, d.month, d.year); }
  }

  /** Day 0 is 1 January 1970, and every day is followed by the next date of the calendar: with the
      lengths of months and leap years this fixes the date of every day. */
  lemma DatesFollow(days: int)
    ensures DateOf(0) == Date(1970, 1, 1) && DayNumber(Date(1970, 1, 1)) == 0
    ensures DateOf(days + 1) == Tomorrow(DateOf(days))
  {
    assert DayNumber(Date(1970, 1, 1)) == 0;
    DateRoundTrip(0);
    OneDate(DateOf(0), Date(1970, 1, 1));
    DateRoundTrip(days);
    DateRoundTrip(days + 1);
    DayFollows(DateOf(days));
    OneDate(DateOf(days + 1), Tomorrow(DateOf(days)));
  }

  /** The clock a second later, and whether the day is over. */
  function NextSecond(c: Clock): (Clock, bool) {
    if c.second < 59 then (Clock(c.hour, c.minute, c.second + 1), false)
    else if c.minute < 59 then (Clock(c.hour, c.minute + 1, 0), false)
    else if c.hour < 23 then (Clock(c.hour + 1, 0, 0), false)
    else (Clock(0, 0, 0), true)
  }

  lemma SecondFollows(c: Clock)
    requires ValidClock(c)
    ensures var (c', over) := NextSecond(c);
            ValidClock(c') && SecondOf(c') == if over then 0 else SecondOf(c) + 1
  {
  }

  lemma LastSecond(c: Clock)
    requires ValidClock(c)
    ensures SecondOf(c) <= SECONDS_PER_DAY - 1
    ensures NextSecond(c).1 <==> SecondOf(c) == SECONDS_PER_DAY - 1
  {
    assert c.hour * 3600 <= 82_800 && c.minute * 60 <= 3_540;
  }

  lemma ClockRoundTrip(secondOfDay: int)
    requires 0 <= secondOfDay < SECONDS_PER_DAY
    ensures ValidClock(ClockOf(secondOfDay)) && SecondOf(ClockOf(secondOfDay)) == secondOfDay
  {
    assert secondOfDay / 60 / 60 == secondOfDay / 3600;
  }

  /** Seconds since the epoch of an instant given in nanoseconds. */
  function SecondsOf(instant: int): int {
    instant / NS_PER_SECOND
  }

  /** The instant without its fraction of a second. */
  function WholeSecond(instant: int): int {
    SecondsOf(instant) * NS_PER_SECOND
  }

  function DateAt(instant: int): Date {
    DateOf(SecondsOf(instant) / SECONDS_PER_DAY)
  }

  function ClockAt(instant: int): Clock {
    ClockOf(SecondsOf(instant) % SECONDS_PER_DAY)
  }

  lemma CivilRoundTrip(instant: int)
    ensures ValidDate(DateAt(instant)) && ValidClock(ClockAt(instant))
    ensures UnixSeconds(DateAt(instant), ClockAt(instant)) == SecondsOf(instant)
  {
    var seconds := SecondsOf(instant);
    DateRoundTrip(seconds / SECONDS_PER_DAY);
    ClockRoundTrip(seconds % SECONDS_PER_DAY);
  }

  lemma OneClock(c: Clock, d: Clock)
    requires ValidClock(c) && ValidClock(d) && SecondOf(c) == SecondOf(d)
    ensures c == d
  {
  }

  lemma ClockFollows(n: int)
    requires 0 <= n < SECONDS_PER_DAY
    ensures ClockOf(if n == SECONDS_PER_DAY - 1 then 0 else n + 1) == NextSecond(ClockOf(n)).0
    ensures NextSecond(ClockOf(n)).1 <==> n == SECONDS_PER_DAY - 1
  {
    var next := if n == SECONDS_PER_DAY - 1 then 0 else n + 1;
    ClockRoundTrip(n);
    ClockRoundTrip(next);
    SecondFollows(ClockOf(n));
    LastSecond(ClockOf(n));
    OneClock(ClockOf(next), NextSecond(ClockOf(n)).0);
  }

  lemma NextInDay(days: int, n: int)
    requires 0 <= n < SECONDS_PER_DAY
    ensures (days * SECONDS_PER_DAY + n) / SECONDS_PER_DAY == days && (days * SECONDS_PER_DAY + n) % SECONDS_PER_DAY == n
  {
  }

  /** The second after second n of a day. */
  lemma SecondsFollow(seconds: int)
    ensures var days, n := seconds / SECONDS_PER_DAY, seconds % SECONDS_PER_DAY;
            var last := n == SECONDS_PER_DAY - 1;
            && (seconds + 1) / SECONDS_PER_DAY == (if last then days + 1 else days)
            && (seconds + 1) % SECONDS_PER_DAY == (if last then 0 else n + 1)
  {
    var days, n := seconds / SECONDS_PER_DAY, seconds % SECONDS_PER_DAY;
    if n == SECONDS_PER_DAY - 1 { NextInDay(days + 1, 0); } else { NextInDay(days, n + 1); }
  }

  lemma CivilFollows(days: int, n: int, days': int, n': int)
    requires 0 <= n < SECONDS_PER_DAY
    requires if n == SECONDS_PER_DAY - 1 then days' == days + 1 && n' == 0 else days' == days && n' == n + 1
    ensures var (clock, over) := NextSecond(ClockOf(n));
            ClockOf(n') == clock && DateOf(days') == if over then Tomorrow(DateOf(days)) else DateOf(days)
  {
    ClockFollows(n);
    DatesFollow(days);
  }

  lemma OneSecondOn(instant: int)
    ensures SecondsOf(instant + NS_PER_SECOND) == SecondsOf(instant) + 1
  {
    var q, r := instant / NS_PER_SECOND, instant % NS_PER_SECOND;
    assert instant + NS_PER_SECOND == (q + 1) * NS_PER_SECOND + r;
  }

  /** The instant 0 is midnight of 1 January 1970. */
  lemma StartOfTime()
    ensures DateAt(0) == Date(1970, 1, 1) && ClockAt(0) == Clock(0, 0, 0)
  {
    assert SecondsOf(0) / SECONDS_PER_DAY == 0 && SecondsOf(0) % SECONDS_PER_DAY == 0;
    FirstDay();
  }

  lemma FirstDay()
    ensures DateOf(0) == Date(1970, 1, 1) && ClockOf(0) == Clock(0, 0, 0)
  {
    DatesFollow(0);
  }

  /** A second later the clock is a second on, at midnight with the next date: together with the
      start this fixes the date and clock of every instant. */
  lemma CivilTimeFollows(instant: int)
    ensures var (clock, over) := NextSecond(ClockAt(instant));
            && ClockAt(instant + NS_PER_SECOND) == clock
            && DateAt(instant + NS_PER_SECOND) == if over then Tomorrow(DateAt(instant)) else DateAt(instant)
  {
    OneSecondOn(instant);
    SecondLater(SecondsOf(instant));
  }

  lemma SecondLater(seconds: int)
    ensures var (clock, over) := NextSecond(ClockOf(seconds % SECONDS_PER_DAY));
            var date := DateOf(seconds / SECONDS_PER_DAY);
            && ClockOf((seconds + 1) % SECONDS_PER_DAY) == clock
            && DateOf((seconds + 1) / SECONDS_PER_DAY) == if over then Tomorrow(date) else date
  {
    SecondsFollow(seconds);
    CivilFollows(seconds / SECONDS_PER_DAY, seconds % SECONDS_PER_DAY,
                 (seconds + 1) / SECONDS_PER_DAY, (seconds + 1) % SECONDS_PER_DAY);
  }
}
