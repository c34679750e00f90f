/** What the stamps look like and what a zone offset means, stated on the text itself. */
module StampText {
  import opened Basics
  import opened Calendar
  import opened Stamp

  // ---- What is written -----------------------------------------------------------------------------------

  /** From position i on the text has count digits, of the number n. */
  ghost predicate NumberAt(s: string, i: nat, count: nat, n: int) {
    i + count <= |s| && AllDigits(s[i..i + count]) && Number(s[i..i + count]) == n
  }

  /** yyyy-MM-dd in front. */
  ghost predicate DateThere(s: string, d: Date) {
    && |s| >= 10 && NumberAt(s, 0, 4, d.year) && s[4] == '-' && NumberAt(s, 5, 2, d.month) && s[7] == '-'
    && NumberAt(s, 8, 2, d.day)
  }

  /** hh:mm:ss from position i on. */
  ghost predicate ClockThere(s: string, i: nat, c: Clock) {
    && |s| >= i + 8 && NumberAt(s, i, 2, c.hour) && s[i + 2] == ':' && NumberAt(s, i + 3, 2, c.minute) && s[i + 5] == ':'
    && NumberAt(s, i + 6, 2, c.second)
  }

  ghost predicate LooksLike(s: string, d: Date, separator: char, c: Clock) {
    |s| >= 19 && DateThere(s, d) && s[10] == separator && ClockThere(s, 11, c)
  }

  lemma NumberFirst(n: int, width: nat, after: string)
    requires 0 <= n && |Pad(n, width)| == width
    ensures NumberAt(Pad(n, width) + after, 0, width, n)
  {
    PadDigits(n, width);
    assert (Pad(n, width) + after)[0..width] == Pad(n, width);
  }

  lemma TwoDigitsFirst(n: int, after: string)
    requires 0 <= n < 100
    ensures NumberAt(AppendInt(n, 2) + after, 0, 2, n) && |AppendInt(n, 2)| == 2
  {
    PadLength2(n);
    NumberFirst(n, 2, after);
  }

  lemma Shifted(before: string, s: string, i: nat, count: nat, n: int)
    requires NumberAt(s, i, count, n)
    ensures NumberAt(before + s, |before| + i, count, n)
  {
    assert (before + s)[|before| + i..|before| + i + count] == s[i..i + count];
  }

  /** Two digits, a character, two digits. */
  ghost predicate PairThere(s: string, i: nat, m: int, c: char, n: int) {
    i + 5 <= |s| && NumberAt(s, i, 2, m) && s[i + 2] == c && NumberAt(s, i + 3, 2, n)
  }

  lemma PairFirst(m: int, c: char, n: int, rest: string)
    requires 0 <= m < 100 && 0 <= n < 100
    ensures PairThere(AppendInt(m, 2) + ([c] + (AppendInt(n, 2) + rest)), 0, m, c, n)
    ensures |AppendInt(m, 2)| == |AppendInt(n, 2)| == 2
  {
    TwoDigitsFirst(m, [c] + (AppendInt(n, 2) + rest));
    TwoDigitsFirst(n, rest);
    Shifted([c], AppendInt(n, 2) + rest, 0, 2, n);
    Shifted(AppendInt(m, 2), [c] + (AppendInt(n, 2) + rest), 1, 2, n);
  }

  lemma DateShape(d: Date, rest: string)
    requires ReadableDate(d)
    ensures |DateText(d)| == 10 && DateThere(DateText(d) + rest, d)
  {
    var pair := AppendInt(d.month, 2) + ("-" + (AppendInt(d.day, 2) + rest));
    DateTextParts(d, rest);
    PadLength4(d.year);
    NumberFirst(d.year, 4, "-" + pair);
    PairFirst(d.month, '-', d.day, rest);
    Shifted("-", pair, 0, 2, d.month);
    Shifted("-", pair, 3, 2, d.day);
    Shifted(AppendInt(d.year, 4), "-" + pair, 1, 2, d.month);
    Shifted(AppendInt(d.year, 4), "-" + pair, 4, 2, d.day);
  }

  lemma ClockTextParts(c: Clock, rest: string)
    ensures ClockText(c) + rest
            == AppendInt(c.hour, 2) + (":" + (AppendInt(c.minute, 2) + (":" + (AppendInt(c.second, 2) + rest))))
  {
  }

  lemma ClockFirst(c: Clock, rest: string)
    requires ValidClock(c)
    ensures |ClockText(c)| == 8 && ClockThere(ClockText(c) + rest, 0, c)
  {
    var pair := AppendInt(c.minute, 2) + (":" + (AppendInt(c.second, 2) + rest));
    ClockTextParts(c, rest);
    TwoDigitsFirst(c.hour, ":" + pair);
    PairFirst(c.minute, ':', c.second, rest);
    Shifted(":", pair, 0, 2, c.minute);
    Shifted(":", pair, 3, 2, c.second);
    Shifted(AppendInt(c.hour, 2), ":" + pair, 1, 2, c.minute);
    Shifted(AppendInt(c.hour, 2), ":" + pair, 4, 2, c.second);
  }

  lemma ClockShape(before: string, s: string, c: Clock)
    requires ClockThere(s, 0, c)
    ensures ClockThere(before + s, |before|, c)
  {
    Shifted(before, s, 0, 2, c.hour);
    Shifted(before, s, 3, 2, c.minute);
    Shifted(before, s, 6, 2, c.second);
  }

  lemma TextShape(d: Date, separator: char, c: Clock, rest: string)
    requires ReadableDate(d) && ValidClock(c)
    ensures var s := DateText(d) + ([separator] + (ClockText(c) + rest));
            |s| == 19 + |rest| && LooksLike(s, d, separator, c) && s[19..] == rest
  {
    DateShape(d, [separator] + (ClockText(c) + rest));
    ClockFirst(c, rest);
    Joined(DateText(d), separator, ClockText(c), rest, d, c);
  }

  lemma Joined(date: string, separator: char, clock: string, rest: string, d: Date, c: Clock)
    requires |date| == 10 && DateThere(date + ([separator] + (clock + rest)), d)
    requires |clock| == 8 && ClockThere(clock + rest, 0, c)
    ensures var s := date + ([separator] + (clock + rest));
            |s| == 19 + |rest| && LooksLike(s, d, separator, c) && s[19..] == rest
  {
    ClockShape(date + [separator], clock + rest, c);
    assert date + ([separator] + (clock + rest)) == (date + [separator]) + (clock + rest);
  }

  /** The stamp of a deadline whose year has four digits: its date, 'T', its clock, 'Z'. */
  lemma StampLooksLike(instant: int)
    requires WritableYear(instant)
    ensures var s := FormatRfc3339(instant);
            |s| == 20 && LooksLike(s, DateAt(instant), 'T', ClockAt(instant)) && s[19] == 'Z'
  {
    CivilRoundTrip(instant);
    TextShape(DateAt(instant), 'T', ClockAt(instant), "Z");
  }

  /** A legacy stamp: the date, a space, the clock, and nothing more. */
  lemma LegacyLooksLike(instant: int)
    requires WritableYear(instant)
    ensures var s := FormatLegacy(instant);
            |s| == 19 && LooksLike(s, DateAt(instant), ' ', ClockAt(instant))
  {
    CivilRoundTrip(instant);
    TextShape(DateAt(instant), ' ', ClockAt(instant), "");
    assert ClockText(ClockAt(instant)) + "" == ClockText(ClockAt(instant));
  }

  // ---- Known texts ---------------------------------------------------------------------------------------------

  lemma TwoDigits(n: int)
    requires 0 <= n < 100
    ensures AppendInt(n, 2) == [DigitChar(n / 10), DigitChar(n % 10)]
  {
    assert Pad(n / 10, 1) == Pad(n / 10 / 10, 0) + [DigitChar(n / 10 % 10)];
    assert Pad(0, 0) == "";
  }

  lemma FourDigits(n: int)
    requires 0 <= n < 10_000
    ensures AppendInt(n, 4) == AppendInt(n / 100, 2) + AppendInt(n % 100, 2)
  {
    TwoDigits(n / 100);
    TwoDigits(n % 100);
    assert Pad(n, 4) == Pad(n / 10, 3) + [DigitChar(n % 10)];
    assert Pad(n / 10, 3) == Pad(n / 10 / 10, 2) + [DigitChar(n / 10 % 10)];
    assert n / 10 / 10 == n / 100 && n / 10 % 10 == n % 100 / 10;
  }

  lemma KnownNumbers()
    ensures AppendInt(1970, 4) == "1970" && AppendInt(1, 2) == "01" && AppendInt(0, 2) == "00"
  {
    FourDigits(1970);
    TwoDigits(19);
    TwoDigits(70);
    TwoDigits(1);
    TwoDigits(0);
  }

  lemma KnownDate()
    ensures DateText(Date(1970, 1, 1)) == "1970-01-01"
  {
    KnownNumbers();
  }

  lemma KnownClock()
    ensures ClockText(Clock(0, 0, 0)) == "00:00:00"
  {
    KnownNumbers();
  }

  /** The start of time in both layouts. */
  lemma StampOfTheEpoch()
    ensures FormatRfc3339(0) == "1970-01-01T00:00:00Z" && FormatLegacy(0) == "1970-01-01 00:00:00"
  {
    StartOfTime();
    KnownDate();
    KnownClock();
  }

  // ---- Zone offsets ----------------------------------------------------------------------------------------

  /** An offset as a text has it: a sign, two digits, a colon, two digits. */
  function OffsetText(west: bool, hours: int, minutes: int): string
    requires 0 <= hours < 100 && 0 <= minutes < 100
  {
    (if west then "-" else "+") + (AppendInt(hours, 2) + (":" + AppendInt(minutes, 2)))
  }

  /** What readers of numbers, dates and clocks stop at. */
  predicate Stops(z: string) {
    z != "" && (z[0] == 'Z' || z[0] == '+' || z[0] == '-')
  }

  /** A reading of p + "Z" that leaves the 'Z' is a reading of p with z behind it that leaves z. */
  ghost predicate Swapped<T>(r: Read<T>, z: string, r': Read<T>) {
    r.Got? ==> r.rest != "" && r.rest[|r.rest| - 1] == 'Z' && r' == Got(r.value, r.rest[..|r.rest| - 1] + z)
  }

  lemma SwapDigits(p: string, z: string, count: nat)
    ensures Swapped(ReadDigits(p + "Z", count), z, ReadDigits(p + z, count))
  {
    var s := p + "Z";
    assert |p| < count <= |s| ==> s[..count][|p|] == 'Z';
    if |s| >= count && AllDigits(s[..count]) {
      assert s[..count] == p[..count] == (p + z)[..count];
      assert s[count..] == p[count..] + "Z" && (p + z)[count..] == p[count..] + z;
    }
  }

  lemma SwapChar(p: string, z: string, c: char)
    requires c != 'Z'
    ensures Swapped(ReadChar(p + "Z", c), z, ReadChar(p + z, c))
  {
    if p != "" {
      assert (p + "Z")[1..] == p[1..] + "Z" && (p + z)[1..] == p[1..] + z;
    }
  }

  /** Where one digit is read, a second is as little there with z behind. */
  lemma SameSecond(p: string, z: string)
    requires Stops(z) && p != "" && ReadDigits(p + "Z", 2).Bad?
    ensures ReadDigits(p + z, 2).Bad?
  {
    assert |p| == 1 ==> (p + z)[..2][1] == z[0];
    assert |p| >= 2 ==> (p + z)[..2] == (p + "Z")[..2];
  }

  lemma SwapHour(p: string, z: string)
    requires Stops(z)
    ensures Swapped(ReadHour(p + "Z"), z, ReadHour(p + z))
  {
    SwapDigits(p, z, 2);
    SwapDigits(p, z, 1);
    if ReadDigits(p + "Z", 2).Bad? && ReadDigits(p + "Z", 1).Got? { SameSecond(p, z); }
  }

  /** What the reading left in front of the 'Z'. */
  function Before<T>(r: Read<T>): string {
    if r.Got? && r.rest != "" then r.rest[..|r.rest| - 1] else ""
  }

  lemma SwappedRest<T>(r: Read<T>, z: string, r': Read<T>)
    requires Swapped(r, z, r') && r.Got?
    ensures r.rest == Before(r) + "Z" && r' == Got(r.value, Before(r) + z)
  {
  }

  lemma SwapDigitsRest(p: string, z: string, count: nat)
    requires ReadDigits(p + "Z", count).Got?
    ensures var r := ReadDigits(p + "Z", count);
            r.rest == Before(r) + "Z" && ReadDigits(p + z, count) == Got(r.value, Before(r) + z)
  {
    SwapDigits(p, z, count);
    SwappedRest(ReadDigits(p + "Z", count), z, ReadDigits(p + z, count));
  }

  lemma SwapCharRest(p: string, z: string, c: char)
    requires c != 'Z' && ReadChar(p + "Z", c).Got?
    ensures var r := ReadChar(p + "Z", c);
            r.rest == Before(r) + "Z" && ReadChar(p + z, c) == Got(r.value, Before(r) + z)
  {
    SwapChar(p, z, c);
    SwappedRest(ReadChar(p + "Z", c), z, ReadChar(p + z, c));
  }

  lemma SwapDate(p: string, z: string)
    requires ReadDate(p + "Z").Got?
    ensures var r := ReadDate(p + "Z"); r.rest == Before(r) + "Z" && ReadDate(p + z) == Got(r.value, Before(r) + z)
  {
    var year := ReadDigits(p + "Z", 4);
    SwapDigitsRest(p, z, 4);
    var p1 := Before(year);
    SwapCharRest(p1, z, '-');
    var p2 := Before(ReadChar(p1 + "Z", '-'));
    SwapDigitsRest(p2, z, 2);
    var p3 := Before(ReadDigits(p2 + "Z", 2));
    SwapCharRest(p3, z, '-');
    var p4 := Before(ReadChar(p3 + "Z", '-'));
    SwapDigitsRest(p4, z, 2);
  }

  lemma SwapClock(p: string, z: string)
    requires Stops(z) && ReadClock(p + "Z").Got?
    ensures var r := ReadClock(p + "Z"); r.rest == Before(r) + "Z" && ReadClock(p + z) == Got(r.value, Before(r) + z)
  {
    SwapHour(p, z);
    SwappedRest(ReadHour(p + "Z"), z, ReadHour(p + z));
    var p1 := Before(ReadHour(p + "Z"));
    SwapCharRest(p1, z, ':');
    var p2 := Before(ReadChar(p1 + "Z", ':'));
    SwapDigitsRest(p2, z, 2);
    var p3 := Before(ReadDigits(p2 + "Z", 2));
    SwapCharRest(p3, z, ':');
    var p4 := Before(ReadChar(p3 + "Z", ':'));
    SwapDigitsRest(p4, z, 2);
  }

  lemma {:induction false} SwapLeading(p: string, z: string)
    requires Stops(z)
    ensures LeadingDigits(p + z) == LeadingDigits(p) <= |p|
  {
    if p == "" {
      assert p + z == z;
    } else {
      assert (p + z)[1..] == p[1..] + z;
      SwapLeading(p[1..], z);
    }
  }

  lemma SwapFraction(p: string, z: string)
    requires Stops(z)
    ensures var (nanos, rest) := ReadFraction(p);
            ReadFraction(p + z) == (nanos, rest + z)
  {
    if |p| >= 2 {
      SwapLeading(p[1..], z);
      assert (p + z)[1..] == p[1..] + z;
      LeadingAreDigits(p[1..]);
      var count := LeadingDigits(p[1..]);
      assert (p[1..] + z)[..count] == p[1..][..count];
      var kept := if count > 9 then 9 else count;
      assert (p[1..] + z)[..kept] == p[1..][..kept];
      assert (p + z)[1 + count..] == p[1 + count..] + z;
    } else if |p| == 1 {
      assert (p + z)[1] == z[0];
    }
  }

  lemma ReadOffset(west: bool, hours: int, minutes: int)
    requires 0 <= hours <= 24 && 0 <= minutes <= 60
    ensures Stops(OffsetText(west, hours, minutes))
    ensures ReadZone(OffsetText(west, hours, minutes))
            == Some(if west then -(hours * 3600 + minutes * 60) else hours * 3600 + minutes * 60)
  {
    ReadPad2(hours, "");
    ReadPad2(minutes, "");
    PadLength2(hours);
    PadLength2(minutes);
    assert AppendInt(hours, 2) + "" == AppendInt(hours, 2) && AppendInt(minutes, 2) + "" == AppendInt(minutes, 2);
    ReadSigned(west, AppendInt(hours, 2), AppendInt(minutes, 2), hours, minutes);
  }

  lemma ReadSigned(west: bool, hh: string, mm: string, hours: int, minutes: int)
    requires |hh| == |mm| == 2 && ReadDigits(hh, 2) == Got(hours, "") && ReadDigits(mm, 2) == Got(minutes, "")
    requires 0 <= hours <= 24 && 0 <= minutes <= 60
    ensures var z := (if west then "-" else "+") + (hh + (":" + mm));
            Stops(z) && ReadZone(z) == Some(if west then -(hours * 3600 + minutes * 60) else hours * 3600 + minutes * 60)
  {
    var z := (if west then "-" else "+") + (hh + (":" + mm));
    assert z[1..3] == hh && z[4..] == mm && z[3] == ':';
  }

  lemma SwapCivil(p: string, z: string)
    requires Stops(z) && ReadCivil(p + "Z").Got?
    ensures var r := ReadCivil(p + "Z"); r.rest == Before(r) + "Z" && ReadCivil(p + z) == Got(r.value, Before(r) + z)
  {
    SwapDate(p, z);
    var p1 := Before(ReadDate(p + "Z"));
    SwapCharRest(p1, z, 'T');
    var p2 := Before(ReadChar(p1 + "Z", 'T'));
    SwapClock(p2, z);
    var p3 := Before(ReadClock(p2 + "Z"));
    SwapFraction(p3, "Z");
    SwapFraction(p3, z);
  }

  lemma ZoneIsZ(rest: string)
    requires ReadZone(rest + "Z").Some?
    ensures rest == "" && ReadZone(rest + "Z") == Some(0)
  {
  }

  /** With "Z" or a zone z behind it, p has the same civil time. */
  lemma SameCivil(p: string, z: string) returns (c: Civil)
    requires ParseRfc3339(p + "Z").Some? && Stops(z)
    ensures ReadCivil(p + "Z") == Got(c, "Z") && ReadCivil(p + z) == Got(c, z)
  {
    SwapCivil(p, z);
    ZoneIsZ(Before(ReadCivil(p + "Z")));
    assert "" + z == z;
    c := ReadCivil(p + "Z").value;
  }

  lemma ZonedShifts(c: Civil, z: string, offset: int, t: int)
    requires ValidDate(c.date) && Zoned(Got(c, "Z")) == Some(t) && ReadZone(z) == Some(offset)
    ensures Zoned(Got(c, z)) == Some(t - offset * NS_PER_SECOND)
  {
  }

  lemma ZoneShifts(p: string, t: int, z: string, offset: int)
    requires ParseRfc3339(p + "Z") == Some(t) && Stops(z) && ReadZone(z) == Some(offset)
    ensures ParseRfc3339(p + z) == Some(t - offset * NS_PER_SECOND)
  {
    var c := SameCivil(p, z);
    ZonedShifts(c, z, offset, t);
  }

  function Offset(west: bool, hours: int, minutes: int): int {
    if west then -(hours * 3600 + minutes * 60) else hours * 3600 + minutes * 60
  }

  /** A text that reads as t with "Z" at its end reads, with an offset instead, as the instant that
      much earlier east of Greenwich and later west of it: whatever its date, clock and fraction. */
  lemma OffsetShifts(p: string, t: int, west: bool, hours: int, minutes: int)
    requires ParseRfc3339(p + "Z") == Some(t) && 0 <= hours <= 24 && 0 <= minutes <= 60
    ensures ParseRfc3339(p + OffsetText(west, hours, minutes)) == Some(t - Offset(west, hours, minutes) * NS_PER_SECOND)
  {
    ReadOffset(west, hours, minutes);
    ZoneShifts(p, t, OffsetText(west, hours, minutes), Offset(west, hours, minutes));
  }

  // ---- Fractions of a second -------------------------------------------------------------------------------

  function Pow10(k: nat): int {
    if k == 0 then 1 else 10 * Pow10(k - 1)
  }

  lemma {:induction false} ScaleIs(n: int, digits: nat)
    requires digits <= 9
    ensures Scale(n, digits) == n * Pow10(9 - digits)
    decreases 9 - digits
  {
    if digits < 9 {
      ScaleIs(10 * n, digits + 1);
      assert n * (10 * Pow10(9 - digits - 1)) == 10 * n * Pow10(9 - digits - 1);
    }
  }

  lemma {:induction false} AllLeading(ds: string, z: string)
    requires AllDigits(ds) && Stops(z)
    ensures LeadingDigits(ds + z) == |ds|
  {
    if ds == "" {
      assert ds + z == z;
    } else {
      assert (ds + z)[1..] == ds[1..] + z;
      AllLeading(ds[1..], z);
    }
  }

  /** A fraction after a point or a comma is read in nanoseconds: its first nine digits, with zeros
      for those that are missing. */
  lemma FractionIs(c: char, ds: string, z: string)
    requires (c == '.' || c == ',') && ds != "" && AllDigits(ds) && Stops(z)
    ensures var kept := if |ds| > 9 then 9 else |ds|;
            AllDigits(ds[..kept]) && ReadFraction([c] + (ds + z)) == (Number(ds[..kept]) * Pow10(9 - kept), z)
  {
    var s := [c] + (ds + z);
    var kept := if |ds| > 9 then 9 else |ds|;
    assert s[1..] == ds + z && s[1] == ds[0];
    AllLeading(ds, z);
    assert (ds + z)[..kept] == ds[..kept] && s[1 + |ds|..] == z;
    ScaleIs(Number(ds[..kept]), kept);
  }

  // ---- What is read, exactly ---------------------------------------------------------------------------------

  lemma ReadDigitsIff(s: string, count: nat, n: int, rest: string)
    ensures ReadDigits(s, count) == Got(n, rest) <==> NumberAt(s, 0, count, n) && rest == s[count..]
  {
    if |s| >= count { assert s[0..count] == s[..count]; }
  }

  lemma NumberLater(s: string, k: nat, i: nat, count: nat, n: int)
    requires k <= |s|
    ensures NumberAt(s[k..], i, count, n) <==> NumberAt(s, k + i, count, n)
  {
    if k + i + count <= |s| { assert s[k..][i..i + count] == s[k + i..k + i + count]; }
  }

  /** A date is read exactly from ten characters that are four digits, '-', two digits, '-', two
      digits, of a month from 1 to 12 and a day that this month has; the rest is left. */
  lemma ReadDateIff(s: string, d: Date, rest: string)
    ensures ReadDate(s) == Got(d, rest) <==>
              DateThere(s, d) && 1 <= d.month <= 12 && 1 <= d.day <= DaysIn(d.month, d.year) && rest == s[10..]
  {
    if DateThere(s, d) && ValidDate(d) && rest == s[10..] {
      DateIsRead(s, d);
    }
    if ReadDate(s) == Got(d, rest) { DateWasThere(s, d, rest); }
  }

  lemma DateIsRead(s: string, d: Date)
    requires DateThere(s, d) && ValidDate(d)
    ensures ReadDate(s) == Got(d, s[10..])
  {
    ReadDigitsIff(s, 4, d.year, s[4..]);
    assert s[4..][1..] == s[5..];
    NumberLater(s, 5, 0, 2, d.month);
    ReadDigitsIff(s[5..], 2, d.month, s[5..][2..]);
    assert s[5..][2..] == s[7..] && s[7..][1..] == s[8..];
    NumberLater(s, 8, 0, 2, d.day);
    ReadDigitsIff(s[8..], 2, d.day, s[8..][2..]);
    assert s[8..][2..] == s[10..];
  }

  lemma DateWasThere(s: string, d: Date, rest: string)
    requires ReadDate(s) == Got(d, rest)
    ensures DateThere(s, d) && ValidDate(d) && rest == s[10..]
  {
    ReadDigitsIff(s, 4, d.year, s[4..]);
    assert s[4] == '-' && s[4..][1..] == s[5..];
    ReadDigitsIff(s[5..], 2, d.month, s[5..][2..]);
    assert s[5..][2..] == s[7..];
    NumberLater(s, 5, 0, 2, d.month);
    assert s[7] == '-' && s[7..][1..] == s[8..];
    ReadDigitsIff(s[8..], 2, d.day, s[8..][2..]);
    NumberLater(s, 8, 0, 2, d.day);
    assert s[8..][2..] == s[10..];
  }

  /** The width of the hour: two digits when there are two. */
  function HourWidth(s: string): nat {
    if |s| >= 2 && IsDigit(s[0]) && IsDigit(s[1]) then 2 else 1
  }

  lemma ReadHourIff(s: string, hour: int, rest: string)
    ensures ReadHour(s) == Got(hour, rest) <==> NumberAt(s, 0, HourWidth(s), hour) && rest == s[HourWidth(s)..]
  {
    ReadDigitsIff(s, 2, hour, rest);
    ReadDigitsIff(s, 1, hour, rest);
    if |s| >= 2 { assert AllDigits(s[..2]) <==> IsDigit(s[..2][0]) && IsDigit(s[..2][1]); }
  }

  /** hh:mm:ss, or h:mm:ss, from the front, within 23:59:59. */
  ghost predicate ClockReadable(s: string, c: Clock) {
    var w := HourWidth(s);
    && |s| >= w + 6 && NumberAt(s, 0, w, c.hour) && s[w] == ':' && NumberAt(s, w + 1, 2, c.minute)
    && s[w + 3] == ':' && NumberAt(s, w + 4, 2, c.second)
    && 0 <= c.hour <= 23 && 0 <= c.minute <= 59 && 0 <= c.second <= 59
  }

  /** A clock is read exactly from such a text; the rest is left. */
  lemma ReadClockIff(s: string, c: Clock, rest: string)
    ensures ReadClock(s) == Got(c, rest) <==> ClockReadable(s, c) && rest == s[HourWidth(s) + 6..]
  {
    if ClockReadable(s, c) { ClockIsRead(s, c); }
    if ReadClock(s) == Got(c, rest) { ClockWasThere(s, c, rest); }
  }

  lemma ClockIsRead(s: string, c: Clock)
    requires ClockReadable(s, c)
    ensures ReadClock(s) == Got(c, s[HourWidth(s) + 6..])
  {
    var w := HourWidth(s);
    ReadHourIff(s, c.hour, s[w..]);
    assert s[w..][1..] == s[w + 1..];
    NumberLater(s, w + 1, 0, 2, c.minute);
    ReadDigitsIff(s[w + 1..], 2, c.minute, s[w + 1..][2..]);
    assert s[w + 1..][2..] == s[w + 3..] && s[w + 3..][1..] == s[w + 4..];
    NumberLater(s, w + 4, 0, 2, c.second);
    ReadDigitsIff(s[w + 4..], 2, c.second, s[w + 4..][2..]);
    assert s[w + 4..][2..] == s[w + 6..];
  }

  lemma MinuteWasThere(s: string, w: nat, minute: int, rest: string)
    requires w < |s| && s[w] == ':' && ReadDigits(s[w + 1..], 2) == Got(minute, rest)
    ensures NumberAt(s, w + 1, 2, minute) && rest == s[w + 3..]
  {
    ReadDigitsIff(s[w + 1..], 2, minute, rest);
    NumberLater(s, w + 1, 0, 2, minute);
    assert s[w + 1..][2..] == s[w + 3..];
  }

  lemma ClockWasThere(s: string, c: Clock, rest: string)
    requires ReadClock(s) == Got(c, rest)
    ensures ClockReadable(s, c) && rest == s[HourWidth(s) + 6..]
  {
    var w := HourWidth(s);
    ReadHourIff(s, c.hour, s[w..]);
    assert s[w] == ':' && s[w..][1..] == s[w + 1..];
    MinuteWasThere(s, w, c.minute, s[w + 3..]);
    assert s[w + 3] == ':' && s[w + 3..][1..] == s[w + 4..];
    MinuteWasThere(s, w + 3, c.second, s[w + 6..]);
  }

  /** A sign, two digits up to 24, ':', two digits up to 60, and nothing else. */
  ghost predicate Signed(s: string, hours: int, minutes: int) {
    && |s| == 6 && (s[0] == '+' || s[0] == '-') && NumberAt(s, 1, 2, hours) && s[3] == ':'
    && NumberAt(s, 4, 2, minutes) && 0 <= hours <= 24 && 0 <= minutes <= 60
  }

  lemma SignedIsRead(s: string, hours: int, minutes: int)
    requires Signed(s, hours, minutes)
    ensures ReadZone(s) == Some(Offset(s[0] == '-', hours, minutes))
  {
    assert s[1..3][0..2] == s[1..3];
    ReadDigitsIff(s[1..3], 2, hours, s[1..3][2..]);
    NumberLater(s, 4, 0, 2, minutes);
    ReadDigitsIff(s[4..], 2, minutes, s[4..][2..]);
  }

  lemma {:induction false} NumberIsNatural(s: string)
    requires AllDigits(s)
    ensures Number(s) >= 0
  {
    if s != "" { NumberIsNatural(s[..|s| - 1]); }
  }

  lemma SignedWasThere(s: string) returns (hours: int, minutes: int)
    requires ReadZone(s).Some? && s != "Z"
    ensures Signed(s, hours, minutes)
  {
    hours, minutes := ReadDigits(s[1..3], 2).value, ReadDigits(s[4..], 2).value;
    assert s[1..3][0..2] == s[1..3] && s[1..3][..2] == s[1..3] && s[4..][..2] == s[4..6];
    NumberIsNatural(s[1..3]);
    NumberIsNatural(s[4..6]);
  }

  /** A zone is "Z" or such an offset. */
  lemma ReadZoneIff(s: string, offset: int)
    ensures ReadZone(s) == Some(offset) <==>
              || (s == "Z" && offset == 0)
              || (exists hours, minutes :: Signed(s, hours, minutes) && offset == Offset(s[0] == '-', hours, minutes))
  {
    if ReadZone(s).Some? && s != "Z" {
      var hours, minutes := SignedWasThere(s);
      SignedIsRead(s, hours, minutes);
    }
    forall hours, minutes | Signed(s, hours, minutes) ensures ReadZone(s) == Some(Offset(s[0] == '-', hours, minutes)) {
      SignedIsRead(s, hours, minutes);
    }
  }

  /** A text of the current layout: a date, 'T', a clock, perhaps a fraction, a zone. */
  ghost predicate Rfc3339Text(s: string, d: Date, c: Clock) {
    && |s| >= 11 && DateThere(s, d) && ValidDate(d) && s[10] == 'T' && ClockReadable(s[11..], c)
    && ReadZone(ReadFraction(s[11..][HourWidth(s[11..]) + 6..]).1).Some?
  }

  /** A text of the legacy layout: a date, spaces, a clock, perhaps a fraction, and no zone. */
  ghost predicate LegacyText(s: string, d: Date, c: Clock) {
    && |s| >= 11 && DateThere(s, d) && ValidDate(d) && s[10] == ' ' && ClockReadable(SkipSpaces(s[10..]), c)
    && ReadFraction(SkipSpaces(s[10..])[HourWidth(SkipSpaces(s[10..])) + 6..]).1 == ""
  }

  lemma CurrentIff(s: string)
    ensures ParseRfc3339(s).Some? <==> exists d, c :: Rfc3339Text(s, d, c)
  {
    if ParseRfc3339(s).Some? {
      var (d, rest) := (ReadDate(s).value, ReadDate(s).rest);
      ReadDateIff(s, d, rest);
      assert rest[1..] == s[11..];
      var c := ReadClock(s[11..]).value;
      ReadClockIff(s[11..], c, ReadClock(s[11..]).rest);
      assert Rfc3339Text(s, d, c);
    }
    forall d, c | Rfc3339Text(s, d, c) ensures ParseRfc3339(s).Some? {
      CurrentIsRead(s, d, c);
    }
  }

  lemma CurrentIsRead(s: string, d: Date, c: Clock)
    requires Rfc3339Text(s, d, c)
    ensures ParseRfc3339(s).Some?
  {
    ReadDateIff(s, d, s[10..]);
    assert s[10..][1..] == s[11..];
    ReadClockIff(s[11..], c, s[11..][HourWidth(s[11..]) + 6..]);
  }

  lemma LegacyIff(s: string)
    ensures ParseLegacy(s).Some? <==> exists d, c :: LegacyText(s, d, c)
  {
    if ParseLegacy(s).Some? {
      var d := ReadDate(s).value;
      ReadDateIff(s, d, ReadDate(s).rest);
      var c := ReadClock(SkipSpaces(s[10..])).value;
      ReadClockIff(SkipSpaces(s[10..]), c, ReadClock(SkipSpaces(s[10..])).rest);
      assert LegacyText(s, d, c);
    }
    forall d, c | LegacyText(s, d, c) ensures ParseLegacy(s).Some? {
      LegacyIsRead(s, d, c);
    }
  }

  lemma LegacyIsRead(s: string, d: Date, c: Clock)
    requires LegacyText(s, d, c)
    ensures ParseLegacy(s).Some?
  {
    var clock := SkipSpaces(s[10..]);
    ReadDateIff(s, d, s[10..]);
    ReadClockIff(clock, c, clock[HourWidth(clock) + 6..]);
  }

  /** Which headers are readable at all: exactly the texts of one of the two layouts. */
  lemma ReadableExactly(s: string)
    ensures ParseExpired(s).Some? <==> (exists d, c :: Rfc3339Text(s, d, c)) || (exists d, c :: LegacyText(s, d, c))
  {
    CurrentIff(s);
    LegacyIff(s);
  }
}
