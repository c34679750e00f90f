/** The text of the "expired" header: written at publish, parsed at delivery (client.go).

    Instants are nanoseconds since 1970 in UTC. The parsers accept what Go's time.Parse accepts
    for the two layouts, which is more than section 5.6 of RFC 3339: a one-digit hour, a fraction
    after a comma, and a zone offset of up to 24:60. */
module Stamp {
  import opened Basics
  import opened Calendar

  // ---- Writing ------------------------------------------------------------------------------

  function DigitChar(d: int): (c: char)
    requires 0 <= d < 10
    ensures IsDigit(c) && DigitValue(c) == d
  {
    ['0', '1', '2', '3', '4', '5', '6', '7', '8', '9'][d]
  }

  predicate IsDigit(c: char) {
    '0' <= c <= '9'
  }

  function DigitValue(c: char): int
    requires IsDigit(c)
  {
    c as int - '0' as int
  }

  /** The decimal digits of n, with zeros in front up to the given width. */
  function Pad(n: int, width: nat): string
    requires 0 <= n
    decreases n, width
  {
    if n == 0 && width == 0 then ""
    else Pad(n / 10, if width > 0 then width - 1 else 0) + [DigitChar(n % 10)]
  }

  /** Go's appendInt: a sign, then the padded digits. */
  function AppendInt(n: int, width: nat): string {
    if n < 0 then "-" + Pad(-n, width) else Pad(n, width)
  }

  function DateText(d: Date): string {
    AppendInt(d.year, 4) + "-" + AppendInt(d.month, 2) + "-" + AppendInt(d.day, 2)
  }

  function ClockText(c: Clock): string {
    AppendInt(c.hour, 2) + ":" + AppendInt(c.minute, 2) + ":" + AppendInt(c.second, 2)
  }

  /** `Format(time.RFC3339)` of a time in UTC. */
  function FormatRfc3339(instant: int): string {
    DateText(DateAt(instant)) + ("T" + (ClockText(ClockAt(instant)) + "Z"))
  }

  /** `Format(dateFormatLegacy)` of a time in UTC. */
  function FormatLegacy(instant: int): string {
    DateText(DateAt(instant)) + (" " + ClockText(ClockAt(instant)))
  }

  // ---- Parsing ------------------------------------------------------------------------------

  /** A value read from the front of a text, with what is left of the text. */
  datatype Read<T> = Got(value: T, rest: string) | Bad {
    predicate IsFailure() {
      Bad?
    }

    function PropagateFailure<U>(): Read<U>
      requires Bad?
    {
      Bad
    }

    function Extract(): (T, string)
      requires Got?
    {
      (value, rest)
    }
  }

  predicate AllDigits(s: string) {
    forall i :: 0 <= i < |s| ==> IsDigit(s[i])
  }

  function Number(s: string): int
    requires AllDigits(s)
  {
    if s == "" then 0 else 10 * Number(s[..|s| - 1]) + DigitValue(s[|s| - 1])
  }

  function ReadDigits(s: string, count: nat): Read<int> {
    if |s| >= count && AllDigits(s[..count]) then Got(Number(s[..count]), s[count..]) else Bad
  }

  function ReadChar(s: string, c: char): Read<()> {
    if s != "" && s[0] == c then Got((), s[1..]) else Bad
  }

  /** The hour of a layout may have one digit or two. */
  function ReadHour(s: string): Read<int> {
    if ReadDigits(s, 2).Got? then ReadDigits(s, 2) else ReadDigits(s, 1)
  }

  function ReadDate(s: string): Read<Date> {
    var (year, s) :- ReadDigits(s, 4);
    var (_, s) :- ReadChar(s, '-');
    var (month, s) :- ReadDigits(s, 2);
    var (_, s) :- ReadChar(s, '-');
    var (day, s) :- ReadDigits(s, 2);
    var date := Date(year, month, day);
    if ValidDate(date) then Got(date, s) else Bad
  }

  function ReadClock(s: string): Read<Clock> {
    var (hour, s) :- ReadHour(s);
    var (_, s) :- ReadChar(s, ':');
    var (minute, s) :- ReadDigits(s, 2);
    var (_, s) :- ReadChar(s, ':');
    var (second, s) :- ReadDigits(s, 2);
    var clock := Clock(hour, minute, second);
    if ValidClock(clock) then Got(clock, s) else Bad
  }

  function LeadingDigits(s: string): nat {
    if s != "" && IsDigit(s[0]) then 1 + LeadingDigits(s[1..]) else 0
  }

  function Scale(n: int, digits: nat): int
    decreases 9 - digits
  {
    if digits >= 9 then n else Scale(10 * n, digits + 1)
  }

  lemma LeadingAreDigits(s: string)
    ensures LeadingDigits(s) <= |s| && AllDigits(s[..LeadingDigits(s)])
  {
    if s != "" && IsDigit(s[0]) {
      LeadingAreDigits(s[1..]);
      var n := LeadingDigits(s);
      forall i | 0 <= i < n ensures IsDigit(s[..n][i]) {
        if i > 0 {
          assert s[..n][i] == s[1..][..n - 1][i - 1];
        }
      }
    }
  }

  /** An optional fraction, accepted after the seconds although the layout has none; digits
      past the ninth are dropped. */
  function ReadFraction(s: string): (int, string) {
    if |s| >= 2 && (s[0] == '.' || s[0] == ',') && IsDigit(s[1]) then
      LeadingAreDigits(s[1..]);
      var count := LeadingDigits(s[1..]);
      var kept := if count > 9 then 9 else count;
      assert forall i :: 0 <= i < kept ==> s[1..][..kept][i] == s[1..][..count][i];
      (Scale(Number(s[1..][..kept]), kept), s[1 + count..])
    else
      (0, s)
  }

  /** "Z" or a signed offset, in seconds east of UTC, and nothing after it. */
  function ReadZone(s: string): Option<int> {
    if s == "Z" then Some(0)
    else if |s| == 6 && s[0] in {'+', '-'} && s[3] == ':' then
      match (ReadDigits(s[1..3], 2), ReadDigits(s[4..], 2))
      case (Got(hours, _), Got(minutes, _)) =>
        if hours <= 24 && minutes <= 60 then
          Some((if s[0] == '-' then -1 else 1) * (hours * 3600 + minutes * 60))
        else None
      case _ => None
    else None
  }

  function SkipSpaces(s: string): string {
    if s != "" && s[0] == ' ' then SkipSpaces(s[1..]) else s
  }

  /** A date, a clock, and a fraction of a second in nanoseconds. */
  datatype Civil = Civil(date: Date, clock: Clock, nanos: int)

  /** Everything in front of the zone. */
  function ReadCivil(s: string): (r: Read<Civil>)
    ensures r.Got? ==> ValidDate(r.value.date)
  {
    var (date, s) :- ReadDate(s);
    var (_, s) :- ReadChar(s, 'T');
    var (clock, s) :- ReadClock(s);
    var (nanos, s) := ReadFraction(s);
    Got(Civil(date, clock, nanos), s)
  }

  /** `time.Parse(time.RFC3339, s)`. */
  function ParseRfc3339(s: string): Option<int> {
    Zoned(ReadCivil(s))
  }

  /** The civil time at its offset, when what is left is a zone. */
  function Zoned(r: Read<Civil>): Option<int>
    requires r.Got? ==> ValidDate(r.value.date)
  {
    match r
    case Bad => None
    case Got(c, zone) =>
      match ReadZone(zone)
      case None => None
      case Some(offset) => Some(InUtc(c) - offset * NS_PER_SECOND)
  }

  /** The instant when the offset is zero. */
  function InUtc(c: Civil): int
    requires ValidDate(c.date)
  {
    UnixSeconds(c.date, c.clock) * NS_PER_SECOND + c.nanos
  }

  /** `time.ParseInLocation(dateFormatLegacy, s, time.UTC)`. */
  function ParseLegacy(s: string): Option<int> {
    match ReadDate(s)
    case Bad => None
    case Got(date, s) =>
      if s == "" || s[0] != ' ' then None else
      match ReadClock(SkipSpaces(s))
      case Bad => None
      case Got(clock, s) =>
        var (nanos, s) := ReadFraction(s);
        if s == "" then Some(UnixSeconds(date, clock) * NS_PER_SECOND + nanos) else None
  }

  /** `parseExpiredTime`: the current layout first, the legacy layout when it fails. */
  function ParseExpired(s: string): Option<int> {
    if ParseRfc3339(s).Some? then ParseRfc3339(s) else ParseLegacy(s)
  }

  /** `client.isExpired` at the given time. */
  predicate IsExpired(stamp: string, now: int) {
    stamp == "" || match ParseExpired(stamp) { case None => true case Some(t) => now > t }
  }

  // ---- Reading back what was written -----------------------------------------------------------

  lemma OneMoreDigit(s: string, d: int)
    requires AllDigits(s) && 0 <= d < 10
    ensures AllDigits(s + [DigitChar(d)]) && Number(s + [DigitChar(d)]) == 10 * Number(s) + d
  {
    var t := s + [DigitChar(d)];
    assert t[..|t| - 1] == s;
  }

  lemma {:induction false} PadDigits(n: int, width: nat)
    requires 0 <= n
    ensures AllDigits(Pad(n, width)) && Number(Pad(n, width)) == n && |Pad(n, width)| >= width
    decreases n, width
  {
    if !(n == 0 && width == 0) {
      var rest: nat := if width > 0 then width - 1 else 0;
      PadDigits(n / 10, rest);
      OneMoreDigit(Pad(n / 10, rest), n % 10);
      assert Pad(n, width) == Pad(n / 10, rest) + [DigitChar(n % 10)];
    }
  }

  lemma PadLength2(n: int)
    requires 0 <= n < 100
    ensures |Pad(n, 2)| == 2
  {
    assert n / 10 / 10 == 0;
    assert |Pad(n / 10, 1)| == 1;
  }

  lemma PadLength4(n: int)
    requires 0 <= n < 10_000
    ensures |Pad(n, 4)| == 4
  {
    PadLength2(n / 100);
    assert n / 10 / 10 == n / 100;
    assert |Pad(n / 10, 3)| == 3;
  }

  lemma PadTooLong(n: int)
    requires n >= 10_000
    ensures |Pad(n, 4)| >= 5
  {
    assert n / 10 / 10 / 10 / 10 > 0;
    var m := n / 10 / 10 / 10 / 10;
    assert |Pad(m, 0)| >= 1;
    assert |Pad(n / 10 / 10 / 10, 1)| >= 2;
    assert |Pad(n / 10 / 10, 2)| >= 3;
    assert |Pad(n / 10, 3)| >= 4;
  }

  lemma ReadPad2(n: int, rest: string)
    requires 0 <= n < 100
    ensures ReadDigits(AppendInt(n, 2) + rest, 2) == Got(n, rest)
  {
    PadDigits(n, 2);
    PadLength2(n);
    assert (Pad(n, 2) + rest)[..2] == Pad(n, 2);
  }

  lemma ReadPad4(n: int, rest: string)
    requires 0 <= n < 10_000
    ensures ReadDigits(AppendInt(n, 4) + rest, 4) == Got(n, rest)
  {
    PadDigits(n, 4);
    PadLength4(n);
    assert (Pad(n, 4) + rest)[..4] == Pad(n, 4);
  }

  lemma ReadSeparated(c: char, rest: string)
    ensures ReadChar([c] + rest, c) == Got((), rest)
  {
    assert ([c] + rest)[1..] == rest;
  }

  lemma ReadDateText(d: Date, rest: string)
    requires ValidDate(d) && 0 <= d.year < 10_000
    ensures ReadDate(DateText(d) + rest) == Got(d, rest)
  {
    var day := AppendInt(d.day, 2) + rest;
    var month := AppendInt(d.month, 2) + ("-" + day);
    DateTextParts(d, rest);
    ReadPad4(d.year, "-" + month);
    ReadSeparated('-', month);
    ReadPad2(d.month, "-" + day);
    ReadSeparated('-', day);
    ReadPad2(d.day, rest);
  }

  lemma DateTextParts(d: Date, rest: string)
    ensures DateText(d) + rest
            == AppendInt(d.year, 4) + ("-" + (AppendInt(d.month, 2) + ("-" + (AppendInt(d.day, 2) + rest))))
  {
  }

  lemma ReadClockText(c: Clock, rest: string)
    requires ValidClock(c)
    ensures ReadClock(ClockText(c) + rest) == Got(c, rest)
  {
    var afterMinute := ":" + (AppendInt(c.second, 2) + rest);
    var afterHour := ":" + (AppendInt(c.minute, 2) + afterMinute);
    assert ClockText(c) + rest == AppendInt(c.hour, 2) + afterHour;
    ReadPad2(c.hour, afterHour);
    ReadPad2(c.minute, afterMinute);
    ReadPad2(c.second, rest);
    assert afterHour[1..] == AppendInt(c.minute, 2) + afterMinute;
    assert afterMinute[1..] == AppendInt(c.second, 2) + rest;
  }

  /** A year outside 0..9999 is written with a sign or a fifth digit, which no layout reads. */
  lemma ReadDateTextFails(d: Date, rest: string)
    requires d.year < 0 || d.year >= 10_000
    ensures ReadDate(DateText(d) + rest) == Bad
  {
    var text := DateText(d) + rest;
    var year := AppendInt(d.year, 4);
    if d.year < 0 {
      assert text[0] == '-';
      assert !IsDigit(text[..4][0]);
    } else {
      PadDigits(d.year, 4);
      PadTooLong(d.year);
      assert text[4] == year[4] && IsDigit(year[4]);
      assert text[4..][0] == text[4];
    }
  }

  predicate WritableYear(instant: int) {
    0 <= DateAt(instant).year < 10_000
  }

  predicate ReadableDate(d: Date) {
    ValidDate(d) && 0 <= d.year < 10_000
  }

  lemma CivilWritten(d: Date, c: Clock, tail: string)
    requires ReadableDate(d) && ValidClock(c)
    ensures ReadCivil(DateText(d) + ("T" + (ClockText(c) + tail)))
            == Got(Civil(d, c, ReadFraction(tail).0), ReadFraction(tail).1)
  {
    var rest := "T" + (ClockText(c) + tail);
    ReadDateText(d, rest);
    assert rest[1..] == ClockText(c) + tail;
    ReadClockText(c, tail);
  }

  lemma ZonedInUtc(d: Date, c: Clock)
    requires ValidDate(d)
    ensures Zoned(Got(Civil(d, c, 0), "Z")) == Some(UnixSeconds(d, c) * NS_PER_SECOND)
  {
  }

  lemma ParseWritten(d: Date, c: Clock)
    requires ReadableDate(d) && ValidClock(c)
    ensures ParseRfc3339(DateText(d) + ("T" + (ClockText(c) + "Z"))) == Some(UnixSeconds(d, c) * NS_PER_SECOND)
  {
    CivilWritten(d, c, "Z");
    ZonedInUtc(d, c);
  }

  lemma LegacyRefusedByCurrent(d: Date, rest: string)
    requires ReadableDate(d) && rest != "" && rest[0] != 'T'
    ensures ParseRfc3339(DateText(d) + rest) == None
  {
    ReadDateText(d, rest);
  }

  lemma ParseWrittenLegacy(d: Date, c: Clock)
    requires ReadableDate(d) && ValidClock(c)
    ensures ParseLegacy(DateText(d) + (" " + ClockText(c)))
            == Some(UnixSeconds(d, c) * NS_PER_SECOND)
  {
    var rest := " " + ClockText(c);
    ReadDateText(d, rest);
    ReadSpacedClock(c, rest);
    LegacyOf(DateText(d) + rest, d, rest, c);
  }

  lemma ReadSpacedClock(c: Clock, rest: string)
    requires ValidClock(c) && rest == " " + ClockText(c)
    ensures ReadClock(SkipSpaces(rest)) == Got(c, "")
  {
    ClockStarts(c);
    SkipOneSpace(ClockText(c));
    assert ClockText(c) + "" == ClockText(c);
    ReadClockText(c, "");
  }

  /** The legacy parser on a text whose date and clock are known. */
  lemma LegacyOf(s: string, d: Date, rest: string, c: Clock)
    requires ReadDate(s) == Got(d, rest) && rest != "" && rest[0] == ' '
    requires ReadClock(SkipSpaces(rest)) == Got(c, "")
    ensures ParseLegacy(s) == Some(UnixSeconds(d, c) * NS_PER_SECOND)
  {
    assert ReadFraction("") == (0, "");
  }

  lemma ParseFails(d: Date, rest: string)
    requires d.year < 0 || d.year >= 10_000
    ensures ParseRfc3339(DateText(d) + rest) == None
    ensures ParseLegacy(DateText(d) + rest) == None
  {
    ReadDateTextFails(d, rest);
  }

  lemma ParseDateAndClock(d: Date, c: Clock)
    requires ValidDate(d) && ValidClock(c)
    ensures ParseExpired(DateText(d) + ("T" + (ClockText(c) + "Z")))
            == if ReadableDate(d) then Some(UnixSeconds(d, c) * NS_PER_SECOND) else None
    ensures ParseRfc3339(DateText(d) + (" " + ClockText(c))) == None
    ensures ParseExpired(DateText(d) + (" " + ClockText(c)))
            == if ReadableDate(d) then Some(UnixSeconds(d, c) * NS_PER_SECOND) else None
  {
    if ReadableDate(d) {
      ParseWritten(d, c);
      LegacyRefusedByCurrent(d, " " + ClockText(c));
      ParseWrittenLegacy(d, c);
    } else {
      ParseFails(d, "T" + (ClockText(c) + "Z"));
      ParseFails(d, " " + ClockText(c));
    }
  }

  /** The stamp written at publish parses to the deadline without its fraction of a second,
      exactly for the years 0 to 9999; the stamp of any other year does not parse at all. */
  lemma StampRoundTrip(instant: int)
    ensures ParseExpired(FormatRfc3339(instant))
            == if WritableYear(instant) then Some(WholeSecond(instant)) else None
  {
    CivilRoundTrip(instant);
    ParseDateAndClock(DateAt(instant), ClockAt(instant));
  }

  /** A stamp in the legacy layout is refused by the current layout, and the fallback reads the
      instant it prints. */
  lemma LegacyRoundTrip(instant: int)
    ensures ParseRfc3339(FormatLegacy(instant)) == None
    ensures ParseExpired(FormatLegacy(instant))
            == if WritableYear(instant) then Some(WholeSecond(instant)) else None
  {
    CivilRoundTrip(instant);
    ParseDateAndClock(DateAt(instant), ClockAt(instant));
  }

  lemma SkipOneSpace(text: string)
    requires text != "" && text[0] != ' '
    ensures SkipSpaces(" " + text) == text
  {
    assert (" " + text)[1..] == text;
  }

  lemma ClockStarts(c: Clock)
    requires ValidClock(c)
    ensures ClockText(c) != "" && IsDigit(ClockText(c)[0])
  {
    PadDigits(c.hour, 2);
    assert ClockText(c)[0] == AppendInt(c.hour, 2)[0];
  }

  /** No text is read by both layouts. */
  lemma LayoutsDisjoint(s: string)
    ensures ParseRfc3339(s) == None || ParseLegacy(s) == None
  {
  }

  /** Once a header is expired it stays expired. */
  lemma ExpiryIsMonotone(stamp: string, now: int, later: int)
    requires now <= later && IsExpired(stamp, now)
    ensures IsExpired(stamp, later)
  {
  }

  /** When the header written for a deadline counts as expired: at the first nanosecond past the
      whole second of the deadline, or at once when the year cannot be written. */
  lemma WhenStampExpires(deadline: int, now: int)
    ensures IsExpired(FormatRfc3339(deadline), now)
            <==> !WritableYear(deadline) || now > WholeSecond(deadline)
    ensures now > deadline ==> IsExpired(FormatRfc3339(deadline), now)
  {
    StampRoundTrip(deadline);
    assert FormatRfc3339(deadline) != "";
  }

  /** The same for a header in the legacy layout. */
  lemma WhenLegacyExpires(deadline: int, now: int)
    ensures IsExpired(FormatLegacy(deadline), now) <==> !WritableYear(deadline) || now > WholeSecond(deadline)
  {
    LegacyRoundTrip(deadline);
    assert FormatLegacy(deadline) != "";
  }

  predicate StampOf(stamp: string, deadline: int) {
    stamp == FormatRfc3339(deadline)
  }

  lemma PastItsDeadline(stamp: string, deadline: int, now: int)
    requires StampOf(stamp, deadline) && now > deadline
    ensures IsExpired(stamp, now)
  {
    WhenStampExpires(deadline, now);
  }

  lemma ExpiredAfterStamp(stamp: string, deadline: int, now: int)
    requires StampOf(stamp, deadline)
    ensures stamp != "" && (IsExpired(stamp, now) <==> !WritableYear(deadline) || now > WholeSecond(deadline))
  {
    WhenStampExpires(deadline, now);
    assert FormatRfc3339(deadline) != "";
  }
}
