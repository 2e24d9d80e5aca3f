/** ledger.Timestamp: instants printed as RFC 3339 UTC strings to whole seconds and parsed back.
    An instant is a number of nanoseconds since 1970-01-01T00:00:00Z. */
module Timestamp {
  import opened Wrappers
  import opened Digits

  /** Days from 0001-01-01 to 1970-01-01. */
  const EPOCH_DAYS := 719162

  /** Whole seconds since the epoch. */
  function Seconds(t: int): int {
    t / 1_000_000_000
  }

  /** The instant cut down to its second, which is all the printed form keeps. */
  function Truncated(t: int): int {
    Seconds(t) * 1_000_000_000
  }

  lemma TruncatedFacts(t: int, u: int)
    ensures Truncated(Truncated(t)) == Truncated(t) <= t
    ensures t <= u ==> Truncated(t) <= Truncated(u)
  {}

  // ---- the calendar ----

  predicate IsLeap(y: int) {
    y % 4 == 0 && (y % 100 != 0 || y % 400 == 0)
  }

  /** Days from 0001-01-01 to January 1st of year `y` (negative for earlier years). */
  function DaysBeforeYear(y: int): int {
    var p := y - 1;
    365 * p + p / 4 - p / 100 + p / 400
  }

  function DaysIn(m: nat, leap: bool): nat
    requires 1 <= m <= 12
  {
    if m == 2 then (if leap then 29 else 28)
    else if m == 4 || m == 6 || m == 9 || m == 11 then 30
    else 31
  }

  function DaysBeforeMonth(m: nat, leap: bool): nat
    requires 1 <= m <= 12
  {
    [0, 31, 59, 90, 120, 151, 181, 212, 243, 273, 304, 334][m - 1] + (if leap && m > 2 then 1 else 0)
  }

  datatype Date = Date(year: int, month: nat, day: nat) {
    /** A day that exists in the proleptic Gregorian calendar. */
    predicate Valid() {
      1 <= month <= 12 && 1 <= day <= DaysIn(month, IsLeap(year))
    }

    /** Days from 0001-01-01. */
    function Days(): int
      requires Valid()
    {
      DaysBeforeYear(year) + DaysBeforeMonth(month, IsLeap(year)) + day - 1
    }
  }

  /** Year and day of the year, by cycles of 400, 100, 4 and 1 years; the last century of a
      400-year cycle and the last year of a 4-year cycle are a day longer. */
  function YearAndDay(days: int): (int, int) {
    var n400 := days / 146097;
    var d400 := days % 146097;
    var n100 := d400 / 36524 - d400 / 36524 / 4;
    var d100 := d400 - 36524 * n100;
    var n4 := d100 / 1461;
    var d4 := d100 - 1461 * n4;
    var n1 := d4 / 365 - d4 / 365 / 4;
    (400 * n400 + 100 * n100 + 4 * n4 + n1 + 1, d4 - 365 * n1)
  }

  /** The same cycles as linear facts. */
  lemma CycleParts(days: int)
    returns (n400: int, n100: int, n4: int, n1: int, d: int)
    ensures YearAndDay(days) == (400 * n400 + 100 * n100 + 4 * n4 + n1 + 1, d)
    ensures days == 146097 * n400 + 36524 * n100 + 1461 * n4 + 365 * n1 + d
    ensures 0 <= n100 <= 3 && 0 <= n4 <= 24 && 0 <= n1 <= 3 && 0 <= d <= 365
    ensures d == 365 ==> n1 == 3 && (n4 != 24 || n100 == 3)
  {
    n400 := days / 146097;
    var d400 := days % 146097;
    n100 := d400 / 36524 - d400 / 36524 / 4;
    var d100 := d400 - 36524 * n100;
    assert 0 <= n100 <= 3 && 0 <= d100 <= 36524 && (d100 == 36524 ==> n100 == 3);
    n4, n1, d := YearInCentury(d100);
  }

  lemma YearInCentury(d100: int) returns (n4: int, n1: int, d: int)
    requires 0 <= d100 <= 36524
    ensures n4 == d100 / 1461
    ensures var d4 := d100 - 1461 * n4; n1 == d4 / 365 - d4 / 365 / 4 && d == d4 - 365 * n1
    ensures 0 <= n4 <= 24 && 0 <= n1 <= 3 && 0 <= d <= 365
    ensures d == 365 ==> n1 == 3 && (n4 != 24 || d100 == 36524)
  {
    n4 := d100 / 1461;
    var d4 := d100 - 1461 * n4;
    n1 := d4 / 365 - d4 / 365 / 4;
    d := d4 - 365 * n1;
  }

  lemma LeapYearsInCycles(n400: int, n100: int, n4: int, n1: int)
    requires 0 <= n100 <= 3 && 0 <= n4 <= 24 && 0 <= n1 <= 3
    ensures DaysBeforeYear(400 * n400 + 100 * n100 + 4 * n4 + n1 + 1)
         == 146097 * n400 + 36524 * n100 + 1461 * n4 + 365 * n1
    ensures n1 == 3 && (n4 != 24 || n100 == 3) ==> IsLeap(400 * n400 + 100 * n100 + 4 * n4 + n1 + 1)
  {
    var p := 400 * n400 + 100 * n100 + 4 * n4 + n1;
    QuotientBy4(p, 100 * n400 + 25 * n100 + n4);
    QuotientBy100(p, 4 * n400 + n100);
    QuotientBy400(p, n400);
    if n1 == 3 && n4 == 24 && n100 == 3 {
      QuotientBy4(p + 1, 100 * (n400 + 1));
      QuotientBy400(p + 1, n400 + 1);
    } else if n1 == 3 && n4 != 24 {
      QuotientBy4(p + 1, 100 * n400 + 25 * n100 + n4 + 1);
      QuotientBy100(p + 1, 4 * n400 + n100);
    }
  }

  lemma QuotientBy4(p: int, q: int)
    requires 4 * q <= p < 4 * q + 4
    ensures p / 4 == q && p % 4 == p - 4 * q
  {}

  lemma QuotientBy100(p: int, q: int)
    requires 100 * q <= p < 100 * q + 100
    ensures p / 100 == q && p % 100 == p - 100 * q
  {}

  lemma QuotientBy400(p: int, q: int)
    requires 400 * q <= p < 400 * q + 400
    ensures p / 400 == q && p % 400 == p - 400 * q
  {}

  lemma YearAndDayCorrect(days: int)
    ensures var (y, d) := YearAndDay(days);
            && DaysBeforeYear(y) + d == days
            && 0 <= d <= 365
            && (d == 365 ==> IsLeap(y))
  {
    var n400, n100, n4, n1, d := CycleParts(days);
    LeapYearsInCycles(n400, n100, n4, n1);
  }

  /** The month holding day `d` of the year, searched upwards from `m`. */
  function MonthFrom(m: nat, d: nat, leap: bool): (r: nat)
    requires 1 <= m <= 12 && DaysBeforeMonth(m, leap) <= d < 365 + (if leap then 1 else 0)
    ensures m <= r <= 12
    ensures DaysBeforeMonth(r, leap) <= d < DaysBeforeMonth(r, leap) + DaysIn(r, leap)
    decreases 12 - m
  {
    if d < DaysBeforeMonth(m, leap) + DaysIn(m, leap) then m
    else
      MonthFrom(m + 1, d, leap)
  }

  function DateOf(days: int): (c: Date)
    ensures c.Valid() && c.Days() == days
  {
    YearAndDayCorrect(days);
    var (y, d) := YearAndDay(days);
    var m := MonthFrom(1, d, IsLeap(y));
    Date(y, m, d - DaysBeforeMonth(m, IsLeap(y)) + 1)
  }

  // ---- printing ----

  function TwoDigits(n: nat): string
    requires n < 100
  {
    [DigitChar(n / 10), DigitChar(n % 10)]
  }

  /** Go prints years in four digits, more when they do not fit, and a sign before year zero. */
  function YearText(y: int): string {
    (if y < 0 then "-" else "") +
    (var n := if y < 0 then -y else y;
     if n > 9999 then Text(n, 10) else TwoDigits(n / 100) + TwoDigits(n % 100))
  }

  /** The layout "2006-01-02T15:04:05Z" on a date and a second of that day. */
  function Render(c: Date, s: nat): string
    requires c.Valid() && s < 86_400
  {
    YearText(c.year) + "-" + TwoDigits(c.month) + "-" + TwoDigits(c.day) + "T" + TwoDigits(s / 3600) + ":" +
    TwoDigits(s / 60 % 60) + ":" + TwoDigits(s % 60) + "Z"
  }

  function FormatSeconds(seconds: int): string {
    Render(DateOf(seconds / 86_400 + EPOCH_DAYS), seconds % 86_400)
  }

  /** `time.Time(t).UTC().Format("2006-01-02T15:04:05Z")` */
  function FormatTimestamp(t: int): string {
    FormatSeconds(Seconds(t))
  }

  // ---- parsing: the date-time production of section 5.6 of RFC 3339 ----

  /** Two decimal digits at position `i`. */
  function Pair(s: string, i: nat): Option<nat>
    requires i + 2 <= |s|
  {
    if IsDecimal(s[i]) && IsDecimal(s[i + 1])
    then Some((s[i] as int - '0' as int) * 10 + (s[i + 1] as int - '0' as int))
    else None
  }

  function DigitRun(s: string): (n: nat)
    ensures n <= |s|
  {
    if s == "" || !IsDecimal(s[0]) then 0 else 1 + DigitRun(s[1..])
  }

  function Power10(k: nat): nat {
    if k == 0 then 1 else 10 * Power10(k - 1)
  }

  /** Nanoseconds of a fraction's digits; digits past the ninth are dropped. */
  function FractionNanos(digits: string): Option<nat> {
    var kept := if |digits| > 9 then digits[..9] else digits;
    var v :- Value(kept, 10);
    Some(v * Power10(9 - |kept|))
  }

  /** The zone: "Z", or a signed hh:mm, in seconds east of UTC. Offsets up to 24:60 pass. */
  function Zone(s: string): Option<int> {
    if s == "Z" then Some(0)
    else if |s| == 6 && (s[0] == '+' || s[0] == '-') && s[3] == ':' then
      var h :- Pair(s, 1);
      var m :- Pair(s, 4);
      if h > 24 || m > 60 then None
      else
        var offset: int := h * 3600 + m * 60;
        Some(if s[0] == '+' then offset else -offset)
    else None
  }

  /** The fraction and zone that follow the seconds: (nanoseconds, offset). */
  function FractionAndZone(s: string): Option<(nat, int)> {
    if |s| >= 2 && s[0] == '.' && IsDecimal(s[1]) then
      var n := DigitRun(s[1..]);
      var nanos :- FractionNanos(s[1..1 + n]);
      var offset :- Zone(s[1 + n..]);
      Some((nanos, offset))
    else
      var offset :- Zone(s);
      Some((0, offset))
  }

  /** The instant a number of seconds into a day. */
  function InstantOf(days: int, seconds: int): int {
    ((days - EPOCH_DAYS) * 86_400 + seconds) * 1_000_000_000
  }

  /** `time.Parse(time.RFC3339, s)` in UTC. */
  function ParseTimestamp(s: string): Option<int> {
    if |s| < 20 || s[4] != '-' || s[7] != '-' || s[10] != 'T' || s[13] != ':' || s[16] != ':' then None
    else
      var century :- Pair(s, 0);
      var yy :- Pair(s, 2);
      var month :- Pair(s, 5);
      var day :- Pair(s, 8);
      var hour :- Pair(s, 11);
      var minute :- Pair(s, 14);
      var second :- Pair(s, 17);
      var (nanos, offset) :- FractionAndZone(s[19..]);
      var c := Date(century * 100 + yy, month, day);
      if !c.Valid() || hour > 23 || minute > 59 || second > 59 then None
      else
        Some(InstantOf(c.Days(), hour * 3600 + minute * 60 + second - offset) + nanos)
  }

  // ---- the round trip ----

  /** Instants whose UTC year has four digits: 0000-01-01T00:00:00Z up to, but not including,
      10000-01-01T00:00:00Z. */
  const MIN_INSTANT := (-366 - EPOCH_DAYS) * 86_400 * 1_000_000_000
  const MAX_INSTANT := (3652059 - EPOCH_DAYS) * 86_400 * 1_000_000_000

  predicate InRange(t: int) { MIN_INSTANT <= t < MAX_INSTANT }

  lemma {:induction false} PairOfTwoDigits(n: nat, s: string, i: nat)
    requires n < 100 && i + 2 <= |s| && s[i..i + 2] == TwoDigits(n)
    ensures Pair(s, i) == Some(n)
  {
    DigitCharValue(n / 10);
    DigitCharValue(n % 10);
    assert s[i] == s[i..i + 2][0] && s[i + 1] == s[i..i + 2][1];
  }

  lemma YearStarts(y: int)
    ensures y < 0 ==> DaysBeforeYear(y + 1) <= -366
    ensures y <= 9999 ==> DaysBeforeYear(y + 1) <= 3652059
    ensures y >= 0 ==> DaysBeforeYear(y) >= -366
    ensures y > 9999 ==> DaysBeforeYear(y) >= 3652059
  {
    assert DaysBeforeYear(0) == -366 && DaysBeforeYear(10000) == 3652059;
    if y < 0 {
      YearsOrdered(y + 1, 0);
    } else {
      YearsOrdered(0, y);
    }
    if y <= 9999 {
      YearsOrdered(y + 1, 10000);
    } else {
      YearsOrdered(10000, y);
    }
  }

  lemma YearsOrdered(a: int, b: int)
    requires a <= b
    ensures DaysBeforeYear(a) <= DaysBeforeYear(b)
  {
    var p, q := a - 1, b - 1;
    assert q / 4 >= p / 4 && q / 400 >= p / 400 && q / 100 - p / 100 <= q - p;
  }

  lemma DayFitsInYear(c: Date)
    requires c.Valid()
    ensures DaysBeforeYear(c.year) <= c.Days() < DaysBeforeYear(c.year + 1)
  {
    LeapYearIsLonger(c.year);
  }

  lemma LeapYearIsLonger(y: int)
    ensures DaysBeforeYear(y + 1) == DaysBeforeYear(y) + 365 + (if IsLeap(y) then 1 else 0)
  {
    StepQuotient4(y);
    StepQuotient100(y);
    StepQuotient400(y);
  }

  lemma StepQuotient4(y: int)
    ensures y / 4 == (y - 1) / 4 + (if y % 4 == 0 then 1 else 0)
  {}

  lemma StepQuotient100(y: int)
    ensures y / 100 == (y - 1) / 100 + (if y % 100 == 0 then 1 else 0)
    ensures y % 100 == 0 ==> y % 4 == 0
  {}

  lemma StepQuotient400(y: int)
    ensures y / 400 == (y - 1) / 400 + (if y % 400 == 0 then 1 else 0)
    ensures y % 400 == 0 ==> y % 100 == 0
  {}

  /** Four-digit years are exactly the instants in range. */
  lemma FourDigitYear(seconds: int, c: Date, s: nat)
    requires c.Valid() && s < 86_400
    requires seconds == (c.Days() - EPOCH_DAYS) * 86_400 + s
    ensures InRange(seconds * 1_000_000_000) <==> 0 <= c.year <= 9999
  {
    DayFitsInYear(c);
    YearStarts(c.year);
    var d := c.Days();
    assert InRange(seconds * 1_000_000_000) <==> -366 <= d < 3652059;
  }

  lemma MonthsOrdered(m: nat, n: nat, leap: bool)
    requires 1 <= m < n <= 12
    ensures DaysBeforeMonth(m, leap) + DaysIn(m, leap) <= DaysBeforeMonth(n, leap)
  {}

  /** No two dates have the same day number. */
  lemma OneDateADay(c: Date, d: Date)
    requires c.Valid() && d.Valid() && c.Days() == d.Days()
    ensures c == d
  {
    DayFitsInYear(c);
    DayFitsInYear(d);
    if c.year < d.year {
      YearsOrdered(c.year + 1, d.year);
    } else if d.year < c.year {
      YearsOrdered(d.year + 1, c.year);
    }
    if c.month < d.month {
      MonthsOrdered(c.month, d.month, IsLeap(c.year));
    } else if d.month < c.month {
      MonthsOrdered(d.month, c.month, IsLeap(c.year));
    }
  }

  /** The day of instant 0 is the first of January 1970. */
  lemma EpochDay(days: int)
    requires days == EPOCH_DAYS
    ensures DateOf(days) == Date(1970, 1, 1)
  {
    OneDateADay(DateOf(days), Date(1970, 1, 1));
  }

  /** Printing keeps the second and drops the rest; reading it back yields the truncated
      instant. This holds for every instant whose year has four digits, and for no other: a
      five-digit or negative year prints a string the parser rejects. */
  lemma TimestampRoundTrip(t: int)
    ensures ParseTimestamp(FormatTimestamp(t)) == if InRange(t) then Some(Truncated(t)) else None
  {
    TruncatedInRange(t);
    SecondsRoundTrip(Seconds(t));
  }

  lemma SecondsRoundTrip(seconds: int)
    ensures ParseTimestamp(FormatSeconds(seconds)) ==
            if InRange(seconds * 1_000_000_000) then Some(seconds * 1_000_000_000) else None
  {
    var c, s := DateReadBack(seconds);
    FourDigitYear(seconds, c, s);
  }

  lemma DateReadBack(seconds: int) returns (c: Date, s: nat)
    ensures c.Valid() && s < 86_400
    ensures seconds == (c.Days() - EPOCH_DAYS) * 86_400 + s
    ensures ParseTimestamp(FormatSeconds(seconds)) ==
            if 0 <= c.year <= 9999 then Some(seconds * 1_000_000_000) else None
  {
    c, s := DateOf(seconds / 86_400 + EPOCH_DAYS), seconds % 86_400;
    RenderedRoundTrip(c, s, seconds);
  }

  lemma RenderedRoundTrip(c: Date, s: nat, seconds: int)
    requires c.Valid() && s < 86_400
    requires seconds == (c.Days() - EPOCH_DAYS) * 86_400 + s
    ensures ParseTimestamp(Render(c, s)) ==
            if 0 <= c.year <= 9999 then Some(seconds * 1_000_000_000) else None
  {
    if 0 <= c.year <= 9999 {
      FourDigitReadBack(c, s);
      InstantOfSeconds(c.Days(), s, seconds);
    } else {
      RejectedYear(c, s);
    }
  }

  lemma FourDigitReadBack(c: Date, s: nat)
    requires c.Valid() && s < 86_400 && 0 <= c.year <= 9999
    ensures ParseTimestamp(Render(c, s)) == Some(InstantOf(c.Days(), s))
  {
    RenderedFields(c, s);
    ClockParts(s);
    var h, m, sec := s / 3600, s / 60 % 60, s % 60;
    ParsedFields(Render(c, s), c, c.year / 100, c.year % 100, h, m, sec);
    assert h * 3600 + m * 60 + sec == s;
  }

  lemma InstantOfSeconds(days: int, s: int, seconds: int)
    requires seconds == (days - EPOCH_DAYS) * 86_400 + s
    ensures InstantOf(days, s) == seconds * 1_000_000_000
  {}

  lemma RejectedYear(c: Date, s: nat)
    requires c.Valid() && s < 86_400 && !(0 <= c.year <= 9999)
    ensures ParseTimestamp(Render(c, s)).None?
  {
    var text := Render(c, s);
    if c.year < 0 {
      assert text[0] == '-';
    } else {
      LongYear(c.year);
      assert text[4] == YearText(c.year)[4];
    }
  }

  lemma ParsedFields(text: string, c: Date, century: nat, yy: nat, hour: nat, minute: nat, second: nat)
    requires c.Valid() && c.year == century * 100 + yy
    requires hour <= 23 && minute <= 59 && second <= 59
    requires |text| == 20 && text[19..] == "Z"
    requires text[4] == '-' && text[7] == '-' && text[10] == 'T' && text[13] == ':' && text[16] == ':'
    requires Pair(text, 0) == Some(century) && Pair(text, 2) == Some(yy)
    requires Pair(text, 5) == Some(c.month) && Pair(text, 8) == Some(c.day)
    requires Pair(text, 11) == Some(hour) && Pair(text, 14) == Some(minute) && Pair(text, 17) == Some(second)
    ensures ParseTimestamp(text) == Some(InstantOf(c.Days(), hour * 3600 + minute * 60 + second))
  {
    assert FractionAndZone("Z") == Some((0, 0));
    assert Date(century * 100 + yy, c.month, c.day) == c;
  }

  lemma ClockParts(s: nat)
    requires s < 86_400
    ensures s / 3600 <= 23 && s / 3600 * 3600 + s / 60 % 60 * 60 + s % 60 == s
  {}

  lemma LongYear(y: int)
    requires y > 9999
    ensures |YearText(y)| >= 5 && YearText(y)[4] != '-'
  {
    assert |Text(y, 10)| >= 5 by {
      var y1 := y / 10;
      var y2 := y1 / 10;
      var y3 := y2 / 10;
      assert |Text(y3, 10)| >= 2;
      assert |Text(y2, 10)| >= 3;
      assert |Text(y1, 10)| >= 4;
    }
    TextIsCanonical(y, 10);
  }

  lemma RenderedFields(c: Date, s: nat)
    requires c.Valid() && s < 86_400 && 0 <= c.year <= 9999
    ensures var text := Render(c, s);
            && |text| == 20
            && text[4] == '-' && text[7] == '-' && text[10] == 'T' && text[13] == ':' && text[16] == ':'
            && text[19..] == "Z"
            && Pair(text, 0) == Some(c.year / 100) && Pair(text, 2) == Some(c.year % 100)
            && Pair(text, 5) == Some(c.month) && Pair(text, 8) == Some(c.day)
            && Pair(text, 11) == Some(s / 3600) && Pair(text, 14) == Some(s / 60 % 60)
            && Pair(text, 17) == Some(s % 60)
  {
    ClockParts(s);
    assert YearText(c.year) == TwoDigits(c.year / 100) + TwoDigits(c.year % 100);
    Layout(TwoDigits(c.year / 100), TwoDigits(c.year % 100), TwoDigits(c.month), TwoDigits(c.day),
           TwoDigits(s / 3600), TwoDigits(s / 60 % 60), TwoDigits(s % 60), Render(c, s));
    PairOfTwoDigits(c.year / 100, Render(c, s), 0);
    PairOfTwoDigits(c.year % 100, Render(c, s), 2);
    PairOfTwoDigits(c.month, Render(c, s), 5);
    PairOfTwoDigits(c.day, Render(c, s), 8);
    PairOfTwoDigits(s / 3600, Render(c, s), 11);
    PairOfTwoDigits(s / 60 % 60, Render(c, s), 14);
    PairOfTwoDigits(s % 60, Render(c, s), 17);
  }

  lemma Layout(a: string, b: string, c: string, d: string, e: string, f: string, g: string, text: string)
    requires |a| == |b| == |c| == |d| == |e| == |f| == |g| == 2
    requires text == a + b + "-" + c + "-" + d + "T" + e + ":" + f + ":" + g + "Z"
    ensures |text| == 20
    ensures text[4] == '-' && text[7] == '-' && text[10] == 'T' && text[13] == ':' && text[16] == ':'
    ensures text[0..2] == a && text[2..4] == b && text[5..7] == c && text[8..10] == d
    ensures text[11..13] == e && text[14..16] == f && text[17..19] == g && text[19..] == "Z"
  {
    assert text[0..2] == a && text[2..4] == b;
    assert text[5..7] == c && text[8..10] == d;
    assert text[11..13] == e;
    assert text[14] == f[0] && text[15] == f[1];
    assert text[17] == g[0] && text[18] == g[1];
    assert text[14..16] == f && text[17..19] == g;
  }

  lemma SecondsOfTruncated(t: int)
    ensures Seconds(Truncated(t)) == Seconds(t)
  {
    var s := Seconds(t);
    assert s * 1_000_000_000 / 1_000_000_000 == s;
  }

  lemma TruncatedInRange(t: int)
    ensures InRange(t) <==> InRange(Truncated(t))
  {
    TruncatedFacts(t, t);
  }

  /** Truncation changes nothing that is printed. */
  lemma FormatOfTruncated(t: int)
    ensures FormatTimestamp(Truncated(t)) == FormatTimestamp(t)
  {
    SecondsOfTruncated(t);
    var a, b := Seconds(Truncated(t)), Seconds(t);
    assert FormatSeconds(a) == FormatSeconds(b);
  }
}
