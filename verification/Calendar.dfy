/**
 Instants and the RFC 3339 text of one, section 5.6: whole seconds since 1970 in UTC, the
 civil date of a day, and the text the queue marker carries. Years have four digits.
 */
module Calendar {
  import opened Common

  // ---- Civil dates ------------------------------------------------------------------------------

  predicate IsLeap(y: int) { y % 4 == 0 && (y % 100 != 0 || y % 400 == 0) }

  function YearLength(y: int): int { if IsLeap(y) then 366 else 365 }

  /** The day number of the first day of a year; day 0 is the first of 1970. */
  function YearStart(y: nat): int
    decreases if y < 1970 then 1970 - y else y - 1970
  {
    if y == 1970 then 0
    else if y > 1970 then YearStart(y - 1) + YearLength(y - 1)
    else YearStart(y + 1) - YearLength(y)
  }

  lemma YearStartNext(y: nat)
    ensures YearStart(y + 1) == YearStart(y) + YearLength(y)
  {
  }

  /** The days of a year before its m-th month. */
  function DaysBefore(y: nat, m: nat): int
    requires 1 <= m <= 13
  {
    var feb := if IsLeap(y) then 1 else 0;
    match m
    case 1 => 0
    case 2 => 31
    case 3 => 59 + feb
    case 4 => 90 + feb
    case 5 => 120 + feb
    case 6 => 151 + feb
    case 7 => 181 + feb
    case 8 => 212 + feb
    case 9 => 243 + feb
    case 10 => 273 + feb
    case 11 => 304 + feb
    case 12 => 334 + feb
    case 13 => 365 + feb
  }

  datatype Date = Date(year: nat, month: nat, day: nat)

  predicate IsDate(d: Date) {
    && d.year < 10000 && 1 <= d.month <= 12
    && 1 <= d.day <= DaysBefore(d.year, d.month + 1) - DaysBefore(d.year, d.month)
  }

  function DayNumber(d: Date): int
    requires 1 <= d.month <= 12
  {
    YearStart(d.year) + DaysBefore(d.year, d.month) + d.day - 1
  }

  predicate DayFits(n: int) { YearStart(0) <= n < YearStart(10000) }

  function YearFrom(y: nat, n: int): (r: nat)
    requires y < 10000 && YearStart(y) <= n < YearStart(10000)
    ensures r < 10000 && YearStart(r) <= n < YearStart(r + 1)
    decreases 10000 - y
  {
    if n < YearStart(y + 1) then y else YearFrom(y + 1, n)
  }

  function MonthFrom(y: nat, m: nat, k: int): (r: nat)
    requires 1 <= m <= 12 && DaysBefore(y, m) <= k < YearLength(y)
    ensures m <= r <= 12 && DaysBefore(y, r) <= k < DaysBefore(y, r + 1)
    decreases 12 - m
  {
    if k < DaysBefore(y, m + 1) then m else MonthFrom(y, m + 1, k)
  }

  /** The date of a day: the one whose year and month contain it. */
  function DateOf(n: int): (d: Date)
    requires DayFits(n)
    ensures IsDate(d) && DayNumber(d) == n
  {
    var y := YearFrom(0, n);
    YearStartNext(y);
    var k := n - YearStart(y);
    var m := MonthFrom(y, 1, k);
    Date(y, m, k - DaysBefore(y, m) + 1)
  }

  // ---- Text ---------------------------------------------------------------------------------------

  function Digit(d: nat): char
    requires d < 10
  {
    "0123456789"[d]
  }

  function ValueOf(c: char): Option<nat> { if '0' <= c <= '9' then Some((c as int - '0' as int) as nat) else None }

  lemma DigitValue(d: nat)
    requires d < 10
    ensures ValueOf(Digit(d)) == Some(d) && Digit(d) != ' '
  {
  }

  /** n as exactly w digits. */
  function Pad(n: nat, w: nat): (s: string)
    ensures |s| == w && forall i :: 0 <= i < |s| ==> '0' <= s[i] <= '9'
    decreases w
  {
    if w == 0 then "" else Pad(n / 10, w - 1) + [Digit(n % 10)]
  }

  function ParseDigits(s: string): Option<nat>
    decreases |s|
  {
    if s == [] then Some(0) else
    match (ParseDigits(s[..|s| - 1]), ValueOf(s[|s| - 1]))
    case (Some(v), Some(d)) => Some(10 * v + d)
    case _ => None
  }

  function Power(w: nat): nat { if w == 0 then 1 else 10 * Power(w - 1) }

  lemma {:induction false} DigitsRoundTrip(n: nat, w: nat)
    requires n < Power(w)
    ensures ParseDigits(Pad(n, w)) == Some(n)
    decreases w
  {
    if w > 0 {
      DigitsRoundTrip(n / 10, w - 1);
      DigitValue(n % 10);
      var s := Pad(n, w);
      assert s[..w - 1] == Pad(n / 10, w - 1);
    }
  }

  const DAY_SECONDS := 86400

  /** An instant in whole seconds, within the years 0 to 9999. */
  predicate Fits(t: int) { DayFits(t / DAY_SECONDS) }

  /** The six numbers of an instant's text. */
  datatype Clock = Clock(date: Date, hour: nat, minute: nat, second: nat)

  function ClockOf(t: int): Clock
    requires Fits(t)
  {
    var s := t % DAY_SECONDS;
    Clock(DateOf(t / DAY_SECONDS), s / 3600, s / 60 % 60, s % 60)
  }

  predicate ClockOk(c: Clock) { IsDate(c.date) && c.hour < 24 && c.minute < 60 && c.second < 60 }

  function Instant(c: Clock): int
    requires ClockOk(c)
  {
    DayNumber(c.date) * DAY_SECONDS + c.hour * 3600 + c.minute * 60 + c.second
  }

  lemma InstantOfClock(t: int)
    requires Fits(t)
    ensures ClockOk(ClockOf(t)) && Instant(ClockOf(t)) == t
  {
    var s := t % DAY_SECONDS;
    assert s == s / 3600 * 3600 + s / 60 % 60 * 60 + s % 60 by {
      assert s / 3600 == s / 60 / 60;
    }
  }

  function DateText(d: Date): (s: string)
    ensures |s| == 10
  {
    Pad(d.year, 4) + "-" + Pad(d.month, 2) + "-" + Pad(d.day, 2)
  }

  function TimeText(c: Clock): (s: string)
    ensures |s| == 8
  {
    Pad(c.hour, 2) + ":" + Pad(c.minute, 2) + ":" + Pad(c.second, 2)
  }

  function Format(c: Clock): (s: string)
    ensures |s| == 20
  {
    DateText(c.date) + "T" + TimeText(c) + "Z"
  }

  function ParseDate(s: string): Option<Date>
    requires |s| == 10
  {
    if s[4] != '-' || s[7] != '-' then None else
    match (ParseDigits(s[..4]), ParseDigits(s[5..7]), ParseDigits(s[8..]))
    case (Some(y), Some(m), Some(d)) => Some(Date(y, m, d))
    case _ => None
  }

  function ParseTime(s: string): Option<(nat, nat, nat)>
    requires |s| == 8
  {
    if s[2] != ':' || s[5] != ':' then None else
    match (ParseDigits(s[..2]), ParseDigits(s[3..5]), ParseDigits(s[6..]))
    case (Some(h), Some(m), Some(sec)) => Some((h, m, sec))
    case _ => None
  }

  /** The instant a text in this shape names; fields out of range are refused. */
  function Parse(s: string): Option<int> {
    if |s| != 20 || s[10] != 'T' || s[19] != 'Z' then None else
    match (ParseDate(s[..10]), ParseTime(s[11..19]))
    case (Some(d), Some((h, m, sec))) =>
      var c := Clock(d, h, m, sec);
      if ClockOk(c) then Some(Instant(c)) else None
    case _ => None
  }

  lemma Parts(a: string, sep: string, b: string, c: string, i: nat, j: nat)
    requires |a| == i && |sep| == 1 && i + 1 + |b| == j
    ensures var s := a + sep + b + sep + c;
            s[i] == s[j] == sep[0] && s[..i] == a && s[i + 1..j] == b && s[j + 1..] == c
  {
  }

  lemma DateRoundTrip(d: Date)
    requires IsDate(d)
    ensures ParseDate(DateText(d)) == Some(d)
  {
    assert d.year < Power(4) && d.month < Power(2) && d.day < Power(2) by {
      assert Power(2) == 100 && Power(4) == 10000;
    }
    DigitsRoundTrip(d.year, 4);
    DigitsRoundTrip(d.month, 2);
    DigitsRoundTrip(d.day, 2);
    ParseDateOf(Pad(d.year, 4), Pad(d.month, 2), Pad(d.day, 2), d);
  }

  lemma ParseDateOf(y: string, m: string, d: string, date: Date)
    requires |y| == 4 && |m| == |d| == 2
    requires ParseDigits(y) == Some(date.year) && ParseDigits(m) == Some(date.month) && ParseDigits(d) == Some(date.day)
    ensures ParseDate(y + "-" + m + "-" + d) == Some(date)
  {
    Parts(y, "-", m, d, 4, 7);
  }

  lemma TimeRoundTrip(c: Clock)
    requires ClockOk(c)
    ensures ParseTime(TimeText(c)) == Some((c.hour, c.minute, c.second))
  {
    assert c.hour < Power(2) && c.minute < Power(2) && c.second < Power(2) by { assert Power(2) == 100; }
    DigitsRoundTrip(c.hour, 2);
    DigitsRoundTrip(c.minute, 2);
    DigitsRoundTrip(c.second, 2);
    ParseTimeOf(Pad(c.hour, 2), Pad(c.minute, 2), Pad(c.second, 2), c);
  }

  lemma ParseTimeOf(h: string, m: string, s: string, c: Clock)
    requires |h| == |m| == |s| == 2
    requires ParseDigits(h) == Some(c.hour) && ParseDigits(m) == Some(c.minute) && ParseDigits(s) == Some(c.second)
    ensures ParseTime(h + ":" + m + ":" + s) == Some((c.hour, c.minute, c.second))
  {
    Parts(h, ":", m, s, 2, 5);
  }

  /** Formatting an instant and parsing it back gives the instant. */
  lemma TextRoundTrip(t: int)
    requires Fits(t)
    ensures Parse(Format(ClockOf(t))) == Some(t)
  {
    var c := ClockOf(t);
    InstantOfClock(t);
    DateRoundTrip(c.date);
    TimeRoundTrip(c);
    ParseHalves(DateText(c.date), TimeText(c), c);
  }

  lemma ParseHalves(d: string, h: string, c: Clock)
    requires |d| == 10 && |h| == 8 && ClockOk(c)
    requires ParseDate(d) == Some(c.date) && ParseTime(h) == Some((c.hour, c.minute, c.second))
    ensures Parse(d + "T" + h + "Z") == Some(Instant(c))
  {
    var s := d + "T" + h + "Z";
    assert s[..10] == d && s[11..19] == h;
  }

  lemma FormatHasNoSpace(c: Clock)
    ensures ' ' !in Format(c)
  {
    PadIsDigits(c.date.year, 4);
    PadIsDigits(c.date.month, 2);
    PadIsDigits(c.date.day, 2);
    PadIsDigits(c.hour, 2);
    PadIsDigits(c.minute, 2);
    PadIsDigits(c.second, 2);
    assert ' ' !in DateText(c.date);
    assert ' ' !in TimeText(c);
  }

  lemma PadIsDigits(n: nat, w: nat)
    ensures ' ' !in Pad(n, w)
  {
    var s := Pad(n, w);
    assert forall i :: 0 <= i < |s| ==> s[i] != ' ';
  }
}
