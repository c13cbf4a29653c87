/** The timestamp normaliser of the analytics: `parseTimeToHours` reads a 12-hour clock time
    such as "10:30 AM" as fractional hours since midnight, falling back to noon, and
    `toTimestamp` adds those hours to the midnight of an entry's date. Hours and instants are
    exact rationals. */
module TimeOfDay {
  import opened Options
  import opened Text
  import opened Entries

  const MsPerHour: int := 3600000

  /** What the groups of `/(\d+):(\d+)\s*(AM|PM)/i` capture, as `parseInt` reads them. */
  datatype TimeMatch = TimeMatch(hours: nat, minutes: nat, isPM: bool)

  /** The length of the run of decimal digits that starts at `i`. */
  function DigitRun(s: string, i: nat): (n: nat)
    requires i <= |s|
    ensures i + n <= |s|
    ensures forall k :: i <= k < i + n ==> IsDigit(s[k])
    ensures i + n == |s| || !IsDigit(s[i + n])
    decreases |s| - i
  {
    if i < |s| && IsDigit(s[i]) then 1 + DigitRun(s, i + 1) else 0
  }

  /** The length of the run of whitespace that starts at `i`. */
  function SpaceRun(s: string, i: nat): (n: nat)
    requires i <= |s|
    ensures i + n <= |s|
    ensures forall k :: i <= k < i + n ==> IsSpace(s[k])
    ensures i + n == |s| || !IsSpace(s[i + n])
    decreases |s| - i
  {
    if i < |s| && IsSpace(s[i]) then 1 + SpaceRun(s, i + 1) else 0
  }

  /** `AM` or `PM` in any letter case at position `m`. */
  predicate MarkerAt(s: string, m: nat)
  {
    m + 2 <= |s| && s[m] in {'A', 'a', 'P', 'p'} && s[m + 1] in {'M', 'm'}
  }

  /** The match of the time pattern that starts exactly at `i`. Every part of the pattern is a
      greedy run followed by a character the run cannot contain, so no backtracking can yield
      another match at the same start. */
  function MatchAt(s: string, i: nat): (r: Option<TimeMatch>)
    requires i <= |s|
    ensures r.Some? ==> ':' in s[i..]
  {
    var j := i + DigitRun(s, i);
    if j == i || j >= |s| || s[j] != ':' then None
    else
      var k := j + 1 + DigitRun(s, j + 1);
      var m := k + SpaceRun(s, k);
      if k == j + 1 || !MarkerAt(s, m) then None
      else
        assert s[i..][j - i] == ':';
        Some(TimeMatch(DigitsValue(s[i..j]), DigitsValue(s[j + 1..k]), s[m] in {'P', 'p'}))
  }

  /** `timeStr.match(...)`: the leftmost match at or after `i`. */
  function FirstMatch(s: string, i: nat): (r: Option<TimeMatch>)
    requires i <= |s|
    ensures MatchAt(s, i).Some? ==> r == MatchAt(s, i)
    ensures r.Some? ==> ':' in s[i..]
    ensures r.None? ==> forall j :: i <= j <= |s| ==> MatchAt(s, j).None?
    ensures r.Some? ==> exists j :: i <= j <= |s| && MatchAt(s, j) == r && forall k :: i <= k < j ==> MatchAt(s, k).None?
    decreases |s| - i
  {
    if MatchAt(s, i).Some? then MatchAt(s, i)
    else if i == |s| then None
    else
      assert s[i + 1..] == s[i..][1..];
      FirstMatch(s, i + 1)
  }

  /** The 12-hour to 24-hour adjustment of `parseTimeToHours`. */
  function ClockHours(t: TimeMatch): (h: nat)
    ensures t.hours <= 12 ==> h < 24 && (h >= 12 <==> t.isPM)
    ensures t.hours > 12 ==> h >= t.hours
  {
    if t.isPM && t.hours != 12 then t.hours + 12
    else if !t.isPM && t.hours == 12 then 0
    else t.hours
  }

  /** `parseTimeToHours`: hours since midnight; 12 (noon) when the string holds no match. */
  function ParseTimeToHours(s: string): (r: real)
    ensures r >= 0.0
  {
    match FirstMatch(s, 0)
    case None => 12.0
    case Some(t) => ClockHours(t) as real + t.minutes as real / 60.0
  }

  /** `toTimestamp`: the instant in milliseconds, `None` when the date does not parse (`NaN`). */
  function ToTimestamp(dateStr: string, timeStr: string): (r: Option<real>)
    ensures r.Some? <==> ParseDate(dateStr).Some?
    ensures r.Some? ==> r.value >= ParseDate(dateStr).value as real
  {
    match ParseDate(dateStr)
    case None => None
    case Some(midnight) => Some(midnight as real + ParseTimeToHours(timeStr) * MsPerHour as real)
  }

  // ---------------------------------------------------------------------------------------

  /** The usual reading of a 12-hour clock: hour 12 counts as 0, PM adds 12. */
  function TwentyFourHour(hour: nat, isPM: bool): nat
  {
    hour % 12 + (if isPM then 12 else 0)
  }

  /** For clock hours 1..12 the source's branches agree with the usual reading, so a clock time
      with minutes below 60 lies in [0, 24). */
  lemma ClockHoursInDay(t: TimeMatch)
    requires 1 <= t.hours <= 12 && t.minutes < 60
    ensures ClockHours(t) == TwentyFourHour(t.hours, t.isPM)
    ensures 0.0 <= ClockHours(t) as real + t.minutes as real / 60.0 < 24.0
  {
  }

  /** A string with no colon in it has no match, so it reads as noon. */
  lemma NoColonIsNoon(s: string)
    requires ':' !in s
    ensures ParseTimeToHours(s) == 12.0
  {
    assert s[0..] == s;
  }

  /** A string in which the pattern matches nowhere reads as noon. */
  lemma NoMatchIsNoon(s: string)
    requires forall j :: 0 <= j <= |s| ==> MatchAt(s, j).None?
    ensures ParseTimeToHours(s) == 12.0
  {
  }

  lemma {:induction false} DigitRunIs(s: string, i: nat, n: nat)
    requires i + n <= |s|
    requires forall k :: i <= k < i + n ==> IsDigit(s[k])
    requires i + n == |s| || !IsDigit(s[i + n])
    ensures DigitRun(s, i) == n
    decreases n
  {
    if n > 0 {
      DigitRunIs(s, i + 1, n - 1);
    }
  }

  lemma {:induction false} SpaceRunIs(s: string, i: nat, n: nat)
    requires i + n <= |s|
    requires forall k :: i <= k < i + n ==> IsSpace(s[k])
    requires i + n == |s| || !IsSpace(s[i + n])
    ensures SpaceRun(s, i) == n
    decreases n
  {
    if n > 0 {
      SpaceRunIs(s, i + 1, n - 1);
    }
  }

  /** A time of day as a 12-hour clock prints it: two-digit hour and minutes, a separator
      (`toLocaleTimeString` puts a space or a narrow no-break space there) and the marker. */
  function ClockString(hour: nat, minute: nat, sep: string, isPM: bool): string
  {
    TwoDigits(hour) + ":" + TwoDigits(minute) + sep + (if isPM then "PM" else "AM")
  }

  /** Round trip: a printed clock time reads back as its hours since midnight. */
  lemma ParseClockString(hour: nat, minute: nat, sep: string, isPM: bool)
    requires 1 <= hour <= 12 && minute < 60
    requires forall k :: 0 <= k < |sep| ==> IsSpace(sep[k])
    ensures ParseTimeToHours(ClockString(hour, minute, sep, isPM))
         == TwentyFourHour(hour, isPM) as real + minute as real / 60.0
  {
    var hh, mm := TwoDigits(hour), TwoDigits(minute);
    NumberValueOfDigits(hh);
    NumberValueOfDigits(mm);
    TwoDigitsValue(hour);
    TwoDigitsValue(minute);
    MatchClockShape(hh, mm, sep, isPM);
    ClockHoursInDay(TimeMatch(hour, minute, isPM));
  }

  /** Two digits, a colon, two digits, whitespace and a marker match at position 0. */
  lemma MatchClockShape(hh: string, mm: string, sep: string, isPM: bool)
    requires |hh| == 2 && |mm| == 2 && AllDigits(hh) && AllDigits(mm)
    requires forall k :: 0 <= k < |sep| ==> IsSpace(sep[k])
    ensures var s := hh + ":" + mm + sep + (if isPM then "PM" else "AM");
      FirstMatch(s, 0) == Some(TimeMatch(DigitsValue(hh), DigitsValue(mm), isPM))
  {
    var marker := if isPM then "PM" else "AM";
    var s := hh + ":" + mm + sep + marker;
    var m := 5 + |sep|;
    assert s[..2] == hh && s[3..5] == mm && s[m..] == marker;
    assert forall k :: 5 <= k < m ==> s[k] == sep[k - 5];
    MatchShape(s, m, isPM);
  }

  /** The same, stated on the positions of a string. */
  lemma MatchShape(s: string, m: nat, isPM: bool)
    requires 5 <= m && m + 2 <= |s|
    requires IsDigit(s[0]) && IsDigit(s[1]) && s[2] == ':' && IsDigit(s[3]) && IsDigit(s[4])
    requires forall k :: 5 <= k < m ==> IsSpace(s[k])
    requires s[m] == (if isPM then 'P' else 'A') && s[m + 1] == 'M'
    ensures FirstMatch(s, 0) == Some(TimeMatch(DigitsValue(s[..2]), DigitsValue(s[3..5]), isPM))
  {
    MatchAtShape(s, m, isPM);
  }

  lemma MatchAtShape(s: string, m: nat, isPM: bool)
    requires 5 <= m && m + 2 <= |s|
    requires IsDigit(s[0]) && IsDigit(s[1]) && s[2] == ':' && IsDigit(s[3]) && IsDigit(s[4])
    requires forall k :: 5 <= k < m ==> IsSpace(s[k])
    requires s[m] == (if isPM then 'P' else 'A') && s[m + 1] == 'M'
    ensures MatchAt(s, 0) == Some(TimeMatch(DigitsValue(s[..2]), DigitsValue(s[3..5]), isPM))
  {
    DigitRunIs(s, 0, 2);
    assert !IsDigit(s[5]) by {
      if m > 5 {
        assert IsSpace(s[5]);
      }
    }
    DigitRunIs(s, 3, 2);
    SpaceRunIs(s, 5, m - 5);
    assert MarkerAt(s, m);
    assert MatchAt(s, 0).Some?;
  }

  // ---------------------------------------------------------------------------------------
  // Timestamps of printed dates and times

  /** The instant `toTimestamp` gives a date printed by `formatDate` and a clock time printed
      as `hh:mm AM/PM`: that day's midnight plus the time's hours, from year 100 on. */
  lemma TimestampOfPrinted(d: CivilDate, hour: nat, minute: nat, sep: string, isPM: bool, time: string)
    requires InRange(d) && d.year >= 100
    requires 1 <= hour <= 12 && minute < 60
    requires forall k :: 0 <= k < |sep| ==> IsSpace(sep[k])
    requires time == ClockString(hour, minute, sep, isPM)
    ensures ToTimestamp(FormatDate(d), time) == Some(Instant(DayNumber(d), TwentyFourHour(hour, isPM), minute))
  {
    ParseFormatDate(d);
    ParseClockString(hour, minute, sep, isPM);
    TimestampOf(FormatDate(d), time, DayNumber(d), TwentyFourHour(hour, isPM), minute);
  }

  lemma TimestampOf(date: string, time: string, day: int, hours: nat, minute: nat)
    requires ParseDate(date) == Some(day * MsPerDay)
    requires ParseTimeToHours(time) == hours as real + minute as real / 60.0
    ensures ToTimestamp(date, time) == Some(Instant(day, hours, minute))
  {
  }

  /** Milliseconds since the epoch of a minute of a day. */
  function Instant(day: int, hours: nat, minute: nat): real
  {
    (day * MsPerDay) as real + HoursOf(hours, minute) * MsPerHour as real
  }

  /** Both instants are numbers, the second `hours` hours after the first. */
  predicate HoursApart(a: Option<real>, b: Option<real>, hours: real)
  {
    a.Some? && b.Some? && b.value - a.value == hours * MsPerHour as real
  }

  /** Across midnight: a time logged on one day and a time logged on the next are a day plus
      the difference of their hours apart, whatever separator the clock strings carry. */
  lemma AcrossMidnight(d: CivilDate, d': CivilDate, sep: string,
                       late: string, h1: nat, m1: nat, pm1: bool,
                       early: string, h2: nat, m2: nat, pm2: bool)
    requires InRange(d) && d.year >= 100 && InRange(d') && d'.year >= 100
    requires DayNumber(d') == DayNumber(d) + 1
    requires forall k :: 0 <= k < |sep| ==> IsSpace(sep[k])
    requires 1 <= h1 <= 12 && m1 < 60 && late == ClockString(h1, m1, sep, pm1)
    requires 1 <= h2 <= 12 && m2 < 60 && early == ClockString(h2, m2, sep, pm2)
    ensures HoursApart(ToTimestamp(FormatDate(d), late), ToTimestamp(FormatDate(d'), early),
                       24.0 + HoursOf(TwentyFourHour(h2, pm2), m2) - HoursOf(TwentyFourHour(h1, pm1), m1))
  {
    TimestampOfPrinted(d, h1, m1, sep, pm1, late);
    TimestampOfPrinted(d', h2, m2, sep, pm2, early);
    NextDayInstant(DayNumber(d), DayNumber(d'), TwentyFourHour(h1, pm1), m1, TwentyFourHour(h2, pm2), m2);
  }

  function HoursOf(hours: nat, minute: nat): real
  {
    hours as real + minute as real / 60.0
  }

  lemma NextDayInstant(day: int, next: int, hours1: nat, m1: nat, hours2: nat, m2: nat)
    requires next == day + 1
    ensures HoursApart(Some(Instant(day, hours1, m1)), Some(Instant(next, hours2, m2)),
                       24.0 + HoursOf(hours2, m2) - HoursOf(hours1, m1))
  {
  }
}
