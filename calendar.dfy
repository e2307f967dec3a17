/** Dates and timestamps as the billing code reads and writes them with
    `strptime`/`strftime`: "%d-%m-%Y" for dates, "%d-%m-%Y %H:%M:%S" for ledger
    timestamps, and the older "%Y-%m-%d %H:%M:%S" form still accepted when the
    ledger view is refreshed. The clock itself is not modelled: callers pass
    "now" in. */
module Calendar {
  import opened Wrappers
  import opened Text

  datatype Date = Date(year: int, month: int, day: int)

  datatype Timestamp = Timestamp(date: Date, hour: int, minute: int, second: int)

  predicate IsLeapYear(y: int)
  {
    y % 4 == 0 && (y % 100 != 0 || y % 400 == 0)
  }

  function DaysInMonth(y: int, m: int): (n: int)
    requires 1 <= m <= 12
    ensures 28 <= n <= 31
  {
    if m == 2 then (if IsLeapYear(y) then 29 else 28)
    else if m == 4 || m == 6 || m == 9 || m == 11 then 30
    else 31
  }

  /** The dates Python's `datetime` can represent (years 1 to 9999). */
  predicate ValidDate(d: Date)
  {
    1 <= d.year <= 9999 && 1 <= d.month <= 12 && 1 <= d.day <= DaysInMonth(d.year, d.month)
  }

  predicate ValidTimestamp(t: Timestamp)
  {
    ValidDate(t.date) && 0 <= t.hour < 24 && 0 <= t.minute < 60 && 0 <= t.second < 60
  }

  /** A number that orders valid dates chronologically. */
  function DayRank(d: Date): int
  {
    (d.year * 13 + d.month) * 32 + d.day
  }

  /** A number that orders valid timestamps chronologically; comparing two
      `datetime` objects is comparing their ranks. */
  function Rank(t: Timestamp): int
  {
    ((DayRank(t.date) * 24 + t.hour) * 60 + t.minute) * 60 + t.second
  }

  function Midnight(d: Date): Timestamp
  {
    Timestamp(d, 0, 0, 0)
  }

  /** Field-by-field chronological order of (year, month, day, hour, minute, second). */
  predicate Before(a: Timestamp, b: Timestamp)
  {
    var x, y := a.date, b.date;
    if x.year != y.year then x.year < y.year
    else if x.month != y.month then x.month < y.month
    else if x.day != y.day then x.day < y.day
    else if a.hour != b.hour then a.hour < b.hour
    else if a.minute != b.minute then a.minute < b.minute
    else a.second < b.second
  }

  /** Comparing ranks is comparing the fields in chronological order. */
  lemma RankIsChronological(a: Timestamp, b: Timestamp)
    requires ValidTimestamp(a) && ValidTimestamp(b)
    ensures Rank(a) < Rank(b) <==> Before(a, b)
  {
  }

  /** `date + timedelta(days=1)`; None where Python raises OverflowError. */
  function NextDay(d: Date): (r: Option<Date>)
    requires ValidDate(d)
    ensures r.None? <==> d == Date(9999, 12, 31)
    ensures r.Some? ==> ValidDate(r.value) && DayRank(d) < DayRank(r.value)
  {
    if d.day < DaysInMonth(d.year, d.month) then Some(Date(d.year, d.month, d.day + 1))
    else if d.month < 12 then Some(Date(d.year, d.month + 1, 1))
    else if d.year < 9999 then Some(Date(d.year + 1, 1, 1))
    else None
  }

  /** Field-by-field order of (year, month, day). */
  predicate DayBefore(a: Date, b: Date)
  {
    if a.year != b.year then a.year < b.year
    else if a.month != b.month then a.month < b.month
    else a.day < b.day
  }

  /** Comparing day ranks is comparing the date fields in order. */
  lemma DayRankIsChronological(a: Date, b: Date)
    requires ValidDate(a) && ValidDate(b)
    ensures DayRank(a) < DayRank(b) <==> DayBefore(a, b)
  {
    var ka, kb := a.year * 13 + a.month, b.year * 13 + b.month;
    assert ka < kb <==> a.year < b.year || (a.year == b.year && a.month < b.month);
  }

  /** No valid date lies strictly between a date and the one after it. */
  lemma NextDayIsImmediate(d: Date, e: Date)
    requires ValidDate(d) && ValidDate(e) && NextDay(d).Some?
    requires DayRank(d) < DayRank(e)
    ensures DayRank(NextDay(d).value) <= DayRank(e)
  {
    var n := NextDay(d).value;
    DayRankIsChronological(d, e);
    DayRankIsChronological(e, n);
  }

  /** `strftime("%b")` in the C locale. */
  function MonthAbbrev(m: int): (s: string)
    requires 1 <= m <= 12
    ensures |s| == 3
  {
    ["Jan", "Feb", "Mar", "Apr", "May", "Jun", "Jul", "Aug", "Sep", "Oct", "Nov", "Dec"][m - 1]
  }

  /** Distinct months have distinct abbreviations. */
  lemma MonthAbbrevInjective(a: int, b: int)
    requires 1 <= a <= 12 && 1 <= b <= 12 && MonthAbbrev(a) == MonthAbbrev(b)
    ensures a == b
  {
  }

  /** `strftime("%d-%m-%Y")`. */
  function FormatDate(d: Date): (s: string)
    requires ValidDate(d)
    ensures |s| == 10
  {
    Pad2(d.day) + "-" + Pad2(d.month) + "-" + Pad4(d.year)
  }

  /** `strftime("%d %b %Y")`, the date printed on the invoice. */
  function FormatLongDate(d: Date): (s: string)
    requires ValidDate(d)
  {
    Pad2(d.day) + " " + MonthAbbrev(d.month) + " " + Pad4(d.year)
  }

  /** `strptime(s, "%d-%m-%Y")`, restricted to zero-padded fields. */
  function ParseDate(s: string): (r: Option<Date>)
    ensures r.Some? ==> ValidDate(r.value)
  {
    if |s| == 10 && s[2] == '-' && s[5] == '-'
       && AllDigits(s[..2]) && AllDigits(s[3..5]) && AllDigits(s[6..])
    then
      var d := Date(Value4(s[6..]), Value2(s[3..5]), Value2(s[..2]));
      if ValidDate(d) then Some(d) else None
    else None
  }

  lemma ParseFormatDate(d: Date)
    requires ValidDate(d)
    ensures ParseDate(FormatDate(d)) == Some(d)
  {
    var s := FormatDate(d);
    assert s[..2] == Pad2(d.day) && s[3..5] == Pad2(d.month) && s[6..] == Pad4(d.year);
    Pad2RoundTrip(d.day);
    Pad2RoundTrip(d.month);
    Pad4RoundTrip(d.year);
  }

  lemma FormatParseDate(s: string)
    requires ParseDate(s).Some?
    ensures FormatDate(ParseDate(s).value) == s
  {
    Value2RoundTrip(s[..2]);
    Value2RoundTrip(s[3..5]);
    Value4RoundTrip(s[6..]);
    assert s == s[..2] + "-" + s[3..5] + "-" + s[6..];
  }

  /** `strftime("%H:%M:%S")`. */
  function FormatTime(t: Timestamp): (s: string)
    requires ValidTimestamp(t)
    ensures |s| == 8
  {
    Pad2(t.hour) + ":" + Pad2(t.minute) + ":" + Pad2(t.second)
  }

  function ParseTime(d: Date, s: string): (r: Option<Timestamp>)
    requires ValidDate(d)
    ensures r.Some? ==> ValidTimestamp(r.value) && r.value.date == d
  {
    if |s| == 8 && s[2] == ':' && s[5] == ':'
       && AllDigits(s[..2]) && AllDigits(s[3..5]) && AllDigits(s[6..])
    then
      var t := Timestamp(d, Value2(s[..2]), Value2(s[3..5]), Value2(s[6..]));
      if ValidTimestamp(t) then Some(t) else None
    else None
  }

  lemma ParseFormatTime(t: Timestamp)
    requires ValidTimestamp(t)
    ensures ParseTime(t.date, FormatTime(t)) == Some(t)
  {
    var s := FormatTime(t);
    assert s[..2] == Pad2(t.hour) && s[3..5] == Pad2(t.minute) && s[6..] == Pad2(t.second);
    Pad2RoundTrip(t.hour);
    Pad2RoundTrip(t.minute);
    Pad2RoundTrip(t.second);
  }

  lemma FormatParseTime(d: Date, s: string)
    requires ValidDate(d) && ParseTime(d, s).Some?
    ensures FormatTime(ParseTime(d, s).value) == s
  {
    Value2RoundTrip(s[..2]);
    Value2RoundTrip(s[3..5]);
    Value2RoundTrip(s[6..]);
    assert s == s[..2] + ":" + s[3..5] + ":" + s[6..];
  }

  /** `strftime("%d-%m-%Y %H:%M:%S")`, the ledger's timestamp format. */
  function FormatStamp(t: Timestamp): (s: string)
    requires ValidTimestamp(t)
    ensures |s| == 19
  {
    FormatDate(t.date) + " " + FormatTime(t)
  }

  /** `strptime(s, "%d-%m-%Y %H:%M:%S")`, restricted to zero-padded fields. */
  function ParseStamp(s: string): (r: Option<Timestamp>)
    ensures r.Some? ==> ValidTimestamp(r.value)
  {
    if |s| == 19 && s[10] == ' ' then
      match ParseDate(s[..10])
      case None => None
      case Some(d) => ParseTime(d, s[11..])
    else None
  }

  lemma ParseFormatStamp(t: Timestamp)
    requires ValidTimestamp(t)
    ensures ParseStamp(FormatStamp(t)) == Some(t)
  {
    var s := FormatStamp(t);
    assert s[..10] == FormatDate(t.date) && s[11..] == FormatTime(t);
    ParseFormatDate(t.date);
    ParseFormatTime(t);
  }

  /** A string that reads as a ledger timestamp is that timestamp's printed form. */
  lemma FormatParseStamp(s: string)
    requires ParseStamp(s).Some?
    ensures FormatStamp(ParseStamp(s).value) == s
  {
    var d := ParseDate(s[..10]).value;
    FormatParseDate(s[..10]);
    FormatParseTime(d, s[11..]);
    assert s == s[..10] + " " + s[11..];
  }

  /** `strftime("%Y-%m-%d %H:%M:%S")`, the older ledger timestamp format. */
  function FormatIsoStamp(t: Timestamp): (s: string)
    requires ValidTimestamp(t)
    ensures |s| == 19
  {
    Pad4(t.date.year) + "-" + Pad2(t.date.month) + "-" + Pad2(t.date.day) + " " + FormatTime(t)
  }

  /** `strptime(s, "%Y-%m-%d %H:%M:%S")`, restricted to zero-padded fields. */
  function ParseIsoStamp(s: string): (r: Option<Timestamp>)
    ensures r.Some? ==> ValidTimestamp(r.value)
  {
    if |s| == 19 && s[4] == '-' && s[7] == '-' && s[10] == ' '
       && AllDigits(s[..4]) && AllDigits(s[5..7]) && AllDigits(s[8..10])
    then
      var d := Date(Value4(s[..4]), Value2(s[5..7]), Value2(s[8..10]));
      if ValidDate(d) then ParseTime(d, s[11..]) else None
    else None
  }

  lemma ParseFormatIsoStamp(t: Timestamp)
    requires ValidTimestamp(t)
    ensures ParseIsoStamp(FormatIsoStamp(t)) == Some(t)
  {
    var s := FormatIsoStamp(t);
    assert s[..4] == Pad4(t.date.year) && s[5..7] == Pad2(t.date.month);
    assert s[8..10] == Pad2(t.date.day) && s[11..] == FormatTime(t);
    Pad4RoundTrip(t.date.year);
    Pad2RoundTrip(t.date.month);
    Pad2RoundTrip(t.date.day);
    ParseFormatTime(t);
  }

  /** A timestamp in the ledger format never reads as one in the older format,
      so the two parsers never disagree. */
  lemma StampFormatsDisjoint(s: string)
    requires ParseStamp(s).Some?
    ensures ParseIsoStamp(s).None?
  {
    assert AllDigits(s[..2]);
    assert IsDigit(s[..2][1]);
  }
}
