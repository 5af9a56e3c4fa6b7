/** Calendar dates as Python's `datetime` handles them here: `strptime(s, '%d-%m-%Y')`,
    and `strftime` with '%d-%m-%Y', '%d/%m/%Y' and '%Y%m%d_%H%M%S'. */
module Dates {
  import opened Wrappers
  import opened Text

  datatype Date = Date(day: int, month: int, year: int)

  predicate IsLeap(year: int) {
    (year % 4 == 0 && year % 100 != 0) || year % 400 == 0
  }

  function DaysInMonth(year: int, month: int): int
    requires 1 <= month <= 12
  {
    if month == 2 then (if IsLeap(year) then 29 else 28)
    else if month == 4 || month == 6 || month == 9 || month == 11 then 30
    else 31
  }

  /** What `datetime.date` accepts: years 1 to 9999 and a day that exists in its month. */
  predicate Valid(d: Date) {
    && 1 <= d.year <= 9999
    && 1 <= d.month <= 12
    && 1 <= d.day <= DaysInMonth(d.year, d.month)
  }

  /** Every `datetime` value denotes a valid date. */
  type CalendarDate = d: Date | Valid(d) witness Date(1, 1, 1)

  /** A wall-clock instant, as `datetime.now()` returns it. */
  datatype Instant = Instant(date: CalendarDate, hour: int, minute: int, second: int)

  predicate ValidInstant(t: Instant) {
    0 <= t.hour < 24 && 0 <= t.minute < 60 && 0 <= t.second < 60
  }

  /** What one `datetime.now()` call can return. */
  type ClockReading = t: Instant | ValidInstant(t) witness Instant(Date(1, 1, 1), 0, 0, 0)

  // ---------------------------------------------------------------- strptime

  /** The text `%d` matches: one or two digits for 1 to 31, or a space and one digit. */
  predicate DayField(f: string) {
    || (|f| == 2 && f[0] == ' ' && IsDigit(f[1]) && f[1] != '0')
    || ((|f| == 1 || |f| == 2) && AllDigits(f) && 1 <= DigitsValue(f) <= 31)
  }

  function DayValue(f: string): int
    requires DayField(f)
  {
    if f[0] == ' ' then DigitValue(f[1]) else DigitsValue(f)
  }

  /** The text `%m` matches: one or two digits for 1 to 12. */
  predicate MonthField(f: string) {
    (|f| == 1 || |f| == 2) && AllDigits(f) && 1 <= DigitsValue(f) <= 12
  }

  /** The text `%Y` matches: exactly four digits. */
  predicate YearField(f: string) {
    |f| == 4 && AllDigits(f)
  }

  /** `datetime.strptime(s, '%d-%m-%Y')`; `None` stands for its `ValueError`. The whole of `s`
      must match, and the date must exist (so "31-04-2024" and "29-02-2023" fail). */
  function ParseDMY(s: string): (r: Option<CalendarDate>)
  {
    var f := Split(s, '-');
    if |f| == 3 && DayField(f[0]) && MonthField(f[1]) && YearField(f[2]) then
      var d := Date(DayValue(f[0]), DigitsValue(f[1]), DigitsValue(f[2]));
      if Valid(d) then Some(d) else None
    else None
  }

  // ---------------------------------------------------------------- strftime

  /** `strftime('%d-%m-%Y')`: zero-padded day, month and four-digit year. */
  function FormatDMY(d: CalendarDate): string {
    ZeroPad(d.day, 2) + "-" + ZeroPad(d.month, 2) + "-" + ZeroPad(d.year, 4)
  }

  /** `strftime('%d/%m/%Y')`, the form the invoice page lists its dates in. */
  function FormatSlashed(d: CalendarDate): string {
    ZeroPad(d.day, 2) + "/" + ZeroPad(d.month, 2) + "/" + ZeroPad(d.year, 4)
  }

  /** `strftime('%Y%m%d_%H%M%S')`. */
  function FormatStamp(t: Instant): string
    requires ValidInstant(t)
  {
    ZeroPad(t.date.year, 4) + ZeroPad(t.date.month, 2) + ZeroPad(t.date.day, 2) + "_"
    + ZeroPad(t.hour, 2) + ZeroPad(t.minute, 2) + ZeroPad(t.second, 2)
  }

  /** The three fields of a formatted date, each as wide as its format asks. */
  lemma FieldsOfFormat(d: CalendarDate)
    ensures |ZeroPad(d.day, 2)| == 2 && DigitsValue(ZeroPad(d.day, 2)) == d.day
    ensures |ZeroPad(d.month, 2)| == 2 && DigitsValue(ZeroPad(d.month, 2)) == d.month
    ensures |ZeroPad(d.year, 4)| == 4 && DigitsValue(ZeroPad(d.year, 4)) == d.year
  {
    assert Pow10(2) == 100 && Pow10(4) == 10000;
    ZeroPadLength(d.day, 2);
    ZeroPadLength(d.month, 2);
    ZeroPadLength(d.year, 4);
    ZeroPadValue(d.day, 2);
    ZeroPadValue(d.month, 2);
    ZeroPadValue(d.year, 4);
  }

  /** The reply is always "DD-MM-YYYY": ten characters, dashes at positions 2 and 5, digits elsewhere. */
  lemma FormatDMYShape(d: CalendarDate)
    ensures |FormatDMY(d)| == 10
    ensures FormatDMY(d)[2] == '-' && FormatDMY(d)[5] == '-'
    ensures forall i :: 0 <= i < 10 && i != 2 && i != 5 ==> IsDigit(FormatDMY(d)[i])
  {
    FieldsOfFormat(d);
  }

  /** The canonical form splits on '-' into its three padded fields. */
  lemma SplitFormatDMY(d: CalendarDate)
    ensures Split(FormatDMY(d), '-') == [ZeroPad(d.day, 2), ZeroPad(d.month, 2), ZeroPad(d.year, 4)]
  {
    var a, b, c := ZeroPad(d.day, 2), ZeroPad(d.month, 2), ZeroPad(d.year, 4);
    FieldsOfFormat(d);
    assert JoinWith([b, c], '-') == b + "-" + c;
    assert JoinWith([a, b, c], '-') == a + "-" + (b + "-" + c);
    assert FormatDMY(d) == JoinWith([a, b, c], '-');
    assert '-' !in a && '-' !in b && '-' !in c;
    SplitJoin([a, b, c], '-');
  }

  /** Re-parsing the canonical form gives the same date back. */
  lemma ParseFormatDMY(d: CalendarDate)
    ensures ParseDMY(FormatDMY(d)) == Some(d)
  {
    var a, b, c := ZeroPad(d.day, 2), ZeroPad(d.month, 2), ZeroPad(d.year, 4);
    SplitFormatDMY(d);
    FieldsOfFormat(d);
    assert MonthField(b) && YearField(c);
    assert DayField(a) && DayValue(a) == d.day;
  }

  /** The seven fields of a stamp, each exactly as wide as its format asks. */
  lemma StampFields(t: ClockReading)
    ensures |ZeroPad(t.date.year, 4)| == 4 && |ZeroPad(t.date.month, 2)| == 2 && |ZeroPad(t.date.day, 2)| == 2
    ensures |ZeroPad(t.hour, 2)| == 2 && |ZeroPad(t.minute, 2)| == 2 && |ZeroPad(t.second, 2)| == 2
  {
    assert Pow10(2) == 100 && Pow10(4) == 10000;
    FieldsOfFormat(t.date);
    ZeroPadLength(t.hour, 2);
    ZeroPadLength(t.minute, 2);
    ZeroPadLength(t.second, 2);
  }

  /** A stamp is "YYYYMMDD_HHMMSS": fifteen characters, an underscore at position 8, digits elsewhere. */
  lemma FormatStampShape(t: ClockReading)
    ensures |FormatStamp(t)| == 15
    ensures FormatStamp(t)[8] == '_'
    ensures forall i :: 0 <= i < 15 && i != 8 ==> IsDigit(FormatStamp(t)[i])
  {
    StampFields(t);
  }

  /** Two different instants never give the same stamp: the stamp records the time to the second. */
  lemma FormatStampInjective(t: ClockReading, u: ClockReading)
    requires FormatStamp(t) == FormatStamp(u)
    ensures t == u
  {
    StampFields(t);
    StampFields(u);
    var s := FormatStamp(t);
    assert s[0..4] == ZeroPad(t.date.year, 4) == ZeroPad(u.date.year, 4);
    assert s[4..6] == ZeroPad(t.date.month, 2) == ZeroPad(u.date.month, 2);
    assert s[6..8] == ZeroPad(t.date.day, 2) == ZeroPad(u.date.day, 2);
    assert s[9..11] == ZeroPad(t.hour, 2) == ZeroPad(u.hour, 2);
    assert s[11..13] == ZeroPad(t.minute, 2) == ZeroPad(u.minute, 2);
    assert s[13..15] == ZeroPad(t.second, 2) == ZeroPad(u.second, 2);
    ZeroPadValue(t.date.year, 4);
    ZeroPadValue(u.date.year, 4);
    ZeroPadValue(t.date.month, 2);
    ZeroPadValue(u.date.month, 2);
    ZeroPadValue(t.date.day, 2);
    ZeroPadValue(u.date.day, 2);
    ZeroPadValue(t.hour, 2);
    ZeroPadValue(u.hour, 2);
    ZeroPadValue(t.minute, 2);
    ZeroPadValue(u.minute, 2);
    ZeroPadValue(t.second, 2);
    ZeroPadValue(u.second, 2);
  }

  /** Whatever date the user typed, the canonical form the bot stores parses back to it. */
  lemma CanonicalDate(s: string)
    requires ParseDMY(s).Some?
    ensures ParseDMY(FormatDMY(ParseDMY(s).value)) == ParseDMY(s)
  {
    ParseFormatDMY(ParseDMY(s).value);
  }
}
