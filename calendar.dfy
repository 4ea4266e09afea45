/** The parts of Python's `datetime` that the date helpers rely on: the proleptic Gregorian
    calendar, `date - timedelta(days=1)`, `strftime('%d.%m.%Y %H:%M:%S')`, `strptime` of that
    same layout, and days counted from 1 January 1970. */
module Calendar {
  import opened Wrappers
  import opened Text

  datatype Date = Date(year: int, month: int, day: int)
  datatype DateTime = DateTime(date: Date, hour: int, minute: int, second: int)

  predicate IsLeapYear(y: int)
  {
    y % 4 == 0 && (y % 100 != 0 || y % 400 == 0)
  }

  function DaysInMonth(y: int, m: int): (n: int)
    requires 1 <= m <= 12
    ensures 28 <= n <= 31
    ensures m == 2 ==> (n == 29 <==> IsLeapYear(y))
  {
    if m == 2 then (if IsLeapYear(y) then 29 else 28)
    else if m == 4 || m == 6 || m == 9 || m == 11 then 30
    else 31
  }

  /** A date `datetime.date(year, month, day)` accepts (years 1 to 9999). */
  predicate ValidDate(d: Date)
  {
    1 <= d.year <= 9999 && 1 <= d.month <= 12 && 1 <= d.day <= DaysInMonth(d.year, d.month)
  }

  predicate ValidDateTime(t: DateTime)
  {
    ValidDate(t.date) && 0 <= t.hour <= 23 && 0 <= t.minute <= 59 && 0 <= t.second <= 59
  }

  /** `d - timedelta(days=1)` */
  function PrevDay(d: Date): (p: Date)
    requires ValidDate(d) && d != Date(1, 1, 1)
    ensures ValidDate(p)
  {
    if d.day > 1 then Date(d.year, d.month, d.day - 1)
    else if d.month > 1 then Date(d.year, d.month - 1, DaysInMonth(d.year, d.month - 1))
    else Date(d.year - 1, 12, 31)
  }

  function YearLength(y: int): int
  {
    if IsLeapYear(y) then 366 else 365
  }

  /** Days from 1 January 1970 to 1 January of year `y` (negative before 1970). */
  function DaysBeforeYear(y: int): int
    decreases if y >= 1970 then y - 1970 else 1970 - y
  {
    if y == 1970 then 0
    else if y > 1970 then DaysBeforeYear(y - 1) + YearLength(y - 1)
    else DaysBeforeYear(y + 1) - YearLength(y)
  }

  /** Days from 1 January to the first of month `m` in year `y`. */
  function DaysBeforeMonth(y: int, m: int): int
    requires 1 <= m <= 12
  {
    if m == 1 then 0 else DaysBeforeMonth(y, m - 1) + DaysInMonth(y, m - 1)
  }

  /** The day number of `d`, counting 1 January 1970 as day 0. */
  function EpochDay(d: Date): int
    requires 1 <= d.month <= 12
  {
    DaysBeforeYear(d.year) + DaysBeforeMonth(d.year, d.month) + d.day - 1
  }

  lemma DaysBeforeYearStep(y: int)
    ensures DaysBeforeYear(y + 1) == DaysBeforeYear(y) + YearLength(y)
  {
  }

  lemma DaysBeforeDecember(y: int)
    ensures DaysBeforeMonth(y, 12) + 31 == YearLength(y)
  {
    var feb := DaysInMonth(y, 2);
    assert DaysBeforeMonth(y, 2) == 31;
    assert DaysBeforeMonth(y, 3) == 31 + feb;
    assert DaysBeforeMonth(y, 4) == 62 + feb;
    assert DaysBeforeMonth(y, 5) == 92 + feb;
    assert DaysBeforeMonth(y, 6) == 123 + feb;
    assert DaysBeforeMonth(y, 7) == 153 + feb;
    assert DaysBeforeMonth(y, 8) == 184 + feb;
    assert DaysBeforeMonth(y, 9) == 215 + feb;
    assert DaysBeforeMonth(y, 10) == 245 + feb;
    assert DaysBeforeMonth(y, 11) == 276 + feb;
    assert DaysBeforeMonth(y, 12) == 306 + feb;
  }

  /** `date - timedelta(days=1)` is exactly one day earlier on the epoch day count. */
  lemma EpochDayPrevDay(d: Date)
    requires ValidDate(d) && d != Date(1, 1, 1)
    ensures EpochDay(PrevDay(d)) == EpochDay(d) - 1
  {
    if d.day == 1 && d.month == 1 {
      DaysBeforeYearStep(d.year - 1);
      DaysBeforeDecember(d.year - 1);
    }
  }

  /** `'%02d' % n` */
  function Pad2(n: int): (s: string)
    requires 0 <= n < 100
    ensures |s| == 2 && AllDigits(s) && DigitsValue(s) == n
  {
    var s := [DigitChar(n / 10), DigitChar(n % 10)];
    assert s[..1] == [s[0]];
    assert DigitsValue([s[0]]) == DigitValue(s[0]) by {
      assert [s[0]][..0] == [];
    }
    assert DigitsValue(s) == DigitsValue(s[..1]) * 10 + DigitValue(s[1]);
    s
  }

  lemma DigitsValueTwoMore(a: string, b: string)
    requires |b| == 2
    ensures DigitsValue(a + b) == DigitsValue(a) * 100 + DigitsValue(b)
  {
    var ab := a + b;
    assert ab[..|ab| - 1] == a + [b[0]];
    assert (a + [b[0]])[..|a|] == a;
    assert DigitsValue(ab) == DigitsValue(a + [b[0]]) * 10 + DigitValue(b[1]);
    assert DigitsValue(a + [b[0]]) == DigitsValue(a) * 10 + DigitValue(b[0]);
    assert b[..1] == [b[0]];
    assert DigitsValue([b[0]]) == DigitValue(b[0]) by {
      assert [b[0]][..0] == [];
    }
    assert DigitsValue(b) == DigitsValue(b[..1]) * 10 + DigitValue(b[1]);
  }

  /** `'%04d' % n` */
  function Pad4(n: int): (s: string)
    requires 0 <= n < 10000
    ensures |s| == 4 && AllDigits(s) && DigitsValue(s) == n
  {
    var s := Pad2(n / 100) + Pad2(n % 100);
    DigitsValueTwoMore(Pad2(n / 100), Pad2(n % 100));
    s
  }

  /** `strftime('%d.%m.%Y')` for a year of four digits. */
  function FormatDate(d: Date): (s: string)
    requires ValidDate(d) && 1000 <= d.year
    ensures |s| == 10
  {
    Pad2(d.day) + "." + Pad2(d.month) + "." + Pad4(d.year)
  }

  /** `strftime('%d.%m.%Y %H:%M:%S')` for a year of four digits. */
  function FormatDateTime(t: DateTime): (s: string)
    requires ValidDateTime(t) && 1000 <= t.date.year
    ensures |s| == 19
  {
    FormatDate(t.date) + " " + Pad2(t.hour) + ":" + Pad2(t.minute) + ":" + Pad2(t.second)
  }

  /** `datetime.strptime(s, '%d.%m.%Y %H:%M:%S')` for text with every field zero-padded. */
  function ParseDateTime(s: string): (r: Option<DateTime>)
    ensures r.Some? ==> ValidDateTime(r.value)
  {
    if |s| == 19 && s[2] == '.' && s[5] == '.' && s[10] == ' ' && s[13] == ':' && s[16] == ':'
       && AllDigits(s[0..2]) && AllDigits(s[3..5]) && AllDigits(s[6..10])
       && AllDigits(s[11..13]) && AllDigits(s[14..16]) && AllDigits(s[17..19])
    then
      var t := DateTime(Date(DigitsValue(s[6..10]), DigitsValue(s[3..5]), DigitsValue(s[0..2])),
                        DigitsValue(s[11..13]), DigitsValue(s[14..16]), DigitsValue(s[17..19]));
      if ValidDateTime(t) then Some(t) else None
    else None
  }

  /** Parsing what `FormatDateTime` writes gives back the same date and time. */
  lemma ParseFormatDateTime(t: DateTime)
    requires ValidDateTime(t) && 1000 <= t.date.year
    ensures ParseDateTime(FormatDateTime(t)) == Some(t)
  {
    var s := FormatDateTime(t);
    var dd, mm, yy := Pad2(t.date.day), Pad2(t.date.month), Pad4(t.date.year);
    var hh, mi, ss := Pad2(t.hour), Pad2(t.minute), Pad2(t.second);
    assert s == dd + "." + mm + "." + yy + " " + hh + ":" + mi + ":" + ss;
    assert s[0..2] == dd && s[3..5] == mm && s[6..10] == yy;
    assert s[11..13] == hh && s[14..16] == mi && s[17..19] == ss;
  }
}
