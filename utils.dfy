/** The calendar, number and period helpers of core/utils.py. The current date is a parameter
    wherever the source reads the clock. */
module Utils {
  import opened Wrappers
  import opened Text
  import opened Calendar

  // ---------------------------------------------------------------- convert_to_unix_timestamp

  /** Seconds since 1970-01-01 00:00 UTC of a civil date and time read at the fixed offset
      UTC+5 (`dt.replace(tzinfo=timezone(timedelta(hours=5))).timestamp()`). */
  function UtcPlus5Timestamp(t: DateTime): int
    requires 1 <= t.date.month <= 12
  {
    EpochDay(t.date) * 86400 + t.hour * 3600 + t.minute * 60 + t.second - 5 * 3600
  }

  /** `convert_to_unix_timestamp(s)` with the default layout; `None` where `strptime` raises. */
  function ConvertToUnixTimestamp(s: string): Option<int>
  {
    match ParseDateTime(s)
    case None => None
    case Some(t) => Some(UtcPlus5Timestamp(t))
  }

  /** Every date and time written in the default layout converts, to its UTC+5 timestamp. */
  lemma ConvertFormatted(t: DateTime)
    requires ValidDateTime(t) && 1000 <= t.date.year
    ensures ConvertToUnixTimestamp(FormatDateTime(t)) == Some(UtcPlus5Timestamp(t))
  {
    ParseFormatDateTime(t);
  }

  /** 05:00 on 1 January 1970 at UTC+5 is the epoch. */
  lemma ConvertEpoch()
    ensures UtcPlus5Timestamp(DateTime(Date(1970, 1, 1), 5, 0, 0)) == 0
  {
  }

  /** The same clock time one calendar day earlier is exactly 86400 seconds earlier. */
  lemma ConvertDayEarlier(t: DateTime)
    requires ValidDateTime(t) && t.date != Date(1, 1, 1)
    ensures UtcPlus5Timestamp(DateTime(PrevDay(t.date), t.hour, t.minute, t.second)) == UtcPlus5Timestamp(t) - 86400
  {
    EpochDayPrevDay(t.date);
  }

  // ---------------------------------------------------------------- format_number

  /** The integer part cut into groups of three characters counted from the right, in
      left-to-right order. */
  function DigitGroups(s: string): (g: seq<string>)
    ensures Concat(g) == s
    ensures forall i :: 0 <= i < |g| ==> 1 <= |g[i]| <= 3
    ensures forall i :: 1 <= i < |g| ==> |g[i]| == 3
  {
    if |s| == 0 then []
    else if |s| <= 3 then
      assert [s][..0] == [];
      [s]
    else
      var front := DigitGroups(s[..|s| - 3]);
      assert s == s[..|s| - 3] + s[|s| - 3..];
      assert (front + [s[|s| - 3..]])[..|front|] == front;
      front + [s[|s| - 3..]]
  }

  /** What `format_number` returns for a number whose `str(...)` is `strNum`. */
  function FormattedNumber(strNum: string): string
  {
    var pieces := Split(strNum, '.');
    var grouped := Join(" ", DigitGroups(pieces[0]));
    if |pieces| == 1 || pieces[1] == "0" then grouped
    else grouped + "." + pieces[1][..Min(2, |pieces[1]|)]
  }

  /** `format_number`: the groups are collected right to left, then joined in reverse order. */
  method FormatNumber(strNum: string) returns (r: string)
    ensures r == FormattedNumber(strNum)
  {
    var pieces := Split(strNum, '.');
    var groups := GroupsRightToLeft(pieces[0]);
    var formatted := Join(" ", Reverse(groups));
    if |pieces| == 1 || pieces[1] == "0" {
      r := formatted;
    } else {
      r := formatted + "." + pieces[1][..Min(2, |pieces[1]|)];
    }
  }

  /** The `for i in range(length, 0, -3)` loop of `format_number`, with `i` counting down by
      three: slices of three characters taken from the right; reversed they are the groups of
      the integer part. */
  method GroupsRightToLeft(integerPart: string) returns (groups: seq<string>)
    ensures Reverse(groups) == DigitGroups(integerPart)
  {
    groups := [];
    var i := |integerPart|;
    assert integerPart[..|integerPart|] == integerPart;
    while i > 0
      invariant i <= |integerPart|
      invariant DigitGroups(integerPart[..Max(i, 0)]) + Reverse(groups) == DigitGroups(integerPart)
      decreases i
    {
      var start := Max(0, i - 3);
      PeelGroup(integerPart, i, groups);
      groups := groups + [integerPart[start..i]];
      i := i - 3;
    }
    assert integerPart[..Max(i, 0)] == [];
  }

  /** Taking the last (up to) three characters off a prefix takes off its last group. */
  lemma DigitGroupsStep(s: string, i: int)
    requires 0 < i <= |s|
    ensures DigitGroups(s[..Max(i - 3, 0)]) + [s[Max(0, i - 3)..i]] == DigitGroups(s[..i])
  {
    var prefix := s[..i];
    if i > 3 {
      assert prefix[..i - 3] == s[..i - 3];
      assert prefix[i - 3..] == s[i - 3..i];
    } else {
      assert prefix == s[0..i];
      assert s[..0] == [];
    }
  }

  /** One round of the loop keeps its invariant. */
  lemma PeelGroup(s: string, i: int, groups: seq<string>)
    requires 0 < i <= |s|
    requires DigitGroups(s[..i]) + Reverse(groups) == DigitGroups(s)
    ensures DigitGroups(s[..Max(i - 3, 0)]) + Reverse(groups + [s[Max(0, i - 3)..i]]) == DigitGroups(s)
  {
    DigitGroupsStep(s, i);
    SnocIntoReverse(DigitGroups(s[..Max(i - 3, 0)]), s[Max(0, i - 3)..i], groups, DigitGroups(s));
  }

  /** Moving the last element of the front onto the reversed tail. */
  lemma SnocIntoReverse<T>(front: seq<T>, x: T, tail: seq<T>, whole: seq<T>)
    requires (front + [x]) + Reverse(tail) == whole
    ensures front + Reverse(tail + [x]) == whole
  {
    ReverseAppend(tail, x);
    AppendAssoc(front, [x], Reverse(tail));
  }

  lemma ReverseAppend<T>(s: seq<T>, x: T)
    ensures Reverse(s + [x]) == [x] + Reverse(s)
  {
    var l, r := Reverse(s + [x]), [x] + Reverse(s);
    assert |l| == |r|;
    forall j | 0 <= j < |l| ensures l[j] == r[j] {
      if j > 0 {
        assert r[j] == Reverse(s)[j - 1];
      }
    }
  }

  /** Reading the integer part of the result back, split at its spaces, gives exactly the
      three-character groups of the integer part of the input. */
  lemma FormattedNumberGroups(strNum: string)
    requires Split(strNum, '.')[0] != ""
    requires ' ' !in Split(strNum, '.')[0]
    ensures Split(Split(FormattedNumber(strNum), '.')[0], ' ') == DigitGroups(Split(strNum, '.')[0])
  {
    var pieces := Split(strNum, '.');
    var g := DigitGroups(pieces[0]);
    var grouped := Join(" ", g);
    SplitPiecesFree(strNum, '.');
    assert '.' !in pieces[0];
    NoCharInGroups(pieces[0], ' ');
    NoCharInGroups(pieces[0], '.');
    NoCharInJoin(g, ' ', '.');
    if |pieces| == 1 || pieces[1] == "0" {
      SplitNoSeparator(grouped, '.');
    } else {
      var frac := pieces[1][..Min(2, |pieces[1]|)];
      assert grouped + "." + frac == grouped + ['.'] + frac;
      SplitAtSeparator(grouped, frac, '.');
    }
    assert g != [];
    SplitJoin(g, ' ');
  }

  lemma NoCharInGroups(s: string, c: char)
    requires c !in s
    ensures forall i :: 0 <= i < |DigitGroups(s)| ==> c !in DigitGroups(s)[i]
  {
    var g := DigitGroups(s);
    forall i | 0 <= i < |g| ensures c !in g[i] {
      if c in g[i] {
        ConcatHas(g, i, c);
      }
    }
  }

  lemma {:induction false} ConcatHas(g: seq<string>, i: int, c: char)
    requires 0 <= i < |g| && c in g[i]
    ensures c in Concat(g)
  {
    if i < |g| - 1 {
      ConcatHas(g[..|g| - 1], i, c);
      assert g[..|g| - 1][i] == g[i];
    }
  }

  lemma {:induction false} NoCharInJoin(g: seq<string>, sep: char, c: char)
    requires c != sep
    requires forall i :: 0 <= i < |g| ==> c !in g[i]
    ensures c !in Join([sep], g)
  {
    if |g| > 1 {
      NoCharInJoin(g[1..], sep, c);
    }
  }

  /** A number with a fraction: the grouped integer part, then the fraction cut to two
      digits unless it is exactly "0". */
  lemma FormattedNumberParts(intPart: string, frac: string)
    requires '.' !in intPart && '.' !in frac
    ensures FormattedNumber(intPart + "." + frac)
            == if frac == "0" then Join(" ", DigitGroups(intPart))
               else Join(" ", DigitGroups(intPart)) + "." + frac[..Min(2, |frac|)]
  {
    assert intPart + "." + frac == intPart + ['.'] + frac;
    SplitAtSeparator(intPart, frac, '.');
    SplitNoSeparator(frac, '.');
  }

  /** The fraction is cut (not rounded) to two digits. */
  lemma FormattedNumberTruncatesFraction()
    ensures FormattedNumber("12.345") == "12.34"
  {
    FormattedNumberParts("12", "345");
    assert "12" + "." + "345" == "12.345";
    assert DigitGroups("12") == ["12"];
    assert "345"[..2] == "34";
  }

  /** A leading minus sign is grouped like a digit, and a fraction of exactly "0" is dropped. */
  lemma FormattedNumberNegative()
    ensures FormattedNumber("-123.0") == "- 123"
  {
    FormattedNumberParts("-123", "0");
    assert "-123" + "." + "0" == "-123.0";
    assert DigitGroups("-123") == ["-", "123"] by {
      assert "-123"[..1] == "-" && "-123"[1..] == "123";
      assert DigitGroups("-") == ["-"];
    }
    assert Join(" ", ["-", "123"]) == "- 123" by {
      assert ["-", "123"][1..] == ["123"];
    }
  }

  /** Only a fraction of exactly "0" is dropped: "05" is kept. */
  lemma FormattedNumberLeadingZeroFraction()
    ensures FormattedNumber("1.05") == "1.05"
  {
    FormattedNumberParts("1", "05");
    assert "1" + "." + "05" == "1.05";
    assert DigitGroups("1") == ["1"];
    assert "05"[..2] == "05";
  }

  /** An integer without a fraction gets only the grouping. */
  lemma FormattedNumberInteger()
    ensures FormattedNumber("1000") == "1 000"
  {
    SplitNoSeparator("1000", '.');
    assert "1000"[..1] == "1" && "1000"[1..] == "000";
    assert DigitGroups("1") == ["1"];
    assert DigitGroups("1000") == ["1", "000"];
    assert ["1", "000"][1..] == ["000"];
    assert Join(" ", ["1", "000"]) == "1" + " " + "000";
  }

  // ---------------------------------------------------------------- parse_flexible_date

  /** An hour and a minute of the day. */
  datatype Time = Time(hour: int, minute: int)

  predicate ValidTime(t: Time)
  {
    0 <= t.hour <= 23 && 0 <= t.minute <= 59
  }

  /** The time used when none is typed: "23:59" for the end of a period, "00:00" for its start. */
  function DefaultTime(isEnd: bool): Time
  {
    if isEnd then Time(23, 59) else Time(0, 0)
  }

  /** A character `[\d\s.:]` accepts. */
  predicate DateChar(c: char)
  {
    IsDigit(c) || IsSpace(c) || c == '.' || c == ':'
  }

  /** `re.match(r'^[\d\s.:]+$', s)` on stripped text. */
  predicate DateText(s: string)
  {
    |s| > 0 && forall i :: 0 <= i < |s| ==> DateChar(s[i])
  }

  /** `\d{1,2}:\d{2}` matched against the whole of `b`. */
  predicate ClockBody(b: string)
  {
    (|b| == 4 || |b| == 5) && b[|b| - 3] == ':'
    && forall i :: 0 <= i < |b| && i != |b| - 3 ==> IsDigit(b[i])
  }

  /** `re.match(r'^\d{1,2}:\d{2}$', t)`: `$` also matches just before a final newline. */
  predicate ClockShape(t: string)
  {
    ClockBody(t) || (|t| > 0 && t[|t| - 1] == '\n' && ClockBody(t[..|t| - 1]))
  }

  /** The typed time `t`: `t.split(':')` must give exactly two pieces, the text must have the
      clock shape, and the hour and minute must be at most 23 and 59. `int` ignores the newline
      the shape allows after the minutes. */
  function ExplicitTime(t: string): (r: Option<Time>)
    ensures r.Some? ==> ValidTime(r.value)
    ensures r.Some? ==> ClockShape(t) && Count(t, ':') == 1
  {
    SplitCount(t, ':');
    if Count(t, ':') != 1 || !ClockShape(t) then None
    else
      var hm := Split(t, ':');
      var hour, minute := DigitsValue(hm[0]), DigitsValue(Strip(hm[1]));
      if hour > 23 || minute > 59 then None else Some(Time(hour, minute))
  }

  /** `part.isdigit() and int(part) <= 9999` */
  predicate PartOk(p: string)
  {
    AllDigits(p) && DigitsValue(p) <= 9999
  }

  predicate AllPartsOk(parts: seq<string>)
  {
    forall i :: 0 <= i < |parts| ==> PartOk(parts[i])
  }

  /** The year of a three-part date: a year below 100 is taken as 2000 plus it. */
  function FullYear(year: int): int
  {
    if year < 100 then year + 2000 else year
  }

  /** The date named by one, two or three dot-separated numbers (day, month, year), the
      current year and month filling what is missing; the result must be a real calendar
      date, and a three-part year must lie in 1900..9999 once a two-digit year is widened. */
  function DateFromParts(parts: seq<string>, currentYear: int, currentMonth: int): (r: Option<Date>)
    requires 1000 <= currentYear <= 9999 && 1 <= currentMonth <= 12
    ensures r.Some? ==> ValidDate(r.value) && 1000 <= r.value.year
    ensures |parts| == 0 || |parts| > 3 ==> r.None?
    ensures |parts| == 1 ==>
      var d := Date(currentYear, currentMonth, DigitsValue(parts[0]));
      (r.Some? <==> ValidDate(d)) && (r.Some? ==> r.value == d)
    ensures |parts| == 2 ==>
      var d := Date(currentYear, DigitsValue(parts[1]), DigitsValue(parts[0]));
      (r.Some? <==> ValidDate(d)) && (r.Some? ==> r.value == d)
    ensures |parts| == 3 ==>
      var d := Date(FullYear(DigitsValue(parts[2])), DigitsValue(parts[1]), DigitsValue(parts[0]));
      (r.Some? <==> 1900 <= d.year && ValidDate(d)) && (r.Some? ==> r.value == d)
  {
    var d :=
      if |parts| == 1 then
        var day := DigitsValue(parts[0]);
        if day < 1 || day > 31 then None else Some(Date(currentYear, currentMonth, day))
      else if |parts| == 2 then
        var day, month := DigitsValue(parts[0]), DigitsValue(parts[1]);
        if month < 1 || month > 12 || day < 1 || day > 31 then None else Some(Date(currentYear, month, day))
      else if |parts| == 3 then
        var day, month, year := DigitsValue(parts[0]), DigitsValue(parts[1]), FullYear(DigitsValue(parts[2]));
        if month < 1 || month > 12 || day < 1 || day > 31 then None
        else if year < 1900 || year > 9999 then None
        else Some(Date(year, month, day))
      else None;
    if d.Some? && ValidDate(d.value) then d else None
  }

  /** `parse_flexible_date(input, is_end)` at the given current year and month: the date and
      time written as "DD.MM.YYYY HH:MM:00", or `None` where the source returns `False`. */
  function ParsedDate(input: string, isEnd: bool, currentYear: int, currentMonth: int): Option<string>
    requires 1000 <= currentYear <= 9999 && 1 <= currentMonth <= 12
  {
    var s := Strip(input);
    if !DateText(s) then None
    else
      var words := Split(s, ' ');
      var time := if |words| > 1 then ExplicitTime(words[1]) else Some(DefaultTime(isEnd));
      var parts := Split(if |words| > 1 then words[0] else s, '.');
      if time.None? || !AllPartsOk(parts) then None else DateTimeText(parts, time.value, currentYear, currentMonth)
  }

  /** The accepted date of `parts` at the time `time`, written as "DD.MM.YYYY HH:MM:00". */
  function DateTimeText(parts: seq<string>, time: Time, currentYear: int, currentMonth: int): Option<string>
    requires 1000 <= currentYear <= 9999 && 1 <= currentMonth <= 12 && ValidTime(time)
  {
    match DateFromParts(parts, currentYear, currentMonth)
    case None => None
    case Some(d) => Some(FormatDateTime(DateTime(d, time.hour, time.minute, 0)))
  }

  /** `parse_flexible_date`, with its loop checking every dot-separated part. */
  method ParseFlexibleDate(input: string, isEnd: bool, currentYear: int, currentMonth: int) returns (r: Option<string>)
    requires 1000 <= currentYear <= 9999 && 1 <= currentMonth <= 12
    ensures r == ParsedDate(input, isEnd, currentYear, currentMonth)
  {
    var s := Strip(input);
    if !DateText(s) {
      return None;
    }
    var words := Split(s, ' ');
    var time := Some(DefaultTime(isEnd));
    var dateText := s;
    if |words| > 1 {
      dateText := words[0];
      time := ExplicitTime(words[1]);
      if time.None? {
        return None;
      }
    }
    var parts := Split(dateText, '.');
    var partsOk := CheckParts(parts);
    if !partsOk {
      return None;
    }
    r := DateTimeText(parts, time.value, currentYear, currentMonth);
  }

  /** The `for part in date_parts` loop: every part is digits only and at most 9999. */
  method CheckParts(parts: seq<string>) returns (ok: bool)
    ensures ok <==> AllPartsOk(parts)
  {
    for k := 0 to |parts|
      invariant forall j :: 0 <= j < k ==> PartOk(parts[j])
    {
      if !PartOk(parts[k]) {
        return false;
      }
    }
    return true;
  }

  /** Every accepted input yields text that `convert_to_unix_timestamp` accepts, with zero
      seconds. */
  lemma ParsedDateIsTimestamp(input: string, isEnd: bool, currentYear: int, currentMonth: int)
    requires 1000 <= currentYear <= 9999 && 1 <= currentMonth <= 12
    ensures var r := ParsedDate(input, isEnd, currentYear, currentMonth);
      r.Some? ==> ParseDateTime(r.value).Some? && ParseDateTime(r.value).value.second == 0
                  && ConvertToUnixTimestamp(r.value).Some?
  {
    var r := ParsedDate(input, isEnd, currentYear, currentMonth);
    if r.Some? {
      var s := Strip(input);
      var words := Split(s, ' ');
      var time := if |words| > 1 then ExplicitTime(words[1]) else Some(DefaultTime(isEnd));
      var parts := Split(if |words| > 1 then words[0] else s, '.');
      var d := DateFromParts(parts, currentYear, currentMonth).value;
      ParseFormatDateTime(DateTime(d, time.value.hour, time.value.minute, 0));
    }
  }

  /** Without a typed time the default time is used: 23:59 for an end, 00:00 for a start. */
  lemma ParsedDateDefaultTime(input: string, isEnd: bool, currentYear: int, currentMonth: int)
    requires 1000 <= currentYear <= 9999 && 1 <= currentMonth <= 12
    requires ' ' !in Strip(input)
    ensures var r := ParsedDate(input, isEnd, currentYear, currentMonth);
      r.Some? ==> ParseDateTime(r.value).Some?
                  && ParseDateTime(r.value).value.hour == DefaultTime(isEnd).hour
                  && ParseDateTime(r.value).value.minute == DefaultTime(isEnd).minute
  {
    var r := ParsedDate(input, isEnd, currentYear, currentMonth);
    if r.Some? {
      var s := Strip(input);
      SplitNoSeparator(s, ' ');
      var d := DateFromParts(Split(s, '.'), currentYear, currentMonth).value;
      ParseFormatDateTime(DateTime(d, DefaultTime(isEnd).hour, DefaultTime(isEnd).minute, 0));
    }
  }

  /** A typed time makes `is_end` irrelevant. */
  lemma ParsedDateExplicitTime(input: string, currentYear: int, currentMonth: int)
    requires 1000 <= currentYear <= 9999 && 1 <= currentMonth <= 12
    requires |Split(Strip(input), ' ')| > 1
    ensures ParsedDate(input, true, currentYear, currentMonth) == ParsedDate(input, false, currentYear, currentMonth)
  {
  }

  /** Text without a space has no typed time: its date parts are read at the default time. */
  lemma ParsedDateWithoutTime(s: string, isEnd: bool, currentYear: int, currentMonth: int)
    requires 1000 <= currentYear <= 9999 && 1 <= currentMonth <= 12
    requires Strip(s) == s && DateText(s) && ' ' !in s
    ensures ParsedDate(s, isEnd, currentYear, currentMonth)
            == if AllPartsOk(Split(s, '.')) then DateTimeText(Split(s, '.'), DefaultTime(isEnd), currentYear, currentMonth) else None
  {
    SplitNoSeparator(s, ' ');
  }

  /** A bare day number is accepted exactly when it is a day of the current month, and then
      names that day at the default time. */
  lemma ParsedDateDayOfMonth(day: nat, isEnd: bool, currentYear: int, currentMonth: int)
    requires 1000 <= currentYear <= 9999 && 1 <= currentMonth <= 12
    ensures ParsedDate(NatToString(day), isEnd, currentYear, currentMonth).Some?
            <==> 1 <= day <= DaysInMonth(currentYear, currentMonth)
    ensures 1 <= day <= DaysInMonth(currentYear, currentMonth) ==>
      ParsedDate(NatToString(day), isEnd, currentYear, currentMonth)
        == Some(FormatDateTime(DateTime(Date(currentYear, currentMonth, day), DefaultTime(isEnd).hour, DefaultTime(isEnd).minute, 0)))
  {
    var s := NatToString(day);
    DigitsHoldNoSeparator(s);
    StripUnchanged(s);
    assert DateText(s);
    ParsedDateWithoutTime(s, isEnd, currentYear, currentMonth);
    SplitNoSeparator(s, '.');
    assert [s][0] == s;
    assert AllPartsOk([s]) <==> day <= 9999;
    var d := Date(currentYear, currentMonth, day);
    assert DateFromParts([s], currentYear, currentMonth)
           == if 1 <= day <= DaysInMonth(currentYear, currentMonth) then Some(d) else None;
  }

  /** A zero-padded "HH:MM" is read as that hour and minute. */
  lemma ClockRoundTrip(hour: int, minute: int)
    requires 0 <= hour <= 23 && 0 <= minute <= 59
    ensures ExplicitTime(Pad2(hour) + ":" + Pad2(minute)) == Some(Time(hour, minute))
  {
    var hh, mi := Pad2(hour), Pad2(minute);
    DigitsHoldNoSeparator(hh);
    DigitsHoldNoSeparator(mi);
    var clock := hh + ":" + mi;
    assert Split(clock, ':') == [hh, mi] by {
      assert clock == hh + [':'] + mi;
      SplitAtSeparator(hh, mi, ':');
      SplitNoSeparator(mi, ':');
    }
    SplitCount(clock, ':');
    assert ClockBody(clock) by {
      assert |clock| == 5 && clock[2] == ':';
      forall i | 0 <= i < 5 && i != 2 ensures IsDigit(clock[i]) {
        if i < 2 { assert clock[i] == hh[i]; } else { assert clock[i] == mi[i - 3]; }
      }
    }
    StripUnchanged(mi);
  }

  /** "DD.MM.YYYY" splits at its dots into its three zero-padded numbers. */
  lemma FormatDateParts(d: Date)
    requires ValidDate(d) && 1000 <= d.year
    ensures Split(FormatDate(d), '.') == [Pad2(d.day), Pad2(d.month), Pad4(d.year)]
  {
    var dd, mm, yy := Pad2(d.day), Pad2(d.month), Pad4(d.year);
    DigitsHoldNoSeparator(dd);
    DigitsHoldNoSeparator(mm);
    DigitsHoldNoSeparator(yy);
    assert FormatDate(d) == dd + ['.'] + (mm + ['.'] + yy);
    SplitAtSeparator(dd, mm + ['.'] + yy, '.');
    SplitAtSeparator(mm, yy, '.');
    SplitNoSeparator(yy, '.');
  }

  /** Text accepted character by character stays accepted when joined. */
  lemma DateTextAppend(a: string, b: string)
    requires DateText(a) && DateText(b)
    ensures DateText(a + b)
  {
    forall i | 0 <= i < |a + b| ensures DateChar((a + b)[i]) {
      if i < |a| {
        assert (a + b)[i] == a[i];
      } else {
        assert (a + b)[i] == b[i - |a|];
      }
    }
  }

  /** "DD.MM.YYYY HH:MM" consists of characters `[\d\s.:]` accepts, and splits at its one
      space into the date and the clock. */
  lemma DateClockText(d: Date, hour: int, minute: int)
    requires ValidDate(d) && 1000 <= d.year && 0 <= hour <= 23 && 0 <= minute <= 59
    ensures var s := FormatDate(d) + " " + Pad2(hour) + ":" + Pad2(minute);
      DateText(s) && Strip(s) == s && Split(s, ' ') == [FormatDate(d), Pad2(hour) + ":" + Pad2(minute)]
  {
    var dd, mm, yy := Pad2(d.day), Pad2(d.month), Pad4(d.year);
    var hh, mi := Pad2(hour), Pad2(minute);
    DigitsHoldNoSeparator(dd); DigitsHoldNoSeparator(mm); DigitsHoldNoSeparator(yy);
    DigitsHoldNoSeparator(hh); DigitsHoldNoSeparator(mi);
    var date := FormatDate(d);
    var s := date + " " + hh + ":" + mi;
    assert DateText(".") && DateText(":") && DateText(" ");
    DateTextAppend(dd, ".");
    DateTextAppend(dd + ".", mm);
    DateTextAppend(dd + "." + mm, ".");
    DateTextAppend(dd + "." + mm + ".", yy);
    DateTextAppend(date, " ");
    DateTextAppend(date + " ", hh);
    DateTextAppend(date + " " + hh, ":");
    DateTextAppend(date + " " + hh + ":", mi);
    assert s[0] == dd[0] && s[|s| - 1] == mi[1];
    StripUnchanged(s);
    ClockAfterSpace(date, hh, mi);
    assert ' ' !in date;
    SplitAtSeparator(date, hh + ":" + mi, ' ');
    assert ' ' !in hh + ":" + mi;
    SplitNoSeparator(hh + ":" + mi, ' ');
  }

  lemma ClockAfterSpace(date: string, hh: string, mi: string)
    ensures date + " " + hh + ":" + mi == date + [' '] + (hh + ":" + mi)
  {
  }

  /** What the bot writes as "DD.MM.YYYY HH:MM" is read back as that date and time. */
  lemma ParsedDateRoundTrip(d: Date, hour: int, minute: int, isEnd: bool, currentYear: int, currentMonth: int)
    requires 1000 <= currentYear <= 9999 && 1 <= currentMonth <= 12
    requires ValidDate(d) && 1900 <= d.year && 0 <= hour <= 23 && 0 <= minute <= 59
    ensures ParsedDate(FormatDate(d) + " " + Pad2(hour) + ":" + Pad2(minute), isEnd, currentYear, currentMonth)
            == Some(FormatDateTime(DateTime(d, hour, minute, 0)))
  {
    DateClockText(d, hour, minute);
    ClockRoundTrip(hour, minute);
    FormatDateParts(d);
    PaddedDateParts(d, currentYear, currentMonth);
  }

  /** The zero-padded day, month and year of a date from 1900 on pass the part check and name
      that date again. */
  lemma PaddedDateParts(d: Date, currentYear: int, currentMonth: int)
    requires 1000 <= currentYear <= 9999 && 1 <= currentMonth <= 12
    requires ValidDate(d) && 1900 <= d.year
    ensures var parts := [Pad2(d.day), Pad2(d.month), Pad4(d.year)];
      AllPartsOk(parts) && DateFromParts(parts, currentYear, currentMonth) == Some(d)
  {
    var parts := [Pad2(d.day), Pad2(d.month), Pad4(d.year)];
    assert PartOk(parts[0]) && PartOk(parts[1]) && PartOk(parts[2]);
    assert FullYear(DigitsValue(parts[2])) == d.year;
  }

  // ---------------------------------------------------------------- check_user_period

  /** The three results of `check_user_period`: `False` for more than one dash, a pair of
      parsed dates, or `None` when a date does not parse. */
  datatype PeriodCheck = TooManyDashes | Period(start: string, end: string) | NoPeriod

  /** `check_user_period(input)`: "A-B" gives the start of A and the end of B, a single date
      gives its own start and end. */
  function CheckUserPeriod(input: string, currentYear: int, currentMonth: int): PeriodCheck
    requires 1000 <= currentYear <= 9999 && 1 <= currentMonth <= 12
  {
    SplitCount(input, '-');
    CountZero(input, '-');
    if Count(input, '-') > 1 then TooManyDashes
    else
      var startInput, endInput :=
        if '-' in input then Split(input, '-')[0] else input,
        if '-' in input then Split(input, '-')[1] else input;
      var start := ParsedDate(startInput, false, currentYear, currentMonth);
      var end := ParsedDate(endInput, true, currentYear, currentMonth);
      if start.Some? && end.Some? then Period(start.value, end.value) else NoPeriod
  }

  /** "A-B" with no other dash is read as the start of A and the end of B. */
  lemma CheckUserPeriodRange(sa: string, sb: string, currentYear: int, currentMonth: int)
    requires 1000 <= currentYear <= 9999 && 1 <= currentMonth <= 12
    requires '-' !in sa && '-' !in sb
    ensures var start, end := ParsedDate(sa, false, currentYear, currentMonth), ParsedDate(sb, true, currentYear, currentMonth);
      CheckUserPeriod(sa + "-" + sb, currentYear, currentMonth)
      == if start.Some? && end.Some? then Period(start.value, end.value) else NoPeriod
  {
    var u := sa + "-" + sb;
    assert u == sa + ['-'] + sb;
    SplitAtSeparator(sa, sb, '-');
    SplitNoSeparator(sb, '-');
    assert Split(u, '-') == [sa, sb];
    SplitCount(u, '-');
    assert Count(u, '-') == 1;
    assert u[|sa|] == '-';
    assert '-' in u;
  }

  /** "A-B" with two days of the current month is the start of day A to the end of day B;
      nothing checks that A comes before B. */
  lemma CheckUserPeriodDays(a: nat, b: nat, currentYear: int, currentMonth: int)
    requires 1000 <= currentYear <= 9999 && 1 <= currentMonth <= 12
    requires 1 <= a <= DaysInMonth(currentYear, currentMonth) && 1 <= b <= DaysInMonth(currentYear, currentMonth)
    ensures CheckUserPeriod(NatToString(a) + "-" + NatToString(b), currentYear, currentMonth)
            == Period(FormatDateTime(DateTime(Date(currentYear, currentMonth, a), 0, 0, 0)),
                      FormatDateTime(DateTime(Date(currentYear, currentMonth, b), 23, 59, 0)))
  {
    DigitsHoldNoSeparator(NatToString(a));
    DigitsHoldNoSeparator(NatToString(b));
    CheckUserPeriodRange(NatToString(a), NatToString(b), currentYear, currentMonth);
    ParsedDateDayOfMonth(a, false, currentYear, currentMonth);
    ParsedDateDayOfMonth(b, true, currentYear, currentMonth);
  }

  /** A single day of the current month is the whole of that day. */
  lemma CheckUserPeriodOneDay(a: nat, currentYear: int, currentMonth: int)
    requires 1000 <= currentYear <= 9999 && 1 <= currentMonth <= 12
    requires 1 <= a <= DaysInMonth(currentYear, currentMonth)
    ensures CheckUserPeriod(NatToString(a), currentYear, currentMonth)
            == Period(FormatDateTime(DateTime(Date(currentYear, currentMonth, a), 0, 0, 0)),
                      FormatDateTime(DateTime(Date(currentYear, currentMonth, a), 23, 59, 0)))
  {
    var sa := NatToString(a);
    DigitsHoldNoSeparator(sa);
    CountZero(sa, '-');
    ParsedDateDayOfMonth(a, false, currentYear, currentMonth);
    ParsedDateDayOfMonth(a, true, currentYear, currentMonth);
  }

  /** A single date with a typed time gives a period that starts and ends at that moment. */
  lemma CheckUserPeriodExplicitTime(input: string, currentYear: int, currentMonth: int)
    requires 1000 <= currentYear <= 9999 && 1 <= currentMonth <= 12
    requires '-' !in input && |Split(Strip(input), ' ')| > 1
    ensures CheckUserPeriod(input, currentYear, currentMonth).Period? ==>
            CheckUserPeriod(input, currentYear, currentMonth).start == CheckUserPeriod(input, currentYear, currentMonth).end
  {
    CountZero(input, '-');
    ParsedDateExplicitTime(input, currentYear, currentMonth);
  }

  // ---------------------------------------------------------------- get_specific_month

  /** `format_date_range(s, e)`: the first second of `s` and the last second of `e`. */
  function FormatDateRange(s: Date, e: Date): seq<string>
    requires ValidDate(s) && 1000 <= s.year && ValidDate(e) && 1000 <= e.year
  {
    [FormatDate(s) + " 00:00:00", FormatDate(e) + " 23:59:59"]
  }

  /** `get_specific_month(period, today, format_date_range)`: the range from the first to the
      last day of month `period` of the current year; `None` where `date` raises for a month
      outside 1 to 12. The last day is found as the day before the first of the next month. */
  function GetSpecificMonth(period: int, today: Date): Option<seq<string>>
    requires ValidDate(today) && 1000 <= today.year
  {
    if period < 1 || period > 12 then None
    else
      var start := Date(today.year, period, 1);
      var end := if period == 12 then Date(today.year, 12, 31) else PrevDay(Date(today.year, period + 1, 1));
      Some(FormatDateRange(start, end))
  }

  /** The range of a month starts at 00:00:00 on its first day, ends at 23:59:59 on its last
      day, and so spans all its days to the second. */
  lemma GetSpecificMonthRange(period: int, today: Date)
    requires ValidDate(today) && 1000 <= today.year
    ensures GetSpecificMonth(period, today).Some? <==> 1 <= period <= 12
    ensures 1 <= period <= 12 ==>
      var y := today.year;
      var r := GetSpecificMonth(period, today).value;
      r == [FormatDateTime(DateTime(Date(y, period, 1), 0, 0, 0)),
            FormatDateTime(DateTime(Date(y, period, DaysInMonth(y, period)), 23, 59, 59))]
      && ConvertToUnixTimestamp(r[1]).Some? && ConvertToUnixTimestamp(r[0]).Some?
      && ConvertToUnixTimestamp(r[1]).value - ConvertToUnixTimestamp(r[0]).value == DaysInMonth(y, period) * 86400 - 1
  {
    if 1 <= period <= 12 {
      var y := today.year;
      var first := Date(y, period, 1);
      var last := Date(y, period, DaysInMonth(y, period));
      var t0 := DateTime(first, 0, 0, 0);
      var t1 := DateTime(last, 23, 59, 59);
      assert GetSpecificMonth(period, today) == Some(FormatDateRange(first, last));
      FormatWholeDay(first);
      FormatWholeDay(last);
      ConvertFormatted(t0);
      ConvertFormatted(t1);
      MonthSpan(y, period);
    }
  }

  /** The first and the last second of a day, written out. */
  lemma FormatWholeDay(d: Date)
    requires ValidDate(d) && 1000 <= d.year
    ensures FormatDateTime(DateTime(d, 0, 0, 0)) == FormatDate(d) + " 00:00:00"
    ensures FormatDateTime(DateTime(d, 23, 59, 59)) == FormatDate(d) + " 23:59:59"
  {
    assert Pad2(0) == "00" && Pad2(23) == "23" && Pad2(59) == "59";
  }

  /** From 00:00:00 on the first of a month to 23:59:59 on its last day. */
  lemma MonthSpan(y: int, m: int)
    requires 1 <= m <= 12
    ensures UtcPlus5Timestamp(DateTime(Date(y, m, DaysInMonth(y, m)), 23, 59, 59))
            - UtcPlus5Timestamp(DateTime(Date(y, m, 1), 0, 0, 0)) == DaysInMonth(y, m) * 86400 - 1
  {
    var e0 := EpochDay(Date(y, m, 1));
    assert EpochDay(Date(y, m, DaysInMonth(y, m))) == e0 + DaysInMonth(y, m) - 1;
    assert (e0 + DaysInMonth(y, m) - 1) * 86400 == e0 * 86400 + DaysInMonth(y, m) * 86400 - 86400;
  }
}
