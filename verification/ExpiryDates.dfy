/** The expiry cell of a bhavcopy row: an ISO date in the new format, day-month-year with an
    English month abbreviation in the legacy one. Days are proleptic Gregorian ordinals. */
module ExpiryDates {
  import opened Collections
  import opened Symbols

  // ----- the calendar

  predicate Leap(year: int) { year % 4 == 0 && (year % 100 != 0 || year % 400 == 0) }

  function DaysIn(year: int, month: int): int {
    if month == 2 then (if Leap(year) then 29 else 28)
    else if month == 4 || month == 6 || month == 9 || month == 11 then 30 else 31
  }

  function DaysBeforeMonth(year: int, month: int): int
    decreases month
  {
    if month <= 1 then 0 else DaysBeforeMonth(year, month - 1) + DaysIn(year, month - 1)
  }

  function DaysBeforeYear(year: int): int { 365 * (year - 1) + (year - 1) / 4 - (year - 1) / 100 + (year - 1) / 400 }

  predicate IsDate(year: int, month: int, day: int) {
    1 <= year <= 9999 && 1 <= month <= 12 && 1 <= day <= DaysIn(year, month)
  }

  function Ordinal(year: int, month: int, day: int): int { DaysBeforeYear(year) + DaysBeforeMonth(year, month) + day }

  function DayOf(year: int, month: int, day: int): Option<int> {
    if IsDate(year, month, day) then Some(Ordinal(year, month, day)) else None
  }

  const LAST_ORDINAL := 3652059  // 9999-12-31

  /** The Monday of the week that has the year's first Thursday; day 1 is a Monday. */
  function WeekOneMonday(newYear: int): int {
    var weekday := (newYear + 6) % 7;
    if weekday <= 3 then newYear - weekday else newYear - weekday + 7
  }

  /** The Monday of week 1. */
  function FirstMonday(year: int): int { WeekOneMonday(Ordinal(year, 1, 1)) }

  /** A year has 53 weeks when it starts on a Thursday, or is a leap year from a Wednesday. */
  predicate IsWeek(year: int, week: int) {
    var weekday := (Ordinal(year, 1, 1) + 6) % 7;
    1 <= week <= 52 || (week == 53 && (weekday == 3 || (weekday == 2 && Leap(year))))
  }

  function WeekDay(year: int, week: int, day: int): Option<int> {
    var ordinal := FirstMonday(year) + 7 * (week - 1) + day - 1;
    if 1 <= year <= 9999 && IsWeek(year, week) && 1 <= day <= 7 && 1 <= ordinal <= LAST_ORDINAL
    then Some(ordinal) else None
  }

  lemma QuotientSteps(y: int)
    ensures y / 4 - (y - 1) / 4 == if y % 4 == 0 then 1 else 0
    ensures y / 100 - (y - 1) / 100 == if y % 100 == 0 then 1 else 0
    ensures y / 400 - (y - 1) / 400 == if y % 400 == 0 then 1 else 0
  {
  }

  lemma MultiplesNest(y: int)
    ensures y % 400 == 0 ==> y % 100 == 0
    ensures y % 100 == 0 ==> y % 4 == 0
  {
  }

  lemma YearLength(year: int)
    requires year >= 1
    ensures Ordinal(year + 1, 1, 1) - Ordinal(year, 1, 1) == if Leap(year) then 366 else 365
  {
    QuotientSteps(year);
    MultiplesNest(year);
    assert DaysBeforeYear(year + 1) - DaysBeforeYear(year) == if Leap(year) then 366 else 365;
  }

  /** The first days of the months, as days of the year from 0; from March on a leap year is
      a day ahead. */
  lemma {:induction false} MonthsStart(year: int, month: int)
    requires 1 <= month <= 12
    ensures DaysBeforeMonth(year, month) ==
            [0, 31, 59, 90, 120, 151, 181, 212, 243, 273, 304, 334][month - 1]
            + if month > 2 && Leap(year) then 1 else 0
  {
    if month > 1 {
      MonthsStart(year, month - 1);
    }
  }

  /** The calendar has no gap: the day after a date, in its month, in the next month or in the
      next year, has the next ordinal. */
  lemma NextDay(year: int, month: int, day: int)
    requires IsDate(year, month, day)
    ensures var next := Ordinal(year, month, day) + 1;
            if day < DaysIn(year, month) then DayOf(year, month, day + 1) == Some(next)
            else if month < 12 then DayOf(year, month + 1, 1) == Some(next)
            else if year < 9999 then DayOf(year + 1, 1, 1) == Some(next)
            else next == LAST_ORDINAL + 1
  {
    YearLength(year);
    MonthsStart(year, 12);
  }

  /** Week 1 is the one with 4 January, and the weeks of a year end where the next year's begin. */
  lemma WeeksAre(year: int)
    requires year >= 1
    ensures FirstMonday(year) <= Ordinal(year, 1, 4) <= FirstMonday(year) + 6
    ensures FirstMonday(year + 1) == FirstMonday(year) + 7 * if IsWeek(year, 53) then 53 else 52
  {
    YearLength(year);
    WeeksBetween(Ordinal(year, 1, 1), Ordinal(year + 1, 1, 1));
  }

  /** 4 January is in week 1. */
  lemma WeekOneIs(year: int)
    requires 1 <= year <= 9999
    ensures exists day :: WeekDay(year, 1, day) == Some(Ordinal(year, 1, 4))
  {
    WeeksAre(year);
    var day := Ordinal(year, 1, 4) - FirstMonday(year) + 1;
    assert WeekDay(year, 1, day) == Some(Ordinal(year, 1, 4));
  }

  lemma LastWeekEnds(year: int, week: int)
    requires year >= 1 && IsWeek(year, week) && !IsWeek(year, week + 1)
    ensures FirstMonday(year) + 7 * week == FirstMonday(year + 1)
  {
    WeeksAre(year);
  }

  /** The day after a day of a week is in the same week, the next one, or week 1 of the next year. */
  lemma WeekDaysRun(year: int, week: int, day: int)
    requires WeekDay(year, week, day).Some? && WeekDay(year, week, day).value < LAST_ORDINAL
    ensures var next := WeekDay(year, week, day).value + 1;
            if day < 7 then WeekDay(year, week, day + 1) == Some(next)
            else if IsWeek(year, week + 1) then WeekDay(year, week + 1, 1) == Some(next)
            else year < 9999 ==> WeekDay(year + 1, 1, 1) == Some(next)
  {
    if day == 7 && !IsWeek(year, week + 1) {
      LastWeekEnds(year, week);
    }
  }

  lemma WeeksBetween(newYear: int, next: int)
    requires next == newYear + 365 || next == newYear + 366
    ensures WeekOneMonday(newYear) <= newYear + 3 <= WeekOneMonday(newYear) + 6
    ensures WeekOneMonday(newYear) % 7 == 1
    ensures var weekday := (newYear + 6) % 7;
            WeekOneMonday(next) - WeekOneMonday(newYear) ==
            if weekday == 3 || (weekday == 2 && next == newYear + 366) then 371 else 364
  {
  }

  // ----- digits

  predicate IsDigit(c: char) { '0' <= c <= '9' }

  function DigitOf(c: char): int { c as int - '0' as int }

  function Number(s: string): Option<int> {
    if s == [] then Some(0)
    else match Number(s[..|s| - 1])
         case None => None
         case Some(n) => if IsDigit(s[|s| - 1]) then Some(10 * n + DigitOf(s[|s| - 1])) else None
  }

  /** `n` characters of `s` from `i`, as a number. */
  function NumberAt(s: string, i: nat, n: nat): Option<int> { if i + n <= |s| then Number(s[i..i + n]) else None }

  // ----- the two spellings

  predicate DashAt(s: string, i: nat) { i < |s| && s[i] == '-' }

  /** `date.fromisoformat`: extended or basic, calendar or week date. What follows a complete
      date within ten characters is ignored. */
  function IsoDate(s: string): Option<int> {
    if |s| != 7 && |s| != 8 && |s| != 10 then None
    else match NumberAt(s, 0, 4)
         case None => None
         case Some(year) =>
           var dashed := DashAt(s, 4);
           var at: nat := if dashed then 5 else 4;
           if s[at] == 'W' then IsoWeek(s, year, at + 1, dashed) else IsoCalendar(s, year, at, dashed)
  }

  function IsoCalendar(s: string, year: int, at: nat, dashed: bool): Option<int> {
    var month := NumberAt(s, at, 2);
    var day := NumberAt(s, if dashed then at + 3 else at + 2, 2);
    if month.None? || day.None? || (dashed && !DashAt(s, at + 2)) then None
    else DayOf(year, month.value, day.value)
  }

  function IsoWeek(s: string, year: int, at: nat, dashed: bool): Option<int> {
    var week := NumberAt(s, at, 2);
    if week.None? then None
    else if at + 2 == |s| then WeekDay(year, week.value, 1)
    else
      var day := NumberAt(s, if dashed then at + 3 else at + 2, 1);
      if day.None? || (dashed && !DashAt(s, at + 2)) then None else WeekDay(year, week.value, day.value)
  }

  const MONTHS := ["JAN", "FEB", "MAR", "APR", "MAY", "JUN", "JUL", "AUG", "SEP", "OCT", "NOV", "DEC"]

  function MonthNamed(name: string, months: nat := 12): Option<int>
    requires months <= |MONTHS|
  {
    if months == 0 then None else if MONTHS[months - 1] == name then Some(months) else MonthNamed(name, months - 1)
  }

  /** `strptime` with `%d-%b-%Y`; the day has one or two digits. */
  function LegacyDate(s: string): Option<int> {
    if |s| != 10 && |s| != 11 then None
    else
      var n := |s| - 9;
      var day, month, year := NumberAt(s, 0, n), MonthNamed(s[n + 1..n + 4]), NumberAt(s, n + 5, 4);
      if day.None? || month.None? || year.None? || !DashAt(s, n) || !DashAt(s, n + 4) then None
      else DayOf(year.value, month.value, day.value)
  }

  function FirstTen(s: string): string { s[..Min(10, |s|)] }

  /** `_parse_expiry` */
  function ParseExpiry(cell: string): Option<int> {
    var s := Strip(cell);
    if s == "" then None
    else if IsoDate(FirstTen(s)).Some? then IsoDate(FirstTen(s))
    else LegacyDate(Upper(s))
  }

  // ----- the same day in both formats

  function Digit(n: int): char
    requires 0 <= n <= 9
  {
    (n + 48) as char
  }

  function TwoDigits(n: int): string
    requires 0 <= n <= 99
  {
    [Digit(n / 10), Digit(n % 10)]
  }

  function FourDigits(n: int): string
    requires 0 <= n <= 9999
  {
    TwoDigits(n / 100) + TwoDigits(n % 100)
  }

  function IsoSpelling(year: int, month: int, day: int): string
    requires 0 <= year <= 9999 && 0 <= month <= 99 && 0 <= day <= 99
  {
    FourDigits(year) + "-" + TwoDigits(month) + "-" + TwoDigits(day)
  }

  /** `name` abbreviates the month: `Jan`, `JAN`, `jan` or any other capitalisation of it. */
  predicate Abbreviates(name: string, month: int) {
    match month
    case 1 => SameLetters(name, "Jan")
    case 2 => SameLetters(name, "Feb")
    case 3 => SameLetters(name, "Mar")
    case 4 => SameLetters(name, "Apr")
    case 5 => SameLetters(name, "May")
    case 6 => SameLetters(name, "Jun")
    case 7 => SameLetters(name, "Jul")
    case 8 => SameLetters(name, "Aug")
    case 9 => SameLetters(name, "Sep")
    case 10 => SameLetters(name, "Oct")
    case 11 => SameLetters(name, "Nov")
    case 12 => SameLetters(name, "Dec")
    case _ => false
  }

  function LegacySpelling(year: int, name: string, day: int): string
    requires 0 <= year <= 9999 && 0 <= day <= 99
  {
    TwoDigits(day) + "-" + name + "-" + FourDigits(year)
  }

  lemma NumberSnoc(s: string, c: char)
    ensures Number(s + [c]) ==
            match Number(s) case None => None case Some(n) => if IsDigit(c) then Some(10 * n + DigitOf(c)) else None
  {
    assert (s + [c])[..|s + [c]| - 1] == s;
  }

  lemma TwoDigitsRead(n: int)
    requires 0 <= n <= 99
    ensures Number(TwoDigits(n)) == Some(n)
  {
    NumberSnoc([], Digit(n / 10));
    NumberSnoc([] + [Digit(n / 10)], Digit(n % 10));
    assert [] + [Digit(n / 10)] + [Digit(n % 10)] == TwoDigits(n);
  }

  lemma FourDigitsRead(n: int)
    requires 0 <= n <= 9999
    ensures Number(FourDigits(n)) == Some(n)
  {
    var high, low := n / 100, n % 100;
    TwoDigitsRead(high);
    NumberSnoc(TwoDigits(high), Digit(low / 10));
    NumberSnoc(TwoDigits(high) + [Digit(low / 10)], Digit(low % 10));
    assert TwoDigits(high) + [Digit(low / 10)] + [Digit(low % 10)] == FourDigits(n);
  }

  lemma StripNothing(s: string)
    requires s != "" && !IsSpace(s[0]) && !IsSpace(s[|s| - 1])
    ensures Strip(s) == s
  {
  }

  /** `s` is four, two and two characters with dashes between them. */
  predicate IsoDashed(s: string, year: string, month: string, day: string) {
    && |s| == 10 && |year| == 4 && |month| == 2 && |day| == 2 && s[4] == '-' && s[7] == '-'
    && s[0..4] == year && s[5..7] == month && s[8..10] == day
  }

  lemma IsoSpellingIsDashed(year: string, month: string, day: string)
    requires |year| == 4 && |month| == 2 && |day| == 2
    ensures IsoDashed(year + "-" + month + "-" + day, year, month, day)
  {
  }

  lemma IsoDateIs(s: string, year: string, month: string, day: string)
    requires IsoDashed(s, year, month, day) && Number(year).Some? && Number(month).Some? && Number(day).Some?
    requires IsDigit(s[1]) && IsDigit(s[5])
    ensures IsoDate(s) == DayOf(Number(year).value, Number(month).value, Number(day).value)
    ensures LegacyDate(Upper(s)) == None
  {
  }

  lemma IsoSpellingParses(year: int, month: int, day: int)
    requires 0 <= year <= 9999 && 0 <= month <= 99 && 0 <= day <= 99
    ensures ParseExpiry(IsoSpelling(year, month, day)) == DayOf(year, month, day)
  {
    var s := IsoSpelling(year, month, day);
    FourDigitsRead(year);
    TwoDigitsRead(month);
    TwoDigitsRead(day);
    IsoSpellingIsDashed(FourDigits(year), TwoDigits(month), TwoDigits(day));
    IsoDateIs(s, FourDigits(year), TwoDigits(month), TwoDigits(day));
    StripNothing(s);
    assert FirstTen(s) == s;
  }

  /** White space around the cell does not matter. */
  lemma PaddingIsIgnored(cell: string, inner: string)
    requires Inside(cell, inner)
    ensures ParseExpiry(cell) == ParseExpiry(inner)
  {
    InsideStrips(cell, inner);
  }

  lemma {:induction false} StripKeepsStart(t: string, rest: string)
    requires t != "" && !IsSpace(t[0]) && !IsSpace(t[|t| - 1])
    ensures t <= Strip(t + rest)
  {
    var s := t + rest;
    assert s[0] == t[0];
    if rest == [] {
      assert s == t;
    } else if IsSpace(rest[|rest| - 1]) {
      assert s[..|s| - 1] == t + rest[..|rest| - 1];
      StripKeepsStart(t, rest[..|rest| - 1]);
    }
  }

  /** What follows a date in the ISO spelling, such as a time, is not looked at. */
  lemma TimeIsIgnored(year: int, month: int, day: int, rest: string)
    requires IsDate(year, month, day)
    ensures ParseExpiry(IsoSpelling(year, month, day) + rest) == Some(Ordinal(year, month, day))
  {
    var t := IsoSpelling(year, month, day);
    StripKeepsStart(t, rest);
    assert FirstTen(Strip(t + rest)) == t;
    IsoSpellingParses(year, month, day);
    StripNothing(t);
    assert FirstTen(t) == t;
    NotLegacy(t);
  }

  /** A spelling with a digit second is not one with the month's name. */
  lemma NotLegacy(s: string)
    requires |s| == 10 && s[1] != '-'
    ensures LegacyDate(Upper(s)) == None
  {
  }

  lemma MonthsDiffer(i: nat, j: nat)
    requires i < j < |MONTHS|
    ensures MONTHS[i] != MONTHS[j]
  {
    assert MONTHS[i][1] != MONTHS[j][1] || MONTHS[i][2] != MONTHS[j][2];
  }

  lemma MonthIsNamed(name: string, month: int, months: nat)
    requires 1 <= month <= months <= 12 && name == MONTHS[month - 1]
    ensures MonthNamed(name, months) == Some(month)
  {
    if month < months {
      MonthsDiffer(month - 1, months - 1);
      MonthIsNamed(name, month, months - 1);
    }
  }

  lemma UpperDigits(n: int)
    requires 0 <= n <= 9999
    ensures Upper(FourDigits(n)) == FourDigits(n)
    ensures n <= 99 ==> Upper(TwoDigits(n)) == TwoDigits(n)
  {
  }

  lemma UpperThree(name: string, t: string, u: string)
    requires SameLetters(name, t) && |t| == |u| == 3
    requires u[0] == UpperChar(t[0]) && u[1] == UpperChar(t[1]) && u[2] == UpperChar(t[2])
    ensures |name| == 3 && Upper(name) == u
  {
    SameLettersIff(name, t);
  }

  lemma AbbreviationIs(name: string, month: int)
    requires Abbreviates(name, month)
    ensures 1 <= month <= 12 && |name| == 3 && Upper(name) == MONTHS[month - 1]
  {
    var t := ["Jan", "Feb", "Mar", "Apr", "May", "Jun", "Jul", "Aug", "Sep", "Oct", "Nov", "Dec"][month - 1];
    UpperThree(name, t, MONTHS[month - 1]);
  }

  lemma UpperSpelling(year: int, name: string, day: int)
    requires 0 <= year <= 9999 && 0 <= day <= 99
    ensures Upper(LegacySpelling(year, name, day)) == LegacySpelling(year, Upper(name), day)
  {
    UpperDigits(year);
    UpperDigits(day);
  }

  /** `s` is two, three and four characters with dashes between them. */
  predicate Dashed(s: string, day: string, name: string, year: string) {
    && |s| == 11 && |day| == 2 && |name| == 3 && |year| == 4 && s[2] == '-' && s[6] == '-'
    && s[0..2] == day && s[3..6] == name && s[7..11] == year
  }

  lemma SpellingIsDashed(day: string, name: string, year: string)
    requires |day| == 2 && |name| == 3 && |year| == 4
    ensures Dashed(day + "-" + name + "-" + year, day, name, year)
  {
  }

  lemma LegacyDateIs(s: string, day: string, name: string, year: string)
    requires Dashed(s, day, name, year)
    requires Number(day).Some? && MonthNamed(name).Some? && Number(year).Some?
    ensures LegacyDate(s) == DayOf(Number(year).value, MonthNamed(name).value, Number(day).value)
  {
  }

  lemma LegacyIsNotIso(year: int, name: string, day: int)
    requires 0 <= year <= 9999 && 0 <= day <= 99 && |name| == 3
    ensures Strip(LegacySpelling(year, name, day)) == LegacySpelling(year, name, day)
    ensures IsoDate(FirstTen(LegacySpelling(year, name, day))) == None
  {
    var s := LegacySpelling(year, name, day);
    StripNothing(s);
    assert FirstTen(s)[0..4][2] == '-';
    NotANumber(FirstTen(s)[0..4], 2);
  }

  lemma LegacySpellingParses(year: int, month: int, name: string, day: int)
    requires 0 <= year <= 9999 && 0 <= day <= 99 && Abbreviates(name, month)
    ensures ParseExpiry(LegacySpelling(year, name, day)) == DayOf(year, month, day)
  {
    AbbreviationIs(name, month);
    LegacyIsNotIso(year, name, day);
    UpperSpelling(year, name, day);
    MonthIsNamed(Upper(name), month, 12);
    FourDigitsRead(year);
    TwoDigitsRead(day);
    SpellingIsDashed(TwoDigits(day), Upper(name), FourDigits(year));
    LegacyDateIs(LegacySpelling(year, Upper(name), day), TwoDigits(day), Upper(name), FourDigits(year));
  }

  /** The day may have one digit: `5-Jan-2024`. */
  lemma ShortSpellingParses(year: int, month: int, name: string, day: int)
    requires 0 <= year <= 9999 && 0 <= day <= 9 && Abbreviates(name, month)
    ensures ParseExpiry([Digit(day)] + "-" + name + "-" + FourDigits(year)) == DayOf(year, month, day)
  {
    AbbreviationIs(name, month);
    var s := [Digit(day)] + "-" + name + "-" + FourDigits(year);
    StripNothing(s);
    assert FirstTen(s) == s && s[1] == '-';
    NotANumber(s[0..4], 1);
    ShortUpper(year, name, day);
    ShortDateIs(Upper(s), year, month, Upper(name), day);
  }

  lemma ShortUpper(year: int, name: string, day: int)
    requires 0 <= year <= 9999 && 0 <= day <= 9
    ensures Upper([Digit(day)] + "-" + name + "-" + FourDigits(year))
         == [Digit(day)] + "-" + Upper(name) + "-" + FourDigits(year)
  {
    UpperDigits(year);
    assert UpperChar(Digit(day)) == Digit(day);
  }

  lemma ShortDateIs(s: string, year: int, month: int, name: string, day: int)
    requires 0 <= year <= 9999 && 0 <= day <= 9 && 1 <= month <= 12 && |name| == 3 && name == MONTHS[month - 1]
    requires s == [Digit(day)] + "-" + name + "-" + FourDigits(year)
    ensures LegacyDate(s) == DayOf(year, month, day)
  {
    FourDigitsRead(year);
    DigitReads(day);
    MonthIsNamed(name, month, 12);
    assert s[0..1] == [Digit(day)] && s[2..5] == name && s[6..10] == FourDigits(year);
    assert s[1] == '-' && s[5] == '-';
  }

  lemma {:induction false} NotANumber(s: string, i: nat)
    requires i < |s| && !IsDigit(s[i])
    ensures Number(s) == None
  {
    if i < |s| - 1 {
      NotANumber(s[..|s| - 1], i);
    }
  }

  /** The new format's `2024-01-25` and the legacy `25-Jan-2024` are the same day, in any
      capitalisation of the month, and neither is read when there is no such day. */
  lemma SpellingsAgree(year: int, month: int, name: string, day: int)
    requires 0 <= year <= 9999 && 0 <= day <= 99 && Abbreviates(name, month)
    ensures 1 <= month <= 12
    ensures ParseExpiry(IsoSpelling(year, month, day)) == ParseExpiry(LegacySpelling(year, name, day))
            == if IsDate(year, month, day) then Some(Ordinal(year, month, day)) else None
  {
    IsoSpellingParses(year, month, day);
    LegacySpellingParses(year, month, name, day);
  }

  // ----- four more of the spellings that `fromisoformat` reads

  lemma DigitReads(n: int)
    requires 0 <= n <= 9
    ensures Number([Digit(n)]) == Some(n)
  {
    NumberSnoc([], Digit(n));
    assert [] + [Digit(n)] == [Digit(n)];
  }

  /** `20240125` */
  lemma BasicSpellingParses(year: int, month: int, day: int)
    requires 0 <= year <= 9999 && 0 <= month <= 99 && 0 <= day <= 99
    ensures ParseExpiry(FourDigits(year) + TwoDigits(month) + TwoDigits(day)) == DayOf(year, month, day)
  {
    var s := FourDigits(year) + TwoDigits(month) + TwoDigits(day);
    FourDigitsRead(year);
    TwoDigitsRead(month);
    TwoDigitsRead(day);
    assert s[0..4] == FourDigits(year) && s[4..6] == TwoDigits(month) && s[6..8] == TwoDigits(day);
    StripNothing(s);
    assert s[..8] == s;
  }

  /** `2024-W04-4` */
  lemma WeekSpellingParses(year: int, week: int, day: int)
    requires 0 <= year <= 9999 && 0 <= week <= 99 && 0 <= day <= 9
    ensures ParseExpiry(FourDigits(year) + "-W" + TwoDigits(week) + "-" + [Digit(day)]) == WeekDay(year, week, day)
  {
    var s := FourDigits(year) + "-W" + TwoDigits(week) + "-" + [Digit(day)];
    FourDigitsRead(year);
    TwoDigitsRead(week);
    DigitReads(day);
    assert s[0..4] == FourDigits(year) && s[6..8] == TwoDigits(week) && s[9..10] == [Digit(day)];
    assert s[4] == '-' && s[5] == 'W' && s[8] == '-';
    StripNothing(s);
    assert s[..10] == s;
  }

  /** `2024-W04` is the Monday. */
  lemma BareWeekSpellingParses(year: int, week: int)
    requires 0 <= year <= 9999 && 0 <= week <= 99
    ensures ParseExpiry(FourDigits(year) + "-W" + TwoDigits(week)) == WeekDay(year, week, 1)
  {
    var s := FourDigits(year) + "-W" + TwoDigits(week);
    FourDigitsRead(year);
    TwoDigitsRead(week);
    assert s[0..4] == FourDigits(year) && s[6..8] == TwoDigits(week);
    assert s[4] == '-' && s[5] == 'W';
    StripNothing(s);
    assert s[..8] == s;
  }

  /** `2024W044` */
  lemma BasicWeekSpellingParses(year: int, week: int, day: int)
    requires 0 <= year <= 9999 && 0 <= week <= 99 && 0 <= day <= 9
    ensures ParseExpiry(FourDigits(year) + "W" + TwoDigits(week) + [Digit(day)]) == WeekDay(year, week, day)
  {
    var s := FourDigits(year) + "W" + TwoDigits(week) + [Digit(day)];
    FourDigitsRead(year);
    TwoDigitsRead(week);
    DigitReads(day);
    assert s[0..4] == FourDigits(year) && s[5..7] == TwoDigits(week) && s[7..8] == [Digit(day)];
    assert s[4] == 'W';
    StripNothing(s);
    assert s[..8] == s;
  }
}
