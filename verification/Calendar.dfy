/** The calendar behind `received:` (mailsearch.py 98-138). A day is its number in the Gregorian
    calendar, day 1 being 0001-01-01, a Monday. */
module Calendar {
  import opened Common

  datatype Date = Date(year: int, month: int, day: int) {
    predicate Valid() {
      year >= 1 && 1 <= month <= 12 && 1 <= day <= DaysIn(year, month)
    }
  }

  predicate Leap(year: int) {
    year % 4 == 0 && (year % 100 != 0 || year % 400 == 0)
  }

  function DaysIn(year: int, month: int): int {
    if month == 2 then (if Leap(year) then 29 else 28)
    else if month == 4 || month == 6 || month == 9 || month == 11 then 30
    else 31
  }

  function YearDays(year: int): int { if Leap(year) then 366 else 365 }

  /** The days before the first of a year, counted year by year. */
  function BeforeYear(year: int): int
    decreases year
  {
    if year <= 1 then 0 else BeforeYear(year - 1) + YearDays(year - 1)
  }

  /** The closed form. */
  lemma {:induction false} BeforeYearClosed(year: int)
    requires year >= 1
    ensures var y := year - 1; BeforeYear(year) == 365 * y + y / 4 - y / 100 + y / 400
    decreases year
  {
    if year > 1 {
      BeforeYearClosed(year - 1);
      var y := year - 1;
      FourthYear(y);
      HundredthYear(y);
      FourHundredthYear(y);
      assert YearDays(y) == 365 + (if y % 4 == 0 then 1 else 0) - (if y % 100 == 0 then 1 else 0) + (if y % 400 == 0 then 1 else 0);
    }
  }

  lemma FourthYear(y: int)
    ensures y / 4 == (y - 1) / 4 + if y % 4 == 0 then 1 else 0
  {
  }

  lemma HundredthYear(y: int)
    ensures y / 100 == (y - 1) / 100 + if y % 100 == 0 then 1 else 0
    ensures y % 100 == 0 ==> y % 4 == 0
  {
  }

  lemma FourHundredthYear(y: int)
    ensures y / 400 == (y - 1) / 400 + if y % 400 == 0 then 1 else 0
    ensures y % 400 == 0 ==> y % 100 == 0
  {
  }

  function BeforeMonth(year: int, month: int): int
    requires 1 <= month <= 13
    decreases month
  {
    if month == 1 then 0 else BeforeMonth(year, month - 1) + DaysIn(year, month - 1)
  }

  function Number(d: Date): int
    requires d.Valid()
  {
    BeforeYear(d.year) + BeforeMonth(d.year, d.month) + d.day
  }

  lemma YearLength(year: int)
    ensures BeforeMonth(year, 13) == YearDays(year)
  {
    assert BeforeMonth(year, 3) == 31 + DaysIn(year, 2);
    assert BeforeMonth(year, 5) == 92 + DaysIn(year, 2);
    assert BeforeMonth(year, 7) == 153 + DaysIn(year, 2);
    assert BeforeMonth(year, 9) == 215 + DaysIn(year, 2);
    assert BeforeMonth(year, 11) == 276 + DaysIn(year, 2);
  }

  /** The days of a year before each of its months. */
  lemma MonthStarts(year: int)
    ensures var leap := if year % 4 == 0 && (year % 100 != 0 || year % 400 == 0) then 1 else 0;
            && BeforeMonth(year, 2) == 31 && BeforeMonth(year, 3) == 59 + leap && BeforeMonth(year, 4) == 90 + leap
            && BeforeMonth(year, 5) == 120 + leap && BeforeMonth(year, 6) == 151 + leap && BeforeMonth(year, 7) == 181 + leap
            && BeforeMonth(year, 8) == 212 + leap && BeforeMonth(year, 9) == 243 + leap && BeforeMonth(year, 10) == 273 + leap
            && BeforeMonth(year, 11) == 304 + leap && BeforeMonth(year, 12) == 334 + leap && BeforeMonth(year, 13) == 365 + leap
  {
    YearLength(year);
  }

  lemma {:induction false} MonthsAscend(year: int, m: int, n: int)
    requires 1 <= m <= n <= 13
    ensures BeforeMonth(year, m) + (n - m) * 28 <= BeforeMonth(year, n)
    decreases n - m
  {
    if m < n {
      MonthsAscend(year, m, n - 1);
    }
  }

  lemma {:induction false} YearsAscend(y: int, z: int)
    requires 1 <= y <= z
    ensures BeforeYear(y) + (z - y) * 365 <= BeforeYear(z)
    decreases z - y
  {
    if y < z {
      YearsAscend(y, z - 1);
    }
  }

  // ---- from number to date ----

  function YearOf(n: int, from: int): (year: int)
    requires from >= 1 && n > BeforeYear(from)
    ensures from <= year && BeforeYear(year) < n <= BeforeYear(year + 1)
    decreases n - BeforeYear(from)
  {
    if n <= BeforeYear(from + 1) then from else YearOf(n, from + 1)
  }

  function MonthOf(year: int, n: int, from: int): (month: int)
    requires 1 <= from <= 12 && BeforeMonth(year, from) < n <= BeforeMonth(year, 13)
    ensures from <= month <= 12 && BeforeMonth(year, month) < n <= BeforeMonth(year, month + 1)
    decreases 12 - from
  {
    if from == 12 || n <= BeforeMonth(year, from + 1) then from else MonthOf(year, n, from + 1)
  }

  function DateOf(n: int): (d: Date)
    requires n >= 1
    ensures d.Valid() && Number(d) == n
  {
    var year := YearOf(n, 1);
    YearLength(year);
    var month := MonthOf(year, n - BeforeYear(year), 1);
    Date(year, month, n - BeforeYear(year) - BeforeMonth(year, month))
  }

  /** Every day has one date: dates with the same number are the same date. */
  lemma NumberIsInjective(d: Date, e: Date)
    requires d.Valid() && e.Valid() && Number(d) == Number(e)
    ensures d == e
  {
    if d.year < e.year {
      LaterYear(d, e);
    } else if e.year < d.year {
      LaterYear(e, d);
    } else if d.month < e.month {
      LaterMonth(d, e);
    } else if e.month < d.month {
      LaterMonth(e, d);
    }
  }

  lemma LaterYear(d: Date, e: Date)
    requires d.Valid() && e.Valid() && d.year < e.year
    ensures Number(d) < Number(e)
  {
    InsideYear(d);
    InsideYear(e);
    YearsAscend(d.year + 1, e.year);
  }

  lemma LaterMonth(d: Date, e: Date)
    requires d.Valid() && e.Valid() && d.year == e.year && d.month < e.month
    ensures Number(d) < Number(e)
  {
    MonthsAscend(d.year, d.month + 1, e.month);
  }

  lemma InsideYear(d: Date)
    requires d.Valid()
    ensures BeforeYear(d.year) < Number(d) <= BeforeYear(d.year + 1)
  {
    YearLength(d.year);
    MonthsAscend(d.year, 1, d.month);
    MonthsAscend(d.year, d.month + 1, 13);
  }

  // ---- months and weeks ----

  /** `replace(day=1)` */
  function FirstOfMonth(n: int): (f: int)
    requires n >= 1
    ensures 1 <= f <= n && n < f + 31
  {
    MonthsAscend(DateOf(n).year, 1, DateOf(n).month);
    YearsAscend(1, DateOf(n).year);
    n - DateOf(n).day + 1
  }

  function NextMonth(d: Date): Date
    requires d.Valid()
  {
    if d.month == 12 then Date(d.year + 1, 1, 1) else Date(d.year, d.month + 1, 1)
  }

  lemma FirstOfMonthIs(n: int)
    requires n >= 1
    ensures DateOf(FirstOfMonth(n)) == DateOf(n).(day := 1)
  {
    NumberIsInjective(DateOf(FirstOfMonth(n)), DateOf(n).(day := 1));
  }

  lemma FirstDate(n: int) returns (d: Date)
    requires n >= 1
    ensures d == DateOf(n).(day := 1) && d.Valid() && Number(d) == FirstOfMonth(n)
  {
    FirstOfMonthIs(n);
    d := DateOf(FirstOfMonth(n));
  }

  lemma NextMonthNumber(d: Date)
    requires d.Valid()
    ensures Number(NextMonth(d)) == Number(d.(day := 1)) + DaysIn(d.year, d.month)
  {
    MonthAfter(d.year, d.month);
    if d.month == 12 {
      YearLength(d.year);
      YearAfter(d.year);
    }
  }

  lemma MonthAfter(year: int, month: int)
    requires 1 <= month <= 12
    ensures BeforeMonth(year, month + 1) == BeforeMonth(year, month) + DaysIn(year, month)
  {
  }

  lemma YearAfter(year: int)
    requires year >= 1
    ensures BeforeYear(year + 1) == BeforeYear(year) + YearDays(year) && BeforeMonth(year + 1, 1) == 0
  {
  }

  lemma DateIs(n: int, d: Date)
    requires n >= 1 && d.Valid() && Number(d) == n
    ensures DateOf(n) == d
  {
    NumberIsInjective(DateOf(n), d);
  }

  lemma SameMonth(d: Date, day: int)
    requires d.Valid() && d.(day := day).Valid()
    ensures Number(d.(day := day)) == Number(d) - d.day + day
  {
  }

  /** 32 days after the first of a month lie in the next month, whatever the month. */
  lemma ThirtyTwoDays(n: int)
    requires n >= 1
    ensures DateOf(FirstOfMonth(FirstOfMonth(n) + 32)) == NextMonth(DateOf(n))
    ensures FirstOfMonth(FirstOfMonth(n) + 32) == FirstOfMonth(n) + DaysIn(DateOf(n).year, DateOf(n).month)
  {
    var d := FirstDate(n);
    IntoNextMonth(FirstOfMonth(n), d);
  }

  lemma IntoNextMonth(first: int, d: Date)
    requires first >= 1 && d.Valid() && d.day == 1 && Number(d) == first
    ensures DateOf(FirstOfMonth(first + 32)) == NextMonth(d)
    ensures FirstOfMonth(first + 32) == first + DaysIn(d.year, d.month)
  {
    NextMonthNumber(d);
    MonthHolds(first + 32, NextMonth(d), first + DaysIn(d.year, d.month));
  }

  /** The days of a month, by their numbers. */
  lemma MonthHolds(n: int, d: Date, first: int)
    requires first >= 1 && d.Valid() && d.day == 1 && Number(d) == first && first <= n < first + DaysIn(d.year, d.month)
    ensures FirstOfMonth(n) == first && DateOf(first) == d
  {
    var e := d.(day := n - first + 1);
    SameMonth(d, e.day);
    DateIs(n, e);
    DateIs(first, d);
  }

  /** The day before the first of a month lies in the previous month. */
  lemma DayBeforeMonth(n: int)
    requires n > 31
    ensures NextMonth(DateOf(FirstOfMonth(FirstOfMonth(n) - 1))) == DateOf(n).(day := 1)
    ensures DateOf(FirstOfMonth(FirstOfMonth(n) - 1)).day == 1
  {
    var d, p := MonthBefore(n);
  }

  lemma MonthBefore(n: int) returns (d: Date, p: Date)
    requires n > 31
    ensures d == DateOf(n).(day := 1) && p == DateOf(FirstOfMonth(FirstOfMonth(n) - 1)) && NextMonth(p) == d && p.day == 1
  {
    d := FirstDate(n);
    p := BeforeFirst(FirstOfMonth(n), d);
  }

  lemma BeforeFirst(first: int, d: Date) returns (p: Date)
    requires first > 1 && d.Valid() && d.day == 1 && Number(d) == first
    ensures p == DateOf(FirstOfMonth(first - 1)) && NextMonth(p) == d && p.day == 1
  {
    var last := LastOfPrevious(d);
    SameMonth(last, 1);
    p := last.(day := 1);
    NumberIsPositive(p);
    MonthHolds(first - 1, p, first - last.day);
  }

  lemma NumberIsPositive(d: Date)
    requires d.Valid()
    ensures Number(d) >= 1
  {
    MonthsAscend(d.year, 1, d.month);
    YearsAscend(1, d.year);
  }

  lemma LastOfPrevious(d: Date) returns (last: Date)
    requires d.Valid() && d.day == 1 && Number(d) > 1
    ensures last.Valid() && NextMonth(last) == d && NextMonth(last.(day := 1)) == d && Number(last) == Number(d) - 1
  {
    if d.month == 1 {
      assert d.year > 1;
      last := Date(d.year - 1, 12, 31);
    } else {
      last := Date(d.year, d.month - 1, DaysIn(d.year, d.month - 1));
    }
    NextMonthNumber(last);
    SameMonth(last, 1);
  }

  function Weekday(n: int): int { (n + 6) % 7 }

  /** 1970-01-01 is day 719163, a Thursday. */
  lemma TheFirstOf1970()
    ensures Number(Date(1970, 1, 1)) == 719163 && Weekday(719163) == 3
  {
    BeforeYearClosed(1970);
  }

  function Monday(n: int): (m: int)
    ensures m <= n < m + 7
  {
    n - Weekday(n)
  }

  // ---- ranges ----

  /** Days from `lo` on and before `hi`; a missing bound is open. */
  datatype Range = Range(lo: Option<int>, hi: Option<int>) {
    predicate Has(n: int) {
      (lo.Some? ==> lo.value <= n) && (hi.Some? ==> n < hi.value)
    }
  }

  predicate StartsWith(s: string, p: string) { |p| <= |s| && s[..|p|] == p }

  /** Where the first ".." begins. */
  function FindDots(s: string): (i: Option<nat>)
    ensures i.Some? ==> i.value + 2 <= |s| && s[i.value..i.value + 2] == ".."
  {
    if |s| < 2 then None
    else if s[0] == '.' && s[1] == '.' then Some(0)
    else
      match FindDots(s[1..])
      case Some(i) => Some(i + 1)
      case None => None
  }

  datatype Name = Today | Yesterday | ThisWeek | LastWeek | ThisMonth | LastMonth

  /** The names, two of them in two languages. */
  function NameOf(v: string): Option<Name> {
    if v == "today" || v == "\U{0434}\U{043D}\U{0435}\U{0441}" then Some(Today)
    else if v == "yesterday" || v == "\U{0432}\U{0447}\U{0435}\U{0440}\U{0430}" then Some(Yesterday)
    else if v == "this week" then Some(ThisWeek)
    else if v == "last week" then Some(LastWeek)
    else if v == "this month" then Some(ThisMonth)
    else if v == "last month" then Some(LastMonth)
    else None
  }

  function NamedRange(name: Name, today: int): Range
    requires today > 31
  {
    var week := Monday(today);
    var month := FirstOfMonth(today);
    match name
    case Today => Range(Some(today), Some(today + 1))
    case Yesterday => Range(Some(today - 1), Some(today))
    case ThisWeek => Range(Some(week), Some(week + 7))
    case LastWeek => Range(Some(week - 7), Some(week))
    case ThisMonth => Range(Some(month), Some(FirstOfMonth(month + 32)))
    case LastMonth => Range(Some(FirstOfMonth(month - 1)), Some(month))
  }

  function From(day: Option<int>, more: int): Option<Range> {
    if day.Some? then Some(Range(Some(day.value + more), None)) else None
  }

  function Until(day: Option<int>, more: int): Option<Range> {
    if day.Some? then Some(Range(None, Some(day.value + more))) else None
  }

  /** `date_range` of a trimmed, lower-case value; `dayOf` reads a date. None where it raises. */
  function DateRange(v: string, today: int, dayOf: string -> Option<int>): Option<Range>
    requires today > 31
  {
    if NameOf(v).Some? then Some(NamedRange(NameOf(v).value, today))
    else if FindDots(v).Some? then
      var i := FindDots(v).value;
      var a, b := dayOf(v[..i]), dayOf(v[i + 2..]);
      if a.Some? && b.Some? then Some(Range(a, Some(b.value + 1))) else None
    else if StartsWith(v, ">=") then From(dayOf(v[2..]), 0)
    else if StartsWith(v, "<=") then Until(dayOf(v[2..]), 1)
    else if StartsWith(v, ">") then From(dayOf(v[1..]), 1)
    else if StartsWith(v, "<") then Until(dayOf(v[1..]), 0)
    else
      var d := dayOf(v);
      if d.Some? then Some(Range(d, Some(d.value + 1))) else None
  }

  /** Two ranges, the first ending exactly where the second begins. */
  predicate Meet(before: Range, now: Range) {
    && before.hi.Some? && before.hi == now.lo
    && before.lo.Some? && before.lo.value < before.hi.value
  }

  /** Yesterday and last week end exactly where today and this week begin. */
  lemma WeekRangesMeet(today: int)
    requires today > 31
    ensures NamedRange(Today, today).Has(today) && Meet(NamedRange(Yesterday, today), NamedRange(Today, today))
    ensures NamedRange(ThisWeek, today).Has(today) && Meet(NamedRange(LastWeek, today), NamedRange(ThisWeek, today))
  {
    assert NamedRange(ThisWeek, today) == Range(Some(Monday(today)), Some(Monday(today) + 7));
    assert NamedRange(LastWeek, today) == Range(Some(Monday(today) - 7), Some(Monday(today)));
  }

  lemma WeekStartsOnMonday(n: int)
    ensures Weekday(Monday(n)) == 0
  {
  }

  /** Both week ranges run from a Monday to the next, and hold exactly the days of their week. */
  lemma WeekRangesAreWeeks(today: int, n: int)
    requires today > 31
    ensures var week, last := NamedRange(ThisWeek, today), NamedRange(LastWeek, today);
            && Weekday(week.lo.value) == 0 && week.hi == Some(week.lo.value + 7)
            && Weekday(last.lo.value) == 0 && last.hi == Some(last.lo.value + 7)
            && (week.Has(n) <==> Monday(n) == Monday(today))
            && (last.Has(n) <==> Monday(n) == Monday(today - 7))
  {
    WeekStartsOnMonday(today);
    WeekStartsOnMonday(n);
    WeekStartsOnMonday(today - 7);
    OneMonday(Monday(today), Monday(n));
    OneMonday(Monday(today) - 7, Monday(n));
  }

  lemma OneMonday(m: int, k: int)
    requires Weekday(m) == 0 && Weekday(k) == 0
    ensures m - 7 < k < m + 7 ==> k == m
  {
  }

  /** Last month ends exactly where this month begins, and this month holds today. */
  lemma MonthRangesMeet(today: int)
    requires today > 31
    ensures NamedRange(ThisMonth, today).Has(today) && Meet(NamedRange(LastMonth, today), NamedRange(ThisMonth, today))
  {
    var length := MonthLength(today);
    MonthRangesTouch(today, FirstOfMonth(today), length);
  }

  lemma MonthLength(today: int) returns (length: int)
    requires today >= 1
    ensures FirstOfMonth(FirstOfMonth(today) + 32) == FirstOfMonth(today) + length && today < FirstOfMonth(today) + length
  {
    ThirtyTwoDays(today);
    length := DaysIn(DateOf(today).year, DateOf(today).month);
  }

  lemma MonthRangesTouch(today: int, month: int, length: int)
    requires today > 31 && month == FirstOfMonth(today)
    requires FirstOfMonth(month + 32) == month + length && today < month + length
    ensures NamedRange(ThisMonth, today).Has(today) && Meet(NamedRange(LastMonth, today), NamedRange(ThisMonth, today))
  {
  }

  /** Months run from the first to the first of the next. */
  lemma MonthRangesAreMonths(today: int)
    requires today > 31
    ensures var month := NamedRange(ThisMonth, today);
            DateOf(month.lo.value) == DateOf(today).(day := 1) && DateOf(month.hi.value) == NextMonth(DateOf(today))
    ensures var month := NamedRange(LastMonth, today);
            DateOf(month.lo.value).day == 1 && NextMonth(DateOf(month.lo.value)) == DateOf(today).(day := 1)
  {
    ThirtyTwoDays(today);
    DayBeforeMonth(today);
    FirstOfMonthIs(today);
  }

  predicate PlainDate(s: string) {
    s != "" && FindDots(s).None? && s[|s| - 1] != '.' && !StartsWith(s, ">") && !StartsWith(s, "<") && '0' <= s[0] <= '9'
  }

  lemma {:induction false} DotsAt(a: string, b: string)
    requires a != "" && FindDots(a).None? && a[|a| - 1] != '.'
    ensures FindDots(a + ".." + b) == Some(|a|)
  {
    var s := a + ".." + b;
    if |a| == 1 {
      var rest := ".." + b;
      assert s[1..] == rest && rest[0] == '.' && rest[1] == '.';
      assert FindDots(rest) == Some(0);
    } else {
      assert s[1..] == a[1..] + ".." + b && s[0] == a[0] && s[1] == a[1];
      DotsAt(a[1..], b);
    }
  }

  lemma {:induction false} NoDotsBehind(op: char, d: string)
    requires op != '.' && FindDots(d).None?
    ensures FindDots([op] + d).None?
  {
    assert ([op] + d)[1..] == d;
  }

  lemma NotNamed(v: string)
    requires v != "" && ('0' <= v[0] <= '9' || v[0] == '>' || v[0] == '<')
    ensures NameOf(v).None?
  {
  }

  /** The names, two of the days in two languages. */
  lemma Names()
    ensures NameOf("today") == NameOf("\U{0434}\U{043D}\U{0435}\U{0441}") == Some(Today)
    ensures NameOf("yesterday") == NameOf("\U{0432}\U{0447}\U{0435}\U{0440}\U{0430}") == Some(Yesterday)
    ensures NameOf("this week") == Some(ThisWeek) && NameOf("last week") == Some(LastWeek)
    ensures NameOf("this month") == Some(ThisMonth) && NameOf("last month") == Some(LastMonth)
  {
  }

  /** The names of days mean today and the day before, those of weeks the week from Monday to Monday that
      today is in and the one before. */
  lemma NamesMean(v: string, today: int, dayOf: string -> Option<int>) returns (monday: int)
    requires today > 31
    ensures NameOf(v) == Some(Today) ==> DateRange(v, today, dayOf) == Some(Range(Some(today), Some(today + 1)))
    ensures NameOf(v) == Some(Yesterday) ==> DateRange(v, today, dayOf) == Some(Range(Some(today - 1), Some(today)))
    ensures Weekday(monday) == 0 && monday <= today < monday + 7
    ensures NameOf(v) == Some(ThisWeek) ==> DateRange(v, today, dayOf) == Some(Range(Some(monday), Some(monday + 7)))
    ensures NameOf(v) == Some(LastWeek) ==> DateRange(v, today, dayOf) == Some(Range(Some(monday - 7), Some(monday)))
    ensures NameOf(v) == Some(ThisMonth) || NameOf(v) == Some(LastMonth) ==>
              DateRange(v, today, dayOf) == Some(NamedRange(NameOf(v).value, today))
  {
    monday := Monday(today);
    WeekStartsOnMonday(today);
  }

  /** A date alone covers its day. */
  lemma OneDate(d: string, today: int, dayOf: string -> Option<int>)
    requires today > 31 && PlainDate(d)
    ensures DateRange(d, today, dayOf) ==
            if dayOf(d).Some? then Some(Range(Some(dayOf(d).value), Some(dayOf(d).value + 1))) else None
  {
    NotNamed(d);
    assert !StartsWith(d, ">=") && !StartsWith(d, "<=");
  }

  /** What each operator reads, for a date without dots in a row. */
  lemma OneOperator(op: string, d: string, today: int, dayOf: string -> Option<int>)
    requires today > 31 && PlainDate(d) && op in [">=", "<=", ">", "<"]
    ensures dayOf(d).None? ==> DateRange(op + d, today, dayOf) == None
    ensures dayOf(d).Some? ==>
              DateRange(op + d, today, dayOf) ==
              if op == ">=" then Some(Range(Some(dayOf(d).value), None))
              else if op == "<=" then Some(Range(None, Some(dayOf(d).value + 1)))
              else if op == ">" then Some(Range(Some(dayOf(d).value + 1), None))
              else Some(Range(None, Some(dayOf(d).value)))
  {
    var v := op + d;
    NotNamed(v);
    if |op| == 2 {
      NoDotsBehind(op[1], d);
      NoDotsBehind(op[0], [op[1]] + d);
      assert v == [op[0]] + ([op[1]] + d) && v[..2] == op && v[2..] == d;
    } else {
      NoDotsBehind(op[0], d);
      assert v == [op[0]] + d && v[1..] == d && v[..1] == op;
      assert v[1] == d[0] != '=';
      assert v[..2][1] != '=';
    }
  }

  lemma DotRange(a: string, b: string, today: int, dayOf: string -> Option<int>)
    requires today > 31 && PlainDate(a) && PlainDate(b)
    requires dayOf(a).Some? && dayOf(b).Some?
    ensures DateRange(a + ".." + b, today, dayOf) == Some(Range(dayOf(a), Some(dayOf(b).value + 1)))
  {
    var v := a + ".." + b;
    DotsAt(a, b);
    assert v[0] == a[0];
    NotNamed(v);
    assert v[..|a|] == a && v[|a| + 2..] == b;
  }

  /** `a..b` is `>=a` and `<=b` together, and `>d` holds exactly where `<=d` does not. */
  lemma OperatorsAgree(a: string, b: string, today: int, dayOf: string -> Option<int>, n: int)
    requires today > 31
    requires PlainDate(a) && PlainDate(b) && dayOf(a).Some? && dayOf(b).Some?
    ensures var both, from, until := DateRange(a + ".." + b, today, dayOf), DateRange(">=" + a, today, dayOf),
                                     DateRange("<=" + b, today, dayOf);
            && both.Some? && from.Some? && until.Some?
            && (both.value.Has(n) <==> from.value.Has(n) && until.value.Has(n))
    ensures var above, until := DateRange(">" + b, today, dayOf), DateRange("<=" + b, today, dayOf);
            above.Some? && until.Some? && (above.value.Has(n) <==> !until.value.Has(n))
    ensures var below, from := DateRange("<" + a, today, dayOf), DateRange(">=" + a, today, dayOf);
            below.Some? && from.Some? && (below.value.Has(n) <==> !from.value.Has(n))
  {
    DotRange(a, b, today, dayOf);
    OneOperator(">=", a, today, dayOf);
    OneOperator("<=", b, today, dayOf);
    OneOperator(">", b, today, dayOf);
    OneOperator("<", a, today, dayOf);
  }
}
