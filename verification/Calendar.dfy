/** Calendar arithmetic: dates move by days with loops over years and months, the current date
    comes from a closed form over the days since 1970-01-01. Both agree with counting days on the
    Gregorian calendar (the leap rule of section 3.2.1 of ISO 8601:2004). */
module Calendar {

  const INT_MAX := 2147483647
  const MIN_YEAR := 1
  const MAX_YEAR := 9999

  const DAY_RANGE_OF_LEAP_YEAR: seq<int> := [0, 31, 29, 31, 30, 31, 30, 31, 31, 30, 31, 30, 31]
  const DAY_RANGE_OF_NON_LEAP_YEAR: seq<int> := [0, 31, 28, 31, 30, 31, 30, 31, 31, 30, 31, 30, 31]
  const ACCUMULATED_DAY_OF_LEAP_YEAR: seq<int> := [0, 0, 31, 60, 91, 121, 152, 182, 213, 244, 274, 305, 335]
  const ACCUMULATED_DAY_OF_NON_LEAP_YEAR: seq<int> := [0, 0, 31, 59, 90, 120, 151, 181, 212, 243, 273, 304, 334]

  datatype Date = Date(year: int, month: int, day: int)

  datatype Result<T> = Ok(value: T) | OutOfRange

  /** C's division and remainder, which truncate toward zero. */
  function CDiv(x: int, y: int): int
    requires y > 0
  {
    if x >= 0 then x / y else 0 - (0 - x) / y
  }

  function CMod(x: int, y: int): int
    requires y > 0
  {
    x - CDiv(x, y) * y
  }

  predicate IsLeapYear(year: int) {
    !(CMod(year, 4) != 0 || (CMod(year, 100) == 0 && CMod(year, 400) != 0))
  }

  function DayRange(leap: bool): (days: seq<int>)
    ensures |days| == 13
  {
    if leap then DAY_RANGE_OF_LEAP_YEAR else DAY_RANGE_OF_NON_LEAP_YEAR
  }

  function Accumulated(leap: bool): (days: seq<int>)
    ensures |days| == 13
  {
    if leap then ACCUMULATED_DAY_OF_LEAP_YEAR else ACCUMULATED_DAY_OF_NON_LEAP_YEAR
  }

  function TotalDays(leap: bool): int {
    if leap then 366 else 365
  }

  /** A day of the calendar, in any year. */
  predicate IsDate(d: Date) {
    1 <= d.month <= 12 && 1 <= d.day <= DayRange(IsLeapYear(d.year))[d.month]
  }

  predicate Supported(d: Date) {
    IsDate(d) && MIN_YEAR <= d.year <= MAX_YEAR
  }

  /** The constructor of Date. */
  function MakeDate(d: Date): Result<Date> {
    if d.year > MAX_YEAR || d.year < MIN_YEAR || d.month <= 0 || d.month > 12 || d.day <= 0
       || d.day > DayRange(IsLeapYear(d.year))[d.month]
    then OutOfRange else Ok(d)
  }

  // ---- Counting days ----------------------------------------------------------------------

  /** Days before 1 January of a year, counted from 1 January of year 1. */
  function DaysBeforeYear(year: int): int {
    var y := year - 1;
    365 * y + y / 4 - y / 100 + y / 400
  }

  function Ordinal(d: Date): int
    requires 1 <= d.month <= 12
  {
    DaysBeforeYear(d.year) + Accumulated(IsLeapYear(d.year))[d.month] + d.day
  }

  const FIRST_ORDINAL := 1
  const LAST_ORDINAL := 3652059

  predicate InRange(ordinal: int) {
    FIRST_ORDINAL <= ordinal <= LAST_ORDINAL
  }

  lemma TruncatedRemainderIsZero(x: int, y: int)
    requires y > 0
    ensures CMod(x, y) == 0 <==> x % y == 0
  {
    if x < 0 {
      var q := (0 - x) / y;
      assert 0 - x == q * y + (0 - x) % y;
      if x % y == 0 {
        var k := x / y;
        assert x == k * y;
        assert (0 - x) == (0 - k) * y;
        DivExact(0 - k, y);
      }
      if CMod(x, y) == 0 {
        assert x == (0 - q) * y;
        DivExact(0 - q, y);
      }
    }
  }

  lemma DivExact(k: int, y: int)
    requires y > 0
    ensures (k * y) / y == k && (k * y) % y == 0
  {
    var q, r := (k * y) / y, (k * y) % y;
    assert (k - q) * y == r;
    assert k - q >= 1 ==> (k - q) * y >= y;
    assert k - q <= -1 ==> (k - q) * y <= 0 - y;
  }

  lemma LeapRule(year: int)
    ensures IsLeapYear(year) <==> year % 4 == 0 && (year % 100 != 0 || year % 400 == 0)
  {
    hide CMod;
    TruncatedRemainderIsZero(year, 4);
    TruncatedRemainderIsZero(year, 100);
    TruncatedRemainderIsZero(year, 400);
  }

  lemma NextYear(year: int)
    ensures DaysBeforeYear(year + 1) == DaysBeforeYear(year) + TotalDays(IsLeapYear(year))
  {
    LeapRule(year);
    hide IsLeapYear;
    var y := year - 1;
    NextQuotient(y, 4);
    NextQuotient(y, 100);
    NextQuotient(y, 400);
    assert year % 400 == 0 ==> year % 100 == 0;
    assert year % 100 == 0 ==> year % 4 == 0;
  }

  lemma NextQuotient(y: int, n: int)
    requires n == 4 || n == 100 || n == 400
    ensures (y + 1) / n == y / n + if (y + 1) % n == 0 then 1 else 0
  {
  }

  lemma {:induction false} YearsGrow(y: int, z: int)
    requires y <= z
    ensures DaysBeforeYear(z) >= DaysBeforeYear(y) + 365 * (z - y)
    decreases z - y
  {
    hide DaysBeforeYear;
    if y < z {
      YearsGrow(y, z - 1);
      NextYear(z - 1);
    }
  }

  /** The two tables agree: a month starts where the one before it ends. */
  lemma NextMonth(leap: bool, month: int)
    requires 1 <= month <= 12
    ensures var ends := Accumulated(leap)[month] + DayRange(leap)[month];
            if month == 12 then ends == TotalDays(leap) else ends == Accumulated(leap)[month + 1]
    ensures 28 <= DayRange(leap)[month] <= 31
  {
  }

  lemma {:induction false} MonthsGrow(leap: bool, m: int, n: int)
    requires 1 <= m < n <= 12
    ensures Accumulated(leap)[m] + DayRange(leap)[m] <= Accumulated(leap)[n]
    decreases n
  {
    hide DayRange, Accumulated;
    NextMonth(leap, n - 1);
    if m < n - 1 { MonthsGrow(leap, m, n - 1); }
  }

  lemma WithinYear(d: Date)
    requires IsDate(d)
    ensures DaysBeforeYear(d.year) < Ordinal(d) <= DaysBeforeYear(d.year + 1)
    ensures Accumulated(IsLeapYear(d.year))[d.month] >= 0
  {
    hide DaysBeforeYear, IsLeapYear, TotalDays;
    var leap := IsLeapYear(d.year);
    NextYear(d.year);
    NextMonth(leap, d.month);
    if d.month < 12 {
      MonthsGrow(leap, d.month, 12);
      NextMonth(leap, 12);
    }
  }

  /** A date is determined by its ordinal, and later days have greater ordinals. */
  lemma OrdinalOrders(a: Date, b: Date)
    requires IsDate(a) && IsDate(b)
    ensures Ordinal(a) < Ordinal(b) <==>
              a.year < b.year || (a.year == b.year && (a.month < b.month || (a.month == b.month && a.day < b.day)))
    ensures Ordinal(a) == Ordinal(b) <==> a == b
  {
    hide DaysBeforeYear, IsLeapYear, DayRange, Accumulated;
    WithinYear(a);
    WithinYear(b);
    if a.year < b.year {
      YearsGrow(a.year + 1, b.year);
    } else if b.year < a.year {
      YearsGrow(b.year + 1, a.year);
    } else if a.month < b.month {
      MonthsGrow(IsLeapYear(a.year), a.month, b.month);
    } else if b.month < a.month {
      MonthsGrow(IsLeapYear(a.year), b.month, a.month);
    }
  }

  lemma SupportedIffInRange(d: Date)
    requires IsDate(d)
    ensures Supported(d) <==> InRange(Ordinal(d))
    ensures MakeDate(d) == if InRange(Ordinal(d)) then Ok(d) else OutOfRange
  {
    WithinYear(d);
    assert DaysBeforeYear(1) == 0 && DaysBeforeYear(10000) == LAST_ORDINAL;
    hide DaysBeforeYear, IsLeapYear, DayRange, Accumulated;
    if d.year < 1 {
      YearsGrow(d.year + 1, 1);
    } else if d.year > 9999 {
      YearsGrow(10000, d.year);
    } else {
      YearsGrow(1, d.year);
      YearsGrow(d.year + 1, 10000);
    }
  }

  // ---- Moving a date by days ----------------------------------------------------------------

  /** `moved` is `date` moved by so many days, or the error if that leaves the supported years. */
  predicate Moved(date: Date, days: int, moved: Result<Date>)
    requires IsDate(date)
  {
    if InRange(Ordinal(date) + days) then moved.Ok? && Supported(moved.value) && Ordinal(moved.value) == Ordinal(date) + days
    else moved.OutOfRange?
  }

  lemma Arrived(date: Date, days: int, reached: Date)
    requires IsDate(date) && IsDate(reached) && Ordinal(reached) == Ordinal(date) + days
    ensures Moved(date, days, MakeDate(reached))
  {
    hide Ordinal, IsDate;
    SupportedIffInRange(reached);
  }

  /** Date::operator+ */
  method Plus(date: Date, days: int) returns (moved: Result<Date>)
    requires IsDate(date) && -INT_MAX <= days <= INT_MAX
    requires Supported(date)
    ensures Moved(date, days, moved)
    decreases if days < 0 then 1 else 0
  {
    hide DaysBeforeYear, IsLeapYear, DayRange, Accumulated, TotalDays;
    if days < 0 {
      moved := Minus(date, -days);
      return;
    }
    Arrived(date, 0, date);
    if days == 0 { return Ok(date); }
    var delta, dst := days, date;
    var left := LeftThisYear(dst);
    while delta > left
      invariant IsDate(dst) && 0 <= delta <= days && Ordinal(dst) + delta == Ordinal(date) + days
      invariant left == DaysBeforeYear(dst.year + 1) - Ordinal(dst)
      decreases delta
    {
      WithinYear(dst);
      NewYear(dst.year + 1);
      delta := delta - (left + 1);
      dst := Date(dst.year + 1, 1, 1);
      left := LeftThisYear(dst);
    }
    dst := PlusWithinYear(dst, delta);
    Arrived(date, days, dst);
    moved := MakeDate(dst);
  }

  /** 1 January follows 31 December; 31 December ends its year. */
  lemma NewYear(year: int)
    ensures IsDate(Date(year, 1, 1)) && Ordinal(Date(year, 1, 1)) == DaysBeforeYear(year) + 1
    ensures IsDate(Date(year, 12, 31)) && Ordinal(Date(year, 12, 31)) == DaysBeforeYear(year + 1)
    ensures DaysBeforeYear(year + 1) - DaysBeforeYear(year) >= 365
  {
    NextYear(year);
    hide DaysBeforeYear, IsLeapYear;
  }

  method LeftThisYear(date: Date) returns (left: int)
    requires IsDate(date)
    ensures left == DaysBeforeYear(date.year + 1) - Ordinal(date) >= 0
  {
    WithinYear(date);
    NextYear(date.year);
    var leap := IsLeapYear(date.year);
    left := TotalDays(leap) - (Accumulated(leap)[date.month] + date.day);
  }

  /** The loop over months of Date::operator+. */
  method PlusWithinYear(date: Date, days: nat) returns (dst: Date)
    requires IsDate(date) && Ordinal(date) + days <= DaysBeforeYear(date.year + 1)
    ensures IsDate(dst) && Ordinal(dst) == Ordinal(date) + days
  {
    var dayRange := DayRange(IsLeapYear(date.year));
    hide DaysBeforeYear, IsLeapYear, DayRange, Accumulated, TotalDays;
    var delta := days;
    dst := date;
    while delta > dayRange[dst.month] - dst.day
      invariant IsDate(dst) && dst.year == date.year && delta >= 0 && Ordinal(dst) + delta == Ordinal(date) + days
      decreases delta
    {
      NextMonth(IsLeapYear(dst.year), dst.month);
      NextYear(dst.year);
      if dst.month < 12 { NextMonth(IsLeapYear(dst.year), dst.month + 1); }
      delta := delta - (dayRange[dst.month] - dst.day + 1);
      dst := Date(dst.year, dst.month + 1, 1);
    }
    dst := Date(dst.year, dst.month, dst.day + delta);
  }

  /** Date::operator-(const Timedelta&) */
  method Minus(date: Date, days: int) returns (moved: Result<Date>)
    requires IsDate(date) && -INT_MAX <= days <= INT_MAX
    requires Supported(date)
    ensures Moved(date, -days, moved)
    decreases if days < 0 then 1 else 0
  {
    hide DaysBeforeYear, IsLeapYear, DayRange, Accumulated, TotalDays;
    if days < 0 {
      moved := Plus(date, -days);
      return;
    }
    Arrived(date, 0, date);
    if days == 0 { return Ok(date); }
    var delta, dst := days, date;
    var passed := PassedThisYear(dst);
    while delta > passed
      invariant IsDate(dst) && 0 <= delta <= days && Ordinal(dst) - delta == Ordinal(date) - days
      invariant passed == Ordinal(dst) - DaysBeforeYear(dst.year) - 1
      decreases delta
    {
      WithinYear(dst);
      NewYear(dst.year - 1);
      delta := delta - (passed + 1);
      dst := Date(dst.year - 1, 12, 31);
      passed := PassedThisYear(dst);
    }
    dst := MinusWithinYear(dst, delta);
    Arrived(date, -days, dst);
    moved := MakeDate(dst);
  }

  method PassedThisYear(date: Date) returns (passed: int)
    requires IsDate(date)
    ensures passed == Ordinal(date) - DaysBeforeYear(date.year) - 1 >= 0
  {
    WithinYear(date);
    passed := Accumulated(IsLeapYear(date.year))[date.month] + date.day - 1;
  }

  /** The loop over months of Date::operator-. */
  method MinusWithinYear(date: Date, days: nat) returns (dst: Date)
    requires IsDate(date) && Ordinal(date) - days > DaysBeforeYear(date.year)
    ensures IsDate(dst) && Ordinal(dst) == Ordinal(date) - days
  {
    var leap := IsLeapYear(date.year);
    var dayRange := DayRange(leap);
    assert Accumulated(leap)[1] == 0;
    hide DaysBeforeYear, IsLeapYear, DayRange, Accumulated, TotalDays;
    var delta := days;
    dst := date;
    while delta >= dst.day
      invariant IsDate(dst) && dst.year == date.year && delta >= 0 && Ordinal(dst) - delta == Ordinal(date) - days
      decreases delta
    {
      if dst.month > 1 { NextMonth(leap, dst.month - 1); }
      delta := delta - dst.day;
      dst := Date(dst.year, dst.month - 1, dayRange[dst.month - 1]);
    }
    dst := Date(dst.year, dst.month, dst.day - delta);
  }

  /** Moving there and back: subtracting what was added gives the date again. */
  method PlusThenMinus(date: Date, days: int) returns (there: Result<Date>, back: Result<Date>)
    requires Supported(date) && -INT_MAX <= days <= INT_MAX
    ensures there.Ok? <==> InRange(Ordinal(date) + days)
    ensures there.Ok? ==> back == Ok(date)
  {
    there := Plus(date, days);
    back := OutOfRange;
    if there.Ok? {
      back := Minus(there.value, days);
      SupportedIffInRange(date);
      hide Ordinal, DaysBeforeYear, IsLeapYear;
      OrdinalOrders(back.value, date);
    }
  }

  // ---- The distance of two dates --------------------------------------------------------------

  /** The branch of Date::operator-(const Date&) for dates of one year. */
  function DaysWithinYear(lhs: Date, rhs: Date): int
    requires IsDate(lhs) && IsDate(rhs)
  {
    var acc := Accumulated(IsLeapYear(lhs.year));
    acc[lhs.month] + lhs.day - acc[rhs.month] - rhs.day
  }

  /** Date::operator-(const Date&): the ordinal difference, with its sign. */
  method Difference(lhs: Date, rhs: Date) returns (days: int)
    requires Supported(lhs) && Supported(rhs)
    ensures days == Ordinal(lhs) - Ordinal(rhs)
  {
    if lhs.year == rhs.year { return DaysWithinYear(lhs, rhs); }
    var early, latter := rhs, lhs;
    if rhs.year > lhs.year { early, latter := lhs, rhs; }
    NewYear(early.year);
    NewYear(latter.year);
    days := 1;
    days := days + DaysWithinYear(Date(early.year, 12, 31), early);
    days := days + DaysWithinYear(latter, Date(latter.year, 1, 1));
    hide DaysBeforeYear, IsLeapYear, DayRange, Accumulated;
    var y := early.year + 1;
    while y != latter.year
      invariant early.year < y <= latter.year
      invariant days == DaysBeforeYear(y) - Ordinal(early) + Ordinal(latter) - DaysBeforeYear(latter.year)
      decreases latter.year - y
    {
      NextYear(y);
      days := days + if IsLeapYear(y) then 366 else 365;
      y := y + 1;
    }
    if early == lhs { days := -days; }
  }

  // ---- The closed form --------------------------------------------------------------------------

  const DAYS_FROM_UNIX_TIME := 2472632

  // What FastUnixSecondToDate puts into tm_year, tm_mon and tm_mday, as a date
  function ClosedForm(days: int): Date {
    var a := days + DAYS_FROM_UNIX_TIME;
    var b := CDiv(a * 4 + 3, 146097);
    var c := CDiv(0 - b * 146097, 4) + a;
    var d := CDiv(c * 4 + 3, 1461);
    var e := CDiv(0 - d * 1461, 4) + c;
    var m := CDiv(5 * e + 2, 153);
    var mday := CDiv(0 - (153 * m + 2), 5) + e + 1;
    var mon := CDiv(0 - m, 10) * 12 + m + 2;
    var year := b * 100 + d - 6700 + CDiv(m, 10);
    Date(year + 1900, mon + 1, mday)
  }

  /** Day counts for which no intermediate value is negative or leaves the int range. */
  predicate Representable(days: int) {
    0 <= days + DAYS_FROM_UNIX_TIME && 4 * (days + DAYS_FROM_UNIX_TIME) + 3 <= INT_MAX
  }

  const EPOCH := Date(1970, 1, 1)
  const EPOCH_ORDINAL := 719163

  lemma EpochOrdinal()
    ensures Supported(EPOCH) && Ordinal(EPOCH) == EPOCH_ORDINAL
  {
  }

  // Day e of the year that starts on 1 March: month m of it starts on day MonthStart(m)
  function MonthStart(m: int): int {
    (153 * m + 2) / 5
  }

  /** Centuries: a century starts at floor(146097 b / 4), and one in four has a last day more. */
  lemma CenturyOf(a: int, b: int, c: int)
    requires a >= 0 && b == (4 * a + 3) / 146097 && c == a - (146097 * b) / 4
    ensures b >= 0 && 0 <= c <= 36524
    ensures c == 36524 ==> b % 4 == 3
    ensures (146097 * b) / 4 == 36524 * b + b / 4
  {
    var r := (4 * a + 3) % 146097;
    assert 4 * a + 3 == 146097 * b + r;
    QuarterOf(146097 * b, b, 36524);
  }

  lemma QuarterOf(x: int, k: int, whole: int)
    requires x == (4 * whole + 1) * k
    ensures x / 4 == whole * k + k / 4 && x % 4 == k % 4
  {
    assert x == 4 * (whole * k) + k;
  }

  lemma YearOf(c: int, d: int, e: int)
    requires 0 <= c <= 36524 && d == (4 * c + 3) / 1461 && e == c - (1461 * d) / 4
    ensures 0 <= d <= 99 && 0 <= e <= 365
    ensures e == 365 ==> d % 4 == 3 && (d == 99 ==> c == 36524)
    ensures (1461 * d) / 4 == 365 * d + d / 4
  {
    var r := (4 * c + 3) % 1461;
    assert 4 * c + 3 == 1461 * d + r;
  }

  lemma MonthOf(e: int, m: int)
    requires 0 <= e <= 365 && m == (5 * e + 2) / 153
    ensures 0 <= m <= 11 && MonthStart(m) <= e
    ensures m < 11 ==> e < MonthStart(m + 1)
  {
  }

  /** The months from March on have the lengths of the table. */
  lemma MarchMonths(m: int, leap: bool)
    requires 0 <= m <= 11
    ensures m < 10 ==> Accumulated(leap)[m + 3] == Accumulated(leap)[3] + MonthStart(m)
    ensures m < 10 ==> DayRange(leap)[m + 3] == MonthStart(m + 1) - MonthStart(m)
    ensures m >= 10 ==> Accumulated(leap)[m - 9] == MonthStart(m) - 306
    ensures m == 10 ==> DayRange(leap)[m - 9] == MonthStart(11) - MonthStart(10)
    ensures Accumulated(leap)[3] == TotalDays(leap) - 306
  {
    assert m == 0 || m == 1 || m == 2 || m == 3 || m == 4 || m == 5 || m == 6 || m == 7 || m == 8 || m == 9 || m == 10 || m == 11;
  }

  /** Days before the year that starts in March, in terms of its century and year in it. */
  lemma MarchYear(b: int, d: int)
    requires b >= 0 && 0 <= d <= 99
    ensures DaysBeforeYear(100 * b + d - 4800 + 1) == 36524 * b + b / 4 + 365 * d + d / 4 - 1753164
  {
    var y := 100 * b + d - 4800;
    assert y / 4 == 25 * b - 1200 + d / 4;
    assert y / 100 == b - 48;
    assert y / 400 == b / 4 - 12;
  }

  lemma LastDayOfFebruary(b: int, d: int)
    requires b >= 0 && 0 <= d <= 99 && d % 4 == 3 && (d == 99 ==> b % 4 == 3)
    ensures IsLeapYear(100 * b + d - 4800 + 1)
  {
    var y := 100 * b + d - 4800 + 1;
    LeapRule(y);
    hide IsLeapYear;
    assert y % 4 == 0;
    if d == 99 {
      assert y == 400 * ((b + 1) / 4) - 4800;
    } else {
      assert y % 100 == d + 1;
    }
  }

  lemma ClosedFormSteps(days: int, a: int, b: int, c: int, d: int, e: int, m: int)
    requires Representable(days) && a == days + DAYS_FROM_UNIX_TIME
    requires b == (4 * a + 3) / 146097 && c == a - (146097 * b) / 4
    requires d == (4 * c + 3) / 1461 && e == c - (1461 * d) / 4 && m == (5 * e + 2) / 153
    ensures ClosedForm(days) ==
              Date(100 * b + d - 4800 + m / 10, if m < 10 then m + 3 else m - 9, e - MonthStart(m) + 1)
    ensures 0 <= m <= 11 && 0 <= e <= 365
  {
    hide CDiv;
    CenturyOf(a, b, c);
    YearOf(c, d, e);
    MonthOf(e, m);
    Truncates(a * 4 + 3, 146097);
    TruncatesNegative(146097 * b, 4);
    Truncates(c * 4 + 3, 1461);
    TruncatesNegative(1461 * d, 4);
    Truncates(5 * e + 2, 153);
    TruncatesNegative(153 * m + 2, 5);
    TruncatesNegative(m, 10);
    Truncates(m, 10);
  }

  lemma Truncates(x: int, y: int)
    requires x >= 0 && y > 0
    ensures CDiv(x, y) == x / y
  {
  }

  lemma TruncatesNegative(x: int, y: int)
    requires x >= 0 && y > 0
    ensures CDiv(0 - x, y) == 0 - x / y
  {
  }

  /** Day e of the year that starts on 1 March of year y. */
  lemma MarchDate(y: int, e: int, m: int)
    requires 0 <= e <= 365 && m == (5 * e + 2) / 153 && (e == 365 ==> IsLeapYear(y + 1))
    ensures var date := Date(y + m / 10, if m < 10 then m + 3 else m - 9, e - MonthStart(m) + 1);
            0 <= m <= 11 && IsDate(date) && Ordinal(date) == DaysBeforeYear(y + 1) - 305 + e
  {
    MonthOf(e, m);
    NextYear(y);
    MarchMonths(m, IsLeapYear(y));
    MarchMonths(m, IsLeapYear(y + 1));
    February(IsLeapYear(y + 1));
    hide DaysBeforeYear, IsLeapYear, DayRange, Accumulated, MonthStart;
    assert m / 10 == if m < 10 then 0 else 1;
  }

  /** The closed form gives the day that is so many days after 1970-01-01. */
  lemma ClosedFormCountsDays(days: int)
    requires Representable(days)
    ensures IsDate(ClosedForm(days))
    ensures Ordinal(ClosedForm(days)) == EPOCH_ORDINAL + days
  {
    var a := days + DAYS_FROM_UNIX_TIME;
    var b := (4 * a + 3) / 146097;
    var c := a - (146097 * b) / 4;
    var d := (4 * c + 3) / 1461;
    var e := c - (1461 * d) / 4;
    var m := (5 * e + 2) / 153;
    ClosedFormSteps(days, a, b, c, d, e, m);
    MarchDays(a, b, c, d, e, m);
  }

  lemma MarchDays(a: int, b: int, c: int, d: int, e: int, m: int)
    requires a >= 0
    requires b == (4 * a + 3) / 146097 && c == a - (146097 * b) / 4
    requires d == (4 * c + 3) / 1461 && e == c - (1461 * d) / 4 && m == (5 * e + 2) / 153
    ensures var y := 100 * b + d - 4800;
            var date := Date(y + m / 10, if m < 10 then m + 3 else m - 9, e - MonthStart(m) + 1);
            0 <= m <= 11 && IsDate(date) && Ordinal(date) == a - DAYS_FROM_UNIX_TIME + EPOCH_ORDINAL
  {
    hide DaysBeforeYear, IsLeapYear, DayRange, Accumulated, MonthStart, Ordinal, IsDate;
    CenturyOf(a, b, c);
    YearOf(c, d, e);
    MarchYear(b, d);
    if e == 365 { LastDayOfFebruary(b, d); }
    MarchDate(100 * b + d - 4800, e, m);
  }

  lemma February(leap: bool)
    ensures DayRange(leap)[2] == if leap then 29 else 28
    ensures MonthStart(11) == 337
  {
  }

  /** Stepping the calendar from 1970-01-01 with Date::operator+ reaches the closed form's day. */
  method StepFromEpoch(days: int) returns (moved: Result<Date>)
    requires Representable(days) && -INT_MAX <= days
    ensures moved == MakeDate(ClosedForm(days))
  {
    EpochOrdinal();
    moved := Plus(EPOCH, days);
    ClosedFormCountsDays(days);
    hide ClosedForm, Ordinal, DaysBeforeYear, IsLeapYear;
    SupportedIffInRange(ClosedForm(days));
    if moved.Ok? { OrdinalOrders(moved.value, ClosedForm(days)); }
  }

  // ---- From seconds to the local day and time --------------------------------------------------

  datatype LocalTime = LocalTime(days: int, hour: int, minute: int, second: int)

  const TIME_ZONE := 8

  /** The part of FastUnixSecondToDate before the closed form. */
  function Split(unixSec: int): LocalTime {
    var i := CDiv(unixSec, 60);
    var hours := CDiv(i, 60);
    LocalTime(CDiv(hours + TIME_ZONE, 24), CMod(hours + TIME_ZONE, 24), CMod(i, 60), CMod(unixSec, 60))
  }

  predicate OnTheClock(t: LocalTime) {
    0 <= t.hour < 24 && 0 <= t.minute < 60 && 0 <= t.second < 60
  }

  /** The fields always add up to the local second; they are a time of day exactly from 1970 on,
      and before it at whole hours that do not lie inside a negative local day. */
  lemma SplitAddsUp(unixSec: int)
    ensures var t := Split(unixSec);
            t.days * 86400 + t.hour * 3600 + t.minute * 60 + t.second == unixSec + TIME_ZONE * 3600
    ensures OnTheClock(Split(unixSec)) <==>
              unixSec >= 0 || (unixSec % 3600 == 0 && (unixSec >= -28800 || (unixSec + 28800) % 86400 == 0))
  {
    if unixSec < 0 {
      var p := 0 - unixSec;
      SplitOfPast(unixSec, (p / 60) / 60, (p / 60) % 60, p % 60);
    }
  }

  lemma SplitOfPast(unixSec: int, h: int, m: int, s: int)
    requires unixSec < 0 && 0 - unixSec == 3600 * h + 60 * m + s && 0 <= h && 0 <= m < 60 && 0 <= s < 60
    ensures var t := Split(unixSec);
            && t.days * 86400 + t.hour * 3600 + t.minute * 60 + t.second == unixSec + TIME_ZONE * 3600
            && (OnTheClock(t) <==> unixSec % 3600 == 0 && (unixSec >= -28800 || (unixSec + 28800) % 86400 == 0))
  {
    hide CDiv;
    TruncatesNegative(3600 * h + 60 * m + s, 60);
    TruncatesNegative(60 * h + m, 60);
    assert Split(unixSec) == LocalTime(CDiv(8 - h, 24), CMod(8 - h, 24), 0 - m, 0 - s);
    if h <= 8 { Truncates(8 - h, 24); } else { TruncatesNegative(h - 8, 24); }
    WholeHours(h, m, s);
    if m == 0 && s == 0 { WholeDays(h); }
  }

  lemma WholeHours(h: int, m: int, s: int)
    requires 0 <= m < 60 && 0 <= s < 60
    ensures (0 - (3600 * h + 60 * m + s)) % 3600 == 0 <==> m == 0 && s == 0
  {
  }

  lemma WholeDays(h: int)
    ensures (28800 - 3600 * h) % 86400 == 0 <==> (h - 8) % 24 == 0
  {
    var q := (8 - h) / 24;
    assert 28800 - 3600 * h == 86400 * q + 3600 * ((8 - h) % 24);
  }
}
