/** The proleptic Gregorian calendar of Python's `datetime.date`: validity of
    a (year, month, day) triple, day numbers, weekdays and day arithmetic. */
module Calendar {

  datatype CalendarDate = CalendarDate(year: int, month: int, day: int)

  predicate IsLeap(y: int) {
    y % 4 == 0 && (y % 100 != 0 || y % 400 == 0)
  }

  function DaysInMonth(y: int, m: int): int {
    if m == 2 then (if IsLeap(y) then 29 else 28)
    else if m == 4 || m == 6 || m == 9 || m == 11 then 30
    else 31
  }

  function DaysInYear(y: int): int {
    if IsLeap(y) then 366 else 365
  }

  /** What `datetime.date(year, month, day)` accepts, apart from its upper year bound. */
  predicate Valid(d: CalendarDate) {
    1 <= d.year && 1 <= d.month <= 12 && 1 <= d.day <= DaysInMonth(d.year, d.month)
  }

  /** A calendar date; `datetime.date` values carry no time of day. */
  type Date = d: CalendarDate | Valid(d) witness CalendarDate(1, 1, 1)

  /** Days from 0001-01-01 to January 1st of year `y`. */
  function DaysBeforeYear(y: int): int
    requires y >= 1
  {
    var n := y - 1;
    365 * n + n / 4 - n / 100 + n / 400
  }

  /** Days from January 1st to the first day of month `m` of year `y`. */
  function DaysBeforeMonth(y: int, m: int): int
    requires 1 <= m <= 13
  {
    if m == 1 then 0 else DaysBeforeMonth(y, m - 1) + DaysInMonth(y, m - 1)
  }

  /** `date.toordinal() - 1`: days elapsed since 0001-01-01. */
  function DayNumber(d: Date): int {
    DaysBeforeYear(d.year) + DaysBeforeMonth(d.year, d.month) + d.day - 1
  }

  /** `date.weekday()`: Monday is 0 and Sunday is 6 (0001-01-01 was a Monday). */
  function Weekday(d: Date): (w: int)
    ensures 0 <= w < 7
  {
    DayNumber(d) % 7
  }

  /** Python's ordering of dates: by year, then month, then day. */
  predicate Before(a: Date, b: Date) {
    a.year < b.year || (a.year == b.year && (a.month < b.month || (a.month == b.month && a.day < b.day)))
  }

  lemma YearStep(y: int)
    requires y >= 1
    ensures DaysBeforeYear(y + 1) == DaysBeforeYear(y) + DaysInYear(y)
  {
    Step4(y - 1);
    Step100(y - 1);
    Step400(y - 1);
  }

  lemma Step4(n: int)
    ensures (n + 1) / 4 == n / 4 + (if (n + 1) % 4 == 0 then 1 else 0)
  {
  }

  lemma Step100(n: int)
    ensures (n + 1) / 100 == n / 100 + (if (n + 1) % 100 == 0 then 1 else 0)
  {
  }

  lemma Step400(n: int)
    ensures (n + 1) / 400 == n / 400 + (if (n + 1) % 400 == 0 then 1 else 0)
  {
  }

  lemma YearLength(y: int)
    ensures DaysBeforeMonth(y, 13) == DaysInYear(y)
  {
    var feb := DaysInMonth(y, 2);
    assert DaysBeforeMonth(y, 1) == 0;
    assert DaysBeforeMonth(y, 2) == 31;
    assert DaysBeforeMonth(y, 3) == 31 + feb;
    assert DaysBeforeMonth(y, 4) == 62 + feb;
    assert DaysBeforeMonth(y, 5) == 92 + feb;
    assert DaysBeforeMonth(y, 6) == 123 + feb;
    assert DaysBeforeMonth(y, 7) == 153 + feb;
    assert DaysBeforeMonth(y, 8) == 184 + feb;
    assert DaysBeforeMonth(y, 9) == 215 + feb;
    assert DaysBeforeMonth(y, 10) == 245 + feb;
    assert DaysBeforeMonth(y, 11) == 276 + feb;
    assert DaysBeforeMonth(y, 12) == 306 + feb;
    assert DaysBeforeMonth(y, 13) == 337 + feb;
  }

  lemma {:induction false} MonthBounds(y: int, m: int)
    requires 1 <= m <= 12
    ensures 0 <= DaysBeforeMonth(y, m)
    ensures DaysBeforeMonth(y, m) + DaysInMonth(y, m) <= DaysInYear(y)
  {
    MonthMonotone(y, m, 13);
    YearLength(y);
    if m > 1 {
      MonthBounds(y, m - 1);
    }
  }

  lemma {:induction false} MonthMonotone(y: int, m1: int, m2: int)
    requires 1 <= m1 < m2 <= 13
    ensures DaysBeforeMonth(y, m1) + DaysInMonth(y, m1) <= DaysBeforeMonth(y, m2)
  {
    if m2 > m1 + 1 {
      MonthMonotone(y, m1, m2 - 1);
    }
  }

  lemma {:induction false} YearMonotone(y1: int, y2: int)
    requires 1 <= y1 < y2
    ensures DaysBeforeYear(y1) + DaysInYear(y1) <= DaysBeforeYear(y2)
    decreases y2 - y1
  {
    YearStep(y1);
    if y2 > y1 + 1 {
      YearMonotone(y1 + 1, y2);
      YearStep(y1 + 1);
    }
  }

  /** Day numbers start at 0 and grow with Python's ordering of dates. */
  lemma DayNumberOrder(a: Date, b: Date)
    ensures DayNumber(a) >= 0
    ensures Before(a, b) <==> DayNumber(a) < DayNumber(b)
  {
    MonthBounds(a.year, a.month);
    MonthBounds(b.year, b.month);
    if a.year < b.year {
      YearMonotone(a.year, b.year);
    } else if b.year < a.year {
      YearMonotone(b.year, a.year);
    } else if a.month < b.month {
      MonthMonotone(a.year, a.month, b.month);
    } else if b.month < a.month {
      MonthMonotone(a.year, b.month, a.month);
    }
  }

  /** Distinct dates have distinct day numbers. */
  lemma DayNumberInjective(a: Date, b: Date)
    requires DayNumber(a) == DayNumber(b)
    ensures a == b
  {
    DayNumberOrder(a, b);
    DayNumberOrder(b, a);
  }

  /** The following day (`d + timedelta(days=1)`). */
  function NextDay(d: Date): (r: Date)
    ensures DayNumber(r) == DayNumber(d) + 1
  {
    if d.day < DaysInMonth(d.year, d.month) then CalendarDate(d.year, d.month, d.day + 1)
    else if d.month < 12 then CalendarDate(d.year, d.month + 1, 1)
    else
      YearStep(d.year);
      YearLength(d.year);
      CalendarDate(d.year + 1, 1, 1)
  }

  /** The preceding day; 0001-01-01 has none. */
  function PrevDay(d: Date): (r: Date)
    requires DayNumber(d) > 0
    ensures DayNumber(r) == DayNumber(d) - 1
  {
    if d.day > 1 then CalendarDate(d.year, d.month, d.day - 1)
    else if d.month > 1 then CalendarDate(d.year, d.month - 1, DaysInMonth(d.year, d.month - 1))
    else
      assert d.year > 1;
      YearStep(d.year - 1);
      YearLength(d.year - 1);
      CalendarDate(d.year - 1, 12, 31)
  }

  /** `d + timedelta(days=n)`, defined while the result stays on or after 0001-01-01. */
  function Shift(d: Date, n: int): (r: Date)
    requires DayNumber(d) + n >= 0
    ensures DayNumber(r) == DayNumber(d) + n
    decreases if n < 0 then -n else n
  {
    if n == 0 then d
    else if n > 0 then Shift(NextDay(d), n - 1)
    else Shift(PrevDay(d), n + 1)
  }

  /** Moving by `n` days and then by `m` days is moving by `n + m` days. */
  lemma ShiftAdd(d: Date, n: int, m: int)
    requires DayNumber(d) + n >= 0 && DayNumber(d) + n + m >= 0
    ensures Shift(Shift(d, n), m) == Shift(d, n + m)
  {
    DayNumberInjective(Shift(Shift(d, n), m), Shift(d, n + m));
  }

  /** Each further day advances the weekday by one, modulo seven. */
  lemma WeekdayShift(d: Date, n: int)
    requires DayNumber(d) + n >= 0
    ensures Weekday(Shift(d, n)) == (Weekday(d) + n) % 7
  {
    var x := DayNumber(d);
    assert x == 7 * (x / 7) + Weekday(d);
    ModWeeks(x / 7, Weekday(d) + n);
  }

  lemma ModWeeks(q: int, x: int)
    ensures (7 * q + x) % 7 == x % 7
  {
  }
}
