/**
 * The proleptic Gregorian calendar of Python's `datetime` module: dates of
 * years 1 to 9999, day ordinals counted from 0001-01-01, and date-times
 * with microseconds and an optional UTC offset in minutes.
 */
module Calendar {
  import opened Wrappers
  import opened Text

  const MaxYear := 9999

  predicate IsLeap(y: int) {
    y % 4 == 0 && (y % 100 != 0 || y % 400 == 0)
  }

  function DaysInYear(y: int): nat {
    if IsLeap(y) then 366 else 365
  }

  function DaysInMonth(y: int, m: int): nat
    requires 1 <= m <= 12
  {
    if m == 2 then (if IsLeap(y) then 29 else 28)
    else if m == 4 || m == 6 || m == 9 || m == 11 then 30
    else 31
  }

  datatype Date = Date(year: int, month: int, day: int)

  /** A day of the calendar, with no upper bound on the year. */
  predicate InCalendar(d: Date) {
    1 <= d.year && 1 <= d.month <= 12 && 1 <= d.day <= DaysInMonth(d.year, d.month)
  }

  /** A day Python's `date` can hold. */
  predicate ValidDate(d: Date) {
    InCalendar(d) && d.year <= MaxYear
  }

  /** Days from 0001-01-01 to January 1st of year `y`. */
  function DaysBeforeYear(y: int): nat
    requires y >= 1
    decreases y
  {
    if y == 1 then 0 else DaysBeforeYear(y - 1) + DaysInYear(y - 1)
  }

  lemma {:induction false} DaysBeforeYearGrows(a: int, b: int)
    requires 1 <= a <= b
    ensures DaysBeforeYear(a) + 365 * (b - a) <= DaysBeforeYear(b)
    decreases b - a
  {
    if a < b {
      DaysBeforeYearGrows(a, b - 1);
    }
  }

  /** Days from January 1st to the first day of month `m` of year `y`. */
  function DaysBeforeMonth(y: int, m: int): nat
    requires 1 <= m <= 12
  {
    [0, 31, 59, 90, 120, 151, 181, 212, 243, 273, 304, 334][m - 1] + (if m > 2 && IsLeap(y) then 1 else 0)
  }

  lemma MonthStep(y: int, m: int)
    requires 1 <= m <= 12
    ensures m < 12 ==> DaysBeforeMonth(y, m + 1) == DaysBeforeMonth(y, m) + DaysInMonth(y, m)
    ensures m == 12 ==> DaysBeforeMonth(y, m) + DaysInMonth(y, m) == DaysInYear(y)
  {
  }

  lemma {:induction false} DaysBeforeMonthGrows(y: int, a: int, b: int)
    requires 1 <= a < b <= 12
    ensures DaysBeforeMonth(y, a) + DaysInMonth(y, a) <= DaysBeforeMonth(y, b)
    decreases b - a
  {
    MonthStep(y, a);
    if a + 1 < b {
      DaysBeforeMonthGrows(y, a + 1, b);
    }
  }

  lemma MonthFits(y: int, m: int)
    requires 1 <= m <= 12
    ensures DaysBeforeMonth(y, m) + DaysInMonth(y, m) <= DaysInYear(y)
  {
    MonthStep(y, 12);
    if m < 12 {
      DaysBeforeMonthGrows(y, m, 12);
    }
  }

  /** Days since 0001-01-01 (Python's `toordinal() - 1`). */
  function Ordinal(d: Date): (n: nat)
    requires InCalendar(d)
    ensures DaysBeforeYear(d.year) <= n < DaysBeforeYear(d.year + 1)
  {
    MonthFits(d.year, d.month);
    DaysBeforeYear(d.year) + DaysBeforeMonth(d.year, d.month) + d.day - 1
  }

  /** The date `r` days into year `y`, counting from the first day of month `m`. */
  function DateInYear(y: int, r: nat, m: int): (d: Date)
    requires 1 <= y && 1 <= m <= 12
    requires DaysBeforeMonth(y, m) + r < DaysInYear(y)
    ensures InCalendar(d) && d.year == y
    ensures DaysBeforeMonth(y, d.month) + d.day - 1 == DaysBeforeMonth(y, m) + r
    decreases 12 - m
  {
    MonthStep(y, m);
    if r < DaysInMonth(y, m) then Date(y, m, r + 1)
    else DateInYear(y, r - DaysInMonth(y, m), m + 1)
  }

  /** The date `n` days after January 1st of year `y`. */
  function DateFrom(n: nat, y: int): (d: Date)
    requires y >= 1
    ensures InCalendar(d) && Ordinal(d) == DaysBeforeYear(y) + n
    decreases n
  {
    if n < DaysInYear(y) then DateInYear(y, n, 1)
    else DateFrom(n - DaysInYear(y), y + 1)
  }

  /** Number of days Python's `date` covers. */
  function DayCount(): nat {
    DaysBeforeYear(MaxYear + 1)
  }

  /** A day whose ordinal is below `DayCount()` lies in a year Python's `date` can hold. */
  lemma EarlyOrdinalYear(d: Date)
    requires InCalendar(d)
    ensures Ordinal(d) < DayCount() ==> d.year <= MaxYear
  {
    if d.year > MaxYear {
      DaysBeforeYearGrows(MaxYear + 1, d.year);
    }
  }

  /** Python `date.fromordinal(n + 1)`. */
  function FromOrdinal(n: nat): (d: Date)
    ensures InCalendar(d) && Ordinal(d) == n
    ensures n < DayCount() ==> ValidDate(d)
  {
    var d := DateFrom(n, 1);
    EarlyOrdinalYear(d);
    d
  }

  /** Distinct days have distinct ordinals. */
  lemma OrdinalInjective(d1: Date, d2: Date)
    requires InCalendar(d1) && InCalendar(d2) && Ordinal(d1) == Ordinal(d2)
    ensures d1 == d2
  {
    if d1.year < d2.year {
      DaysBeforeYearGrows(d1.year + 1, d2.year);
    } else if d2.year < d1.year {
      DaysBeforeYearGrows(d2.year + 1, d1.year);
    } else if d1.month < d2.month {
      DaysBeforeMonthGrows(d1.year, d1.month, d2.month);
    } else if d2.month < d1.month {
      DaysBeforeMonthGrows(d1.year, d2.month, d1.month);
    }
  }

  /** `date.fromordinal(d.toordinal()) == d`. */
  lemma FromOrdinalOrdinal(d: Date)
    requires InCalendar(d)
    ensures FromOrdinal(Ordinal(d)) == d
  {
    OrdinalInjective(FromOrdinal(Ordinal(d)), d);
  }

  /** Every valid day has an ordinal Python's `date` can hold. */
  lemma OrdinalInRange(d: Date)
    requires ValidDate(d)
    ensures Ordinal(d) < DayCount()
  {
    if d.year < MaxYear {
      DaysBeforeYearGrows(d.year + 1, MaxYear + 1);
    }
  }

  /** The next day (Python `d + timedelta(days=1)`). */
  function NextDay(d: Date): (r: Date)
    requires InCalendar(d)
    ensures InCalendar(r) && Ordinal(r) == Ordinal(d) + 1
  {
    FromOrdinal(Ordinal(d) + 1)
  }

  /** `strftime('%Y-%m-%d')`, with the year zero-padded to four digits. */
  function DateString(d: Date): string
    requires InCalendar(d)
  {
    ZeroPad(d.year, 4) + "-" + ZeroPad(d.month, 2) + "-" + ZeroPad(d.day, 2)
  }

  const MicrosPerSecond: nat := 1000000
  const MicrosPerMinute: nat := 60000000
  const MicrosPerHour: nat := 3600000000
  const MicrosPerDay: nat := 86400000000

  /**
   * A Python `datetime`: wall-clock fields and, when aware, the UTC offset in
   * minutes (None for a naive value).
   */
  datatype DateTime = DateTime(date: Date, hour: int, minute: int, second: int, micro: int, offset: Option<int>)

  predicate ValidDateTime(t: DateTime) {
    ValidDate(t.date) && 0 <= t.hour < 24 && 0 <= t.minute < 60 && 0 <= t.second < 60
    && 0 <= t.micro < MicrosPerSecond
  }

  /** Microseconds since midnight. */
  function TimeOfDay(t: DateTime): (m: nat)
    requires ValidDateTime(t)
    ensures m < MicrosPerDay
  {
    t.hour * MicrosPerHour + t.minute * MicrosPerMinute + t.second * MicrosPerSecond + t.micro
  }

  /** Number of microseconds Python's `datetime` covers. */
  function MicrosCount(): nat {
    DayCount() * MicrosPerDay
  }

  /** Microseconds since 0001-01-01T00:00 on the wall clock. */
  function WallMicros(t: DateTime): (m: nat)
    requires ValidDateTime(t)
    ensures m < MicrosCount()
  {
    OrdinalInRange(t.date);
    MulLe(Ordinal(t.date) + 1, DayCount(), MicrosPerDay);
    Ordinal(t.date) * MicrosPerDay + TimeOfDay(t)
  }

  lemma MulLe(a: int, c: int, b: nat)
    requires a <= c
    ensures a * b <= c * b
  {
    assert c * b - a * b == (c - a) * b;
  }

  lemma DivLess(m: nat, k: nat, b: nat)
    requires b > 0 && m < k * b
    ensures m / b < k
  {
    if m / b >= k {
      MulLe(k, m / b, b);
    }
  }

  /** The date-time at `m` wall-clock microseconds, with the given offset. */
  function FromMicros(m: nat, offset: Option<int>): (t: DateTime)
    requires m < MicrosCount()
    ensures ValidDateTime(t) && WallMicros(t) == m && t.offset == offset
  {
    var days := m / MicrosPerDay;
    var rest := m % MicrosPerDay;
    DivLess(m, DayCount(), MicrosPerDay);
    TimeParts(rest);
    var t := DateTime(FromOrdinal(days), rest / MicrosPerHour, rest % MicrosPerHour / MicrosPerMinute,
                      rest % MicrosPerMinute / MicrosPerSecond, rest % MicrosPerSecond, offset);
    t
  }

  /** The hour, minute, second and microsecond fields of a time of day. */
  lemma TimeParts(rest: nat)
    requires rest < MicrosPerDay
    ensures rest / MicrosPerHour < 24 && rest % MicrosPerHour / MicrosPerMinute < 60
    ensures rest % MicrosPerMinute / MicrosPerSecond < 60 && rest % MicrosPerSecond < MicrosPerSecond
    ensures rest / MicrosPerHour * MicrosPerHour + rest % MicrosPerHour / MicrosPerMinute * MicrosPerMinute
            + rest % MicrosPerMinute / MicrosPerSecond * MicrosPerSecond + rest % MicrosPerSecond == rest
  {
    var inHour := rest % MicrosPerHour;
    var inMinute := rest % MicrosPerMinute;
    assert rest == rest / MicrosPerHour * MicrosPerHour + inHour;
    assert inHour == inHour / MicrosPerMinute * MicrosPerMinute + inHour % MicrosPerMinute;
    assert inHour % MicrosPerMinute == inMinute;
    assert inMinute == inMinute / MicrosPerSecond * MicrosPerSecond + rest % MicrosPerSecond;
  }

  lemma DivModUnique(q1: int, r1: int, q2: int, r2: int, b: int)
    requires b > 0 && 0 <= r1 < b && 0 <= r2 < b
    requires q1 * b + r1 == q2 * b + r2
    ensures q1 == q2 && r1 == r2
  {
    if q1 < q2 {
      MulLe(q1 + 1, q2, b);
    } else if q2 < q1 {
      MulLe(q2 + 1, q1, b);
    }
  }

  /** Distinct valid date-times have distinct wall-clock instants. */
  lemma WallMicrosInjective(t1: DateTime, t2: DateTime)
    requires ValidDateTime(t1) && ValidDateTime(t2) && t1.offset == t2.offset
    requires WallMicros(t1) == WallMicros(t2)
    ensures t1 == t2
  {
    DivModUnique(Ordinal(t1.date), TimeOfDay(t1), Ordinal(t2.date), TimeOfDay(t2), MicrosPerDay);
    OrdinalInjective(t1.date, t2.date);
  }

  /** Reading a date-time's fields back from its instant gives the same date-time. */
  lemma FromMicrosWallMicros(t: DateTime)
    requires ValidDateTime(t)
    ensures FromMicros(WallMicros(t), t.offset) == t
  {
    WallMicrosInjective(FromMicros(WallMicros(t), t.offset), t);
  }

  /** Python `t + timedelta(microseconds=delta)`, or None on OverflowError. */
  function Shift(t: DateTime, delta: int): (r: Option<DateTime>)
    requires ValidDateTime(t)
    ensures r.Some? <==> 0 <= WallMicros(t) + delta < MicrosCount()
    ensures r.Some? ==> ValidDateTime(r.value) && r.value.offset == t.offset
                        && WallMicros(r.value) == WallMicros(t) + delta
  {
    var m := WallMicros(t) + delta;
    if 0 <= m < MicrosCount() then Some(FromMicros(m, t.offset)) else None
  }

  /** Adding no time gives the date-time back. */
  lemma ShiftZero(t: DateTime)
    requires ValidDateTime(t)
    ensures Shift(t, 0) == Some(t)
  {
    FromMicrosWallMicros(t);
  }
}
