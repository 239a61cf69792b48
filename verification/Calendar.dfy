/** The windows usage is metered in: days and months of the proleptic Gregorian calendar in UTC, on
    seconds since the start of 1970. */
module Calendar {

  /** What calendar days and months have in common: a window starts no later than any of its instants,
      and later instants have no earlier start. */
  ghost predicate WindowStart(start: int -> int)
  {
    && (forall t :: start(t) <= t)
    && (forall t, u :: t <= u ==> start(t) <= start(u))
  }

  const SECONDS_A_DAY := 86400

  /** `now.replace(hour=0, minute=0, second=0, microsecond=0)`. */
  function UtcDayStart(t: int): int
  {
    t - t % SECONDS_A_DAY
  }

  lemma UtcDaysAreWindows()
    ensures WindowStart(UtcDayStart)
  {
    forall t, u | t <= u ensures UtcDayStart(t) <= UtcDayStart(u) {
      var d := SECONDS_A_DAY;
      assert t == d * (t / d) + t % d && u == d * (u / d) + u % d;
      assert t / d <= u / d;
    }
  }

  /** A day starts at the last multiple of its length. */
  lemma DayStartsAreExact(t: int)
    ensures UtcDayStart(t) % SECONDS_A_DAY == 0 && UtcDayStart(t) <= t < UtcDayStart(t) + 24 * 60 * 60
  {
  }

  predicate Leap(year: int)
  {
    year % 4 == 0 && (year % 100 != 0 || year % 400 == 0)
  }

  /** Months are numbered 0 to 11. */
  function DaysInMonth(year: int, month: int): int
    requires 0 <= month < 12
  {
    if month == 1 then (if Leap(year) then 29 else 28)
    else if month in {3, 5, 8, 10} then 30
    else 31
  }

  /** Days of the year before the month. */
  function DaysBeforeMonth(year: int, month: int): int
    requires 0 <= month <= 12
  {
    if month == 0 then 0 else DaysBeforeMonth(year, month - 1) + DaysInMonth(year, month - 1)
  }

  /** Days before the year, counted from the start of year 1. */
  function DaysBeforeYear(year: int): int
  {
    365 * (year - 1) + (year - 1) / 4 - (year - 1) / 100 + (year - 1) / 400
  }

  /** The first day of the month with this number, counted from January of year 0. */
  function FirstDay(month: int): int
  {
    DaysBeforeYear(month / 12) + DaysBeforeMonth(month / 12, month % 12)
  }

  lemma FloorStep(n: int, k: int)
    requires k in {4, 100, 400}
    ensures n / k - (n - 1) / k == if n % k == 0 then 1 else 0
  {
  }

  lemma YearLength(year: int)
    ensures DaysBeforeYear(year + 1) - DaysBeforeYear(year) == if Leap(year) then 366 else 365
  {
    FloorStep(year, 4);
    FloorStep(year, 100);
    FloorStep(year, 400);
  }

  lemma YearOfMonths(year: int)
    ensures DaysBeforeMonth(year, 12) == if Leap(year) then 366 else 365
  {
    assert DaysBeforeMonth(year, 1) == 31;
    var march := DaysBeforeMonth(year, 2);
    assert march == if Leap(year) then 60 else 59;
    assert DaysBeforeMonth(year, 4) == march + 61;
    assert DaysBeforeMonth(year, 6) == march + 122;
    assert DaysBeforeMonth(year, 8) == march + 184;
    assert DaysBeforeMonth(year, 10) == march + 245;
  }

  /** Each month ends where the next one starts. */
  lemma MonthLength(month: int)
    ensures FirstDay(month + 1) == FirstDay(month) + DaysInMonth(month / 12, month % 12)
  {
    var year, m := month / 12, month % 12;
    if m == 11 {
      assert (month + 1) / 12 == year + 1 && (month + 1) % 12 == 0;
      YearLength(year);
      YearOfMonths(year);
    } else {
      assert (month + 1) / 12 == year && (month + 1) % 12 == m + 1;
    }
  }

  lemma {:induction false} FirstDaysGrow(m: int, n: int)
    requires m <= n
    ensures FirstDay(m) + 28 * (n - m) <= FirstDay(n)
    decreases n - m
  {
    if m < n {
      FirstDaysGrow(m, n - 1);
      MonthLength(n - 1);
    }
  }

  function MonthFrom(day: int, month: int): (found: int)
    requires FirstDay(month) <= day
    ensures FirstDay(found) <= day < FirstDay(found + 1)
    decreases day - FirstDay(month)
  {
    hide FirstDay;
    MonthLength(month);
    if day < FirstDay(month + 1) then month else MonthFrom(day, month + 1)
  }

  function MonthUpTo(day: int, month: int): (found: int)
    requires day < FirstDay(month + 1)
    ensures FirstDay(found) <= day < FirstDay(found + 1)
    decreases FirstDay(month + 1) - day
  {
    hide FirstDay;
    MonthLength(month);
    if FirstDay(month) <= day then month else MonthUpTo(day, month - 1)
  }

  /** The month a day belongs to. */
  function MonthOf(day: int): (month: int)
    ensures FirstDay(month) <= day < FirstDay(month + 1)
  {
    hide FirstDay;
    if FirstDay(0) <= day then MonthFrom(day, 0) else MonthUpTo(day, -1)
  }

  lemma MonthIsUnique(day: int, month: int)
    requires FirstDay(month) <= day < FirstDay(month + 1)
    ensures MonthOf(day) == month
  {
    hide FirstDay, MonthFrom, MonthUpTo;
    var other := MonthOf(day);
    if other < month {
      FirstDaysGrow(other + 1, month);
    } else if month < other {
      FirstDaysGrow(month + 1, other);
    }
  }

  /** The day number of 1 January 1970. */
  const EPOCH_DAY := DaysBeforeYear(1970)

  function DayOf(t: int): int
  {
    t / SECONDS_A_DAY + EPOCH_DAY
  }

  /** `day_start.replace(day=1)`. */
  function UtcMonthStart(t: int): int
  {
    (FirstDay(MonthOf(DayOf(t))) - EPOCH_DAY) * SECONDS_A_DAY
  }

  lemma UtcMonthsAreWindows()
    ensures WindowStart(UtcMonthStart)
  {
    hide MonthOf, FirstDay;
    forall t ensures UtcMonthStart(t) <= t {
      var first := FirstDay(MonthOf(DayOf(t)));
      assert first <= DayOf(t);
      assert (first - EPOCH_DAY) * SECONDS_A_DAY <= (t / SECONDS_A_DAY) * SECONDS_A_DAY <= t;
    }
    forall t, u | t <= u ensures UtcMonthStart(t) <= UtcMonthStart(u) {
      MonthsGrow(DayOf(t), DayOf(u));
    }
  }

  lemma MonthsGrow(d: int, e: int)
    requires d <= e
    ensures FirstDay(MonthOf(d)) <= FirstDay(MonthOf(e))
  {
    hide MonthOf, FirstDay;
    var m, n := MonthOf(d), MonthOf(e);
    if n < m {
      FirstDaysGrow(n + 1, m);
    } else {
      FirstDaysGrow(m, n);
    }
  }

  /** Two instants have the same month start exactly when they lie in the same month. */
  lemma MonthStartsAreExact(t: int, u: int)
    ensures UtcMonthStart(t) == UtcMonthStart(u) <==> MonthOf(DayOf(t)) == MonthOf(DayOf(u))
  {
    hide MonthOf, FirstDay;
    var m, n := MonthOf(DayOf(t)), MonthOf(DayOf(u));
    if m < n {
      FirstDaysGrow(m, n);
    } else if n < m {
      FirstDaysGrow(n, m);
    }
  }

  /** Thirty days have September, April, June and November. */
  lemma MonthLengthsAre(year: int)
    ensures forall m :: 0 <= m < 12 ==>
      DaysInMonth(year, m) == [31, if Leap(year) then 29 else 28, 31, 30, 31, 30, 31, 31, 30, 31, 30, 31][m]
  {
  }

  lemma EpochStartsAMonth()
    ensures FirstDay(23640) == EPOCH_DAY && UtcMonthStart(0) == 0
  {
    assert FirstDay(23640) == EPOCH_DAY;
    hide FirstDay, DaysBeforeYear, MonthOf;
    MonthLength(23640);
    MonthIsUnique(DayOf(0), 23640);
  }

  lemma FebruaryOf2024()
    ensures FirstDay(24289) == EPOCH_DAY + 19754
  {
    assert 24289 / 12 == 2024 && 24289 % 12 == 1;
    assert DaysBeforeMonth(2024, 1) == 31;
  }

  /** 29 February 2024, 12:34:56, lies in the month that began at 1706745600. */
  lemma LeapDayIsInFebruary()
    ensures UtcMonthStart(1709210096) == 1706745600
  {
    FebruaryOf2024();
    MonthLength(24289);
    assert DayOf(1709210096) == EPOCH_DAY + 19782;
    hide FirstDay, DaysBeforeYear, MonthOf;
    MonthIsUnique(DayOf(1709210096), 24289);
  }
}
