/**
 * Day arithmetic of the proleptic Gregorian calendar in UTC, counted in days since
 * 1970-01-01 (day 0, a Thursday). The WEEK and MONTH windows of a rate-limit period
 * start at midnight UTC of a day this module names.
 */
module Calendar {

  const DAY_MS: int := 86_400_000

  predicate IsLeap(y: int) {
    (y % 4 == 0 && y % 100 != 0) || y % 400 == 0
  }

  function YearLength(y: int): int {
    if IsLeap(y) then 366 else 365
  }

  /** Leap years in 1..x (for x >= 0), extended to all x by the same formula. */
  function LeapsUpTo(x: int): int {
    x / 4 - x / 100 + x / 400
  }

  /** Stepping from `y - 1` to `y` crosses a multiple of 4, 100 or 400 exactly when `y` is one. */
  lemma QuarterStep(y: int)
    ensures y / 4 - (y - 1) / 4 == if y % 4 == 0 then 1 else 0
  {
  }

  lemma CenturyStep(y: int)
    ensures y / 100 - (y - 1) / 100 == if y % 100 == 0 then 1 else 0
  {
  }

  lemma FourCenturyStep(y: int)
    ensures y / 400 - (y - 1) / 400 == if y % 400 == 0 then 1 else 0
  {
  }

  lemma LeapsStep(y: int)
    ensures LeapsUpTo(y) - LeapsUpTo(y - 1) == if IsLeap(y) then 1 else 0
  {
    QuarterStep(y);
    CenturyStep(y);
    FourCenturyStep(y);
    if y % 400 == 0 {
      MultipleOf400(y);
    } else if y % 100 == 0 {
      MultipleOf100(y);
    }
  }

  /** A multiple of 400 is a multiple of 100 and of 4. */
  lemma MultipleOf400(y: int)
    requires y % 400 == 0
    ensures y % 100 == 0 && y % 4 == 0
  {
    var q := y / 400;
    assert y == 100 * (4 * q);
    assert y == 4 * (100 * q);
  }

  /** A multiple of 100 is a multiple of 4. */
  lemma MultipleOf100(y: int)
    requires y % 100 == 0
    ensures y % 4 == 0
  {
    var q := y / 100;
    assert y == 4 * (25 * q);
  }

  /** The day number of January 1 of year `y`. */
  function YearStart(y: int): int {
    365 * (y - 1970) + LeapsUpTo(y - 1) - LeapsUpTo(1969)
  }

  /** Consecutive years are exactly one year length apart. */
  lemma YearStartStep(y: int)
    ensures YearStart(y + 1) == YearStart(y) + YearLength(y)
  {
    LeapsStep(y);
  }

  /** The number of days of month `m` (1 = January .. 12 = December) of year `y`. */
  function MonthLength(y: int, m: int): (n: int)
    requires 1 <= m <= 12
    ensures 28 <= n <= 31
  {
    if m == 2 then (if IsLeap(y) then 29 else 28)
    else if m == 4 || m == 6 || m == 9 || m == 11 then 30
    else 31
  }

  /** Days of year `y` before the first of month `m`. */
  function DaysBeforeMonth(y: int, m: int): int
    requires 1 <= m <= 12
  {
    [0, 31, 59, 90, 120, 151, 181, 212, 243, 273, 304, 334][m - 1]
      + (if m > 2 && IsLeap(y) then 1 else 0)
  }

  /** The day number of the calendar date y-m-d. */
  function DayOf(y: int, m: int, d: int): int
    requires 1 <= m <= 12
  {
    YearStart(y) + DaysBeforeMonth(y, m) + (d - 1)
  }

  /** The year and month of the `k`-th month after January 1970 (k may be negative). */
  function MonthYear(k: int): int { 1970 + k / 12 }

  function MonthOfYear(k: int): (m: int)
    ensures 1 <= m <= 12
  {
    k % 12 + 1
  }

  /** The length of the `k`-th month after January 1970. */
  function MonthLengthAt(k: int): (n: int)
    ensures 28 <= n <= 31
  {
    MonthLength(MonthYear(k), MonthOfYear(k))
  }

  /**
   * The day number of the first day of the `k`-th month after January 1970, reached by
   * adding (or, before 1970, subtracting) the lengths of the months in between.
   */
  function MonthStart(k: int): int
    decreases if k < 0 then -k else k
  {
    if k == 0 then 0
    else if k > 0 then MonthStart(k - 1) + MonthLengthAt(k - 1)
    else MonthStart(k + 1) - MonthLengthAt(k)
  }

  /** Consecutive month starts are one month length apart. */
  lemma MonthStartStep(k: int)
    ensures MonthStart(k + 1) == MonthStart(k) + MonthLengthAt(k)
    ensures MonthStart(k) + 28 <= MonthStart(k + 1) <= MonthStart(k) + 31
  {
  }

  /** On the calendar, the month after month `k` begins the day after the last day of month `k`. */
  lemma {:induction false} NextMonthFollowsLastDay(k: int)
    ensures DayOf(MonthYear(k + 1), MonthOfYear(k + 1), 1)
      == DayOf(MonthYear(k), MonthOfYear(k), MonthLengthAt(k)) + 1
  {
    var y, m := MonthYear(k), MonthOfYear(k);
    if m < 12 {
      assert MonthYear(k + 1) == y && MonthOfYear(k + 1) == m + 1;
    } else {
      assert MonthYear(k + 1) == y + 1 && MonthOfYear(k + 1) == 1;
      YearStartStep(y);
    }
  }

  /** The day number of the first of the `k`-th month after January 1970, on the calendar. */
  function FirstOfMonth(k: int): int {
    DayOf(MonthYear(k), MonthOfYear(k), 1)
  }

  /** On the calendar, the first of the month after month `k` is one month length after the first of month `k`. */
  lemma FirstOfNextMonth(k: int)
    ensures FirstOfMonth(k + 1) == FirstOfMonth(k) + MonthLengthAt(k)
  {
    NextMonthFollowsLastDay(k);
  }

  /** The first of January 1970 is day 0. */
  lemma FirstOfMonthZero()
    ensures FirstOfMonth(0) == 0
  {
    assert MonthYear(0) == 1970 && MonthOfYear(0) == 1;
  }

  /** MonthStart and the calendar's first of the month advance by the same amount from month to month. */
  lemma MonthStartGap(k: int)
    ensures MonthStart(k + 1) - FirstOfMonth(k + 1) == MonthStart(k) - FirstOfMonth(k)
  {
    FirstOfNextMonth(k);
    MonthStartStep(k);
  }

  /** Month `k` starts on day 1 of its calendar month: the month starts are the calendar's. */
  lemma {:induction false} MonthStartIsFirstOfMonth(k: int)
    ensures MonthStart(k) == FirstOfMonth(k)
    decreases if k < 0 then -k else k
  {
    if k > 0 {
      MonthStartIsFirstOfMonth(k - 1);
      MonthStartGap(k - 1);
    } else if k < 0 {
      MonthStartIsFirstOfMonth(k + 1);
      MonthStartGap(k);
    } else {
      FirstOfMonthZero();
    }
  }

  /** Month starts are strictly increasing: months follow one another in order. */
  lemma {:induction false} MonthStartIncreasing(i: int, j: int)
    requires i < j
    ensures MonthStart(i) < MonthStart(j)
    decreases j - i
  {
    MonthStartStep(i);
    if i + 1 < j {
      MonthStartIncreasing(i + 1, j);
    }
  }

  /** Month `n` starts no later than day 31 n. */
  lemma {:induction false} MonthStartUpperBound(n: int)
    requires n >= 0
    ensures MonthStart(n) <= 31 * n
  {
    if n == 0 {
      assert MonthStart(0) == 0;
    } else {
      MonthStartUpperBound(n - 1);
      MonthStartStep(n - 1);
    }
  }

  /** Month `-n` starts no later than day -28 n. */
  lemma {:induction false} MonthStartLowerBound(n: int)
    requires n >= 0
    ensures MonthStart(-n) <= -28 * n
  {
    if n == 0 {
      assert MonthStart(0) == 0;
    } else {
      MonthStartLowerBound(n - 1);
      MonthStartStep(-n);
    }
  }

  /** The month holding `day`, found by walking forward from month `k`, which starts no later. */
  function MonthIndexFrom(day: int, k: int): (r: int)
    requires MonthStart(k) <= day
    ensures k <= r && MonthStart(r) <= day < MonthStart(r + 1)
    decreases day - MonthStart(k)
  {
    MonthStartStep(k);
    if day < MonthStart(k + 1) then k else MonthIndexFrom(day, k + 1)
  }

  /** A month that starts no later than `day`, from the bounds 28 <= month length <= 31. */
  function MonthGuess(day: int): (k: int)
    ensures MonthStart(k) <= day
  {
    if day >= 0 then
      var k := day / 31;
      assert 31 * k <= day;
      MonthStartUpperBound(k);
      k
    else
      var k := day / 28;
      assert 28 * k <= day;
      MonthStartLowerBound(-k);
      k
  }

  /** The index of the month containing `day`: the unique k with MonthStart(k) <= day < MonthStart(k + 1). */
  function MonthIndex(day: int): (k: int)
    ensures MonthStart(k) <= day < MonthStart(k + 1)
  {
    MonthIndexFrom(day, MonthGuess(day))
  }
}
