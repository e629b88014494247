/**
 * RateLimitPeriod: the five periods a limit can be configured for, and `wrap`,
 * which floors a millisecond timestamp to the start of the period's window.
 *
 * Every period cuts the time line into consecutive windows; `Bound(p, k)` is the
 * start of the k-th window (k = 0 is the window holding 1970-01-01T00:00Z) and the
 * window starts are strictly increasing. SECOND, MINUTE and HOUR windows are fixed
 * multiples of milliseconds; WEEK windows start on Monday 00:00 UTC (ISO weeks);
 * MONTH windows start on day 1 of each Gregorian calendar month, 00:00 UTC.
 */
module Periods {
  import opened Calendar

  /** The enum constants, in declaration order; there is no DAY period. */
  datatype RateLimitPeriod = SECOND | MINUTE | HOUR | WEEK | MONTH

  const AllPeriods: seq<RateLimitPeriod> := [SECOND, MINUTE, HOUR, WEEK, MONTH]

  /** The enum's `name()`, which is also what `toString()` and `StringBuilder.append` print. */
  function Name(p: RateLimitPeriod): (n: string)
    ensures 4 <= |n| <= 6
    ensures forall i :: 0 <= i < |n| ==> 'A' <= n[i] <= 'Z'
    ensures n != "null"
  {
    match p
    case SECOND => "SECOND"
    case MINUTE => "MINUTE"
    case HOUR => "HOUR"
    case WEEK => "WEEK"
    case MONTH => "MONTH"
  }

  /** `values()` lists each of the five periods exactly once, and their names tell them apart. */
  lemma PeriodValues()
    ensures |AllPeriods| == 5
    ensures forall p :: p in AllPeriods
    ensures forall i, j :: 0 <= i < j < |AllPeriods| ==> AllPeriods[i] != AllPeriods[j]
    ensures forall p, q :: Name(p) == Name(q) ==> p == q
  {
    forall p ensures p in AllPeriods {
      match p
      case SECOND => assert AllPeriods[0] == p;
      case MINUTE => assert AllPeriods[1] == p;
      case HOUR => assert AllPeriods[2] == p;
      case WEEK => assert AllPeriods[3] == p;
      case MONTH => assert AllPeriods[4] == p;
    }
  }

  const SECOND_MS: int := 1000
  const MINUTE_MS: int := 60_000
  const HOUR_MS: int := 3_600_000

  /** 1970-01-01 was a Thursday: the ISO week holding it began on Monday, day -3. */
  const EPOCH_WEEK_OFFSET: int := 3

  /** The start, in milliseconds since the epoch, of the k-th window of `p`. */
  function Bound(p: RateLimitPeriod, k: int): int {
    match p
    case SECOND => k * SECOND_MS
    case MINUTE => k * MINUTE_MS
    case HOUR => k * HOUR_MS
    case WEEK => (7 * k - EPOCH_WEEK_OFFSET) * DAY_MS
    case MONTH => MonthStart(k) * DAY_MS
  }

  /** Window starts of every period are strictly increasing in the window index. */
  lemma BoundIncreasing(p: RateLimitPeriod, i: int, j: int)
    requires i < j
    ensures Bound(p, i) < Bound(p, j)
  {
    if p == MONTH {
      MonthStartIncreasing(i, j);
    }
  }

  lemma BoundMonotone(p: RateLimitPeriod, i: int, j: int)
    requires i <= j
    ensures Bound(p, i) <= Bound(p, j)
  {
    if i < j {
      BoundIncreasing(p, i, j);
    }
  }

  /** The index of the window of `p` that holds time `t`. */
  function WindowIndex(p: RateLimitPeriod, t: int): (k: int)
    ensures Bound(p, k) <= t < Bound(p, k + 1)
  {
    match p
    case SECOND => t / SECOND_MS
    case MINUTE => t / MINUTE_MS
    case HOUR => t / HOUR_MS
    case WEEK => (t / DAY_MS + EPOCH_WEEK_OFFSET) / 7
    case MONTH => MonthIndex(t / DAY_MS)
  }

  /** `f` lists boundaries in strictly increasing order. */
  ghost predicate Increasing(f: int -> int) {
    forall i, j :: i < j ==> f(i) < f(j)
  }

  /** A point lies below at most one window end at or after its window start. */
  lemma FloorIndexUnique(f: int -> int, x: int, k: int, w: int)
    requires Increasing(f)
    requires f(k) <= x < f(k + 1) && f(w) <= x < f(w + 1)
    ensures k == w
  {
    assert w < k ==> f(w + 1) <= f(k);
    assert k < w ==> f(k + 1) <= f(w);
  }

  /** The window starts of `p`, as one function of the window index. */
  function Bounds(p: RateLimitPeriod): int -> int {
    k => Bound(p, k)
  }

  lemma BoundsIncrease(p: RateLimitPeriod)
    ensures Increasing(Bounds(p))
  {
    forall i, j | i < j ensures Bounds(p)(i) < Bounds(p)(j) {
      BoundIncreasing(p, i, j);
    }
  }

  /** Windows do not overlap: a time lies in at most one window of each period. */
  lemma WindowsDisjoint(p: RateLimitPeriod, t: int, k: int, w: int)
    requires Bound(p, k) <= t < Bound(p, k + 1)
    requires Bound(p, w) <= t < Bound(p, w + 1)
    ensures k == w
  {
    BoundsIncrease(p);
    FloorIndexUnique(Bounds(p), t, k, w);
  }

  /** So the window that holds `t` is the one `WindowIndex` finds. */
  lemma WindowIndexUnique(p: RateLimitPeriod, t: int, k: int)
    requires Bound(p, k) <= t < Bound(p, k + 1)
    ensures WindowIndex(p, t) == k
  {
    WindowsDisjoint(p, t, k, WindowIndex(p, t));
  }

  /**
   * `wrap`: floors `t` to the start of its window of `p` — the greatest window start
   * at or below `t` (for SECOND, 1.2 s becomes 1 s).
   */
  function Wrap(p: RateLimitPeriod, t: int): (r: int)
    ensures r <= t
    ensures exists k :: r == Bound(p, k)
    ensures forall k :: Bound(p, k) <= t ==> Bound(p, k) <= r
  {
    var k := WindowIndex(p, t);
    assert forall j :: Bound(p, j) <= t ==> j <= k by {
      forall j | Bound(p, j) <= t ensures j <= k {
        if j > k {
          BoundMonotone(p, k + 1, j);
        }
      }
    }
    assert forall j :: Bound(p, j) <= t ==> Bound(p, j) <= Bound(p, k) by {
      forall j | Bound(p, j) <= t ensures Bound(p, j) <= Bound(p, k) {
        BoundMonotone(p, j, k);
      }
    }
    Bound(p, k)
  }

  /** The doc example: 1.2 seconds wraps to 1 second. */
  lemma WrapSecondExample()
    ensures Wrap(SECOND, 1200) == 1000
  {
    WindowIndexUnique(SECOND, 1200, 1);
  }

  /** SECOND, MINUTE and HOUR floor to the nearest multiple of 1000, 60000 and 3600000 ms. */
  lemma WrapFixedLength(p: RateLimitPeriod, t: int)
    requires p == SECOND || p == MINUTE || p == HOUR
    ensures var len := if p == SECOND then SECOND_MS else if p == MINUTE then MINUTE_MS else HOUR_MS;
      Wrap(p, t) == t - t % len
  {
    var len := if p == SECOND then SECOND_MS else if p == MINUTE then MINUTE_MS else HOUR_MS;
    WindowIndexUnique(p, t, t / len);
  }

  /** Wrapping a window start leaves it in place: `wrap(wrap(t)) == wrap(t)`. */
  lemma WrapIdempotent(p: RateLimitPeriod, t: int)
    ensures Wrap(p, Wrap(p, t)) == Wrap(p, t)
  {
    var r := Wrap(p, t);
    var k :| r == Bound(p, k);
    assert Bound(p, k) <= Wrap(p, r);
  }

  /** `wrap` is monotone: a later time never wraps to an earlier window start. */
  lemma WrapMonotone(p: RateLimitPeriod, t1: int, t2: int)
    requires t1 <= t2
    ensures Wrap(p, t1) <= Wrap(p, t2)
  {
    var k :| Wrap(p, t1) == Bound(p, k);
    assert Bound(p, k) <= t2;
  }

  /** Two times wrap to the same start exactly when they fall in the same window. */
  lemma WrapSameWindow(p: RateLimitPeriod, t1: int, t2: int)
    ensures Wrap(p, t1) == Wrap(p, t2) <==> WindowIndex(p, t1) == WindowIndex(p, t2)
  {
    var k1, k2 := WindowIndex(p, t1), WindowIndex(p, t2);
    WrapIsWindowStart(p, t1);
    WrapIsWindowStart(p, t2);
    if k1 < k2 {
      BoundIncreasing(p, k1, k2);
    } else if k2 < k1 {
      BoundIncreasing(p, k2, k1);
    }
  }

  /** The day of the week of day number `d`: 0 = Sunday, 1 = Monday, .., 6 = Saturday. */
  function Weekday(d: int): int {
    (d + 4) % 7
  }

  /** A WEEK window starts at midnight UTC of a Monday and `t` lies within the following 7 days. */
  lemma WrapWeekIsMonday(t: int)
    ensures Wrap(WEEK, t) % DAY_MS == 0
    ensures Weekday(Wrap(WEEK, t) / DAY_MS) == 1
    ensures t - Wrap(WEEK, t) < 7 * DAY_MS
  {
    var k := WindowIndex(WEEK, t);
    WrapIsWindowStart(WEEK, t);
    assert Bound(WEEK, k) / DAY_MS == 7 * k - EPOCH_WEEK_OFFSET;
  }

  /** `Wrap` returns the start of the window `WindowIndex` finds. */
  lemma WrapIsWindowStart(p: RateLimitPeriod, t: int)
    ensures Wrap(p, t) == Bound(p, WindowIndex(p, t))
  {
    var k := WindowIndex(p, t);
    var j :| Wrap(p, t) == Bound(p, j);
    if j < k {
      BoundIncreasing(p, j, k);
    } else if j > k {
      BoundMonotone(p, k + 1, j);
    }
  }

  /**
   * A MONTH window starts at midnight UTC of day 1 of a calendar month, and the day of `t`
   * is at most that month's last day, whatever the month's length.
   */
  lemma WrapMonthIsFirstOfMonth(t: int)
    ensures var k := WindowIndex(MONTH, t);
      var y, m := MonthYear(k), MonthOfYear(k);
      Wrap(MONTH, t) == DayOf(y, m, 1) * DAY_MS
      && t / DAY_MS <= DayOf(y, m, MonthLengthAt(k))
  {
    var k := WindowIndex(MONTH, t);
    var y, m := MonthYear(k), MonthOfYear(k);
    WrapIsWindowStart(MONTH, t);
    MonthStartIsFirstOfMonth(k);
    MonthStartIsFirstOfMonth(k + 1);
    NextMonthFollowsLastDay(k);
    var first, last := DayOf(y, m, 1), DayOf(y, m, MonthLengthAt(k));
    assert Wrap(MONTH, t) == first * DAY_MS;
    assert MonthStart(k + 1) == last + 1;
    assert t < (last + 1) * DAY_MS;
  }

  /** 2024-02-29T10:00Z wraps to 2024-02-01T00:00Z for MONTH and to Monday 2024-02-26T00:00Z for WEEK. */
  lemma WrapLeapDayExample()
    ensures Wrap(MONTH, 1_709_200_800_000) == 1_706_745_600_000
    ensures Wrap(WEEK, 1_709_200_800_000) == 1_708_905_600_000
  {
    var t := 1_709_200_800_000;
    assert DayOf(2024, 2, 1) == 19754 && DayOf(2024, 3, 1) == 19783;
    MonthStartIsFirstOfMonth(649);
    MonthStartIsFirstOfMonth(650);
    WindowIndexUnique(MONTH, t, 649);
    WrapIsWindowStart(MONTH, t);
    WindowIndexUnique(WEEK, t, 2826);
    WrapIsWindowStart(WEEK, t);
  }
}
