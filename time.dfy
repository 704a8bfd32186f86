/**
 * Calendar instants as the server's `Date` values see them in local time,
 * and the month windows the dashboard aggregates over.
 *
 * An instant is (year, month 0..11, day 1..31, milliseconds into the day),
 * ordered lexicographically, which is the order of the underlying time line.
 */
module Time {

  datatype Instant = Instant(year: int, month: int, day: int, millis: int)

  const MillisPerDay: int := 24 * 60 * 60 * 1000

  predicate Valid(t: Instant) {
    0 <= t.month < 12 && 1 <= t.day <= 31 && 0 <= t.millis < MillisPerDay
  }

  /** `a < b` on the time line. */
  predicate Before(a: Instant, b: Instant) {
    a.year < b.year
    || (a.year == b.year && (a.month < b.month
    || (a.month == b.month && (a.day < b.day
    || (a.day == b.day && a.millis < b.millis)))))
  }

  lemma BeforeIrreflexive(a: Instant)
    ensures !Before(a, a)
  {
  }

  lemma BeforeTransitive(a: Instant, b: Instant, c: Instant)
    requires Before(a, b) && Before(b, c)
    ensures Before(a, c)
  {
  }

  /** Any two distinct instants are ordered one way or the other. */
  lemma BeforeTotal(a: Instant, b: Instant)
    ensures a == b || Before(a, b) || Before(b, a)
  {
  }

  /** The number of months since year 0, January. */
  function MonthIndex(t: Instant): int {
    t.year * 12 + t.month
  }

  /**
   * `new Date(year, month, 1)`: a month outside 0..11 rolls over into the
   * neighbouring years, as JavaScript normalises it.
   */
  function FirstOfMonth(year: int, month: int): (t: Instant)
    ensures Valid(t) && t.day == 1 && t.millis == 0
    ensures MonthIndex(t) == year * 12 + month
  {
    Instant(year + month / 12, month % 12, 1, 0)
  }

  /** A half-open interval `[start, end)` of instants. */
  datatype Range = Range(start: Instant, end: Instant)

  predicate InRange(t: Instant, r: Range) {
    !Before(t, r.start) && Before(t, r.end)
  }

  /**
   * `getMonthRange(offset)`: from the first of the month `offset` months
   * away from `now` to the first of the month after it.
   */
  function GetMonthRange(now: Instant, offset: int): Range {
    Range(FirstOfMonth(now.year, now.month + offset), FirstOfMonth(now.year, now.month + offset + 1))
  }

  /** A valid instant comes before the first of a month exactly when its own month is earlier. */
  lemma BeforeFirstOfMonth(t: Instant, y: int, m: int)
    requires Valid(t)
    ensures Before(t, FirstOfMonth(y, m)) <==> MonthIndex(t) < y * 12 + m
  {
    var f := FirstOfMonth(y, m);
    if t.year < f.year {
      assert MonthIndex(t) <= t.year * 12 + 11 < f.year * 12 <= MonthIndex(f);
    } else if t.year > f.year {
      assert MonthIndex(f) <= f.year * 12 + 11 < t.year * 12 <= MonthIndex(t);
    }
  }

  /** A valid instant lies in the window `offset` months away exactly when it falls in that calendar month. */
  lemma InMonthRange(t: Instant, now: Instant, offset: int)
    requires Valid(t)
    ensures InRange(t, GetMonthRange(now, offset)) <==> MonthIndex(t) == now.year * 12 + now.month + offset
  {
    BeforeFirstOfMonth(t, now.year, now.month + offset);
    BeforeFirstOfMonth(t, now.year, now.month + offset + 1);
  }

  /** The previous month's window ends where the current one starts, across a year boundary too. */
  lemma ConsecutiveWindows(now: Instant, offset: int)
    ensures GetMonthRange(now, offset - 1).end == GetMonthRange(now, offset).start
  {
  }

  /** Windows for different offsets share no instant. */
  lemma WindowsDisjoint(t: Instant, now: Instant, i: int, j: int)
    requires Valid(t) && i != j
    ensures !(InRange(t, GetMonthRange(now, i)) && InRange(t, GetMonthRange(now, j)))
  {
    InMonthRange(t, now, i);
    InMonthRange(t, now, j);
  }

  /** Every window is non-empty: it holds its own start. */
  lemma WindowHoldsStart(now: Instant, offset: int)
    ensures InRange(GetMonthRange(now, offset).start, GetMonthRange(now, offset))
  {
    var r := GetMonthRange(now, offset);
    InMonthRange(r.start, now, offset);
  }

  /** A valid `now` lies in its own current-month window. */
  lemma NowInCurrentMonth(now: Instant)
    requires Valid(now)
    ensures InRange(now, GetMonthRange(now, 0))
  {
    InMonthRange(now, now, 0);
  }
}
