/**
 The proleptic Gregorian calendar in UTC, and the three bucket grids of the issuance trend.
 A time is a number of nanoseconds since 1 January 1970.
 */
module Calendar {

  const SECOND := 1_000_000_000
  const DAY := 86400 * SECOND

  /** The number of the UTC day, rounding towards the past. */
  function DayOf(t: int): int {
    t / DAY
  }

  predicate Leap(y: int) {
    y % 4 == 0 && (y % 100 != 0 || y % 400 == 0)
  }

  /** The day number of 1 January of year y. */
  function YearStart(y: int): int {
    365 * (y - 1970) + (y - 1) / 4 - (y - 1) / 100 + (y - 1) / 400 - 477
  }

  const COMMON := [0, 31, 59, 90, 120, 151, 181, 212, 243, 273, 304, 334]

  /** The day number of the first of a month; months are counted from January of year 0. */
  function MonthStart(k: int): int {
    var y, m := k / 12, k % 12;
    YearStart(y) + COMMON[m] + if m >= 2 && Leap(y) then 1 else 0
  }

  lemma {:induction false} YearLength(y: int)
    ensures YearStart(y + 1) - YearStart(y) == if Leap(y) then 366 else 365
  {
    QuotientStep(y, 4);
    QuotientStep(y, 100);
    QuotientStep(y, 400);
    CenturiesAreDivisible(y);
  }

  lemma {:induction false} CenturiesAreDivisible(y: int)
    ensures y % 400 == 0 ==> y % 100 == 0
    ensures y % 100 == 0 ==> y % 4 == 0
  {
    var q, r := y / 400, y % 400;
    assert y == 4 * (100 * q) + r == 100 * (4 * q) + r;
    var q', r' := y / 100, y % 100;
    assert y == 4 * (25 * q') + r';
  }

  /** Of two years in a row at most one is a leap year. */
  lemma {:induction false} NotBothLeap(y: int)
    ensures !(Leap(y) && Leap(y + 1))
  {
  }

  lemma {:induction false} QuotientStep(y: int, n: int)
    requires n == 4 || n == 100 || n == 400
    ensures y / n - (y - 1) / n == if y % n == 0 then 1 else 0
  {
  }

  lemma {:induction false} MonthLength(k: int)
    ensures 28 <= MonthStart(k + 1) - MonthStart(k) <= 31
  {
    YearLength(k / 12);
    if k % 12 == 11 {
      assert (k + 1) / 12 == k / 12 + 1 && (k + 1) % 12 == 0;
    } else {
      assert (k + 1) / 12 == k / 12 && (k + 1) % 12 == k % 12 + 1;
    }
  }

  /** Month m of year y, January being 0, has the length that the calendar gives it. */
  lemma {:induction false} MonthDays(y: int, m: int)
    requires 0 <= m < 12
    ensures MonthStart(12 * y + m + 1) - MonthStart(12 * y + m)
            == if m == 1 then (if y % 4 == 0 && (y % 100 != 0 || y % 400 == 0) then 29 else 28)
               else if m == 3 || m == 5 || m == 8 || m == 10 then 30
               else 31
  {
    hide YearStart;
    assert (12 * y + m) / 12 == y && (12 * y + m) % 12 == m;
    if m == 11 {
      assert (12 * y + m + 1) / 12 == y + 1 && (12 * y + m + 1) % 12 == 0;
      YearLength(y);
    } else {
      assert (12 * y + m + 1) / 12 == y && (12 * y + m + 1) % 12 == m + 1;
    }
  }

  function SearchDown(d: int, k: int): (r: int)
    requires d < MonthStart(k + 1)
    ensures MonthStart(r) <= d < MonthStart(r + 1)
    decreases MonthStart(k + 1) - d
  {
    hide MonthStart;
    MonthLength(k);
    if MonthStart(k) <= d then k else SearchDown(d, k - 1)
  }

  function SearchUp(d: int, k: int): (r: int)
    requires MonthStart(k) <= d
    ensures MonthStart(r) <= d < MonthStart(r + 1)
    decreases d - MonthStart(k)
  {
    hide MonthStart;
    MonthLength(k);
    if d < MonthStart(k + 1) then k else SearchUp(d, k + 1)
  }

  /** The month in which day d lies. */
  function MonthOf(d: int): (k: int)
    ensures MonthStart(k) <= d < MonthStart(k + 1)
  {
    hide MonthStart;
    var january1970 := 12 * 1970;
    if d < MonthStart(january1970) then SearchDown(d, january1970 - 1) else SearchUp(d, january1970)
  }

  lemma {:induction false} MonthStartMonotone(k: int, l: int)
    requires k <= l
    ensures 28 * (l - k) <= MonthStart(l) - MonthStart(k)
    decreases l - k
  {
    hide MonthStart;
    if k < l {
      MonthStartMonotone(k, l - 1);
      MonthLength(l - 1);
    }
  }

  lemma {:induction false} MonthOfUnique(d: int, k: int)
    requires MonthStart(k) <= d < MonthStart(k + 1)
    ensures MonthOf(d) == k
  {
    hide MonthStart, MonthOf;
    var r := MonthOf(d);
    if r < k {
      MonthStartMonotone(r + 1, k);
    } else if k < r {
      MonthStartMonotone(k + 1, r);
    }
  }

  // ---- Times, as package time computes them ----

  /** Sunday is 0; 1 January 1970 was a Thursday. */
  function Weekday(d: int): int {
    (d + 4) % 7
  }

  function AddDays(t: int, n: int): int {
    t + n * DAY
  }

  /** Adding months keeps the day of the month, which may overflow into a later month. */
  function AddMonths(t: int, n: int): int {
    var k := MonthOf(DayOf(t));
    (MonthStart(k + n) + (DayOf(t) - MonthStart(k))) * DAY + t % DAY
  }

  datatype TrendBucket = Day | Week | Month | Other(code: int)

  function TruncateToBucket(b: TrendBucket, t: int): int {
    match b
    case Week =>
      var offset := (Weekday(DayOf(t)) + 6) % 7;
      AddDays(DayOf(t) * DAY, -offset)
    case Month => MonthStart(MonthOf(DayOf(t))) * DAY
    case _ => DayOf(t) * DAY
  }

  function AdvanceBucket(b: TrendBucket, t: int): int {
    match b
    case Week => AddDays(t, 7)
    case Month => AddMonths(t, 1)
    case _ => AddDays(t, 1)
  }

  // ---- The bucket grid ----

  /** Which bucket holds t. Weeks run from Monday: 29 December 1969 starts week 0. */
  function Index(b: TrendBucket, t: int): int {
    match b
    case Week => (DayOf(t) + 3) / 7
    case Month => MonthOf(DayOf(t))
    case _ => DayOf(t)
  }

  /** The first instant of bucket i. */
  function Start(b: TrendBucket, i: int): int {
    match b
    case Week => (7 * i - 3) * DAY
    case Month => MonthStart(i) * DAY
    case _ => i * DAY
  }

  /**
   Where the three grids stand: in nanoseconds since 1970, days start at multiples of 86400 seconds, weeks
   on Mondays (5 January 1970, day 4, was one), and January 1970 at 0. MonthDays counts on from there.
   */
  lemma {:induction false} GridAnchors(i: int)
    ensures Start(Day, i) == i * 86_400_000_000_000
    ensures Start(Week, i) == (4 + 7 * (i - 1)) * 86_400_000_000_000
    ensures Start(Month, 12 * 1970) == 0
  {
  }

  predicate Aligned(b: TrendBucket, t: int) {
    TruncateToBucket(b, t) == t
  }

  lemma {:induction false} DayOfMidnight(d: int, rest: int)
    requires 0 <= rest < DAY
    ensures DayOf(d * DAY + rest) == d && (d * DAY + rest) % DAY == rest
  {
  }

  /** Each time lies in exactly one bucket, and truncation finds its start. */
  lemma {:induction false} TruncateIsStart(b: TrendBucket, t: int)
    ensures TruncateToBucket(b, t) == Start(b, Index(b, t))
    ensures Start(b, Index(b, t)) <= t < Start(b, Index(b, t) + 1)
  {
    hide MonthStart, MonthOf;
    var d := DayOf(t);
    assert d * DAY <= t < (d + 1) * DAY;
    match b
    case Week =>
      assert (Weekday(d) + 6) % 7 == (d + 3) % 7;
    case Month =>
      assert MonthStart(Index(b, t)) <= d && d + 1 <= MonthStart(Index(b, t) + 1);
    case _ =>
  }

  lemma {:induction false} IndexOfStart(b: TrendBucket, i: int)
    ensures Index(b, Start(b, i)) == i && Aligned(b, Start(b, i))
  {
    hide MonthStart, MonthOf;
    match b
    case Week =>
      DayOfMidnight(7 * i - 3, 0);
      TruncateIsStart(b, Start(b, i));
    case Month =>
      DayOfMidnight(MonthStart(i), 0);
      MonthLength(i);
      MonthOfUnique(MonthStart(i), i);
    case _ =>
      DayOfMidnight(i, 0);
  }

  lemma {:induction false} AdvanceIsNext(b: TrendBucket, i: int)
    ensures AdvanceBucket(b, Start(b, i)) == Start(b, i + 1)
  {
    hide MonthStart, MonthOf;
    IndexOfStart(b, i);
    if b == Month {
      DayOfMidnight(MonthStart(i), 0);
    }
  }

  lemma {:induction false} StartMonotone(b: TrendBucket, i: int, j: int)
    requires i < j
    ensures Start(b, i) + DAY <= Start(b, j)
  {
    hide MonthStart;
    if b == Month {
      MonthStartMonotone(i, j);
    }
  }

  lemma {:induction false} IndexMonotone(b: TrendBucket, t: int, u: int)
    requires t <= u
    ensures Index(b, t) <= Index(b, u)
  {
    hide Start, Index;
    TruncateIsStart(b, t);
    TruncateIsStart(b, u);
    if Index(b, u) < Index(b, t) {
      if Index(b, u) + 1 < Index(b, t) {
        StartMonotone(b, Index(b, u) + 1, Index(b, t));
      }
    }
  }

  lemma {:induction false} StartOrder(b: TrendBucket, i: int, j: int)
    ensures Start(b, i) < Start(b, j) <==> i < j
    ensures Start(b, i) == Start(b, j) <==> i == j
  {
    hide Start;
    if i < j {
      StartMonotone(b, i, j);
    } else if j < i {
      StartMonotone(b, j, i);
    }
  }
}
