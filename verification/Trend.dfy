/**
 The issuance trend: a database group-by, a calendar-aligned list of buckets, and a zero fill
 through a hash map, against a plain count per bucket.
 */
module Trend {
  import opened Domain
  import opened Calendar

  datatype TrendPoint = TrendPoint(bucketStart: int, count: nat)

  // ---- Presets ----

  datatype Preset = D30 | D90 | D365 | W12 | W52 | M12 | M24 | Unknown(text: string)

  function PresetDays(b: TrendBucket, preset: Preset): Option<nat> {
    match (b, preset)
    case (Day, D30) => Some(30)
    case (Day, D90) => Some(90)
    case (Day, D365) => Some(365)
    case (Week, W12) => Some(12 * 7)
    case (Week, W52) => Some(52 * 7)
    case (Month, M12) => Some(12 * 31)
    case (Month, M24) => Some(24 * 31)
    case _ => None
  }

  function RangePresetToSince(b: TrendBucket, preset: Preset, now: int): Option<int> {
    var days := PresetDays(b, preset);
    if days.None? then None
    else
      var n: int := days.value;
      Some(AddDays(now, -n))
  }

  // ---- The aligned list of buckets ----

  /** The starts of buckets from, ..., to. */
  function Grid(b: TrendBucket, from: int, to: int): seq<int> {
    seq(Max(0, to - from + 1), i => Start(b, from + i))
  }

  function BucketsBetween(b: TrendBucket, since: int, now: int): seq<int> {
    Grid(b, Index(b, since), Index(b, now))
  }

  method AlignedBuckets(b: TrendBucket, since: int, now: int) returns (out: seq<int>)
    ensures out == BucketsBetween(b, since, now)
  {
    hide Start, Index, TruncateToBucket, AdvanceBucket;
    var cur := TruncateToBucket(b, since);
    var end := TruncateToBucket(b, now);
    ghost var from, to := Index(b, since), Index(b, now);
    TruncateIsStart(b, since);
    TruncateIsStart(b, now);
    out := [];
    ghost var n := 0;
    while cur <= end
      invariant n == |out| && cur == Start(b, from + n) && end == Start(b, to)
      invariant n <= Max(0, to - from + 1)
      invariant forall i :: 0 <= i < n ==> out[i] == Start(b, from + i)
      decreases end - cur
    {
      StartOrder(b, to, from + n);
      out := out + [cur];
      AdvanceIsNext(b, from + n);
      StartOrder(b, from + n, from + n + 1);
      cur := AdvanceBucket(b, cur);
      n := n + 1;
    }
    StartOrder(b, to, from + n);
  }

  /**
   The list is strictly increasing and holds exactly the aligned times between the truncated ends,
   so no bucket is skipped or repeated, in any year.
   */
  lemma {:induction false} BucketsAreTheAlignedTimes(b: TrendBucket, since: int, now: int)
    ensures var out := BucketsBetween(b, since, now);
            && (forall i, j :: 0 <= i < j < |out| ==> out[i] < out[j])
            && (forall t :: t in out <==> Aligned(b, t) && TruncateToBucket(b, since) <= t <= TruncateToBucket(b, now))
  {
    hide Start, Index, TruncateToBucket;
    var from, to := Index(b, since), Index(b, now);
    var out := BucketsBetween(b, since, now);
    TruncateIsStart(b, since);
    TruncateIsStart(b, now);
    forall i, j | 0 <= i < j < |out|
      ensures out[i] < out[j]
    {
      StartOrder(b, from + i, from + j);
    }
    forall t
      ensures t in out <==> Aligned(b, t) && TruncateToBucket(b, since) <= t <= TruncateToBucket(b, now)
    {
      TruncateIsStart(b, t);
      StartOrder(b, from, Index(b, t));
      StartOrder(b, Index(b, t), to);
      if Aligned(b, t) && from <= Index(b, t) <= to {
        assert out[Index(b, t) - from] == t;
      } else if t in out {
        var i :| 0 <= i < |out| && out[i] == t;
        IndexOfStart(b, from + i);
      }
    }
  }

  // ---- The database side ----

  /** A timestamptz has microsecond precision; the driver rounds the argument down. */
  function PgTime(t: int): int {
    t - t % 1000
  }

  /** date_trunc in UTC: the start of the calendar bucket that holds t. */
  function DateTrunc(b: TrendBucket, t: int): int {
    Start(b, Index(b, t))
  }

  /** The number of certificates issued at since or later whose bucket starts at start. */
  function CountIn(b: TrendBucket, column: seq<int>, since: int, start: int): nat {
    if column == [] then 0
    else
      var t := column[|column| - 1];
      CountIn(b, column[..|column| - 1], since, start) + if t >= since && DateTrunc(b, t) == start then 1 else 0
  }

  function CountFrom(column: seq<int>, since: int): nat {
    if column == [] then 0
    else CountFrom(column[..|column| - 1], since) + if column[|column| - 1] >= since then 1 else 0
  }

  predicate Increasing(rows: seq<TrendPoint>) {
    forall i, j :: 0 <= i < j < |rows| ==> rows[i].bucketStart < rows[j].bucketStart
  }

  /** The count that rows give for a bucket; a bucket that is not listed counts 0. */
  function CountAt(rows: seq<TrendPoint>, start: int): nat {
    if rows == [] then 0
    else if rows[|rows| - 1].bucketStart == start then rows[|rows| - 1].count
    else CountAt(rows[..|rows| - 1], start)
  }

  /** A row behind all others decides for its own bucket and for no other. */
  lemma {:induction false} AppendRow(rows: seq<TrendPoint>, last: TrendPoint)
    requires Increasing(rows) && forall p :: p in rows ==> p.bucketStart < last.bucketStart
    ensures Increasing(rows + [last]) && CountAt(rows, last.bucketStart) == 0
    ensures forall s :: CountAt(rows + [last], s) == if s == last.bucketStart then last.count else CountAt(rows, s)
  {
    var n := |rows|;
    assert (rows + [last])[..n] == rows;
    forall i | 0 <= i < n ensures rows[i].bucketStart < last.bucketStart {
      assert rows[i] in rows;
    }
    CountAbove(rows, last.bucketStart);
  }

  lemma {:induction false} CountAbove(rows: seq<TrendPoint>, start: int)
    requires forall p :: p in rows ==> p.bucketStart < start
    ensures CountAt(rows, start) == 0
  {
    if rows != [] {
      assert rows[|rows| - 1] in rows;
      CountAbove(rows[..|rows| - 1], start);
    }
  }

  lemma {:induction false} CountNone()
    ensures forall s :: CountAt([], s) == 0
  {
  }

  /** Counts one more certificate, keeping the rows ordered. */
  function CountOne(rows: seq<TrendPoint>, start: int): (rows': seq<TrendPoint>)
    requires Increasing(rows)
    ensures Increasing(rows')
    ensures forall s :: CountAt(rows', s) == CountAt(rows, s) + if s == start then 1 else 0
    ensures forall p :: p in rows' ==> (p.bucketStart == start && p.count > 0) || p in rows
  {
    hide CountAt, Increasing;
    CountNone();
    if rows == [] then AppendRow([], TrendPoint(start, 1)); [] + [TrendPoint(start, 1)]
    else
      var init, last := rows[..|rows| - 1], rows[|rows| - 1];
      LastRow(rows);
      AppendRow(init, last);
      if last.bucketStart < start then AppendRow(rows, TrendPoint(start, 1)); rows + [TrendPoint(start, 1)]
      else if last.bucketStart == start then
        AppendRow(init, TrendPoint(start, last.count + 1)); init + [TrendPoint(start, last.count + 1)]
      else
        var before := CountOne(init, start);
        AppendRow(before, last);
        before + [last]
  }

  lemma {:induction false} LastRow(rows: seq<TrendPoint>)
    requires rows != [] && Increasing(rows)
    ensures var init, last := rows[..|rows| - 1], rows[|rows| - 1];
            && rows == init + [last] && Increasing(init)
            && (forall p :: p in rows ==> p in init || p == last)
            && (forall p :: p in init ==> p in rows && p.bucketStart < last.bucketStart)
  {
  }

  /** SELECT date_trunc(...), count(*) WHERE issued_at >= since GROUP BY 1 ORDER BY 1. */
  function TrendQuery(b: TrendBucket, column: seq<int>, since: int): (rows: seq<TrendPoint>)
    ensures Increasing(rows)
    ensures forall p :: p in rows ==> p.count > 0
    ensures forall s :: CountAt(rows, s) == CountIn(b, column, since, s)
  {
    hide DateTrunc, CountAt;
    if column == [] then CountNone(); []
    else
      var rows := TrendQuery(b, column[..|column| - 1], since);
      var t := column[|column| - 1];
      if t >= since then CountOne(rows, DateTrunc(b, t)) else rows
  }

  // ---- Zero fill ----

  function Unix(t: int): int {
    t / SECOND
  }

  /** The zero-filled trend: every expected bucket with the count its rows give. */
  function ZeroFilled(expected: seq<int>, rows: seq<TrendPoint>): seq<TrendPoint> {
    seq(|expected|, i requires 0 <= i < |expected| => TrendPoint(expected[i], CountAt(rows, expected[i])))
  }

  predicate WholeSeconds(times: seq<int>) {
    forall t :: t in times ==> t % SECOND == 0
  }

  predicate WholeSecondRows(rows: seq<TrendPoint>) {
    forall p :: p in rows ==> p.bucketStart % SECOND == 0
  }

  /** The rows as the hash map keys them. */
  function BySecond(rows: seq<TrendPoint>): seq<TrendPoint> {
    seq(|rows|, i requires 0 <= i < |rows| => TrendPoint(Unix(rows[i].bucketStart), rows[i].count))
  }

  function FilledBySecond(expected: seq<int>, rows: seq<TrendPoint>): seq<TrendPoint> {
    seq(|expected|, i requires 0 <= i < |expected| =>
      TrendPoint(expected[i], CountAt(BySecond(rows), Unix(expected[i]))))
  }

  /** The map is keyed by Unix seconds; of rows in the same second the last one wins. */
  method ZeroFillTrend(expected: seq<int>, rows: seq<TrendPoint>) returns (out: seq<TrendPoint>)
    ensures out == FilledBySecond(expected, rows)
  {
    hide Unix;
    var byBucket: map<int, nat> := map[];
    var i := 0;
    assert BySecond(rows[..0]) == [];
    while i < |rows|
      invariant 0 <= i <= |rows|
      invariant forall u :: Lookup(byBucket, u) == CountAt(BySecond(rows[..i]), u)
    {
      var r := rows[i];
      var keyed := BySecond(rows[..i + 1]);
      assert keyed[..i] == BySecond(rows[..i]);
      byBucket := byBucket[Unix(r.bucketStart) := r.count];
      i := i + 1;
    }
    assert rows[..i] == rows;
    out := [];
    i := 0;
    while i < |expected|
      invariant 0 <= i <= |expected|
      invariant out == FilledBySecond(expected[..i], rows)
    {
      out := out + [TrendPoint(expected[i], Lookup(byBucket, Unix(expected[i])))];
      i := i + 1;
    }
    assert expected[..i] == expected;
  }

  /** Whole-second starts are told apart by their seconds, so the map gives each bucket its own count. */
  lemma {:induction false} SecondsSuffice(expected: seq<int>, rows: seq<TrendPoint>)
    requires WholeSeconds(expected) && WholeSecondRows(rows)
    ensures FilledBySecond(expected, rows) == ZeroFilled(expected, rows)
  {
    forall i | 0 <= i < |expected|
      ensures CountAt(BySecond(rows), Unix(expected[i])) == CountAt(rows, expected[i])
    {
      assert expected[i] in expected;
      SecondSuffices(rows, expected[i]);
    }
  }

  lemma {:induction false} SecondSuffices(rows: seq<TrendPoint>, start: int)
    requires WholeSecondRows(rows) && start % SECOND == 0
    ensures CountAt(BySecond(rows), Unix(start)) == CountAt(rows, start)
  {
    if rows != [] {
      var n := |rows| - 1;
      assert rows[n] in rows;
      assert BySecond(rows)[..n] == BySecond(rows[..n]);
      SecondSuffices(rows[..n], start);
    }
  }

  /** Reading a missing key of a Go map gives zero. */
  function Lookup(m: map<int, nat>, key: int): nat {
    if key in m then m[key] else 0
  }

  lemma {:induction false} StartIsWholeSecond(b: TrendBucket, i: int)
    ensures Start(b, i) % SECOND == 0
  {
    var d := match b case Week => 7 * i - 3 case Month => MonthStart(i) case _ => i;
    hide MonthStart;
    assert Start(b, i) == d * DAY == (d * 86400) * SECOND;
    assert ((d * 86400) * SECOND) % SECOND == 0;
  }

  // ---- TrendService.compute ----

  function Computed(b: TrendBucket, column: seq<int>, since: int, now: int): seq<TrendPoint> {
    ZeroFilled(BucketsBetween(b, since, now), TrendQuery(b, column, PgTime(since)))
  }

  /** The group-by rejects an unknown bucket. */
  method Compute(b: TrendBucket, column: seq<int>, since: int, now: int) returns (points: Option<seq<TrendPoint>>)
    ensures points == if b.Other? then None else Some(Computed(b, column, since, now))
  {
    if b.Other? {
      return None;
    }
    var rows := TrendQuery(b, column, PgTime(since));
    var expected := AlignedBuckets(b, since, now);
    BucketsAreWholeSeconds(b, Index(b, since), Index(b, now));
    RowsAreBuckets(b, column, PgTime(since));
    SecondsSuffice(expected, rows);
    var out := ZeroFillTrend(expected, rows);
    return Some(out);
  }

  lemma {:induction false} BucketsAreWholeSeconds(b: TrendBucket, from: int, to: int)
    ensures WholeSeconds(Grid(b, from, to))
  {
    forall t | t in Grid(b, from, to)
      ensures t % SECOND == 0
    {
      var i :| 0 <= i < |Grid(b, from, to)| && Grid(b, from, to)[i] == t;
      StartIsWholeSecond(b, from + i);
    }
  }

  lemma {:induction false} RowsAreBuckets(b: TrendBucket, column: seq<int>, since: int)
    ensures WholeSecondRows(TrendQuery(b, column, since))
  {
    if column != [] {
      hide Start, Index;
      RowsAreBuckets(b, column[..|column| - 1], since);
      StartIsWholeSecond(b, Index(b, column[|column| - 1]));
    }
  }

  /** The certificates issued at since or later that truncate to start. */
  function InBucket(b: TrendBucket, column: seq<int>, since: int, start: int): set<nat> {
    set j: nat | j < |column| && column[j] >= since && TruncateToBucket(b, column[j]) == start
  }

  function IssuedFrom(column: seq<int>, since: int): set<nat> {
    set j: nat | j < |column| && column[j] >= since
  }

  /** The database's running counts are the sizes of these sets. */
  lemma {:induction false} CountsAreSizes(b: TrendBucket, column: seq<int>, since: int, start: int)
    ensures CountIn(b, column, since, start) == |InBucket(b, column, since, start)|
    ensures CountFrom(column, since) == |IssuedFrom(column, since)|
  {
    if column == [] {
      assert InBucket(b, column, since, start) == {} && IssuedFrom(column, since) == {};
    } else {
      hide TruncateToBucket, Start, Index, InBucket, IssuedFrom;
      CountsAreSizes(b, column[..|column| - 1], since, start);
      TruncateIsStart(b, column[|column| - 1]);
      OneMoreCertificate(b, column, since, start);
    }
  }

  lemma {:induction false} OneMoreCertificate(b: TrendBucket, column: seq<int>, since: int, start: int)
    requires column != []
    ensures var n := |column| - 1;
            && |InBucket(b, column, since, start)| == |InBucket(b, column[..n], since, start)|
                 + (if column[n] >= since && TruncateToBucket(b, column[n]) == start then 1 else 0)
            && |IssuedFrom(column, since)| == |IssuedFrom(column[..n], since)| + (if column[n] >= since then 1 else 0)
  {
    var n := |column| - 1;
    hide TruncateToBucket;
    forall j: nat
      ensures j in InBucket(b, column, since, start) <==>
              || j in InBucket(b, column[..n], since, start)
              || (j == n && column[n] >= since && TruncateToBucket(b, column[n]) == start)
      ensures j in IssuedFrom(column, since) <==> j in IssuedFrom(column[..n], since) || (j == n && column[n] >= since)
    {
      assert j < n ==> column[..n][j] == column[j];
    }
    assert n !in InBucket(b, column[..n], since, start) && n !in IssuedFrom(column[..n], since);
    hide InBucket, IssuedFrom;
    SizeStep(InBucket(b, column[..n], since, start), InBucket(b, column, since, start), n);
    SizeStep(IssuedFrom(column[..n], since), IssuedFrom(column, since), n);
  }

  lemma {:induction false} SizeStep(s: set<nat>, s': set<nat>, n: nat)
    requires n !in s && forall j :: j in s' <==> j in s || (j == n && n in s')
    ensures |s'| == |s| + if n in s' then 1 else 0
  {
    assert s' == if n in s' then s + {n} else s;
  }

  /**
   Every point counts exactly the certificates that truncate to it and were issued at since, rounded down
   to a microsecond, or later, whatever the table holds.
   */
  lemma {:induction false} TrendCountsEachBucket(b: TrendBucket, column: seq<int>, since: int, now: int, i: nat)
    requires i < |Computed(b, column, since, now)|
    ensures var p := Computed(b, column, since, now)[i];
            && p.bucketStart == BucketsBetween(b, since, now)[i]
            && p.count == |InBucket(b, column, since - since % 1000, p.bucketStart)|
  {
    hide InBucket, CountIn, CountAt, Start, Index;
    CountsAreSizes(b, column, PgTime(since), BucketsBetween(b, since, now)[i]);
  }

  function Sum(points: seq<TrendPoint>): nat {
    if points == [] then 0 else Sum(points[..|points| - 1]) + points[|points| - 1].count
  }

  function SumIn(b: TrendBucket, column: seq<int>, since: int, from: int, n: nat): nat {
    if n == 0 then 0 else SumIn(b, column, since, from, n - 1) + CountIn(b, column, since, Start(b, from + n - 1))
  }

  lemma {:induction false} SumIsSumIn(b: TrendBucket, column: seq<int>, since: int, from: int, n: nat,
                                      points: seq<TrendPoint>)
    requires |points| == n
    requires forall i :: 0 <= i < n ==> points[i].count == CountIn(b, column, since, Start(b, from + i))
    ensures Sum(points) == SumIn(b, column, since, from, n)
  {
    hide Start, CountIn;
    if n > 0 {
      SumIsSumIn(b, column, since, from, n - 1, points[..n - 1]);
    }
  }

  /** Adding one certificate adds one to the count of its own bucket. */
  lemma {:induction false} CountInStep(b: TrendBucket, column: seq<int>, since: int, i: int)
    requires column != []
    ensures var t := column[|column| - 1];
            CountIn(b, column, since, Start(b, i))
            == CountIn(b, column[..|column| - 1], since, Start(b, i)) + if t >= since && Index(b, t) == i then 1 else 0
  {
    hide Start, Index;
    StartOrder(b, Index(b, column[|column| - 1]), i);
  }

  /** Adding one certificate adds one to the sum when its bucket is among those summed. */
  lemma {:induction false} SumInStep(b: TrendBucket, column: seq<int>, since: int, from: int, n: nat)
    requires column != []
    ensures var t := column[|column| - 1];
            SumIn(b, column, since, from, n)
            == SumIn(b, column[..|column| - 1], since, from, n)
               + if t >= since && from <= Index(b, t) < from + n then 1 else 0
  {
    hide CountIn, Start, Index;
    if n > 0 {
      SumInStep(b, column, since, from, n - 1);
      CountInStep(b, column, since, from + n - 1);
    }
  }

  lemma {:induction false} SumInEmpty(b: TrendBucket, since: int, from: int, n: nat)
    ensures SumIn(b, [], since, from, n) == 0
  {
    hide Start;
    if n > 0 {
      SumInEmpty(b, since, from, n - 1);
    }
  }

  /** A certificate issued since then whose bucket starts after now's is in no point. */
  predicate Ahead(b: TrendBucket, t: int, since: int, now: int) {
    t >= since && TruncateToBucket(b, t) > TruncateToBucket(b, now)
  }

  lemma {:induction false} AheadIff(b: TrendBucket, t: int, since: int, now: int)
    ensures Ahead(b, t, since, now) <==> t >= since && Index(b, t) > Index(b, now)
  {
    hide TruncateToBucket, Index, Start;
    TruncateIsStart(b, t);
    TruncateIsStart(b, now);
    StartOrder(b, Index(b, now), Index(b, t));
  }

  lemma {:induction false} SumIff(b: TrendBucket, column: seq<int>, since: int, now: int, n: nat)
    requires n == Max(0, Index(b, now) - Index(b, since) + 1)
    ensures SumIn(b, column, since, Index(b, since), n) <= CountFrom(column, since)
    ensures SumIn(b, column, since, Index(b, since), n) == CountFrom(column, since) <==>
            forall t :: t in column ==> !Ahead(b, t, since, now)
  {
    hide Index, Start, Ahead, CountIn;
    if column == [] {
      SumInEmpty(b, since, Index(b, since), n);
    } else {
      var m := |column| - 1;
      SumIff(b, column[..m], since, now, n);
      SumInStep(b, column, since, Index(b, since), n);
      AheadIff(b, column[m], since, now);
      if column[m] >= since {
        IndexMonotone(b, since, column[m]);
      }
      assert forall t :: t in column <==> t in column[..m] || t == column[m] by {
        assert column == column[..m] + [column[m]];
      }
      assert column[m] in column;
    }
  }

  lemma {:induction false} PgTimeSameBucket(b: TrendBucket, t: int)
    ensures Index(b, PgTime(t)) == Index(b, t)
  {
    assert DayOf(PgTime(t)) == DayOf(t) by {
      assert t == (t / DAY) * DAY + t % DAY;
      assert PgTime(t) == (t / DAY) * DAY + (t % DAY - (t % DAY) % 1000) by {
        assert DAY % 1000 == 0;
        assert t % 1000 == (t % DAY) % 1000;
      }
      DayOfMidnight(t / DAY, t % DAY - (t % DAY) % 1000);
    }
  }

  /**
   The points add up to all certificates issued since then exactly when none of them lies in a bucket after
   the current one, as a block time ahead of the server's clock may.
   */
  lemma {:induction false} TrendCountsEverythingIff(b: TrendBucket, column: seq<int>, since: int, now: int)
    ensures var sum, all := Sum(Computed(b, column, since, now)), |IssuedFrom(column, since - since % 1000)|;
            && sum <= all
            && (sum == all <==> forall t :: t in column ==> !Ahead(b, t, since - since % 1000, now))
            && ((forall t :: t in column ==> t <= now) ==> sum == all)
  {
    hide Index, Start, TruncateToBucket, IssuedFrom, Ahead;
    var points, from := Computed(b, column, since, now), Index(b, since);
    PgTimeSameBucket(b, since);
    CountsAreSizes(b, column, PgTime(since), 0);
    SumIsSumIn(b, column, PgTime(since), from, |points|, points);
    SumIff(b, column, PgTime(since), now, |points|);
    forall t | t <= now
      ensures !Ahead(b, t, PgTime(since), now)
    {
      IndexMonotone(b, t, now);
      AheadIff(b, t, PgTime(since), now);
    }
  }

  // ---- How many points each preset yields ----

  function PresetSize(b: TrendBucket, preset: Preset, now: int): Option<nat> {
    var since := RangePresetToSince(b, preset, now);
    if since.None? then None else Some(|BucketsBetween(b, since.value, now)|)
  }

  /** Each bucket has its own presets, and they reach back by whole days. */
  lemma {:induction false} PresetsInNumbers(b: TrendBucket, preset: Preset, now: int)
    ensures RangePresetToSince(b, preset, now).Some? <==>
            || (b == Day && (preset == D30 || preset == D90 || preset == D365))
            || (b == Week && (preset == W12 || preset == W52))
            || (b == Month && (preset == M12 || preset == M24))
    ensures var days := match preset case D30 => 30 case D90 => 90 case D365 => 365 case W12 => 84 case W52 => 364
                                     case M12 => 372 case M24 => 744 case _ => 0;
            RangePresetToSince(b, preset, now).Some? ==>
              RangePresetToSince(b, preset, now).value == now - days * 86_400_000_000_000
  {
  }

  lemma {:induction false} DayOfEarlier(now: int, n: int)
    ensures DayOf(AddDays(now, -n)) == DayOf(now) - n
  {
    assert now == DayOf(now) * DAY + now % DAY;
    DayOfMidnight(DayOf(now) - n, now % DAY);
    assert AddDays(now, -n) == (DayOf(now) - n) * DAY + now % DAY;
  }

  /** A preset of N days or weeks always yields N + 1 points, one more than its name says. */
  lemma {:induction false} DayAndWeekPresetSizes(now: int)
    ensures PresetSize(Day, D30, now) == Some(31) && PresetSize(Day, D90, now) == Some(91)
    ensures PresetSize(Day, D365, now) == Some(366)
    ensures PresetSize(Week, W12, now) == Some(13) && PresetSize(Week, W52, now) == Some(53)
  {
    DayOfEarlier(now, 30);
    DayOfEarlier(now, 90);
    DayOfEarlier(now, 365);
    DayOfEarlier(now, 84);
    DayOfEarlier(now, 364);
  }

  lemma {:induction false} YearOfMonths(k: int)
    ensures 365 <= MonthStart(k) - MonthStart(k - 12) <= 366
  {
    hide YearStart;
    assert (k - 12) / 12 == k / 12 - 1 && (k - 12) % 12 == k % 12;
    YearLength(k / 12 - 1);
  }

  /** The day of the month, the first being 0. */
  function DayOfMonth(now: int): int {
    DayOf(now) - MonthStart(MonthOf(DayOf(now)))
  }

  lemma {:induction false} MonthsBack(k: int, d: int, years: nat, days: int)
    requires MonthStart(k) <= d < MonthStart(k + 1)
    requires (years == 1 && days == 372) || (years == 2 && days == 744)
    ensures var year := MonthStart(k) - MonthStart(k - 12 * years);
            MonthOf(d - days) == if d - MonthStart(k) < days - year then k - 12 * years - 1 else k - 12 * years
  {
    hide MonthStart, MonthOf;
    YearOfMonths(k);
    YearOfMonths(k - 12);
    YearOfMonths(k + 1);
    YearOfMonths(k - 11);
    MonthLength(k);
    MonthLength(k - 12 * years - 1);
    if d - MonthStart(k) < days - (MonthStart(k) - MonthStart(k - 12 * years)) {
      MonthOfUnique(d - days, k - 12 * years - 1);
    } else {
      MonthOfUnique(d - days, k - 12 * years);
    }
  }

  /**
   12m yields 13 points, and 14 on the first days of a month: those fewer than 372 days after the
   first of the same month a year before. 24m yields 25, and 26 in the first two weeks, likewise.
   */
  lemma {:induction false} MonthPresetSizes(now: int)
    ensures var k := MonthOf(DayOf(now));
            var year, years := MonthStart(k) - MonthStart(k - 12), MonthStart(k) - MonthStart(k - 24);
            && 365 <= year <= 366 && 730 <= years <= 731
            && PresetSize(Month, M12, now) == Some(if DayOfMonth(now) < 372 - year then 14 else 13)
            && PresetSize(Month, M24, now) == Some(if DayOfMonth(now) < 744 - years then 26 else 25)
  {
    hide MonthStart, MonthOf;
    var d := DayOf(now);
    var k := MonthOf(d);
    YearOfMonths(k);
    YearOfMonths(k - 12);
    TwoYears(k);
    DayOfEarlier(now, 372);
    DayOfEarlier(now, 744);
    MonthsBack(k, d, 1, 372);
    MonthsBack(k, d, 2, 744);
  }

  lemma {:induction false} TwoYears(k: int)
    ensures MonthStart(k) - MonthStart(k - 24) <= 731
  {
    hide YearStart, Leap;
    var y := k / 12;
    assert (k - 24) / 12 == y - 2 && (k - 24) % 12 == k % 12;
    YearLength(y - 1);
    YearLength(y - 2);
    NotBothLeap(y - 1);
    NotBothLeap(y - 2);
  }
}
