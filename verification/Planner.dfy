/** Time ranges of an aggregation (internal/query/plan.go): the request widened to whole buckets. And
    what a continuous aggregate holds (migrations/0003_continuous_aggregates.up.sql), per minute or per
    hour. Times and durations are nanoseconds. */
module Planner {

  /** bucketOrigin: Monday 2000-01-03 UTC. */
  const ORIGIN: int := 946857600_000000000

  const MINUTE: int := 60_000000000
  const HOUR: int := 60 * MINUTE

  /** time_bucket: the last boundary at or before t. */
  function Bucket(t: int, d: int): int
    requires d > 0
  {
    t - (t - ORIGIN) % d
  }

  /** Duration.Truncate: toward zero. */
  function Truncate(x: int, d: int): int
    requires d > 0
  {
    if x >= 0 then x - x % d else -(-x - -x % d)
  }

  function Snap(t: int, d: int): int
    requires d > 0
  {
    ORIGIN + Truncate(t - ORIGIN, d)
  }

  predicate Aligned(t: int, d: int)
    requires d > 0
  {
    (t - ORIGIN) % d == 0
  }

  /** Compile's widening. */
  function Widen(start: int, end: int, d: int): (int, int)
    requires d > 0
  {
    (Snap(start, d), if Snap(end, d) != end then Snap(end, d) + d else end)
  }

  lemma Quotient(x: int, d: int)
    requires d > 0
    ensures x == d * (x / d) + x % d && 0 <= x % d < d
  {
  }

  lemma MultipleMod(q: int, d: int)
    requires d > 0
    ensures (d * q) % d == 0
  {
    var r := (d * q) % d;
    Quotient(d * q, d);
    var k := q - d * q / d;
    assert r == d * k by { Distribute(d, q, d * q / d); }
    if k >= 1 { Grows(d, k, 1); }
    if k <= -1 { Grows(d, -1, k); }
  }

  lemma Distribute(d: int, a: int, b: int)
    ensures d * a - d * b == d * (a - b)
  {
  }

  lemma Grows(d: int, a: int, b: int)
    requires d > 0 && a >= b
    ensures d * a >= d * b
  {
  }

  /** Boundaries are whole buckets apart. */
  lemma AlignedGap(a: int, b: int, d: int)
    requires d > 0 && Aligned(a, d) && Aligned(b, d) && a < b
    ensures b - a >= d
  {
    var p, q := (a - ORIGIN) / d, (b - ORIGIN) / d;
    Quotient(a - ORIGIN, d);
    Quotient(b - ORIGIN, d);
    assert d * p < d * q;
    if q <= p { Grows(d, p, q); }
    Distribute(d, q, p);
    Grows(d, q - p, 1);
  }

  lemma AlignedShift(t: int, d: int, k: int)
    requires d > 0 && Aligned(t, d)
    ensures Aligned(t + d * k, d)
  {
    var q := (t - ORIGIN) / d;
    Quotient(t - ORIGIN, d);
    Distribute(d, q, -k);
    MultipleMod(q + k, d);
    assert t + d * k - ORIGIN == d * (q + k);
  }

  lemma BucketIsFloor(t: int, d: int)
    requires d > 0
    ensures Aligned(Bucket(t, d), d) && Bucket(t, d) <= t < Bucket(t, d) + d
  {
    Quotient(t - ORIGIN, d);
    MultipleMod((t - ORIGIN) / d, d);
    assert Bucket(t, d) - ORIGIN == d * ((t - ORIGIN) / d);
  }

  lemma BucketUnique(t: int, b: int, d: int)
    requires d > 0 && Aligned(b, d) && b <= t < b + d
    ensures Bucket(t, d) == b
  {
    BucketIsFloor(t, d);
    if Bucket(t, d) < b { AlignedGap(Bucket(t, d), b, d); }
    if b < Bucket(t, d) { AlignedGap(b, Bucket(t, d), d); }
  }

  /** Snapping always lands on a boundary: the one at or before t from the origin on, the one at or
      after it before. */
  lemma SnapIsBoundary(t: int, d: int)
    requires d > 0
    ensures Aligned(Snap(t, d), d)
    ensures Snap(t, d) == if t >= ORIGIN || Aligned(t, d) then Bucket(t, d) else Bucket(t, d) + d
  {
    BucketIsFloor(t, d);
    if t >= ORIGIN {
      assert Snap(t, d) == Bucket(t, d);
    } else {
      var y := ORIGIN - t;
      Quotient(y, d);
      Quotient(t - ORIGIN, d);
      MultipleMod(y / d, d);
      var s := Snap(t, d);
      assert s == ORIGIN - d * (y / d);
      Distribute(d, 0, y / d);
      MultipleMod(-(y / d), d);
      assert s - ORIGIN == d * -(y / d);
      if Aligned(t, d) {
        BucketUnique(t, t, d);
        assert t <= s < t + d;
        if t < s { AlignedGap(t, s, d); }
      } else {
        assert t < s <= t + d;
        AlignedShift(Bucket(t, d), d, 1);
        assert Bucket(t, d) + d * 1 == Bucket(t, d) + d;
        if s < Bucket(t, d) + d { AlignedGap(s, Bucket(t, d) + d, d); }
        if s > Bucket(t, d) + d { AlignedGap(Bucket(t, d) + d, s, d); }
      }
    }
  }

  /** The exact condition: snapping rounds down if and only if the time is at or after the origin, or
      on a boundary. */
  lemma SnapRoundsDownIff(t: int, d: int)
    requires d > 0
    ensures Snap(t, d) == Bucket(t, d) <==> t >= ORIGIN || Aligned(t, d)
  {
    SnapIsBoundary(t, d);
  }

  /** The least range of whole buckets that holds the request. */
  ghost predicate LeastCover(start: int, end: int, s: int, e: int, d: int)
    requires d > 0
  {
    && Aligned(s, d) && Aligned(e, d) && s <= start && end <= e
    && (forall x :: Aligned(x, d) && x <= start ==> x <= s)
    && (forall x :: Aligned(x, d) && end <= x ==> e <= x)
  }

  predicate Rounds(t: int, d: int)
    requires d > 0
  {
    t >= ORIGIN || Aligned(t, d)
  }

  /** The exact condition for the widening: both ends at or after the origin, or on boundaries. */
  lemma WidenIff(start: int, end: int, d: int)
    requires d > 0
    ensures var w := Widen(start, end, d);
            LeastCover(start, end, w.0, w.1, d) <==> Rounds(start, d) && Rounds(end, d)
  {
    var w := Widen(start, end, d);
    SnapIsBoundary(start, d);
    SnapIsBoundary(end, d);
    BucketIsFloor(start, d);
    BucketIsFloor(end, d);
    AlignedShift(Bucket(end, d), d, 1);
    AlignedShift(Snap(end, d), d, 1);
    if Aligned(end, d) {
      BucketUnique(end, end, d);
    }
    if Rounds(start, d) && Rounds(end, d) {
      forall x | Aligned(x, d) && x <= start
        ensures x <= w.0
      {
        if x > w.0 { AlignedGap(w.0, x, d); }
      }
      forall x | Aligned(x, d) && end <= x
        ensures w.1 <= x
      {
        if x < w.1 { AlignedGap(x, w.1, d); }
      }
    } else if !Rounds(end, d) && w.1 > Bucket(end, d) + d {
      assert Aligned(Bucket(end, d) + d, d) && end <= Bucket(end, d) + d;
    }
  }

  /** A row of logs: the octets of its message, and its fields. */
  datatype Row = Row(time: int, stream: int, level: int, octets: nat, fields: map<string, string>)

  /** A row of a continuous aggregate. */
  datatype Cell = Cell(bucket: int, stream: int, level: int, n: nat)

  type Filter = (int, int, int) -> bool

  function Put(cells: seq<Cell>, b: int, stream: int, level: int, n: nat): seq<Cell> {
    if cells == [] then [Cell(b, stream, level, n)]
    else if cells[0] == Cell(b, stream, level, cells[0].n) then [cells[0].(n := cells[0].n + n)] + cells[1..]
    else [cells[0]] + Put(cells[1..], b, stream, level, n)
  }

  /** logs_rate_1m, of any width: GROUP BY bucket, stream, level, and count. */
  function View(rows: seq<Row>, w: int): seq<Cell>
    requires w > 0
  {
    if rows == [] then [] else Put(View(rows[1..], w), Bucket(rows[0].time, w), rows[0].stream, rows[0].level, 1)
  }

  /** logs_rate_1h: the aggregate of an aggregate. */
  function Rollup(cells: seq<Cell>, w: int): seq<Cell>
    requires w > 0
  {
    if cells == [] then [] else Put(Rollup(cells[1..], w), Bucket(cells[0].bucket, w), cells[0].stream, cells[0].level, cells[0].n)
  }

  /** sum(n) WHERE. */
  function SumOf(cells: seq<Cell>, keep: Filter): nat {
    if cells == [] then 0
    else (if keep(cells[0].bucket, cells[0].stream, cells[0].level) then cells[0].n else 0) + SumOf(cells[1..], keep)
  }

  /** count(*) WHERE. */
  function CountOf(rows: seq<Row>, keep: Filter): nat {
    if rows == [] then 0
    else (if keep(rows[0].time, rows[0].stream, rows[0].level) then 1 else 0) + CountOf(rows[1..], keep)
  }

  lemma {:induction false} PutSums(cells: seq<Cell>, b: int, stream: int, level: int, n: nat, keep: Filter)
    ensures SumOf(Put(cells, b, stream, level, n), keep) == SumOf(cells, keep) + if keep(b, stream, level) then n else 0
  {
    if cells == [] {
      assert [Cell(b, stream, level, n)][1..] == [];
    } else if cells[0] == Cell(b, stream, level, cells[0].n) {
      assert ([cells[0].(n := cells[0].n + n)] + cells[1..])[1..] == cells[1..];
    } else {
      PutSums(cells[1..], b, stream, level, n, keep);
      assert ([cells[0]] + Put(cells[1..], b, stream, level, n))[1..] == Put(cells[1..], b, stream, level, n);
    }
  }

  /** A filter on buckets, asked of times. */
  function OnBuckets(keep: Filter, w: int): Filter
    requires w > 0
  {
    (t, stream, level) => keep(Bucket(t, w), stream, level)
  }

  lemma {:induction false} ViewCounts(rows: seq<Row>, w: int, keep: Filter)
    requires w > 0
    ensures SumOf(View(rows, w), keep) == CountOf(rows, OnBuckets(keep, w))
  {
    if rows != [] {
      ViewCounts(rows[1..], w, keep);
      PutSums(View(rows[1..], w), Bucket(rows[0].time, w), rows[0].stream, rows[0].level, 1, keep);
    }
  }

  lemma {:induction false} RollupSums(cells: seq<Cell>, w: int, keep: Filter)
    requires w > 0
    ensures SumOf(Rollup(cells, w), keep) == SumOf(cells, OnBuckets(keep, w))
  {
    if cells != [] {
      RollupSums(cells[1..], w, keep);
      PutSums(Rollup(cells[1..], w), Bucket(cells[0].bucket, w), cells[0].stream, cells[0].level, cells[0].n, keep);
    }
  }

  lemma {:induction false} SameCount(rows: seq<Row>, a: Filter, b: Filter)
    requires forall t, stream, level :: a(t, stream, level) == b(t, stream, level)
    ensures CountOf(rows, a) == CountOf(rows, b)
  {
    if rows != [] {
      SameCount(rows[1..], a, b);
    }
  }

  lemma {:induction false} SameSum(cells: seq<Cell>, a: Filter, b: Filter)
    requires forall t, stream, level :: a(t, stream, level) == b(t, stream, level)
    ensures SumOf(cells, a) == SumOf(cells, b)
  {
    if cells != [] {
      SameSum(cells[1..], a, b);
    }
  }

  /** The rows of one output bucket and group, within the range. */
  function Wanted(s: int, e: int, d: int, b: int, group: (int, int) -> bool): Filter
    requires d > 0
  {
    (t, stream, level) => s <= t < e && Bucket(t, d) == b && group(stream, level)
  }

  lemma CoarserAligned(t: int, w: int, d: int)
    requires w > 0 && d > 0 && d % w == 0 && Aligned(t, d)
    ensures Aligned(t, w)
  {
    var q, k := (t - ORIGIN) / d, d / w;
    Quotient(t - ORIGIN, d);
    Quotient(d, w);
    assert t - ORIGIN == (w * k) * q;
    Associate(w, k, q);
    MultipleMod(k * q, w);
  }

  lemma Associate(a: int, b: int, c: int)
    ensures (a * b) * c == a * (b * c)
  {
  }

  /** A boundary of the coarse width separates the same times before and after bucketing finely. */
  lemma BoundaryAgrees(t: int, x: int, w: int)
    requires w > 0 && Aligned(x, w)
    ensures x <= t <==> x <= Bucket(t, w)
  {
    BucketIsFloor(t, w);
    if x <= t && x > Bucket(t, w) { AlignedGap(Bucket(t, w), x, w); }
  }

  lemma NestedBucket(t: int, w: int, d: int)
    requires w > 0 && d > 0 && d % w == 0
    ensures Bucket(Bucket(t, w), d) == Bucket(t, d)
  {
    BucketIsFloor(t, d);
    BucketIsFloor(t, w);
    CoarserAligned(Bucket(t, d), w, d);
    BoundaryAgrees(t, Bucket(t, d), w);
    BucketUnique(Bucket(t, w), Bucket(t, d), d);
  }

  lemma WantedAgrees(s: int, e: int, d: int, b: int, group: (int, int) -> bool, w: int, t: int, stream: int, level: int)
    requires w > 0 && d > 0 && d % w == 0 && Aligned(s, d) && Aligned(e, d)
    ensures Wanted(s, e, d, b, group)(Bucket(t, w), stream, level) == Wanted(s, e, d, b, group)(t, stream, level)
  {
    CoarserAligned(s, w, d);
    CoarserAligned(e, w, d);
    BoundaryAgrees(t, s, w);
    BoundaryAgrees(t, e, w);
    NestedBucket(t, w, d);
  }

  lemma ViewAnswers(rows: seq<Row>, s: int, e: int, d: int, b: int, group: (int, int) -> bool, w: int)
    requires w > 0 && d > 0 && d % w == 0 && Aligned(s, d) && Aligned(e, d)
    ensures SumOf(View(rows, w), Wanted(s, e, d, b, group)) == CountOf(rows, Wanted(s, e, d, b, group))
  {
    var keep := Wanted(s, e, d, b, group);
    ViewCounts(rows, w, keep);
    forall t, stream, level
      ensures OnBuckets(keep, w)(t, stream, level) == keep(t, stream, level)
    {
      WantedAgrees(s, e, d, b, group, w, t, stream, level);
    }
    SameCount(rows, OnBuckets(keep, w), keep);
  }

  lemma HourIsMinutes(d: int)
    requires d > 0 && d % HOUR == 0
    ensures d % MINUTE == 0
  {
    Quotient(d, HOUR);
    Associate(MINUTE, 60, d / HOUR);
    MultipleMod(60 * (d / HOUR), MINUTE);
  }

  lemma RollupAnswers(rows: seq<Row>, s: int, e: int, d: int, b: int, group: (int, int) -> bool)
    requires d > 0 && d % HOUR == 0 && Aligned(s, d) && Aligned(e, d)
    ensures SumOf(Rollup(View(rows, MINUTE), HOUR), Wanted(s, e, d, b, group)) == CountOf(rows, Wanted(s, e, d, b, group))
  {
    var keep := Wanted(s, e, d, b, group);
    RollupSums(View(rows, MINUTE), HOUR, keep);
    forall t, stream, level
      ensures OnBuckets(keep, HOUR)(t, stream, level) == keep(t, stream, level)
    {
      WantedAgrees(s, e, d, b, group, HOUR, t, stream, level);
    }
    SameSum(View(rows, MINUTE), OnBuckets(keep, HOUR), keep);
    HourIsMinutes(d);
    ViewAnswers(rows, s, e, d, b, group, MINUTE);
  }

  lemma WidenIsAligned(start: int, end: int, d: int)
    requires d > 0
    ensures var w := Widen(start, end, d); Aligned(w.0, d) && Aligned(w.1, d)
  {
    SnapIsBoundary(start, d);
    SnapIsBoundary(end, d);
    AlignedShift(Snap(end, d), d, 1);
    assert Snap(end, d) + d * 1 == Snap(end, d) + d;
  }

  ghost predicate Holds(cells: seq<Cell>, keep: Filter) {
    exists i :: 0 <= i < |cells| && keep(cells[i].bucket, cells[i].stream, cells[i].level)
  }

  ghost predicate Positive(cells: seq<Cell>) {
    forall i :: 0 <= i < |cells| ==> cells[i].n > 0
  }

  lemma {:induction false} PutPositive(cells: seq<Cell>, b: int, stream: int, level: int, n: nat)
    requires Positive(cells) && n > 0
    ensures Positive(Put(cells, b, stream, level, n))
  {
    if cells != [] {
      PutPositive(cells[1..], b, stream, level, n);
    }
  }

  lemma {:induction false} ViewPositive(rows: seq<Row>, w: int)
    requires w > 0
    ensures Positive(View(rows, w))
  {
    if rows != [] {
      ViewPositive(rows[1..], w);
      PutPositive(View(rows[1..], w), Bucket(rows[0].time, w), rows[0].stream, rows[0].level, 1);
    }
  }

  lemma {:induction false} RollupPositive(cells: seq<Cell>, w: int)
    requires w > 0 && Positive(cells)
    ensures Positive(Rollup(cells, w))
  {
    if cells != [] {
      RollupPositive(cells[1..], w);
      PutPositive(Rollup(cells[1..], w), Bucket(cells[0].bucket, w), cells[0].stream, cells[0].level, cells[0].n);
    }
  }

  lemma {:induction false} HoldsCells(cells: seq<Cell>, keep: Filter)
    requires Positive(cells)
    ensures Holds(cells, keep) <==> SumOf(cells, keep) > 0
  {
    if cells != [] {
      HoldsCells(cells[1..], keep);
      if Holds(cells[1..], keep) {
        var i :| 0 <= i < |cells[1..]| && keep(cells[1..][i].bucket, cells[1..][i].stream, cells[1..][i].level);
        assert cells[i + 1] == cells[1..][i];
      }
      if Holds(cells, keep) {
        var i :| 0 <= i < |cells| && keep(cells[i].bucket, cells[i].stream, cells[i].level);
        assert i > 0 ==> cells[1..][i - 1] == cells[i];
      }
    }
  }

  /** A request from a second before the origin, in buckets of a minute: the row at its start is outside
      the widened range. */
  lemma EarlyRequestMissesARow(r: Row, group: (int, int) -> bool, b: int)
    requires r.time == ORIGIN - 1_000000000
    ensures var w := Widen(r.time, ORIGIN + 1_000000000, MINUTE);
            w.0 == ORIGIN && CountOf([r], Wanted(w.0, w.1, MINUTE, b, group)) == 0
  {
    var w := Widen(r.time, ORIGIN + 1_000000000, MINUTE);
    SnapIsBoundary(r.time, MINUTE);
    assert w.0 == ORIGIN;
    assert [r][1..] == [];
    assert !Wanted(w.0, w.1, MINUTE, b, group)(r.time, r.stream, r.level);
  }
}
