/** Which relation answers an aggregation (internal/query/plan.go): the rows, or a continuous aggregate
    when it gives the same answer. The answer itself is defined from the rows alone; a statement is
    evaluated on whatever relation it names, and is refused when that lacks a column. */
module SourceChoice {
  import opened Prelude
  import opened Planner

  datatype Source = Logs | PerMinute | PerHour

  datatype Func = Rate | CountOverTime | BytesOverTime

  datatype Aggregation = Aggregation(func: Func, width: int, labels: seq<string>)

  /** A stage of the pipeline: a parser, which only says where later labels are read; or a filter, on the
      level, on a promoted label of the stream, or on what a record alone holds, its message and its
      fields. */
  datatype Stage = Parser | OnLevel(level: int -> bool) | OnColumn(name: string, column: string -> bool) | OnRecord(record: Row -> bool)

  datatype Query = Query(agg: Option<Aggregation>, stages: seq<Stage>)

  predicate Promoted(name: string) {
    name == "service" || name == "host" || name == "env"
  }

  /** What a query is asked of: the promoted labels of every stream, the streams and levels that the
      selector accepts, the rows, and the request. */
  datatype Question = Question(columns: (int, string) -> string, picks: (int, int) -> bool, rows: seq<Row>, start: int, end: int)

  /** A by label's value; a record without the field has none. */
  datatype Value = Level(n: int) | Text(s: string) | Null

  function ValueOf(x: Question, r: Row, name: string): Value {
    if name == "level" then Level(r.level)
    else if Promoted(name) then Text(x.columns(r.stream, name))
    else if name in r.fields then Text(r.fields[name])
    else Null
  }

  predicate StagePasses(x: Question, st: Stage, r: Row) {
    match st
    case Parser => true
    case OnLevel(level) => level(r.level)
    case OnColumn(name, column) => column(x.columns(r.stream, name))
    case OnRecord(record) => record(r)
  }

  ghost predicate Passes(x: Question, stages: seq<Stage>, r: Row) {
    forall i :: 0 <= i < |stages| ==> StagePasses(x, stages[i], r)
  }

  /** The row counts towards the point of bucket b and these by values. */
  ghost predicate Counts(a: Aggregation, stages: seq<Stage>, x: Question, b: int, key: seq<Value>, r: Row)
    requires a.width > 0
  {
    var w := Widen(x.start, x.end, a.width);
    && w.0 <= r.time < w.1 && Bucket(r.time, a.width) == b
    && x.picks(r.stream, r.level) && Passes(x, stages, r)
    && |key| == |a.labels| && (forall i :: 0 <= i < |key| ==> ValueOf(x, r, a.labels[i]) == key[i])
  }

  /** What the function measures of a row. */
  function Measure(func: Func, r: Row): nat {
    if func == BytesOverTime then r.octets else 1
  }

  ghost function Total(a: Aggregation, stages: seq<Stage>, x: Question, b: int, key: seq<Value>, rows: seq<Row>): nat
    requires a.width > 0
  {
    if rows == [] then 0
    else (if Counts(a, stages, x, b, key, rows[0]) then Measure(a.func, rows[0]) else 0) + Total(a, stages, x, b, key, rows[1..])
  }

  /** Nothing for a group without rows. */
  datatype Reply = Refused | Nothing | Point(value: real)

  /** The unit of a point: for a rate, so many a second that the width, in nanoseconds, has n. */
  function Scaled(func: Func, width: int, n: nat): (r: real)
    requires width > 0
    ensures if func == Rate then r * (width as real) == n as real * 1000000000.0 else r == n as real
  {
    if func == Rate then n as real / (width as real / 1000000000.0) else n as real
  }

  /** The answer, from the rows. */
  ghost function Answer(a: Aggregation, stages: seq<Stage>, x: Question, b: int, key: seq<Value>): Reply
    requires a.width > 0
  {
    if exists i :: 0 <= i < |x.rows| && Counts(a, stages, x, b, key, x.rows[i])
    then Point(Scaled(a.func, a.width, Total(a, stages, x, b, key, x.rows)))
    else Nothing
  }

  /** What aggregate selects from a relation. */
  datatype Column = CountStar | SumN | SumOctets

  function ColumnOf(func: Func, source: Source): Column {
    if func == BytesOverTime then SumOctets else if source == Logs then CountStar else SumN
  }

  predicate Groupable(labels: seq<string>) {
    forall i :: 0 <= i < |labels| ==> labels[i] == "level" || Promoted(labels[i])
  }

  predicate ReadsRecords(stages: seq<Stage>) {
    exists i :: 0 <= i < |stages| && stages[i].OnRecord?
  }

  /** A cell stands for rows of this stream and level; nothing else is known of them. */
  function Stand(stream: int, level: int): Row {
    Row(0, stream, level, 0, map[])
  }

  ghost function CellFilter(a: Aggregation, stages: seq<Stage>, x: Question, key: seq<Value>): (int, int) -> bool {
    (stream, level) =>
      && x.picks(stream, level) && Passes(x, stages, Stand(stream, level))
      && |key| == |a.labels| && (forall i :: 0 <= i < |key| ==> ValueOf(x, Stand(stream, level), a.labels[i]) == key[i])
  }

  function Cells(source: Source, rows: seq<Row>): seq<Cell> {
    if source == PerHour then Rollup(View(rows, MINUTE), HOUR) else View(rows, MINUTE)
  }

  /** The statement on an aggregate: refused if it names the message or the fields. */
  ghost function FromCells(source: Source, a: Aggregation, stages: seq<Stage>, x: Question, b: int, key: seq<Value>): Reply
    requires a.width > 0
  {
    var w := Widen(x.start, x.end, a.width);
    var keep := Wanted(w.0, w.1, a.width, b, CellFilter(a, stages, x, key));
    if ColumnOf(a.func, source) != SumN || ReadsRecords(stages) || !Groupable(a.labels) then Refused
    else if !Holds(Cells(source, x.rows), keep) then Nothing
    else Point(Scaled(a.func, a.width, SumOf(Cells(source, x.rows), keep)))
  }

  /** The statement on the rows: count(*), or the sum of the octets. */
  ghost function FromRows(a: Aggregation, stages: seq<Stage>, x: Question, b: int, key: seq<Value>): Reply
    requires a.width > 0
  {
    var picked := Picked(a, stages, x, b, key, x.rows);
    if picked == [] then Nothing
    else Point(Scaled(a.func, a.width, if ColumnOf(a.func, Logs) == SumOctets then Octets(picked) else |picked|))
  }

  ghost function Picked(a: Aggregation, stages: seq<Stage>, x: Question, b: int, key: seq<Value>, rows: seq<Row>): seq<Row>
    requires a.width > 0
  {
    if rows == [] then []
    else (if Counts(a, stages, x, b, key, rows[0]) then [rows[0]] else []) + Picked(a, stages, x, b, key, rows[1..])
  }

  function Octets(rows: seq<Row>): nat {
    if rows == [] then 0 else rows[0].octets + Octets(rows[1..])
  }

  ghost function From(source: Source, a: Aggregation, stages: seq<Stage>, x: Question, b: int, key: seq<Value>): Reply
    requires a.width > 0
  {
    if source == Logs then FromRows(a, stages, x, b, key) else FromCells(source, a, stages, x, b, key)
  }

  /** Whatever is asked, the statement on this relation gives the answer. */
  ghost predicate Exact(source: Source, a: Aggregation, stages: seq<Stage>)
    requires a.width > 0
  {
    forall x: Question, b: int, key: seq<Value> :: From(source, a, stages, x, b, key) == Answer(a, stages, x, b, key)
  }

  lemma {:induction false} PickedTotal(a: Aggregation, stages: seq<Stage>, x: Question, b: int, key: seq<Value>, rows: seq<Row>)
    requires a.width > 0
    ensures var picked := Picked(a, stages, x, b, key, rows);
            && Total(a, stages, x, b, key, rows) == (if a.func == BytesOverTime then Octets(picked) else |picked|)
            && (picked != [] <==> exists i :: 0 <= i < |rows| && Counts(a, stages, x, b, key, rows[i]))
  {
    if rows != [] {
      PickedTotal(a, stages, x, b, key, rows[1..]);
      var rest := Picked(a, stages, x, b, key, rows[1..]);
      assert ([rows[0]] + rest)[1..] == rest && [] + rest == rest;
      if i :| 0 <= i < |rows[1..]| && Counts(a, stages, x, b, key, rows[1..][i]) {
        assert Counts(a, stages, x, b, key, rows[i + 1]);
      }
      if i :| 0 < i < |rows| && Counts(a, stages, x, b, key, rows[i]) {
        assert Counts(a, stages, x, b, key, rows[1..][i - 1]);
      }
    }
  }

  lemma LogsAreExact(a: Aggregation, stages: seq<Stage>)
    requires a.width > 0
    ensures Exact(Logs, a, stages)
  {
    forall x: Question, b: int, key: seq<Value>
      ensures From(Logs, a, stages, x, b, key) == Answer(a, stages, x, b, key)
    {
      PickedTotal(a, stages, x, b, key, x.rows);
    }
  }

  function Grain(source: Source): int {
    match source
    case Logs => 1
    case PerMinute => MINUTE
    case PerHour => HOUR
  }

  /** The statement can be run, and its buckets are whole numbers of the relation's. */
  predicate Serves(source: Source, a: Aggregation, stages: seq<Stage>) {
    || source == Logs
    || (a.func != BytesOverTime && !ReadsRecords(stages) && Groupable(a.labels) && a.width % Grain(source) == 0)
  }

  /** Stages and by labels that an aggregate has see a row as they see its cell. */
  lemma SeenAlike(a: Aggregation, stages: seq<Stage>, x: Question, key: seq<Value>, r: Row)
    requires !ReadsRecords(stages) && Groupable(a.labels)
    ensures CellFilter(a, stages, x, key)(r.stream, r.level)
       <==> && x.picks(r.stream, r.level) && Passes(x, stages, r)
            && |key| == |a.labels| && (forall i :: 0 <= i < |key| ==> ValueOf(x, r, a.labels[i]) == key[i])
  {
    var s := Stand(r.stream, r.level);
    forall i | 0 <= i < |stages|
      ensures StagePasses(x, stages[i], s) == StagePasses(x, stages[i], r)
    {
      assert !stages[i].OnRecord?;
    }
    assert Passes(x, stages, s) <==> Passes(x, stages, r);
    assert forall i :: 0 <= i < |a.labels| ==> ValueOf(x, s, a.labels[i]) == ValueOf(x, r, a.labels[i]);
  }

  lemma {:induction false} TotalCounts(a: Aggregation, stages: seq<Stage>, x: Question, b: int, key: seq<Value>, rows: seq<Row>)
    requires a.width > 0 && a.func != BytesOverTime && !ReadsRecords(stages) && Groupable(a.labels)
    ensures var w := Widen(x.start, x.end, a.width);
            var n := CountOf(rows, Wanted(w.0, w.1, a.width, b, CellFilter(a, stages, x, key)));
            && Total(a, stages, x, b, key, rows) == n
            && (n > 0 <==> exists i :: 0 <= i < |rows| && Counts(a, stages, x, b, key, rows[i]))
  {
    if rows != [] {
      TotalCounts(a, stages, x, b, key, rows[1..]);
      SeenAlike(a, stages, x, key, rows[0]);
      if i :| 0 <= i < |rows[1..]| && Counts(a, stages, x, b, key, rows[1..][i]) {
        assert Counts(a, stages, x, b, key, rows[i + 1]);
      }
      if i :| 0 < i < |rows| && Counts(a, stages, x, b, key, rows[i]) {
        assert Counts(a, stages, x, b, key, rows[1..][i - 1]);
      }
    }
  }

  lemma CellsCount(source: Source, rows: seq<Row>, s: int, e: int, d: int, b: int, group: (int, int) -> bool)
    requires source != Logs && d > 0 && d % Grain(source) == 0 && Aligned(s, d) && Aligned(e, d)
    ensures SumOf(Cells(source, rows), Wanted(s, e, d, b, group)) == CountOf(rows, Wanted(s, e, d, b, group))
    ensures Holds(Cells(source, rows), Wanted(s, e, d, b, group)) <==> CountOf(rows, Wanted(s, e, d, b, group)) > 0
  {
    var keep := Wanted(s, e, d, b, group);
    if source == PerMinute {
      ViewAnswers(rows, s, e, d, b, group, MINUTE);
    } else {
      RollupAnswers(rows, s, e, d, b, group);
    }
    ViewPositive(rows, MINUTE);
    RollupPositive(View(rows, MINUTE), HOUR);
    HoldsCells(Cells(source, rows), keep);
  }

  lemma ServingIsExact(source: Source, a: Aggregation, stages: seq<Stage>)
    requires a.width > 0 && source != Logs && Serves(source, a, stages)
    ensures Exact(source, a, stages)
  {
    forall x: Question, b: int, key: seq<Value>
      ensures From(source, a, stages, x, b, key) == Answer(a, stages, x, b, key)
    {
      var w := Widen(x.start, x.end, a.width);
      WidenIsAligned(x.start, x.end, a.width);
      TotalCounts(a, stages, x, b, key, x.rows);
      CellsCount(source, x.rows, w.0, w.1, a.width, b, CellFilter(a, stages, x, key));
    }
  }

  /** Some stream and level passes the stages that an aggregate could apply. */
  ghost predicate Satisfiable(stages: seq<Stage>) {
    ReadsRecords(stages) || exists x: Question, r: Row :: Passes(x, stages, r)
  }

  /** The request of two buckets from the origin, for one row at the boundary between them. */
  lemma TwoBuckets(d: int)
    requires d > 0
    ensures Widen(ORIGIN, ORIGIN + 2 * d, d) == (ORIGIN, ORIGIN + 2 * d)
    ensures Bucket(ORIGIN + d, d) == ORIGIN + d
  {
    AlignedShift(ORIGIN, d, 1);
    AlignedShift(ORIGIN, d, 2);
    SnapIsBoundary(ORIGIN, d);
    SnapIsBoundary(ORIGIN + 2 * d, d);
    BucketUnique(ORIGIN, ORIGIN, d);
    BucketUnique(ORIGIN + d, ORIGIN + d, d);
    BucketUnique(ORIGIN + 2 * d, ORIGIN + 2 * d, d);
  }

  /** Bucketed by a width that does not divide d, a row on a boundary of d falls before it. */
  lemma FallsBefore(x: int, g: int, d: int)
    requires d > 0 && g > 0 && !Aligned(x, g)
    ensures Bucket(x, g) < x && Bucket(Bucket(x, g), d) < x
  {
    BucketIsFloor(x, g);
    BucketIsFloor(Bucket(x, g), d);
  }

  /** The count over the cells of one row that stands on a boundary they cross. */
  lemma CellIsBefore(source: Source, r: Row, d: int, group: (int, int) -> bool)
    requires source != Logs && d > 0 && d % Grain(source) != 0 && r.time == ORIGIN + d
    ensures SumOf(Cells(source, [r]), Wanted(ORIGIN, ORIGIN + 2 * d, d, ORIGIN + d, group)) == 0
  {
    var keep := Wanted(ORIGIN, ORIGIN + 2 * d, d, ORIGIN + d, group);
    assert [r][1..] == [];
    assert !Aligned(r.time, Grain(source));
    if source == PerMinute {
      ViewCounts([r], MINUTE, keep);
      FallsBefore(r.time, MINUTE, d);
    } else {
      RollupSums(View([r], MINUTE), HOUR, keep);
      ViewCounts([r], MINUTE, OnBuckets(keep, HOUR));
      HourlyBefore(r.time, d);
    }
  }

  lemma HourlyBefore(x: int, d: int)
    requires d > 0 && !Aligned(x, HOUR)
    ensures Bucket(Bucket(Bucket(x, MINUTE), HOUR), d) < x
  {
    BucketIsFloor(x, MINUTE);
    BucketIsFloor(Bucket(x, MINUTE), HOUR);
    BucketIsFloor(Bucket(Bucket(x, MINUTE), HOUR), d);
  }

  /** A relation whose buckets cross those asked for misplaces a row. */
  lemma CrossingIsWrong(source: Source, a: Aggregation, stages: seq<Stage>, x: Question, r: Row)
    requires a.width > 0 && source != Logs && a.func != BytesOverTime && !ReadsRecords(stages) && Groupable(a.labels)
    requires a.width % Grain(source) != 0 && Passes(x, stages, r)
    ensures !Exact(source, a, stages)
  {
    var d := a.width;
    var r1 := r.(time := ORIGIN + d);
    var x1 := Question(x.columns, (_, _) => true, [r1], ORIGIN, ORIGIN + 2 * d);
    var key := seq(|a.labels|, i requires 0 <= i < |a.labels| => ValueOf(x1, r1, a.labels[i]));
    TwoBuckets(d);
    PassesStill(x, x1, stages, r, r1);
    assert Counts(a, stages, x1, ORIGIN + d, key, x1.rows[0]);
    CellIsBefore(source, r1, d, CellFilter(a, stages, x1, key));
    ViewPositive(x1.rows, MINUTE);
    RollupPositive(View(x1.rows, MINUTE), HOUR);
    HoldsCells(Cells(source, x1.rows), Wanted(ORIGIN, ORIGIN + 2 * d, d, ORIGIN + d, CellFilter(a, stages, x1, key)));
    assert From(source, a, stages, x1, ORIGIN + d, key) == Nothing != Answer(a, stages, x1, ORIGIN + d, key);
  }

  lemma PassesStill(x: Question, y: Question, stages: seq<Stage>, r: Row, r1: Row)
    requires !ReadsRecords(stages) && y.columns == x.columns && r1.stream == r.stream && r1.level == r.level
    requires Passes(x, stages, r)
    ensures Passes(y, stages, r1)
  {
    forall i | 0 <= i < |stages|
      ensures StagePasses(y, stages[i], r1)
    {
      assert StagePasses(x, stages[i], r) && !stages[i].OnRecord?;
    }
  }

  lemma RefusedIsWrong(source: Source, a: Aggregation, stages: seq<Stage>)
    requires a.width > 0 && source != Logs && (a.func == BytesOverTime || ReadsRecords(stages) || !Groupable(a.labels))
    ensures !Exact(source, a, stages)
  {
    var x := Question((_, _) => "", (_, _) => true, [], 0, 0);
    assert From(source, a, stages, x, 0, []) == Refused != Answer(a, stages, x, 0, []);
  }

  /** The exact condition for a relation to answer an aggregation, whatever is in the tables and whatever
      range is asked for. */
  lemma ExactIff(source: Source, a: Aggregation, stages: seq<Stage>)
    requires a.width > 0 && Satisfiable(stages)
    ensures Exact(source, a, stages) <==> Serves(source, a, stages)
  {
    if source == Logs {
      LogsAreExact(a, stages);
    } else if Serves(source, a, stages) {
      ServingIsExact(source, a, stages);
    } else if a.func == BytesOverTime || ReadsRecords(stages) || !Groupable(a.labels) {
      RefusedIsWrong(source, a, stages);
    } else {
      var x: Question, r: Row :| Passes(x, stages, r);
      CrossingIsWrong(source, a, stages, x, r);
    }
  }

  function Choose(q: Query): Source {
    if q.agg.None? || |q.stages| > 0 || q.agg.value.func == BytesOverTime || !Groupable(q.agg.value.labels) then Logs
    else if q.agg.value.width % HOUR == 0 then PerHour
    else if q.agg.value.width % MINUTE == 0 then PerMinute
    else Logs
  }

  /** What is chosen gives the answer, for every query; and for a query without stages nothing coarser
      does. */
  lemma ChosenIsCoarsest(q: Query)
    requires q.agg.Some? && q.agg.value.width > 0
    ensures Exact(Choose(q), q.agg.value, q.stages)
    ensures |q.stages| == 0 ==> forall s: Source :: Exact(s, q.agg.value, q.stages) ==> Grain(s) <= Grain(Choose(q))
  {
    var a := q.agg.value;
    if Choose(q) == Logs {
      LogsAreExact(a, q.stages);
    } else {
      ServingIsExact(Choose(q), a, q.stages);
    }
    if |q.stages| == 0 {
      assert Passes(Question((_, _) => "", (_, _) => true, [], 0, 0), q.stages, Stand(0, 0));
      forall s: Source | Exact(s, a, q.stages)
        ensures Grain(s) <= Grain(Choose(q))
      {
        ExactIff(s, a, q.stages);
        if s == PerHour {
          HourIsMinutes(a.width);
        }
      }
    }
  }

  /** chooseSource. */
  method ChooseSource(q: Query) returns (source: Source)
    requires q.agg.Some? ==> q.agg.value.width > 0
    ensures source == Choose(q)
    ensures q.agg.None? || |q.stages| > 0 ==> source == Logs
    ensures q.agg.Some? ==> Exact(source, q.agg.value, q.stages)
    ensures q.agg.Some? && |q.stages| == 0 ==> forall s: Source :: Exact(s, q.agg.value, q.stages) ==> Grain(s) <= Grain(source)
  {
    if q.agg.Some? {
      ChosenIsCoarsest(q);
    }
    if q.agg.None? || |q.stages| > 0 || q.agg.value.func == BytesOverTime {
      return Logs;
    }
    var a := q.agg.value;
    for i := 0 to |a.labels|
      invariant forall j :: 0 <= j < i ==> a.labels[j] == "level" || Promoted(a.labels[j])
    {
      if a.labels[i] != "level" && !Promoted(a.labels[i]) {
        return Logs;
      }
    }
    source := Logs;
    var grains := [(PerMinute, MINUTE), (PerHour, HOUR)];
    if a.width % grains[0].1 == 0 {
      source := grains[0].0;
    }
    if a.width % grains[1].1 == 0 {
      source := grains[1].0;
    }
  }
}
