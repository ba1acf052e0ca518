/** Query fan-out (internal/cluster/coordinator.go) and its single-node counterpart
    (internal/query/executor/executor.go). */
module Coordinator {
  import opened Prelude
  import opened Sequences
  import opened Sorting
  import opened GroupOrder
  import opened PointKeys
  import opened Aggregation
  import opened MergePoints
  import opened MergeRecords

  datatype Member = Member(name: string, ready: bool)

  /** The ring's owner of a stream, with what the membership view knows of it. */
  type Lookup = int -> Option<Member>

  datatype Shard = Shard(name: string, local: bool, ids: seq<int>)

  /** The member that scans a stream: its owner when that one is ready, this node otherwise. */
  function Route(self: string, lookup: Lookup, id: int): string {
    if lookup(id).None? || !lookup(id).value.ready || lookup(id).value.name == self then self else lookup(id).value.name
  }

  /** The ids that one member scans, in their order. */
  function Routed(self: string, lookup: Lookup, ids: seq<int>, name: string): seq<int> {
    if ids == [] then []
    else
      var before := Routed(self, lookup, ids[..|ids| - 1], name);
      var id := ids[|ids| - 1];
      if Route(self, lookup, id) == name then before + [id] else before
  }

  ghost predicate Grouped(self: string, lookup: Lookup, ids: seq<int>, byOwner: map<string, Shard>, order: seq<string>) {
    && (forall i, j :: 0 <= i < j < |order| ==> order[i] != order[j])
    && (forall n :: n in order <==> n in byOwner)
    && (forall n :: n in byOwner ==> byOwner[n] == Shard(n, n == self, Routed(self, lookup, ids, n)))
    && (forall n :: n in byOwner <==> Routed(self, lookup, ids, n) != [])
  }

  lemma RoutedStep(self: string, lookup: Lookup, ids: seq<int>, id: int, name: string)
    ensures Routed(self, lookup, ids + [id], name) ==
              if Route(self, lookup, id) == name then Routed(self, lookup, ids, name) + [id] else Routed(self, lookup, ids, name)
  {
    assert (ids + [id])[..|ids|] == ids;
  }

  /** shards: the ids are grouped by the member that scans them; every id is in exactly one shard,
      and no shard is empty. */
  method ShardsOf(self: string, lookup: Lookup, ids: seq<int>) returns (out: seq<Shard>)
    ensures forall i :: 0 <= i < |out| ==> out[i] == Shard(out[i].name, out[i].name == self, Routed(self, lookup, ids, out[i].name))
    ensures forall i :: 0 <= i < |out| ==> out[i].ids != []
    ensures forall i, j :: 0 <= i < j < |out| ==> out[i].name != out[j].name
    ensures forall n :: Routed(self, lookup, ids, n) != [] ==> exists i :: 0 <= i < |out| && out[i].name == n
  {
    var byOwner: map<string, Shard>, order: seq<string> := map[], [];
    for k := 0 to |ids|
      invariant Grouped(self, lookup, ids[..k], byOwner, order)
    {
      var m := Route(self, lookup, ids[k]);
      assert ids[..k + 1] == ids[..k] + [ids[k]];
      forall n
        ensures Routed(self, lookup, ids[..k + 1], n) ==
                  if m == n then Routed(self, lookup, ids[..k], n) + [ids[k]] else Routed(self, lookup, ids[..k], n)
      {
        RoutedStep(self, lookup, ids[..k], ids[k], n);
      }
      if m !in byOwner {
        byOwner := byOwner[m := Shard(m, m == self, [])];
        order := order + [m];
      }
      byOwner := byOwner[m := byOwner[m].(ids := byOwner[m].ids + [ids[k]])];
    }
    assert ids[..|ids|] == ids;
    out := [];
    for i := 0 to |order|
      invariant |out| == i
      invariant forall j :: 0 <= j < i ==> order[j] in byOwner && out[j] == byOwner[order[j]]
    {
      assert order[i] in order;
      out := out + [byOwner[order[i]]];
    }
    forall n | Routed(self, lookup, ids, n) != []
      ensures exists i :: 0 <= i < |out| && out[i].name == n
    {
      assert n in order;
      var i :| 0 <= i < |order| && order[i] == n;
      assert out[i].name == n;
    }
  }

  lemma {:induction false} RoutedHolds(self: string, lookup: Lookup, ids: seq<int>, name: string, id: int)
    ensures id in Routed(self, lookup, ids, name) <==> id in ids && Route(self, lookup, id) == name
  {
    if ids != [] {
      RoutedHolds(self, lookup, ids[..|ids| - 1], name, id);
      assert ids == ids[..|ids| - 1] + [ids[|ids| - 1]];
    }
  }

  /** Lists of ids with nothing in common. */
  ghost predicate Disjoint(idLists: seq<seq<int>>) {
    forall i, j, id :: 0 <= i < j < |idLists| && id in idLists[i] ==> id !in idLists[j]
  }

  function IdLists(shards: seq<Shard>): (r: seq<seq<int>>)
    ensures |r| == |shards| && forall i :: 0 <= i < |r| ==> r[i] == shards[i].ids
  {
    seq(|shards|, i requires 0 <= i < |shards| => shards[i].ids)
  }

  lemma {:induction false} FlattenHolds(idLists: seq<seq<int>>, id: int)
    ensures id in Flatten(idLists) <==> exists i :: 0 <= i < |idLists| && id in idLists[i]
  {
    if idLists != [] {
      FlattenHolds(idLists[1..], id);
      if exists i :: 0 <= i < |idLists| && id in idLists[i] {
        var i :| 0 <= i < |idLists| && id in idLists[i];
        assert i > 0 ==> idLists[1..][i - 1] == idLists[i];
      }
      if id in Flatten(idLists[1..]) {
        var i :| 0 <= i < |idLists[1..]| && id in idLists[1..][i];
        assert id in idLists[i + 1];
      }
      assert id in idLists[0] ==> exists i :: 0 <= i < |idLists| && id in idLists[i];
    }
  }

  /** A stream is scanned where the ring places it, unless nobody owns it or its owner is not ready:
      then it is scanned here. */
  ghost predicate ScannedBy(self: string, lookup: Lookup, id: int, name: string) {
    match lookup(id)
    case Some(m) => if m.ready then name == m.name else name == self
    case None => name == self
  }

  /** The shards of ShardsOf are a partition of the ids, each with the member that should scan it. */
  lemma ShardsPartition(self: string, lookup: Lookup, ids: seq<int>, shards: seq<Shard>)
    requires forall i :: 0 <= i < |shards| ==> shards[i].ids == Routed(self, lookup, ids, shards[i].name)
    requires forall i, j :: 0 <= i < j < |shards| ==> shards[i].name != shards[j].name
    requires forall n :: Routed(self, lookup, ids, n) != [] ==> exists i :: 0 <= i < |shards| && shards[i].name == n
    ensures Disjoint(IdLists(shards))
    ensures forall id :: id in Flatten(IdLists(shards)) <==> id in ids
    ensures forall i, id :: 0 <= i < |shards| && id in shards[i].ids ==> ScannedBy(self, lookup, id, shards[i].name)
  {
    forall i, id | 0 <= i < |shards| && id in shards[i].ids
      ensures ScannedBy(self, lookup, id, shards[i].name)
    {
      RoutedHolds(self, lookup, ids, shards[i].name, id);
    }
    forall i, j, id | 0 <= i < j < |shards| && id in IdLists(shards)[i]
      ensures id !in IdLists(shards)[j]
    {
      RoutedHolds(self, lookup, ids, shards[i].name, id);
      RoutedHolds(self, lookup, ids, shards[j].name, id);
    }
    forall id
      ensures id in Flatten(IdLists(shards)) <==> id in ids
    {
      FlattenHolds(IdLists(shards), id);
      if id in Flatten(IdLists(shards)) {
        var i :| 0 <= i < |shards| && id in IdLists(shards)[i];
        RoutedHolds(self, lookup, ids, shards[i].name, id);
      }
      if id in ids {
        var n := Route(self, lookup, id);
        RoutedHolds(self, lookup, ids, n, id);
        assert Routed(self, lookup, ids, n) != [];
        var i :| 0 <= i < |shards| && shards[i].name == n;
        assert id in IdLists(shards)[i];
      }
    }
  }

  /** A log row's stream, and what it contributes to an aggregation. */
  datatype Row = Row(stream: int, point: Point)

  /** The points of the rows of some streams. */
  function Scan(rows: seq<Row>, ids: seq<int>): seq<Point> {
    if rows == [] then []
    else if rows[0].stream in ids then [rows[0].point] + Scan(rows[1..], ids)
    else Scan(rows[1..], ids)
  }

  function ScanEach(rows: seq<Row>, idLists: seq<seq<int>>): (r: seq<seq<Point>>)
    ensures |r| == |idLists| && forall i :: 0 <= i < |r| ==> r[i] == Scan(rows, idLists[i])
  {
    seq(|idLists|, i requires 0 <= i < |idLists| => Scan(rows, idLists[i]))
  }

  lemma {:induction false} ScanDependsOnSet(rows: seq<Row>, a: seq<int>, b: seq<int>)
    requires forall id :: id in a <==> id in b
    ensures Scan(rows, a) == Scan(rows, b)
  {
    if rows != [] { ScanDependsOnSet(rows[1..], a, b); }
  }

  lemma {:induction false} ScanSplits(rows: seq<Row>, a: seq<int>, b: seq<int>, g: Group)
    requires forall id :: id in a ==> id !in b
    ensures Weight(Scan(rows, a + b), g) == Weight(Scan(rows, a), g) + Weight(Scan(rows, b), g)
    ensures Has(Scan(rows, a + b), g) <==> Has(Scan(rows, a), g) || Has(Scan(rows, b), g)
  {
    if rows != [] {
      ScanSplits(rows[1..], a, b, g);
      OneMore(rows, a + b, g);
      OneMore(rows, a, g);
      OneMore(rows, b, g);
    }
  }

  lemma OneMore(rows: seq<Row>, ids: seq<int>, g: Group)
    requires rows != []
    ensures var p, more := rows[0].point, rows[0].stream in ids && rows[0].point.group == g;
            && Weight(Scan(rows, ids), g) == (if more then p.value else 0.0) + Weight(Scan(rows[1..], ids), g)
            && (Has(Scan(rows, ids), g) <==> more || Has(Scan(rows[1..], ids), g))
  {
    if rows[0].stream in ids {
      WeightConcat([rows[0].point], Scan(rows[1..], ids), g);
      HasConcat([rows[0].point], Scan(rows[1..], ids), g);
      OnePoint(rows[0].point, g);
    }
  }

  /** Scanning the parts of a partition is scanning the whole. */
  lemma {:induction false} PartsAlike(rows: seq<Row>, idLists: seq<seq<int>>)
    requires Disjoint(idLists)
    ensures Alike(Flatten(ScanEach(rows, idLists)), Scan(rows, Flatten(idLists)))
  {
    if idLists == [] {
      ScanNone(rows);
    } else {
      var a, b := idLists[0], Flatten(idLists[1..]);
      assert forall i :: 0 <= i < |idLists[1..]| ==> idLists[1..][i] == idLists[i + 1];
      PartsAlike(rows, idLists[1..]);
      forall id | id in a
        ensures id !in b
      {
        FlattenHolds(idLists[1..], id);
        assert id in idLists[0];
      }
      var parts := ScanEach(rows, idLists);
      assert parts[1..] == ScanEach(rows, idLists[1..]);
      forall g
        ensures Has(Flatten(parts), g) <==> Has(Scan(rows, a + b), g)
        ensures Weight(Flatten(parts), g) == Weight(Scan(rows, a + b), g)
      {
        ScanSplits(rows, a, b, g);
        WeightConcat(parts[0], Flatten(parts[1..]), g);
        HasConcat(parts[0], Flatten(parts[1..]), g);
        assert Has(Flatten(parts[1..]), g) <==> Has(Scan(rows, b), g);
      }
    }
  }

  lemma {:induction false} ScanNone(rows: seq<Row>)
    ensures Scan(rows, []) == []
  {
    if rows != [] { ScanNone(rows[1..]); }
  }

  /** Points and the flag that says there were more. */
  datatype Series = Series(points: seq<Point>, truncated: bool)

  /** A single node: one row more than the limit is fetched, and Truncate cuts it off. */
  function SingleNode(rows: seq<Row>, ids: seq<int>, limit: nat, leq: Order): Series {
    Cut(Firsts(Answer(Scan(rows, ids), leq), limit + 1), limit, false)
  }

  /** Result.Truncate. */
  function Cut(points: seq<Point>, limit: nat, truncated: bool): Series {
    if |points| > limit then Series(points[..limit], true) else Series(points, truncated)
  }

  ghost predicate SomeFull<T>(lists: seq<seq<T>>, limit: nat) {
    exists i :: 0 <= i < |lists| && |lists[i]| > limit
  }

  /** The coordinator: the shards' lists merged and cut. */
  ghost function FanOut(lists: seq<seq<Point>>, limit: nat, leq: Order): Series {
    Cut(Answer(Flatten(lists), leq), limit, SomeFull(lists, limit))
  }

  lemma {:induction false} PartIsInWhole(parts: seq<seq<Point>>, i: nat, g: Group)
    requires i < |parts| && Has(parts[i], g)
    ensures Has(Flatten(parts), g)
  {
    HasConcat(parts[0], Flatten(parts[1..]), g);
    if i > 0 { PartIsInWhole(parts[1..], i - 1, g); }
  }

  /** A full shard list means more than `limit` groups exist. */
  lemma FullShardMeansMore(parts: seq<seq<Point>>, limit: nat, leq: Order)
    requires TotalOrder(leq) && SomeFull(Sent(parts, limit + 1, leq), limit)
    ensures |Answer(Flatten(parts), leq)| > limit
  {
    var i :| 0 <= i < |parts| && |Sent(parts, limit + 1, leq)[i]| > limit;
    var part, whole := GroupList(parts[i], leq), GroupList(Flatten(parts), leq);
    GroupListStrict(parts[i], leq);
    GroupListStrict(Flatten(parts), leq);
    forall g | g in part
      ensures g in whole
    {
      PartIsInWhole(parts, i, g);
    }
    assert part[limit] in whole;
    var r :| 0 <= r < |whole| && whole[r] == part[limit];
    RankInSubset(part, whole, limit, r, leq);
  }

  /** For every partition of the streams: when every shard answers its first limit + 1 groups, the
      coordinator's answer is the single node's, values and truncation flag included, and the flag
      is set iff more than `limit` groups exist. */
  lemma FanOutIsSingleNode(rows: seq<Row>, ids: seq<int>, idLists: seq<seq<int>>, limit: nat, dir: Direction, names: seq<string>)
    requires Disjoint(idLists) && forall id :: id in Flatten(idLists) <==> id in ids
    ensures var leq := OrderOf(dir, names);
            FanOut(Sent(ScanEach(rows, idLists), limit + 1, leq), limit, leq) == SingleNode(rows, ids, limit, leq)
    ensures var leq := OrderOf(dir, names);
            SingleNode(rows, ids, limit, leq) == Series(Firsts(Answer(Scan(rows, ids), leq), limit), |Answer(Scan(rows, ids), leq)| > limit)
  {
    var leq := OrderOf(dir, names);
    OrderIsTotal(dir, names);
    var parts := ScanEach(rows, idLists);
    PartsAlike(rows, idLists);
    ScanDependsOnSet(rows, Flatten(idLists), ids);
    AlikeAnswers(Flatten(parts), Scan(rows, ids), leq);
    TopGroupsSurviveSharding(parts, limit + 1, leq);
    if SomeFull(Sent(parts, limit + 1, leq), limit) {
      FullShardMeansMore(parts, limit, leq);
    }
    SameCut(Answer(Flatten(Sent(parts, limit + 1, leq)), leq), Answer(Scan(rows, ids), leq), limit);
  }

  lemma SameCut(a: seq<Point>, b: seq<Point>, limit: nat)
    requires Firsts(a, limit + 1) == Firsts(b, limit + 1)
    ensures Firsts(a, limit) == Firsts(b, limit) && (|a| > limit <==> |b| > limit)
    ensures forall t :: Cut(a, limit, t) == Series(Firsts(b, limit), |b| > limit || t)
    ensures Cut(Firsts(b, limit + 1), limit, false) == Series(Firsts(b, limit), |b| > limit)
  {
    assert |Firsts(a, limit + 1)| == |Firsts(b, limit + 1)|;
    if |a| > limit {
      assert Firsts(a, limit + 1)[..limit] == a[..limit];
      assert Firsts(b, limit + 1)[..limit] == b[..limit];
    }
  }

  /** The rows of some streams among all records that match. */
  function Matching(all: seq<Record>, ids: seq<int>): multiset<Record> {
    if all == [] then multiset{}
    else (if all[0].stream in ids then multiset{all[0]} else multiset{}) + Matching(all[1..], ids)
  }

  function MatchingEach(all: seq<Record>, idLists: seq<seq<int>>): (r: seq<multiset<Record>>)
    ensures |r| == |idLists| && forall i :: 0 <= i < |r| ==> r[i] == Matching(all, idLists[i])
  {
    seq(|idLists|, i requires 0 <= i < |idLists| => Matching(all, idLists[i]))
  }

  lemma {:induction false} MatchingSplits(all: seq<Record>, a: seq<int>, b: seq<int>)
    requires forall id :: id in a ==> id !in b
    ensures Matching(all, a + b) == Matching(all, a) + Matching(all, b)
  {
    if all != [] { MatchingSplits(all[1..], a, b); }
  }

  lemma {:induction false} MatchingDependsOnSet(all: seq<Record>, a: seq<int>, b: seq<int>)
    requires forall id :: id in a <==> id in b
    ensures Matching(all, a) == Matching(all, b)
  {
    if all != [] { MatchingDependsOnSet(all[1..], a, b); }
  }

  lemma {:induction false} MatchingNone(all: seq<Record>)
    ensures Matching(all, []) == multiset{}
  {
    if all != [] { MatchingNone(all[1..]); }
  }

  lemma {:induction false} PartsUnite(all: seq<Record>, idLists: seq<seq<int>>)
    requires Disjoint(idLists)
    ensures Union(MatchingEach(all, idLists)) == Matching(all, Flatten(idLists))
  {
    if idLists == [] {
      MatchingNone(all);
    } else {
      assert forall i :: 0 <= i < |idLists[1..]| ==> idLists[1..][i] == idLists[i + 1];
      PartsUnite(all, idLists[1..]);
      forall id | id in idLists[0]
        ensures id !in Flatten(idLists[1..])
      {
        FlattenHolds(idLists[1..], id);
      }
      MatchingSplits(all, idLists[0], Flatten(idLists[1..]));
      assert MatchingEach(all, idLists)[1..] == MatchingEach(all, idLists[1..]);
    }
  }

  /** For every partition of the streams: from each shard's first limit + 1 rows the coordinator's
      first `limit` rows are first rows of all that match, and rows were left over iff more than
      `limit` match. */
  lemma FanOutRecordsArePrefix(all: seq<Record>, ids: seq<int>, idLists: seq<seq<int>>, lists: seq<seq<Record>>, out: seq<Record>, limit: nat, dir: Direction)
    requires Disjoint(idLists) && forall id :: id in Flatten(idLists) <==> id in ids
    requires Answers(lists, MatchingEach(all, idLists), limit + 1, RecordLeq(dir))
    requires Prefix(out, Everything(lists), limit, RecordLeq(dir))
    ensures Prefix(out, Matching(all, ids), limit, RecordLeq(dir))
    ensures |Everything(lists)| > limit <==> |Matching(all, ids)| > limit
  {
    RecordPreorder(dir);
    PartsUnite(all, idLists);
    MatchingDependsOnSet(all, Flatten(idLists), ids);
    PrefixOfPrefixes(out, lists, MatchingEach(all, idLists), limit, limit + 1, RecordLeq(dir));
  }

  datatype ShardResult = Failed | Rows(records: seq<Record>, points: seq<Point>)

  /** warnings names the shards that did not answer, by position. */
  datatype Result = Result(records: seq<Record>, points: seq<Point>, truncated: bool, warnings: seq<nat>)

  /** Result.Truncate. */
  function Truncate(r: Result, limit: nat): Result {
    var a := if |r.records| > limit then r.(records := r.records[..limit], truncated := true) else r;
    if |a.points| > limit then a.(points := a.points[..limit], truncated := true) else a
  }

  function RecordLists(results: seq<ShardResult>): seq<seq<Record>> {
    if results == [] then []
    else RecordLists(results[..|results| - 1]) + (var r := results[|results| - 1]; if r.Failed? then [] else [r.records])
  }

  function PointLists(results: seq<ShardResult>): seq<seq<Point>> {
    if results == [] then []
    else PointLists(results[..|results| - 1]) + (var r := results[|results| - 1]; if r.Failed? then [] else [r.points])
  }

  function Missing(results: seq<ShardResult>): seq<nat> {
    if results == [] then []
    else Missing(results[..|results| - 1]) + (if results[|results| - 1].Failed? then [|results| - 1] else [])
  }

  /** The positions of the shards that answered, in order. */
  ghost predicate Answered(results: seq<ShardResult>, at: seq<nat>) {
    && (forall j, k :: 0 <= j < k < |at| ==> at[j] < at[k])
    && (forall i: nat :: i in at <==> i < |results| && !results[i].Failed?)
  }

  ghost predicate AnswersAre(results: seq<ShardResult>, at: seq<nat>, records: seq<seq<Record>>, points: seq<seq<Point>>) {
    && |records| == |points| == |at|
    && forall j :: 0 <= j < |at| ==> AnswerIs(results, at[j], records[j], points[j])
  }

  predicate AnswerIs(results: seq<ShardResult>, i: nat, records: seq<Record>, points: seq<Point>) {
    i < |results| && results[i] == Rows(records, points)
  }

  lemma AnsweredSnoc(results: seq<ShardResult>, at: seq<nat>, r: ShardResult)
    requires Answered(results, at)
    ensures Answered(results + [r], if r.Failed? then at else at + [|results|])
  {
    var more := if r.Failed? then at else at + [|results|];
    assert forall j :: 0 <= j < |at| ==> at[j] in at;
    forall i: nat
      ensures i in more <==> i < |results| + 1 && !(results + [r])[i].Failed?
    {
      assert i < |results| ==> (results + [r])[i] == results[i];
    }
  }

  lemma AnswersSnoc(results: seq<ShardResult>, at: seq<nat>, records: seq<seq<Record>>, points: seq<seq<Point>>, r: ShardResult)
    requires AnswersAre(results, at, records, points)
    ensures AnswersAre(results + [r], at, records, points)
    ensures r.Rows? ==> AnswersAre(results + [r], at + [|results|], records + [r.records], points + [r.points])
  {
    forall j | 0 <= j < |at|
      ensures AnswerIs(results + [r], at[j], records[j], points[j])
    {
      assert AnswerIs(results, at[j], records[j], points[j]);
    }
  }

  /** The positions of the failed shards, in order. */
  ghost predicate AreFailed(results: seq<ShardResult>, at: seq<nat>) {
    && (forall j, k :: 0 <= j < k < |at| ==> at[j] < at[k])
    && (forall i: nat :: i in at <==> i < |results| && results[i].Failed?)
  }

  lemma FailedSnoc(results: seq<ShardResult>, at: seq<nat>, r: ShardResult)
    requires AreFailed(results, at)
    ensures AreFailed(results + [r], if r.Failed? then at + [|results|] else at)
  {
    var more := if r.Failed? then at + [|results|] else at;
    assert forall j :: 0 <= j < |at| ==> at[j] in at;
    forall i: nat
      ensures i in more <==> i < |results| + 1 && (results + [r])[i].Failed?
    {
      assert i < |results| ==> (results + [r])[i] == results[i];
    }
  }

  lemma {:induction false} MissingFailed(results: seq<ShardResult>)
    ensures AreFailed(results, Missing(results))
    decreases |results|
  {
    if results != [] {
      var n := |results| - 1;
      MissingFailed(results[..n]);
      MissingLater(results[..n], results[n]);
      assert results[..n] + [results[n]] == results;
    }
  }

  lemma MissingLater(before: seq<ShardResult>, r: ShardResult)
    requires AreFailed(before, Missing(before))
    ensures AreFailed(before + [r], Missing(before + [r]))
  {
    assert (before + [r])[..|before|] == before;
    FailedSnoc(before, Missing(before), r);
    assert Missing(before + [r]) == if r.Failed? then Missing(before) + [|before|] else Missing(before);
  }

  lemma ListsSnoc(before: seq<ShardResult>, r: ShardResult)
    ensures RecordLists(before + [r]) == if r.Failed? then RecordLists(before) else RecordLists(before) + [r.records]
    ensures PointLists(before + [r]) == if r.Failed? then PointLists(before) else PointLists(before) + [r.points]
  {
    assert (before + [r])[..|before|] == before;
  }

  lemma AnswersLater(before: seq<ShardResult>, at: seq<nat>, r: ShardResult) returns (more: seq<nat>)
    requires Answered(before, at) && AnswersAre(before, at, RecordLists(before), PointLists(before))
    ensures Answered(before + [r], more) && AnswersAre(before + [r], more, RecordLists(before + [r]), PointLists(before + [r]))
  {
    AnsweredSnoc(before, at, r);
    AnswersSnoc(before, at, RecordLists(before), PointLists(before), r);
    ListsSnoc(before, r);
    more := if r.Failed? then at else at + [|before|];
  }

  lemma {:induction false} AnswersExist(results: seq<ShardResult>) returns (at: seq<nat>)
    ensures Answered(results, at) && AnswersAre(results, at, RecordLists(results), PointLists(results))
    decreases |results|
  {
    if results == [] {
      at := [];
    } else {
      var n := |results| - 1;
      at := AnswersExist(results[..n]);
      at := AnswersLater(results[..n], at, results[n]);
      assert results[..n] + [results[n]] == results;
    }
  }

  /** What is merged is the answer of every shard that gave one, once and in their order; the warnings
      name all the others. */
  lemma EveryAnswerCounts(results: seq<ShardResult>) returns (at: seq<nat>)
    ensures Answered(results, at) && AnswersAre(results, at, RecordLists(results), PointLists(results))
    ensures AreFailed(results, Missing(results))
  {
    at := AnswersExist(results);
    MissingFailed(results);
  }

  /** The shard errors that end the query. */
  ghost predicate Fatal(shards: seq<Shard>, results: seq<ShardResult>, canceled: bool)
    requires |shards| == |results|
  {
    exists i :: 0 <= i < |results| && results[i].Failed? && (canceled || shards[i].local)
  }

  datatype Gathering = Gathering(records: seq<seq<Record>>, points: seq<seq<Point>>, truncated: bool, warnings: seq<nat>)

  ghost predicate Gathers(results: seq<ShardResult>, limit: nat, g: Gathering) {
    && g.records == RecordLists(results) && g.points == PointLists(results) && g.warnings == Missing(results)
    && (g.truncated <==> SomeFull(g.records, limit) || SomeFull(g.points, limit))
  }

  lemma FullSnoc<T>(lists: seq<seq<T>>, list: seq<T>, limit: nat)
    ensures SomeFull(lists + [list], limit) <==> SomeFull(lists, limit) || |list| > limit
  {
    if SomeFull(lists, limit) {
      var i :| 0 <= i < |lists| && |lists[i]| > limit;
      assert |(lists + [list])[i]| > limit;
    }
    assert (lists + [list])[|lists|] == list;
  }

  method Gather(limit: nat, shards: seq<Shard>, results: seq<ShardResult>, canceled: bool) returns (out: Option<Gathering>)
    requires |shards| == |results|
    ensures out.None? <==> Fatal(shards, results, canceled)
    ensures out.Some? ==> Gathers(results, limit, out.value)
  {
    var g := Gathering([], [], false, []);
    for i := 0 to |results|
      invariant forall j :: 0 <= j < i && results[j].Failed? ==> !canceled && !shards[j].local
      invariant Gathers(results[..i], limit, g)
    {
      var r := results[i];
      assert results[..i + 1][..i] == results[..i];
      if r.Failed? {
        if canceled || shards[i].local {
          return None;
        }
        g := g.(warnings := g.warnings + [i]);
      } else {
        FullSnoc(g.records, r.records, limit);
        FullSnoc(g.points, r.points, limit);
        g := Gathering(g.records + [r.records], g.points + [r.points],
                       g.truncated || |r.records| > limit || |r.points| > limit, g.warnings);
      }
    }
    assert results[..|results|] == results;
    out := Some(g);
  }

  /** What a shard answers has the shape of the query. */
  ghost predicate Shaped(results: seq<ShardResult>, aggregate: bool) {
    forall i :: 0 <= i < |results| && results[i].Rows? ==> if aggregate then results[i].records == [] else results[i].points == []
  }

  lemma {:induction false} ShapedLists(results: seq<ShardResult>, aggregate: bool, limit: nat)
    requires Shaped(results, aggregate)
    ensures if aggregate then !SomeFull(RecordLists(results), limit) else !SomeFull(PointLists(results), limit)
  {
    if results != [] {
      var k := |results| - 1;
      ShapedLists(results[..k], aggregate, limit);
      if results[k].Rows? {
        FullSnoc(RecordLists(results[..k]), results[k].records, limit);
        FullSnoc(PointLists(results[..k]), results[k].points, limit);
      }
    }
  }

  /** The second half of Run: a canceled query or a failed local shard fails it, a failed remote shard
      is a warning, and the answers of the others are merged and cut. */
  method Run(f: Stamp, parse: LevelParser, limit: nat, dir: Direction, names: seq<string>, aggregate: bool,
             shards: seq<Shard>, results: seq<ShardResult>, canceled: bool, ghost alphabet: Alphabet)
    returns (out: Option<Result>)
    requires IsStamp(f) && ParsesNames(parse) && |shards| == |results| && Shaped(results, aggregate)
    requires forall p :: p in Flatten(PointLists(results)) ==> WellFormed(names, p.group)
    requires AllSorted(RecordLists(results), RecordLeq(dir))
    ensures out.None? <==> Fatal(shards, results, canceled)
    ensures out.Some? ==> out.value.warnings == Missing(results)
    ensures out.Some? && !aggregate ==>
              && Prefix(out.value.records, Everything(RecordLists(results)), limit, RecordLeq(dir))
              && (out.value.truncated <==> |Everything(RecordLists(results))| > limit)
    ensures out.Some? && aggregate && Tellable(names, alphabet) && (forall p :: p in Flatten(PointLists(results)) ==> Admits(names, alphabet, p.group)) ==>
              Series(out.value.points, out.value.truncated) == FanOut(PointLists(results), limit, OrderOf(dir, names))
  {
    var gathered := Gather(limit, shards, results, canceled);
    if gathered.None? {
      return None;
    }
    var g := gathered.value;
    ShapedLists(results, aggregate, limit);
    var r := Result([], [], g.truncated, g.warnings);
    if aggregate {
      var points := MergeShardPoints(f, parse, g.points, dir, names, alphabet);
      r := r.(points := points);
    } else {
      var records := MergeShardRecords(g.records, dir, limit + 1);
      CutPrefix(records, Everything(g.records), limit, RecordLeq(dir));
      FullListCounts(g.records, limit);
      r := r.(records := records);
    }
    out := Some(Truncate(r, limit));
  }

  lemma {:induction false} FullListCounts(lists: seq<seq<Record>>, limit: nat)
    ensures SomeFull(lists, limit) ==> |Everything(lists)| > limit
  {
    if lists != [] {
      FullListCounts(lists[1..], limit);
      assert |multiset(lists[0])| == |lists[0]|;
      if SomeFull(lists, limit) {
        var i :| 0 <= i < |lists| && |lists[i]| > limit;
        assert i > 0 ==> |lists[1..][i - 1]| > limit;
      }
    }
  }

  /** What a shard's node answers for the streams it scans: its first limit + 1 groups, or rows. */
  ghost predicate Honest(answer: seq<int> -> ShardResult, rows: seq<Row>, all: seq<Record>, limit: nat, dir: Direction,
                         names: seq<string>, aggregate: bool) {
    forall xs: seq<int> ::
      if aggregate then answer(xs) == Rows([], Firsts(Answer(Scan(rows, xs), OrderOf(dir, names)), limit + 1))
      else answer(xs).Rows? && answer(xs).points == []
           && Prefix(answer(xs).records, Matching(all, xs), limit + 1, RecordLeq(dir))
  }

  function AnswerEach(answer: seq<int> -> ShardResult, shards: seq<Shard>): (r: seq<ShardResult>)
    ensures |r| == |shards| && forall i :: 0 <= i < |r| ==> r[i] == answer(shards[i].ids)
  {
    seq(|shards|, i requires 0 <= i < |shards| => answer(shards[i].ids))
  }

  ghost predicate NoneFailed(results: seq<ShardResult>) {
    forall i :: 0 <= i < |results| ==> results[i].Rows?
  }

  lemma {:induction false} AllListed(results: seq<ShardResult>)
    requires NoneFailed(results)
    ensures Missing(results) == []
    ensures |RecordLists(results)| == |PointLists(results)| == |results|
    ensures forall i :: 0 <= i < |results| ==> RecordLists(results)[i] == results[i].records && PointLists(results)[i] == results[i].points
  {
    if results != [] {
      AllListed(results[..|results| - 1]);
    }
  }

  lemma HonestPoints(answer: seq<int> -> ShardResult, rows: seq<Row>, all: seq<Record>, limit: nat, dir: Direction,
                     names: seq<string>, shards: seq<Shard>)
    requires Honest(answer, rows, all, limit, dir, names, true)
    ensures NoneFailed(AnswerEach(answer, shards)) && Shaped(AnswerEach(answer, shards), true)
    ensures PointLists(AnswerEach(answer, shards)) == Sent(ScanEach(rows, IdLists(shards)), limit + 1, OrderOf(dir, names))
    ensures AllSorted(RecordLists(AnswerEach(answer, shards)), RecordLeq(dir))
  {
    AllListed(AnswerEach(answer, shards));
  }

  lemma HonestRecords(answer: seq<int> -> ShardResult, rows: seq<Row>, all: seq<Record>, limit: nat, dir: Direction,
                      names: seq<string>, shards: seq<Shard>)
    requires Honest(answer, rows, all, limit, dir, names, false)
    ensures NoneFailed(AnswerEach(answer, shards)) && Shaped(AnswerEach(answer, shards), false)
    ensures Answers(RecordLists(AnswerEach(answer, shards)), MatchingEach(all, IdLists(shards)), limit + 1, RecordLeq(dir))
    ensures AllSorted(RecordLists(AnswerEach(answer, shards)), RecordLeq(dir))
    ensures Flatten(PointLists(AnswerEach(answer, shards))) == []
  {
    var results := AnswerEach(answer, shards);
    AllListed(results);
    forall i | 0 <= i < |results|
      ensures Prefix(RecordLists(results)[i], MatchingEach(all, IdLists(shards))[i], limit + 1, RecordLeq(dir))
    {
      assert results[i] == answer(shards[i].ids);
    }
    AllEmpty(PointLists(results));
  }

  lemma {:induction false} AllEmpty(lists: seq<seq<Point>>)
    requires forall i :: 0 <= i < |lists| ==> lists[i] == []
    ensures Flatten(lists) == []
  {
    if lists != [] { AllEmpty(lists[1..]); }
  }

  ghost predicate Tidy(rows: seq<Row>, names: seq<string>, alphabet: Alphabet) {
    forall i :: 0 <= i < |rows| ==> WellFormed(names, rows[i].point.group) && Admits(names, alphabet, rows[i].point.group)
  }

  lemma {:induction false} TidyScan(rows: seq<Row>, ids: seq<int>, names: seq<string>, alphabet: Alphabet, g: Group)
    requires Tidy(rows, names, alphabet) && Has(Scan(rows, ids), g)
    ensures WellFormed(names, g) && Admits(names, alphabet, g)
  {
    assert Scan([], ids) == [];
    OneMore(rows, ids, g);
    if !(rows[0].stream in ids && rows[0].point.group == g) {
      forall i | 0 <= i < |rows[1..]|
        ensures WellFormed(names, rows[1..][i].point.group) && Admits(names, alphabet, rows[1..][i].point.group)
      {
        assert rows[1..][i] == rows[i + 1];
      }
      TidyScan(rows[1..], ids, names, alphabet, g);
    }
  }

  lemma TidySent(rows: seq<Row>, idLists: seq<seq<int>>, n: nat, dir: Direction, names: seq<string>, alphabet: Alphabet, p: Point)
    requires Tidy(rows, names, alphabet) && p in Flatten(Sent(ScanEach(rows, idLists), n, OrderOf(dir, names)))
    ensures WellFormed(names, p.group) && Admits(names, alphabet, p.group)
  {
    var parts, leq := ScanEach(rows, idLists), OrderOf(dir, names);
    OrderIsTotal(dir, names);
    var i := InSome(Sent(parts, n, leq), p);
    assert Has(Firsts(Answer(parts[i], leq), n), p.group);
    SentWasThere(parts[i], n, leq, p.group);
    TidyScan(rows, idLists[i], names, alphabet, p.group);
  }

  lemma {:induction false} InSome<T>(lists: seq<seq<T>>, x: T) returns (i: nat)
    requires x in Flatten(lists)
    ensures i < |lists| && x in lists[i]
  {
    assert Flatten<T>([]) == [];
    if x in lists[0] {
      i := 0;
    } else {
      i := InSome(lists[1..], x);
      i := i + 1;
    }
  }

  /** The whole of Run, every member answering: whatever the ring says of the streams and whichever
      members are ready, the answer is the single node's: the same groups, sums and flag, or first rows
      of all that match with the flag set iff more than `limit` do. */
  method Query(f: Stamp, parse: LevelParser, limit: nat, dir: Direction, names: seq<string>, aggregate: bool, self: string,
               lookup: Lookup, ids: seq<int>, answer: seq<int> -> ShardResult,
               ghost rows: seq<Row>, ghost all: seq<Record>, ghost alphabet: Alphabet)
    returns (out: Option<Result>)
    requires IsStamp(f) && ParsesNames(parse) && Honest(answer, rows, all, limit, dir, names, aggregate)
    requires aggregate ==> Tellable(names, alphabet) && Tidy(rows, names, alphabet)
    ensures out.Some? && out.value.warnings == []
    ensures aggregate ==>
              Series(out.value.points, out.value.truncated) == SingleNode(rows, ids, limit, OrderOf(dir, names))
    ensures !aggregate ==>
              && Prefix(out.value.records, Matching(all, ids), limit, RecordLeq(dir))
              && (out.value.truncated <==> |Matching(all, ids)| > limit)
  {
    var shards := ShardsOf(self, lookup, ids);
    ShardsPartition(self, lookup, ids, shards);
    var results := AnswerEach(answer, shards);
    if aggregate {
      out := QueryPoints(f, parse, limit, dir, names, shards, results, ids, answer, rows, all, alphabet);
    } else {
      out := QueryRecords(f, parse, limit, dir, names, shards, results, ids, answer, rows, all, alphabet);
    }
  }

  method QueryPoints(f: Stamp, parse: LevelParser, limit: nat, dir: Direction, names: seq<string>, shards: seq<Shard>,
                     results: seq<ShardResult>, ghost ids: seq<int>, ghost answer: seq<int> -> ShardResult,
                     ghost rows: seq<Row>, ghost all: seq<Record>, ghost alphabet: Alphabet)
    returns (out: Option<Result>)
    requires IsStamp(f) && ParsesNames(parse) && Honest(answer, rows, all, limit, dir, names, true)
    requires Tellable(names, alphabet) && Tidy(rows, names, alphabet) && results == AnswerEach(answer, shards)
    requires Disjoint(IdLists(shards)) && forall id :: id in Flatten(IdLists(shards)) <==> id in ids
    ensures out.Some? && out.value.warnings == []
    ensures Series(out.value.points, out.value.truncated) == SingleNode(rows, ids, limit, OrderOf(dir, names))
  {
    HonestPoints(answer, rows, all, limit, dir, names, shards);
    AllListed(results);
    forall p | p in Flatten(PointLists(results))
      ensures WellFormed(names, p.group) && Admits(names, alphabet, p.group)
    {
      TidySent(rows, IdLists(shards), limit + 1, dir, names, alphabet, p);
    }
    FanOutIsSingleNode(rows, ids, IdLists(shards), limit, dir, names);
    out := Run(f, parse, limit, dir, names, true, shards, results, false, alphabet);
  }

  method QueryRecords(f: Stamp, parse: LevelParser, limit: nat, dir: Direction, names: seq<string>, shards: seq<Shard>,
                      results: seq<ShardResult>, ghost ids: seq<int>, ghost answer: seq<int> -> ShardResult,
                      ghost rows: seq<Row>, ghost all: seq<Record>, ghost alphabet: Alphabet)
    returns (out: Option<Result>)
    requires IsStamp(f) && ParsesNames(parse) && Honest(answer, rows, all, limit, dir, names, false)
    requires results == AnswerEach(answer, shards)
    requires Disjoint(IdLists(shards)) && forall id :: id in Flatten(IdLists(shards)) <==> id in ids
    ensures out.Some? && out.value.warnings == []
    ensures Prefix(out.value.records, Matching(all, ids), limit, RecordLeq(dir))
    ensures out.value.truncated <==> |Matching(all, ids)| > limit
  {
    HonestRecords(answer, rows, all, limit, dir, names, shards);
    AllListed(results);
    out := Run(f, parse, limit, dir, names, false, shards, results, false, alphabet);
    FanOutRecordsArePrefix(all, ids, IdLists(shards), RecordLists(results), out.value.records, limit, dir);
  }
}
