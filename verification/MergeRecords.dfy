/** mergeRecords (internal/cluster/coordinator.go): the k-way merge of sorted shard lists. */
module MergeRecords {
  import opened Sorting
  import opened GroupOrder

  datatype Record = Record(time: int, seqNo: int, stream: int, message: string)

  type RecordOrder = (Record, Record) -> bool

  /** recordLess: time then seq, newest first for Backward. */
  predicate RecordLess(dir: Direction, a: Record, b: Record) {
    if a.time != b.time then if dir == Forward then a.time < b.time else a.time > b.time
    else if dir == Forward then a.seqNo < b.seqNo
    else a.seqNo > b.seqNo
  }

  function RecordLeq(dir: Direction): RecordOrder {
    (a, b) => !RecordLess(dir, b, a)
  }

  lemma RecordPreorder(dir: Direction)
    ensures Preorder(RecordLeq(dir))
  {
  }

  /** A correct answer of at most n rows: sorted, n rows or all there are, and no row left out sorts
      before one that was kept. */
  ghost predicate Prefix(out: seq<Record>, all: multiset<Record>, n: nat, leq: RecordOrder) {
    && Sorted(out, leq)
    && multiset(out) <= all
    && |out| == (if |all| <= n then |all| else n)
    && forall x, y :: x in out && y in all - multiset(out) ==> leq(x, y)
  }

  /** What the order of records is: times never fall going forward and never rise going backward, and
      sequence numbers do the same where the time stands still. */
  lemma SortedIsChronological(records: seq<Record>, dir: Direction)
    ensures Sorted(records, RecordLeq(dir)) <==> forall i, j :: 0 <= i < j < |records| ==> Follows(dir, records[i], records[j])
  {
    assert forall a, b :: RecordLeq(dir)(a, b) <==> Follows(dir, a, b);
  }

  predicate Follows(dir: Direction, a: Record, b: Record) {
    match dir
    case Forward => a.time < b.time || (a.time == b.time && a.seqNo <= b.seqNo)
    case Backward => a.time > b.time || (a.time == b.time && a.seqNo >= b.seqNo)
  }

  datatype Cursor = Cursor(shard: nat, rec: Record)

  /** What heap.Pop promises: a least cursor, and the others left. */
  method PopLeast(items: seq<Cursor>, leq: RecordOrder) returns (k: nat)
    requires items != [] && Preorder(leq)
    ensures k < |items| && forall i :: 0 <= i < |items| ==> leq(items[k].rec, items[i].rec)
  {
    k := 0;
    for i := 1 to |items|
      invariant k < |items|
      invariant forall j :: 0 <= j < i ==> leq(items[k].rec, items[j].rec)
    {
      if !leq(items[k].rec, items[i].rec) {
        k := i;
      }
    }
  }

  /** The rows before and from the positions on. */
  function Taken(shards: seq<seq<Record>>, pos: seq<nat>): multiset<Record>
    requires Positions(shards, pos)
  {
    if shards == [] then multiset{} else multiset(shards[0][..pos[0]]) + Taken(shards[1..], pos[1..])
  }

  function Everything(shards: seq<seq<Record>>): multiset<Record> {
    if shards == [] then multiset{} else multiset(shards[0]) + Everything(shards[1..])
  }

  predicate Positions(shards: seq<seq<Record>>, pos: seq<nat>) {
    |pos| == |shards| && forall i :: 0 <= i < |pos| ==> pos[i] <= |shards[i]|
  }

  lemma {:induction false} TakenStep(shards: seq<seq<Record>>, pos: seq<nat>, k: nat)
    requires Positions(shards, pos) && k < |pos| && pos[k] < |shards[k]|
    ensures Positions(shards, pos[k := pos[k] + 1])
    ensures Taken(shards, pos[k := pos[k] + 1]) == Taken(shards, pos) + multiset{shards[k][pos[k]]}
  {
    var next := pos[k := pos[k] + 1];
    if k == 0 {
      assert shards[0][..pos[0] + 1] == shards[0][..pos[0]] + [shards[0][pos[0]]];
      assert next[1..] == pos[1..];
    } else {
      TakenStep(shards[1..], pos[1..], k - 1);
      assert next[1..] == pos[1..][k - 1 := pos[k] + 1];
    }
  }

  lemma {:induction false} TakenNone(shards: seq<seq<Record>>, pos: seq<nat>)
    requires Positions(shards, pos) && forall i :: 0 <= i < |pos| ==> pos[i] == 0
    ensures Taken(shards, pos) == multiset{}
  {
    if shards != [] {
      TakenNone(shards[1..], pos[1..]);
    }
  }

  /** A row not taken stands at or after a position. */
  lemma {:induction false} LeftIsAhead(shards: seq<seq<Record>>, pos: seq<nat>, y: Record) returns (i: nat, j: nat)
    requires Positions(shards, pos) && y in Everything(shards) - Taken(shards, pos)
    ensures i < |shards| && pos[i] <= j < |shards[i]| && shards[i][j] == y
  {
    var rest := shards[0][pos[0]..];
    assert shards[0] == shards[0][..pos[0]] + rest;
    if y in rest {
      i := 0;
      var k :| 0 <= k < |rest| && rest[k] == y;
      j := pos[0] + k;
    } else {
      i, j := LeftIsAhead(shards[1..], pos[1..], y);
      i := i + 1;
    }
  }

  lemma {:induction false} TakenAtMost(shards: seq<seq<Record>>, pos: seq<nat>)
    requires Positions(shards, pos)
    ensures Taken(shards, pos) <= Everything(shards)
    ensures (forall i :: 0 <= i < |pos| ==> pos[i] == |shards[i]|) ==> Taken(shards, pos) == Everything(shards)
  {
    if shards != [] {
      TakenAtMost(shards[1..], pos[1..]);
      assert shards[0] == shards[0][..pos[0]] + shards[0][pos[0]..];
    }
  }

  /** The heap holds the next row of every shard that has one. */
  ghost predicate Heads(shards: seq<seq<Record>>, pos: seq<nat>, items: seq<Cursor>)
    requires Positions(shards, pos)
  {
    && (forall c :: c in items ==> c.shard < |shards| && pos[c.shard] < |shards[c.shard]| && c.rec == shards[c.shard][pos[c.shard]])
    && (forall a, b :: 0 <= a < b < |items| ==> items[a].shard != items[b].shard)
    && (forall i :: 0 <= i < |shards| && pos[i] < |shards[i]| ==> Cursor(i, shards[i][pos[i]]) in items)
  }

  ghost predicate AllSorted(shards: seq<seq<Record>>, leq: RecordOrder) {
    forall i :: 0 <= i < |shards| ==> Sorted(shards[i], leq)
  }

  /** Every row taken sorts no later than any row ahead. */
  ghost predicate Below(shards: seq<seq<Record>>, pos: seq<nat>, out: seq<Record>, leq: RecordOrder)
    requires Positions(shards, pos)
  {
    forall x, i, j :: x in out && 0 <= i < |shards| && pos[i] <= j < |shards[i]| ==> leq(x, shards[i][j])
  }

  /** The cursors after shard k's was popped and its successor pushed. */
  function NextHeads(shards: seq<seq<Record>>, pos: seq<nat>, items: seq<Cursor>, k: nat): seq<Cursor>
    requires Positions(shards, pos) && k < |items| && items[k].shard < |shards|
  {
    var popped, s := items[..k] + items[k + 1..], items[k].shard;
    if pos[s] + 1 < |shards[s]| then popped + [Cursor(s, shards[s][pos[s] + 1])] else popped
  }

  lemma Popped(items: seq<Cursor>, k: nat)
    requires k < |items| && forall a, b :: 0 <= a < b < |items| ==> items[a].shard != items[b].shard
    ensures var popped := items[..k] + items[k + 1..];
            && (forall a, b :: 0 <= a < b < |popped| ==> popped[a].shard != popped[b].shard)
            && (forall c :: c in popped <==> c in items && c.shard != items[k].shard)
  {
    var popped := items[..k] + items[k + 1..];
    forall c
      ensures c in popped <==> c in items && c.shard != items[k].shard
    {
      if c in popped {
        var a :| 0 <= a < |popped| && popped[a] == c;
        assert c == items[if a < k then a else a + 1];
      }
      if c in items && c.shard != items[k].shard {
        var a :| 0 <= a < |items| && items[a] == c;
        assert popped[if a < k then a else a - 1] == c;
      }
    }
  }

  lemma HeadsStep(shards: seq<seq<Record>>, pos: seq<nat>, items: seq<Cursor>, k: nat)
    requires Positions(shards, pos) && Heads(shards, pos, items) && k < |items|
    ensures items[k].shard < |shards| && pos[items[k].shard] < |shards[items[k].shard]|
    ensures var s := items[k].shard; var next := pos[s := pos[s] + 1];
            Positions(shards, next) && Heads(shards, next, NextHeads(shards, pos, items, k))
  {
    assert items[k] in items;
    var s := items[k].shard;
    var next, popped, now := pos[s := pos[s] + 1], items[..k] + items[k + 1..], NextHeads(shards, pos, items, k);
    Popped(items, k);
    if pos[s] + 1 < |shards[s]| {
      var c := Cursor(s, shards[s][pos[s] + 1]);
      forall a | 0 <= a < |popped|
        ensures popped[a].shard != s
      {
        assert popped[a] in popped;
      }
      assert forall d :: d in now <==> d in popped || d == c;
    }
  }

  lemma LeastIsLeast(shards: seq<seq<Record>>, pos: seq<nat>, items: seq<Cursor>, k: nat, leq: RecordOrder)
    requires Positions(shards, pos) && Heads(shards, pos, items) && AllSorted(shards, leq) && Preorder(leq)
    requires k < |items| && forall i :: 0 <= i < |items| ==> leq(items[k].rec, items[i].rec)
    ensures forall i, j :: 0 <= i < |shards| && pos[i] <= j < |shards[i]| ==> leq(items[k].rec, shards[i][j])
  {
    forall i, j | 0 <= i < |shards| && pos[i] <= j < |shards[i]|
      ensures leq(items[k].rec, shards[i][j])
    {
      var c := Cursor(i, shards[i][pos[i]]);
      assert c in items;
      var a :| 0 <= a < |items| && items[a] == c;
      assert leq(items[k].rec, c.rec);
      if pos[i] < j { assert leq(shards[i][pos[i]], shards[i][j]); }
    }
  }

  lemma BelowStep(shards: seq<seq<Record>>, pos: seq<nat>, out: seq<Record>, s: nat, leq: RecordOrder)
    requires Positions(shards, pos) && s < |shards| && pos[s] < |shards[s]| && Below(shards, pos, out, leq) && Sorted(out, leq)
    requires forall i, j :: 0 <= i < |shards| && pos[i] <= j < |shards[i]| ==> leq(shards[s][pos[s]], shards[i][j])
    ensures Below(shards, pos[s := pos[s] + 1], out + [shards[s][pos[s]]], leq)
    ensures Sorted(out + [shards[s][pos[s]]], leq)
  {
    forall i | 0 <= i < |out|
      ensures leq(out[i], shards[s][pos[s]])
    {
      assert out[i] in out;
    }
  }

  /** The next row of every shard that has one. */
  method FirstCursors(shards: seq<seq<Record>>, ghost pos: seq<nat>) returns (items: seq<Cursor>)
    requires Positions(shards, pos) && forall i :: 0 <= i < |pos| ==> pos[i] == 0
    ensures Heads(shards, pos, items)
  {
    items := [];
    for i := 0 to |shards|
      invariant forall c :: c in items ==> c.shard < i && shards[c.shard] != [] && c.rec == shards[c.shard][0]
      invariant forall a, b :: 0 <= a < b < |items| ==> items[a].shard != items[b].shard
      invariant forall n :: 0 <= n < i && shards[n] != [] ==> Cursor(n, shards[n][0]) in items
    {
      if |shards[i]| > 0 {
        assert forall a :: 0 <= a < |items| ==> items[a] in items;
        items := items + [Cursor(i, shards[i][0])];
      }
    }
  }

  /** mergeRecords: the first `limit` rows of all rows together. */
  method MergeShardRecords(shards: seq<seq<Record>>, dir: Direction, limit: nat) returns (out: seq<Record>)
    requires AllSorted(shards, RecordLeq(dir))
    ensures Prefix(out, Everything(shards), limit, RecordLeq(dir))
  {
    var leq := RecordLeq(dir);
    RecordPreorder(dir);
    var pos: seq<nat> := seq(|shards|, _ => 0);
    TakenNone(shards, pos);
    var items := FirstCursors(shards, pos);
    out := [];
    while |items| > 0 && |out| < limit
      invariant Positions(shards, pos) && Heads(shards, pos, items)
      invariant Below(shards, pos, out, leq) && Sorted(out, leq)
      invariant multiset(out) == Taken(shards, pos) && |out| <= limit
      decreases limit - |out|
    {
      var k := PopLeast(items, leq);
      assert items[k] in items;
      var s := items[k].shard;
      LeastIsLeast(shards, pos, items, k, leq);
      HeadsStep(shards, pos, items, k);
      TakenStep(shards, pos, s);
      BelowStep(shards, pos, out, s, leq);
      out := out + [items[k].rec];
      items := NextHeads(shards, pos, items, k);
      pos := pos[s := pos[s] + 1];
    }
    MergeIsPrefix(shards, pos, items, out, limit, leq);
  }

  lemma MergeIsPrefix(shards: seq<seq<Record>>, pos: seq<nat>, items: seq<Cursor>, out: seq<Record>, limit: nat, leq: RecordOrder)
    requires Positions(shards, pos) && Heads(shards, pos, items) && Below(shards, pos, out, leq) && Sorted(out, leq)
    requires multiset(out) == Taken(shards, pos) && |out| <= limit && (items == [] || |out| == limit)
    ensures Prefix(out, Everything(shards), limit, leq)
  {
    var all := Everything(shards);
    TakenAtMost(shards, pos);
    assert |out| == |multiset(out)|;
    assert |all| == |all - multiset(out)| + |multiset(out)|;
    assert items == [] ==> multiset(out) == all;
    forall x, y | x in out && y in all - multiset(out)
      ensures leq(x, y)
    {
      var i, j := LeftIsAhead(shards, pos, y);
    }
  }

  /** The rows of all shards together. */
  function Union(alls: seq<multiset<Record>>): multiset<Record> {
    if alls == [] then multiset{} else alls[0] + Union(alls[1..])
  }

  ghost predicate Answers(lists: seq<seq<Record>>, alls: seq<multiset<Record>>, n: nat, leq: RecordOrder) {
    |lists| == |alls| && forall i :: 0 <= i < |lists| ==> Prefix(lists[i], alls[i], n, leq)
  }

  lemma {:induction false} AnswersAreRows(lists: seq<seq<Record>>, alls: seq<multiset<Record>>, n: nat, leq: RecordOrder)
    requires Answers(lists, alls, n, leq)
    ensures Everything(lists) <= Union(alls)
    ensures |Union(alls)| <= n ==> Everything(lists) == Union(alls)
    ensures |Union(alls)| > n ==> |Everything(lists)| >= n
  {
    if lists != [] {
      assert Prefix(lists[0], alls[0], n, leq);
      AnswersAreRows(lists[1..], alls[1..], n, leq);
      assert |multiset(lists[0])| == |lists[0]|;
      assert alls[0] == multiset(lists[0]) + (alls[0] - multiset(lists[0]));
      assert |alls[0]| == |multiset(lists[0])| + |alls[0] - multiset(lists[0])|;
    }
  }

  /** A row no list holds was cut off the end of some shard's full list. */
  lemma {:induction false} CutOff(lists: seq<seq<Record>>, alls: seq<multiset<Record>>, n: nat, leq: RecordOrder, y: Record)
    returns (i: nat)
    requires Answers(lists, alls, n, leq) && y in Union(alls) - Everything(lists)
    ensures i < |lists| && y in alls[i] - multiset(lists[i]) && multiset(lists[i]) <= Everything(lists)
  {
    assert Prefix(lists[0], alls[0], n, leq);
    if y in alls[0] - multiset(lists[0]) {
      i := 0;
    } else {
      i := CutOff(lists[1..], alls[1..], n, leq, y);
      i := i + 1;
    }
  }

  lemma SomethingMissing(a: multiset<Record>, b: multiset<Record>) returns (z: Record)
    requires |a| >= |b| && a != b
    ensures z in a - b
  {
    assert a <= b ==> b == a + (b - a) && |b| == |a| + |b - a|;
    z :| z in a && a[z] > b[z];
  }

  /** The first m rows of lists of the first n rows each, n being no less, are first m rows of everything. */
  lemma PrefixOfPrefixes(out: seq<Record>, lists: seq<seq<Record>>, alls: seq<multiset<Record>>, m: nat, n: nat, leq: RecordOrder)
    requires Preorder(leq) && m <= n && Answers(lists, alls, n, leq) && Prefix(out, Everything(lists), m, leq)
    ensures Prefix(out, Union(alls), m, leq)
    ensures n > m ==> (|Everything(lists)| > m <==> |Union(alls)| > m)
  {
    AnswersAreRows(lists, alls, n, leq);
    forall x, y | x in out && y in Union(alls) - multiset(out)
      ensures leq(x, y)
    {
      if y !in Everything(lists) - multiset(out) {
        assert y in Union(alls) - Everything(lists);
        var i := CutOff(lists, alls, n, leq, y);
        FullListIsBelow(out, lists[i], alls[i], Everything(lists), m, n, leq, x, y);
      }
    }
  }

  lemma FullListIsBelow(out: seq<Record>, list: seq<Record>, all: multiset<Record>, lists: multiset<Record>, m: nat, n: nat, leq: RecordOrder, x: Record, y: Record)
    requires Preorder(leq) && m <= n && Prefix(list, all, n, leq) && Prefix(out, lists, m, leq) && multiset(list) <= lists
    requires x in out && y in all - multiset(list)
    ensures leq(x, y)
  {
    assert all == multiset(list) + (all - multiset(list));
    assert |all| == |multiset(list)| + |all - multiset(list)|;
    assert |list| == n == |multiset(list)|;
    assert |out| <= m && |out| == |multiset(out)|;
    if multiset(out) == multiset(list) {
      assert x in multiset(out);
    } else {
      var z := SomethingMissing(multiset(list), multiset(out));
      assert z in list && z in lists - multiset(out);
      assert leq(x, z) && leq(z, y);
    }
  }

  /** Cutting a correct answer of n + 1 rows to n rows, and what its length says. */
  lemma CutPrefix(out: seq<Record>, all: multiset<Record>, n: nat, leq: RecordOrder)
    requires Prefix(out, all, n + 1, leq)
    ensures |out| > n <==> |all| > n
    ensures Prefix(if |out| > n then out[..n] else out, all, n, leq)
  {
    if |out| > n {
      var kept := out[..n];
      assert out == kept + [out[n]];
      assert multiset(out) == multiset(kept) + multiset{out[n]};
      forall x, y | x in kept && y in all - multiset(kept)
        ensures leq(x, y)
      {
        assert x in out;
        if y !in all - multiset(out) {
          assert y == out[n];
        }
      }
    }
  }
}
