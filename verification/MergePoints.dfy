/** mergePoints (internal/cluster/coordinator.go): adds up the series of the shards. */
module MergePoints {
  import opened Sorting
  import opened GroupOrder
  import opened PointKeys
  import opened Aggregation

  /** The sums so far by key, and the keys in the order they were first seen. */
  datatype Sums = Sums(merged: map<string, Point>, keys: seq<string>)

  function Add(f: Stamp, s: Sums, p: Point): Sums {
    var k := PointKey(f, p.group);
    if k in s.merged then s.(merged := s.merged[k := s.merged[k].(value := s.merged[k].value + p.value)])
    else Sums(s.merged[k := p], s.keys + [k])
  }

  ghost predicate Keyed(f: Stamp, s: Sums) {
    && (forall i, j :: 0 <= i < j < |s.keys| ==> s.keys[i] != s.keys[j])
    && (forall k :: k in s.keys <==> k in s.merged)
    && (forall k :: k in s.merged ==> PointKey(f, s.merged[k].group) == k)
  }

  /** No two groups that occur share a key. */
  ghost predicate Apart(f: Stamp, ps: seq<Point>) {
    forall g, h :: Has(ps, g) && Has(ps, h) && PointKey(f, g) == PointKey(f, h) ==> g == h
  }

  /** Every group that occurs has its sum. */
  ghost predicate Tallied(f: Stamp, ps: seq<Point>, s: Sums) {
    && (forall g :: Has(ps, g) ==> PointKey(f, g) in s.merged && s.merged[PointKey(f, g)] == Point(g, Weight(ps, g)))
    && (forall k :: k in s.merged ==> Has(ps, s.merged[k].group))
  }

  lemma AddKeyed(f: Stamp, s: Sums, p: Point)
    requires Keyed(f, s)
    ensures Keyed(f, Add(f, s, p))
  {
  }

  lemma OnePoint(p: Point, g: Group)
    ensures Has([p], g) <==> p.group == g
    ensures Weight([p], g) == if p.group == g then p.value else 0.0
  {
    assert [p][0] == p;
    assert Weight([p][1..], g) == 0.0;
  }

  lemma AddTallied(f: Stamp, ps: seq<Point>, s: Sums, p: Point)
    requires Keyed(f, s) && Tallied(f, ps, s) && Apart(f, ps + [p])
    ensures Tallied(f, ps + [p], Add(f, s, p))
  {
    var now := Add(f, s, p);
    forall g
      ensures Has(ps + [p], g) <==> Has(ps, g) || p.group == g
      ensures Weight(ps + [p], g) == Weight(ps, g) + (if p.group == g then p.value else 0.0)
    {
      HasConcat(ps, [p], g);
      WeightConcat(ps, [p], g);
      OnePoint(p, g);
    }
    var kp := PointKey(f, p.group);
    assert kp in s.merged ==> s.merged[kp].group == p.group by {
      if kp in s.merged {
        assert Has(ps + [p], s.merged[kp].group) && Has(ps + [p], p.group);
      }
    }
    if !Has(ps, p.group) { AbsentWeighsNothing(ps, p.group); }
    forall g | Has(ps + [p], g)
      ensures PointKey(f, g) in now.merged && now.merged[PointKey(f, g)] == Point(g, Weight(ps + [p], g))
    {
      if g != p.group {
        assert Has(ps + [p], p.group);
        assert PointKey(f, g) != kp;
      } else if Has(ps, g) {
        assert s.merged[kp] == Point(g, Weight(ps, g));
      }
    }
  }

  /** The points in the order of the keys. */
  function Listed(s: Sums): (r: seq<Point>)
    requires forall k :: k in s.keys ==> k in s.merged
    ensures |r| == |s.keys| && forall i :: 0 <= i < |r| ==> r[i] == s.merged[s.keys[i]]
  {
    seq(|s.keys|, i requires 0 <= i < |s.keys| => assert s.keys[i] in s.keys; s.merged[s.keys[i]])
  }

  lemma ListedAlike(f: Stamp, ps: seq<Point>, s: Sums)
    requires Keyed(f, s) && Tallied(f, ps, s)
    ensures Alike(Listed(s), ps) && DistinctGroups(Listed(s))
  {
    var out := Listed(s);
    forall i | 0 <= i < |out|
      ensures out[i].group in set p | p in out :: p.group
      ensures PointKey(f, out[i].group) == s.keys[i]
    {
      assert s.keys[i] in s.keys;
    }
    assert DistinctGroups(out);
    forall g
      ensures (Has(out, g) <==> Has(ps, g)) && Weight(out, g) == Weight(ps, g)
    {
      if Has(ps, g) {
        assert PointKey(f, g) in s.keys;
        var i :| 0 <= i < |s.keys| && s.keys[i] == PointKey(f, g);
        assert out[i] == Point(g, Weight(ps, g));
        WeightOfDistinct(out, i);
      } else {
        forall i | 0 <= i < |out|
          ensures out[i].group != g
        {
          assert s.keys[i] in s.keys;
          assert Has(ps, out[i].group);
        }
        AbsentWeighsNothing(out, g);
        AbsentWeighsNothing(ps, g);
      }
    }
  }

  ghost predicate DistinctGroups(ps: seq<Point>) {
    forall i, j :: 0 <= i < j < |ps| ==> ps[i].group != ps[j].group
  }

  type PointOrder = (Point, Point) -> bool

  /** Go's less function as the order sort.SliceStable sorts by. */
  function SliceOrder(parse: LevelParser, dir: Direction, names: seq<string>): PointOrder {
    (a: Point, b: Point) => !PointLess(parse, dir, names, b.group, a.group)
  }

  lemma {:induction false} InsertAgrees(x: Point, ps: seq<Point>, leq: PointOrder, leq2: PointOrder)
    requires forall p :: p in ps ==> leq(x, p) == leq2(x, p)
    ensures Insert(x, ps, leq) == Insert(x, ps, leq2)
  {
    if ps != [] {
      assert ps[0] in ps;
      InsertAgrees(x, ps[1..], leq, leq2);
    }
  }

  lemma {:induction false} SortAgrees(ps: seq<Point>, leq: PointOrder, leq2: PointOrder)
    requires forall p, q :: p in ps && q in ps ==> leq(p, q) == leq2(p, q)
    ensures Sort(ps, leq) == Sort(ps, leq2)
  {
    if ps != [] {
      SortAgrees(ps[1..], leq, leq2);
      SortMembers(ps[1..], leq);
      assert ps[0] in ps;
      InsertAgrees(ps[0], Sort(ps[1..], leq), leq, leq2);
    }
  }

  function ByGroup(leq: Order): PointOrder {
    (a: Point, b: Point) => leq(a.group, b.group)
  }

  lemma ByGroupPreorder(leq: Order)
    requires TotalOrder(leq)
    ensures Preorder(ByGroup(leq))
  {
    var by_group := ByGroup(leq);
    forall a, b
      ensures by_group(a, b) || by_group(b, a)
    {
      assert leq(a.group, b.group) || leq(b.group, a.group);
    }
    forall a, b, c | by_group(a, b) && by_group(b, c)
      ensures by_group(a, c)
    {
      assert leq(a.group, b.group) && leq(b.group, c.group);
    }
  }

  /** Sorting points of distinct groups is the answer over them. */
  lemma SortedIsAnswer(ps: seq<Point>, leq: Order)
    requires TotalOrder(leq) && DistinctGroups(ps)
    ensures Sort(ps, ByGroup(leq)) == Answer(ps, leq)
  {
    var out := Sort(ps, ByGroup(leq));
    ByGroupPreorder(leq);
    SortSorts(ps, ByGroup(leq));
    SortPermutes(ps, ByGroup(leq));
    SortMembers(ps, ByGroup(leq));
    SortKeepsDistinct(ps, out);
    GroupListStrict(ps, leq);
    var gs, list := Groups(out), GroupList(ps, leq);
    forall i, j | 0 <= i < j < |gs|
      ensures leq(gs[i], gs[j]) && gs[i] != gs[j]
    {
      assert ByGroup(leq)(out[i], out[j]);
    }
    forall g
      ensures g in gs <==> g in list
    {
      SameGroups(ps, out, g);
    }
    StrictUnique(gs, list, leq);
    forall i | 0 <= i < |out|
      ensures out[i] == Point(list[i], Weight(ps, list[i]))
    {
      assert gs[i] == list[i] && out[i] in ps;
      var k :| 0 <= k < |ps| && ps[k] == out[i];
      WeightOfDistinct(ps, k);
    }
  }

  lemma SameGroups(ps: seq<Point>, out: seq<Point>, g: Group)
    requires forall p :: p in ps <==> p in out
    ensures g in Groups(out) <==> Has(ps, g)
  {
    if Has(ps, g) {
      var i :| 0 <= i < |ps| && ps[i].group == g;
      assert ps[i] in out;
      var k :| 0 <= k < |out| && out[k] == ps[i];
      assert Groups(out)[k] == g;
    }
    if g in Groups(out) {
      var k :| 0 <= k < |out| && Groups(out)[k] == g;
      assert out[k] in ps;
    }
  }

  lemma SortKeepsDistinct(ps: seq<Point>, out: seq<Point>)
    requires multiset(ps) == multiset(out) && DistinctGroups(ps)
    ensures DistinctGroups(out)
  {
    SameBag(ps, out);
    forall p | p in ps
      ensures multiset(ps)[p] == 1
    {
      OnceInDistinct(ps, p);
    }
    forall i, j | 0 <= i < j < |out|
      ensures out[i].group != out[j].group
    {
      assert out[i] in ps && out[j] in ps;
      var k :| 0 <= k < |ps| && ps[k] == out[i];
      var l :| 0 <= l < |ps| && ps[l] == out[j];
      TwiceCountsTwo(out, i, j);
    }
  }

  lemma OnceInDistinct(ps: seq<Point>, p: Point)
    requires DistinctGroups(ps) && p in ps
    ensures multiset(ps)[p] == 1
  {
    var k :| 0 <= k < |ps| && ps[k] == p;
    assert ps == ps[..k] + [p] + ps[k + 1..];
    assert p !in ps[..k] && p !in ps[k + 1..];
  }

  lemma TwiceCountsTwo(ps: seq<Point>, i: nat, j: nat)
    requires i < j < |ps|
    ensures ps[i] == ps[j] ==> multiset(ps)[ps[i]] >= 2
  {
    assert ps == ps[..i] + [ps[i]] + ps[i + 1..j] + [ps[j]] + ps[j + 1..];
  }

  /** All values together, which merging keeps whatever the keys are. */
  function Total(ps: seq<Point>): real {
    if ps == [] then 0.0 else ps[0].value + Total(ps[1..])
  }

  lemma {:induction false} TotalConcat(a: seq<Point>, b: seq<Point>)
    ensures Total(a + b) == Total(a) + Total(b)
  {
    if a == [] {
      assert a + b == b;
    } else {
      TotalConcat(a[1..], b);
      assert (a + b)[1..] == a[1..] + b;
    }
  }

  lemma {:induction false} TotalInsert(x: Point, ps: seq<Point>, leq: PointOrder)
    ensures Total(Insert(x, ps, leq)) == x.value + Total(ps)
  {
    if ps == [] || leq(x, ps[0]) {
      assert ([x] + ps)[1..] == ps;
    } else {
      TotalInsert(x, ps[1..], leq);
      assert ([ps[0]] + Insert(x, ps[1..], leq))[1..] == Insert(x, ps[1..], leq);
    }
  }

  lemma {:induction false} TotalSort(ps: seq<Point>, leq: PointOrder)
    ensures Total(Sort(ps, leq)) == Total(ps)
  {
    if ps != [] {
      TotalSort(ps[1..], leq);
      TotalInsert(ps[0], Sort(ps[1..], leq), leq);
    }
  }

  lemma TotalAdd(f: Stamp, s: Sums, p: Point)
    requires Keyed(f, s)
    ensures Keyed(f, Add(f, s, p)) && Total(Listed(Add(f, s, p))) == Total(Listed(s)) + p.value
  {
    AddKeyed(f, s, p);
    if PointKey(f, p.group) in s.merged {
      TotalRaise(f, s, p);
    } else {
      TotalAppend(f, s, p);
    }
  }

  lemma TotalRaise(f: Stamp, s: Sums, p: Point)
    requires Keyed(f, s) && PointKey(f, p.group) in s.merged && Keyed(f, Add(f, s, p))
    ensures Total(Listed(Add(f, s, p))) == Total(Listed(s)) + p.value
  {
    var k, now := PointKey(f, p.group), Add(f, s, p);
    var was, out := Listed(s), Listed(now);
    assert k in s.keys;
    var i :| 0 <= i < |s.keys| && s.keys[i] == k;
    ListedRaised(s, now, i, out[i]);
    TotalUpdate(was, i, out[i]);
  }

  lemma ListedRaised(s: Sums, now: Sums, i: nat, q: Point)
    requires forall k :: k in s.keys ==> k in s.merged
    requires forall a, b :: 0 <= a < b < |s.keys| ==> s.keys[a] != s.keys[b]
    requires i < |s.keys| && now == Sums(s.merged[s.keys[i] := q], s.keys)
    ensures Listed(now) == Listed(s)[i := q]
  {
    forall j | 0 <= j < |s.keys|
      ensures Listed(now)[j] == Listed(s)[i := q][j]
    {
      assert s.keys[j] in s.keys;
      if j != i { assert s.keys[j] != s.keys[i]; }
    }
  }

  lemma TotalAppend(f: Stamp, s: Sums, p: Point)
    requires Keyed(f, s) && PointKey(f, p.group) !in s.merged && Keyed(f, Add(f, s, p))
    ensures Total(Listed(Add(f, s, p))) == Total(Listed(s)) + p.value
  {
    var now := Add(f, s, p);
    var was, out := Listed(s), Listed(now);
    forall j | 0 <= j < |was|
      ensures out[j] == was[j]
    {
      assert now.keys[j] == s.keys[j] && s.keys[j] in s.keys;
    }
    assert out == was + [p];
    TotalConcat(was, [p]);
    assert [p][1..] == [];
  }

  lemma TotalUpdate(ps: seq<Point>, i: nat, q: Point)
    requires i < |ps|
    ensures Total(ps[i := q]) == Total(ps) - ps[i].value + q.value
  {
    assert ps == ps[..i] + [ps[i]] + ps[i + 1..];
    assert ps[i := q] == ps[..i] + [q] + ps[i + 1..];
    TotalAround(ps[..i], ps[i], ps[i + 1..]);
    TotalAround(ps[..i], q, ps[i + 1..]);
  }

  lemma TotalAround(a: seq<Point>, p: Point, b: seq<Point>)
    ensures Total(a + [p] + b) == Total(a) + p.value + Total(b)
  {
    TotalConcat(a + [p], b);
    TotalConcat(a, [p]);
    assert [p][1..] == [];
  }

  lemma {:induction false} FlattenSnoc<T>(xss: seq<seq<T>>, xs: seq<T>)
    ensures Flatten(xss + [xs]) == Flatten(xss) + xs
  {
    if xss == [] {
      assert (xss + [xs])[1..] == [];
      assert Flatten(xss + [xs]) == xs + [];
    } else {
      FlattenSnoc(xss[1..], xs);
      assert (xss + [xs])[1..] == xss[1..] + [xs];
    }
  }

  lemma {:induction false} FlattenHas(xss: seq<seq<Point>>, i: nat, j: nat)
    requires i < |xss| && j < |xss[i]|
    ensures xss[i][j] in Flatten(xss)
  {
    if i > 0 { FlattenHas(xss[1..], i - 1, j); }
  }

  lemma ApartWhen(f: Stamp, names: seq<string>, ps: seq<Point>, alphabet: Alphabet)
    requires IsStamp(f) && Tellable(names, alphabet)
    requires forall p :: p in ps ==> WellFormed(names, p.group) && Admits(names, alphabet, p.group)
    ensures Apart(f, ps)
  {
    TellableTells(f, names, alphabet);
    forall g, h | Has(ps, g) && Has(ps, h) && PointKey(f, g) == PointKey(f, h)
      ensures g == h
    {
      var i :| 0 <= i < |ps| && ps[i].group == g;
      var j :| 0 <= j < |ps| && ps[j].group == h;
      assert ps[i] in ps && ps[j] in ps;
    }
  }

  /** The order the code sorts by gives the answer of the database. */
  lemma CodeOrderIsAnswer(parse: LevelParser, dir: Direction, names: seq<string>, ps: seq<Point>)
    requires ParsesNames(parse) && DistinctGroups(ps) && forall p :: p in ps ==> WellFormed(names, p.group)
    ensures Sort(ps, SliceOrder(parse, dir, names)) == Answer(ps, OrderOf(dir, names))
  {
    var leq := OrderOf(dir, names);
    OrderIsTotal(dir, names);
    forall p, q | p in ps && q in ps
      ensures SliceOrder(parse, dir, names)(p, q) == ByGroup(leq)(p, q)
    {
      LessIsOrder(parse, dir, names, q.group, p.group);
    }
    SortAgrees(ps, SliceOrder(parse, dir, names), ByGroup(leq));
    SortedIsAnswer(ps, leq);
  }

  /** The points were made from groups that came in. */
  ghost predicate From(ps: seq<Point>, s: Sums) {
    forall k :: k in s.merged ==> Has(ps, s.merged[k].group)
  }

  lemma AddFrom(f: Stamp, ps: seq<Point>, s: Sums, p: Point)
    requires From(ps, s)
    ensures From(ps + [p], Add(f, s, p))
  {
    forall k | k in Add(f, s, p).merged
      ensures Has(ps + [p], Add(f, s, p).merged[k].group)
    {
      var g := Add(f, s, p).merged[k].group;
      HasConcat(ps, [p], g);
      OnePoint(p, g);
    }
  }

  method SumShard(f: Stamp, s0: Sums, shard: seq<Point>, ghost all: seq<Point>, ghost seen: seq<Point>) returns (s: Sums)
    requires Gathered(f, seen, s0, Apart(f, all)) && seen + shard <= all
    ensures Gathered(f, seen + shard, s, Apart(f, all))
  {
    s := s0;
    assert seen + shard[..0] == seen;
    for j := 0 to |shard|
      invariant Gathered(f, seen + shard[..j], s, Apart(f, all))
    {
      assert seen + shard[..j + 1] == seen + shard[..j] + [shard[j]];
      assert seen + shard[..j + 1] <= seen + shard;
      Gather(f, all, seen + shard[..j], s, shard[j]);
      s := Add(f, s, shard[j]);
    }
    assert shard[..|shard|] == shard;
  }

  method SumUp(f: Stamp, shards: seq<seq<Point>>) returns (s: Sums)
    ensures Gathered(f, Flatten(shards), s, Apart(f, Flatten(shards)))
  {
    s := Sums(map[], []);
    for i := 0 to |shards|
      invariant Gathered(f, Flatten(shards[..i]), s, Apart(f, Flatten(shards)))
    {
      assert shards[..i + 1] == shards[..i] + [shards[i]];
      FlattenSnoc(shards[..i], shards[i]);
      FlattenPrefix(shards, i + 1);
      s := SumShard(f, s, shards[i], Flatten(shards), Flatten(shards[..i]));
    }
    assert shards[..|shards|] == shards;
  }

  /** mergePoints. Whenever the labels cannot confuse the keys (the values' alphabet is a ghost
      argument), the result is the grouped and ordered sum over all points of all shards; the values
      add up to those received in any case. */
  method MergeShardPoints(f: Stamp, parse: LevelParser, shards: seq<seq<Point>>, dir: Direction, names: seq<string>, ghost alphabet: Alphabet)
    returns (out: seq<Point>)
    requires IsStamp(f) && ParsesNames(parse)
    requires forall p :: p in Flatten(shards) ==> WellFormed(names, p.group)
    ensures Total(out) == Total(Flatten(shards))
    ensures Tellable(names, alphabet) && (forall p :: p in Flatten(shards) ==> Admits(names, alphabet, p.group)) ==>
              out == Answer(Flatten(shards), OrderOf(dir, names))
  {
    ghost var all := Flatten(shards);
    var s := SumUp(f, shards);
    var list := ListPoints(s);
    out := Sort(list, SliceOrder(parse, dir, names));
    TotalSort(list, SliceOrder(parse, dir, names));
    if Tellable(names, alphabet) && forall p :: p in Flatten(shards) ==> Admits(names, alphabet, p.group) {
      ApartWhen(f, names, all, alphabet);
      MergedIsAnswer(f, parse, dir, names, all, s);
    }
  }

  lemma MergedIsAnswer(f: Stamp, parse: LevelParser, dir: Direction, names: seq<string>, all: seq<Point>, s: Sums)
    requires ParsesNames(parse) && forall p :: p in all ==> WellFormed(names, p.group)
    requires Keyed(f, s) && From(all, s) && Tallied(f, all, s)
    ensures Sort(Listed(s), SliceOrder(parse, dir, names)) == Answer(all, OrderOf(dir, names))
  {
    ListedAlike(f, all, s);
    KeepsForm(f, all, s, names);
    CodeOrderIsAnswer(parse, dir, names, Listed(s));
    OrderIsTotal(dir, names);
    AlikeAnswers(Listed(s), all, OrderOf(dir, names));
  }

  method ListPoints(s: Sums) returns (list: seq<Point>)
    requires forall k :: k in s.keys ==> k in s.merged
    ensures list == Listed(s)
  {
    list := [];
    for i := 0 to |s.keys|
      invariant list == Listed(s)[..i]
    {
      assert s.keys[i] in s.keys;
      list := list + [s.merged[s.keys[i]]];
    }
  }

  /** What holds of the sums after the points `seen`. */
  ghost predicate Gathered(f: Stamp, seen: seq<Point>, s: Sums, apart: bool) {
    && Keyed(f, s) && From(seen, s) && Total(Listed(s)) == Total(seen)
    && (apart ==> Tallied(f, seen, s))
  }

  lemma Gather(f: Stamp, all: seq<Point>, seen: seq<Point>, s: Sums, p: Point)
    requires Gathered(f, seen, s, Apart(f, all)) && seen + [p] <= all
    ensures Gathered(f, seen + [p], Add(f, s, p), Apart(f, all))
  {
    TotalAdd(f, s, p);
    TotalConcat(seen, [p]);
    assert [p][1..] == [];
    AddFrom(f, seen, s, p);
    if Apart(f, all) {
      forall g | Has(seen + [p], g)
        ensures Has(all, g)
      {
        var i :| 0 <= i < |seen + [p]| && (seen + [p])[i].group == g;
        assert all[i].group == g;
      }
      AddTallied(f, seen, s, p);
    }
  }

  lemma {:induction false} FlattenPrefix(xss: seq<seq<Point>>, i: nat)
    requires i <= |xss|
    ensures Flatten(xss[..i]) <= Flatten(xss)
    decreases |xss| - i
  {
    if i == |xss| {
      assert xss[..i] == xss;
    } else {
      FlattenPrefix(xss, i + 1);
      assert xss[..i + 1] == xss[..i] + [xss[i]];
      FlattenSnoc(xss[..i], xss[i]);
    }
  }

  lemma KeepsForm(f: Stamp, ps: seq<Point>, s: Sums, names: seq<string>)
    requires Keyed(f, s) && From(ps, s) && forall p :: p in ps ==> WellFormed(names, p.group)
    ensures forall p :: p in Listed(s) ==> WellFormed(names, p.group)
  {
    var out := Listed(s);
    forall p | p in out
      ensures WellFormed(names, p.group)
    {
      var i :| 0 <= i < |out| && out[i] == p;
      assert s.keys[i] in s.keys;
      var k :| 0 <= k < |ps| && ps[k].group == p.group;
      assert ps[k] in ps;
    }
  }
}
