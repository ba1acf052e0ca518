/** A grouped sum with a row limit, on one node and spread over shards
    (internal/cluster/coordinator.go, internal/query/executor/executor.go). */
module Aggregation {
  import opened Sequences
  import opened Sorting
  import opened GroupOrder

  /** One weight of one group: what a log row contributes, and what a result point says. */
  datatype Point = Point(group: Group, value: real)

  function Groups(ps: seq<Point>): (r: seq<Group>)
    ensures |r| == |ps| && forall i :: 0 <= i < |ps| ==> r[i] == ps[i].group
  {
    seq(|ps|, i requires 0 <= i < |ps| => ps[i].group)
  }

  function Weight(ps: seq<Point>, g: Group): real {
    if ps == [] then 0.0 else (if ps[0].group == g then ps[0].value else 0.0) + Weight(ps[1..], g)
  }

  ghost predicate Has(ps: seq<Point>, g: Group) {
    exists i :: 0 <= i < |ps| && ps[i].group == g
  }

  /** The distinct groups in order. */
  function GroupList(ps: seq<Point>, leq: Order): seq<Group> {
    Compact(Sort(Groups(ps), leq))
  }

  /** The whole answer: GROUP BY, sum, ORDER BY. */
  function Answer(ps: seq<Point>, leq: Order): (r: seq<Point>)
    ensures |r| == |GroupList(ps, leq)|
    ensures forall i :: 0 <= i < |r| ==> r[i] == Point(GroupList(ps, leq)[i], Weight(ps, GroupList(ps, leq)[i]))
  {
    var gs := GroupList(ps, leq);
    seq(|gs|, i requires 0 <= i < |gs| => Point(gs[i], Weight(ps, gs[i])))
  }

  function Flatten<T>(xss: seq<seq<T>>): seq<T> {
    if xss == [] then [] else xss[0] + Flatten(xss[1..])
  }

  lemma GroupListStrict(ps: seq<Point>, leq: Order)
    requires TotalOrder(leq)
    ensures Strict(GroupList(ps, leq), leq)
    ensures forall g :: g in GroupList(ps, leq) <==> Has(ps, g)
  {
    var gs := Groups(ps);
    SortSorts(gs, leq);
    SortMembers(gs, leq);
    CompactStrict(Sort(gs, leq), leq);
    CompactMembers(Sort(gs, leq));
    forall g
      ensures g in gs <==> Has(ps, g)
    {
      if Has(ps, g) {
        var i :| 0 <= i < |ps| && ps[i].group == g;
        assert gs[i] == g;
      }
    }
  }

  /** The same groups with the same sums. */
  ghost predicate Alike(a: seq<Point>, b: seq<Point>) {
    forall g :: (Has(a, g) <==> Has(b, g)) && Weight(a, g) == Weight(b, g)
  }

  lemma AlikeAnswers(a: seq<Point>, b: seq<Point>, leq: Order)
    requires TotalOrder(leq) && Alike(a, b)
    ensures Answer(a, leq) == Answer(b, leq)
  {
    GroupListStrict(a, leq);
    GroupListStrict(b, leq);
    forall g
      ensures g in GroupList(a, leq) <==> g in GroupList(b, leq)
    {
      assert Has(a, g) <==> Has(b, g);
    }
    StrictUnique(GroupList(a, leq), GroupList(b, leq), leq);
  }

  lemma {:induction false} WeightConcat(a: seq<Point>, b: seq<Point>, g: Group)
    ensures Weight(a + b, g) == Weight(a, g) + Weight(b, g)
  {
    if a == [] {
      assert a + b == b;
    } else {
      WeightConcat(a[1..], b, g);
      assert (a + b)[1..] == a[1..] + b;
    }
  }

  lemma HasConcat(a: seq<Point>, b: seq<Point>, g: Group)
    ensures Has(a + b, g) <==> Has(a, g) || Has(b, g)
  {
    if Has(a, g) {
      var i :| 0 <= i < |a| && a[i].group == g;
      assert (a + b)[i].group == g;
    }
    if Has(b, g) {
      var i :| 0 <= i < |b| && b[i].group == g;
      assert (a + b)[|a| + i].group == g;
    }
    if Has(a + b, g) {
      var i :| 0 <= i < |a + b| && (a + b)[i].group == g;
      assert if i < |a| then a[i].group == g else b[i - |a|].group == g;
    }
  }

  lemma {:induction false} AbsentWeighsNothing(ps: seq<Point>, g: Group)
    requires !Has(ps, g)
    ensures Weight(ps, g) == 0.0
  {
    if ps != [] {
      assert ps[0].group != g;
      forall i | 0 <= i < |ps[1..]|
        ensures ps[1..][i].group != g
      {
        assert ps[i + 1].group != g;
      }
      AbsentWeighsNothing(ps[1..], g);
    }
  }

  /** Where groups are distinct a point is its group's weight. */
  lemma {:induction false} WeightOfDistinct(ps: seq<Point>, k: nat)
    requires k < |ps| && forall i, j :: 0 <= i < j < |ps| ==> ps[i].group != ps[j].group
    ensures Weight(ps, ps[k].group) == ps[k].value
  {
    if k == 0 {
      forall i | 0 <= i < |ps[1..]|
        ensures ps[1..][i].group != ps[0].group
      {
        assert ps[0].group != ps[i + 1].group;
      }
      AbsentWeighsNothing(ps[1..], ps[0].group);
    } else {
      WeightOfDistinct(ps[1..], k - 1);
      assert ps[0].group != ps[k].group;
    }
  }

  /** In a sorted subset an element comes no later than in the whole. */
  lemma {:induction false} RankInSubset(a: seq<Group>, b: seq<Group>, i: nat, r: nat, leq: Order)
    requires TotalOrder(leq) && Strict(a, leq) && Strict(b, leq) && (forall g :: g in a ==> g in b)
    requires i < |a| && r < |b| && a[i] == b[r]
    ensures i <= r
    decreases i
  {
    if i > 0 {
      assert a[i - 1] in b;
      var q :| 0 <= q < |b| && b[q] == a[i - 1];
      assert leq(a[i - 1], a[i]) && a[i - 1] != a[i];
      assert q < r;
      RankInSubset(a, b, i - 1, q, leq);
    }
  }

  /** A group among the first n of the whole is shipped by every shard that has it, with its weight there. */
  lemma ShippedInFull(part: seq<Point>, whole: seq<Group>, n: nat, leq: Order, r: nat)
    requires TotalOrder(leq) && Strict(whole, leq) && (forall g :: Has(part, g) ==> g in whole)
    requires r < |whole| && r < n
    ensures Weight(Firsts(Answer(part, leq), n), whole[r]) == Weight(part, whole[r])
    ensures Has(Firsts(Answer(part, leq), n), whole[r]) <==> Has(part, whole[r])
  {
    GroupListStrict(part, leq);
    var gs, g, sent := GroupList(part, leq), whole[r], Firsts(Answer(part, leq), n);
    if Has(part, g) {
      assert g in gs;
      var i :| 0 <= i < |gs| && gs[i] == g;
      RankInSubset(gs, whole, i, r, leq);
      assert sent[i] == Point(g, Weight(part, g));
      forall j, k | 0 <= j < k < |sent|
        ensures sent[j].group != sent[k].group
      {
        assert gs[j] != gs[k];
      }
      WeightOfDistinct(sent, i);
    } else {
      forall i | 0 <= i < |sent|
        ensures sent[i].group != g
      {
        assert gs[i] in gs;
      }
      AbsentWeighsNothing(sent, g);
      AbsentWeighsNothing(part, g);
    }
  }

  lemma SentWasThere(part: seq<Point>, n: nat, leq: Order, g: Group)
    requires TotalOrder(leq) && Has(Firsts(Answer(part, leq), n), g)
    ensures Has(part, g)
  {
    GroupListStrict(part, leq);
    var sent := Firsts(Answer(part, leq), n);
    var i :| 0 <= i < |sent| && sent[i].group == g;
    assert GroupList(part, leq)[i] == g;
  }

  /** What the shards send when each answers its first n groups. */
  function Sent(parts: seq<seq<Point>>, n: nat, leq: Order): (r: seq<seq<Point>>)
    ensures |r| == |parts|
    ensures forall i :: 0 <= i < |parts| ==> r[i] == Firsts(Answer(parts[i], leq), n)
  {
    seq(|parts|, i requires 0 <= i < |parts| => Firsts(Answer(parts[i], leq), n))
  }

  lemma SentTail(parts: seq<seq<Point>>, n: nat, leq: Order)
    requires parts != []
    ensures Sent(parts, n, leq)[1..] == Sent(parts[1..], n, leq)
  {
  }

  lemma {:induction false} SentInFull(parts: seq<seq<Point>>, whole: seq<Group>, n: nat, leq: Order, r: nat)
    requires TotalOrder(leq) && Strict(whole, leq) && (forall g :: Has(Flatten(parts), g) ==> g in whole)
    requires r < |whole| && r < n
    ensures Weight(Flatten(Sent(parts, n, leq)), whole[r]) == Weight(Flatten(parts), whole[r])
    ensures Has(Flatten(Sent(parts, n, leq)), whole[r]) <==> Has(Flatten(parts), whole[r])
  {
    if parts != [] {
      var sent, g := Sent(parts, n, leq), whole[r];
      SentTail(parts, n, leq);
      forall x
        ensures Has(Flatten(parts), x) <==> Has(parts[0], x) || Has(Flatten(parts[1..]), x)
      {
        HasConcat(parts[0], Flatten(parts[1..]), x);
      }
      ShippedInFull(parts[0], whole, n, leq, r);
      SentInFull(parts[1..], whole, n, leq, r);
      WeightConcat(parts[0], Flatten(parts[1..]), g);
      WeightConcat(sent[0], Flatten(sent[1..]), g);
      HasConcat(sent[0], Flatten(sent[1..]), g);
    }
  }

  lemma {:induction false} AllSentWasThere(parts: seq<seq<Point>>, n: nat, leq: Order, g: Group)
    requires TotalOrder(leq) && Has(Flatten(Sent(parts, n, leq)), g)
    ensures Has(Flatten(parts), g)
  {
    assert Flatten<Point>([]) == [] && Sent([], n, leq) == [];
    var sent := Sent(parts, n, leq);
    SentTail(parts, n, leq);
    HasConcat(sent[0], Flatten(sent[1..]), g);
    HasConcat(parts[0], Flatten(parts[1..]), g);
    if Has(sent[0], g) {
      SentWasThere(parts[0], n, leq, g);
    } else {
      AllSentWasThere(parts[1..], n, leq, g);
    }
  }

  /** A sorted subset that holds the first n of the whole begins with them. */
  lemma {:induction false} SamePrefix(a: seq<Group>, b: seq<Group>, n: nat, leq: Order)
    requires TotalOrder(leq) && Strict(a, leq) && Strict(b, leq) && (forall g :: g in a ==> g in b)
    requires forall r :: 0 <= r < n && r < |b| ==> b[r] in a
    ensures Firsts(a, n) == Firsts(b, n)
  {
    forall r | 0 <= r < n && r < |b|
      ensures r < |a| && a[r] == b[r]
    {
      SameAt(a, b, n, leq, r);
    }
    if a != [] {
      var i := |a| - 1;
      assert a[i] in b;
      var q :| 0 <= q < |b| && b[q] == a[i];
      RankInSubset(a, b, i, q, leq);
      assert |a| <= |b|;
    }
    var k := if |b| < n then |b| else n;
    if k > 0 {
      SameAt(a, b, n, leq, k - 1);
    }
    assert |Firsts(a, n)| == k == |Firsts(b, n)|;
    assert forall r :: 0 <= r < k ==> Firsts(a, n)[r] == a[r] == b[r] == Firsts(b, n)[r];
  }

  lemma SameAt(a: seq<Group>, b: seq<Group>, n: nat, leq: Order, r: nat)
    requires TotalOrder(leq) && Strict(a, leq) && Strict(b, leq) && (forall g :: g in a ==> g in b)
    requires forall q :: 0 <= q < n && q < |b| ==> b[q] in a
    requires r < n && r < |b|
    ensures r < |a| && a[r] == b[r]
  {
    assert b[r] in a;
    var i :| 0 <= i < |a| && a[i] == b[r];
    RankInSubset(a, b, i, r, leq);
    var first := b[..r + 1];
    forall g | g in first
      ensures g in a
    {
      var q :| 0 <= q < |first| && first[q] == g;
      assert b[q] in a;
    }
    assert first[r] == b[r];
    RankInSubset(first, a, r, i, leq);
  }

  /** For every split of the rows into parts: the merge of every part's first n groups begins with
      the first n groups of the whole, sums included. */
  lemma TopGroupsSurviveSharding(parts: seq<seq<Point>>, n: nat, leq: Order)
    requires TotalOrder(leq)
    ensures Firsts(Answer(Flatten(Sent(parts, n, leq)), leq), n) == Firsts(Answer(Flatten(parts), leq), n)
  {
    var all, sent := Flatten(parts), Flatten(Sent(parts, n, leq));
    var whole, merged := GroupList(all, leq), GroupList(sent, leq);
    GroupListStrict(all, leq);
    GroupListStrict(sent, leq);
    forall r | 0 <= r < n && r < |whole|
      ensures whole[r] in merged && Weight(sent, whole[r]) == Weight(all, whole[r])
    {
      SentInFull(parts, whole, n, leq, r);
      assert whole[r] in whole;
      assert Has(all, whole[r]);
    }
    forall g | g in merged
      ensures g in whole
    {
      assert Has(sent, g);
      AllSentWasThere(parts, n, leq, g);
    }
    SamePrefix(merged, whole, n, leq);
    var x, y := Firsts(Answer(sent, leq), n), Firsts(Answer(all, leq), n);
    assert |x| == |Firsts(merged, n)| && |y| == |Firsts(whole, n)|;
    forall r | 0 <= r < |x|
      ensures x[r] == y[r]
    {
      assert Firsts(merged, n)[r] == merged[r] && Firsts(whole, n)[r] == whole[r];
    }
  }
}
