/** What the library's sorting functions promise, on sequences. */
module Sorting {

  ghost predicate Preorder<T(!new)>(leq: (T, T) -> bool) {
    && (forall a, b :: leq(a, b) || leq(b, a))
    && (forall a, b, c :: leq(a, b) && leq(b, c) ==> leq(a, c))
  }

  ghost predicate TotalOrder<T(!new)>(leq: (T, T) -> bool) {
    Preorder(leq) && forall a, b :: leq(a, b) && leq(b, a) ==> a == b
  }

  ghost predicate Sorted<T(!new)>(xs: seq<T>, leq: (T, T) -> bool) {
    forall i, j :: 0 <= i < j < |xs| ==> leq(xs[i], xs[j])
  }

  function Insert<T>(x: T, xs: seq<T>, leq: (T, T) -> bool): seq<T> {
    if xs == [] || leq(x, xs[0]) then [x] + xs else [xs[0]] + Insert(x, xs[1..], leq)
  }

  /** A stable sort. */
  function Sort<T>(xs: seq<T>, leq: (T, T) -> bool): seq<T> {
    if xs == [] then [] else Insert(xs[0], Sort(xs[1..], leq), leq)
  }

  lemma {:induction false} InsertPermutes<T>(x: T, xs: seq<T>, leq: (T, T) -> bool)
    ensures multiset(Insert(x, xs, leq)) == multiset([x] + xs)
  {
    if !(xs == [] || leq(x, xs[0])) {
      InsertPermutes(x, xs[1..], leq);
      assert xs == [xs[0]] + xs[1..];
    }
  }

  lemma {:induction false} SortPermutes<T>(xs: seq<T>, leq: (T, T) -> bool)
    ensures multiset(Sort(xs, leq)) == multiset(xs)
  {
    if xs != [] {
      SortPermutes(xs[1..], leq);
      InsertPermutes(xs[0], Sort(xs[1..], leq), leq);
      assert xs == [xs[0]] + xs[1..];
    }
  }

  lemma {:induction false} InsertMembers<T>(x: T, xs: seq<T>, leq: (T, T) -> bool)
    ensures forall y :: y in Insert(x, xs, leq) <==> y == x || y in xs
  {
    if !(xs == [] || leq(x, xs[0])) {
      InsertMembers(x, xs[1..], leq);
    }
  }

  lemma {:induction false} InsertSorts<T(!new)>(x: T, xs: seq<T>, leq: (T, T) -> bool)
    requires Preorder(leq) && Sorted(xs, leq)
    ensures Sorted(Insert(x, xs, leq), leq)
  {
    if xs == [] || leq(x, xs[0]) {
      var r := [x] + xs;
      forall j | 1 <= j < |r|
        ensures leq(x, r[j])
      {
        assert leq(xs[0], xs[j - 1]);
      }
    } else {
      InsertSorts(x, xs[1..], leq);
      InsertMembers(x, xs[1..], leq);
      var rest := Insert(x, xs[1..], leq);
      forall j | 0 <= j < |rest|
        ensures leq(xs[0], rest[j])
      {
        assert rest[j] in rest;
        if rest[j] in xs[1..] {
          var k :| 0 <= k < |xs[1..]| && xs[1..][k] == rest[j];
          assert leq(xs[0], xs[k + 1]);
        }
      }
    }
  }

  lemma {:induction false} SortSorts<T(!new)>(xs: seq<T>, leq: (T, T) -> bool)
    requires Preorder(leq)
    ensures Sorted(Sort(xs, leq), leq)
  {
    if xs != [] {
      SortSorts(xs[1..], leq);
      InsertSorts(xs[0], Sort(xs[1..], leq), leq);
    }
  }

  lemma SortMembers<T>(xs: seq<T>, leq: (T, T) -> bool)
    ensures |Sort(xs, leq)| == |xs| && forall x :: x in Sort(xs, leq) <==> x in xs
  {
    SortPermutes(xs, leq);
    SameBag(Sort(xs, leq), xs);
  }

  lemma SameBag<T>(a: seq<T>, b: seq<T>)
    requires multiset(a) == multiset(b)
    ensures |a| == |b| && forall x :: x in a <==> x in b
  {
    assert |a| == |multiset(a)| && |b| == |multiset(b)|;
    forall x
      ensures x in a <==> x in b
    {
      assert x in a <==> x in multiset(a);
      assert x in b <==> x in multiset(b);
    }
  }

  /** slices.Compact: drops repetitions of the previous element. */
  function Compact<T(==)>(xs: seq<T>): seq<T> {
    if |xs| <= 1 then xs
    else if xs[0] == xs[1] then Compact(xs[1..])
    else [xs[0]] + Compact(xs[1..])
  }

  ghost predicate Strict<T(!new)>(xs: seq<T>, leq: (T, T) -> bool) {
    Sorted(xs, leq) && forall i, j :: 0 <= i < j < |xs| ==> xs[i] != xs[j]
  }

  lemma {:induction false} CompactMembers<T>(xs: seq<T>)
    ensures forall x :: x in Compact(xs) <==> x in xs
    ensures xs != [] ==> Compact(xs) != [] && Compact(xs)[0] == xs[0]
  {
    if |xs| > 1 {
      CompactMembers(xs[1..]);
    }
  }

  lemma {:induction false} CompactStrict<T(!new)>(xs: seq<T>, leq: (T, T) -> bool)
    requires TotalOrder(leq) && Sorted(xs, leq)
    ensures Strict(Compact(xs), leq)
  {
    if |xs| > 1 {
      CompactStrict(xs[1..], leq);
      CompactMembers(xs[1..]);
      if xs[0] != xs[1] {
        var rest := Compact(xs[1..]);
        forall j | 0 <= j < |rest|
          ensures leq(xs[0], rest[j]) && xs[0] != rest[j]
        {
          assert rest[j] in xs[1..];
          var k :| 0 <= k < |xs[1..]| && xs[1..][k] == rest[j];
          assert leq(xs[0], xs[1]) && leq(xs[0], xs[k + 1]);
          if k > 0 { assert leq(xs[1], xs[k + 1]); }
        }
      }
    }
  }

  /** A strictly sorted sequence is determined by its elements. */
  lemma {:induction false} StrictUnique<T(!new)>(a: seq<T>, b: seq<T>, leq: (T, T) -> bool)
    requires TotalOrder(leq) && Strict(a, leq) && Strict(b, leq)
    requires forall x :: x in a <==> x in b
    ensures a == b
  {
    assert b == [] || b[0] in b;
    if a != [] {
      assert a[0] in b;
      assert b[0] in a;
      var i :| 0 <= i < |b| && b[i] == a[0];
      var j :| 0 <= j < |a| && a[j] == b[0];
      assert a[0] == b[0];
      forall x
        ensures x in a[1..] <==> x in b[1..]
      {
        TailMember(a, x);
        TailMember(b, x);
      }
      StrictUnique(a[1..], b[1..], leq);
      assert a == [a[0]] + a[1..] && b == [b[0]] + b[1..];
    }
  }

  lemma TailMember<T>(a: seq<T>, x: T)
    requires a != [] && forall i, j :: 0 <= i < j < |a| ==> a[i] != a[j]
    ensures x in a[1..] <==> x in a && x != a[0]
  {
    if x in a && x != a[0] {
      var i :| 0 <= i < |a| && a[i] == x;
      assert a[1..][i - 1] == x;
    }
  }

  /** Go's byte-wise string order, on characters. */
  predicate StringLeq(a: string, b: string) {
    a == [] || (b != [] && (a[0] < b[0] || (a[0] == b[0] && StringLeq(a[1..], b[1..]))))
  }

  lemma {:induction false} StringTotal(a: string, b: string)
    ensures StringLeq(a, b) || StringLeq(b, a)
    ensures StringLeq(a, b) && StringLeq(b, a) ==> a == b
  {
    if a != [] && b != [] {
      StringTotal(a[1..], b[1..]);
      assert a == [a[0]] + a[1..] && b == [b[0]] + b[1..];
    }
  }

  lemma {:induction false} StringTransitive(a: string, b: string, c: string)
    requires StringLeq(a, b) && StringLeq(b, c)
    ensures StringLeq(a, c)
  {
    if a != [] && a[0] == b[0] && b[0] == c[0] {
      StringTransitive(a[1..], b[1..], c[1..]);
    }
  }

  lemma StringOrder()
    ensures TotalOrder(StringLeq)
  {
    forall a, b
      ensures StringLeq(a, b) || StringLeq(b, a)
      ensures StringLeq(a, b) && StringLeq(b, a) ==> a == b
    {
      StringTotal(a, b);
    }
    forall a, b, c | StringLeq(a, b) && StringLeq(b, c)
      ensures StringLeq(a, c)
    {
      StringTransitive(a, b, c);
    }
  }
}
