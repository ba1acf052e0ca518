/** The order of aggregation groups: bucket in the direction's order, then the by values ascending
    with a missing value last (internal/cluster/coordinator.go and the planner's ORDER BY). */
module GroupOrder {
  import opened Prelude
  import opened Sorting

  datatype Direction = Forward | Backward

  /** A bucket and the values of the by labels, in the order of the by list. */
  datatype Group = Group(bucket: int, values: seq<Option<string>>)

  /** The number of a level's canonical name (internal/model/level.go); 7 for any other text. */
  function Severity(s: string): nat {
    if s == "unspecified" then 0
    else if s == "trace" then 1
    else if s == "debug" then 2
    else if s == "info" then 3
    else if s == "warn" then 4
    else if s == "error" then 5
    else if s == "fatal" then 6
    else 7
  }

  /** ParseLevel, of which only what it makes of the canonical names matters here. */
  type LevelParser = string -> Option<int>

  ghost predicate ParsesNames(parse: LevelParser) {
    forall s: string :: Severity(s) < 7 ==> parse(s) == Some(Severity(s))
  }

  /** Level compares by severity as the smallint column does, text bytewise. */
  predicate LabelLeq(name: string, a: string, b: string) {
    if name == "level" then Severity(a) < Severity(b) || (Severity(a) == Severity(b) && StringLeq(a, b))
    else StringLeq(a, b)
  }

  predicate ValueLeq(name: string, a: Option<string>, b: Option<string>) {
    b.None? || (a.Some? && LabelLeq(name, a.value, b.value))
  }

  predicate TupleLeq(names: seq<string>, a: seq<Option<string>>, b: seq<Option<string>>) {
    if a == [] then true
    else if b == [] then false
    else
      var name := if names == [] then "" else names[0];
      if a[0] == b[0] then TupleLeq(if names == [] then [] else names[1..], a[1..], b[1..])
      else ValueLeq(name, a[0], b[0])
  }

  predicate GroupLeq(dir: Direction, names: seq<string>, a: Group, b: Group) {
    if a.bucket == b.bucket then TupleLeq(names, a.values, b.values)
    else if dir == Forward then a.bucket < b.bucket
    else a.bucket > b.bucket
  }

  type Order = (Group, Group) -> bool

  function OrderOf(dir: Direction, names: seq<string>): Order {
    (a, b) => GroupLeq(dir, names, a, b)
  }

  lemma ValueTotal(name: string, a: Option<string>, b: Option<string>)
    ensures ValueLeq(name, a, b) || ValueLeq(name, b, a)
    ensures ValueLeq(name, a, b) && ValueLeq(name, b, a) ==> a == b
  {
    if a.Some? && b.Some? {
      StringTotal(a.value, b.value);
    }
  }

  lemma ValueTransitive(name: string, a: Option<string>, b: Option<string>, c: Option<string>)
    requires ValueLeq(name, a, b) && ValueLeq(name, b, c)
    ensures ValueLeq(name, a, c)
  {
    if c.Some? && StringLeq(a.value, b.value) && StringLeq(b.value, c.value) {
      StringTransitive(a.value, b.value, c.value);
    }
  }

  lemma {:induction false} TupleTotal(names: seq<string>, a: seq<Option<string>>, b: seq<Option<string>>)
    ensures TupleLeq(names, a, b) || TupleLeq(names, b, a)
    ensures TupleLeq(names, a, b) && TupleLeq(names, b, a) ==> a == b
    decreases |a|
  {
    if a != [] && b != [] {
      if a[0] == b[0] {
        TupleTotal(if names == [] then [] else names[1..], a[1..], b[1..]);
        assert a == [a[0]] + a[1..] && b == [b[0]] + b[1..];
      } else {
        ValueTotal(if names == [] then "" else names[0], a[0], b[0]);
      }
    }
  }

  lemma {:induction false} TupleTransitive(names: seq<string>, a: seq<Option<string>>, b: seq<Option<string>>, c: seq<Option<string>>)
    requires TupleLeq(names, a, b) && TupleLeq(names, b, c)
    ensures TupleLeq(names, a, c)
    decreases |a|
  {
    if a != [] {
      var name := if names == [] then "" else names[0];
      if a[0] == b[0] && b[0] == c[0] {
        TupleTransitive(if names == [] then [] else names[1..], a[1..], b[1..], c[1..]);
      } else if a[0] != b[0] && b[0] != c[0] {
        ValueTransitive(name, a[0], b[0], c[0]);
        ValueTotal(name, a[0], b[0]);
      }
    }
  }

  lemma OrderIsTotal(dir: Direction, names: seq<string>)
    ensures TotalOrder(OrderOf(dir, names))
  {
    var leq := OrderOf(dir, names);
    forall a, b
      ensures leq(a, b) || leq(b, a)
      ensures leq(a, b) && leq(b, a) ==> a == b
    {
      TupleTotal(names, a.values, b.values);
    }
    forall a, b, c | leq(a, b) && leq(b, c)
      ensures leq(a, c)
    {
      if a.bucket == b.bucket == c.bucket {
        TupleTransitive(names, a.values, b.values, c.values);
      }
    }
  }

  /** A value that comes first: one that is there before one that is missing, of two levels the less
      severe, of two texts the one with the smaller character where they part or the one that ends there. */
  ghost predicate Before(name: string, a: Option<string>, b: Option<string>) {
    match (a, b)
    case (None, _) => false
    case (Some(_), None) => true
    case (Some(x), Some(y)) =>
      if name == "level" && Severity(x) != Severity(y) then Severity(x) < Severity(y)
      else exists k: nat :: PartsAt(x, y, k)
  }

  ghost predicate PartsAt(x: string, y: string, k: nat) {
    k <= |x| && k < |y| && x[..k] == y[..k] && (k < |x| ==> x[k] < y[k])
  }

  lemma HeadsAgree<T>(x: seq<T>, y: seq<T>, k: nat)
    ensures 0 < k <= |x| && k <= |y| && x[..k] == y[..k] ==> x[0] == y[0]
  {
    if 0 < k <= |x| && k <= |y| {
      assert x[..k][0] == x[0] && y[..k][0] == y[0];
    }
  }

  lemma {:induction false} TextBefore(x: string, y: string)
    ensures x != y && StringLeq(x, y) <==> exists k: nat :: PartsAt(x, y, k)
    decreases |x|
  {
    if x != [] && y != [] && x[0] == y[0] {
      TextBefore(x[1..], y[1..]);
      assert x == [x[0]] + x[1..] && y == [y[0]] + y[1..];
      if k: nat :| PartsAt(x[1..], y[1..], k) {
        assert x[..k + 1] == [x[0]] + x[1..][..k] && y[..k + 1] == [y[0]] + y[1..][..k];
        assert PartsAt(x, y, k + 1);
      }
      if k: nat :| PartsAt(x, y, k) {
        assert x[..k] == y[..k] && k > 0;
        assert x[1..][..k - 1] == x[..k][1..] && y[1..][..k - 1] == y[..k][1..];
        assert PartsAt(x[1..], y[1..], k - 1);
      }
    } else if y != [] && (x == [] || x[0] < y[0]) {
      assert PartsAt(x, y, 0);
    } else {
      forall k: nat
        ensures !PartsAt(x, y, k)
      {
        HeadsAgree(x, y, k);
      }
    }
  }

  lemma ValueBefore(name: string, a: Option<string>, b: Option<string>)
    ensures a != b && ValueLeq(name, a, b) <==> Before(name, a, b)
  {
    if a.Some? && b.Some? {
      TextBefore(a.value, b.value);
    }
  }

  /** The first label whose values differ puts a first. */
  ghost predicate DecidedAt(names: seq<string>, a: seq<Option<string>>, b: seq<Option<string>>, k: nat)
    requires |names| == |a| == |b|
  {
    k < |a| && a[..k] == b[..k] && Before(names[k], a[k], b[k])
  }

  lemma {:induction false} TupleBefore(names: seq<string>, a: seq<Option<string>>, b: seq<Option<string>>)
    requires |names| == |a| == |b|
    ensures a != b && TupleLeq(names, a, b) <==> exists k: nat :: DecidedAt(names, a, b, k)
    decreases |a|
  {
    if a == [] {
    } else if a[0] == b[0] {
      TupleBefore(names[1..], a[1..], b[1..]);
      assert a == [a[0]] + a[1..] && b == [b[0]] + b[1..];
      if k: nat :| DecidedAt(names[1..], a[1..], b[1..], k) {
        assert a[..k + 1] == [a[0]] + a[1..][..k] && b[..k + 1] == [b[0]] + b[1..][..k];
        assert DecidedAt(names, a, b, k + 1);
      }
      if k: nat :| DecidedAt(names, a, b, k) {
        ValueBefore(names[0], a[0], b[0]);
        assert a[1..][..k - 1] == a[..k][1..] && b[1..][..k - 1] == b[..k][1..];
        assert DecidedAt(names[1..], a[1..], b[1..], k - 1);
      }
    } else {
      ValueBefore(names[0], a[0], b[0]);
      if Before(names[0], a[0], b[0]) {
        assert DecidedAt(names, a, b, 0);
      }
      forall k: nat | DecidedAt(names, a, b, k)
        ensures k == 0
      {
        HeadsAgree(a, b, k);
      }
    }
  }

  /** What the order of groups is: an earlier bucket first going forward, a later one going backward; in
      one bucket, label by label in the order of the by list. */
  lemma GroupBefore(dir: Direction, names: seq<string>, a: Group, b: Group)
    requires |a.values| == |b.values| == |names|
    ensures a != b && GroupLeq(dir, names, a, b) <==>
              if a.bucket == b.bucket then exists k: nat :: DecidedAt(names, a.values, b.values, k)
              else (a.bucket < b.bucket) == (dir == Forward)
  {
    TupleBefore(names, a.values, b.values);
  }

  /** labelLess. */
  predicate LabelLess(parse: LevelParser, name: string, a: string, b: string) {
    if name == "level" && parse(a).Some? && parse(b).Some? then parse(a).value < parse(b).value
    else !StringLeq(b, a)
  }

  /** The comparison function of mergePoints from the label at i on. */
  predicate ValuesLess(parse: LevelParser, names: seq<string>, a: Group, b: Group, i: nat)
    decreases |names| - i
  {
    if i >= |names| || i >= |a.values| || i >= |b.values| then false
    else match (a.values[i], b.values[i])
      case (Some(_), None) => true
      case (None, Some(_)) => false
      case (Some(x), Some(y)) => if x != y then LabelLess(parse, names[i], x, y) else ValuesLess(parse, names, a, b, i + 1)
      case (None, None) => ValuesLess(parse, names, a, b, i + 1)
  }

  predicate PointLess(parse: LevelParser, dir: Direction, names: seq<string>, a: Group, b: Group) {
    if a.bucket != b.bucket then if dir == Forward then a.bucket < b.bucket else a.bucket > b.bucket
    else ValuesLess(parse, names, a, b, 0)
  }

  /** What the database answers for the by list: one value per label, a level always a level's name. */
  predicate WellFormed(names: seq<string>, g: Group) {
    && |g.values| == |names|
    && forall i :: 0 <= i < |names| && names[i] == "level" ==> g.values[i].Some? && Severity(g.values[i].value) < 7
  }

  lemma SeverityInjective(a: string, b: string)
    requires Severity(a) == Severity(b) < 7
    ensures a == b
  {
  }

  /** The Go comparison agrees with the order of the database. */
  lemma LessIsOrder(parse: LevelParser, dir: Direction, names: seq<string>, a: Group, b: Group)
    requires ParsesNames(parse) && WellFormed(names, a) && WellFormed(names, b)
    ensures PointLess(parse, dir, names, a, b) <==> !GroupLeq(dir, names, b, a)
  {
    ValuesLessIsOrder(parse, names, a, b, 0);
    assert a.values[0..] == a.values && b.values[0..] == b.values && names[0..] == names;
  }

  lemma {:induction false} ValuesLessIsOrder(parse: LevelParser, names: seq<string>, a: Group, b: Group, i: nat)
    requires ParsesNames(parse) && WellFormed(names, a) && WellFormed(names, b) && i <= |names|
    ensures ValuesLess(parse, names, a, b, i) <==> !TupleLeq(names[i..], b.values[i..], a.values[i..])
    decreases |names| - i
  {
    if i < |names| {
      ValuesLessIsOrder(parse, names, a, b, i + 1);
      assert names[i..][1..] == names[i + 1..] && a.values[i..][1..] == a.values[i + 1..] && b.values[i..][1..] == b.values[i + 1..];
      if a.values[i].Some? && b.values[i].Some? && a.values[i] != b.values[i] && names[i] == "level" {
        var x, y := a.values[i].value, b.values[i].value;
        if Severity(x) == Severity(y) { SeverityInjective(x, y); }
        assert parse(x) == Some(Severity(x)) && parse(y) == Some(Severity(y));
      }
    }
  }
}
