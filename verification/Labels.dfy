/** The canonical encoding of a label set (internal/model/labels.go), from which stream ids are hashed.
    A string stands for Go's bytes, one character each. */
module Labels {
  import opened Prelude
  import opened Sorting

  datatype LabelSet = LabelSet(service: string, host: string, env: string, extra: map<string, string>)

  /** binary.AppendUvarint: unsigned LEB128. */
  function Uvarint(n: nat): string {
    if n < 128 then [n as char] else [(n % 128 + 128) as char] + Uvarint(n / 128)
  }

  /** The number at the front of s, and what follows it. */
  function ReadUvarint(s: string): Option<(nat, string)> {
    if s == [] then None
    else if s[0] as int < 128 then Some((s[0] as int, s[1..]))
    else if s[0] as int >= 256 then None
    else
      match ReadUvarint(s[1..])
      case None => None
      case Some(r) => Some((s[0] as int - 128 + 128 * r.0, r.1))
  }

  lemma {:induction false} UvarintReadsBack(n: nat, rest: string)
    ensures ReadUvarint(Uvarint(n) + rest) == Some((n, rest))
  {
    var s := Uvarint(n) + rest;
    if n < 128 {
      assert s[1..] == rest;
    } else {
      assert s[1..] == Uvarint(n / 128) + rest;
      UvarintReadsBack(n / 128, rest);
    }
  }

  /** appendField. */
  function Field(s: string): string {
    Uvarint(|s|) + s
  }

  function ReadField(s: string): Option<(string, string)> {
    match ReadUvarint(s)
    case None => None
    case Some(r) => if r.0 <= |r.1| then Some((r.1[..r.0], r.1[r.0..])) else None
  }

  lemma FieldReadsBack(s: string, rest: string)
    ensures ReadField(Field(s) + rest) == Some((s, rest))
  {
    assert Field(s) + rest == Uvarint(|s|) + (s + rest);
    UvarintReadsBack(|s|, s + rest);
    assert (s + rest)[..|s|] == s && (s + rest)[|s|..] == rest;
  }

  /** The extra labels in the order of `names`. */
  function Pairs(names: seq<string>, extra: map<string, string>): string {
    if names == [] then []
    else Field(names[0]) + Field(if names[0] in extra then extra[names[0]] else []) + Pairs(names[1..], extra)
  }

  ghost predicate Lists(names: seq<string>, keys: set<string>) {
    && (forall i, j :: 0 <= i < j < |names| ==> names[i] != names[j])
    && (forall k :: k in names <==> k in keys)
  }

  /** Some listing of a map's keys. */
  ghost function Listed(keys: set<string>): (names: seq<string>)
    ensures Lists(names, keys)
  {
    if keys == {} then []
    else
      var k :| k in keys;
      [k] + Listed(keys - {k})
  }

  /** slices.Sorted(maps.Keys(extra)). */
  ghost function Names(keys: set<string>): seq<string> {
    Sort(Listed(keys), StringLeq)
  }

  lemma {:induction false} DistinctSorts(names: seq<string>)
    requires forall i, j :: 0 <= i < j < |names| ==> names[i] != names[j]
    ensures forall i, j :: 0 <= i < j < |names| ==> |Sort(names, StringLeq)| == |names| && Sort(names, StringLeq)[i] != Sort(names, StringLeq)[j]
  {
    SortPermutes(names, StringLeq);
    SortMembers(names, StringLeq);
    var r := Sort(names, StringLeq);
    forall i, j | 0 <= i < j < |names|
      ensures r[i] != r[j]
    {
      if r[i] == r[j] {
        TwiceInBag(r, i, j);
        OnceInBag(names, r[i]);
      }
    }
  }

  lemma TwiceInBag<T>(xs: seq<T>, i: nat, j: nat)
    requires i < j < |xs| && xs[i] == xs[j]
    ensures multiset(xs)[xs[i]] >= 2
  {
    assert xs == xs[..i] + [xs[i]] + xs[i + 1..j] + [xs[j]] + xs[j + 1..];
  }

  lemma {:induction false} OnceInBag<T>(xs: seq<T>, x: T)
    requires forall i, j :: 0 <= i < j < |xs| ==> xs[i] != xs[j]
    ensures multiset(xs)[x] <= 1
  {
    if xs != [] {
      assert xs == [xs[0]] + xs[1..];
      OnceInBag(xs[1..], x);
      if x == xs[0] {
        assert x !in xs[1..];
      }
    }
  }

  lemma SortLists(names: seq<string>, keys: set<string>)
    requires Lists(names, keys)
    ensures Lists(Sort(names, StringLeq), keys) && Strict(Sort(names, StringLeq), StringLeq)
  {
    StringOrder();
    SortSorts(names, StringLeq);
    SortMembers(names, StringLeq);
    DistinctSorts(names);
  }

  /** The order in which the map is ranged over does not matter. */
  lemma AnyListing(names: seq<string>, keys: set<string>)
    requires Lists(names, keys)
    ensures Sort(names, StringLeq) == Names(keys)
  {
    StringOrder();
    SortLists(names, keys);
    SortLists(Listed(keys), keys);
    StrictUnique(Sort(names, StringLeq), Names(keys), StringLeq);
  }

  /** canonical, of an empty destination. */
  ghost function Canonical(ls: LabelSet): string {
    Field(ls.service) + Field(ls.host) + Field(ls.env) + Uvarint(|ls.extra|) + Pairs(Names(ls.extra.Keys), ls.extra)
  }

  /** Reads n pairs. */
  function ReadPairs(n: nat, s: string): Option<map<string, string>> {
    if n == 0 then Some(map[])
    else
      match ReadField(s)
      case None => None
      case Some(k) =>
        match ReadField(k.1)
        case None => None
        case Some(v) =>
          match ReadPairs(n - 1, v.1)
          case None => None
          case Some(m) => Some(m[k.0 := v.0])
  }

  function Read(s: string): Option<LabelSet> {
    match ReadField(s)
    case None => None
    case Some(service) =>
      match ReadField(service.1)
      case None => None
      case Some(host) =>
        match ReadField(host.1)
        case None => None
        case Some(env) =>
          match ReadUvarint(env.1)
          case None => None
          case Some(n) =>
            match ReadPairs(n.0, n.1)
            case None => None
            case Some(extra) => Some(LabelSet(service.0, host.0, env.0, extra))
  }

  lemma {:induction false} PairsReadBack(names: seq<string>, extra: map<string, string>)
    requires Lists(names, extra.Keys)
    ensures ReadPairs(|names|, Pairs(names, extra)) == Some(extra)
    decreases |names|
  {
    if names == [] {
      assert extra == map[];
    } else {
      var k := names[0];
      var rest := extra - {k};
      ListsTail(names, extra.Keys);
      assert rest.Keys == extra.Keys - {k};
      PairsReadBack(names[1..], rest);
      SamePairs(names[1..], extra, rest);
      PairReadsBack(k, extra[k], Pairs(names[1..], extra), |names| - 1, rest);
      PutBack(extra, k);
      PairsUnfold(names, extra);
    }
  }

  lemma ListsTail(names: seq<string>, keys: set<string>)
    requires Lists(names, keys) && names != []
    ensures names[0] in keys && Lists(names[1..], keys - {names[0]})
    ensures forall k :: k in names[1..] ==> k in keys && k != names[0]
  {
    assert forall j :: 0 < j < |names| ==> names[j] != names[0];
    assert names == [names[0]] + names[1..];
  }

  lemma PutBack(extra: map<string, string>, k: string)
    requires k in extra
    ensures (extra - {k})[k := extra[k]] == extra
  {
  }

  lemma PairsUnfold(names: seq<string>, extra: map<string, string>)
    requires names != [] && names[0] in extra
    ensures Pairs(names, extra) == Field(names[0]) + Field(extra[names[0]]) + Pairs(names[1..], extra)
  {
  }

  lemma PairReadsBack(k: string, v: string, more: string, n: nat, rest: map<string, string>)
    requires ReadPairs(n, more) == Some(rest)
    ensures ReadPairs(n + 1, Field(k) + Field(v) + more) == Some(rest[k := v])
  {
    Regroup(Field(k), Field(v), more);
    FieldReadsBack(k, Field(v) + more);
    FieldReadsBack(v, more);
    PairSteps(Field(k) + Field(v) + more, Field(v) + more, more, k, v, n, rest);
  }

  lemma PairSteps(s: string, s1: string, s2: string, k: string, v: string, n: nat, rest: map<string, string>)
    requires ReadField(s) == Some((k, s1)) && ReadField(s1) == Some((v, s2)) && ReadPairs(n, s2) == Some(rest)
    ensures ReadPairs(n + 1, s) == Some(rest[k := v])
  {
  }

  lemma Regroup(a: string, b: string, c: string)
    ensures (a + b) + c == a + (b + c)
  {
  }

  lemma ReadSteps(s: string, s1: string, s2: string, s3: string, s4: string, ls: LabelSet)
    requires ReadField(s) == Some((ls.service, s1)) && ReadField(s1) == Some((ls.host, s2)) && ReadField(s2) == Some((ls.env, s3))
    requires ReadUvarint(s3) == Some((|ls.extra|, s4)) && ReadPairs(|ls.extra|, s4) == Some(ls.extra)
    ensures Read(s) == Some(ls)
  {
  }

  lemma FiveParts(a: string, b: string, c: string, d: string, e: string)
    ensures a + b + c + d + e == a + (b + (c + (d + e)))
  {
    Regroup(a + b + c, d, e);
    Regroup(a + b, c, d + e);
    Regroup(a, b, c + (d + e));
  }

  lemma {:induction false} SamePairs(names: seq<string>, a: map<string, string>, b: map<string, string>)
    requires forall k :: k in names ==> (k in a <==> k in b) && (k in a ==> a[k] == b[k])
    ensures Pairs(names, a) == Pairs(names, b)
  {
    if names != [] {
      assert names[0] in names;
      SamePairs(names[1..], a, b);
    }
  }

  lemma {:induction false} ListingSize(names: seq<string>, keys: set<string>)
    requires Lists(names, keys)
    ensures |names| == |keys|
    decreases |names|
  {
    if names == [] {
      assert keys == {};
    } else {
      assert names == [names[0]] + names[1..];
      assert forall j :: 0 < j < |names| ==> names[j] != names[0];
      ListingSize(names[1..], keys - {names[0]});
    }
  }

  /** What the encoding says can be read back. */
  lemma CanonicalReadsBack(ls: LabelSet)
    ensures Read(Canonical(ls)) == Some(ls)
  {
    var names := Names(ls.extra.Keys);
    SortLists(Listed(ls.extra.Keys), ls.extra.Keys);
    ListingSize(names, ls.extra.Keys);
    assert |ls.extra| == |ls.extra.Keys|;
    PairsReadBack(names, ls.extra);
    var pairs := Pairs(names, ls.extra);
    var s3 := Uvarint(|ls.extra|) + pairs;
    UvarintReadsBack(|ls.extra|, pairs);
    FieldReadsBack(ls.env, s3);
    FieldReadsBack(ls.host, Field(ls.env) + s3);
    FieldReadsBack(ls.service, Field(ls.host) + (Field(ls.env) + s3));
    FiveParts(Field(ls.service), Field(ls.host), Field(ls.env), Uvarint(|ls.extra|), pairs);
    ReadSteps(Canonical(ls), Field(ls.host) + (Field(ls.env) + s3), Field(ls.env) + s3, s3, pairs, ls);
  }

  /** Label sets with the same encoding are the same label set. */
  lemma CanonicalIsInjective(a: LabelSet, b: LabelSet)
    requires Canonical(a) == Canonical(b)
    ensures a == b
  {
    CanonicalReadsBack(a);
    CanonicalReadsBack(b);
  }

  method AppendField(dst: string, s: string) returns (r: string)
    ensures r == dst + Field(s)
  {
    r := dst + Uvarint(|s|);
    r := r + s;
    assert r == dst + Field(s);
  }

  /** maps.Keys: the keys in some order. */
  method KeysOf(extra: map<string, string>) returns (names: seq<string>)
    ensures Lists(names, extra.Keys)
  {
    names := [];
    var left := extra.Keys;
    while left != {}
      invariant left <= extra.Keys && Lists(names, extra.Keys - left)
      decreases |left|
    {
      var k :| k in left;
      assert k !in names;
      names, left := names + [k], left - {k};
    }
  }

  /** The loop of canonical. */
  method AppendPairs(dst: string, names: seq<string>, extra: map<string, string>) returns (r: string)
    requires forall k :: k in names ==> k in extra
    ensures r == dst + Pairs(names, extra)
  {
    r := dst;
    var i := 0;
    assert names[0..] == names;
    while i < |names|
      invariant i <= |names| && r + Pairs(names[i..], extra) == dst + Pairs(names, extra)
    {
      assert names[i] in names;
      assert names[i..][1..] == names[i + 1..];
      ghost var before, rest := r, Pairs(names[i + 1..], extra);
      r := AppendField(r, names[i]);
      r := AppendField(r, extra[names[i]]);
      PairAppended(before, Field(names[i]), Field(extra[names[i]]), rest);
      i := i + 1;
    }
    assert names[i..] == [];
    assert r + [] == r;
  }

  lemma PairAppended(before: string, k: string, v: string, rest: string)
    ensures before + (k + v + rest) == before + k + v + rest
  {
    Regroup(before, k + v, rest);
    Regroup(before, k, v);
  }

  /** canonical. */
  method AppendCanonical(dst: string, ls: LabelSet) returns (r: string)
    ensures r == dst + Canonical(ls)
  {
    r := AppendField(dst, ls.service);
    r := AppendField(r, ls.host);
    r := AppendField(r, ls.env);
    r := r + Uvarint(|ls.extra|);
    var names := KeysOf(ls.extra);
    AnyListing(names, ls.extra.Keys);
    names := Sort(names, StringLeq);
    SortLists(Listed(ls.extra.Keys), ls.extra.Keys);
    r := AppendPairs(r, names, ls.extra);
    SixParts(dst, Field(ls.service), Field(ls.host), Field(ls.env), Uvarint(|ls.extra|), Pairs(names, ls.extra));
  }

  lemma SixParts(dst: string, a: string, b: string, c: string, d: string, e: string)
    ensures dst + a + b + c + d + e == dst + (a + b + c + d + e)
  {
    Regroup(dst, a, b);
    Regroup(dst, a + b, c);
    Regroup(dst, a + b + c, d);
    Regroup(dst, a + b + c + d, e);
  }
}
