/** pointKey (internal/cluster/coordinator.go): the text under which the coordinator adds up a group. */
module PointKeys {
  import opened Prelude
  import opened GroupOrder

  const MISSING := '\U{0}'
  const PRESENT := '\U{1}'

  /** A bucket's time in UTC, RFC 3339 with nanoseconds. */
  type Stamp = int -> string

  /** It ends in Z, has no other Z, and different times print differently. */
  ghost predicate IsStamp(f: Stamp) {
    && (forall t :: |f(t)| > 0 && f(t)[|f(t)| - 1] == 'Z' && forall i :: 0 <= i < |f(t)| - 1 ==> f(t)[i] != 'Z')
    && (forall t, u :: f(t) == f(u) ==> t == u)
  }

  function Mark(v: Option<string>): string {
    if v.Some? then [PRESENT] + v.value else [MISSING]
  }

  function Marks(vs: seq<Option<string>>): string {
    if vs == [] then [] else Mark(vs[0]) + Marks(vs[1..])
  }

  function PointKey(f: Stamp, g: Group): string {
    f(g.bucket) + Marks(g.values)
  }

  type Alphabet = char -> bool

  ghost predicate Over(alphabet: Alphabet, vs: seq<Option<string>>) {
    forall i, k :: 0 <= i < |vs| && vs[i].Some? && 0 <= k < |vs[i].value| ==> alphabet(vs[i].value[k])
  }

  /** No two groups of n labels with values over the alphabet share a key. */
  ghost predicate Injective(f: Stamp, n: nat, alphabet: Alphabet) {
    forall g: Group, h: Group ::
      |g.values| == |h.values| == n && Over(alphabet, g.values) && Over(alphabet, h.values) && PointKey(f, g) == PointKey(f, h) ==> g == h
  }

  /** What a caller can check: the number of by labels, and whether a value may hold the byte 0 or 1. */
  predicate Separable(n: nat, alphabet: Alphabet) {
    n <= 1 || (!alphabet(PRESENT) && (n == 2 || !alphabet(MISSING)))
  }

  ghost predicate Free(s: string, mark: char) {
    forall k :: 0 <= k < |s| ==> s[k] != mark
  }

  /** Texts without the marks, followed by nothing or by a mark, are told apart. */
  lemma CutIsUnique(v: string, x: string, w: string, y: string, a: char, b: char)
    requires v + x == w + y && Free(v, a) && Free(v, b) && Free(w, a) && Free(w, b)
    requires (x == [] || x[0] == a || x[0] == b) && (y == [] || y[0] == a || y[0] == b)
    ensures v == w && x == y
  {
    var all := v + x;
    assert forall k :: 0 <= k < |v| ==> all[k] == v[k];
    assert forall k :: 0 <= k < |w| ==> all[k] == w[k];
    assert x != [] ==> all[|v|] == x[0];
    assert y != [] ==> all[|w|] == y[0];
    assert |v| == |w|;
    assert (v + x)[|v|..] == x && (w + y)[|w|..] == y;
    assert (v + x)[..|v|] == v && (w + y)[..|w|] == w;
  }

  lemma StampIsPrefixFree(f: Stamp, t: int, u: int, x: string, y: string)
    requires IsStamp(f) && f(t) + x == f(u) + y
    ensures t == u && x == y
  {
    var a, b := f(t)[..|f(t)| - 1], f(u)[..|f(u)| - 1];
    assert a + (['Z'] + x) == f(t) + x && b + (['Z'] + y) == f(u) + y;
    CutIsUnique(a, ['Z'] + x, b, ['Z'] + y, 'Z', 'Z');
    assert f(t) == a + ['Z'] && f(u) == b + ['Z'];
    assert x == (['Z'] + x)[1..] && y == (['Z'] + y)[1..];
  }

  lemma {:induction false} MarksStart(vs: seq<Option<string>>)
    ensures vs == [] ==> Marks(vs) == []
    ensures vs != [] ==> Marks(vs) != [] && Marks(vs)[0] == (if vs[0].Some? then PRESENT else MISSING)
    ensures vs != [] ==> Marks(vs)[1..] == (if vs[0].Some? then vs[0].value else []) + Marks(vs[1..])
  {
    if vs != [] {
      var m, rest := Mark(vs[0]), Marks(vs[1..]);
      assert m[1..] == (if vs[0].Some? then vs[0].value else []);
      assert (m + rest)[1..] == m[1..] + rest;
    }
  }

  lemma {:induction false} MarksUnique(vs: seq<Option<string>>, ws: seq<Option<string>>, alphabet: Alphabet)
    requires |vs| == |ws| && Over(alphabet, vs) && Over(alphabet, ws) && Marks(vs) == Marks(ws)
    requires !alphabet(PRESENT) && !alphabet(MISSING)
    ensures vs == ws
    decreases |vs|
  {
    if vs != [] {
      MarksStart(vs);
      MarksStart(ws);
      MarksStart(vs[1..]);
      MarksStart(ws[1..]);
      if vs[0].Some? {
        CutIsUnique(vs[0].value, Marks(vs[1..]), ws[0].value, Marks(ws[1..]), PRESENT, MISSING);
      } else {
        assert [] + Marks(vs[1..]) == Marks(vs[1..]) && [] + Marks(ws[1..]) == Marks(ws[1..]);
      }
      MarksUnique(vs[1..], ws[1..], alphabet);
      assert vs == [vs[0]] + vs[1..] && ws == [ws[0]] + ws[1..];
    }
  }

  lemma OneMarkUnique(v: Option<string>, w: Option<string>)
    requires Mark(v) == Mark(w)
    ensures v == w
  {
    assert v.Some? ==> Mark(v)[1..] == v.value;
    assert w.Some? ==> Mark(w)[1..] == w.value;
    assert Mark(v)[0] == Mark(w)[0];
  }

  lemma MarksOfOne(vs: seq<Option<string>>)
    requires |vs| == 1
    ensures Marks(vs) == Mark(vs[0])
  {
    assert Marks(vs[1..]) == [];
  }

  lemma MarkStart(v: Option<string>, rest: string)
    ensures (Mark(v) + rest)[0] == (if v.Some? then PRESENT else MISSING)
    ensures (Mark(v) + rest)[1..] == (if v.Some? then v.value + rest else rest)
  {
    assert (Mark(v) + rest)[1..] == Mark(v)[1..] + rest;
    assert v.Some? ==> Mark(v)[1..] == v.value;
  }

  lemma TwoMarksUnique(v: Option<string>, v2: Option<string>, w: Option<string>, w2: Option<string>)
    requires Mark(v) + Mark(v2) == Mark(w) + Mark(w2)
    requires (v.Some? ==> Free(v.value, PRESENT)) && (w.Some? ==> Free(w.value, PRESENT))
    requires (v2.Some? ==> Free(v2.value, PRESENT)) && (w2.Some? ==> Free(w2.value, PRESENT))
    ensures v == w && v2 == w2
  {
    MarkStart(v, Mark(v2));
    MarkStart(w, Mark(w2));
    if v.None? {
      OneMarkUnique(v2, w2);
    } else {
      TailsUnique(v.value, v2, w.value, w2);
    }
  }

  lemma TailsUnique(v: string, v2: Option<string>, w: string, w2: Option<string>)
    requires v + Mark(v2) == w + Mark(w2) && Free(v, PRESENT) && Free(w, PRESENT)
    requires (v2.Some? ==> Free(v2.value, PRESENT)) && (w2.Some? ==> Free(w2.value, PRESENT))
    ensures v == w && v2 == w2
  {
    assert v2.Some? <==> w2.Some? by {
      assert v2.Some? ==> (v + Mark(v2))[|v|] == PRESENT;
      assert w2.Some? ==> (w + Mark(w2))[|w|] == PRESENT;
      assert v2.None? ==> Free(v + Mark(v2), PRESENT);
      assert w2.None? ==> Free(w + Mark(w2), PRESENT);
    }
    if v2.Some? {
      CutIsUnique(v, Mark(v2), w, Mark(w2), PRESENT, PRESENT);
      OneMarkUnique(v2, w2);
    } else {
      assert (v + Mark(v2))[..|v|] == v && (w + Mark(w2))[..|w|] == w;
    }
  }

  lemma MarksOfTwo(vs: seq<Option<string>>)
    requires |vs| == 2
    ensures Marks(vs) == Mark(vs[0]) + Mark(vs[1])
  {
    MarksOfOne(vs[1..]);
  }

  lemma SeparableMarks(vs: seq<Option<string>>, ws: seq<Option<string>>, alphabet: Alphabet)
    requires |vs| == |ws| && Over(alphabet, vs) && Over(alphabet, ws) && Marks(vs) == Marks(ws)
    requires Separable(|vs|, alphabet)
    ensures vs == ws
  {
    if |vs| == 1 {
      MarksOfOne(vs);
      MarksOfOne(ws);
      OneMarkUnique(vs[0], ws[0]);
    } else if |vs| == 2 {
      MarksOfTwo(vs);
      MarksOfTwo(ws);
      TwoMarksUnique(vs[0], vs[1], ws[0], ws[1]);
    } else if |vs| > 2 {
      MarksUnique(vs, ws, alphabet);
    }
  }

  lemma Associates(a: string, b: string, c: string)
    ensures a + (b + c) == (a + b) + c
  {
  }

  lemma {:induction false} MarksConcat(a: seq<Option<string>>, b: seq<Option<string>>)
    ensures Marks(a + b) == Marks(a) + Marks(b)
  {
    if a == [] {
      assert a + b == b;
    } else {
      MarksConcat(a[1..], b);
      assert (a + b)[1..] == a[1..] + b;
      Associates(Mark(a[0]), Marks(a[1..]), Marks(b));
    }
  }

  function Missing(n: nat): (r: seq<Option<string>>)
    ensures |r| == n && forall i :: 0 <= i < n ==> r[i] == None
  {
    seq(n, _ => None)
  }

  /** Two groups of two labels that collide when a value may be the byte 1. */
  function TwoA(): seq<Option<string>> { [Some([PRESENT]), Some([])] }
  function TwoB(): seq<Option<string>> { [Some([]), Some([PRESENT])] }

  /** Two groups of three labels that collide when a value may be the byte 0. */
  function ThreeA(): seq<Option<string>> { [Some([]), None, Some([MISSING])] }
  function ThreeB(): seq<Option<string>> { [Some([MISSING]), Some([]), None] }

  lemma Collisions()
    ensures Marks(TwoA()) == Marks(TwoB()) && TwoA() != TwoB()
    ensures Marks(ThreeA()) == Marks(ThreeB()) && ThreeA() != ThreeB()
  {
    MarksOfTwo(TwoA());
    MarksOfTwo(TwoB());
    MarksOfTwo(ThreeA()[1..]);
    MarksOfTwo(ThreeB()[1..]);
    assert TwoA()[0] != TwoB()[0];
    assert ThreeA()[0] != ThreeB()[0];
    calc {
      Marks(ThreeA());
      Mark(Some([])) + (Mark(None) + Mark(Some([MISSING])));
      [PRESENT, MISSING, PRESENT, MISSING];
      Mark(Some([MISSING])) + (Mark(Some([])) + Mark(None));
      Marks(ThreeB());
    }
  }

  lemma Collide(f: Stamp, alphabet: Alphabet, a: seq<Option<string>>, b: seq<Option<string>>, n: nat)
    requires |a| == |b| <= n && a != b && Marks(a) == Marks(b) && Over(alphabet, a) && Over(alphabet, b)
    ensures !Injective(f, n, alphabet)
  {
    var pad := Missing(n - |a|);
    MarksConcat(a, pad);
    MarksConcat(b, pad);
    var g, h := Group(0, a + pad), Group(0, b + pad);
    assert g.values[..|a|] == a && h.values[..|a|] == b;
    assert g != h && PointKey(f, g) == PointKey(f, h);
    assert Over(alphabet, g.values) && Over(alphabet, h.values);
  }

  /** The key tells all groups apart exactly when there is at most one by label, or two and no value
      can hold the byte 1, or no value can hold the byte 0 or 1. */
  lemma PointKeyInjectiveIff(f: Stamp, n: nat, alphabet: Alphabet)
    requires IsStamp(f)
    ensures Injective(f, n, alphabet) <==> Separable(n, alphabet)
  {
    Collisions();
    if Separable(n, alphabet) {
      forall g: Group, h: Group | |g.values| == |h.values| == n && Over(alphabet, g.values) && Over(alphabet, h.values)
                                  && PointKey(f, g) == PointKey(f, h)
        ensures g == h
      {
        StampIsPrefixFree(f, g.bucket, h.bucket, Marks(g.values), Marks(h.values));
        SeparableMarks(g.values, h.values, alphabet);
      }
    } else if alphabet(PRESENT) {
      Collide(f, alphabet, TwoA(), TwoB(), n);
    } else {
      Collide(f, alphabet, ThreeA(), ThreeB(), n);
    }
  }

  // The groups a query returns

  predicate Distinct(names: seq<string>) {
    forall i, j :: 0 <= i < j < |names| ==> names[i] != names[j]
  }

  /** How many of distinct labels are not the level. */
  function Others(names: seq<string>): int { |names| - if "level" in names then 1 else 0 }

  /** The values other than a level's name are over the alphabet. */
  ghost predicate Admits(names: seq<string>, alphabet: Alphabet, g: Group) {
    forall i, k :: 0 <= i < |names| && i < |g.values| && names[i] != "level" && g.values[i].Some? && 0 <= k < |g.values[i].value| ==>
      alphabet(g.values[i].value[k])
  }

  /** What a caller can check of a by list, which has no duplicates. */
  predicate Tellable(names: seq<string>, alphabet: Alphabet) {
    || Separable(|names|, alphabet)
    || (Distinct(names) && (Others(names) <= 1 || (!alphabet(PRESENT) && !alphabet(MISSING))))
  }

  ghost predicate Told(f: Stamp, names: seq<string>, alphabet: Alphabet) {
    forall g: Group, h: Group ::
      (WellFormed(names, g) && WellFormed(names, h) && Admits(names, alphabet, g) && Admits(names, alphabet, h)
       && PointKey(f, g) == PointKey(f, h)) ==> g == h
  }

  lemma NamesAreUnmarked(s: string)
    requires Severity(s) < 7
    ensures s != [] && Free(s, PRESENT) && Free(s, MISSING)
  {
  }

  /** Everything but the marks, and what the alphabet has of those. */
  function Padded(alphabet: Alphabet): Alphabet {
    c => (c != PRESENT && c != MISSING) || alphabet(c)
  }

  lemma AdmitsOver(names: seq<string>, alphabet: Alphabet, g: Group)
    requires WellFormed(names, g) && Admits(names, alphabet, g)
    ensures Over(Padded(alphabet), g.values)
  {
    forall i, k | 0 <= i < |g.values| && g.values[i].Some? && 0 <= k < |g.values[i].value|
      ensures Padded(alphabet)(g.values[i].value[k])
    {
      if names[i] == "level" {
        NamesAreUnmarked(g.values[i].value);
      }
    }
  }

  /** A level's name ends at the next mark. */
  lemma LevelFirst(a: string, v: Option<string>, b: string, w: Option<string>)
    requires Severity(a) < 7 && Severity(b) < 7 && Mark(Some(a)) + Mark(v) == Mark(Some(b)) + Mark(w)
    ensures a == b && v == w
  {
    NamesAreUnmarked(a);
    NamesAreUnmarked(b);
    MarkStart(Some(a), Mark(v));
    MarkStart(Some(b), Mark(w));
    CutIsUnique(a, Mark(v), b, Mark(w), PRESENT, MISSING);
    OneMarkUnique(v, w);
  }

  /** A level's name starts after the last mark. */
  lemma LevelLast(v: Option<string>, a: string, w: Option<string>, b: string)
    requires Severity(a) < 7 && Severity(b) < 7 && Mark(v) + Mark(Some(a)) == Mark(w) + Mark(Some(b))
    ensures v == w && a == b
  {
    NamesAreUnmarked(a);
    NamesAreUnmarked(b);
    var x, y := Mark(v), Mark(w);
    var all := x + Mark(Some(a));
    assert all[|x|] == PRESENT && all[|y|] == PRESENT;
    assert |x| == |y|;
    assert all[..|x|] == x && all[..|y|] == y && all[|x|..] == Mark(Some(a)) && all[|y|..] == Mark(Some(b));
    OneMarkUnique(v, w);
    OneMarkUnique(Some(a), Some(b));
  }

  lemma LevelAndOne(names: seq<string>, g: Group, h: Group)
    requires |names| == 2 && "level" in names && WellFormed(names, g) && WellFormed(names, h)
    requires Marks(g.values) == Marks(h.values)
    ensures g.values == h.values
  {
    MarksOfTwo(g.values);
    MarksOfTwo(h.values);
    if names[0] == "level" {
      LevelFirst(g.values[0].value, g.values[1], h.values[0].value, h.values[1]);
    } else {
      LevelLast(g.values[0], g.values[1].value, h.values[0], h.values[1].value);
    }
    assert g.values == [g.values[0], g.values[1]] && h.values == [h.values[0], h.values[1]];
  }

  lemma TellableTells(f: Stamp, names: seq<string>, alphabet: Alphabet)
    requires IsStamp(f) && Tellable(names, alphabet)
    ensures Told(f, names, alphabet)
  {
    forall g: Group, h: Group | WellFormed(names, g) && WellFormed(names, h) && Admits(names, alphabet, g)
                                && Admits(names, alphabet, h) && PointKey(f, g) == PointKey(f, h)
      ensures g == h
    {
      StampIsPrefixFree(f, g.bucket, h.bucket, Marks(g.values), Marks(h.values));
      AdmitsOver(names, alphabet, g);
      AdmitsOver(names, alphabet, h);
      if Separable(|names|, alphabet) {
        SeparableMarks(g.values, h.values, Padded(alphabet));
      } else if !alphabet(PRESENT) && !alphabet(MISSING) {
        MarksUnique(g.values, h.values, Padded(alphabet));
      } else {
        LevelAndOne(names, g, h);
      }
    }
  }

  /** A group of these labels: levels are known, other labels missing. */
  function Blank(names: seq<string>): (r: seq<Option<string>>)
    ensures |r| == |names|
    ensures forall i :: 0 <= i < |r| ==> r[i] == if names[i] == "level" then Some("info") else None
  {
    seq(|names|, i requires 0 <= i < |names| => if names[i] == "level" then Some("info") else None)
  }

  /** Two groups that collide around a level when a value may be the byte 1. */
  function AroundA(): seq<Option<string>> { [Some([]), Some("info"), Some([PRESENT] + "info" + [PRESENT])] }
  function AroundB(): seq<Option<string>> { [Some([PRESENT] + "info" + [PRESENT]), Some("info"), Some([])] }

  lemma AroundCollide()
    ensures Marks(AroundA()) == Marks(AroundB()) && AroundA()[0] != AroundB()[0]
  {
    MarksOfTwo(AroundA()[1..]);
    MarksOfTwo(AroundB()[1..]);
    calc {
      Marks(AroundA());
      Mark(Some([])) + (Mark(Some("info")) + Mark(Some([PRESENT] + "info" + [PRESENT])));
      [PRESENT, PRESENT] + "info" + [PRESENT, PRESENT] + "info" + [PRESENT];
      Mark(Some([PRESENT] + "info" + [PRESENT])) + (Mark(Some("info")) + Mark(Some([])));
      Marks(AroundB());
    }
  }

  /** Values for the labels from p on. */
  ghost predicate Fills(names: seq<string>, alphabet: Alphabet, p: nat, a: seq<Option<string>>) {
    && p + |a| <= |names| && Over(Padded(alphabet), a)
    && forall i :: 0 <= i < |a| && names[p + i] == "level" ==> a[i] == Some("info")
  }

  /** Any character but the byte 0. */
  ghost predicate Wide(alphabet: Alphabet) {
    forall c :: Padded(alphabet)(c) ==> alphabet(c)
  }

  /** Two fillings of some positions that collide make two groups that do. */
  lemma Filled(f: Stamp, names: seq<string>, alphabet: Alphabet, p: nat, a: seq<Option<string>>, b: seq<Option<string>>)
    requires |a| == |b| && Marks(a) == Marks(b) && a != b && Wide(alphabet)
    requires Fills(names, alphabet, p, a) && Fills(names, alphabet, p, b)
    ensures !Told(f, names, alphabet)
  {
    FilledIsFine(names, alphabet, p, a);
    FilledIsFine(names, alphabet, p, b);
    FilledAlike(names, p, a, b);
    TwoAlike(f, names, alphabet, FillIn(names, p, a), FillIn(names, p, b));
  }

  lemma FilledAlike(names: seq<string>, p: nat, a: seq<Option<string>>, b: seq<Option<string>>)
    requires p + |a| <= |names| && |a| == |b| && Marks(a) == Marks(b) && a != b
    ensures Marks(FillIn(names, p, a).values) == Marks(FillIn(names, p, b).values)
    ensures FillIn(names, p, a).bucket == FillIn(names, p, b).bucket && FillIn(names, p, a).values != FillIn(names, p, b).values
  {
    InsertedAlike(Blank(names), p, a, b);
  }

  function Inserted(blank: seq<Option<string>>, p: nat, a: seq<Option<string>>): seq<Option<string>>
    requires p + |a| <= |blank|
  {
    blank[..p] + (a + blank[p + |a|..])
  }

  lemma InsertedAlike(blank: seq<Option<string>>, p: nat, a: seq<Option<string>>, b: seq<Option<string>>)
    requires p + |a| <= |blank| && |a| == |b| && Marks(a) == Marks(b) && a != b
    ensures Marks(Inserted(blank, p, a)) == Marks(Inserted(blank, p, b)) && Inserted(blank, p, a) != Inserted(blank, p, b)
  {
    InsertedMarks(blank, p, a);
    InsertedMarks(blank, p, b);
  }

  lemma InsertedMarks(blank: seq<Option<string>>, p: nat, a: seq<Option<string>>)
    requires p + |a| <= |blank|
    ensures Marks(Inserted(blank, p, a)) == Marks(blank[..p]) + (Marks(a) + Marks(blank[p + |a|..]))
    ensures Inserted(blank, p, a)[p..][..|a|] == a
  {
    var pre, post := blank[..p], blank[p + |a|..];
    MarksConcat(pre, a + post);
    MarksConcat(a, post);
  }

  function FillIn(names: seq<string>, p: nat, a: seq<Option<string>>): Group
    requires p + |a| <= |names|
  {
    Group(0, Inserted(Blank(names), p, a))
  }

  lemma TwoAlike(f: Stamp, names: seq<string>, alphabet: Alphabet, g: Group, h: Group)
    requires WellFormed(names, g) && WellFormed(names, h) && Admits(names, alphabet, g) && Admits(names, alphabet, h)
    requires g.bucket == h.bucket && Marks(g.values) == Marks(h.values) && g.values != h.values
    ensures !Told(f, names, alphabet)
  {
    assert PointKey(f, g) == PointKey(f, h);
  }

  lemma FilledIsFine(names: seq<string>, alphabet: Alphabet, p: nat, a: seq<Option<string>>)
    requires Fills(names, alphabet, p, a) && Wide(alphabet)
    ensures WellFormed(names, FillIn(names, p, a)) && Admits(names, alphabet, FillIn(names, p, a))
  {
    var vs := FillIn(names, p, a).values;
    assert Severity("info") == 3;
    forall i | 0 <= i < |names|
      ensures vs[i] == if p <= i < p + |a| then a[i - p] else Blank(names)[i]
    {
    }
  }

  /** The exact condition for the groups that a query returns: a level is one of seven names, a by list
      has no duplicates, and text from the database holds any character but the byte 0. The keys tell
      all groups apart exactly when at most one label is not the level, or no value holds the byte 1. */
  lemma QueryKeysIff(f: Stamp, names: seq<string>, alphabet: Alphabet)
    requires IsStamp(f) && Distinct(names)
    requires !alphabet(MISSING) && forall c :: c != MISSING && c != PRESENT ==> alphabet(c)
    ensures Told(f, names, alphabet) <==> Others(names) <= 1 || !alphabet(PRESENT)
  {
    if Others(names) <= 1 || !alphabet(PRESENT) {
      TellableTells(f, names, alphabet);
    } else {
      Collisions();
      AroundCollide();
      if names[0] == "level" {
        Filled(f, names, alphabet, 1, TwoA(), TwoB());
      } else if names[1] == "level" {
        Filled(f, names, alphabet, 0, AroundA(), AroundB());
      } else {
        Filled(f, names, alphabet, 0, TwoA(), TwoB());
      }
    }
  }
}
