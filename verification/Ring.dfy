/** The consistent hash ring (internal/cluster/ring.go). The token hash is any function. */
module Ring {
  import opened Sorting

  const TOP := 0x1_0000_0000_0000_0000

  type Key = n: int | 0 <= n < TOP

  const DEFAULT_VNODES := 128

  datatype Token = Token(hash: Key, node: string)

  datatype Ring = Ring(tokens: seq<Token>, nodes: seq<string>)

  type Hash = (string, nat) -> Key

  predicate TokenLeq(a: Token, b: Token) {
    a.hash < b.hash || (a.hash == b.hash && StringLeq(a.node, b.node))
  }

  lemma TokenOrder()
    ensures TotalOrder(TokenLeq)
  {
    StringOrder();
  }

  /** slices.Sort and slices.Compact of the member names. */
  function Members(names: seq<string>): seq<string> {
    Compact(Sort(names, StringLeq))
  }

  lemma MembersStrict(names: seq<string>)
    ensures Strict(Members(names), StringLeq) && forall n :: n in Members(names) <==> n in names
  {
    StringOrder();
    SortSorts(names, StringLeq);
    SortMembers(names, StringLeq);
    CompactStrict(Sort(names, StringLeq), StringLeq);
    CompactMembers(Sort(names, StringLeq));
  }

  function VNodes(vnodes: int): nat { if vnodes < 1 then DEFAULT_VNODES else vnodes }

  /** The tokens of the first `k` virtual nodes of `node`. */
  function NodeTokens(hash: Hash, node: string, k: nat): seq<Token> {
    if k == 0 then [] else NodeTokens(hash, node, k - 1) + [Token(hash(node, k - 1), node)]
  }

  function AllTokens(hash: Hash, nodes: seq<string>, vnodes: nat): seq<Token> {
    if nodes == [] then []
    else AllTokens(hash, nodes[..|nodes| - 1], vnodes) + NodeTokens(hash, nodes[|nodes| - 1], vnodes)
  }

  function RingOf(hash: Hash, names: seq<string>, vnodes: int): Ring {
    var nodes := Members(names);
    Ring(Sort(AllTokens(hash, nodes, VNodes(vnodes)), TokenLeq), nodes)
  }

  /** NewRing. */
  method NewRing(hash: Hash, names: seq<string>, vnodes0: int) returns (r: Ring)
    ensures r == RingOf(hash, names, vnodes0)
  {
    var vnodes := if vnodes0 < 1 then DEFAULT_VNODES else vnodes0;
    var nodes := Compact(Sort(names, StringLeq));
    var tokens := [];
    for i := 0 to |nodes|
      invariant tokens == AllTokens(hash, nodes[..i], vnodes)
    {
      assert nodes[..i + 1][..i] == nodes[..i];
      for v := 0 to vnodes
        invariant tokens == AllTokens(hash, nodes[..i], vnodes) + NodeTokens(hash, nodes[i], v)
      {
        tokens := tokens + [Token(hash(nodes[i], v), nodes[i])];
      }
    }
    assert nodes[..|nodes|] == nodes;
    r := Ring(Sort(tokens, TokenLeq), nodes);
  }

  /** t is a token of a member. */
  ghost predicate IsToken(hash: Hash, names: seq<string>, vnodes: int, t: Token) {
    t.node in names && exists i: nat :: i < VNodes(vnodes) && t.hash == hash(t.node, i)
  }

  lemma {:induction false} NodeTokensMembers(hash: Hash, node: string, k: nat)
    ensures forall t :: t in NodeTokens(hash, node, k) <==> t.node == node && exists i: nat :: i < k && t.hash == hash(node, i)
  {
    if k > 0 {
      NodeTokensMembers(hash, node, k - 1);
      var last := Token(hash(node, k - 1), node);
      forall t
        ensures t in NodeTokens(hash, node, k) <==> t.node == node && exists i: nat :: i < k && t.hash == hash(node, i)
      {
        if t.node == node && exists i: nat :: i < k && t.hash == hash(node, i) {
          var i: nat :| i < k && t.hash == hash(node, i);
          if i == k - 1 { assert t == last; }
        }
      }
    }
  }

  lemma {:induction false} AllTokensMembers(hash: Hash, nodes: seq<string>, vnodes: nat)
    ensures forall t :: t in AllTokens(hash, nodes, vnodes) <==>
              t.node in nodes && exists i: nat :: i < vnodes && t.hash == hash(t.node, i)
  {
    if nodes != [] {
      var k := |nodes| - 1;
      AllTokensMembers(hash, nodes[..k], vnodes);
      NodeTokensMembers(hash, nodes[k], vnodes);
      assert nodes == nodes[..k] + [nodes[k]];
    }
  }

  /** What a ring holds: its tokens are sorted and are exactly those of its members. */
  lemma RingTokens(hash: Hash, names: seq<string>, vnodes: int)
    ensures Sorted(RingOf(hash, names, vnodes).tokens, TokenLeq)
    ensures forall t :: t in RingOf(hash, names, vnodes).tokens <==> IsToken(hash, names, vnodes, t)
  {
    var all := AllTokens(hash, Members(names), VNodes(vnodes));
    TokenOrder();
    SortSorts(all, TokenLeq);
    SortMembers(all, TokenLeq);
    AllTokensMembers(hash, Members(names), VNodes(vnodes));
    MembersStrict(names);
  }

  /** The ring depends only on the set of names. */
  lemma RingDependsOnSet(hash: Hash, a: seq<string>, b: seq<string>, vnodes: int)
    requires forall n :: n in a <==> n in b
    ensures RingOf(hash, a, vnodes) == RingOf(hash, b, vnodes)
  {
    StringOrder();
    MembersStrict(a);
    MembersStrict(b);
    StrictUnique(Members(a), Members(b), StringLeq);
  }

  /** sort.Search and the wrap to 0. */
  method Slot(tokens: seq<Token>, h: Key) returns (i: nat)
    requires tokens != [] && Sorted(tokens, TokenLeq)
    ensures i < |tokens|
    ensures IsSlot(tokens, h, i)
  {
    var lo, hi := 0, |tokens|;
    while lo < hi
      invariant 0 <= lo <= hi <= |tokens|
      invariant forall k :: 0 <= k < lo ==> tokens[k].hash < h
      invariant forall k :: hi <= k < |tokens| ==> tokens[k].hash >= h
    {
      var mid := (lo + hi) / 2;
      if tokens[mid].hash >= h {
        assert forall k :: mid < k < |tokens| ==> TokenLeq(tokens[mid], tokens[k]);
        hi := mid;
      } else {
        assert forall k :: 0 <= k < mid ==> TokenLeq(tokens[k], tokens[mid]);
        lo := mid + 1;
      }
    }
    i := if lo == |tokens| then 0 else lo;
  }

  /** i is the first token at or after h, or 0 when there is none. */
  ghost predicate IsSlot(tokens: seq<Token>, h: Key, i: nat) {
    && i < |tokens|
    && (if tokens[i].hash >= h then forall k :: 0 <= k < i ==> tokens[k].hash < h
        else i == 0 && forall k :: 0 <= k < |tokens| ==> tokens[k].hash < h)
  }

  /** Position of a token on the circle read from h on. */
  ghost predicate NotAfter(h: Key, t: Token, u: Token) {
    if t.hash >= h && u.hash < h then true
    else if t.hash < h && u.hash >= h then false
    else TokenLeq(t, u)
  }

  /** t is the first token on the circle from h on. */
  ghost predicate First(tokens: seq<Token>, h: Key, t: Token) {
    t in tokens && forall u :: u in tokens ==> NotAfter(h, t, u)
  }

  lemma SlotIsFirst(tokens: seq<Token>, h: Key, i: nat)
    requires Sorted(tokens, TokenLeq) && IsSlot(tokens, h, i)
    ensures First(tokens, h, tokens[i])
  {
    TokenOrder();
    forall u | u in tokens
      ensures NotAfter(h, tokens[i], u)
    {
      var k :| 0 <= k < |tokens| && tokens[k] == u;
      if k > i { assert TokenLeq(tokens[i], tokens[k]); }
    }
  }

  lemma FirstIsUnique(tokens: seq<Token>, h: Key, t: Token, u: Token)
    requires First(tokens, h, t) && First(tokens, h, u)
    ensures t == u
  {
    TokenOrder();
    assert NotAfter(h, t, u) && NotAfter(h, u, t);
  }

  /** The owner: the node of the first token from h on, "" on an empty ring. */
  ghost function OwnerSpec(tokens: seq<Token>, h: Key): string
    requires Sorted(tokens, TokenLeq)
  {
    if tokens == [] then "" else
      FirstExists(tokens, h);
      var t :| First(tokens, h, t);
      t.node
  }

  lemma {:induction false} FirstExists(tokens: seq<Token>, h: Key)
    requires tokens != [] && Sorted(tokens, TokenLeq)
    ensures exists t :: First(tokens, h, t)
  {
    if forall k :: 0 <= k < |tokens| ==> tokens[k].hash < h {
      SlotIsFirst(tokens, h, 0);
    } else {
      var k := FirstAtOrAfter(tokens, h, 0);
      SlotIsFirst(tokens, h, k);
    }
  }

  ghost function FirstAtOrAfter(tokens: seq<Token>, h: Key, from: nat): (k: nat)
    requires from <= |tokens| && (forall i :: 0 <= i < from ==> tokens[i].hash < h)
    requires exists i :: from <= i < |tokens| && tokens[i].hash >= h
    ensures k < |tokens| && tokens[k].hash >= h && forall i :: 0 <= i < k ==> tokens[i].hash < h
    decreases |tokens| - from
  {
    if tokens[from].hash >= h then from else FirstAtOrAfter(tokens, h, from + 1)
  }

  /** Owner, and ownerOf. */
  method Owner(r: Ring, h: Key) returns (node: string)
    requires Sorted(r.tokens, TokenLeq)
    ensures node == OwnerSpec(r.tokens, h)
  {
    if |r.tokens| == 0 {
      return "";
    }
    var i := Slot(r.tokens, h);
    SlotIsFirst(r.tokens, h, i);
    OwnerIsFirst(r.tokens, h, r.tokens[i]);
    node := r.tokens[i].node;
  }

  lemma OwnerIsFirst(tokens: seq<Token>, h: Key, t: Token)
    requires Sorted(tokens, TokenLeq) && First(tokens, h, t)
    ensures OwnerSpec(tokens, h) == t.node
  {
    var u :| First(tokens, h, u) && OwnerSpec(tokens, h) == u.node;
    FirstIsUnique(tokens, h, t, u);
  }

  /** Going from `names` to `more`, which has one member in addition, every key keeps its owner or
      goes to the new member; read the other way round, removing a member moves its own keys only.
      Token collisions are allowed. */
  lemma OnlyTheNewMemberGains(hash: Hash, names: seq<string>, more: seq<string>, node: string, vnodes: int, h: Key)
    requires forall n :: n in more <==> n in names || n == node
    ensures Sorted(RingOf(hash, names, vnodes).tokens, TokenLeq) && Sorted(RingOf(hash, more, vnodes).tokens, TokenLeq)
    ensures var before := OwnerSpec(RingOf(hash, names, vnodes).tokens, h);
            var after := OwnerSpec(RingOf(hash, more, vnodes).tokens, h);
            after == before || after == node
  {
    RingTokens(hash, names, vnodes);
    RingTokens(hash, more, vnodes);
    var a, b := RingOf(hash, names, vnodes).tokens, RingOf(hash, more, vnodes).tokens;
    assert node in more;
    TokensExist(hash, more, vnodes);
    FirstExists(b, h);
    var t :| First(b, h, t);
    OwnerIsFirst(b, h, t);
    if t.node != node {
      assert IsToken(hash, names, vnodes, t);
      FirstExists(a, h);
      var s :| First(a, h, s);
      OwnerIsFirst(a, h, s);
      assert t in a;
      forall u | u in a
        ensures NotAfter(h, t, u)
      {
        assert u in b;
      }
      FirstIsUnique(a, h, s, t);
    }
  }

  lemma TokensExist(hash: Hash, names: seq<string>, vnodes: int)
    requires names != []
    ensures RingOf(hash, names, vnodes).tokens != []
  {
    RingTokens(hash, names, vnodes);
    var t := Token(hash(names[0], 0), names[0]);
    assert IsToken(hash, names, vnodes, t);
    assert t in RingOf(hash, names, vnodes).tokens;
  }

  datatype Transfer = Transfer(lo: Key, hi: Key, from: string, to: string)

  /** The range (lo, hi] of the circle; lo == hi is the whole circle. */
  predicate Between(lo: Key, hi: Key, h: Key) {
    if lo < hi then lo < h <= hi else h > lo || h <= hi
  }

  predicate Covers(t: Transfer, h: Key) {
    Between(t.lo, t.hi, h)
  }

  predicate KeyLeq(a: Key, b: Key) { a <= b }

  function Hashes(tokens: seq<Token>): (r: seq<Key>)
    ensures |r| == |tokens| && forall i :: 0 <= i < |r| ==> r[i] == tokens[i].hash
  {
    seq(|tokens|, i requires 0 <= i < |tokens| => tokens[i].hash)
  }

  /** The boundaries of both rings. */
  function Bounds(a: seq<Token>, b: seq<Token>): seq<Key> {
    Compact(Sort(Hashes(a) + Hashes(b), KeyLeq))
  }

  ghost predicate Bounded(tokens: seq<Token>, bounds: seq<Key>) {
    forall t :: t in tokens ==> t.hash in bounds
  }

  lemma BoundsStrict(a: seq<Token>, b: seq<Token>)
    ensures Strict(Bounds(a, b), KeyLeq)
    ensures Bounded(a, Bounds(a, b)) && Bounded(b, Bounds(a, b))
    ensures Bounds(a, b) == [] ==> a == [] && b == []
  {
    var all := Hashes(a) + Hashes(b);
    SortSorts(all, KeyLeq);
    SortMembers(all, KeyLeq);
    CompactStrict(Sort(all, KeyLeq), KeyLeq);
    CompactMembers(Sort(all, KeyLeq));
    HashesHold(a);
    HashesHold(b);
    assert a != [] ==> a[0] in a;
    assert b != [] ==> b[0] in b;
  }

  lemma HashesHold(tokens: seq<Token>)
    ensures forall t :: t in tokens ==> t.hash in Hashes(tokens)
  {
    forall t | t in tokens
      ensures t.hash in Hashes(tokens)
    {
      var i :| 0 <= i < |tokens| && tokens[i] == t;
      assert Hashes(tokens)[i] == t.hash;
    }
  }

  /** The index of the boundary that stands for h: the first at or after it, else 0. */
  ghost function Rep(bounds: seq<Key>, h: Key): (c: nat)
    requires bounds != []
    ensures c < |bounds|
    ensures if bounds[c] >= h then forall k :: 0 <= k < c ==> bounds[k] < h
            else c == 0 && forall k :: 0 <= k < |bounds| ==> bounds[k] < h
  {
    if forall k :: 0 <= k < |bounds| ==> bounds[k] < h then 0 else RepFrom(bounds, h, 0)
  }

  ghost function RepFrom(bounds: seq<Key>, h: Key, from: nat): (k: nat)
    requires from <= |bounds| && (forall i :: 0 <= i < from ==> bounds[i] < h)
    requires exists i :: from <= i < |bounds| && bounds[i] >= h
    ensures k < |bounds| && bounds[k] >= h && forall i :: 0 <= i < k ==> bounds[i] < h
    decreases |bounds| - from
  {
    if bounds[from] >= h then from else RepFrom(bounds, h, from + 1)
  }

  /** Between two boundaries the owner is constant. */
  lemma RepHasSameOwner(tokens: seq<Token>, bounds: seq<Key>, h: Key)
    requires Sorted(tokens, TokenLeq) && bounds != [] && Strict(bounds, KeyLeq) && Bounded(tokens, bounds)
    ensures OwnerSpec(tokens, h) == OwnerSpec(tokens, bounds[Rep(bounds, h)])
  {
    if tokens != [] {
      var b := bounds[Rep(bounds, h)];
      FirstExists(tokens, h);
      var t :| First(tokens, h, t);
      forall u | u in tokens
        ensures NotAfter(b, t, u)
      {
        SameSide(tokens, bounds, h, u);
        SameSide(tokens, bounds, h, t);
        assert NotAfter(h, t, u);
      }
      assert First(tokens, b, t);
      OwnerIsFirst(tokens, h, t);
      OwnerIsFirst(tokens, b, t);
    }
  }

  lemma SameSide(tokens: seq<Token>, bounds: seq<Key>, h: Key, u: Token)
    requires bounds != [] && Strict(bounds, KeyLeq) && Bounded(tokens, bounds) && u in tokens
    ensures var b := bounds[Rep(bounds, h)];
            if b >= h then u.hash >= h <==> u.hash >= b else u.hash < h && u.hash >= b
  {
    var c := Rep(bounds, h);
    var k :| 0 <= k < |bounds| && bounds[k] == u.hash;
    if c < k { assert KeyLeq(bounds[c], bounds[k]); }
  }

  /** A transfer made of the boundaries first..last. */
  ghost predicate Spans(bounds: seq<Key>, t: Transfer, first: nat, last: nat) {
    && first <= last < |bounds|
    && t.lo == bounds[if first == 0 then |bounds| - 1 else first - 1]
    && t.hi == bounds[last]
  }

  lemma SpanCovers(bounds: seq<Key>, t: Transfer, first: nat, last: nat, h: Key)
    requires Strict(bounds, KeyLeq) && Spans(bounds, t, first, last)
    ensures Covers(t, h) <==> first <= Rep(bounds, h) <= last
  {
    var c, top := Rep(bounds, h), |bounds| - 1;
    assert last < c ==> KeyLeq(bounds[last], bounds[c]);
    assert c < last ==> KeyLeq(bounds[c], bounds[last]);
    assert last < top ==> KeyLeq(bounds[last], bounds[top]);
    assert c < top ==> KeyLeq(bounds[c], bounds[top]);
    if first > 0 {
      assert KeyLeq(bounds[first - 1], bounds[last]);
      assert c < first - 1 ==> KeyLeq(bounds[c], bounds[first - 1]);
      assert first - 1 < c ==> KeyLeq(bounds[first - 1], bounds[c]);
    }
  }

  datatype Span = Span(first: nat, last: nat)

  /** The owner of each boundary. */
  ghost function OwnersAt(tokens: seq<Token>, bounds: seq<Key>): (names: seq<string>)
    requires Sorted(tokens, TokenLeq)
    ensures |names| == |bounds| && forall k :: 0 <= k < |bounds| ==> names[k] == OwnerSpec(tokens, bounds[k])
  {
    seq(|bounds|, k requires 0 <= k < |bounds| => OwnerSpec(tokens, bounds[k]))
  }

  /** The transfers found in the boundaries below i, with the boundaries each is made of; a and b
      are the owners of the boundaries in the two rings. */
  ghost predicate Runs(a: seq<string>, b: seq<string>, bounds: seq<Key>, i: nat, out: seq<Transfer>, spans: seq<Span>)
    requires |a| == |b| == |bounds| && i <= |bounds|
  {
    && |out| == |spans|
    && (forall n :: 0 <= n < |out| ==> Run(a, b, bounds, i, out[n], spans[n]))
    && (forall m, n :: 0 <= m < n < |out| ==> spans[m].last < spans[n].first)
    && (forall n :: 0 < n < |out| ==> UnmergedAt(out, spans, n))
    && (forall k :: 0 <= k < i && a[k] != b[k] ==> Within(spans, k))
  }

  ghost predicate Run(a: seq<string>, b: seq<string>, bounds: seq<Key>, i: nat, t: Transfer, s: Span)
    requires |a| == |b| == |bounds| && i <= |bounds|
  {
    && Spans(bounds, t, s.first, s.last) && s.last < i && t.from != t.to
    && forall k :: s.first <= k <= s.last ==> t.from == a[k] && t.to == b[k]
  }

  ghost predicate Unmerged(t: Transfer, s: Span, t': Transfer, s': Span) {
    s.last + 1 == s'.first ==> t.from != t'.from || t.to != t'.to
  }

  ghost predicate UnmergedAt(out: seq<Transfer>, spans: seq<Span>, n: nat)
    requires 0 < n < |out| == |spans|
  {
    Unmerged(out[n - 1], spans[n - 1], out[n], spans[n])
  }

  ghost predicate Within(spans: seq<Span>, k: nat) {
    exists n :: 0 <= n < |spans| && spans[n].first <= k <= spans[n].last
  }

  lemma EndsBefore(a: seq<string>, b: seq<string>, bounds: seq<Key>, i: nat, out: seq<Transfer>, spans: seq<Span>)
    requires |a| == |b| == |bounds| && i < |bounds| && Strict(bounds, KeyLeq) && Runs(a, b, bounds, i, out, spans)
    requires out != [] && out[|out| - 1].hi == bounds[if i == 0 then |bounds| - 1 else i - 1]
    ensures spans[|out| - 1].last == i - 1
  {
    assert Run(a, b, bounds, i, out[|out| - 1], spans[|out| - 1]);
  }

  /** The boundary i continues the last run. */
  lemma RunContinues(a: seq<string>, b: seq<string>, bounds: seq<Key>, i: nat, out: seq<Transfer>, spans: seq<Span>)
    requires |a| == |b| == |bounds| && i < |bounds| && Runs(a, b, bounds, i, out, spans)
    requires a[i] != b[i] && out != [] && spans[|out| - 1].last == i - 1
    requires out[|out| - 1].from == a[i] && out[|out| - 1].to == b[i]
    ensures var n := |out| - 1;
            Runs(a, b, bounds, i + 1, out[n := out[n].(hi := bounds[i])], spans[n := Span(spans[n].first, i)])
  {
    var n := |out| - 1;
    var t, s := out[n].(hi := bounds[i]), Span(spans[n].first, i);
    RunGrows(a, b, bounds, i, out[n], spans[n]);
    forall m | 0 <= m < n
      ensures Run(a, b, bounds, i + 1, out[m], spans[m]) && spans[m].last < spans[n].first
    {
      assert Run(a, b, bounds, i, out[m], spans[m]);
    }
    if n > 0 {
      assert UnmergedAt(out, spans, n);
    }
    forall k | 0 <= k < i + 1 && a[k] != b[k]
      ensures Within(spans[n := s], k)
    {
      Extended(spans, s, k);
    }
    LastReplaced(a, b, bounds, i + 1, out, spans, t, s);
  }

  lemma RunGrows(a: seq<string>, b: seq<string>, bounds: seq<Key>, i: nat, t: Transfer, s: Span)
    requires |a| == |b| == |bounds| && i < |bounds| && Run(a, b, bounds, i, t, s)
    requires s.last == i - 1 && t.from == a[i] && t.to == b[i] && a[i] != b[i]
    ensures Run(a, b, bounds, i + 1, t.(hi := bounds[i]), Span(s.first, i))
  {
  }

  /** Runs whose last one is replaced. */
  lemma LastReplaced(a: seq<string>, b: seq<string>, bounds: seq<Key>, i: nat, out: seq<Transfer>, spans: seq<Span>,
                     t: Transfer, s: Span)
    requires |a| == |b| == |bounds| && i <= |bounds| && out != [] && |out| == |spans| && Run(a, b, bounds, i, t, s)
    requires var n := |out| - 1;
             && (forall m :: 0 <= m < n ==> Run(a, b, bounds, i, out[m], spans[m]) && spans[m].last < s.first)
             && (forall m, k :: 0 <= m < k < n ==> spans[m].last < spans[k].first)
             && (forall m :: 0 < m < n ==> UnmergedAt(out, spans, m))
             && (n > 0 ==> Unmerged(out[n - 1], spans[n - 1], t, s))
             && (forall k :: 0 <= k < i && a[k] != b[k] ==> Within(spans[n := s], k))
    ensures Runs(a, b, bounds, i, out[|out| - 1 := t], spans[|out| - 1 := s])
  {
    var n := |out| - 1;
    var out', spans' := out[n := t], spans[n := s];
    forall m | 0 <= m < |out'|
      ensures Run(a, b, bounds, i, out'[m], spans'[m])
    {
    }
    forall m | 0 < m < |out'|
      ensures UnmergedAt(out', spans', m)
    {
      if m < n {
        assert UnmergedAt(out, spans, m);
      }
    }
  }

  /** The boundary i changes nothing. */
  lemma RunSkips(a: seq<string>, b: seq<string>, bounds: seq<Key>, i: nat, out: seq<Transfer>, spans: seq<Span>)
    requires |a| == |b| == |bounds| && i < |bounds| && Runs(a, b, bounds, i, out, spans) && a[i] == b[i]
    ensures Runs(a, b, bounds, i + 1, out, spans)
  {
    forall m | 0 <= m < |out|
      ensures Run(a, b, bounds, i + 1, out[m], spans[m])
    {
      assert Run(a, b, bounds, i, out[m], spans[m]);
    }
  }

  /** The boundary i starts a run of its own. */
  lemma RunStarts(a: seq<string>, b: seq<string>, bounds: seq<Key>, i: nat, out: seq<Transfer>, spans: seq<Span>)
    requires |a| == |b| == |bounds| && i < |bounds| && Runs(a, b, bounds, i, out, spans) && a[i] != b[i]
    requires out == [] || var t := out[|out| - 1]; t.hi != bounds[if i == 0 then |bounds| - 1 else i - 1] || t.from != a[i] || t.to != b[i]
    ensures Runs(a, b, bounds, i + 1, out + [Transfer(bounds[if i == 0 then |bounds| - 1 else i - 1], bounds[i], a[i], b[i])], spans + [Span(i, i)])
  {
    Added(spans, i);
    var t := Transfer(bounds[if i == 0 then |bounds| - 1 else i - 1], bounds[i], a[i], b[i]);
    var out', spans' := out + [t], spans + [Span(i, i)];
    assert Run(a, b, bounds, i + 1, t, Span(i, i));
    forall m | 0 <= m < |out|
      ensures Run(a, b, bounds, i + 1, out'[m], spans'[m])
    {
      assert Run(a, b, bounds, i, out[m], spans[m]);
    }
    forall m | 0 < m < |out'|
      ensures UnmergedAt(out', spans', m)
    {
      if m < |out| {
        assert UnmergedAt(out, spans, m);
      } else {
        assert Run(a, b, bounds, i, out[m - 1], spans[m - 1]);
      }
    }
  }

  method BoundsOf(a: seq<Token>, b: seq<Token>) returns (bounds: seq<Key>)
    ensures bounds == Bounds(a, b)
  {
    bounds := [];
    for i := 0 to |a|
      invariant bounds == Hashes(a)[..i]
    {
      bounds := bounds + [a[i].hash];
    }
    for i := 0 to |b|
      invariant bounds == Hashes(a) + Hashes(b)[..i]
    {
      bounds := bounds + [b[i].hash];
    }
    assert Hashes(b)[..|b|] == Hashes(b);
    bounds := Compact(Sort(bounds, KeyLeq));
  }

  /** The loop body of Diff: a change of owner extends the last transfer when it is the same move and
      ends where this one starts, and is a transfer of its own otherwise. */
  function Grown(out: seq<Transfer>, prev: Key, bound: Key, from: string, to: string): seq<Transfer> {
    var n := |out|;
    if from == to then out
    else if n > 0 && out[n - 1].hi == prev && out[n - 1].from == from && out[n - 1].to == to then
      out[n - 1 := out[n - 1].(hi := bound)]
    else out + [Transfer(prev, bound, from, to)]
  }

  ghost function GrownSpans(out: seq<Transfer>, spans: seq<Span>, prev: Key, i: nat, from: string, to: string): seq<Span>
    requires |out| == |spans|
  {
    var n := |out|;
    if from == to then spans
    else if n > 0 && out[n - 1].hi == prev && out[n - 1].from == from && out[n - 1].to == to then
      spans[n - 1 := Span(spans[n - 1].first, i)]
    else spans + [Span(i, i)]
  }

  lemma RunsGrow(a: seq<string>, b: seq<string>, bounds: seq<Key>, i: nat, prev: Key, out: seq<Transfer>, spans: seq<Span>,
                 more: seq<Transfer>, moreSpans: seq<Span>)
    requires |a| == |b| == |bounds| && i < |bounds| && Strict(bounds, KeyLeq) && Runs(a, b, bounds, i, out, spans)
    requires prev == bounds[if i == 0 then |bounds| - 1 else i - 1]
    requires more == Grown(out, prev, bounds[i], a[i], b[i]) && moreSpans == GrownSpans(out, spans, prev, i, a[i], b[i])
    ensures Runs(a, b, bounds, i + 1, more, moreSpans)
  {
    var n := |out|;
    if a[i] == b[i] {
      RunSkips(a, b, bounds, i, out, spans);
    } else if n > 0 && out[n - 1].hi == prev && out[n - 1].from == a[i] && out[n - 1].to == b[i] {
      EndsBefore(a, b, bounds, i, out, spans);
      RunContinues(a, b, bounds, i, out, spans);
    } else {
      RunStarts(a, b, bounds, i, out, spans);
    }
  }

  ghost predicate OwnerAt(tokens: seq<Token>, bounds: seq<Key>, names: seq<string>, i: nat)
    requires Sorted(tokens, TokenLeq) && i < |bounds| == |names|
  {
    names[i] == OwnerSpec(tokens, bounds[i])
  }

  ghost predicate AreOwners(tokens: seq<Token>, bounds: seq<Key>, names: seq<string>)
    requires Sorted(tokens, TokenLeq)
  {
    |names| == |bounds| && forall i :: 0 <= i < |bounds| ==> OwnerAt(tokens, bounds, names, i)
  }

  /** One round of Diff's loop. */
  method NextRun(before: Ring, after: Ring, bounds: seq<Key>, i: nat, prev: Key, out: seq<Transfer>, ghost a: seq<string>,
                 ghost b: seq<string>, ghost spans: seq<Span>)
    returns (more: seq<Transfer>, ghost moreSpans: seq<Span>)
    requires Sorted(before.tokens, TokenLeq) && Sorted(after.tokens, TokenLeq) && i < |bounds| && Strict(bounds, KeyLeq)
    requires AreOwners(before.tokens, bounds, a) && AreOwners(after.tokens, bounds, b)
    requires prev == bounds[if i == 0 then |bounds| - 1 else i - 1] && Runs(a, b, bounds, i, out, spans)
    ensures Runs(a, b, bounds, i + 1, more, moreSpans)
  {
    var from := Owner(before, bounds[i]);
    var to := Owner(after, bounds[i]);
    assert OwnerAt(before.tokens, bounds, a, i) && OwnerAt(after.tokens, bounds, b, i);
    more, moreSpans := Grown(out, prev, bounds[i], from, to), GrownSpans(out, spans, prev, i, from, to);
    RunsGrow(a, b, bounds, i, prev, out, spans, more, moreSpans);
  }

  /** The loop of Diff; the spans are the boundaries each transfer is made of. */
  method MergedRuns(before: Ring, after: Ring, bounds: seq<Key>, ghost a: seq<string>, ghost b: seq<string>)
    returns (out: seq<Transfer>, ghost spans: seq<Span>)
    requires Sorted(before.tokens, TokenLeq) && Sorted(after.tokens, TokenLeq) && bounds != [] && Strict(bounds, KeyLeq)
    requires AreOwners(before.tokens, bounds, a) && AreOwners(after.tokens, bounds, b)
    ensures Runs(a, b, bounds, |bounds|, out, spans)
  {
    out, spans := [], [];
    var prev := bounds[|bounds| - 1];
    for i := 0 to |bounds|
      invariant prev == bounds[if i == 0 then |bounds| - 1 else i - 1]
      invariant Runs(a, b, bounds, i, out, spans)
    {
      out, spans := NextRun(before, after, bounds, i, prev, out, a, b, spans);
      prev := bounds[i];
    }
  }

  /** Diff is exact: a key changes owner iff one transfer covers it, that one is unique and names the
      owners before and after; neighbouring transfers are different moves. */
  method Diff(before: Ring, after: Ring) returns (out: seq<Transfer>)
    requires Sorted(before.tokens, TokenLeq) && Sorted(after.tokens, TokenLeq)
    ensures forall h: Key :: Exact(before.tokens, after.tokens, out, h)
    ensures forall n :: 0 < n < |out| && out[n - 1].hi == out[n].lo ==>
                             out[n - 1].from != out[n].from || out[n - 1].to != out[n].to
  {
    var bounds := BoundsOf(before.tokens, after.tokens);
    BoundsStrict(before.tokens, after.tokens);
    out := [];
    if |bounds| == 0 {
      return;
    }
    ghost var a, b := OwnersAt(before.tokens, bounds), OwnersAt(after.tokens, bounds);
    ghost var spans;
    out, spans := MergedRuns(before, after, bounds, a, b);
    forall h: Key
      ensures Exact(before.tokens, after.tokens, out, h)
    {
      DiffIsExact(before.tokens, after.tokens, bounds, out, spans, h);
    }
    NeighboursDiffer(a, b, bounds, out, spans);
  }

  /** What the transfers say about the key h is true and complete. */
  ghost predicate Exact(a: seq<Token>, b: seq<Token>, out: seq<Transfer>, h: Key)
    requires Sorted(a, TokenLeq) && Sorted(b, TokenLeq)
  {
    && (OwnerSpec(a, h) != OwnerSpec(b, h) <==> exists n :: 0 <= n < |out| && Covers(out[n], h))
    && (forall n :: 0 <= n < |out| && Covers(out[n], h) ==> out[n].from == OwnerSpec(a, h) && out[n].to == OwnerSpec(b, h))
    && (forall m, n :: 0 <= m < |out| && 0 <= n < |out| && Covers(out[m], h) && Covers(out[n], h) ==> m == n)
  }

  lemma Extended(spans: seq<Span>, s: Span, k: nat)
    requires spans != [] && s.first == spans[|spans| - 1].first <= s.last && spans[|spans| - 1].last + 1 == s.last
    requires k == s.last || Within(spans, k)
    ensures Within(spans[|spans| - 1 := s], k)
  {
    var n := |spans| - 1;
    var now := spans[n := s];
    if k == s.last {
      assert now[n].first <= k <= now[n].last;
    } else {
      var m :| 0 <= m < |spans| && spans[m].first <= k <= spans[m].last;
      assert now[m].first <= k <= now[m].last;
    }
  }

  lemma Added(spans: seq<Span>, i: nat)
    ensures forall k: nat :: k == i || Within(spans, k) ==> Within(spans + [Span(i, i)], k)
  {
    var now := spans + [Span(i, i)];
    forall k: nat | k == i || Within(spans, k)
      ensures Within(now, k)
    {
      if k == i {
        assert now[|spans|].first <= k <= now[|spans|].last;
      } else {
        var m :| 0 <= m < |spans| && spans[m].first <= k <= spans[m].last;
        assert now[m].first <= k <= now[m].last;
      }
    }
  }

  lemma DiffIsExact(a: seq<Token>, b: seq<Token>, bounds: seq<Key>, out: seq<Transfer>, spans: seq<Span>, h: Key)
    requires Sorted(a, TokenLeq) && Sorted(b, TokenLeq) && bounds != [] && Strict(bounds, KeyLeq)
    requires Bounded(a, bounds) && Bounded(b, bounds)
    requires Runs(OwnersAt(a, bounds), OwnersAt(b, bounds), bounds, |bounds|, out, spans)
    ensures Exact(a, b, out, h)
  {
    var c := Rep(bounds, h);
    forall n | 0 <= n < |out|
      ensures Covers(out[n], h) <==> spans[n].first <= c <= spans[n].last
    {
      assert Run(OwnersAt(a, bounds), OwnersAt(b, bounds), bounds, |bounds|, out[n], spans[n]);
      SpanCovers(bounds, out[n], spans[n].first, spans[n].last, h);
    }
    RepHasSameOwner(a, bounds, h);
    RepHasSameOwner(b, bounds, h);
    ExactAt(OwnersAt(a, bounds), OwnersAt(b, bounds), bounds, out, spans, h);
  }

  lemma ExactAt(a: seq<string>, b: seq<string>, bounds: seq<Key>, out: seq<Transfer>, spans: seq<Span>, h: Key)
    requires |a| == |b| == |bounds| && bounds != [] && Runs(a, b, bounds, |bounds|, out, spans)
    requires forall n :: 0 <= n < |out| ==> (Covers(out[n], h) <==> spans[n].first <= Rep(bounds, h) <= spans[n].last)
    ensures var c := Rep(bounds, h);
            && (a[c] != b[c] <==> exists n :: 0 <= n < |out| && Covers(out[n], h))
            && (forall n :: 0 <= n < |out| && Covers(out[n], h) ==> out[n].from == a[c] && out[n].to == b[c])
            && (forall m, n :: 0 <= m < |out| && 0 <= n < |out| && Covers(out[m], h) && Covers(out[n], h) ==> m == n)
  {
    var c := Rep(bounds, h);
    forall n | 0 <= n < |out| && Covers(out[n], h)
      ensures out[n].from == a[c] && out[n].to == b[c] && a[c] != b[c]
    {
      assert Run(a, b, bounds, |bounds|, out[n], spans[n]);
    }
    if a[c] != b[c] {
      assert Within(spans, c);
      var n :| 0 <= n < |spans| && spans[n].first <= c <= spans[n].last;
      assert Covers(out[n], h);
    }
  }

  lemma NeighboursDiffer(a: seq<string>, b: seq<string>, bounds: seq<Key>, out: seq<Transfer>, spans: seq<Span>)
    requires |a| == |b| == |bounds| && Strict(bounds, KeyLeq) && Runs(a, b, bounds, |bounds|, out, spans)
    ensures forall n :: 0 < n < |out| && out[n - 1].hi == out[n].lo ==> out[n - 1].from != out[n].from || out[n - 1].to != out[n].to
  {
    forall n | 0 < n < |out| && out[n - 1].hi == out[n].lo
      ensures out[n - 1].from != out[n].from || out[n - 1].to != out[n].to
    {
      assert Run(a, b, bounds, |bounds|, out[n - 1], spans[n - 1]) && Run(a, b, bounds, |bounds|, out[n], spans[n]);
      assert UnmergedAt(out, spans, n);
      assert spans[n - 1].last < spans[n].first;
      assert spans[n - 1].last + 1 == spans[n].first;
    }
  }

  datatype Arc = Arc(lo: Key, hi: Key, owner: string)

  ghost function ArcAt(tokens: seq<Token>, i: nat): Arc
    requires i < |tokens|
  {
    Arc(tokens[if i == 0 then |tokens| - 1 else i - 1].hash, tokens[i].hash, tokens[i].node)
  }

  /** Arcs. */
  method Arcs(r: Ring) returns (arcs: seq<Arc>)
    ensures |arcs| == |r.tokens| && forall i :: 0 <= i < |arcs| ==> arcs[i] == ArcAt(r.tokens, i)
  {
    arcs := [];
    if |r.tokens| == 0 {
      return;
    }
    var prev := r.tokens[|r.tokens| - 1].hash;
    for i := 0 to |r.tokens|
      invariant |arcs| == i && prev == r.tokens[if i == 0 then |r.tokens| - 1 else i - 1].hash
      invariant forall j :: 0 <= j < i ==> arcs[j] == ArcAt(r.tokens, j)
    {
      arcs := arcs + [Arc(prev, r.tokens[i].hash, r.tokens[i].node)];
      prev := r.tokens[i].hash;
    }
  }

  /** As Shares measures it: an arc that ends where it starts is empty, unless it is the only one and the
      whole circle. */
  ghost predicate InArc(tokens: seq<Token>, i: nat, h: Key)
    requires i < |tokens|
  {
    var a := ArcAt(tokens, i);
    if a.lo == a.hi then |tokens| == 1 else Between(a.lo, a.hi, h)
  }

  /** Exactly one arc holds the key, and that is its owner's. */
  ghost predicate Placed(tokens: seq<Token>, h: Key)
    requires Sorted(tokens, TokenLeq)
  {
    && (exists i :: 0 <= i < |tokens| && InArc(tokens, i, h))
    && (forall i :: 0 <= i < |tokens| && InArc(tokens, i, h) ==> ArcAt(tokens, i).owner == OwnerSpec(tokens, h))
    && (forall i, j :: 0 <= i < j < |tokens| && InArc(tokens, i, h) ==> !InArc(tokens, j, h))
  }

  /** Not all tokens collide. */
  predicate Spread(tokens: seq<Token>) {
    |tokens| == 1 || exists i :: 0 <= i < |tokens| && tokens[i].hash != tokens[0].hash
  }

  /** The arcs tile the key space, each key in one arc of its owner, if and only if there is one token or
      two that do not collide; some may. */
  lemma ArcsTileIff(tokens: seq<Token>)
    requires tokens != [] && Sorted(tokens, TokenLeq)
    ensures (forall h: Key :: Placed(tokens, h)) <==> Spread(tokens)
  {
    if Spread(tokens) {
      forall h: Key
        ensures Placed(tokens, h)
      {
        SpreadIsPlaced(tokens, h);
      }
    } else {
      forall i | 0 <= i < |tokens|
        ensures !InArc(tokens, i, 0)
      {
      }
      assert !Placed(tokens, 0);
    }
  }

  lemma SortedHashes(tokens: seq<Token>)
    requires Sorted(tokens, TokenLeq)
    ensures forall i, j :: 0 <= i < j < |tokens| ==> tokens[i].hash <= tokens[j].hash
  {
    forall i, j | 0 <= i < j < |tokens|
      ensures tokens[i].hash <= tokens[j].hash
    {
      assert TokenLeq(tokens[i], tokens[j]);
    }
  }

  /** A key is in the arc of its slot and in no other. */
  lemma SlotIsArc(tokens: seq<Token>, h: Key, c: nat, i: nat)
    requires Sorted(tokens, TokenLeq) && IsSlot(tokens, h, c) && Spread(tokens) && i < |tokens|
    ensures InArc(tokens, i, h) <==> i == c
  {
    SortedHashes(tokens);
    var last := |tokens| - 1;
    if last > 0 {
      var k :| 0 <= k < |tokens| && tokens[k].hash != tokens[0].hash;
      assert tokens[0].hash < tokens[k].hash <= tokens[last].hash;
    }
  }

  lemma SpreadIsPlaced(tokens: seq<Token>, h: Key)
    requires tokens != [] && Sorted(tokens, TokenLeq) && Spread(tokens)
    ensures Placed(tokens, h)
  {
    var c := if forall k :: 0 <= k < |tokens| ==> tokens[k].hash < h then 0 else FirstAtOrAfter(tokens, h, 0);
    forall i | 0 <= i < |tokens|
      ensures InArc(tokens, i, h) <==> i == c
    {
      SlotIsArc(tokens, h, c, i);
    }
    assert InArc(tokens, c, h);
    SlotIsFirst(tokens, h, c);
    OwnerIsFirst(tokens, h, tokens[c]);
  }
}
