/** The least-recently-used cache (internal/storage/lru.go): what it means, and the linked list. */
module Lru {
  import opened Prelude
  import opened Sequences

  datatype Entry<K, V> = Entry(key: K, value: V)

  /** The position of a key, |es| when it is not there. */
  function Find<K(==), V>(es: seq<Entry<K, V>>, key: K): (i: nat)
    ensures i <= |es| && (i < |es| ==> es[i].key == key) && forall j :: 0 <= j < i ==> es[j].key != key
  {
    if es == [] || es[0].key == key then 0 else 1 + Find(es[1..], key)
  }

  function ToFront<T>(xs: seq<T>, i: nat): seq<T>
    requires i < |xs|
  {
    [xs[i]] + Without(xs, i)
  }

  /** A use of a key: the entry goes to the front. */
  function Use<K(==), V>(es: seq<Entry<K, V>>, key: K): seq<Entry<K, V>> {
    var i := Find(es, key);
    if i < |es| then ToFront(es, i) else es
  }

  /** A store without a bound. */
  function Store<K(==), V>(es: seq<Entry<K, V>>, key: K, value: V): seq<Entry<K, V>> {
    var i := Find(es, key);
    [Entry(key, value)] + (if i < |es| then Without(es, i) else es)
  }

  /** A store that evicts the last entry when there are too many. */
  function StoreBounded<K(==), V>(es: seq<Entry<K, V>>, capacity: nat, key: K, value: V): seq<Entry<K, V>> {
    Firsts(Store(es, key, value), capacity)
  }

  ghost predicate Distinct<K, V>(es: seq<Entry<K, V>>) {
    forall i, j :: 0 <= i < j < |es| ==> es[i].key != es[j].key
  }

  datatype Op<K, V> = Get(key: K) | Put(key: K, value: V)

  /** The cache after some operations. */
  function Cached<K(==), V>(ops: seq<Op<K, V>>, capacity: nat): seq<Entry<K, V>> {
    if ops == [] then []
    else
      var es := Cached(ops[..|ops| - 1], capacity);
      match ops[|ops| - 1]
      case Get(key) => Use(es, key)
      case Put(key, value) => StoreBounded(es, capacity, key, value)
  }

  /** Every entry ever stored, most recently used first; a Get is a use when it finds its key among
      the first `capacity`. */
  function Remembered<K(==), V>(ops: seq<Op<K, V>>, capacity: nat): seq<Entry<K, V>> {
    if ops == [] then []
    else
      var es := Remembered(ops[..|ops| - 1], capacity);
      match ops[|ops| - 1]
      case Get(key) => if Find(es, key) < capacity then Use(es, key) else es
      case Put(key, value) => Store(es, key, value)
  }

  lemma FindInFirsts<K, V>(es: seq<Entry<K, V>>, n: nat, key: K)
    ensures Find(Firsts(es, n), key) == if Find(es, key) < n then Find(es, key) else |Firsts(es, n)|
  {
  }

  lemma UseOfFirsts<K, V>(es: seq<Entry<K, V>>, n: nat, key: K)
    ensures Use(Firsts(es, n), key) == Firsts(if Find(es, key) < n then Use(es, key) else es, n)
  {
    var i := Find(es, key);
    FindInFirsts(es, n, key);
    if i < n && i < |es| {
      FirstsOfLess(es, n, i);
      FirstsOfMore(es[i], Without(es, i), n);
    }
  }

  lemma StoreInFirsts<K, V>(es: seq<Entry<K, V>>, n: nat, key: K, value: V)
    requires n > 0
    ensures StoreBounded(Firsts(es, n), n, key, value) == Firsts(Store(es, key, value), n)
  {
    var i, e := Find(es, key), Entry(key, value);
    FindInFirsts(es, n, key);
    FirstsOfMore(e, es, n);
    FirstsOfMore(e, Firsts(es, n), n);
    if i < |es| {
      FirstsOfLess(es, n, i);
      FirstsOfMore(e, Without(es, i), n);
      if i < n {
        FirstsOfMore(e, Without(Firsts(es, n), i), n);
      }
    }
  }

  lemma FirstsOfMore<T>(x: T, xs: seq<T>, n: nat)
    requires n > 0
    ensures Firsts([x] + xs, n) == [x] + Firsts(xs, n - 1)
    ensures Firsts(Firsts(xs, n), n - 1) == Firsts(xs, n - 1)
  {
  }

  lemma FirstsOfLess<T>(xs: seq<T>, n: nat, i: nat)
    requires n > 0 && i < |xs|
    ensures Firsts(Without(xs, i), n - 1) == if i < n then Without(Firsts(xs, n), i) else Firsts(xs, n - 1)
    ensures i < n ==> Firsts(Without(Firsts(xs, n), i), n - 1) == Without(Firsts(xs, n), i)
  {
    var a, b := Firsts(Without(xs, i), n - 1), if i < n then Without(Firsts(xs, n), i) else Firsts(xs, n - 1);
    assert |a| == |b|;
    forall j | 0 <= j < |a|
      ensures a[j] == xs[if j < i then j else j + 1] == b[j]
    {
    }
  }

  /** The cache is the most recently used end of everything ever stored: only the least recently used
      entry is ever evicted. */
  lemma {:induction false} CacheIsMostRecent<K, V>(ops: seq<Op<K, V>>, capacity: nat)
    requires capacity > 0
    ensures Cached(ops, capacity) == Firsts(Remembered(ops, capacity), capacity)
  {
    if ops != [] {
      var before := ops[..|ops| - 1];
      CacheIsMostRecent(before, capacity);
      match ops[|ops| - 1]
      case Get(key) => UseOfFirsts(Remembered(before, capacity), capacity, key);
      case Put(key, value) => StoreInFirsts(Remembered(before, capacity), capacity, key, value);
    }
  }

  /** The value last stored under a key. */
  function LastPut<K(==), V>(ops: seq<Op<K, V>>, key: K): Option<V> {
    if ops == [] then None
    else
      var op := ops[|ops| - 1];
      if op.Put? && op.key == key then Some(op.value) else LastPut(ops[..|ops| - 1], key)
  }

  /** Where each entry of ToFront comes from. */
  lemma ToFrontAt<T>(xs: seq<T>, i: nat, j: nat)
    requires i < |xs| && j < |xs|
    ensures |ToFront(xs, i)| == |xs| && ToFront(xs, i)[j] == xs[if j == 0 then i else if j <= i then j - 1 else j]
  {
  }

  lemma MovedKeeps<T>(xs: seq<T>, i: nat)
    requires i < |xs|
    ensures forall x :: x in ToFront(xs, i) <==> x in xs
  {
    assert xs == xs[..i] + [xs[i]] + xs[i + 1..];
  }

  lemma DistinctMoved<K, V>(es: seq<Entry<K, V>>, i: nat)
    requires Distinct(es) && i < |es|
    ensures Distinct(ToFront(es, i))
  {
    forall a, b | 0 <= a < b < |es|
      ensures ToFront(es, i)[a].key != ToFront(es, i)[b].key
    {
      ToFrontAt(es, i, a);
      ToFrontAt(es, i, b);
    }
  }

  lemma UseKeeps<K, V>(es: seq<Entry<K, V>>, key: K)
    requires Distinct(es)
    ensures Distinct(Use(es, key)) && forall e :: e in Use(es, key) <==> e in es
  {
    var i := Find(es, key);
    if i < |es| {
      MovedKeeps(es, i);
      DistinctMoved(es, i);
    }
  }

  lemma DroppedKeeps<K, V>(es: seq<Entry<K, V>>, i: nat)
    requires Distinct(es) && i < |es|
    ensures Distinct(Without(es, i)) && forall e :: e in Without(es, i) <==> e in es && e.key != es[i].key
  {
    assert es == es[..i] + [es[i]] + es[i + 1..];
    forall a | 0 <= a < |es| - 1
      ensures Without(es, i)[a] == es[if a < i then a else a + 1]
    {
    }
  }

  lemma AddedKeeps<K, V>(es: seq<Entry<K, V>>, e: Entry<K, V>)
    requires Distinct(es) && forall x :: x in es ==> x.key != e.key
    ensures Distinct([e] + es) && forall x :: x in [e] + es <==> x == e || x in es
  {
    forall j | 0 <= j < |es|
      ensures es[j].key != e.key
    {
      assert es[j] in es;
    }
  }

  lemma StoreKeeps<K, V>(es: seq<Entry<K, V>>, key: K, value: V)
    requires Distinct(es)
    ensures Distinct(Store(es, key, value))
    ensures forall e :: e in Store(es, key, value) <==> e == Entry(key, value) || (e in es && e.key != key)
  {
    var i := Find(es, key);
    if i < |es| {
      DroppedKeeps(es, i);
      AddedKeeps(Without(es, i), Entry(key, value));
    } else {
      AddedKeeps(es, Entry(key, value));
    }
  }

  /** What is remembered is the last value stored under each key. */
  lemma {:induction false} RemembersLastPut<K, V>(ops: seq<Op<K, V>>, capacity: nat)
    ensures Distinct(Remembered(ops, capacity))
    ensures forall e :: e in Remembered(ops, capacity) <==> LastPut(ops, e.key) == Some(e.value)
  {
    if ops != [] {
      var before := ops[..|ops| - 1];
      RemembersLastPut(before, capacity);
      match ops[|ops| - 1]
      case Get(key) => UseKeeps(Remembered(before, capacity), key);
      case Put(key, value) => StoreKeeps(Remembered(before, capacity), key, value);
    }
  }

  /** Over every sequence of operations: at most `capacity` entries, one for each key; what is found
      under a key is the last value stored under it, and a key once stored is missing only when
      `capacity` more recently used ones are there. */
  lemma EveryRunIsLru<K, V>(ops: seq<Op<K, V>>, capacity: nat, key: K)
    requires capacity > 0
    ensures |Cached(ops, capacity)| <= capacity && Distinct(Cached(ops, capacity))
    ensures var es := Cached(ops, capacity);
            var i := Find(es, key);
            if i < |es| then LastPut(ops, key) == Some(es[i].value)
            else LastPut(ops, key).Some? ==> |es| == capacity && Find(Remembered(ops, capacity), key) >= capacity
  {
    CacheIsMostRecent(ops, capacity);
    RemembersKey(ops, capacity, key);
    MostRecent(Remembered(ops, capacity), capacity, key, LastPut(ops, key));
  }

  lemma RemembersKey<K, V>(ops: seq<Op<K, V>>, capacity: nat, key: K)
    ensures Distinct(Remembered(ops, capacity))
    ensures forall e :: e in Remembered(ops, capacity) && e.key == key ==> LastPut(ops, key) == Some(e.value)
    ensures LastPut(ops, key).Some? ==> Entry(key, LastPut(ops, key).value) in Remembered(ops, capacity)
  {
    RemembersLastPut(ops, capacity);
    assert LastPut(ops, key).Some? ==> LastPut(ops, Entry(key, LastPut(ops, key).value).key).Some?;
  }

  lemma MostRecent<K, V>(all: seq<Entry<K, V>>, n: nat, key: K, last: Option<V>)
    requires Distinct(all) && forall e :: e in all && e.key == key ==> last == Some(e.value)
    requires last.Some? ==> Entry(key, last.value) in all
    ensures |Firsts(all, n)| <= n && Distinct(Firsts(all, n))
    ensures var es := Firsts(all, n);
            var i := Find(es, key);
            if i < |es| then last == Some(es[i].value) else last.Some? ==> |es| == n && Find(all, key) >= n
  {
    FindInFirsts(all, n, key);
    if last.Some? {
      var j :| 0 <= j < |all| && all[j] == Entry(key, last.value);
      assert Find(all, key) <= j;
    }
    if Find(all, key) < n && Find(all, key) < |all| {
      assert all[Find(all, key)] in all;
    }
  }

  class Node<K, V> {
    const key: K
    var value: V
    var prev: Node?<K, V>
    var next: Node?<K, V>

    constructor (key: K, value: V)
      ensures this.key == key && this.value == value && prev == null && next == null
    {
      this.key := key;
      this.value := value;
      this.prev := null;
      this.next := null;
    }
  }

  ghost predicate LinkedAt<K, V>(nodes: seq<Node<K, V>>, i: nat)
    requires i < |nodes|
    reads nodes
  {
    && nodes[i].prev == (if i == 0 then null else nodes[i - 1])
    && nodes[i].next == (if i == |nodes| - 1 then null else nodes[i + 1])
  }

  /** prev and next are inverse and follow the sequence. */
  ghost predicate Chain<K, V>(nodes: seq<Node<K, V>>)
    reads nodes
  {
    forall i :: 0 <= i < |nodes| ==> LinkedAt(nodes, i)
  }

  ghost predicate Unrepeated<T>(xs: seq<T>) {
    forall i, j :: 0 <= i < j < |xs| ==> xs[i] != xs[j]
  }

  ghost function First<K, V>(nodes: seq<Node<K, V>>): Node?<K, V> {
    if nodes == [] then null else nodes[0]
  }

  ghost function Last<K, V>(nodes: seq<Node<K, V>>): Node?<K, V> {
    if nodes == [] then null else nodes[|nodes| - 1]
  }

  ghost predicate Within<T>(xs: seq<T>, ys: seq<T>) {
    forall x :: x in xs ==> x in ys
  }

  /** The doubly linked list of these nodes. */
  ghost predicate List<K, V>(head: Node?<K, V>, tail: Node?<K, V>, nodes: seq<Node<K, V>>)
    reads nodes
  {
    head == First(nodes) && tail == Last(nodes) && Unrepeated(nodes) && Chain(nodes)
  }

  /** The entries of a list of nodes that hold these values. */
  ghost function Listing<K, V>(nodes: seq<Node<K, V>>, values: seq<V>): (es: seq<Entry<K, V>>)
    requires |values| == |nodes|
    ensures |es| == |nodes| && forall i :: 0 <= i < |es| ==> es[i] == Entry(nodes[i].key, values[i])
  {
    seq(|nodes|, i requires 0 <= i < |nodes| => Entry(nodes[i].key, values[i]))
  }

  ghost predicate Holds<K, V>(nodes: seq<Node<K, V>>, values: seq<V>)
    reads nodes
  {
    |values| == |nodes| && forall i :: 0 <= i < |nodes| ==> nodes[i].value == values[i]
  }

  lemma ListingMoved<K, V>(nodes: seq<Node<K, V>>, values: seq<V>, i: nat)
    requires |values| == |nodes| && i < |nodes|
    ensures |ToFront(nodes, i)| == |ToFront(values, i)| == |nodes|
    ensures Listing(ToFront(nodes, i), ToFront(values, i)) == ToFront(Listing(nodes, values), i)
  {
    forall j | 0 <= j < |nodes|
      ensures Listing(ToFront(nodes, i), ToFront(values, i))[j] == ToFront(Listing(nodes, values), i)[j]
    {
      ToFrontAt(nodes, i, j);
      ToFrontAt(values, i, j);
      ToFrontAt(Listing(nodes, values), i, j);
    }
  }

  lemma HoldsMoved<K, V>(nodes: seq<Node<K, V>>, values: seq<V>, i: nat)
    requires Holds(nodes, values) && i < |nodes|
    ensures Holds(ToFront(nodes, i), ToFront(values, i))
  {
    forall j | 0 <= j < |nodes|
      ensures ToFront(nodes, i)[j].value == ToFront(values, i)[j]
    {
      ToFrontAt(nodes, i, j);
      ToFrontAt(values, i, j);
    }
  }

  /** The index holds exactly the nodes of the list, each under its key. */
  ghost predicate Indexed<K, V>(nodes: seq<Node<K, V>>, index: map<K, Node<K, V>>) {
    && (forall i, j :: 0 <= i < j < |nodes| ==> nodes[i].key != nodes[j].key)
    && (forall i :: 0 <= i < |nodes| ==> nodes[i].key in index && index[nodes[i].key] == nodes[i])
    && (forall k :: k in index ==> index[k] in nodes && index[k].key == k)
  }

  lemma {:induction false} SizeOfIndex<K, V>(nodes: seq<Node<K, V>>, index: map<K, Node<K, V>>)
    requires Indexed(nodes, index)
    ensures |index| == |nodes|
  {
    if nodes == [] {
      assert index == map[];
    } else {
      var k := |nodes| - 1;
      var less := index - {nodes[k].key};
      IndexedEvicted(nodes, index);
      SizeOfIndex(nodes[..k], less);
      assert index.Keys == less.Keys + {nodes[k].key};
      assert |index.Keys| == |less.Keys| + 1;
    }
  }

  lemma IndexedMoved<K, V>(nodes: seq<Node<K, V>>, index: map<K, Node<K, V>>, i: nat)
    requires Indexed(nodes, index) && i < |nodes|
    ensures Indexed(ToFront(nodes, i), index)
  {
    MovedKeeps(nodes, i);
    var moved := ToFront(nodes, i);
    forall j | 0 <= j < |moved|
      ensures moved[j] == nodes[if j == 0 then i else if j <= i then j - 1 else j]
    {
    }
  }

  lemma IndexedAdded<K, V>(nodes: seq<Node<K, V>>, index: map<K, Node<K, V>>, n: Node<K, V>)
    requires Indexed(nodes, index) && n.key !in index
    ensures Indexed([n] + nodes, index[n.key := n])
  {
  }

  lemma NotIndexed<K, V>(nodes: seq<Node<K, V>>, index: map<K, Node<K, V>>, n: Node<K, V>)
    requires Indexed(nodes, index) && n.key !in index
    ensures n !in nodes
  {
  }

  lemma HoldsAdded<K, V>(nodes: seq<Node<K, V>>, values: seq<V>, n: Node<K, V>)
    requires Holds(nodes, values)
    ensures Holds([n] + nodes, [n.value] + values)
    ensures Listing([n] + nodes, [n.value] + values) == [Entry(n.key, n.value)] + Listing(nodes, values)
  {
  }

  lemma IndexedEvicted<K, V>(nodes: seq<Node<K, V>>, index: map<K, Node<K, V>>)
    requires Indexed(nodes, index) && nodes != []
    ensures Indexed(nodes[..|nodes| - 1], index - {nodes[|nodes| - 1].key})
  {
    var k := |nodes| - 1;
    forall x | x in index && x != nodes[k].key
      ensures index[x] in nodes[..k]
    {
      var i :| 0 <= i < |nodes| && nodes[i] == index[x];
      assert nodes[..k][i] == index[x];
    }
  }

  lemma FoundAt<K, V>(es: seq<Entry<K, V>>, i: nat)
    requires Distinct(es) && i < |es|
    ensures Find(es, es[i].key) == i && Use(es, es[i].key) == ToFront(es, i)
  {
  }

  /** Storing under a key that is there is a new value and a use. */
  lemma StoredAt<K, V>(es: seq<Entry<K, V>>, capacity: nat, i: nat, value: V)
    requires Distinct(es) && i < |es| <= capacity
    ensures StoreBounded(es, capacity, es[i].key, value) == ToFront(es[i := es[i].(value := value)], i)
  {
    FoundAt(es, i);
  }

  lemma StoredNew<K, V>(es: seq<Entry<K, V>>, capacity: nat, key: K, value: V)
    requires Find(es, key) == |es| <= capacity && capacity >= 1
    ensures var more := [Entry(key, value)] + es;
            StoreBounded(es, capacity, key, value) == if |more| > capacity then Without(more, |es|) else more
  {
    var more := [Entry(key, value)] + es;
    assert more[|es| + 1..] == [];
    assert Store(es, key, value) == more;
  }

  /** What the index says about the listing. */
  lemma IndexFinds<K, V>(nodes: seq<Node<K, V>>, index: map<K, Node<K, V>>, es: seq<Entry<K, V>>, key: K) returns (i: nat)
    requires Indexed(nodes, index) && |es| == |nodes| && forall j :: 0 <= j < |es| ==> es[j].key == nodes[j].key
    ensures Distinct(es) && i == Find(es, key)
    ensures key in index <==> i < |es|
    ensures key in index ==> nodes[i] == index[key] && es[i].key == key
  {
    i := Find(es, key);
    if key in index {
      var j :| 0 <= j < |nodes| && nodes[j] == index[key];
      assert es[j].key == key;
      FoundAt(es, j);
    }
  }

  class Cache<K(==), V(0)> {
    const capacity: nat
    var index: map<K, Node<K, V>>
    var head: Node?<K, V>
    var tail: Node?<K, V>
    ghost var nodes: seq<Node<K, V>>
    ghost var values: seq<V>

    ghost predicate Linked()
      reads `head, `tail, `nodes, nodes
    {
      List(head, tail, nodes)
    }

    ghost predicate Valid()
      reads this, nodes
    {
      capacity >= 1 && Linked() && Holds(nodes, values) && Indexed(nodes, index) && |nodes| <= capacity
    }

    /** Most recently used first. */
    ghost function Contents(): seq<Entry<K, V>>
      requires Valid()
      reads this, nodes
    {
      Listing(nodes, values)
    }

    constructor (capacity: int)
      ensures Valid() && Contents() == [] && nodes == []
      ensures this.capacity == if capacity < 1 then 1 else capacity
    {
      this.capacity := if capacity < 1 then 1 else capacity;
      index := map[];
      head, tail, nodes, values := null, null, [], [];
    }

    method PushFront(n: Node<K, V>)
      requires Linked() && n !in nodes
      modifies this`head, this`tail, this`nodes, n`prev, n`next, nodes`prev
      ensures Linked() && nodes == [n] + old(nodes)
    {
      assert nodes != [] ==> LinkedAt(nodes, 0) && head in nodes;
      n.prev := null;
      n.next := head;
      if head != null {
        head.prev := n;
      }
      head := n;
      if tail == null {
        tail := n;
      }
      nodes := [n] + nodes;
      forall i | 0 <= i < |nodes|
        ensures LinkedAt(nodes, i)
      {
        if i > 0 {
          assert old(LinkedAt(nodes, i - 1));
          assert nodes[i] == old(nodes)[i - 1];
        }
      }
    }

    method Unlink(n: Node<K, V>, ghost i: nat)
      requires Linked() && i < |nodes| && nodes[i] == n
      modifies this`head, this`tail, this`nodes, nodes`prev, nodes`next
      ensures Linked() && nodes == Without(old(nodes), i)
    {
      assert LinkedAt(nodes, i);
      assert i > 0 ==> nodes[i - 1] in nodes;
      assert i + 1 < |nodes| ==> nodes[i + 1] in nodes;
      if n.prev != null {
        n.prev.next := n.next;
      } else if head == n {
        head := n.next;
      }
      if n.next != null {
        n.next.prev := n.prev;
      } else if tail == n {
        tail := n.prev;
      }
      n.prev, n.next := null, null;
      nodes := Without(nodes, i);
      forall j | 0 <= j < |nodes|
        ensures LinkedAt(nodes, j)
      {
        assert old(LinkedAt(nodes, if j < i then j else j + 1));
        assert nodes[j] == old(nodes)[if j < i then j else j + 1];
      }
    }

    method MoveToFront(n: Node<K, V>, ghost i: nat)
      requires Linked() && i < |nodes| && nodes[i] == n
      modifies this`head, this`tail, this`nodes, nodes`prev, nodes`next
      ensures Linked() && nodes == ToFront(old(nodes), i)
    {
      if head == n {
        assert i == 0;
        assert nodes == ToFront(nodes, 0);
        return;
      }
      Unlink(n, i);
      PushFront(n);
    }

    /** A node of the cache is used. */
    method Touch(n: Node<K, V>, ghost i: nat)
      requires Valid() && i < |nodes| && nodes[i] == n
      modifies this`head, this`tail, this`nodes, this`values, nodes`prev, nodes`next
      ensures Valid() && Contents() == ToFront(old(Contents()), i)
      ensures Within(nodes, old(nodes))
    {
      Reorder(i);
      MoveToFront(n, i);
    }

    /** What the ghost values are about to be. */
    ghost method Reorder(i: nat)
      requires Valid() && i < |nodes|
      modifies this`values
      ensures Linked() && Holds(ToFront(nodes, i), values) && Indexed(ToFront(nodes, i), index)
      ensures |ToFront(nodes, i)| == |nodes| == |values| && Within(ToFront(nodes, i), nodes)
      ensures Listing(ToFront(nodes, i), values) == ToFront(old(Contents()), i)
    {
      MovedKeeps(nodes, i);
      IndexedMoved(nodes, index, i);
      ListingMoved(nodes, values, i);
      HoldsMoved(nodes, values, i);
      values := ToFront(values, i);
    }

    method Get(key: K) returns (r: Option<V>)
      requires Valid()
      modifies this`head, this`tail, this`nodes, this`values, nodes`prev, nodes`next
      ensures Valid() && Contents() == Use(old(Contents()), key)
      ensures Within(nodes, old(nodes))
      ensures var es := old(Contents()); var i := Find(es, key); r == if i < |es| then Some(es[i].value) else None
    {
      ghost var i := IndexFinds(nodes, index, Contents(), key);
      if key !in index {
        return None;
      }
      var n := index[key];
      r := Some(n.value);
      FoundAt(Contents(), i);
      Touch(n, i);
    }

    method Put(key: K, value: V)
      requires Valid()
      modifies this, nodes
      ensures Valid() && Contents() == StoreBounded(old(Contents()), capacity, key, value)
      ensures forall m :: m in nodes ==> m in old(nodes) || fresh(m)
    {
      if key in index {
        Update(key, value);
      } else {
        var n := Add(key, value);
      }
    }

    /** Put for a key that is there. */
    method Update(key: K, value: V)
      requires Valid() && key in index
      modifies this, nodes
      ensures Valid() && Contents() == StoreBounded(old(Contents()), capacity, key, value)
      ensures Within(nodes, old(nodes))
    {
      ghost var i := IndexFinds(nodes, index, Contents(), key);
      StoredAt(Contents(), capacity, i, value);
      SetValue(index[key], i, value);
      Touch(index[key], i);
    }

    method SetValue(n: Node<K, V>, ghost i: nat, value: V)
      requires Valid() && i < |nodes| && nodes[i] == n
      modifies n`value, this`values
      ensures Valid() && nodes == old(nodes)
      ensures Contents() == old(Contents())[i := old(Contents())[i].(value := value)]
    {
      n.value := value;
      values := values[i := value];
      forall j | 0 <= j < |nodes|
        ensures LinkedAt(nodes, j)
      {
        assert old(LinkedAt(nodes, j));
      }
    }

    /** Put for a new key. */
    method Add(key: K, value: V) returns (n: Node<K, V>)
      requires Valid() && key !in index
      modifies this, nodes
      ensures Valid() && Contents() == StoreBounded(old(Contents()), capacity, key, value)
      ensures fresh(n) && Within(nodes, [n] + old(nodes))
    {
      ghost var i := IndexFinds(nodes, index, Contents(), key);
      StoredNew(Contents(), capacity, key, value);
      n := new Node(key, value);
      Place(n);
    }

    method Place(n: Node<K, V>)
      requires Valid() && n.key !in index
      modifies this, n, nodes
      ensures Valid()
      ensures var more := [Entry(n.key, old(n.value))] + old(Contents());
              Contents() == if |more| > capacity then Without(more, |more| - 1) else more
      ensures Within(nodes, [n] + old(nodes))
    {
      Insert(n);
      Trim();
    }

    method Trim()
      requires Overfull()
      modifies this, nodes
      ensures Valid()
      ensures var more := old(Listing(nodes, values));
              Contents() == if |more| > capacity then Without(more, |more| - 1) else more
      ensures Within(nodes, old(nodes))
    {
      SizeOfIndex(nodes, index);
      if |index| > capacity {
        EvictOldest();
      }
    }

    /** The cache, perhaps with one entry too many. */
    ghost predicate Overfull()
      reads this, nodes
    {
      capacity >= 1 && Linked() && Holds(nodes, values) && Indexed(nodes, index) && 1 <= |nodes| <= capacity + 1
    }

    method Insert(n: Node<K, V>)
      requires Valid() && n.key !in index
      modifies this`index, this`head, this`tail, this`nodes, this`values, n`prev, n`next, nodes`prev
      ensures Overfull() && nodes == [n] + old(nodes)
      ensures Listing(nodes, values) == [Entry(n.key, n.value)] + old(Contents())
    {
      NotIndexed(nodes, index, n);
      IndexedAdded(nodes, index, n);
      HoldsAdded(nodes, values, n);
      index := index[n.key := n];
      values := [n.value] + values;
      PushFront(n);
    }

    method EvictOldest()
      requires Overfull()
      modifies this, nodes`prev, nodes`next
      ensures capacity >= 1 && Linked() && Holds(nodes, values) && Indexed(nodes, index)
      ensures |nodes| == old(|nodes|) - 1 && Within(nodes, old(nodes))
      ensures Listing(nodes, values) == Without(old(Listing(nodes, values)), old(|nodes|) - 1)
    {
      ghost var k := |nodes| - 1;
      IndexedEvicted(nodes, index);
      assert Without(nodes, k) == nodes[..k] && Without(values, k) == values[..k];
      var oldest := tail;
      index := index - {oldest.key};
      values := values[..k];
      Unlink(oldest, k);
    }

    method Len() returns (n: nat)
      requires Valid()
      ensures n == |Contents()| <= capacity
    {
      SizeOfIndex(nodes, index);
      n := |index|;
    }
  }
}
