/** The spool as a segmented queue of payloads: internal/agent/spool.go with the files
    replaced by the entries they hold. Every operation is shown to be a plain FIFO's. */
module SpoolQueue {
  import opened Prelude
  import opened Frames

  datatype Limits = Limits(maxBytes: nat, segmentBytes: nat)

  datatype Segment = Segment(seqno: nat, entries: seq<Payload>)

  /** `consumed` counts released entries of segments[0]; nextSeq numbers the next segment file. */
  datatype Queue = Queue(segments: seq<Segment>, consumed: nat, nextSeq: nat) {

    ghost predicate Valid() {
      && (forall i :: 0 <= i < |segments| ==> segments[i].entries != [] && segments[i].seqno < nextSeq)
      && (forall i, j :: 0 <= i < j < |segments| ==> segments[i].seqno < segments[j].seqno)
      && (if segments == [] then consumed == 0 else consumed < |segments[0].entries|)
    }

    /** The entries appended and neither released nor evicted, oldest first. */
    function Fifo(): seq<Payload>
      requires Valid()
    {
      FlattenLength(segments);
      Flatten(segments)[consumed..]
    }
  }

  type Spool = q: Queue | q.Valid() witness EmptyQueue

  function Flatten(segments: seq<Segment>): seq<Payload> {
    if segments == [] then [] else segments[0].entries + Flatten(segments[1..])
  }

  lemma FlattenLength(segments: seq<Segment>)
    ensures segments != [] ==> |segments[0].entries| <= |Flatten(segments)|
  {
  }

  lemma {:induction false} FlattenConcat(a: seq<Segment>, b: seq<Segment>)
    ensures Flatten(a + b) == Flatten(a) + Flatten(b)
  {
    if a == [] {
      assert a + b == b;
    } else {
      assert (a + b)[1..] == a[1..] + b;
      FlattenConcat(a[1..], b);
    }
  }

  function TotalBytes(segments: seq<Segment>): nat {
    if segments == [] then 0 else Size(segments[0].entries) + TotalBytes(segments[1..])
  }

  const EmptyQueue := Queue([], 0, 0)

  /** Len: entries appended but not yet released. */
  function Len(q: Spool): (n: nat)
    ensures n == |q.Fifo()|
  {
    FlattenLength(q.segments);
    |Flatten(q.segments)| - q.consumed
  }

  predicate NeedsSegment(lim: Limits, q: Queue, p: Payload) {
    || q.segments == []
    || (var tail := q.segments[|q.segments| - 1];
        tail.entries != [] && Size(tail.entries) + HEADER + |p| > lim.segmentBytes)
  }

  /** openNewTailLocked. */
  function OpenTail(q: Queue): Queue {
    q.(segments := q.segments + [Segment(q.nextSeq, [])], nextSeq := q.nextSeq + 1)
  }

  function WriteTail(q: Queue, p: Payload): Queue
    requires q.segments != []
  {
    var t := |q.segments| - 1;
    q.(segments := q.segments[t := Segment(q.segments[t].seqno, q.segments[t].entries + [p])])
  }

  /** The first half of Append: the entry is in the tail, nothing is evicted yet. */
  function Push(lim: Limits, q: Queue, p: Payload): Queue {
    WriteTail(if NeedsSegment(lim, q, p) then OpenTail(q) else q, p)
  }

  lemma PushIsAppend(lim: Limits, q: Queue, p: Payload)
    requires q.Valid()
    ensures Push(lim, q, p).Valid() && Push(lim, q, p).segments != []
    ensures Push(lim, q, p).Fifo() == q.Fifo() + [p]
    ensures Push(lim, q, p).consumed == q.consumed
  {
    var q1 := if NeedsSegment(lim, q, p) then OpenTail(q) else q;
    var t := |q1.segments| - 1;
    var q2 := Push(lim, q, p);
    var (front, tail) := (q1.segments[..t], q1.segments[t]);
    assert q1.segments == front + [tail];
    assert q2.segments == front + [q2.segments[t]];
    FlattenConcat(front, [tail]);
    FlattenConcat(front, [q2.segments[t]]);
    assert Flatten([tail]) == tail.entries;
    assert Flatten([q2.segments[t]]) == tail.entries + [p];
    if NeedsSegment(lim, q, p) {
      assert front == q.segments;
    }
    assert Flatten(q2.segments) == Flatten(q.segments) + [p];
    FlattenLength(q.segments);
  }

  /** enforceMaxBytesLocked: drops whole oldest segments, never the last one. */
  function Evict(lim: Limits, q: Queue): Queue
    decreases |q.segments|
  {
    if TotalBytes(q.segments) > lim.maxBytes && |q.segments| > 1
    then Evict(lim, q.(segments := q.segments[1..], consumed := 0))
    else q
  }

  function Evicted(lim: Limits, q: Queue): (lost: nat)
    requires q.Valid()
    decreases |q.segments|
  {
    if TotalBytes(q.segments) > lim.maxBytes && |q.segments| > 1
    then |q.segments[0].entries| - q.consumed + Evicted(lim, q.(segments := q.segments[1..], consumed := 0))
    else 0
  }

  predicate WithinLimits(lim: Limits, q: Queue) {
    TotalBytes(q.segments) <= lim.maxBytes || |q.segments| <= 1
  }

  /** Eviction takes exactly the reported number of entries from the front, leaves the newest
      entry in place, and stops within the byte bound or at the last segment. */
  lemma {:induction false} EvictDropsFront(lim: Limits, q: Queue)
    requires q.Valid() && q.segments != []
    ensures Evict(lim, q).Valid() && Evict(lim, q).segments != []
    ensures Evicted(lim, q) < |q.Fifo()|
    ensures Evict(lim, q).Fifo() == q.Fifo()[Evicted(lim, q)..]
    ensures WithinLimits(lim, Evict(lim, q))
    ensures Evicted(lim, q) == 0 ==> Evict(lim, q) == q
    decreases |q.segments|
  {
    FlattenLength(q.segments);
    if TotalBytes(q.segments) > lim.maxBytes && |q.segments| > 1 {
      var next := q.(segments := q.segments[1..], consumed := 0);
      EvictDropsFront(lim, next);
      var lost := |q.segments[0].entries| - q.consumed;
      assert q.Fifo()[lost..] == next.Fifo();
    }
  }

  function Append(lim: Limits, q: Spool, p: Payload): Spool {
    PushIsAppend(lim, q, p);
    EvictDropsFront(lim, Push(lim, q, p));
    Evict(lim, Push(lim, q, p))
  }

  function AppendEvicts(lim: Limits, q: Spool, p: Payload): nat {
    PushIsAppend(lim, q, p);
    Evicted(lim, Push(lim, q, p))
  }

  /** Append adds at the tail of the FIFO and drops exactly the reported count from its front. */
  lemma AppendRefines(lim: Limits, q: Spool, p: Payload)
    ensures AppendEvicts(lim, q, p) <= |q.Fifo()|
    ensures Append(lim, q, p).Fifo() == (q.Fifo() + [p])[AppendEvicts(lim, q, p)..]
    ensures WithinLimits(lim, Append(lim, q, p))
  {
    PushIsAppend(lim, q, p);
    EvictDropsFront(lim, Push(lim, q, p));
  }

  predicate AtBoundary(q: Queue) {
    q.segments != [] && q.consumed + 1 >= |q.segments[0].entries|
  }

  /** Release: a no-op on an empty spool. */
  function Release(q: Spool): Spool {
    if q.segments == [] then q
    else if AtBoundary(q) then q.(segments := q.segments[1..], consumed := 0)
    else q.(consumed := q.consumed + 1)
  }

  /** Release drops exactly the oldest unreleased entry, the one Peek returns. */
  lemma ReleaseRefines(q: Spool)
    ensures q.Fifo() == [] <==> q.segments == []
    ensures Release(q).Fifo() == if q.Fifo() == [] then [] else q.Fifo()[1..]
    ensures q.segments != [] ==> q.Fifo()[0] == q.segments[0].entries[q.consumed]
  {
    FlattenLength(q.segments);
    if q.segments != [] {
      var all := Flatten(q.segments);
      assert q.Fifo()[1..] == all[q.consumed + 1..];
      FlattenLength(q.segments[1..]);
    }
  }

  lemma ReleaseKeepsLimits(lim: Limits, q: Spool)
    requires WithinLimits(lim, q)
    ensures WithinLimits(lim, Release(q))
  {
  }

  /** Eviction drops the fewest: k whole segments from the front, every longer rest being over the bound;
      it stops within the bound or at the newest segment, and reading begins at the first entry left. */
  lemma {:induction false} EvictsTheFewest(lim: Limits, q: Queue) returns (k: nat)
    requires q.segments != []
    ensures k < |q.segments| && Evict(lim, q) == if k == 0 then q else Queue(q.segments[k..], 0, q.nextSeq)
    ensures forall i :: 0 <= i < k ==> TotalBytes(q.segments[i..]) > lim.maxBytes
    ensures k == |q.segments| - 1 || TotalBytes(q.segments[k..]) <= lim.maxBytes
    decreases |q.segments|
  {
    k := 0;
    if TotalBytes(q.segments) > lim.maxBytes && |q.segments| > 1 {
      var rest := q.segments[1..];
      k := EvictsTheFewest(lim, q.(segments := rest, consumed := 0));
      assert forall i :: 0 < i <= k + 1 && i < |q.segments| ==> rest[i - 1..] == q.segments[i..];
      k := k + 1;
    }
  }

  /** Only a single entry may make a segment larger than the bound, and no segment was begun early: its
      first entry did not fit the one before. */
  ghost predicate Packed(lim: Limits, segments: seq<Segment>) {
    && (forall i :: 0 <= i < |segments| ==> segments[i].entries != [])
    && (forall i :: 0 <= i < |segments| ==> |segments[i].entries| == 1 || Size(segments[i].entries) <= lim.segmentBytes)
    && (forall i :: 0 < i < |segments| ==> Overfull(lim, segments[i - 1], segments[i].entries[0]))
  }

  ghost predicate Overfull(lim: Limits, s: Segment, p: Payload) {
    Size(s.entries) + HEADER + |p| > lim.segmentBytes
  }

  lemma PackedSnoc(lim: Limits, segments: seq<Segment>, s: Segment)
    requires Packed(lim, segments) && |s.entries| == 1
    requires segments != [] ==> Overfull(lim, segments[|segments| - 1], s.entries[0])
    ensures Packed(lim, segments + [s])
  {
  }

  lemma PackedGrows(lim: Limits, segments: seq<Segment>, p: Payload)
    requires Packed(lim, segments) && segments != [] && !Overfull(lim, segments[|segments| - 1], p)
    ensures var t := |segments| - 1;
            Packed(lim, segments[t := Segment(segments[t].seqno, segments[t].entries + [p])])
  {
    SizeConcat(segments[|segments| - 1].entries, [p]);
  }

  lemma PackedLater(lim: Limits, segments: seq<Segment>, k: nat)
    requires Packed(lim, segments) && k <= |segments|
    ensures Packed(lim, segments[k..])
  {
  }

  lemma PushPacks(lim: Limits, q: Spool, p: Payload)
    requires Packed(lim, q.segments)
    ensures Packed(lim, Push(lim, q, p).segments)
  {
    if NeedsSegment(lim, q, p) {
      PackedSnoc(lim, q.segments, Segment(q.nextSeq, [p]));
      assert [] + [p] == [p];
      assert Push(lim, q, p).segments == q.segments + [Segment(q.nextSeq, [p])];
    } else {
      PackedGrows(lim, q.segments, p);
    }
  }

  lemma AppendPacks(lim: Limits, q: Spool, p: Payload)
    requires Packed(lim, q.segments)
    ensures Packed(lim, Append(lim, q, p).segments)
  {
    var pushed := Push(lim, q, p);
    PushIsAppend(lim, q, p);
    PushPacks(lim, q, p);
    var k := EvictsTheFewest(lim, pushed);
    PackedLater(lim, pushed.segments, k);
  }

  /** What a process may call, in any order: Append of a payload, or Release. */
  function AfterCalls(lim: Limits, q: Spool, calls: seq<Option<Payload>>): Spool
    decreases |calls|
  {
    if calls == [] then q
    else
      var before, call := AfterCalls(lim, q, calls[..|calls| - 1]), calls[|calls| - 1];
      if call.Some? then Append(lim, before, call.value) else Release(before)
  }

  /** Whatever is appended and released, the spool stays packed. */
  lemma {:induction false} EveryRunIsPacked(lim: Limits, q: Spool, calls: seq<Option<Payload>>)
    requires Packed(lim, q.segments)
    ensures Packed(lim, AfterCalls(lim, q, calls).segments)
    decreases |calls|
  {
    if calls != [] {
      var before, call := AfterCalls(lim, q, calls[..|calls| - 1]), calls[|calls| - 1];
      EveryRunIsPacked(lim, q, calls[..|calls| - 1]);
      if call.Some? {
        AppendPacks(lim, before, call.value);
      } else if before.segments != [] {
        PackedLater(lim, before.segments, 1);
      }
    }
  }
}
