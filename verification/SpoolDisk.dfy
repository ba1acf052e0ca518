/** The spool's files (internal/agent/spool.go): what a crash at any point of Append, eviction or
    Release leaves on disk, and what NewSpool makes of it. */
module SpoolDisk {
  import opened Prelude
  import opened Frames
  import opened SpoolQueue

  /** The persisted read position. */
  datatype Pos = Pos(segment: nat, offset: nat)

  datatype File = File(seqno: nat, data: bytes)

  /** Segment files in name order, and the versions of the cursor file a power failure may leave:
      the last durable one, then every later one; the last is the one a process sees. */
  datatype Disk = Disk(files: seq<File>, versions: seq<Option<Pos>>)

  datatype Op = Create(seqno: nat) | Write(data: bytes) | Remove(seqno: nat) | Persist(pos: Pos, durable: bool)

  function Apply(d: Disk, op: Op): Disk {
    match op
    case Create(n) => d.(files := d.files + [File(n, [])])
    case Write(data) =>
      if d.files == [] then d
      else
        var t := |d.files| - 1;
        d.(files := d.files[t := File(d.files[t].seqno, d.files[t].data + data)])
    case Remove(n) => if d.files != [] && d.files[0].seqno == n then d.(files := d.files[1..]) else d
    case Persist(pos, durable) => d.(versions := if durable then [Some(pos)] else d.versions + [Some(pos)])
  }

  function ApplyAll(d: Disk, ops: seq<Op>): Disk
    decreases |ops|
  {
    if ops == [] then d else ApplyAll(Apply(d, ops[0]), ops[1..])
  }

  datatype Config = Config(format: Format, limits: Limits)

  const DURABLE_INTERVAL := 8

  function EvictOps(lim: Limits, q: Queue): seq<Op>
    decreases |q.segments|
  {
    if TotalBytes(q.segments) > lim.maxBytes && |q.segments| > 1
    then [Remove(q.segments[0].seqno)] + EvictOps(lim, q.(segments := q.segments[1..], consumed := 0))
    else []
  }

  function OpenOps(c: Config, q: Queue, p: Payload): seq<Op> {
    if NeedsSegment(c.limits, q, p) then [Create(q.nextSeq)] else []
  }

  /** The file operations of Append, in order. */
  function AppendOps(c: Config, q: Queue, p: Payload): seq<Op> {
    OpenOps(c, q, p) + [Write(EncodeEntry(c.format, p))] + EvictOps(c.limits, Push(c.limits, q, p))
  }

  /** pendingCursorLocked. */
  function PendingCursor(q: Spool): Pos {
    if q.segments == [] then Pos(q.nextSeq, 0)
    else Pos(q.segments[0].seqno, Size(q.segments[0].entries[..q.consumed]))
  }

  predicate DurableRelease(q: Queue, since: nat) {
    AtBoundary(q) || since + 1 >= DURABLE_INTERVAL
  }

  /** The file operations of Release: the finished segment goes first, then the cursor. */
  function ReleaseOps(q: Spool, since: nat): seq<Op> {
    if q.segments == [] then []
    else (if AtBoundary(q) then [Remove(q.segments[0].seqno)] else [])
         + [Persist(PendingCursor(Release(q)), DurableRelease(q, since))]
  }

  /** Entries a scan up to `limit` bytes counts. */
  function CountTo(ps: seq<Payload>, limit: int): (n: nat)
    ensures n <= |ps|
  {
    if ps == [] || limit <= 0 then 0 else 1 + CountTo(ps[1..], limit - (HEADER + |ps[0]|))
  }

  lemma {:induction false} CountToBoundary(ps: seq<Payload>, k: nat)
    requires k <= |ps|
    ensures CountTo(ps, Size(ps[..k])) == k
  {
    if k > 0 {
      assert ps[..k][1..] == ps[1..][..k - 1];
      CountToBoundary(ps[1..], k - 1);
    }
  }

  /** What a directory scan finds: files without a whole entry are not segments. */
  function ScanFiles(f: Format, files: seq<File>): seq<Segment> {
    if files == [] then []
    else
      var es := EntriesFrom(f, files[0].data, 0);
      (if es == [] then [] else [Segment(files[0].seqno, es)]) + ScanFiles(f, files[1..])
  }

  function DropBefore(segments: seq<Segment>, seqno: nat): seq<Segment> {
    if segments != [] && segments[0].seqno < seqno then DropBefore(segments[1..], seqno) else segments
  }

  function NextAfter(segments: seq<Segment>): nat {
    if segments == [] then 0 else segments[|segments| - 1].seqno + 1
  }

  /** recoverCursor. */
  function ApplyCursor(segments: seq<Segment>, cursor: Option<Pos>): Queue {
    match cursor
    case None => Queue(segments, 0, NextAfter(segments))
    case Some(pos) =>
      var left := DropBefore(segments, pos.segment);
      var next := NextAfter(segments);
      Queue(left,
            if left == [] || left[0].seqno != pos.segment then 0 else CountTo(left[0].entries, pos.offset),
            if pos.segment >= next then pos.segment + 1 else next)
  }

  /** NewSpool's recover. */
  function Recover(c: Config, files: seq<File>, cursor: Option<Pos>): Queue {
    Evict(c.limits, ApplyCursor(ScanFiles(c.format, files), cursor))
  }

  function FilesOf(f: Format, segments: seq<Segment>): seq<File> {
    if segments == [] then []
    else [File(segments[0].seqno, EncodeAll(f, segments[0].entries))] + FilesOf(f, segments[1..])
  }

  lemma {:induction false} FilesOfConcat(f: Format, a: seq<Segment>, b: seq<Segment>)
    ensures FilesOf(f, a + b) == FilesOf(f, a) + FilesOf(f, b)
  {
    if a == [] {
      assert a + b == b;
    } else {
      assert (a + b)[1..] == a[1..] + b;
      FilesOfConcat(f, a[1..], b);
    }
  }

  lemma {:induction false} ScanConcat(f: Format, a: seq<File>, b: seq<File>)
    ensures ScanFiles(f, a + b) == ScanFiles(f, a) + ScanFiles(f, b)
  {
    if a == [] {
      assert a + b == b;
    } else {
      assert (a + b)[1..] == a[1..] + b;
      ScanConcat(f, a[1..], b);
    }
  }

  lemma {:induction false} ScanFilesOf(f: Format, segments: seq<Segment>)
    requires f.Ok() && forall i :: 0 <= i < |segments| ==> segments[i].entries != []
    ensures ScanFiles(f, FilesOf(f, segments)) == segments
  {
    if segments != [] {
      EntriesOfWholeFile(f, segments[0].entries);
      ScanFilesOf(f, segments[1..]);
    }
  }

  /** A last file with a torn write counts for the entries completed before it. */
  lemma {:induction false} ScanTorn(f: Format, front: seq<Segment>, seqno: nat, es: seq<Payload>, last: Payload, n: nat)
    requires f.Ok() && n < HEADER + |last|
    requires forall i :: 0 <= i < |front| ==> front[i].entries != []
    ensures ScanFiles(f, FilesOf(f, front) + [File(seqno, EncodeAll(f, es) + EncodeEntry(f, last)[..n])])
         == front + if es == [] then [] else [Segment(seqno, es)]
  {
    var torn := File(seqno, EncodeAll(f, es) + EncodeEntry(f, last)[..n]);
    ScanFilesOf(f, front);
    EntriesOfTornFile(f, es, last, n);
    ScanConcat(f, FilesOf(f, front), [torn]);
    assert ScanFiles(f, [torn][1..]) == [];
  }

  /** How many released entries of the oldest segment a cursor version knows of. */
  function Seen(q: Queue, v: Option<Pos>): nat {
    if v.Some? && q.segments != [] && v.value.segment == q.segments[0].seqno
    then CountTo(q.segments[0].entries, v.value.offset) else 0
  }

  /** A cursor version never points past what was released: not into an entry, not at a segment
      that still has unreleased data before it, not at a number to be reused. */
  ghost predicate NotAhead(q: Queue, v: Option<Pos>) {
    v.Some? ==>
      if q.segments == [] then v.value.segment < q.nextSeq || (v.value.segment == q.nextSeq && v.value.offset == 0)
      else
        && v.value.segment <= q.segments[0].seqno
        && (v.value.segment == q.segments[0].seqno ==>
              exists k :: 0 <= k <= q.consumed <= |q.segments[0].entries| && v.value.offset == Size(q.segments[0].entries[..k]))
  }

  lemma SeenBound(q: Spool, v: Option<Pos>)
    requires NotAhead(q, v)
    ensures Seen(q, v) <= q.consumed
  {
    if v.Some? && q.segments != [] && v.value.segment == q.segments[0].seqno {
      var k :| 0 <= k <= q.consumed <= |q.segments[0].entries| && v.value.offset == Size(q.segments[0].entries[..k]);
      CountToBoundary(q.segments[0].entries, k);
    }
  }

  lemma DropNothing(segments: seq<Segment>, seqno: nat)
    requires segments != [] ==> seqno <= segments[0].seqno
    ensures DropBefore(segments, seqno) == segments
  {
  }

  /** Whatever version of the cursor survived, recovery keeps every segment and consumes only
      entries that version knew of. */
  lemma CursorKeepsAll(q: Spool, v: Option<Pos>)
    requires NotAhead(q, v)
    ensures ApplyCursor(q.segments, v).segments == q.segments
    ensures ApplyCursor(q.segments, v).consumed == Seen(q, v)
    ensures ApplyCursor(q.segments, v).Valid()
    ensures v.Some? ==> v.value.segment < ApplyCursor(q.segments, v).nextSeq
  {
    SeenBound(q, v);
    if v.Some? {
      DropNothing(q.segments, v.value.segment);
    }
  }

  /** Entries already released that recovery hands out again. */
  function Replayed(q: Queue, v: Option<Pos>): seq<Payload>
    requires q.Valid()
  {
    if q.segments == [] || Seen(q, v) > q.consumed then [] else q.segments[0].entries[Seen(q, v)..q.consumed]
  }

  lemma RefillFifo(q: Spool, v: Option<Pos>)
    requires NotAhead(q, v)
    ensures q.(consumed := Seen(q, v)).Valid()
    ensures q.(consumed := Seen(q, v)).Fifo() == Replayed(q, v) + q.Fifo()
    ensures |Replayed(q, v)| == q.consumed - Seen(q, v)
  {
    SeenBound(q, v);
    if q.segments != [] {
      var e, rest, i, k := q.segments[0].entries, Flatten(q.segments[1..]), Seen(q, v), q.consumed;
      assert Flatten(q.segments) == e + rest;
      assert (e + rest)[i..] == e[i..k] + (e + rest)[k..];
    }
  }

  /** Files that hold exactly the queue's segments recover to its FIFO, preceded by the released
      entries the surviving cursor version did not know of. */
  lemma RecoverWhole(c: Config, q: Spool, files: seq<File>, v: Option<Pos>)
    requires NotAhead(q, v) && WithinLimits(c.limits, q)
    requires ScanFiles(c.format, files) == q.segments
    ensures Recover(c, files, v).Valid()
    ensures Recover(c, files, v).Fifo() == Replayed(q, v) + q.Fifo()
    ensures Recover(c, files, v).segments == q.segments && Recover(c, files, v).consumed == Seen(q, v)
    ensures v.Some? ==> v.value.segment < Recover(c, files, v).nextSeq
  {
    CursorKeepsAll(q, v);
    RefillFifo(q, v);
    var r := ApplyCursor(q.segments, v);
    assert Evict(c.limits, r) == r;
    assert r.Fifo() == q.(consumed := Seen(q, v)).Fifo();
  }

  /** Segments that Append's eviction is about to remove. */
  function Victims(lim: Limits, q: Queue): nat
    decreases |q.segments|
  {
    if TotalBytes(q.segments) > lim.maxBytes && |q.segments| > 1
    then 1 + Victims(lim, q.(segments := q.segments[1..], consumed := 0))
    else 0
  }

  lemma {:induction false} EvictIsDrop(lim: Limits, q: Queue)
    ensures Victims(lim, q) <= |q.segments| && |EvictOps(lim, q)| == Victims(lim, q)
    ensures Evict(lim, q).segments == q.segments[Victims(lim, q)..]
    ensures Evict(lim, q).consumed == if Victims(lim, q) == 0 then q.consumed else 0
    decreases |q.segments|
  {
    if TotalBytes(q.segments) > lim.maxBytes && |q.segments| > 1 {
      var next := q.(segments := q.segments[1..], consumed := 0);
      EvictIsDrop(lim, next);
      assert q.segments[1..][Victims(lim, next)..] == q.segments[Victims(lim, q)..];
    }
  }

  /** Evicting in two goes removes the same segments as in one. */
  lemma {:induction false} EvictResumes(lim: Limits, q: Queue, j: nat, k: nat, next: nat)
    requires j <= Victims(lim, q)
    ensures j <= |q.segments|
    ensures Evict(lim, Queue(q.segments[j..], k, next)).segments == Evict(lim, q).segments
    ensures Evict(lim, Queue(q.segments[j..], k, next)).consumed == if Victims(lim, q) == j then k else 0
    ensures Evict(lim, Queue(q.segments[j..], k, next)).nextSeq == next
    decreases |q.segments|
  {
    EvictIsDrop(lim, q);
    if j == 0 {
      assert q.segments[0..] == q.segments;
      EvictIgnores(lim, q, k, next);
    } else {
      var q1 := q.(segments := q.segments[1..], consumed := 0);
      EvictResumes(lim, q1, j - 1, k, next);
      assert q.segments[1..][j - 1..] == q.segments[j..];
    }
  }

  lemma {:induction false} EvictIgnores(lim: Limits, q: Queue, k: nat, next: nat)
    ensures Evict(lim, Queue(q.segments, k, next)).segments == Evict(lim, q).segments
    ensures Evict(lim, Queue(q.segments, k, next)).consumed == if Victims(lim, q) == 0 then k else 0
    ensures Evict(lim, Queue(q.segments, k, next)).nextSeq == next
    decreases |q.segments|
  {
    if TotalBytes(q.segments) > lim.maxBytes && |q.segments| > 1 {
      EvictIgnores(lim, q.(segments := q.segments[1..], consumed := 0), 0, next);
    }
  }

  /** A version that was not ahead before a push is not ahead after it, nor once segments at the
      front are gone. */
  lemma NotAheadAfterPush(lim: Limits, q: Spool, p: Payload, v: Option<Pos>)
    requires NotAhead(q, v)
    ensures Push(lim, q, p).Valid() && NotAhead(Push(lim, q, p), v)
    ensures Seen(Push(lim, q, p), v) == Seen(q, v)
    ensures Push(lim, q, p).nextSeq >= q.nextSeq
  {
    PushIsAppend(lim, q, p);
    var r := Push(lim, q, p);
    if v.Some? && q.segments != [] && v.value.segment == q.segments[0].seqno {
      var k :| 0 <= k <= q.consumed <= |q.segments[0].entries| && v.value.offset == Size(q.segments[0].entries[..k]);
      assert r.segments[0].entries[..k] == q.segments[0].entries[..k];
      CountToBoundary(q.segments[0].entries, k);
      CountToBoundary(r.segments[0].entries, k);
    } else if v.Some? && r.segments[0].seqno == v.value.segment {
      assert r.segments[0].entries[..0] == [];
      CountToBoundary(r.segments[0].entries, 0);
      assert v.value.offset == Size(r.segments[0].entries[..0]);
    }
  }

  lemma NotAheadAfterDrop(q: Spool, j: nat, v: Option<Pos>)
    requires NotAhead(q, v) && 0 < j <= |q.segments|
    ensures Queue(q.segments[j..], 0, q.nextSeq).Valid() && NotAhead(Queue(q.segments[j..], 0, q.nextSeq), v)
    ensures Seen(Queue(q.segments[j..], 0, q.nextSeq), v) == 0
  {
    var r := Queue(q.segments[j..], 0, q.nextSeq);
    if j < |q.segments| {
      assert r.segments[0] == q.segments[j];
    }
  }

  lemma {:induction false} ApplyConcat(d: Disk, a: seq<Op>, b: seq<Op>)
    ensures ApplyAll(d, a + b) == ApplyAll(ApplyAll(d, a), b)
    decreases |a|
  {
    if a == [] {
      assert a + b == b;
    } else {
      assert (a + b)[1..] == a[1..] + b;
      ApplyConcat(Apply(d, a[0]), a[1..], b);
    }
  }

  lemma ApplyOne(d: Disk, op: Op)
    ensures ApplyAll(d, [op]) == Apply(d, op)
  {
    assert [op][1..] == [];
  }

  /** What a write that was cut short leaves. */
  function Torn(d: Disk, op: Op, n: nat): Disk {
    if op.Write? && n < |op.data| then Apply(d, Write(op.data[..n])) else d
  }

  /** The disk when the process dies after `done` of the operations, `n` bytes into the next one
      if that is a write. */
  function CutDisk(d: Disk, ops: seq<Op>, done: nat, n: nat): Disk
    requires done <= |ops|
  {
    var d1 := ApplyAll(d, ops[..done]);
    if done < |ops| then Torn(d1, ops[done], n) else d1
  }

  lemma LastFile(f: Format, segments: seq<Segment>)
    requires segments != []
    ensures var t := |segments| - 1;
            FilesOf(f, segments) == FilesOf(f, segments[..t]) + [File(segments[t].seqno, EncodeAll(f, segments[t].entries))]
  {
    var t := |segments| - 1;
    assert segments == segments[..t] + [segments[t]];
    FilesOfConcat(f, segments[..t], [segments[t]]);
    assert FilesOf(f, [segments[t]][1..]) == [];
  }

  /** Before the entry is completely written, the files still hold the old queue. */
  lemma UnwrittenScan(c: Config, q: Spool, d: Disk, p: Payload, done: nat, n: nat)
    requires c.format.Ok() && d.files == FilesOf(c.format, q.segments)
    requires done <= |OpenOps(c, q, p)|
    ensures ScanFiles(c.format, CutDisk(d, AppendOps(c, q, p), done, n).files) == q.segments
    ensures CutDisk(d, AppendOps(c, q, p), done, n).versions == d.versions
  {
    var f, ops, e := c.format, AppendOps(c, q, p), EncodeEntry(c.format, p);
    ScanFilesOf(f, q.segments);
    if NeedsSegment(c.limits, q, p) {
      assert ops[0] == Create(q.nextSeq) && ops[1] == Write(e);
      if done == 1 {
        assert ops[..1] == [Create(q.nextSeq)];
        assert ApplyAll(d, ops[..1]) == Apply(d, Create(q.nextSeq));
        UnwrittenNew(f, q, d, p, n);
      }
    } else {
      assert ops[0] == Write(e);
      UnwrittenTail(f, q, d, p, n);
    }
  }

  lemma TornNewFiles(files: seq<File>, versions: seq<Option<Pos>>, seqno: nat, e: bytes, n: nat)
    ensures Torn(Apply(Disk(files, versions), Create(seqno)), Write(e), n).files
         == files + [File(seqno, e[..if n < |e| then n else 0])]
  {
    assert [] + e[..if n < |e| then n else 0] == e[..if n < |e| then n else 0];
  }

  lemma TornTailFiles(front: seq<File>, versions: seq<Option<Pos>>, tail: File, e: bytes, n: nat)
    ensures Torn(Disk(front + [tail], versions), Write(e), n).files
         == front + [File(tail.seqno, tail.data + e[..if n < |e| then n else 0])]
  {
    assert tail.data + [] == tail.data;
  }

  lemma ScanTornFile(f: Format, front: seq<Segment>, file: File, es: seq<Payload>, last: Payload, n: nat)
    requires f.Ok() && n < |EncodeEntry(f, last)| && file.data == EncodeAll(f, es) + EncodeEntry(f, last)[..n]
    requires forall i :: 0 <= i < |front| ==> front[i].entries != []
    ensures ScanFiles(f, FilesOf(f, front) + [file]) == front + if es == [] then [] else [Segment(file.seqno, es)]
  {
    ScanTorn(f, front, file.seqno, es, last, n);
  }

  lemma UnwrittenNew(f: Format, q: Spool, d: Disk, p: Payload, n: nat)
    requires f.Ok() && d.files == FilesOf(f, q.segments)
    ensures ScanFiles(f, Torn(Apply(d, Create(q.nextSeq)), Write(EncodeEntry(f, p)), n).files) == q.segments
  {
    var e := EncodeEntry(f, p);
    assert |e| > 0;
    var m := if n < |e| then n else 0;
    TornNewFiles(d.files, d.versions, q.nextSeq, e, n);
    var file := File(q.nextSeq, e[..m]);
    assert file.data == EncodeAll(f, []) + e[..m];
    ScanTornFile(f, q.segments, file, [], p, m);
  }

  lemma UnwrittenTail(f: Format, q: Spool, d: Disk, p: Payload, n: nat)
    requires f.Ok() && d.files == FilesOf(f, q.segments) && q.segments != []
    ensures ScanFiles(f, Torn(d, Write(EncodeEntry(f, p)), n).files) == q.segments
  {
    var e, t := EncodeEntry(f, p), |q.segments| - 1;
    assert |e| > 0;
    var m := if n < |e| then n else 0;
    var front, tail := q.segments[..t], q.segments[t];
    LastFile(f, q.segments);
    var file := File(tail.seqno, EncodeAll(f, tail.entries));
    TornTailFiles(FilesOf(f, front), d.versions, file, e, n);
    ScanTornFile(f, front, File(tail.seqno, file.data + e[..m]), tail.entries, p, m);
    assert q.segments == front + [tail];
  }

  /** A completed write leaves the files of the pushed queue. */
  lemma WrittenFiles(c: Config, q: Spool, d: Disk, p: Payload)
    requires d.files == FilesOf(c.format, q.segments)
    ensures var r := ApplyAll(d, OpenOps(c, q, p) + [Write(EncodeEntry(c.format, p))]);
            r.files == FilesOf(c.format, Push(c.limits, q, p).segments) && r.versions == d.versions
  {
    var f, e := c.format, EncodeEntry(c.format, p);
    var q1 := if NeedsSegment(c.limits, q, p) then OpenTail(q) else q;
    var d1 := ApplyAll(d, OpenOps(c, q, p));
    ApplyConcat(d, OpenOps(c, q, p), [Write(e)]);
    if NeedsSegment(c.limits, q, p) {
      FilesOfConcat(f, q.segments, [Segment(q.nextSeq, [])]);
      assert FilesOf(f, [Segment(q.nextSeq, [])][1..]) == [];
      assert ApplyAll(d, OpenOps(c, q, p)) == Apply(d, Create(q.nextSeq));
    }
    assert d1.files == FilesOf(f, q1.segments);
    WriteGrows(f, q1, d1, p);
    assert ApplyAll(d1, [Write(e)]) == Apply(d1, Write(e));
  }

  lemma WriteGrows(f: Format, q: Queue, d: Disk, p: Payload)
    requires q.segments != [] && d.files == FilesOf(f, q.segments)
    ensures Apply(d, Write(EncodeEntry(f, p))).files == FilesOf(f, WriteTail(q, p).segments)
  {
    var t := |q.segments| - 1;
    var r := WriteTail(q, p);
    LastFile(f, q.segments);
    LastFile(f, r.segments);
    assert r.segments[..t] == q.segments[..t];
    EncodeAllConcat(f, q.segments[t].entries, [p]);
    assert EncodeAll(f, [p]) == EncodeEntry(f, p) by { assert EncodeAll(f, [p][1..]) == []; }
  }

  /** After j removals, the files of the remaining segments. */
  lemma {:induction false} EvictFiles(c: Config, q: Queue, d: Disk, j: nat)
    requires d.files == FilesOf(c.format, q.segments)
    requires j <= |EvictOps(c.limits, q)|
    ensures j <= |q.segments|
    ensures ApplyAll(d, EvictOps(c.limits, q)[..j]).files == FilesOf(c.format, q.segments[j..])
    ensures ApplyAll(d, EvictOps(c.limits, q)[..j]).versions == d.versions
    decreases |q.segments|
  {
    var ops := EvictOps(c.limits, q);
    EvictIsDrop(c.limits, q);
    if j == 0 {
      assert q.segments[0..] == q.segments && ops[..0] == [];
    } else {
      var q1 := q.(segments := q.segments[1..], consumed := 0);
      var d1 := Apply(d, Remove(q.segments[0].seqno));
      EvictFiles(c, q1, d1, j - 1);
      assert ops[..j][1..] == EvictOps(c.limits, q1)[..j - 1];
      assert q.segments[1..][j - 1..] == q.segments[j..];
    }
  }
}
