/** The spool as the agent runs it (internal/agent/spool.go): counters and segment files updated in
    place. Every method is proved against the queue of SpoolQueue and the file operations of
    SpoolDisk. */
module SpoolFiles {
  import opened Prelude
  import opened Frames
  import opened SpoolQueue
  import opened SpoolDisk

  /** segmentInfo. */
  datatype Info = Info(seqno: nat, entries: nat, bytes: nat)

  function InfoOf(s: Segment): Info { Info(s.seqno, |s.entries|, Size(s.entries)) }

  function InfosOf(segments: seq<Segment>): (r: seq<Info>)
    ensures |r| == |segments| && forall i :: 0 <= i < |r| ==> r[i] == InfoOf(segments[i])
  {
    seq(|segments|, i requires 0 <= i < |segments| => InfoOf(segments[i]))
  }

  function BytesOf(infos: seq<Info>): nat {
    if infos == [] then 0 else infos[0].bytes + BytesOf(infos[1..])
  }

  function EntriesOf(infos: seq<Info>): nat {
    if infos == [] then 0 else infos[0].entries + EntriesOf(infos[1..])
  }

  lemma {:induction false} InfosAgree(segments: seq<Segment>)
    ensures BytesOf(InfosOf(segments)) == TotalBytes(segments)
    ensures EntriesOf(InfosOf(segments)) == |Flatten(segments)|
  {
    if segments != [] {
      InfosAgree(segments[1..]);
      assert InfosOf(segments)[1..] == InfosOf(segments[1..]);
    }
  }

  lemma {:induction false} SumsSnoc(infos: seq<Info>, i: nat)
    requires i < |infos|
    ensures BytesOf(infos[..i + 1]) == BytesOf(infos[..i]) + infos[i].bytes
    ensures EntriesOf(infos[..i + 1]) == EntriesOf(infos[..i]) + infos[i].entries
    decreases i
  {
    if i > 0 {
      assert infos[..i + 1][1..] == infos[1..][..i] && infos[..i][1..] == infos[1..][..i - 1];
      SumsSnoc(infos[1..], i - 1);
    }
  }

  /** The whole-file scan counts every entry and the bytes they take. */
  lemma ScanIsWhole(f: Format, data: bytes, entries: nat, validBytes: nat)
    requires f.Ok() && ScanResult(f, data, |data|, entries, validBytes)
    ensures var es := EntriesFrom(f, data, 0);
            entries == |es| && validBytes == Size(es) <= |data| && data[..validBytes] == EncodeAll(f, es)
  {
    var es := EntriesFrom(f, data, 0);
    EntriesFromEncoded(f, data, 0);
    if entries < |es| {
      SizeGrows(es, entries, |es|);
    }
    assert es[..|es|] == es;
  }

  /** A scan up to a byte limit counts what CountTo does. */
  lemma {:induction false} ScanCounts(es: seq<Payload>, limit: nat, n: nat)
    requires n <= |es| && (n == |es| || limit <= Size(es[..n])) && (n == 0 || Size(es[..n - 1]) < limit)
    ensures CountTo(es, limit) == n
    decreases |es|
  {
    if n > 0 {
      var h := HEADER + |es[0]|;
      assert es[..n][1..] == es[1..][..n - 1];
      if n == 1 {
        CountToRest(es[1..], limit - h);
      } else {
        assert es[..n - 1][1..] == es[1..][..n - 2];
        ScanCounts(es[1..], limit - h, n - 1);
      }
    }
  }

  lemma CountToRest(es: seq<Payload>, limit: int)
    requires limit <= 0 || es == []
    ensures CountTo(es, limit) == 0
  {
  }

  /** recoverCursor's scan of the oldest segment up to the persisted offset. */
  method ScanTo(f: Format, data: bytes, offset: nat, ghost es: seq<Payload>) returns (entries: nat, validBytes: nat)
    requires f.Ok() && data == EncodeAll(f, es)
    ensures entries == CountTo(es, offset) && validBytes == Size(es[..entries])
  {
    entries, validBytes := ScanEntries(f, data, offset);
    EntriesOfWholeFile(f, es);
    EncodeAllSize(f, es);
    ghost var limit := if offset > |data| then |data| else offset;
    ScanCounts(es, limit, entries);
    if offset > |data| {
      CountPastEnd(es, limit, offset);
    }
  }

  lemma {:induction false} CountPastEnd(es: seq<Payload>, limit: nat, offset: nat)
    requires Size(es) <= limit <= offset
    ensures CountTo(es, limit) == CountTo(es, offset) == |es|
  {
    if es != [] {
      CountPastEnd(es[1..], limit - HEADER - |es[0]|, offset - HEADER - |es[0]|);
    }
  }

  /** recover's directory loop: keeps the files that hold a whole entry, without their torn tails. */
  method ScanDir(f: Format, files: seq<File>) returns (infos: seq<Info>, kept: seq<File>)
    requires f.Ok()
    ensures infos == InfosOf(ScanFiles(f, files)) && kept == FilesOf(f, ScanFiles(f, files))
  {
    infos, kept := [], [];
    for i := 0 to |files|
      invariant infos == InfosOf(ScanFiles(f, files[..i])) && kept == FilesOf(f, ScanFiles(f, files[..i]))
    {
      var entries, validBytes := ScanEntries(f, files[i].data, -1);
      ScanIsWhole(f, files[i].data, entries, validBytes);
      ScanOneMore(f, files, i);
      if entries > 0 {
        infos := infos + [Info(files[i].seqno, entries, validBytes)];
        kept := kept + [File(files[i].seqno, files[i].data[..validBytes])];
      }
    }
    assert files[..|files|] == files;
  }

  lemma ScanOneMore(f: Format, files: seq<File>, i: nat)
    requires i < |files|
    ensures var es := EntriesFrom(f, files[i].data, 0);
            var found := if es == [] then [] else [Segment(files[i].seqno, es)];
            && ScanFiles(f, files[..i + 1]) == ScanFiles(f, files[..i]) + found
            && InfosOf(ScanFiles(f, files[..i + 1])) == InfosOf(ScanFiles(f, files[..i])) + InfosOf(found)
            && FilesOf(f, ScanFiles(f, files[..i + 1])) == FilesOf(f, ScanFiles(f, files[..i])) + FilesOf(f, found)
            && (es != [] ==> FilesOf(f, found) == [File(files[i].seqno, EncodeAll(f, es))])
  {
    var es := EntriesFrom(f, files[i].data, 0);
    var found := if es == [] then [] else [Segment(files[i].seqno, es)];
    assert files[..i + 1] == files[..i] + [files[i]];
    ScanConcat(f, files[..i], [files[i]]);
    assert ScanFiles(f, [files[i]][1..]) == [];
    FilesOfConcat(f, ScanFiles(f, files[..i]), found);
    if es != [] {
      assert FilesOf(f, found[1..]) == [];
    }
  }

  /** recoverCursor: drops the segments before the cursor and finds the read position in the next. */
  method LoadCursor(f: Format, infos0: seq<Info>, kept0: seq<File>, cursor: Option<Pos>, ghost found: seq<Segment>)
    returns (infos: seq<Info>, kept: seq<File>, entries: nat, validBytes: nat, next: nat)
    requires f.Ok() && infos0 == InfosOf(found) && kept0 == FilesOf(f, found)
    ensures var q := ApplyCursor(found, cursor);
            && infos == InfosOf(q.segments) && kept == FilesOf(f, q.segments)
            && entries == q.consumed && next == q.nextSeq
            && (if q.segments == [] then validBytes == 0
                else entries <= |q.segments[0].entries| && validBytes == Size(q.segments[0].entries[..entries]))
  {
    infos, kept, entries, validBytes := infos0, kept0, 0, 0;
    next := if |infos| == 0 then 0 else infos[|infos| - 1].seqno + 1;
    ghost var left := found;
    if cursor.Some? {
      var pos := cursor.value;
      while |infos| > 0 && infos[0].seqno < pos.segment
        invariant infos == InfosOf(left) && kept == FilesOf(f, left)
        invariant DropBefore(left, pos.segment) == DropBefore(found, pos.segment)
        decreases |infos|
      {
        infos, kept, left := infos[1..], kept[1..], left[1..];
      }
      if pos.segment >= next {
        next := pos.segment + 1;
      }
      if |infos| > 0 && infos[0].seqno == pos.segment {
        entries, validBytes := ScanTo(f, kept[0].data, pos.offset, left[0].entries);
      }
    }
    if left != [] && entries == 0 {
      assert left[0].entries[..0] == [];
    }
  }

  class SpoolDir {
    const config: Config
    var segments: seq<Info>
    var consumedEntries: nat
    var consumedBytes: nat
    var nextSeq: nat
    var releasesSincePersist: nat
    var disk: Disk
    ghost var queue: Queue

    /** The counters and the files are those of the queue. */
    ghost predicate Mirrors()
      reads this
    {
      && config.format.Ok()
      && segments == InfosOf(queue.segments)
      && consumedEntries == queue.consumed && nextSeq == queue.nextSeq
      && (if queue.segments == [] then consumedBytes == 0
          else queue.consumed <= |queue.segments[0].entries|
               && consumedBytes == Size(queue.segments[0].entries[..queue.consumed]))
      && disk.files == FilesOf(config.format, queue.segments)
    }

    ghost predicate Valid()
      reads this
    {
      queue.Valid() && Mirrors()
    }

    /** What the spool holds, oldest first. */
    ghost function Contents(): seq<Payload>
      requires Valid()
      reads this
    {
      queue.Fifo()
    }

    /** recover: NewSpool on an existing directory, with the cursor version a process finds. Every disk
        that a crash leaves behind meets the requirement (SpoolLife.OpenAfterCrash). */
    constructor Open(config: Config, files: seq<File>, versions: seq<Option<Pos>>)
      requires config.format.Ok() && versions != []
      requires ApplyCursor(ScanFiles(config.format, files), versions[|versions| - 1]).Valid()
      ensures Valid() && this.config == config && releasesSincePersist == 0
      ensures queue == Recover(config, files, versions[|versions| - 1])
      ensures disk == Disk(FilesOf(config.format, queue.segments), versions)
    {
      var infos, kept := ScanDir(config.format, files);
      ghost var found := ScanFiles(config.format, files);
      var cursor := versions[|versions| - 1];
      var entries, validBytes, next := 0, 0, 0;
      infos, kept, entries, validBytes, next := LoadCursor(config.format, infos, kept, cursor, found);
      this.config := config;
      segments, consumedEntries, consumedBytes, nextSeq := infos, entries, validBytes, next;
      releasesSincePersist := 0;
      disk := Disk(kept, versions);
      queue := ApplyCursor(found, cursor);
      new;
      var evicted := EnforceMaxBytes();
      EvictKeepsVersions(config.limits, ApplyCursor(found, cursor), Disk(kept, versions));
    }

    /** totalBytesLocked. */
    method TotalBytesLocked() returns (total: nat)
      requires Mirrors()
      ensures total == TotalBytes(queue.segments)
    {
      total := 0;
      for i := 0 to |segments|
        invariant total == BytesOf(segments[..i])
      {
        SumsSnoc(segments, i);
        total := total + segments[i].bytes;
      }
      assert segments[..|segments|] == segments;
      InfosAgree(queue.segments);
    }

    /** Len: entries appended but not yet released. */
    method Len() returns (n: nat)
      requires Valid()
      ensures n == |Contents()|
    {
      var total := 0;
      for i := 0 to |segments|
        invariant total == EntriesOf(segments[..i])
      {
        SumsSnoc(segments, i);
        total := total + segments[i].entries;
      }
      assert segments[..|segments|] == segments;
      InfosAgree(queue.segments);
      FlattenLength(queue.segments);
      n := total - consumedEntries;
    }

    /** The body of enforceMaxBytesLocked's loop. */
    method EvictOldest() returns (lost: nat)
      requires Valid() && |segments| > 1
      modifies this
      ensures Valid() && releasesSincePersist == old(releasesSincePersist)
      ensures queue == old(queue).(segments := old(queue).segments[1..], consumed := 0)
      ensures lost == |old(queue).segments[0].entries| - old(queue).consumed
      ensures disk == Apply(old(disk), Remove(old(queue).segments[0].seqno))
    {
      var victim := segments[0];
      lost := victim.entries - consumedEntries;
      disk := Apply(disk, Remove(victim.seqno));
      segments, consumedEntries, consumedBytes := segments[1..], 0, 0;
      queue := queue.(segments := queue.segments[1..], consumed := 0);
      assert queue.segments[0].entries[..0] == [];
    }

    /** enforceMaxBytesLocked. */
    method EnforceMaxBytes() returns (evicted: nat)
      requires Valid()
      modifies this
      ensures Valid() && releasesSincePersist == old(releasesSincePersist)
      ensures queue == Evict(config.limits, old(queue)) && evicted == Evicted(config.limits, old(queue))
      ensures disk == ApplyAll(old(disk), EvictOps(config.limits, old(queue)))
    {
      evicted := 0;
      var total := TotalBytesLocked();
      while total > config.limits.maxBytes && |segments| > 1
        invariant Valid() && releasesSincePersist == old(releasesSincePersist)
        invariant total == TotalBytes(queue.segments)
        invariant Evict(config.limits, queue) == Evict(config.limits, old(queue))
        invariant evicted + Evicted(config.limits, queue) == Evicted(config.limits, old(queue))
        invariant ApplyAll(disk, EvictOps(config.limits, queue)) == ApplyAll(old(disk), EvictOps(config.limits, old(queue)))
        decreases |segments|
      {
        EvictUnfold(config.limits, queue, disk);
        var lost := EvictOldest();
        evicted := evicted + lost;
        total := TotalBytesLocked();
      }
    }

    /** openNewTailLocked. */
    method OpenNewTail()
      requires Valid()
      modifies this
      ensures Mirrors() && releasesSincePersist == old(releasesSincePersist)
      ensures queue == OpenTail(old(queue)) && disk == Apply(old(disk), Create(old(queue).nextSeq))
    {
      disk := Apply(disk, Create(nextSeq));
      segments := segments + [Info(nextSeq, 0, 0)];
      queue := OpenTail(queue);
      nextSeq := nextSeq + 1;
      OpenedFiles(config.format, old(queue));
    }

    /** Append: refuses a payload over the entry limit, and otherwise is the queue's append. */
    method Append(payload: bytes) returns (evicted: nat, ok: bool)
      requires Valid()
      modifies this
      ensures Valid() && releasesSincePersist == old(releasesSincePersist)
      ensures ok == (|payload| <= MAX_PAYLOAD)
      ensures !ok ==> evicted == 0 && queue == old(queue) && disk == old(disk)
      ensures ok ==> queue == SpoolQueue.Append(config.limits, old(queue), payload)
                     && evicted == AppendEvicts(config.limits, old(queue), payload)
                     && disk == ApplyAll(old(disk), AppendOps(config, old(queue), payload))
                     && evicted <= |old(Contents())| && Contents() == (old(Contents()) + [payload])[evicted..]
    {
      if |payload| > MAX_PAYLOAD {
        return 0, false;
      }
      ok := true;
      ghost var q0, d0 := queue, disk;
      var size := HEADER + |payload|;
      var needNew := |segments| == 0;
      if !needNew {
        var tail := segments[|segments| - 1];
        if tail.bytes > 0 && tail.bytes + size > config.limits.segmentBytes {
          needNew := true;
        }
      }
      TailBytes(q0);
      assert needNew == NeedsSegment(config.limits, q0, payload);
      if needNew {
        OpenNewTail();
        ApplyOne(d0, Create(q0.nextSeq));
      }
      assert disk == ApplyAll(d0, OpenOps(config, q0, payload));
      WriteEntry(payload);
      assert queue == Push(config.limits, q0, payload);
      PushIsAppend(config.limits, q0, payload);
      ghost var first := OpenOps(config, q0, payload) + [Write(EncodeEntry(config.format, payload))];
      ApplyConcat(d0, OpenOps(config, q0, payload), [Write(EncodeEntry(config.format, payload))]);
      ApplyConcat(d0, first, EvictOps(config.limits, queue));
      evicted := EnforceMaxBytes();
      AppendRefines(config.limits, q0, payload);
    }

    /** The write of one entry to the tail, and the tail's counters. */
    method WriteEntry(payload: Payload)
      requires Mirrors() && queue.segments != []
      requires queue.consumed <= |queue.segments[0].entries|
      modifies this
      ensures Mirrors() && releasesSincePersist == old(releasesSincePersist)
      ensures queue == WriteTail(old(queue), payload)
      ensures disk == ApplyAll(old(disk), [Write(EncodeEntry(config.format, payload))])
    {
      ApplyOne(disk, Write(EncodeEntry(config.format, payload)));
      WriteGrows(config.format, queue, disk, payload);
      var t := |segments| - 1;
      var tail := segments[t];
      disk := Apply(disk, Write(EncodeEntry(config.format, payload)));
      segments := segments[t := Info(tail.seqno, tail.entries + 1, tail.bytes + HEADER + |payload|)];
      queue := WriteTail(queue, payload);
      WrittenInfos(old(queue), payload);
    }

    /** peekEntryLocked: reads the oldest unreleased entry back from its file. */
    method PeekEntry() returns (payload: Option<Payload>)
      requires Valid()
      ensures payload == if Contents() == [] then None else Some(Contents()[0])
    {
      ReleaseRefines(queue);
      if |segments| == 0 {
        return None;
      }
      ConsumedInside(queue);
      if consumedBytes >= segments[0].bytes {
        assert false;
      }
      FrontEntry(config.format, queue);
      payload := EntryAt(config.format, disk.files[0].data, consumedBytes);
    }

    /** The oldest segment is fully consumed and deleted. */
    method DropSegment()
      requires Valid() && queue.segments != [] && AtBoundary(queue)
      modifies this
      ensures Valid() && releasesSincePersist == old(releasesSincePersist)
      ensures queue == SpoolQueue.Release(old(queue))
      ensures disk == Apply(old(disk), Remove(old(queue).segments[0].seqno))
    {
      disk := Apply(disk, Remove(segments[0].seqno));
      segments, consumedEntries, consumedBytes := segments[1..], 0, 0;
      queue := SpoolQueue.Release(queue);
      if queue.segments != [] {
        assert queue.segments[0].entries[..0] == [];
      }
    }

    /** The read position moves past one entry of the oldest segment. */
    method Advance(size: nat)
      requires Valid() && queue.segments != [] && !AtBoundary(queue)
      requires size == HEADER + |queue.segments[0].entries[queue.consumed]|
      modifies `consumedEntries, `consumedBytes, `queue
      ensures Valid() && queue == SpoolQueue.Release(old(queue))
    {
      ReleaseSizes(queue);
      consumedEntries := consumedEntries + 1;
      consumedBytes := consumedBytes + size;
      queue := SpoolQueue.Release(queue);
    }

    /** Persists pendingCursorLocked. */
    method PersistCursor(durable: bool)
      requires Valid()
      modifies `disk
      ensures Valid() && disk == Apply(old(disk), Persist(PendingCursor(queue), durable))
    {
      var pos := if |segments| == 0 then Pos(nextSeq, 0) else Pos(segments[0].seqno, consumedBytes);
      assert pos == PendingCursor(queue);
      disk := Apply(disk, Persist(pos, durable));
    }

    /** Release: drops the oldest payload; a no-op when there is none. */
    method Release()
      requires Valid() && releasesSincePersist < DURABLE_INTERVAL
      modifies this
      ensures Valid() && releasesSincePersist < DURABLE_INTERVAL
      ensures queue == SpoolQueue.Release(old(queue))
      ensures disk == ApplyAll(old(disk), ReleaseOps(old(queue), old(releasesSincePersist)))
      ensures Contents() == if old(Contents()) == [] then [] else old(Contents())[1..]
    {
      ReleaseRefines(queue);
      var entry := PeekEntry();
      if entry.None? {
        return;
      }
      var size := HEADER + |entry.value|;
      ReleaseSizes(queue);
      ReleaseOpsApplied(queue, releasesSincePersist, disk);
      var boundary := consumedBytes + size >= segments[0].bytes;
      if boundary {
        DropSegment();
      } else {
        Advance(size);
      }
      releasesSincePersist := releasesSincePersist + 1;
      var durable := boundary || releasesSincePersist >= DURABLE_INTERVAL;
      if durable {
        releasesSincePersist := 0;
      }
      PersistCursor(durable);
    }

    /** Close: makes the read position durable. */
    method Close()
      requires Valid()
      modifies `disk
      ensures Valid() && disk == Apply(old(disk), Persist(PendingCursor(queue), true))
    {
      PersistCursor(true);
    }
  }

  lemma ReleaseOpsApplied(q: Spool, since: nat, d: Disk)
    requires q.segments != []
    ensures ApplyAll(d, ReleaseOps(q, since))
         == Apply(if AtBoundary(q) then Apply(d, Remove(q.segments[0].seqno)) else d,
                  Persist(PendingCursor(SpoolQueue.Release(q)), DurableRelease(q, since)))
  {
    var removal := if AtBoundary(q) then [Remove(q.segments[0].seqno)] else [];
    var persist := Persist(PendingCursor(SpoolQueue.Release(q)), DurableRelease(q, since));
    ApplyConcat(d, removal, [persist]);
    ApplyOne(d, Remove(q.segments[0].seqno));
    ApplyOne(ApplyAll(d, removal), persist);
  }

  lemma EvictUnfold(lim: Limits, q: Spool, d: Disk)
    requires TotalBytes(q.segments) > lim.maxBytes && |q.segments| > 1
    ensures var next := q.(segments := q.segments[1..], consumed := 0);
            && next.Valid()
            && Evict(lim, q) == Evict(lim, next)
            && Evicted(lim, q) == |q.segments[0].entries| - q.consumed + Evicted(lim, next)
            && ApplyAll(d, EvictOps(lim, q)) == ApplyAll(Apply(d, Remove(q.segments[0].seqno)), EvictOps(lim, next))
  {
  }

  lemma {:induction false} EvictKeepsVersions(lim: Limits, q: Queue, d: Disk)
    ensures ApplyAll(d, EvictOps(lim, q)).versions == d.versions
    decreases |q.segments|
  {
    if TotalBytes(q.segments) > lim.maxBytes && |q.segments| > 1 {
      EvictKeepsVersions(lim, q.(segments := q.segments[1..], consumed := 0), Apply(d, Remove(q.segments[0].seqno)));
    }
  }

  lemma OpenedFiles(f: Format, q: Queue)
    ensures FilesOf(f, OpenTail(q).segments) == FilesOf(f, q.segments) + [File(q.nextSeq, [])]
  {
    FilesOfConcat(f, q.segments, [Segment(q.nextSeq, [])]);
    assert FilesOf(f, [Segment(q.nextSeq, [])][1..]) == [];
  }

  lemma TailBytes(q: Spool)
    ensures q.segments != [] ==> Size(q.segments[|q.segments| - 1].entries) > 0
  {
  }

  lemma WrittenInfos(q: Queue, p: Payload)
    requires q.segments != [] && q.consumed <= |q.segments[0].entries|
    ensures var t, tail := |q.segments| - 1, q.segments[|q.segments| - 1];
            InfosOf(WriteTail(q, p).segments)
              == InfosOf(q.segments)[t := Info(tail.seqno, |tail.entries| + 1, Size(tail.entries) + HEADER + |p|)]
    ensures WriteTail(q, p).segments[0].entries[..q.consumed] == q.segments[0].entries[..q.consumed]
  {
    var t := |q.segments| - 1;
    SizeConcat(q.segments[t].entries, [p]);
    assert Size([p]) == HEADER + |p|;
  }

  lemma ConsumedInside(q: Spool)
    requires q.segments != []
    ensures Size(q.segments[0].entries[..q.consumed]) < Size(q.segments[0].entries)
  {
    var es := q.segments[0].entries;
    SizeGrows(es, q.consumed, |es|);
    assert es[..|es|] == es;
  }

  lemma FrontEntry(f: Format, q: Spool)
    requires f.Ok() && q.segments != []
    ensures var es := q.segments[0].entries;
            var data := FilesOf(f, q.segments)[0].data;
            Size(es[..q.consumed]) <= |data| && EntryAt(f, data, Size(es[..q.consumed])) == Some(es[q.consumed])
  {
    var es := q.segments[0].entries;
    assert EncodeAll(f, es) + [] == EncodeAll(f, es);
    EntryAtIndex(f, es, q.consumed, EncodeAll(f, es), []);
  }

  lemma ReleaseSizes(q: Spool)
    requires q.segments != []
    ensures var es, k := q.segments[0].entries, q.consumed;
            && Size(es[..k + 1]) == Size(es[..k]) + HEADER + |es[k]|
            && (Size(es[..k + 1]) >= Size(es) <==> AtBoundary(q))
  {
    var es, k := q.segments[0].entries, q.consumed;
    assert es[..k + 1] == es[..k] + [es[k]];
    SizeConcat(es[..k], [es[k]]);
    assert Size([es[k]]) == HEADER + |es[k]|;
    if k + 1 < |es| {
      SizeGrows(es, k + 1, |es|);
      assert es[..|es|] == es;
    } else {
      assert es[..k + 1] == es;
    }
  }
}
