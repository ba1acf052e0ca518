/** Whole lives of a spool: calls, crashes at any file operation, power failures and restarts. */
module SpoolCrash {
  import opened Prelude
  import opened Frames
  import opened SpoolQueue
  import opened SpoolDisk

  /** A running spool: its memory, its files and two counters nothing reads. `lag` is how many
      releases from the oldest segment returned since the cursor was last made durable, and `carried`
      how many of those an earlier process did. */
  datatype Sys = Sys(q: Spool, since: nat, disk: Disk, lag: nat, carried: nat)

  datatype Call = AppendCall(p: Payload) | ReleaseCall | CloseCall

  function Ops(c: Config, s: Sys, call: Call): seq<Op> {
    match call
    case AppendCall(p) => AppendOps(c, s.q, p)
    case ReleaseCall => ReleaseOps(s.q, s.since)
    case CloseCall => [Persist(PendingCursor(s.q), true)]
  }

  /** The call ran to its end. */
  function Complete(c: Config, s: Sys, call: Call): Sys {
    var disk := ApplyAll(s.disk, Ops(c, s, call));
    match call
    case AppendCall(p) => s.(q := Append(c.limits, s.q, p), disk := disk, lag := AppendLag(c.limits, s.q, p, s.lag))
    case ReleaseCall =>
      if s.q.segments == [] then s
      else if DurableRelease(s.q, s.since) then Sys(Release(s.q), 0, disk, 0, 0)
      else Sys(Release(s.q), s.since + 1, disk, s.lag + 1, s.carried)
    case CloseCall => s.(disk := disk, lag := 0, carried := 0)
  }

  /** An append that evicts takes the oldest segment away. */
  function AppendLag(lim: Limits, q: Queue, p: Payload, lag: nat): nat {
    if Victims(lim, Push(lim, q, p)) == 0 then lag else 0
  }

  ghost predicate Ordered(versions: seq<Option<Pos>>) {
    forall i, j :: 0 <= i < j < |versions| && versions[i].Some? ==>
      versions[j].Some? && versions[i].value.segment <= versions[j].value.segment
  }

  /** How far behind the reader a version is. */
  function Behind(q: Queue, v: Option<Pos>): int {
    q.consumed - Seen(q, v)
  }

  /** No version is ahead of the reader; the durable one is exactly `lag` releases behind, no other
      is further, and the one a process sees is exact. */
  ghost predicate VersionsOk(q: Spool, versions: seq<Option<Pos>>, lag: nat) {
    && versions != [] && Ordered(versions)
    && (forall i :: 0 <= i < |versions| ==> NotAhead(q, versions[i]) && Behind(q, versions[i]) <= lag)
    && Behind(q, versions[0]) == lag
    && Behind(q, versions[|versions| - 1]) == 0
  }

  ghost predicate SysInv(c: Config, s: Sys) {
    && c.format.Ok()
    && s.disk.files == FilesOf(c.format, s.q.segments)
    && WithinLimits(c.limits, s.q)
    && VersionsOk(s.q, s.disk.versions, s.lag)
    && s.since < DURABLE_INTERVAL && s.lag <= s.carried + s.since
  }

  lemma AppendFiles(c: Config, s: Sys, p: Payload)
    requires c.format.Ok() && s.disk.files == FilesOf(c.format, s.q.segments)
    ensures Complete(c, s, AppendCall(p)).disk.files == FilesOf(c.format, Append(c.limits, s.q, p).segments)
    ensures Complete(c, s, AppendCall(p)).disk.versions == s.disk.versions
  {
    var q1 := Push(c.limits, s.q, p);
    var first, evict := OpenOps(c, s.q, p) + [Write(EncodeEntry(c.format, p))], EvictOps(c.limits, q1);
    var d1 := ApplyAll(s.disk, first);
    WrittenFiles(c, s.q, s.disk, p);
    ApplyConcat(s.disk, first, evict);
    EvictFiles(c, q1, d1, |evict|);
    EvictIsDrop(c.limits, q1);
    assert evict[..|evict|] == evict;
  }

  lemma AppendVersion(lim: Limits, q: Spool, p: Payload, v: Option<Pos>)
    requires NotAhead(q, v)
    ensures var r := Append(lim, q, p);
            && NotAhead(r, v)
            && Seen(r, v) == (if Victims(lim, Push(lim, q, p)) == 0 then Seen(q, v) else 0)
            && r.consumed == (if Victims(lim, Push(lim, q, p)) == 0 then q.consumed else 0)
  {
    var q1 := Push(lim, q, p);
    NotAheadAfterPush(lim, q, p, v);
    PushIsAppend(lim, q, p);
    EvictIsDrop(lim, q1);
    var m := Victims(lim, q1);
    EvictIgnores(lim, q1, q1.consumed, q1.nextSeq);
    assert Queue(q1.segments, q1.consumed, q1.nextSeq) == q1;
    if m > 0 {
      NotAheadAfterDrop(q1, m, v);
      assert Append(lim, q, p) == Queue(q1.segments[m..], 0, q1.nextSeq);
    } else {
      assert q1.segments[0..] == q1.segments;
      assert Append(lim, q, p) == q1;
    }
  }

  lemma AppendVersions(lim: Limits, q: Spool, p: Payload, versions: seq<Option<Pos>>, lag: nat)
    requires VersionsOk(q, versions, lag)
    ensures VersionsOk(Append(lim, q, p), versions, AppendLag(lim, q, p, lag))
  {
    var r := Append(lim, q, p);
    forall i | 0 <= i < |versions|
      ensures NotAhead(r, versions[i])
      ensures Behind(r, versions[i]) == if Victims(lim, Push(lim, q, p)) == 0 then Behind(q, versions[i]) else 0
    {
      AppendVersion(lim, q, p, versions[i]);
    }
  }

  lemma AppendInv(c: Config, s: Sys, p: Payload)
    requires SysInv(c, s)
    ensures SysInv(c, Complete(c, s, AppendCall(p)))
  {
    AppendFiles(c, s, p);
    AppendRefines(c.limits, s.q, p);
    AppendVersions(c.limits, s.q, p, s.disk.versions, s.lag);
  }

  /** A release moves every version one entry further behind, or out of the oldest segment. */
  lemma ReleaseVersion(q: Spool, v: Option<Pos>)
    requires NotAhead(q, v) && q.segments != []
    ensures NotAhead(Release(q), v)
    ensures if AtBoundary(q) then Release(q).consumed == 0 && Seen(Release(q), v) == 0
            else Release(q).consumed == q.consumed + 1 && Seen(Release(q), v) == Seen(q, v)
  {
    if AtBoundary(q) {
      NotAheadAfterDrop(q, 1, v);
    } else if v.Some? && v.value.segment == q.segments[0].seqno {
      var k :| 0 <= k <= q.consumed <= |q.segments[0].entries| && v.value.offset == Size(q.segments[0].entries[..k]);
      assert 0 <= k <= Release(q).consumed <= |Release(q).segments[0].entries|;
    }
  }

  lemma PendingIsExact(q: Spool)
    ensures NotAhead(q, Some(PendingCursor(q))) && Seen(q, Some(PendingCursor(q))) == q.consumed
  {
    if q.segments != [] {
      CountToBoundary(q.segments[0].entries, q.consumed);
      assert 0 <= q.consumed <= q.consumed <= |q.segments[0].entries|;
    }
  }

  /** Adding the cursor of the queue as it is now keeps the versions in order. */
  lemma PersistVersions(q: Spool, versions: seq<Option<Pos>>, lag: nat)
    requires versions != [] && Ordered(versions)
    requires forall i :: 0 <= i < |versions| ==> NotAhead(q, versions[i]) && Behind(q, versions[i]) <= lag
    requires Behind(q, versions[0]) == lag
    ensures VersionsOk(q, versions + [Some(PendingCursor(q))], lag)
  {
    PendingIsExact(q);
  }

  lemma DurableVersions(q: Spool)
    ensures VersionsOk(q, [Some(PendingCursor(q))], 0)
  {
    PendingIsExact(q);
  }

  lemma ReleaseFiles(c: Config, s: Sys)
    requires s.disk.files == FilesOf(c.format, s.q.segments) && s.q.segments != []
    ensures var r := Complete(c, s, ReleaseCall).disk;
            && r.files == FilesOf(c.format, Release(s.q).segments)
            && r.versions == (if DurableRelease(s.q, s.since) then [] else s.disk.versions) + [Some(PendingCursor(Release(s.q)))]
  {
    var persist := Persist(PendingCursor(Release(s.q)), DurableRelease(s.q, s.since));
    if AtBoundary(s.q) {
      var remove := Remove(s.q.segments[0].seqno);
      ApplyConcat(s.disk, [remove], [persist]);
      ApplyOne(s.disk, remove);
      ApplyOne(Apply(s.disk, remove), persist);
    } else {
      assert ReleaseOps(s.q, s.since) == [persist];
      ApplyOne(s.disk, persist);
    }
  }

  lemma ReleaseInv(c: Config, s: Sys)
    requires SysInv(c, s)
    ensures SysInv(c, Complete(c, s, ReleaseCall))
  {
    if s.q.segments != [] {
      ReleaseFiles(c, s);
      ReleaseKeepsLimits(c.limits, s.q);
      if DurableRelease(s.q, s.since) {
        DurableVersions(Release(s.q));
      } else {
        QuietVersions(s.q, s.disk.versions, s.lag);
      }
    }
  }

  /** A release that stays in the segment and is not made durable. */
  lemma QuietVersions(q: Spool, versions: seq<Option<Pos>>, lag: nat)
    requires VersionsOk(q, versions, lag) && q.segments != [] && !AtBoundary(q)
    ensures VersionsOk(Release(q), versions + [Some(PendingCursor(Release(q)))], lag + 1)
  {
    forall i | 0 <= i < |versions|
      ensures NotAhead(Release(q), versions[i]) && Behind(Release(q), versions[i]) == Behind(q, versions[i]) + 1
    {
      ReleaseVersion(q, versions[i]);
    }
    PersistVersions(Release(q), versions, lag + 1);
  }

  lemma CloseInv(c: Config, s: Sys)
    requires SysInv(c, s)
    ensures SysInv(c, Complete(c, s, CloseCall))
  {
    ApplyOne(s.disk, Persist(PendingCursor(s.q), true));
    DurableVersions(s.q);
  }

  /** The queue whose operations a cut after `done` file operations has in effect reached. An append
      counts once its entry is whole, a release once its segment is gone or its cursor is written. */
  function Reached(c: Config, s: Sys, call: Call, done: nat): Spool {
    match call
    case AppendCall(p) => if done <= |OpenOps(c, s.q, p)| then s.q else Append(c.limits, s.q, p)
    case ReleaseCall => if done == 0 then s.q else Release(s.q)
    case CloseCall => s.q
  }

  /** The lag when the process dies there: an append that evicts has taken the segment away, and so
      has a release whose segment is gone; the call's own release counts once it is done. */
  function CutLag(c: Config, s: Sys, call: Call, done: nat): nat {
    match call
    case AppendCall(p) => if done <= |OpenOps(c, s.q, p)| then s.lag else AppendLag(c.limits, s.q, p, s.lag)
    case ReleaseCall => if done == 0 then s.lag else if done < |ReleaseOps(s.q, s.since)| then 0 else Complete(c, s, ReleaseCall).lag
    case CloseCall => if done == 0 then s.lag else 0
  }

  /** Every surviving version of the cursor recovers the segments of `base`, and consumes what that
      version knows of. */
  ghost predicate Lands(c: Config, d: Disk, base: Spool, lag: nat) {
    && WithinLimits(c.limits, base)
    && VersionsOk(base, d.versions, lag)
    && (forall i :: 0 <= i < |d.versions| ==> RecoversTo(c, d, base, d.versions[i]))
  }

  ghost predicate RecoversTo(c: Config, d: Disk, base: Spool, v: Option<Pos>) {
    var r := Recover(c, d.files, v);
    && ApplyCursor(ScanFiles(c.format, d.files), v).Valid()
    && ApplyCursor(ScanFiles(c.format, d.files), v).segments == ScanFiles(c.format, d.files)
    && r.Valid() && r.segments == base.segments && r.consumed == Seen(base, v)
    && (v.Some? ==> v.value.segment < r.nextSeq)
  }

  lemma LandsWhole(c: Config, d: Disk, base: Spool, lag: nat)
    requires WithinLimits(c.limits, base) && VersionsOk(base, d.versions, lag)
    requires ScanFiles(c.format, d.files) == base.segments
    ensures Lands(c, d, base, lag)
  {
    forall i | 0 <= i < |d.versions|
      ensures RecoversTo(c, d, base, d.versions[i])
    {
      CursorKeepsAll(base, d.versions[i]);
      RecoverWhole(c, base, d.files, d.versions[i]);
    }
  }

  /** Recovery after j of the evictions of an append finishes the others. */
  lemma RecoverMidEviction(c: Config, q: Spool, p: Payload, j: nat, files: seq<File>, v: Option<Pos>)
    requires NotAhead(q, v)
    requires j <= Victims(c.limits, Push(c.limits, q, p))
    requires j <= |Push(c.limits, q, p).segments| && ScanFiles(c.format, files) == Push(c.limits, q, p).segments[j..]
    ensures ApplyCursor(ScanFiles(c.format, files), v).Valid()
    ensures ApplyCursor(ScanFiles(c.format, files), v).segments == ScanFiles(c.format, files)
    ensures var r, base := Recover(c, files, v), Append(c.limits, q, p);
            && r.Valid() && r.segments == base.segments && r.consumed == Seen(base, v)
            && (v.Some? ==> v.value.segment < r.nextSeq)
  {
    var lim, q1 := c.limits, Push(c.limits, q, p);
    NotAheadAfterPush(lim, q, p, v);
    var left: Spool := if j == 0 then q1 else Left(q1, j, v);
    assert left.segments == q1.segments[j..] && NotAhead(left, v) by {
      if j == 0 { assert q1.segments[0..] == q1.segments; } else { NotAheadAfterDrop(q1, j, v); }
    }
    CursorKeepsAll(left, v);
    var cut := ApplyCursor(q1.segments[j..], v);
    assert cut == Queue(q1.segments[j..], cut.consumed, cut.nextSeq);
    EvictResumes(lim, q1, j, cut.consumed, cut.nextSeq);
    AppendVersion(lim, q, p, v);
    RecoveredValid(lim, cut);
    if j > 0 {
      NotAheadAfterDrop(q1, j, v);
    }
  }

  function Left(q: Spool, j: nat, v: Option<Pos>): Spool
    requires NotAhead(q, v) && 0 < j <= |q.segments|
  {
    NotAheadAfterDrop(q, j, v);
    Queue(q.segments[j..], 0, q.nextSeq)
  }

  lemma RecoveredValid(lim: Limits, q: Queue)
    requires q.Valid()
    ensures Evict(lim, q).Valid()
  {
    if q.segments != [] {
      EvictDropsFront(lim, q);
    }
  }

  lemma LandsMidEviction(c: Config, q: Spool, p: Payload, j: nat, d: Disk, lag: nat)
    requires VersionsOk(q, d.versions, lag)
    requires j <= Victims(c.limits, Push(c.limits, q, p)) && j <= |Push(c.limits, q, p).segments|
    requires ScanFiles(c.format, d.files) == Push(c.limits, q, p).segments[j..]
    ensures Lands(c, d, Append(c.limits, q, p), AppendLag(c.limits, q, p, lag))
  {
    AppendRefines(c.limits, q, p);
    AppendVersions(c.limits, q, p, d.versions, lag);
    forall i | 0 <= i < |d.versions|
      ensures RecoversTo(c, d, Append(c.limits, q, p), d.versions[i])
    {
      RecoverMidEviction(c, q, p, j, d.files, d.versions[i]);
    }
  }

  lemma AppendLands(c: Config, s: Sys, p: Payload, done: nat, n: nat)
    requires SysInv(c, s) && done <= |AppendOps(c, s.q, p)|
    ensures Lands(c, CutDisk(s.disk, AppendOps(c, s.q, p), done, n), Reached(c, s, AppendCall(p), done),
                  CutLag(c, s, AppendCall(p), done))
  {
    var d := CutDisk(s.disk, AppendOps(c, s.q, p), done, n);
    if done <= |OpenOps(c, s.q, p)| {
      UnwrittenScan(c, s.q, s.disk, p, done, n);
      LandsWhole(c, d, s.q, s.lag);
    } else {
      var j := done - |OpenOps(c, s.q, p)| - 1;
      WrittenCut(c, s.q, s.disk, p, j, n);
      LandsMidEviction(c, s.q, p, j, d, s.lag);
    }
  }

  /** Cutting after the first operations and j of the others. */
  lemma CutLater(d: Disk, first: seq<Op>, later: seq<Op>, j: nat, n: nat)
    requires j <= |later| && forall i :: 0 <= i < |later| ==> later[i].Remove?
    ensures CutDisk(d, first + later, |first| + j, n) == ApplyAll(ApplyAll(d, first), later[..j])
  {
    assert (first + later)[..|first| + j] == first + later[..j];
    ApplyConcat(d, first, later[..j]);
    if j < |later| {
      assert (first + later)[|first| + j] == later[j];
    }
  }

  /** The disk after the write and j removals. */
  lemma WrittenCut(c: Config, q: Spool, d: Disk, p: Payload, j: nat, n: nat)
    requires c.format.Ok() && d.files == FilesOf(c.format, q.segments)
    requires |OpenOps(c, q, p)| + 1 + j <= |AppendOps(c, q, p)|
    ensures j <= Victims(c.limits, Push(c.limits, q, p)) && j <= |Push(c.limits, q, p).segments|
    ensures var r := CutDisk(d, AppendOps(c, q, p), |OpenOps(c, q, p)| + 1 + j, n);
            ScanFiles(c.format, r.files) == Push(c.limits, q, p).segments[j..] && r.versions == d.versions
  {
    var q1 := Push(c.limits, q, p);
    var first := OpenOps(c, q, p) + [Write(EncodeEntry(c.format, p))];
    EvictIsDrop(c.limits, q1);
    EvictionCut(c, q1, d, first, j, n);
    WrittenFiles(c, q, d, p);
    EvictFiles(c, q1, ApplyAll(d, first), j);
    PushIsAppend(c.limits, q, p);
    ScanFilesOf(c.format, q1.segments[j..]);
  }

  lemma EvictionCut(c: Config, q: Queue, d: Disk, first: seq<Op>, j: nat, n: nat)
    requires j <= |EvictOps(c.limits, q)|
    ensures CutDisk(d, first + EvictOps(c.limits, q), |first| + j, n)
         == ApplyAll(ApplyAll(d, first), EvictOps(c.limits, q)[..j])
  {
    var evict := EvictOps(c.limits, q);
    forall i | 0 <= i < |evict| ensures evict[i].Remove? { EvictRemoves(c.limits, q, i); }
    CutLater(d, first, evict, j, n);
  }

  lemma {:induction false} EvictRemoves(lim: Limits, q: Queue, j: nat)
    requires j < |EvictOps(lim, q)|
    ensures EvictOps(lim, q)[j].Remove?
    decreases |q.segments|
  {
    if j > 0 {
      EvictRemoves(lim, q.(segments := q.segments[1..], consumed := 0), j - 1);
    }
  }

  lemma CutWhole(d: Disk, ops: seq<Op>, n: nat)
    ensures CutDisk(d, ops, |ops|, n) == ApplyAll(d, ops)
  {
    assert ops[..|ops|] == ops;
  }

  lemma WholeLands(c: Config, s: Sys)
    requires SysInv(c, s)
    ensures Lands(c, s.disk, s.q, s.lag)
  {
    ScanFilesOf(c.format, s.q.segments);
    LandsWhole(c, s.disk, s.q, s.lag);
  }

  /** The segment is gone and the cursor not yet written: every version is of a segment that no
      longer exists, and nothing is consumed. */
  lemma RemovedLands(c: Config, s: Sys)
    requires SysInv(c, s) && AtBoundary(s.q)
    ensures Lands(c, Apply(s.disk, Remove(s.q.segments[0].seqno)), Release(s.q), 0)
  {
    var d := Apply(s.disk, Remove(s.q.segments[0].seqno));
    assert d.files == FilesOf(c.format, s.q.segments[1..]);
    ScanFilesOf(c.format, s.q.segments[1..]);
    ReleaseKeepsLimits(c.limits, s.q);
    forall i | 0 <= i < |d.versions|
      ensures NotAhead(Release(s.q), d.versions[i]) && Seen(Release(s.q), d.versions[i]) == 0
    {
      ReleaseVersion(s.q, d.versions[i]);
    }
    LandsWhole(c, d, Release(s.q), 0);
  }

  lemma ReleaseLands(c: Config, s: Sys, done: nat, n: nat)
    requires SysInv(c, s) && done <= |ReleaseOps(s.q, s.since)|
    ensures Lands(c, CutDisk(s.disk, ReleaseOps(s.q, s.since), done, n), Reached(c, s, ReleaseCall, done),
                  CutLag(c, s, ReleaseCall, done))
  {
    var ops := ReleaseOps(s.q, s.since);
    if done == |ops| {
      CutWhole(s.disk, ops, n);
      ReleaseInv(c, s);
      WholeLands(c, Complete(c, s, ReleaseCall));
    } else if done == 0 {
      WholeLands(c, s);
    } else {
      assert ops[..1] == [ops[0]];
      ApplyOne(s.disk, ops[0]);
      RemovedLands(c, s);
    }
  }

  lemma CloseLands(c: Config, s: Sys, done: nat, n: nat)
    requires SysInv(c, s) && done <= |Ops(c, s, CloseCall)|
    ensures Lands(c, CutDisk(s.disk, Ops(c, s, CloseCall), done, n), s.q, CutLag(c, s, CloseCall, done))
  {
    if done == 0 {
      WholeLands(c, s);
    } else {
      CutWhole(s.disk, Ops(c, s, CloseCall), n);
      CloseInv(c, s);
      WholeLands(c, Complete(c, s, CloseCall));
    }
  }

  lemma CallLands(c: Config, s: Sys, call: Call, done: nat, n: nat)
    requires SysInv(c, s) && done <= |Ops(c, s, call)|
    ensures Lands(c, CutDisk(s.disk, Ops(c, s, call), done, n), Reached(c, s, call, done), CutLag(c, s, call, done))
  {
    match call
    case AppendCall(p) => AppendLands(c, s, p, done, n);
    case ReleaseCall => ReleaseLands(c, s, done, n);
    case CloseCall => CloseLands(c, s, done, n);
  }

}
