/** Deaths inside recovery (internal/agent/spool.go): whatever part of NewSpool's own truncations,
    removals and evictions has happened, another recovery ends where the first would have. */
module SpoolRetry {
  import opened Prelude
  import opened Frames
  import opened SpoolQueue
  import opened SpoolDisk
  import opened SpoolCrash

  function Min(a: nat, b: nat): nat { if a < b then a else b }

  /** The files when the scan has taken those of `a`. */
  function Half(c: Config, a: seq<File>, b: seq<File>): seq<File> {
    FilesOf(c.format, ScanFiles(c.format, a)) + b
  }

  /** The files when recovery with this version of the cursor dies after `done` steps. The scan takes the
      files one by one, cutting torn tails and removing files without an entry; then segments go from the
      front, those before the cursor and those over the limit. */
  function Partway(c: Config, files: seq<File>, v: Option<Pos>, done: nat): seq<File> {
    if done <= |files| then Half(c, files[..done], files[done..])
    else Late(c, ScanFiles(c.format, files), Removed(c, files, v, done))
  }

  /** The files when j segments of those found are gone. */
  function Late(c: Config, found: seq<Segment>, j: nat): seq<File>
    requires j <= |found|
  {
    FilesOf(c.format, found[j..])
  }

  /** How many segments are gone after the scan and some more steps. */
  function Removed(c: Config, files: seq<File>, v: Option<Pos>, done: nat): (j: nat)
    requires done > |files|
    ensures j <= |ScanFiles(c.format, files)|
  {
    var found, kept := |ScanFiles(c.format, files)|, |Recover(c, files, v).segments|;
    Min(done - |files|, found - Min(kept, found))
  }

  lemma {:induction false} ScannedHold(f: Format, files: seq<File>)
    ensures forall i :: 0 <= i < |ScanFiles(f, files)| ==> ScanFiles(f, files)[i].entries != []
  {
    if files != [] {
      ScannedHold(f, files[1..]);
    }
  }

  /** Scanning is idempotent, half done or done. */
  lemma ScanParts(c: Config, a: seq<File>, b: seq<File>)
    requires c.format.Ok()
    ensures ScanFiles(c.format, Half(c, a, b)) == ScanFiles(c.format, a + b)
  {
    var found := ScanFiles(c.format, a);
    ScannedHold(c.format, a);
    ScanFilesOf(c.format, found);
    ScanConcat(c.format, FilesOf(c.format, found), b);
    ScanConcat(c.format, a, b);
  }

  lemma LateScans(c: Config, found: seq<Segment>, j: nat)
    requires c.format.Ok() && j <= |found| && forall i :: 0 <= i < |found| ==> found[i].entries != []
    ensures ScanFiles(c.format, Late(c, found, j)) == found[j..]
  {
    ScanFilesOf(c.format, found[j..]);
  }

  /** The cursor applied to what is left keeps it, and reads on in the oldest segment only if nothing went. */
  lemma CursorOnRest(found: seq<Segment>, v: Option<Pos>, j: nat)
    requires ApplyCursor(found, v).Valid() && ApplyCursor(found, v).segments == found && j <= |found|
    requires found != [] ==> j < |found|
    ensures var r := ApplyCursor(found[j..], v);
            && r.Valid() && r.segments == found[j..] && r.nextSeq == ApplyCursor(found, v).nextSeq
            && (j > 0 ==> r.consumed == 0)
  {
    if j == 0 {
      assert found[0..] == found;
    } else {
      assert NextAfter(found[j..]) == NextAfter(found) by {
        assert found[j..][|found| - j - 1] == found[|found| - 1];
      }
      if v.Some? {
        FirstIsNotBefore(found, v.value.segment);
        assert found[j..][0] == found[j] && found[j].seqno > found[0].seqno >= v.value.segment;
      }
      RestIsValid(ApplyCursor(found, v), j);
    }
  }

  lemma RestIsValid(q: Queue, j: nat)
    requires q.Valid() && j < |q.segments|
    ensures Queue(q.segments[j..], 0, q.nextSeq).Valid()
  {
    assert forall i :: 0 <= i < |q.segments| - j ==> q.segments[j..][i] == q.segments[i + j];
  }

  lemma {:induction false} FirstIsNotBefore(found: seq<Segment>, n: nat)
    requires DropBefore(found, n) == found && found != []
    ensures found[0].seqno >= n
  {
    if found[0].seqno < n {
      DropShortens(found[1..], n);
    }
  }

  lemma {:induction false} DropShortens(found: seq<Segment>, n: nat)
    ensures |DropBefore(found, n)| <= |found|
  {
    if found != [] && found[0].seqno < n {
      DropShortens(found[1..], n);
    }
  }

  lemma {:induction false} OneStays(lim: Limits, q: Queue)
    ensures q.segments != [] ==> Victims(lim, q) < |q.segments|
    decreases |q.segments|
  {
    if TotalBytes(q.segments) > lim.maxBytes && |q.segments| > 1 {
      OneStays(lim, q.(segments := q.segments[1..], consumed := 0));
    }
  }

  /** After j of the evictions, the others follow. */
  lemma RecoverRest(c: Config, d: Disk, base: Spool, v: Option<Pos>, files: seq<File>, j: nat)
    requires RecoversTo(c, d, base, v) && j + |base.segments| <= |ScanFiles(c.format, d.files)|
    requires ScanFiles(c.format, files) == ScanFiles(c.format, d.files)[j..]
    ensures RecoversTo(c, d.(files := files), base, v)
  {
    var found := ScanFiles(c.format, d.files);
    var all := ApplyCursor(found, v);
    EvictIsDrop(c.limits, all);
    OneStays(c.limits, all);
    CursorOnRest(found, v, j);
    var cut := ApplyCursor(found[j..], v);
    assert cut == Queue(all.segments[j..], cut.consumed, cut.nextSeq);
    EvictResumes(c.limits, all, j, cut.consumed, cut.nextSeq);
    RecoveredValid(c.limits, cut);
    EvictIgnores(c.limits, all, all.consumed, all.nextSeq);
    assert all == Queue(all.segments, all.consumed, all.nextSeq);
  }

  /** Recovery is idempotent: interrupted anywhere, under any version of the cursor, and begun again under
      any other, it ends with the same segments. */
  lemma PartwayLands(c: Config, d: Disk, base: Spool, lag: nat, v: Option<Pos>, done: nat)
    requires c.format.Ok() && Lands(c, d, base, lag) && RecoversTo(c, d, base, v)
    ensures Lands(c, d.(files := Partway(c, d.files, v, done)), base, lag)
  {
    var j := PartwayScans(c, d, base, v, done);
    var files := Partway(c, d.files, v, done);
    forall i | 0 <= i < |d.versions|
      ensures RecoversTo(c, d.(files := files), base, d.versions[i])
    {
      RecoverRest(c, d, base, d.versions[i], files, j);
    }
  }

  lemma PartwayScans(c: Config, d: Disk, base: Spool, v: Option<Pos>, done: nat) returns (j: nat)
    requires c.format.Ok() && RecoversTo(c, d, base, v)
    ensures j + |base.segments| <= |ScanFiles(c.format, d.files)|
    ensures ScanFiles(c.format, Partway(c, d.files, v, done)) == ScanFiles(c.format, d.files)[j..]
  {
    RecoversWithin(c, d, base, v);
    if done <= |d.files| {
      j := 0;
      HalfScans(c, d.files, v, done);
    } else {
      j := Removed(c, d.files, v, done);
      ScannedHold(c.format, d.files);
      LateScans(c, ScanFiles(c.format, d.files), j);
    }
  }

  lemma HalfScans(c: Config, files: seq<File>, v: Option<Pos>, done: nat)
    requires c.format.Ok() && done <= |files|
    ensures ScanFiles(c.format, Partway(c, files, v, done)) == ScanFiles(c.format, files)[0..]
  {
    var a, b := files[..done], files[done..];
    ScanParts(c, a, b);
    SameFiles(a, b, files);
    WholeSlice(ScanFiles(c.format, files));
  }

  lemma SameFiles(a: seq<File>, b: seq<File>, files: seq<File>)
    requires |a| <= |files| && a == files[..|a|] && b == files[|a|..]
    ensures a + b == files
  {
  }

  lemma WholeSlice(found: seq<Segment>)
    ensures found[0..] == found
  {
  }

  lemma RecoversWithin(c: Config, d: Disk, base: Spool, v: Option<Pos>)
    requires RecoversTo(c, d, base, v)
    ensures |base.segments| <= |ScanFiles(c.format, d.files)| && Recover(c, d.files, v).segments == base.segments
  {
    EvictIsDrop(c.limits, ApplyCursor(ScanFiles(c.format, d.files), v));
  }

  /** A process that starts, after a power failure perhaps, and dies after `done` steps of its recovery. */
  datatype Try = Try(power: Option<nat>, done: nat)

  /** Which version of the cursor the next process finds. */
  function Survivor(d: Disk, power: Option<nat>): Option<Pos>
    requires d.versions != []
  {
    if power.Some? && power.value < |d.versions| then d.versions[power.value] else d.versions[|d.versions| - 1]
  }

  /** A power failure has left one version of the cursor, a process crash leaves them all pending. */
  function Powered(d: Disk, power: Option<nat>): (r: Disk)
    requires d.versions != []
    ensures r.versions != [] && r.versions[|r.versions| - 1] == Survivor(d, power)
  {
    if power.Some? then d.(versions := [Survivor(d, power)]) else d
  }

  function AfterTry(c: Config, d: Disk, t: Try): (r: Disk)
    requires d.versions != []
    ensures r.versions != []
  {
    Powered(d, t.power).(files := Partway(c, d.files, Survivor(d, t.power), t.done))
  }

  function AfterTries(c: Config, d: Disk, ts: seq<Try>): (r: Disk)
    requires d.versions != []
    ensures r.versions != []
    decreases |ts|
  {
    if ts == [] then d else AfterTry(c, AfterTries(c, d, ts[..|ts| - 1]), ts[|ts| - 1])
  }

  /** A power failure forgets what was pending. */
  function LagAfter(lag: nat, ts: seq<Try>): nat
    decreases |ts|
  {
    if ts == [] then lag else if ts[|ts| - 1].power.Some? then 0 else LagAfter(lag, ts[..|ts| - 1])
  }

  predicate NoPower(ts: seq<Try>) {
    forall i :: 0 <= i < |ts| ==> ts[i].power.None?
  }

  /** What a power failure leaves recovers to the queue that the surviving version gives. */
  lemma PoweredLands(c: Config, d: Disk, base: Spool, lag: nat, v: Option<Pos>) returns (base': Spool)
    requires Lands(c, d, base, lag) && v in d.versions
    ensures base'.segments == base.segments && Lands(c, d.(versions := [v]), base', 0)
  {
    assert RecoversTo(c, d, base, v);
    base' := Recover(c, d.files, v);
    NowhereAhead(base, base', v);
  }

  lemma NowhereAhead(base: Spool, r: Spool, v: Option<Pos>)
    requires NotAhead(base, v) && r.segments == base.segments && r.consumed == Seen(base, v)
    requires v.Some? ==> v.value.segment < r.nextSeq
    ensures VersionsOk(r, [v], 0)
  {
    if v.Some? && base.segments != [] && v.value.segment == base.segments[0].seqno {
      var es := base.segments[0].entries;
      var k :| 0 <= k <= base.consumed <= |es| && v.value.offset == Size(es[..k]);
      CountToBoundary(es, k);
      SeenBound(base, v);
      assert 0 <= k <= r.consumed <= |r.segments[0].entries|;
    }
  }

  lemma TryLands(c: Config, d: Disk, base: Spool, lag: nat, t: Try) returns (base': Spool)
    requires c.format.Ok() && Lands(c, d, base, lag)
    ensures Lands(c, AfterTry(c, d, t), base', if t.power.Some? then 0 else lag)
    ensures base'.segments == base.segments && (t.power.None? ==> base' == base)
  {
    var v := Survivor(d, t.power);
    if t.power.Some? {
      base' := PoweredLands(c, d, base, lag, v);
      assert RecoversTo(c, d.(versions := [v]), base', d.(versions := [v]).versions[0]);
      PartwayLands(c, d.(versions := [v]), base', 0, v, t.done);
    } else {
      base' := base;
      assert RecoversTo(c, d, base, d.versions[|d.versions| - 1]);
      PartwayLands(c, d, base, lag, v, t.done);
    }
  }

  /** A power failure only leaves fewer versions. */
  lemma {:induction false} NoNewVersions(c: Config, d: Disk, ts: seq<Try>, v: Option<Pos>)
    requires d.versions != [] && v in AfterTries(c, d, ts).versions
    ensures v in d.versions
    decreases |ts|
  {
    if ts != [] {
      NoNewVersions(c, d, ts[..|ts| - 1], v);
    }
  }

  /** However often recovery is interrupted, what is on disk recovers to the same segments, and to the
      same queue as long as the power stays on. */
  lemma {:induction false} TriesLand(c: Config, d: Disk, base: Spool, lag: nat, ts: seq<Try>) returns (base': Spool)
    requires c.format.Ok() && Lands(c, d, base, lag)
    ensures Lands(c, AfterTries(c, d, ts), base', LagAfter(lag, ts))
    ensures base'.segments == base.segments && (NoPower(ts) ==> base' == base)
    decreases |ts|
  {
    base' := base;
    if ts != [] {
      var k := |ts| - 1;
      var mid := TriesLand(c, d, base, lag, ts[..k]);
      base' := TryLands(c, AfterTries(c, d, ts[..k]), mid, LagAfter(lag, ts[..k]), ts[k]);
    }
  }

  lemma {:induction false} NoPowerKeepsVersions(c: Config, d: Disk, lag: nat, ts: seq<Try>)
    requires d.versions != [] && NoPower(ts)
    ensures AfterTries(c, d, ts).versions == d.versions && LagAfter(lag, ts) == lag
    decreases |ts|
  {
    if ts != [] {
      NoPowerKeepsVersions(c, d, lag, ts[..|ts| - 1]);
    }
  }
}
