/** Whole lives of a spool, from an empty directory: calls, deaths at any file operation, power
    failures and restarts. */
module SpoolLife {
  import opened Prelude
  import opened Frames
  import opened SpoolQueue
  import opened SpoolDisk
  import opened SpoolCrash
  import opened SpoolRetry
  import opened SpoolFiles

  /** A call that completes, or a death in the middle of one: after `done` of its file operations and
      `torn` bytes into the next; then any number of processes that die in the middle of their recovery,
      and one that does not. A power failure picks the version of the cursor that survives. */
  datatype Event = Done(call: Call) | Dies(call: Call, done: nat, torn: nat, tries: seq<Try>, power: Option<nat>)

  /** The disk a death leaves. */
  function DeadDisk(c: Config, s: Sys, call: Call, done: nat, torn: nat): Disk {
    CutDisk(s.disk, Ops(c, s, call), Min(done, |Ops(c, s, call)|), torn)
  }

  ghost function Recovered(c: Config, files: seq<File>, v: Option<Pos>): Spool {
    if Recover(c, files, v).Valid() then Recover(c, files, v) else EmptyQueue
  }

  /** What the next process makes of this disk. A power failure has left one version of the cursor, a
      process crash leaves them all pending. */
  ghost function Reopen(c: Config, d: Disk, lag: nat, power: Option<nat>): Sys
    requires d.versions != []
  {
    var q := Recovered(c, d.files, Survivor(d, power));
    if power.Some? then Sys(q, 0, Disk(FilesOf(c.format, q.segments), [Survivor(d, power)]), 0, 0)
    else Sys(q, 0, Disk(FilesOf(c.format, q.segments), d.versions), lag, lag)
  }

  ghost function Restart(c: Config, s: Sys, call: Call, done: nat, torn: nat, tries: seq<Try>, power: Option<nat>): Sys {
    var d := DeadDisk(c, s, call, done, torn);
    if d.versions == [] then s
    else Reopen(c, AfterTries(c, d, tries), LagAfter(CutLag(c, s, call, Min(done, |Ops(c, s, call)|)), tries), power)
  }

  ghost function Live(c: Config, s: Sys, e: Event): Sys {
    match e
    case Done(call) => Complete(c, s, call)
    case Dies(call, done, torn, tries, power) => Restart(c, s, call, done, torn, tries, power)
  }

  const Birth := Sys(EmptyQueue, 0, Disk([], [None]), 0, 0)

  ghost function Life(c: Config, events: seq<Event>): Sys
    decreases |events|
  {
    if events == [] then Birth else Live(c, Life(c, events[..|events| - 1]), events[|events| - 1])
  }

  lemma DeadLands(c: Config, s: Sys, call: Call, done: nat, torn: nat)
    requires SysInv(c, s)
    ensures var k := Min(done, |Ops(c, s, call)|);
            Lands(c, DeadDisk(c, s, call, done, torn), Reached(c, s, call, k), CutLag(c, s, call, k))
  {
    CallLands(c, s, call, Min(done, |Ops(c, s, call)|), torn);
  }

  lemma RestartInv(c: Config, s: Sys, call: Call, done: nat, torn: nat, tries: seq<Try>, power: Option<nat>)
    requires SysInv(c, s)
    ensures SysInv(c, Restart(c, s, call, done, torn, tries, power))
  {
    var k, d := Min(done, |Ops(c, s, call)|), DeadDisk(c, s, call, done, torn);
    DeadLands(c, s, call, done, torn);
    var base := TriesLand(c, d, Reached(c, s, call, k), CutLag(c, s, call, k), tries);
    LandedInv(c, AfterTries(c, d, tries), base, LagAfter(CutLag(c, s, call, k), tries), power);
  }

  lemma LandedInv(c: Config, d: Disk, base: Spool, lag: nat, power: Option<nat>)
    requires c.format.Ok() && Lands(c, d, base, lag)
    ensures SysInv(c, Reopen(c, d, lag, power))
  {
    assert RecoversTo(c, d, base, Survivor(d, power));
    RecoveredIs(c, d, base, Survivor(d, power));
    Revives(c, d.versions, base, lag, Survivor(d, power), Recovered(c, d.files, Survivor(d, power)), power.Some?);
  }

  lemma RecoveredIs(c: Config, d: Disk, base: Spool, v: Option<Pos>)
    requires RecoversTo(c, d, base, v)
    ensures var q := Recovered(c, d.files, v);
            q.segments == base.segments && q.consumed == Seen(base, v) && (v.Some? ==> v.value.segment < q.nextSeq)
  {
  }

  lemma Revives(c: Config, versions: seq<Option<Pos>>, base: Spool, lag: nat, v: Option<Pos>, q: Spool, power: bool)
    requires c.format.Ok() && WithinLimits(c.limits, base) && VersionsOk(base, versions, lag) && v in versions
    requires q.segments == base.segments && q.consumed == Seen(base, v) && (v.Some? ==> v.value.segment < q.nextSeq)
    requires !power ==> v == versions[|versions| - 1]
    ensures SysInv(c, if power then Sys(q, 0, Disk(FilesOf(c.format, q.segments), [v]), 0, 0)
                      else Sys(q, 0, Disk(FilesOf(c.format, q.segments), versions), lag, lag))
  {
    LandedVersions(base, q, versions, v, lag, power);
  }

  lemma LandedVersions(base: Spool, r: Spool, versions: seq<Option<Pos>>, v: Option<Pos>, lag: nat, power: bool)
    requires VersionsOk(base, versions, lag) && v in versions
    requires r.segments == base.segments && r.consumed == Seen(base, v)
    requires v.Some? ==> v.value.segment < r.nextSeq
    requires !power ==> v == versions[|versions| - 1]
    ensures VersionsOk(r, if power then [v] else versions, if power then 0 else lag)
  {
    if power {
      LandedVersion(base, r, v, v);
    } else {
      forall i | 0 <= i < |versions|
        ensures NotAhead(r, versions[i])
      {
        LandedVersion(base, r, versions[i], v);
      }
    }
  }

  lemma LandedVersion(base: Spool, r: Spool, w: Option<Pos>, v: Option<Pos>)
    requires NotAhead(base, w) && NotAhead(base, v)
    requires r.segments == base.segments && r.consumed == Seen(base, v)
    requires w == v || Seen(base, v) == base.consumed
    requires w.Some? ==> v.Some? && w.value.segment <= v.value.segment < r.nextSeq
    ensures NotAhead(r, w)
  {
    if w.Some? && base.segments != [] && w.value.segment == base.segments[0].seqno {
      var es := base.segments[0].entries;
      var k :| 0 <= k <= base.consumed <= |es| && w.value.offset == Size(es[..k]);
      CountToBoundary(es, k);
      SeenBound(base, v);
      assert 0 <= k <= r.consumed <= |r.segments[0].entries|;
    }
  }

  lemma LiveInv(c: Config, s: Sys, e: Event)
    requires SysInv(c, s)
    ensures SysInv(c, Live(c, s, e))
  {
    match e
    case Done(call) =>
      match call {
        case AppendCall(p) => AppendInv(c, s, p);
        case ReleaseCall => ReleaseInv(c, s);
        case CloseCall => CloseInv(c, s);
      }
    case Dies(call, done, torn, tries, power) => RestartInv(c, s, call, done, torn, tries, power);
  }

  lemma BirthInv(c: Config, s: Sys)
    requires c.format.Ok() && s.q.segments == [] && s.q.consumed == 0 && s.since == 0 && s.lag == 0
    requires s.disk.files == [] && s.disk.versions == [None]
    ensures SysInv(c, s)
  {
    NothingYet(s.q);
    NoFiles(c, s.q);
  }

  lemma NoFiles(c: Config, q: Spool)
    requires q.segments == []
    ensures FilesOf(c.format, q.segments) == [] && WithinLimits(c.limits, q)
  {
  }

  lemma NothingYet(q: Spool)
    requires q.segments == [] && q.consumed == 0
    ensures VersionsOk(q, [None], 0)
  {
  }

  /** In every life the files hold exactly the queue, no version of the cursor that may survive is
      ahead of the reader, and the durable one is exactly `lag` entries behind it. */
  lemma {:induction false} EveryLife(c: Config, events: seq<Event>)
    requires c.format.Ok()
    ensures SysInv(c, Life(c, events))
    decreases |events|
  {
    if events == [] {
      BirthInv(c, Birth);
    } else {
      EveryLife(c, events[..|events| - 1]);
      LiveInv(c, Life(c, events[..|events| - 1]), events[|events| - 1]);
    }
  }

  /** In any life, crash the spool after any number of the file operations of any call, tearing the
      next write at any byte; let any number of processes die anywhere in their recovery, with power
      failures in between; and let any version of the cursor survive. Recovery then gives, in order,
      every completed, unreleased, unevicted entry, preceded by released ones that the version did not
      know of: none when only processes died, and with the durable version exactly as many as the lag. */
  lemma CrashRecovers(c: Config, events: seq<Event>, call: Call, done: nat, torn: nat, tries: seq<Try>, i: nat)
    requires c.format.Ok() && DeadDisk(c, Life(c, events), call, done, torn).versions != []
    requires i < |AfterTries(c, DeadDisk(c, Life(c, events), call, done, torn), tries).versions|
    ensures var s := Life(c, events);
            var k, dead := Min(done, |Ops(c, s, call)|), DeadDisk(c, s, call, done, torn);
            var d, base := AfterTries(c, dead, tries), Reached(c, s, call, k);
            var r := Recover(c, d.files, d.versions[i]);
            && r.Valid() && r.Fifo() == Replayed(base, d.versions[i]) + base.Fifo()
            && |Replayed(base, d.versions[i])| <= CutLag(c, s, call, k)
            && (NoPower(tries) ==> d.versions == dead.versions)
            && (NoPower(tries) && i == 0 ==> |Replayed(base, d.versions[i])| == CutLag(c, s, call, k))
            && (NoPower(tries) && i == |d.versions| - 1 ==> r.Fifo() == base.Fifo())
  {
    var s := Life(c, events);
    var k, dead := Min(done, |Ops(c, s, call)|), DeadDisk(c, s, call, done, torn);
    EveryLife(c, events);
    DeadLands(c, s, call, done, torn);
    TriesRecover(c, dead, Reached(c, s, call, k), CutLag(c, s, call, k), tries, i);
  }

  lemma TriesRecover(c: Config, dead: Disk, base: Spool, lag: nat, tries: seq<Try>, i: nat)
    requires c.format.Ok() && Lands(c, dead, base, lag) && i < |AfterTries(c, dead, tries).versions|
    ensures var d := AfterTries(c, dead, tries);
            var r := Recover(c, d.files, d.versions[i]);
            && r.Valid() && r.Fifo() == Replayed(base, d.versions[i]) + base.Fifo()
            && |Replayed(base, d.versions[i])| <= lag
            && (NoPower(tries) ==> d.versions == dead.versions)
            && (NoPower(tries) && i == 0 ==> |Replayed(base, d.versions[i])| == lag)
            && (NoPower(tries) && i == |d.versions| - 1 ==> r.Fifo() == base.Fifo())
  {
    var d := AfterTries(c, dead, tries);
    var after := TriesLand(c, dead, base, lag, tries);
    if NoPower(tries) {
      NoPowerKeepsVersions(c, dead, lag, tries);
    }
    NoNewVersions(c, dead, tries, d.versions[i]);
    var j := if NoPower(tries) then i else Position(dead.versions, d.versions[i]);
    OneRecovers(c, dead, base, lag, j, d, after, LagAfter(lag, tries), i);
  }

  function Position(versions: seq<Option<Pos>>, v: Option<Pos>): (j: nat)
    requires v in versions
    ensures j < |versions| && versions[j] == v
  {
    if versions[0] == v then 0 else 1 + Position(versions[1..], v)
  }

  lemma OneRecovers(c: Config, dead: Disk, base: Spool, lag: nat, j: nat, d: Disk, after: Spool, left: nat, i: nat)
    requires Lands(c, dead, base, lag) && j < |dead.versions| && Lands(c, d, after, left) && i < |d.versions|
    requires after.segments == base.segments && dead.versions[j] == d.versions[i]
    ensures var r := Recover(c, d.files, d.versions[i]);
            r.Valid() && r.Fifo() == Replayed(base, d.versions[i]) + base.Fifo()
    ensures |Replayed(base, d.versions[i])| <= lag && (j == 0 ==> |Replayed(base, d.versions[i])| == lag)
    ensures j == |dead.versions| - 1 ==> Recover(c, d.files, d.versions[i]).Fifo() == base.Fifo()
  {
    assert RecoversTo(c, d, after, d.versions[i]);
    NoneAhead(base, dead.versions, lag, j);
    Refilled(base, Recover(c, d.files, d.versions[i]), d.versions[i]);
    NothingReplayed(base, d.versions[i]);
  }

  lemma NothingReplayed(base: Spool, v: Option<Pos>)
    ensures |Replayed(base, v)| == 0 ==> Replayed(base, v) + base.Fifo() == base.Fifo()
  {
  }

  lemma LandingFifo(c: Config, d: Disk, base: Spool, lag: nat, i: nat)
    requires Lands(c, d, base, lag) && i < |d.versions|
    ensures Recover(c, d.files, d.versions[i]).Valid()
    ensures Recover(c, d.files, d.versions[i]).Fifo() == Replayed(base, d.versions[i]) + base.Fifo()
    ensures |Replayed(base, d.versions[i])| == Behind(base, d.versions[i]) <= lag
    ensures i == 0 ==> Behind(base, d.versions[i]) == lag
    ensures i == |d.versions| - 1 ==> Behind(base, d.versions[i]) == 0
  {
    assert RecoversTo(c, d, base, d.versions[i]);
    NoneAhead(base, d.versions, lag, i);
    Refilled(base, Recover(c, d.files, d.versions[i]), d.versions[i]);
  }

  lemma NoneAhead(q: Spool, versions: seq<Option<Pos>>, lag: nat, i: nat)
    requires VersionsOk(q, versions, lag) && i < |versions|
    ensures NotAhead(q, versions[i]) && Behind(q, versions[i]) <= lag
    ensures i == 0 ==> Behind(q, versions[i]) == lag
    ensures i == |versions| - 1 ==> Behind(q, versions[i]) == 0
  {
  }

  lemma Refilled(base: Spool, r: Queue, v: Option<Pos>)
    requires r.Valid() && NotAhead(base, v) && r.segments == base.segments && r.consumed == Seen(base, v)
    ensures r.Fifo() == Replayed(base, v) + base.Fifo() && |Replayed(base, v)| == Behind(base, v)
  {
    RefillFifo(base, v);
    SameEntries(r, base.(consumed := Seen(base, v)));
  }

  lemma SameEntries(a: Queue, b: Queue)
    requires a.Valid() && b.Valid() && a.segments == b.segments && a.consumed == b.consumed
    ensures a.Fifo() == b.Fifo()
  {
  }

  /** Every version that may survive replays at most cursorDurableInterval-1 entries. */
  ghost predicate BoundHolds(c: Config, s: Sys, call: Call, done: nat, torn: nat) {
    var d, base := DeadDisk(c, s, call, done, torn), Reached(c, s, call, Min(done, |Ops(c, s, call)|));
    forall i :: 0 <= i < |d.versions| ==> |Replayed(base, d.versions[i])| < DURABLE_INTERVAL
  }

  /** The exact condition: fewer than cursorDurableInterval releases from the oldest segment returned
      since the cursor was last durable, counting those of earlier processes. */
  lemma BoundHoldsIff(c: Config, events: seq<Event>, call: Call, done: nat, torn: nat)
    requires c.format.Ok()
    ensures var s := Life(c, events);
            BoundHolds(c, s, call, done, torn) <==> CutLag(c, s, call, Min(done, |Ops(c, s, call)|)) < DURABLE_INTERVAL
  {
    var s := Life(c, events);
    var d := DeadDisk(c, s, call, done, torn);
    EveryLife(c, events);
    DeadLands(c, s, call, done, torn);
    forall i | 0 <= i < |d.versions|
      ensures |Replayed(Reached(c, s, call, Min(done, |Ops(c, s, call)|)), d.versions[i])|
              <= CutLag(c, s, call, Min(done, |Ops(c, s, call)|))
    {
      CrashRecovers(c, events, call, done, torn, [], i);
    }
    CrashRecovers(c, events, call, done, torn, [], 0);
  }

  /** The lag a process inherits is all that can break the bound: releases of this process alone never
      do. */
  lemma OneProcessKeepsTheBound(c: Config, events: seq<Event>, call: Call, done: nat, torn: nat)
    requires c.format.Ok() && Life(c, events).carried == 0
    ensures BoundHolds(c, Life(c, events), call, done, torn)
  {
    var s := Life(c, events);
    EveryLife(c, events);
    LiveInv(c, s, Done(call));
    BoundHoldsIff(c, events, call, done, torn);
  }

  ghost predicate Opens(c: Config, d: Disk, v: Option<Pos>) {
    ApplyCursor(ScanFiles(c.format, d.files), v).Valid() && Recover(c, d.files, v).Valid()
  }

  /** These entries are the queue of the moment of the first death, after what the surviving cursor did
      not know to be released; that is nothing when the power stayed on. */
  ghost predicate Regained(base: Spool, v: Option<Pos>, steady: bool, fifo: seq<Payload>) {
    fifo == Replayed(base, v) + base.Fifo() && (steady ==> fifo == base.Fifo())
  }

  lemma TriedOpens(c: Config, s: Sys, call: Call, done: nat, torn: nat, tries: seq<Try>)
    requires SysInv(c, s) && DeadDisk(c, s, call, done, torn).versions != []
    ensures var d := AfterTries(c, DeadDisk(c, s, call, done, torn), tries);
            var r := Recover(c, d.files, d.versions[|d.versions| - 1]);
            Opens(c, d, d.versions[|d.versions| - 1]) && Restart(c, s, call, done, torn, tries, None).disk == Disk(FilesOf(c.format, r.segments), d.versions)
  {
    var k, d := Min(done, |Ops(c, s, call)|), AfterTries(c, DeadDisk(c, s, call, done, torn), tries);
    DeadLands(c, s, call, done, torn);
    var base := TriesLand(c, DeadDisk(c, s, call, done, torn), Reached(c, s, call, k), CutLag(c, s, call, k), tries);
    assert RecoversTo(c, d, base, d.versions[|d.versions| - 1]);
  }

  lemma LandedRegains(c: Config, dead: Disk, base: Spool, lag: nat, tries: seq<Try>, d: Disk)
    requires c.format.Ok() && Lands(c, dead, base, lag) && d == AfterTries(c, dead, tries) && d.versions != []
    ensures var r, v := Recover(c, d.files, d.versions[|d.versions| - 1]), d.versions[|d.versions| - 1];
            r.Valid() && Regained(base, v, NoPower(tries), r.Fifo())
  {
    TriesRecover(c, dead, base, lag, tries, |d.versions| - 1);
  }

  /** What NewSpool requires of a directory holds for every disk that any deaths leave behind, and what
      it opens is the queue that CrashRecovers speaks of. */
  method OpenAfterCrash(c: Config, ghost events: seq<Event>, ghost call: Call, ghost done: nat, ghost torn: nat, ghost tries: seq<Try>,
                        files: seq<File>, versions: seq<Option<Pos>>)
    returns (spool: SpoolDir)
    requires c.format.Ok() && DeadDisk(c, Life(c, events), call, done, torn).versions != []
    requires Disk(files, versions) == AfterTries(c, DeadDisk(c, Life(c, events), call, done, torn), tries)
    ensures fresh(spool) && spool.Valid()
    ensures var s := Life(c, events);
            Regained(Reached(c, s, call, Min(done, |Ops(c, s, call)|)), versions[|versions| - 1], NoPower(tries), spool.Contents())
    ensures spool.disk == Restart(c, Life(c, events), call, done, torn, tries, None).disk
  {
    ghost var s := Life(c, events);
    ghost var k := Min(done, |Ops(c, s, call)|);
    EveryLife(c, events);
    TriedOpens(c, s, call, done, torn, tries);
    DeadLands(c, s, call, done, torn);
    LandedRegains(c, DeadDisk(c, s, call, done, torn), Reached(c, s, call, k), CutLag(c, s, call, k), tries, Disk(files, versions));
    spool := new SpoolDir.Open(c, files, versions);
  }

  /** states[k] is the spool after the first k events. */
  ghost predicate Traces(c: Config, events: seq<Event>, states: seq<Sys>) {
    && |states| == |events| + 1 && states[0] == Birth && states[|events|] == Life(c, events)
    && (forall k :: 0 <= k < |events| ==> Follows(c, events, states, k))
  }

  ghost predicate Follows(c: Config, events: seq<Event>, states: seq<Sys>, k: nat)
    requires k < |events| < |states|
  {
    states[k + 1] == Live(c, states[k], events[k])
  }

  lemma Trace(c: Config, events: seq<Event>) returns (states: seq<Sys>)
    ensures Traces(c, events, states)
    ensures forall k :: 0 <= k <= |events| ==> states[k] == Life(c, events[..k])
  {
    states := seq(|events| + 1, k requires 0 <= k <= |events| => Life(c, events[..k]));
    assert events[..|events|] == events;
    forall k | 0 <= k < |events|
      ensures Follows(c, events, states, k)
    {
      assert events[..k + 1][..k] == events[..k];
    }
  }

  const ENTRY: Payload := [0]

  const A := Done(AppendCall(ENTRY))
  const R := Done(ReleaseCall)
  const X := Dies(CloseCall, 0, 0, [], None)

  /** Fifteen appends, seven releases, a process crash, seven releases. */
  const SCRIPT := [A, A, A, A, A, A, A, A, A, A, A, A, A, A, A] + [R, R, R, R, R, R, R] + [X] + [R, R, R, R, R, R, R]

  predicate Roomy(lim: Limits) {
    lim.maxBytes >= 200 && lim.segmentBytes >= 200
  }

  predicate OneSegment(q: Queue, n: nat) {
    |q.segments| == 1 && |q.segments[0].entries| == n && Size(q.segments[0].entries) == 9 * n
  }

  /** The spool holds n entries in one segment and has released `consumed` of them. */
  predicate Stands(s: Sys, n: nat, consumed: nat, since: nat, lag: nat) {
    && (if n == 0 then s.q.segments == [] else OneSegment(s.q, n))
    && s.q.consumed == consumed && s.since == since && s.lag == lag
  }

  lemma FirstAppend(c: Config, s: Sys)
    requires Roomy(c.limits) && Stands(s, 0, 0, 0, 0)
    ensures Stands(Complete(c, s, AppendCall(ENTRY)), 1, 0, 0, 0)
  {
    var q := Push(c.limits, s.q, ENTRY);
    assert q.segments[0].entries == [ENTRY] && |q.segments| == 1;
    assert [ENTRY][1..] == [];
    assert q.segments[1..] == [];
  }

  lemma NextAppend(c: Config, s: Sys, n: nat)
    requires Roomy(c.limits) && 0 < n < 15 && Stands(s, n, 0, 0, 0)
    ensures Stands(Complete(c, s, AppendCall(ENTRY)), n + 1, 0, 0, 0)
  {
    var q := Push(c.limits, s.q, ENTRY);
    var es := s.q.segments[0].entries;
    assert q.segments[0].entries == es + [ENTRY] && |q.segments| == 1;
    SizeConcat(es, [ENTRY]);
    assert [ENTRY][1..] == [];
  }

  lemma QuietRelease(c: Config, s: Sys, k: nat, since: nat)
    requires k < 14 && since < 7 && Stands(s, 15, k, since, k)
    ensures Stands(Complete(c, s, ReleaseCall), 15, k + 1, since + 1, k + 1)
  {
  }

  /** A process that dies between calls is followed by one with the same queue, a new counter and the
      same lag. */
  lemma IdleDeath(c: Config, s: Sys)
    requires SysInv(c, s)
    ensures var r := Restart(c, s, CloseCall, 0, 0, [], None);
            r.q.segments == s.q.segments && r.q.consumed == s.q.consumed && r.since == 0 && r.lag == s.lag
  {
    IdleDisk(c, s);
    RecoveredIs(c, s.disk, s.q, Survivor(s.disk, None));
  }

  lemma IdleDisk(c: Config, s: Sys)
    requires SysInv(c, s)
    ensures DeadDisk(c, s, CloseCall, 0, 0) == s.disk && Lands(c, s.disk, s.q, s.lag)
    ensures Min(0, |Ops(c, s, CloseCall)|) == 0 && CutLag(c, s, CloseCall, 0) == s.lag
    ensures s.disk.versions != [] && RecoversTo(c, s.disk, s.q, Survivor(s.disk, None))
  {
    WholeLands(c, s);
  }

  lemma {:induction false} Appended(c: Config, events: seq<Event>, states: seq<Sys>, n: nat)
    requires Roomy(c.limits) && |states| == |events| + 1 && states[0] == Birth && n <= 15 <= |events|
    requires forall k :: 0 <= k < n ==> events[k] == A && Follows(c, events, states, k)
    ensures Stands(states[n], n, 0, 0, 0)
  {
    if n > 0 {
      Appended(c, events, states, n - 1);
      assert events[n - 1] == A && Follows(c, events, states, n - 1);
      if n == 1 {
        FirstAppend(c, states[0]);
      } else {
        NextAppend(c, states[n - 1], n - 1);
      }
    }
  }

  lemma {:induction false} Released(c: Config, events: seq<Event>, states: seq<Sys>, from: nat, k: nat, m: nat)
    requires |states| == |events| + 1 && from + m <= |events| && m <= 7 && k <= 7
    requires Stands(states[from], 15, k, 0, k)
    requires forall i :: from <= i < from + m ==> events[i] == R && Follows(c, events, states, i)
    ensures Stands(states[from + m], 15, k + m, m, k + m)
  {
    if m > 0 {
      Released(c, events, states, from, k, m - 1);
      assert events[from + m - 1] == R && Follows(c, events, states, from + m - 1);
      QuietRelease(c, states[from + m - 1], k + m - 1, m - 1);
    }
  }

  /** What follows from the fifteen appends on. */
  lemma SevenTwice(c: Config, events: seq<Event>, states: seq<Sys>)
    requires c.format.Ok() && |events| == 30 && |states| == 31 && Stands(states[15], 15, 0, 0, 0)
    requires forall i :: 15 <= i < 30 ==> Follows(c, events, states, i)
    requires forall i :: 15 <= i < 30 ==> events[i] == if i == 22 then X else R
    requires SysInv(c, states[22])
    ensures Stands(states[30], 15, 14, 7, 14)
  {
    Released(c, events, states, 15, 0, 7);
    assert events[22] == X && Follows(c, events, states, 22);
    IdleDeath(c, states[22]);
    Released(c, events, states, 23, 7, 7);
  }

  lemma ScriptLag(c: Config)
    requires c.format.Ok() && Roomy(c.limits)
    ensures Life(c, SCRIPT).lag == 14
  {
    var events := SCRIPT;
    var states := Trace(c, events);
    Scripted(events);
    Appended(c, events, states, 15);
    EveryLife(c, events[..22]);
    SevenTwice(c, events, states);
  }

  lemma Scripted(events: seq<Event>)
    requires events == SCRIPT
    ensures |events| == 30 && forall i :: 0 <= i < 30 ==> events[i] == if i < 15 then A else if i == 22 then X else R
  {
  }

  /** The counter of releases since the last durable cursor starts again with every process, so the
      bound is per process: in this life a power failure hands out fourteen released entries again. */
  lemma FourteenReplayed(c: Config)
    requires c.format.Ok() && Roomy(c.limits)
    ensures var s := Life(c, SCRIPT);
            var d := DeadDisk(c, s, CloseCall, 0, 0);
            d.versions != [] && |Replayed(s.q, d.versions[0])| == 14 && !BoundHolds(c, s, CloseCall, 0, 0)
  {
    ScriptLag(c);
    LagIsReplayed(c, SCRIPT);
  }

  lemma LagIsReplayed(c: Config, events: seq<Event>)
    requires c.format.Ok()
    ensures var s := Life(c, events);
            var d := DeadDisk(c, s, CloseCall, 0, 0);
            && d.versions != [] && |Replayed(s.q, d.versions[0])| == s.lag
            && (BoundHolds(c, s, CloseCall, 0, 0) <==> s.lag < DURABLE_INTERVAL)
  {
    var s := Life(c, events);
    EveryLife(c, events);
    IdleDisk(c, s);
    LandingFifo(c, s.disk, s.q, s.lag, 0);
    BoundHoldsIff(c, events, CloseCall, 0, 0);
  }
}
