/** Batches are settled in flush order, through any mix of overload, faults, disconnects and replay,
    if and only if no fresh batch is demoted behind a younger spooled one; and a window that never
    fills rules that out. */
module ShipperOrder {
  import opened Prelude
  import opened Frames
  import opened SpoolQueue
  import opened ShipperModel
  import opened ShipperLive
  import opened ShipperMoves
  import opened ShipperStructure
  import opened ShipperReplay

  function FreshEntries(batches: seq<Outstanding>): seq<Entry> {
    if batches == [] then []
    else (if batches[0].fromSpool then [] else [Entry(Some(batches[0].batch), batches[0].cursors)])
         + FreshEntries(batches[1..])
  }

  lemma {:induction false} FreshEntriesConcat(a: seq<Outstanding>, b: seq<Outstanding>)
    ensures FreshEntries(a + b) == FreshEntries(a) + FreshEntries(b)
  {
    if a == [] {
      assert a + b == b;
    } else {
      assert (a + b)[1..] == a[1..] + b;
      FreshEntriesConcat(a[1..], b);
    }
  }

  lemma FreshEntriesOne(o: Outstanding)
    ensures FreshEntries([o]) == if o.fromSpool then [] else [Entry(Some(o.batch), o.cursors)]
  {
    assert [o][1..] == [];
  }

  function Backlog(cfg: Config, q: Spool, meta: seq<Cursors>): seq<Entry>
    requires |meta| == Len(q)
  {
    Zip(cfg, q.Fifo(), meta)
  }

  /** Batches still to be settled, in the order the agent will get to them. */
  function Unsettled(cfg: Config, st: State): seq<Entry>
    requires |st.meta| == Len(st.spool)
  {
    FreshEntries(st.pending) + Backlog(cfg, st.spool, st.meta)
  }

  /** Everything flushed, in the order in which it was or will be settled. */
  function Standing(cfg: Config, st: State): seq<Entry>
    requires |st.meta| == Len(st.spool)
  {
    st.log.settled + Unsettled(cfg, st)
  }

  /** Nothing was evicted, and nothing dropped because it did not fit the spool. */
  predicate Whole(log: Ledger) {
    log.evicted == [] && !log.unspooled
  }

  predicate FreshWindow(st: State) {
    st.pending != [] && !st.pending[0].fromSpool
  }

  /** Positions of Standing that no later move changes. */
  function Fixed(st: State): nat {
    |st.log.settled| + if FreshWindow(st) then 0 else Len(st.spool)
  }

  /** A batch is out of its place for good. */
  ghost predicate Misplaced(cfg: Config, st: State, i: nat)
    requires |st.meta| == Len(st.spool)
  {
    i < Fixed(st) && i < |st.log.flushed| && Standing(cfg, st)[i] != st.log.flushed[i]
  }

  /** While nothing is evicted or dropped for its size: flush order holds until a reordering, and
      never after one. */
  ghost predicate Ordered(cfg: Config, st: State) {
    && |st.meta| == Len(st.spool)
    && (Whole(st.log) ==>
          if st.log.reordered then exists i :: Misplaced(cfg, st, i)
          else Standing(cfg, st) == st.log.flushed)
  }

  /** What a move may do to the order. */
  ghost predicate Keeps(cfg: Config, a: State, b: State) {
    && |a.meta| == Len(a.spool) && |b.meta| == Len(b.spool)
    && b.log.flushed == a.log.flushed && Standing(cfg, b) == Standing(cfg, a)
    && Fixed(a) <= Fixed(b) && b.log.reordered == a.log.reordered
  }

  ghost predicate Extends(cfg: Config, a: State, b: State, e: Entry) {
    && |a.meta| == Len(a.spool) && |b.meta| == Len(b.spool)
    && b.log.flushed == a.log.flushed + [e] && Standing(cfg, b) == Standing(cfg, a) + [e]
    && Fixed(a) <= Fixed(b) && b.log.reordered == a.log.reordered
  }

  lemma KeepsOrdered(cfg: Config, a: State, b: State)
    requires Ordered(cfg, a) && Keeps(cfg, a, b) && (Whole(b.log) ==> Whole(a.log))
    ensures Ordered(cfg, b)
  {
    if Whole(b.log) && b.log.reordered {
      var i :| Misplaced(cfg, a, i);
      assert Misplaced(cfg, b, i);
    }
  }

  lemma ExtendsOrdered(cfg: Config, a: State, b: State, e: Entry)
    requires Ordered(cfg, a) && Extends(cfg, a, b, e) && Whole(a.log)
    ensures Ordered(cfg, b)
  {
    if Whole(b.log) && b.log.reordered {
      var i :| Misplaced(cfg, a, i);
      assert Misplaced(cfg, b, i);
    }
  }

  /** An append that evicts nothing and fits adds one entry at the end. */
  lemma AppendBacklog(cfg: Config, q: Spool, meta: seq<Cursors>, batch: Batch, cursors: Cursors)
    requires cfg.Lossless() && |meta| == Len(q) && cfg.Fits(batch) && Lost(cfg, q, batch) == []
    ensures var q1, meta1 := SpoolAfter(cfg, q, batch), MetaAfter(meta, true, cursors, 0);
            |meta1| == Len(q1) && Backlog(cfg, q1, meta1) == Backlog(cfg, q, meta) + [Entry(Some(batch), cursors)]
  {
    AppendRefines(cfg.limits, q, cfg.marshal(batch));
    assert AppendEvicts(cfg.limits, q, cfg.marshal(batch)) == 0;
  }

  lemma SpoolMoveFields(cfg: Config, st: State, id: StreamID)
    requires id in st.accums
    ensures var r, b := SpoolMove(cfg, st, id), BuildBatch(st, id);
            && r.pending == st.pending && r.spool == SpoolAfter(cfg, st.spool, b)
            && r.meta == MetaAfter(st.meta, cfg.Fits(b), st.accums[id].cursors, |Lost(cfg, st.spool, b)|)
            && r.log.settled == st.log.settled && r.log.reordered == st.log.reordered
            && r.log.flushed == st.log.flushed + [Entry(Some(b), st.accums[id].cursors)]
            && r.log.evicted == st.log.evicted + Lost(cfg, st.spool, b)
            && r.log.unspooled == (st.log.unspooled || !cfg.Fits(b))
  {
  }

  lemma SpoolMoveExtends(cfg: Config, st: State, id: StreamID)
    requires cfg.Lossless() && |st.meta| == Len(st.spool) && id in st.accums && Whole(SpoolMove(cfg, st, id).log)
    ensures Extends(cfg, st, SpoolMove(cfg, st, id), Entry(Some(BuildBatch(st, id)), st.accums[id].cursors))
    ensures Whole(st.log)
  {
    SpoolMoveFields(cfg, st, id);
    AppendBacklog(cfg, st.spool, st.meta, BuildBatch(st, id), st.accums[id].cursors);
  }

  lemma SpoolMoveOrdered(cfg: Config, st: State, id: StreamID)
    requires cfg.Lossless() && Inv(cfg, st) && Ordered(cfg, st) && id in st.accums
    ensures Ordered(cfg, SpoolMove(cfg, st, id))
  {
    var r := SpoolMove(cfg, st, id);
    SpoolMoveInv(cfg, st, id);
    if Whole(r.log) {
      SpoolMoveExtends(cfg, st, id);
      ExtendsOrdered(cfg, st, r, Entry(Some(BuildBatch(st, id)), st.accums[id].cursors));
    }
  }

  lemma SendMoveFields(cfg: Config, st: State, id: StreamID)
    requires id in st.accums
    ensures var r, b := SendMove(st, id), BuildBatch(st, id);
            && r.pending == st.pending + [Outstanding(b, st.accums[id].cursors, false)]
            && r.spool == st.spool && r.meta == st.meta
            && r.log.settled == st.log.settled && r.log.reordered == st.log.reordered
            && r.log.flushed == st.log.flushed + [Entry(Some(b), st.accums[id].cursors)]
            && Whole(r.log) == Whole(st.log)
  {
  }

  lemma SendMoveExtends(cfg: Config, st: State, id: StreamID)
    requires |st.meta| == Len(st.spool) == 0 && AllFresh(st.pending) && id in st.accums
    ensures Extends(cfg, st, SendMove(st, id), Entry(Some(BuildBatch(st, id)), st.accums[id].cursors))
  {
    var o := Outstanding(BuildBatch(st, id), st.accums[id].cursors, false);
    SendMoveFields(cfg, st, id);
    FreshEntriesConcat(st.pending, [o]);
    FreshEntriesOne(o);
    assert Backlog(cfg, st.spool, st.meta) == [];
  }

  /** A fresh batch goes out only when nothing is spooled. */
  lemma SendMoveOrdered(cfg: Config, st: State, id: StreamID)
    requires Inv(cfg, st) && Ordered(cfg, st) && Can(cfg, st, SentFresh(id))
    ensures Ordered(cfg, SendMove(st, id))
  {
    SendMoveFields(cfg, st, id);
    SendMoveExtends(cfg, st, id);
    if Whole(st.log) {
      ExtendsOrdered(cfg, st, SendMove(st, id), Entry(Some(BuildBatch(st, id)), st.accums[id].cursors));
    }
  }

  lemma ReplayMoveFields(cfg: Config, st: State, b: Batch)
    ensures var r := ReplayMove(st, b);
            && r.pending == st.pending + [Outstanding(b, FrontMeta(st), true)] && r.spool == st.spool && r.meta == st.meta
            && r.log == st.log.(displaced := false)
  {
  }

  lemma ReplayMoveOrdered(cfg: Config, st: State, b: Batch)
    requires Ordered(cfg, st) && st.pending == []
    ensures Ordered(cfg, ReplayMove(st, b))
  {
    ReplayMoveFields(cfg, st, b);
    FreshEntriesOne(Outstanding(b, FrontMeta(st), true));
    assert [] + [Outstanding(b, FrontMeta(st), true)] == [Outstanding(b, FrontMeta(st), true)];
    KeepsOrdered(cfg, st, ReplayMove(st, b));
  }

  lemma ReleaseBacklog(cfg: Config, q: Spool, meta: seq<Cursors>)
    requires |meta| == Len(q) > 0
    ensures |PopMeta(meta)| == Len(Release(q)) == Len(q) - 1
    ensures Backlog(cfg, q, meta) == [Entry(cfg.unmarshal(q.Fifo()[0]), meta[0])] + Backlog(cfg, Release(q), PopMeta(meta))
  {
    ReleaseRefines(q);
  }

  lemma CorruptFields(cfg: Config, st: State)
    ensures var r := DropCorrupt(cfg, st);
            && r.pending == st.pending && r.spool == Release(st.spool) && r.meta == PopMeta(st.meta)
            && r.log.settled == st.log.settled + [Entry(None, FrontMeta(st))]
            && r.log.flushed == st.log.flushed && r.log.reordered == st.log.reordered && Whole(r.log) == Whole(st.log)
  {
  }

  lemma CorruptOrdered(cfg: Config, st: State)
    requires Ordered(cfg, st) && Can(cfg, st, Corrupt)
    ensures Ordered(cfg, DropCorrupt(cfg, st))
  {
    CorruptFields(cfg, st);
    ReleaseBacklog(cfg, st.spool, st.meta);
    KeepsOrdered(cfg, st, DropCorrupt(cfg, st));
  }

  lemma SettleFields(cfg: Config, st: State, accepted: bool)
    requires st.pending != []
    ensures var r, o := SettleMove(cfg, st, accepted), st.pending[0];
            && r.pending == st.pending[1..]
            && r.spool == (if o.fromSpool then Release(st.spool) else st.spool)
            && r.meta == (if o.fromSpool then PopMeta(st.meta) else st.meta)
            && r.log.settled == st.log.settled + [Entry(Some(o.batch), o.cursors)]
            && r.log.flushed == st.log.flushed && r.log.reordered == st.log.reordered && Whole(r.log) == Whole(st.log)
  {
    SettleMoveLog(cfg, st, accepted);
  }

  lemma SettleFreshOrdered(cfg: Config, st: State, accepted: bool)
    requires Ordered(cfg, st) && Window(st.pending, st.spool) && FreshWindow(st)
    ensures Ordered(cfg, SettleMove(cfg, st, accepted))
  {
    SettleFields(cfg, st, accepted);
    assert AllFresh(st.pending);
    KeepsOrdered(cfg, st, SettleMove(cfg, st, accepted));
  }

  lemma SettleReplayKeeps(cfg: Config, st: State, accepted: bool)
    requires |st.meta| == Len(st.spool) && |st.pending| == 1 && st.pending[0].fromSpool
    requires FrontReplay(cfg, st.spool, st.meta, st.pending[0])
    ensures Keeps(cfg, st, SettleMove(cfg, st, accepted))
  {
    SettleFields(cfg, st, accepted);
    ReleaseBacklog(cfg, st.spool, st.meta);
    FreshEntriesOne(st.pending[0]);
    assert st.pending == [st.pending[0]];
  }

  lemma SettleReplayOrdered(cfg: Config, st: State, accepted: bool)
    requires Ordered(cfg, st) && Inv(cfg, st) && Replaying(st) && Faithful(cfg, st, 0)
    ensures Ordered(cfg, SettleMove(cfg, st, accepted))
  {
    SettleFields(cfg, st, accepted);
    SettleMoveInv(cfg, st, accepted);
    if Whole(st.log) {
      SettleReplayKeeps(cfg, st, accepted);
      KeepsOrdered(cfg, st, SettleMove(cfg, st, accepted));
    }
  }

  /** From a to b nothing was settled and, evictions and drops apart, `es` joined the spool. */
  ghost predicate Grew(cfg: Config, a: State, b: State, es: seq<Entry>) {
    && |a.meta| == Len(a.spool) && |b.meta| == Len(b.spool)
    && (Whole(b.log) ==> Whole(a.log) && (Backlog(cfg, b.spool, b.meta) == Backlog(cfg, a.spool, a.meta) + es))
  }

  lemma AppendFields(cfg: Config, st: State, batch: Batch, cursors: Cursors)
    requires |st.meta| == Len(st.spool)
    ensures var r := AppendToSpool(cfg, st, batch, cursors);
            && |r.meta| == Len(r.spool) && r.spool == SpoolAfter(cfg, st.spool, batch)
            && r.meta == MetaAfter(st.meta, cfg.Fits(batch), cursors, |Lost(cfg, st.spool, batch)|)
            && (Whole(r.log) <==> Whole(st.log) && cfg.Fits(batch) && Lost(cfg, st.spool, batch) == [])
  {
    if cfg.Fits(batch) {
      AppendRefines(cfg.limits, st.spool, cfg.marshal(batch));
    }
  }

  lemma AppendGrew(cfg: Config, st: State, batch: Batch, cursors: Cursors)
    requires cfg.Lossless() && |st.meta| == Len(st.spool)
    ensures Grew(cfg, st, AppendToSpool(cfg, st, batch, cursors), [Entry(Some(batch), cursors)])
  {
    AppendFields(cfg, st, batch, cursors);
    if cfg.Fits(batch) && Lost(cfg, st.spool, batch) == [] {
      AppendBacklog(cfg, st.spool, st.meta, batch, cursors);
    }
  }

  lemma GrewTwice(cfg: Config, a: State, b: State, c: State, es: seq<Entry>, fs: seq<Entry>)
    requires Grew(cfg, a, b, es) && Grew(cfg, b, c, fs)
    ensures Grew(cfg, a, c, es + fs)
  {
    if Whole(c.log) {
      assert Backlog(cfg, a.spool, a.meta) + es + fs == Backlog(cfg, a.spool, a.meta) + (es + fs);
    }
  }

  lemma GrewNothing(cfg: Config, a: State)
    requires |a.meta| == Len(a.spool)
    ensures Grew(cfg, a, a, [])
  {
    assert Backlog(cfg, a.spool, a.meta) + [] == Backlog(cfg, a.spool, a.meta);
  }

  lemma {:induction false} DemoteGrew(cfg: Config, st: State, batches: seq<Outstanding>)
    requires cfg.Lossless() && |st.meta| == Len(st.spool)
    ensures Grew(cfg, st, Demote(cfg, st, batches), FreshEntries(batches))
    decreases |batches|
  {
    if batches == [] {
      GrewNothing(cfg, st);
    } else {
      var o, rest := batches[0], batches[1..];
      if o.fromSpool {
        DemoteGrew(cfg, st, rest);
        assert [] + FreshEntries(rest) == FreshEntries(rest);
      } else {
        var st1 := AppendToSpool(cfg, st, o.batch, o.cursors);
        AppendGrew(cfg, st, o.batch, o.cursors);
        DemoteGrew(cfg, st1, rest);
        GrewTwice(cfg, st, st1, Demote(cfg, st1, rest), [Entry(Some(o.batch), o.cursors)], FreshEntries(rest));
      }
    }
  }

  /** Demotion, when it evicts and drops nothing, turns "fresh, then spooled" into "spooled, then
      fresh". */
  lemma DemoteAllFields(cfg: Config, st: State)
    requires cfg.Lossless() && Inv(cfg, st)
    ensures var r := DemoteAll(cfg, st);
            && r.pending == [] && |r.meta| == Len(r.spool)
            && r.log.settled == st.log.settled && r.log.flushed == st.log.flushed
            && r.log.reordered == (st.log.reordered || (Len(st.spool) > 0 && FreshWindow(st)))
            && (Whole(r.log) ==> Whole(st.log))
            && (Whole(r.log) ==> Backlog(cfg, r.spool, r.meta) == Backlog(cfg, st.spool, st.meta) + FreshEntries(st.pending))
  {
    DemoteGrew(cfg, NoteReorder(st), st.pending);
    DemoteSame(cfg, NoteReorder(st), st.pending);
  }

  /** Fresh outstanding batches are older than everything spooled, and no id is in use twice. */
  ghost predicate Aged(cfg: Config, st: State) {
    FreshWindow(st) ==>
      && (forall j :: 0 <= j < |st.pending| ==> st.pending[j].batch.id <= st.batchSeq)
      && (forall i, j :: 0 <= i < Len(st.spool) && 0 <= j < |st.pending| ==>
            Younger(cfg, st.spool.Fifo()[i], st.pending[j].batch.id))
  }

  predicate Younger(cfg: Config, p: Payload, id: nat) {
    cfg.unmarshal(p).Some? && id < cfg.unmarshal(p).value.id
  }

  lemma SpoolMoveAged(cfg: Config, st: State, id: StreamID)
    requires cfg.Lossless() && Aged(cfg, st) && id in st.accums
    ensures Aged(cfg, SpoolMove(cfg, st, id))
  {
    var b := BuildBatch(st, id);
    SpoolMoveFields(cfg, st, id);
    SpoolMoveSeq(cfg, st, id);
    if cfg.Fits(b) {
      AppendRefines(cfg.limits, st.spool, cfg.marshal(b));
    }
  }

  lemma SpoolMoveSeq(cfg: Config, st: State, id: StreamID)
    requires id in st.accums
    ensures SpoolMove(cfg, st, id).batchSeq == st.batchSeq + 1
  {
  }

  lemma SendMoveAged(cfg: Config, st: State, id: StreamID)
    requires Inv(cfg, st) && Aged(cfg, st) && Can(cfg, st, SentFresh(id))
    ensures Aged(cfg, SendMove(st, id))
  {
    SendMoveFields(cfg, st, id);
    assert AllFresh(st.pending);
  }

  lemma SettleMoveAged(cfg: Config, st: State, accepted: bool)
    requires Window(st.pending, st.spool) && Aged(cfg, st) && st.pending != []
    ensures Aged(cfg, SettleMove(cfg, st, accepted))
  {
    SettleFields(cfg, st, accepted);
    SettleSeq(cfg, st, accepted);
    if !st.pending[0].fromSpool {
      assert AllFresh(st.pending);
    } else {
      assert st.pending[1..] == [];
    }
  }

  lemma SettleSeq(cfg: Config, st: State, accepted: bool)
    requires st.pending != []
    ensures SettleMove(cfg, st, accepted).batchSeq == st.batchSeq
  {
  }

  lemma AsideKeepsSeq(cfg: Config, st: State, m: Move)
    requires Aside(m)
    ensures Do(cfg, st, m).batchSeq == st.batchSeq
  {
  }

  lemma DoAged(cfg: Config, st: State, m: Move)
    requires cfg.Lossless() && Inv(cfg, st) && Aged(cfg, st)
    ensures Aged(cfg, Do(cfg, st, m))
  {
    if Aside(m) {
      AsideKeepsQueues(cfg, st, m);
      AsideKeepsSeq(cfg, st, m);
    } else if Can(cfg, st, m) {
      match m
      case Spooled(id) => SpoolMoveAged(cfg, st, id);
      case SentFresh(id) => SendMoveAged(cfg, st, id);
      case SentReplay => ReplayMoveFields(cfg, st, cfg.unmarshal(st.spool.Fifo()[0]).value);
      case Corrupt => CorruptFields(cfg, st);
      case Settled(accepted) => SettleMoveAged(cfg, st, accepted);
      case Demoted => DemoteAllFields(cfg, st);
    }
  }

  /** The demotion that puts the oldest fresh batch behind a younger spooled one. */
  lemma MixedMisplaces(cfg: Config, st: State)
    requires cfg.Lossless() && Inv(cfg, st) && Aged(cfg, st) && Ordered(cfg, st)
    requires FreshWindow(st) && Len(st.spool) > 0 && !st.log.reordered && Whole(DemoteAll(cfg, st).log)
    ensures |DemoteAll(cfg, st).meta| == Len(DemoteAll(cfg, st).spool)
    ensures Misplaced(cfg, DemoteAll(cfg, st), |st.log.settled|)
  {
    var r, i := DemoteAll(cfg, st), |st.log.settled|;
    DemoteAllFields(cfg, st);
    var f, s := FreshEntries(st.pending), Backlog(cfg, st.spool, st.meta);
    assert f[0] == Entry(Some(st.pending[0].batch), st.pending[0].cursors);
    assert Younger(cfg, st.spool.Fifo()[0], st.pending[0].batch.id);
    assert Standing(cfg, st)[i] == f[0];
    assert Standing(cfg, r) == st.log.settled + (s + f);
    assert Standing(cfg, r)[i] == s[0];
  }

  lemma StillMisplaced(cfg: Config, st: State, i: nat)
    requires cfg.Lossless() && Inv(cfg, st) && FreshWindow(st) && Misplaced(cfg, st, i)
    requires Whole(DemoteAll(cfg, st).log)
    ensures |DemoteAll(cfg, st).meta| == Len(DemoteAll(cfg, st).spool)
    ensures Misplaced(cfg, DemoteAll(cfg, st), i)
  {
    DemoteAllFields(cfg, st);
  }

  lemma UnmixedKeeps(cfg: Config, st: State)
    requires cfg.Lossless() && Inv(cfg, st) && Ordered(cfg, st)
    requires !FreshWindow(st) || Len(st.spool) == 0
    ensures Ordered(cfg, DemoteAll(cfg, st))
  {
    var r := DemoteAll(cfg, st);
    DemoteAllFields(cfg, st);
    if Whole(r.log) {
      var f, s := FreshEntries(st.pending), Backlog(cfg, st.spool, st.meta);
      if !FreshWindow(st) && st.pending != [] {
        FreshEntriesOne(st.pending[0]);
        assert st.pending == [st.pending[0]];
      }
      assert f == [] || s == [];
      assert f + s == s + f;
      assert [] + (s + f) == s + f;
      KeepsOrdered(cfg, st, r);
    }
  }

  lemma DemoteAllOrdered(cfg: Config, st: State)
    requires cfg.Lossless() && Inv(cfg, st) && Aged(cfg, st) && Ordered(cfg, st)
    ensures Ordered(cfg, DemoteAll(cfg, st))
  {
    DemoteAllFields(cfg, st);
    if !FreshWindow(st) || Len(st.spool) == 0 {
      UnmixedKeeps(cfg, st);
    } else if Whole(DemoteAll(cfg, st).log) {
      if st.log.reordered {
        var i :| Misplaced(cfg, st, i);
        StillMisplaced(cfg, st, i);
      } else {
        MixedMisplaces(cfg, st);
      }
    }
  }

  lemma DoOrdered(cfg: Config, st: State, m: Move)
    requires cfg.Ok() && cfg.Lossless() && Inv(cfg, st) && Aged(cfg, st) && Faithful(cfg, st, 0) && Ordered(cfg, st)
    ensures Ordered(cfg, Do(cfg, st, m))
  {
    if Aside(m) {
      AsideKeepsQueues(cfg, st, m);
      KeepsOrdered(cfg, st, Do(cfg, st, m));
    } else if Can(cfg, st, m) {
      match m
      case Spooled(id) => SpoolMoveOrdered(cfg, st, id);
      case SentFresh(id) => SendMoveOrdered(cfg, st, id);
      case SentReplay => ReplayMoveOrdered(cfg, st, cfg.unmarshal(st.spool.Fifo()[0]).value);
      case Corrupt => CorruptOrdered(cfg, st);
      case Settled(accepted) =>
        if st.pending[0].fromSpool {
          SettleReplayOrdered(cfg, st, accepted);
        } else {
          SettleFreshOrdered(cfg, st, accepted);
        }
      case Demoted => DemoteAllOrdered(cfg, st);
    }
  }

  lemma {:induction false} PlayOrdered(cfg: Config, spool: Spool, ck: Cursors, moves: seq<Move>)
    requires cfg.Ok() && cfg.Lossless()
    ensures Ordered(cfg, Play(cfg, Start(cfg, spool, ck), moves)) && Aged(cfg, Play(cfg, Start(cfg, spool, ck), moves))
    decreases |moves|
  {
    var st0 := Start(cfg, spool, ck);
    if moves == [] {
      assert Standing(cfg, st0) == st0.log.flushed;
    } else {
      var before, m := moves[..|moves| - 1], moves[|moves| - 1];
      PlayOrdered(cfg, spool, ck, before);
      PlayInv(cfg, spool, ck, before);
      PlayFaithful(cfg, spool, ck, before, 0);
      DoAged(cfg, Play(cfg, st0, before), m);
      DoOrdered(cfg, Play(cfg, st0, before), m);
    }
  }

  /** Fresh batches are demoted while younger ones wait in the spool. */
  predicate Mixes(st: State, m: Move) {
    m.Demoted? && FreshWindow(st) && Len(st.spool) > 0
  }

  predicate SomeMix(cfg: Config, st: State, moves: seq<Move>)
    decreases |moves|
  {
    moves != [] &&
    (var last := |moves| - 1;
     SomeMix(cfg, st, moves[..last]) || Mixes(Play(cfg, st, moves[..last]), moves[last]))
  }

  lemma ReorderedStep(cfg: Config, st: State, m: Move)
    requires cfg.Lossless() && Inv(cfg, st)
    ensures Do(cfg, st, m).log.reordered <==> st.log.reordered || Mixes(st, m)
  {
    if Aside(m) {
      AsideKeepsQueues(cfg, st, m);
    } else if Can(cfg, st, m) {
      match m
      case Spooled(id) => SpoolMoveFields(cfg, st, id);
      case SentFresh(id) => SendMoveFields(cfg, st, id);
      case SentReplay => ReplayMoveFields(cfg, st, cfg.unmarshal(st.spool.Fifo()[0]).value);
      case Corrupt => CorruptFields(cfg, st);
      case Settled(accepted) => SettleFields(cfg, st, accepted);
      case Demoted => DemoteAllFields(cfg, st);
    }
  }

  lemma {:induction false} ReorderedIff(cfg: Config, spool: Spool, ck: Cursors, moves: seq<Move>)
    requires cfg.Ok() && cfg.Lossless()
    ensures Play(cfg, Start(cfg, spool, ck), moves).log.reordered <==> SomeMix(cfg, Start(cfg, spool, ck), moves)
    decreases |moves|
  {
    if moves != [] {
      var before, m := moves[..|moves| - 1], moves[|moves| - 1];
      ReorderedIff(cfg, spool, ck, before);
      PlayInv(cfg, spool, ck, before);
      ReorderedStep(cfg, Play(cfg, Start(cfg, spool, ck), before), m);
    }
  }

  /** The exact condition. While nothing is evicted or dropped for its size, the batches settled so
      far followed by the unsettled ones, in the order in which the agent will get to them, are the
      batches in flush order if and only if no demotion ever found fresh batches in the window and
      others in the spool. */
  lemma FlushOrderIff(cfg: Config, spool: Spool, ck: Cursors, moves: seq<Move>)
    requires cfg.Ok() && cfg.Lossless()
    requires Whole(Play(cfg, Start(cfg, spool, ck), moves).log)
    ensures var st := Play(cfg, Start(cfg, spool, ck), moves);
            && |st.meta| == Len(st.spool)
            && (st.log.flushed == st.log.settled + Unsettled(cfg, st) <==> !SomeMix(cfg, Start(cfg, spool, ck), moves))
  {
    PlayOrdered(cfg, spool, ck, moves);
    ReorderedIff(cfg, spool, ck, moves);
  }

  /** The same of one moment: the ledger remembers a reordering. */
  lemma ReorderedIsOutOfOrder(cfg: Config, spool: Spool, ck: Cursors, st: State)
    requires cfg.Ok() && cfg.Lossless() && Reachable(cfg, spool, ck, st) && Whole(st.log)
    ensures |st.meta| == Len(st.spool)
    ensures st.log.flushed == st.log.settled + Unsettled(cfg, st) <==> !st.log.reordered
  {
    var moves :| st == Play(cfg, Start(cfg, spool, ck), moves);
    PlayOrdered(cfg, spool, ck, moves);
  }

  /** Something is outstanding only on an open stream that is not paused. As long as no batch met a
      full window, fresh batches are outstanding only while the spool is empty. */
  predicate Clear(st: State) {
    && (st.pending != [] ==> st.connected && !st.paused)
    && (!st.log.overflowed ==> !st.log.reordered && (FreshWindow(st) ==> Len(st.spool) == 0))
  }

  lemma SpoolMoveLink(cfg: Config, st: State, id: StreamID)
    requires id in st.accums
    ensures var r := SpoolMove(cfg, st, id);
            && r.connected == st.connected && r.paused == st.paused
            && r.log.overflowed == (st.log.overflowed || (st.connected && !st.paused && |st.pending| >= cfg.ackWindow))
  {
  }

  lemma SpoolMoveClear(cfg: Config, st: State, id: StreamID)
    requires Can(cfg, st, Spooled(id)) && Clear(st)
    ensures Clear(SpoolMove(cfg, st, id))
  {
    SpoolMoveFields(cfg, st, id);
    SpoolMoveLink(cfg, st, id);
  }

  lemma SendMoveClear(cfg: Config, st: State, id: StreamID)
    requires Can(cfg, st, SentFresh(id)) && Clear(st)
    ensures Clear(SendMove(st, id))
  {
  }

  lemma SettleMoveClear(cfg: Config, st: State, accepted: bool)
    requires Window(st.pending, st.spool) && st.pending != [] && Clear(st)
    ensures Clear(SettleMove(cfg, st, accepted))
  {
    SettleFields(cfg, st, accepted);
    SettleLink(cfg, st, accepted);
    if st.pending[0].fromSpool {
      assert st.pending[1..] == [];
    } else {
      assert AllFresh(st.pending);
    }
  }

  lemma SettleLink(cfg: Config, st: State, accepted: bool)
    requires st.pending != []
    ensures var r := SettleMove(cfg, st, accepted);
            r.connected == st.connected && r.paused == st.paused && r.log.overflowed == st.log.overflowed
  {
    SettleMoveLog(cfg, st, accepted);
  }

  lemma AsideClear(cfg: Config, st: State, m: Move)
    requires Aside(m) && Clear(st)
    ensures Clear(Do(cfg, st, m))
  {
    AsideKeepsQueues(cfg, st, m);
    if !m.Relinked? {
      AsideKeepsLink(cfg, st, m);
    }
  }

  lemma AsideKeepsLink(cfg: Config, st: State, m: Move)
    requires Aside(m) && !m.Relinked?
    ensures Do(cfg, st, m).connected == st.connected && Do(cfg, st, m).paused == st.paused
  {
  }

  lemma DemoteAllClear(cfg: Config, st: State)
    requires Clear(st)
    ensures Clear(DemoteAll(cfg, st))
  {
    DemoteSame(cfg, NoteReorder(st), st.pending);
  }

  lemma DoClear(cfg: Config, st: State, m: Move)
    requires Inv(cfg, st) && Clear(st)
    ensures Clear(Do(cfg, st, m))
  {
    if Aside(m) {
      AsideClear(cfg, st, m);
    } else if Can(cfg, st, m) {
      match m
      case Spooled(id) => SpoolMoveClear(cfg, st, id);
      case SentFresh(id) => SendMoveClear(cfg, st, id);
      case SentReplay => ReplayMoveFields(cfg, st, cfg.unmarshal(st.spool.Fifo()[0]).value);
      case Corrupt => CorruptFields(cfg, st);
      case Settled(accepted) => SettleMoveClear(cfg, st, accepted);
      case Demoted => DemoteAllClear(cfg, st);
    }
  }

  lemma {:induction false} PlayClear(cfg: Config, spool: Spool, ck: Cursors, moves: seq<Move>)
    requires cfg.Ok() && cfg.Lossless()
    ensures Clear(Play(cfg, Start(cfg, spool, ck), moves))
    decreases |moves|
  {
    if moves != [] {
      var before := moves[..|moves| - 1];
      PlayClear(cfg, spool, ck, before);
      PlayInv(cfg, spool, ck, before);
      DoClear(cfg, Play(cfg, Start(cfg, spool, ck), before), moves[|moves| - 1]);
    }
  }

  /** At every moment of every run in which the ack window never filled, nothing was evicted and every
      batch fits the spool, batches are settled in flush order, through any mix of overload, faults,
      disconnects and replay. */
  lemma SettledInFlushOrder(cfg: Config, spool: Spool, ck: Cursors, st: State)
    requires cfg.Ok() && cfg.Lossless() && Reachable(cfg, spool, ck, st)
    requires !st.log.overflowed && st.log.evicted == [] && AllFit(cfg, st.log.flushed)
    ensures |st.meta| == Len(st.spool) && st.log.flushed == st.log.settled + Unsettled(cfg, st)
  {
    var moves :| st == Play(cfg, Start(cfg, spool, ck), moves);
    PlaySized(cfg, spool, ck, moves);
    PlayClear(cfg, spool, ck, moves);
    PlayOrdered(cfg, spool, ck, moves);
  }
}
