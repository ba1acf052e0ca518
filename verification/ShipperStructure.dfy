/** What every reachable shipper state keeps, eviction included: spoolMeta stays aligned with
    the spool, and the window is all fresh batches or exactly one replayed one. */
module ShipperStructure {
  import opened Prelude
  import opened SpoolQueue
  import opened ShipperModel
  import opened ShipperLive
  import opened ShipperMoves

  /** The cursors recorded for a payload or batch are unknown, or those it was built with. */
  predicate Known(flushed: seq<Entry>, batch: Option<Batch>, cursors: Cursors) {
    cursors == map[] || Entry(batch, cursors) in flushed
  }

  /** spoolMeta has one entry per spooled batch, and entry i belongs to batch i. */
  ghost predicate Aligned(cfg: Config, q: Spool, meta: seq<Cursors>, flushed: seq<Entry>) {
    && |meta| == Len(q)
    && (forall i :: 0 <= i < |meta| ==> Known(flushed, cfg.unmarshal(q.Fifo()[i]), meta[i]))
  }

  /** A batch in the window has its own cursors; a fresh one was flushed in this run. */
  predicate OwnCursors(flushed: seq<Entry>, batches: seq<Outstanding>) {
    forall i :: 0 <= i < |batches| ==>
      if batches[i].fromSpool then Known(flushed, Some(batches[i].batch), batches[i].cursors)
      else Entry(Some(batches[i].batch), batches[i].cursors) in flushed
  }

  predicate AllFresh(batches: seq<Outstanding>) {
    forall i :: 0 <= i < |batches| ==> !batches[i].fromSpool
  }

  /** The window: all fresh, or one replayed batch whose entry keeps the spool non-empty. */
  predicate Window(pending: seq<Outstanding>, q: Spool) {
    || AllFresh(pending)
    || (|pending| == 1 && Len(q) > 0)
  }

  ghost predicate Inv(cfg: Config, st: State) {
    && Aligned(cfg, st.spool, st.meta, st.log.flushed)
    && Window(st.pending, st.spool)
    && |st.pending| <= cfg.ackWindow
    && OwnCursors(st.log.flushed, st.pending)
  }

  lemma KnownLater(flushed: seq<Entry>, e: Entry, batch: Option<Batch>, cursors: Cursors)
    requires Known(flushed, batch, cursors)
    ensures Known(flushed + [e], batch, cursors)
  {
  }

  lemma AlignedLater(cfg: Config, q: Spool, meta: seq<Cursors>, flushed: seq<Entry>, e: Entry)
    requires Aligned(cfg, q, meta, flushed)
    ensures Aligned(cfg, q, meta, flushed + [e])
  {
    forall i | 0 <= i < |meta|
      ensures Known(flushed + [e], cfg.unmarshal(q.Fifo()[i]), meta[i])
    {
      KnownLater(flushed, e, cfg.unmarshal(q.Fifo()[i]), meta[i]);
    }
  }

  /** A batch joins the spool, or is too big and changes nothing. */
  lemma AppendAligned(cfg: Config, q: Spool, meta: seq<Cursors>, flushed: seq<Entry>, batch: Batch, cursors: Cursors)
    requires cfg.Lossless() && Aligned(cfg, q, meta, flushed) && Known(flushed, Some(batch), cursors)
    ensures Aligned(cfg, SpoolAfter(cfg, q, batch), MetaAfter(meta, cfg.Fits(batch), cursors, |Lost(cfg, q, batch)|), flushed)
    ensures Len(q) > 0 ==> Len(SpoolAfter(cfg, q, batch)) > 0
  {
    if cfg.Fits(batch) {
      AppendRefines(cfg.limits, q, cfg.marshal(batch));
    }
  }

  lemma {:induction false} DemoteAligned(cfg: Config, st: State, batches: seq<Outstanding>)
    requires cfg.Lossless() && Aligned(cfg, st.spool, st.meta, st.log.flushed)
    requires OwnCursors(st.log.flushed, batches)
    ensures Aligned(cfg, Demote(cfg, st, batches).spool, Demote(cfg, st, batches).meta, st.log.flushed)
    decreases |batches|
  {
    if batches != [] {
      var o := batches[0];
      if o.fromSpool {
        DemoteAligned(cfg, st, batches[1..]);
      } else {
        AppendAligned(cfg, st.spool, st.meta, st.log.flushed, o.batch, o.cursors);
        DemoteAligned(cfg, AppendToSpool(cfg, st, o.batch, o.cursors), batches[1..]);
      }
    }
  }

  lemma DemoteAllInv(cfg: Config, st: State)
    requires cfg.Lossless() && Inv(cfg, st)
    ensures Inv(cfg, DemoteAll(cfg, st))
  {
    DemoteAligned(cfg, NoteReorder(st), st.pending);
    DemoteSame(cfg, NoteReorder(st), st.pending);
  }

  lemma TakeBatchKnown(cfg: Config, st: State, id: StreamID)
    requires Inv(cfg, st) && id in st.accums
    ensures Inv(cfg, TakeBatch(st, id))
    ensures Entry(Some(BuildBatch(st, id)), st.accums[id].cursors) in TakeBatch(st, id).log.flushed
  {
    var e := Entry(Some(BuildBatch(st, id)), st.accums[id].cursors);
    AlignedLater(cfg, st.spool, st.meta, st.log.flushed, e);
    assert e in st.log.flushed + [e];
  }

  lemma SpoolMoveInv(cfg: Config, st: State, id: StreamID)
    requires cfg.Lossless() && Inv(cfg, st) && id in st.accums
    ensures Inv(cfg, SpoolMove(cfg, st, id))
  {
    TakeBatchKnown(cfg, st, id);
    AppendAligned(cfg, st.spool, st.meta, TakeBatch(st, id).log.flushed, BuildBatch(st, id), st.accums[id].cursors);
  }

  lemma SendMoveInv(cfg: Config, st: State, id: StreamID)
    requires Inv(cfg, st) && Can(cfg, st, SentFresh(id))
    ensures Inv(cfg, SendMove(st, id))
  {
    TakeBatchKnown(cfg, st, id);
  }

  lemma ReplayMoveInv(cfg: Config, st: State, b: Batch)
    requires cfg.Ok() && Inv(cfg, st) && st.pending == [] && Len(st.spool) > 0
    requires cfg.unmarshal(st.spool.Fifo()[0]) == Some(b)
    ensures Inv(cfg, ReplayMove(st, b))
  {
  }

  lemma ReleaseAligned(cfg: Config, q: Spool, meta: seq<Cursors>, flushed: seq<Entry>)
    requires Aligned(cfg, q, meta, flushed)
    ensures Aligned(cfg, Release(q), PopMeta(meta), flushed)
  {
    ReleaseRefines(q);
  }

  lemma CorruptInv(cfg: Config, st: State)
    requires Inv(cfg, st) && st.pending == []
    ensures Inv(cfg, DropCorrupt(cfg, st))
  {
    ReleaseAligned(cfg, st.spool, st.meta, st.log.flushed);
  }

  lemma SettleInv(cfg: Config, st: State, accepted: bool)
    requires Inv(cfg, st) && st.pending != []
    ensures Inv(cfg, Settle(cfg, st, accepted))
  {
    if st.pending[0].fromSpool {
      ReleaseAligned(cfg, st.spool, st.meta, st.log.flushed);
      assert st.pending[1..] == [];
    } else {
      WindowPops(st.log.flushed, st.pending, st.spool);
    }
  }

  lemma WindowPops(flushed: seq<Entry>, pending: seq<Outstanding>, q: Spool)
    requires pending != [] && !pending[0].fromSpool && Window(pending, q) && OwnCursors(flushed, pending)
    ensures Window(pending[1..], q) && OwnCursors(flushed, pending[1..])
  {
  }

  lemma SettleMoveInv(cfg: Config, st: State, accepted: bool)
    requires Inv(cfg, st) && st.pending != []
    ensures Inv(cfg, SettleMove(cfg, st, accepted))
  {
    SettleInv(cfg, st, accepted);
  }

  lemma AsideInv(cfg: Config, st: State, m: Move)
    requires Inv(cfg, st) && Aside(m)
    ensures Inv(cfg, Do(cfg, st, m))
  {
    AsideKeepsQueues(cfg, st, m);
  }

  /** Every move keeps the invariant. */
  lemma DoInv(cfg: Config, st: State, m: Move)
    requires cfg.Ok() && cfg.Lossless() && Inv(cfg, st)
    ensures Inv(cfg, Do(cfg, st, m))
  {
    if Aside(m) {
      AsideInv(cfg, st, m);
    } else if Can(cfg, st, m) {
      match m
      case Spooled(id) => SpoolMoveInv(cfg, st, id);
      case SentFresh(id) => SendMoveInv(cfg, st, id);
      case SentReplay => ReplayMoveInv(cfg, st, cfg.unmarshal(st.spool.Fifo()[0]).value);
      case Corrupt => CorruptInv(cfg, st);
      case Settled(accepted) => SettleMoveInv(cfg, st, accepted);
      case Demoted => DemoteAllInv(cfg, st);
      case _ =>
    }
  }

  lemma {:induction false} PlayInv(cfg: Config, spool: Spool, ck: Cursors, moves: seq<Move>)
    requires cfg.Ok() && cfg.Lossless()
    ensures Inv(cfg, Play(cfg, Start(cfg, spool, ck), moves))
    decreases |moves|
  {
    if moves != [] {
      PlayInv(cfg, spool, ck, moves[..|moves| - 1]);
      DoInv(cfg, Play(cfg, Start(cfg, spool, ck), moves[..|moves| - 1]), moves[|moves| - 1]);
    }
  }

  /** At every moment of every run, from any spool a previous run left behind, evictions included:
      spoolMeta has one entry per spooled batch and entry i is unknown or the cursors that batch i
      was built with; the window is all fresh or exactly one replayed batch, and within the ack
      window. */
  lemma EveryMomentIsAligned(cfg: Config, spool: Spool, ck: Cursors, st: State)
    requires cfg.Ok() && cfg.Lossless() && Reachable(cfg, spool, ck, st)
    ensures Inv(cfg, st)
  {
    var moves :| st == Play(cfg, Start(cfg, spool, ck), moves);
    PlayInv(cfg, spool, ck, moves);
  }

  /** A batch was dropped for its size only if one too big for the spool was built. */
  ghost predicate Sized(cfg: Config, log: Ledger) {
    log.unspooled ==> !AllFit(cfg, log.flushed)
  }

  ghost predicate AllFit(cfg: Config, es: seq<Entry>) {
    forall i :: 0 <= i < |es| && es[i].batch.Some? ==> cfg.Fits(es[i].batch.value)
  }

  lemma NotAllFit(cfg: Config, es: seq<Entry>, batch: Batch, cursors: Cursors)
    requires Entry(Some(batch), cursors) in es && !cfg.Fits(batch)
    ensures !AllFit(cfg, es)
  {
  }

  lemma AppendSized(cfg: Config, st: State, batch: Batch, cursors: Cursors)
    requires Sized(cfg, st.log) && Entry(Some(batch), cursors) in st.log.flushed
    ensures Sized(cfg, AppendToSpool(cfg, st, batch, cursors).log)
    ensures AppendToSpool(cfg, st, batch, cursors).log.flushed == st.log.flushed
  {
    if !cfg.Fits(batch) {
      NotAllFit(cfg, st.log.flushed, batch, cursors);
    }
  }

  lemma {:induction false} DemoteSized(cfg: Config, st: State, batches: seq<Outstanding>)
    requires Sized(cfg, st.log) && OwnCursors(st.log.flushed, batches)
    ensures Sized(cfg, Demote(cfg, st, batches).log)
    decreases |batches|
  {
    if batches != [] {
      var o := batches[0];
      if o.fromSpool {
        DemoteSized(cfg, st, batches[1..]);
      } else {
        AppendSized(cfg, st, o.batch, o.cursors);
        DemoteSized(cfg, AppendToSpool(cfg, st, o.batch, o.cursors), batches[1..]);
      }
    }
  }

  lemma SpoolMoveSized(cfg: Config, st: State, id: StreamID)
    requires Sized(cfg, st.log) && id in st.accums
    ensures Sized(cfg, SpoolMove(cfg, st, id).log)
  {
    var e := Entry(Some(BuildBatch(st, id)), st.accums[id].cursors);
    assert e in st.log.flushed + [e];
    GrownFits(cfg, st.log.flushed, e);
  }

  lemma GrownFits(cfg: Config, es: seq<Entry>, e: Entry)
    ensures AllFit(cfg, es + [e]) ==> AllFit(cfg, es)
  {
    if AllFit(cfg, es + [e]) {
      forall i | 0 <= i < |es| && es[i].batch.Some?
        ensures cfg.Fits(es[i].batch.value)
      {
        assert (es + [e])[i] == es[i];
      }
    }
  }

  lemma ReplayMoveSized(cfg: Config, st: State, b: Batch)
    requires Sized(cfg, st.log)
    ensures Sized(cfg, ReplayMove(st, b).log)
  {
  }

  lemma CorruptSized(cfg: Config, st: State)
    requires Sized(cfg, st.log)
    ensures Sized(cfg, DropCorrupt(cfg, st).log)
  {
  }

  lemma SettleSized(cfg: Config, st: State, accepted: bool)
    requires Sized(cfg, st.log) && st.pending != []
    ensures Sized(cfg, SettleMove(cfg, st, accepted).log)
  {
    SettleMoveLog(cfg, st, accepted);
  }

  lemma DoSized(cfg: Config, st: State, m: Move)
    requires Inv(cfg, st) && Sized(cfg, st.log)
    ensures Sized(cfg, Do(cfg, st, m).log)
  {
    if Aside(m) {
      AsideKeepsQueues(cfg, st, m);
    } else if Can(cfg, st, m) {
      match m
      case Spooled(id) => SpoolMoveSized(cfg, st, id);
      case SentFresh(id) => GrownFits(cfg, st.log.flushed, Entry(Some(BuildBatch(st, id)), st.accums[id].cursors));
      case Demoted => DemoteSized(cfg, NoteReorder(st), st.pending);
      case SentReplay => ReplayMoveSized(cfg, st, cfg.unmarshal(st.spool.Fifo()[0]).value);
      case Corrupt => CorruptSized(cfg, st);
      case Settled(accepted) => SettleSized(cfg, st, accepted);
    }
  }

  lemma {:induction false} PlaySized(cfg: Config, spool: Spool, ck: Cursors, moves: seq<Move>)
    requires cfg.Ok() && cfg.Lossless()
    ensures Sized(cfg, Play(cfg, Start(cfg, spool, ck), moves).log)
    decreases |moves|
  {
    if moves != [] {
      PlaySized(cfg, spool, ck, moves[..|moves| - 1]);
      PlayInv(cfg, spool, ck, moves[..|moves| - 1]);
      DoSized(cfg, Play(cfg, Start(cfg, spool, ck), moves[..|moves| - 1]), moves[|moves| - 1]);
    }
  }
}
