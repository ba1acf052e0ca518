/** What Release takes off the spool is what the collector answered for, unless an eviction took the
    replayed batch first; and what goes wrong exactly when it did. */
module ShipperReplay {
  import opened Prelude
  import opened Frames
  import opened SpoolQueue
  import opened ShipperModel
  import opened ShipperLive
  import opened ShipperMoves
  import opened ShipperStructure
  import opened ShipperLedger

  /** The replayed batch, with its cursors, is the spool's front. */
  ghost predicate FrontReplay(cfg: Config, q: Spool, meta: seq<Cursors>, o: Outstanding) {
    Len(q) > 0 && |meta| > 0 && cfg.unmarshal(q.Fifo()[0]) == Some(o.batch) && meta[0] == o.cursors
  }

  predicate Replays(pending: seq<Outstanding>) {
    pending != [] && pending[0].fromSpool
  }

  ghost predicate FrontOk(cfg: Config, q: Spool, meta: seq<Cursors>, pending: seq<Outstanding>, displaced: bool) {
    Replays(pending) && !displaced ==> FrontReplay(cfg, q, meta, pending[0])
  }

  /** How often a replay of line n was answered for. */
  function Answered(log: Ledger, n: nat): nat {
    Count(log.acceptedReplay, n) + Count(log.droppedReplay, n)
  }

  /** Everything released was answered for. */
  ghost predicate Honest(cfg: Config, log: Ledger, n: nat) {
    && (log.evicted == [] ==> !log.displaced && !log.misreleased)
    && (!log.misreleased ==> Count(SpoolRecords(cfg, log.released), n) == Answered(log, n))
  }

  /** Unless an eviction displaced a replay, it is the spool's front and its release is honest. */
  ghost predicate Faithful(cfg: Config, st: State, n: nat) {
    && Honest(cfg, st.log, n)
    && FrontOk(cfg, st.spool, st.meta, st.pending, st.log.displaced)
  }

  lemma AppendFrontOk(
    cfg: Config, q: Spool, meta: seq<Cursors>, pending: seq<Outstanding>, displaced: bool, batch: Batch, cursors: Cursors)
    requires |meta| == Len(q) && FrontOk(cfg, q, meta, pending, displaced)
    ensures FrontOk(cfg, SpoolAfter(cfg, q, batch), MetaAfter(meta, cfg.Fits(batch), cursors, |Lost(cfg, q, batch)|), pending,
                    displaced || (Lost(cfg, q, batch) != [] && Replays(pending)))
  {
    if cfg.Fits(batch) && Lost(cfg, q, batch) == [] {
      AppendRefines(cfg.limits, q, cfg.marshal(batch));
      assert AppendEvicts(cfg.limits, q, cfg.marshal(batch)) == 0;
    }
  }

  lemma AppendHonest(cfg: Config, st: State, batch: Batch, n: nat)
    requires Honest(cfg, st.log, n)
    ensures Honest(cfg, AppendLog(cfg, st, batch), n)
  {
  }

  lemma AppendFaithful(cfg: Config, st: State, batch: Batch, cursors: Cursors, n: nat)
    requires Aligned(cfg, st.spool, st.meta, st.log.flushed) && Faithful(cfg, st, n)
    ensures Faithful(cfg, AppendToSpool(cfg, st, batch, cursors), n)
  {
    AppendHonest(cfg, st, batch, n);
    AppendFrontOk(cfg, st.spool, st.meta, st.pending, st.log.displaced, batch, cursors);
  }

  /** Demoting changes no ledger entry of replays, and leaves nothing outstanding. */
  lemma DemoteAllFaithful(cfg: Config, st: State, n: nat)
    requires Window(st.pending, st.spool) && Faithful(cfg, st, n)
    ensures Faithful(cfg, DemoteAll(cfg, st), n)
  {
    DemoteSame(cfg, NoteReorder(st), st.pending);
    DemoteEvicts(cfg, NoteReorder(st), st.pending);
  }

  lemma {:induction false} DemoteEvicts(cfg: Config, st: State, batches: seq<Outstanding>)
    requires Replaying(st) ==> AllReplays(batches)
    ensures st.log.evicted <= Demote(cfg, st, batches).log.evicted
    ensures Demote(cfg, st, batches).log.displaced == st.log.displaced
    decreases |batches|
  {
    if batches != [] {
      var o := batches[0];
      if o.fromSpool {
        DemoteEvicts(cfg, st, batches[1..]);
      } else {
        AppendEvictsMore(cfg, st, o.batch, o.cursors);
        DemoteEvicts(cfg, AppendToSpool(cfg, st, o.batch, o.cursors), batches[1..]);
      }
    }
  }

  lemma AppendEvictsMore(cfg: Config, st: State, batch: Batch, cursors: Cursors)
    requires !Replaying(st)
    ensures var r := AppendToSpool(cfg, st, batch, cursors);
            st.log.evicted <= r.log.evicted && r.log.displaced == st.log.displaced && r.pending == st.pending
  {
  }

  predicate AllReplays(batches: seq<Outstanding>) {
    forall i :: 0 <= i < |batches| ==> batches[i].fromSpool
  }

  lemma SpoolMoveFaithful(cfg: Config, st: State, id: StreamID, n: nat)
    requires Inv(cfg, st) && Faithful(cfg, st, n) && id in st.accums
    ensures Faithful(cfg, SpoolMove(cfg, st, id), n)
  {
    TakeBatchKnown(cfg, st, id);
    AppendFaithful(cfg, NoteOverflow(cfg, TakeBatch(st, id)), BuildBatch(st, id), st.accums[id].cursors, n);
  }

  lemma SendMoveFaithful(cfg: Config, st: State, id: StreamID, n: nat)
    requires Inv(cfg, st) && Faithful(cfg, st, n) && Can(cfg, st, SentFresh(id))
    ensures Faithful(cfg, SendMove(st, id), n)
  {
    assert AllFresh(st.pending);
  }

  lemma ReplayMoveFaithful(cfg: Config, st: State, b: Batch, n: nat)
    requires Inv(cfg, st) && Faithful(cfg, st, n) && Can(cfg, st, SentReplay)
    requires cfg.unmarshal(st.spool.Fifo()[0]) == Some(b)
    ensures Faithful(cfg, ReplayMove(st, b), n)
  {
  }

  lemma CorruptFaithful(cfg: Config, st: State, n: nat)
    requires Faithful(cfg, st, n) && Can(cfg, st, Corrupt)
    ensures Faithful(cfg, DropCorrupt(cfg, st), n)
  {
    CorruptHonest(cfg, st.log, st.spool, n);
  }

  lemma CorruptHonest(cfg: Config, log: Ledger, q: Spool, n: nat)
    requires Honest(cfg, log, n) && Len(q) > 0 && cfg.unmarshal(q.Fifo()[0]).None?
    ensures forall settled :: Honest(cfg, log.(released := log.released + Front(q), settled := settled), n)
  {
    SpoolCount(cfg, log.released, Front(q), n);
    OneRecord(cfg, q.Fifo()[0]);
  }

  lemma SettleFreshFaithful(cfg: Config, st: State, accepted: bool, n: nat)
    requires Window(st.pending, st.spool) && Faithful(cfg, st, n) && st.pending != [] && !st.pending[0].fromSpool
    ensures Faithful(cfg, Settle(cfg, st, accepted), n)
  {
    assert AllFresh(st.pending);
    assert AllFresh(st.pending[1..]);
  }

  lemma SettleReplayFaithful(cfg: Config, st: State, accepted: bool, n: nat)
    requires Window(st.pending, st.spool) && Faithful(cfg, st, n) && st.pending != [] && st.pending[0].fromSpool
    ensures Faithful(cfg, Settle(cfg, st, accepted), n)
  {
    assert st.pending[1..] == [];
    SettleHonest(cfg, st, accepted, n);
  }

  lemma SettleHonest(cfg: Config, st: State, accepted: bool, n: nat)
    requires Faithful(cfg, st, n) && st.pending != [] && st.pending[0].fromSpool
    ensures Honest(cfg, SettleLog(st, st.pending[0], accepted), n)
  {
    var rs := st.pending[0].batch.records;
    CountConcat(st.log.acceptedReplay, rs, n);
    CountConcat(st.log.droppedReplay, rs, n);
    SpoolCount(cfg, st.log.released, Front(st.spool), n);
    if !st.log.displaced {
      OneRecord(cfg, st.spool.Fifo()[0]);
    }
  }

  lemma SettleMoveFaithful(cfg: Config, st: State, accepted: bool, n: nat)
    requires Window(st.pending, st.spool) && Faithful(cfg, st, n) && st.pending != []
    ensures Faithful(cfg, SettleMove(cfg, st, accepted), n)
  {
    if st.pending[0].fromSpool {
      SettleReplayFaithful(cfg, st, accepted, n);
    } else {
      SettleFreshFaithful(cfg, st, accepted, n);
    }
    SettleKeeps(cfg, st, accepted);
  }

  lemma AsideFaithful(cfg: Config, st: State, m: Move, n: nat)
    requires Aside(m) && Faithful(cfg, st, n)
    ensures Faithful(cfg, Do(cfg, st, m), n)
  {
    AsideKeepsQueues(cfg, st, m);
  }

  lemma DoFaithful(cfg: Config, st: State, m: Move, n: nat)
    requires Inv(cfg, st) && Faithful(cfg, st, n)
    ensures Faithful(cfg, Do(cfg, st, m), n)
  {
    if Aside(m) {
      AsideFaithful(cfg, st, m, n);
    } else if Can(cfg, st, m) {
      match m
      case Spooled(id) => SpoolMoveFaithful(cfg, st, id, n);
      case SentFresh(id) => SendMoveFaithful(cfg, st, id, n);
      case SentReplay => ReplayMoveFaithful(cfg, st, cfg.unmarshal(st.spool.Fifo()[0]).value, n);
      case Corrupt => CorruptFaithful(cfg, st, n);
      case Settled(accepted) => SettleMoveFaithful(cfg, st, accepted, n);
      case Demoted => DemoteAllFaithful(cfg, st, n);
    }
  }

  lemma {:induction false} PlayFaithful(cfg: Config, spool: Spool, ck: Cursors, moves: seq<Move>, n: nat)
    requires cfg.Ok() && cfg.Lossless()
    ensures Faithful(cfg, Play(cfg, Start(cfg, spool, ck), moves), n)
    decreases |moves|
  {
    if moves != [] {
      var before := moves[..|moves| - 1];
      PlayFaithful(cfg, spool, ck, before, n);
      PlayInv(cfg, spool, ck, before);
      DoFaithful(cfg, Play(cfg, Start(cfg, spool, ck), before), moves[|moves| - 1], n);
    }
  }

  /** Lines accepted by the collector, and lines counted as dropped. */
  function Accepted(st: State, n: nat): nat { Count(st.log.acceptedFresh, n) + Count(st.log.acceptedReplay, n) }
  function Dropped(st: State, n: nat): nat { Count(st.log.droppedFresh, n) + Count(st.log.droppedReplay, n) }

  /** Line n is in exactly one of: an accumulator, a fresh outstanding batch, the spool, accepted,
      dropped and counted, evicted and counted. */
  predicate InOnePlace(cfg: Config, st: State, found: seq<nat>, n: nat) {
    InAccum(cfg, st, n) + Count(FreshRecords(st.pending), n) + Count(SpoolRecords(cfg, st.spool.Fifo()), n)
      + Accepted(st, n) + Dropped(st, n) + Count(SpoolRecords(cfg, st.log.evicted), n)
    == Count(found, n) + if n < |st.log.lines| then 1 else 0
  }

  lemma OnePlaceByAnswers(cfg: Config, st: State, found: seq<nat>, n: nat)
    requires Accounted(cfg, st, found, n)
    ensures InOnePlace(cfg, st, found, n) <==> Count(SpoolRecords(cfg, st.log.released), n) == Answered(st.log, n)
  {
  }

  /** At every moment of every run in which no ack answered for a batch that was evicted while it was
      being replayed, every line that arrived is in exactly one place. */
  lemma EachLineInOnePlace(cfg: Config, spool: Spool, ck: Cursors, st: State, n: nat)
    requires cfg.Ok() && cfg.Lossless() && Reachable(cfg, spool, ck, st) && !st.log.misreleased
    ensures InOnePlace(cfg, st, SpoolRecords(cfg, spool.Fifo()), n)
  {
    var moves :| st == Play(cfg, Start(cfg, spool, ck), moves);
    PlayConserves(cfg, spool, ck, moves, n);
    PlayFaithful(cfg, spool, ck, moves, n);
    OnePlaceByAnswers(cfg, st, SpoolRecords(cfg, spool.Fifo()), n);
  }

  /** Every payload that decodes is a batch with records. */
  predicate Solid(cfg: Config, ps: seq<Payload>) {
    forall i :: 0 <= i < |ps| && cfg.unmarshal(ps[i]).Some? ==> PayloadRecords(cfg, ps[i]) != []
  }

  predicate SolidBatches(batches: seq<Outstanding>) {
    forall i :: 0 <= i < |batches| ==> batches[i].batch.records != []
  }

  predicate Within(a: seq<nat>, b: seq<nat>) {
    forall n :: n in a ==> n in b
  }

  /** A batch evicted while it is being replayed is among the evicted ones; so is a line that was
      answered for in a batch's name after its eviction. */
  ghost predicate Shadowed(cfg: Config, st: State) {
    && Solid(cfg, st.spool.Fifo()) && SolidBatches(st.pending)
    && (Replaying(st) && st.log.displaced ==> Within(st.pending[0].batch.records, SpoolRecords(cfg, st.log.evicted)))
    && (st.log.misreleased ==> exists n :: CountedTwice(cfg, st.log, n))
  }

  ghost predicate CountedTwice(cfg: Config, log: Ledger, n: nat) {
    n in SpoolRecords(cfg, log.evicted) && (n in log.acceptedReplay || n in log.droppedReplay)
  }

  lemma EvictedGrow(cfg: Config, a: seq<Payload>, b: seq<Payload>)
    requires a <= b
    ensures Within(SpoolRecords(cfg, a), SpoolRecords(cfg, b))
  {
    assert b == a + b[|a|..];
    SpoolRecordsConcat(cfg, a, b[|a|..]);
  }

  lemma FrontEvicted(cfg: Config, q: Spool, batch: Batch)
    requires Lost(cfg, q, batch) != []
    ensures Len(q) > 0 && Within(PayloadRecords(cfg, q.Fifo()[0]), SpoolRecords(cfg, Lost(cfg, q, batch)))
  {
    AppendRefines(cfg.limits, q, cfg.marshal(batch));
    assert Lost(cfg, q, batch)[0] == q.Fifo()[0];
  }

  lemma AppendSolid(cfg: Config, q: Spool, batch: Batch)
    requires cfg.Lossless() && Solid(cfg, q.Fifo()) && batch.records != []
    ensures Solid(cfg, SpoolAfter(cfg, q, batch).Fifo())
  {
    if cfg.Fits(batch) {
      AppendRefines(cfg.limits, q, cfg.marshal(batch));
    }
  }

  /** An eviction that displaces the replay takes its records. */
  lemma AppendShadows(cfg: Config, st: State, batch: Batch)
    requires Replaying(st)
    requires !st.log.displaced ==> FrontReplay(cfg, st.spool, st.meta, st.pending[0])
    requires st.log.displaced ==> Within(st.pending[0].batch.records, SpoolRecords(cfg, st.log.evicted))
    requires st.log.displaced || Lost(cfg, st.spool, batch) != []
    ensures Within(st.pending[0].batch.records, SpoolRecords(cfg, st.log.evicted + Lost(cfg, st.spool, batch)))
  {
    SpoolRecordsConcat(cfg, st.log.evicted, Lost(cfg, st.spool, batch));
    if !st.log.displaced {
      FrontEvicted(cfg, st.spool, batch);
    }
  }

  lemma AppendShadowed(cfg: Config, st: State, batch: Batch, cursors: Cursors)
    requires cfg.Lossless() && Shadowed(cfg, st) && batch.records != []
    requires Replaying(st) && !st.log.displaced ==> FrontReplay(cfg, st.spool, st.meta, st.pending[0])
    ensures Shadowed(cfg, AppendToSpool(cfg, st, batch, cursors))
  {
    AppendSolid(cfg, st.spool, batch);
    AppendStillTwice(cfg, st, batch);
    if Replaying(st) && (st.log.displaced || Lost(cfg, st.spool, batch) != []) {
      AppendShadows(cfg, st, batch);
    }
  }

  lemma AppendStillTwice(cfg: Config, st: State, batch: Batch)
    ensures (exists n :: CountedTwice(cfg, st.log, n)) ==> exists n :: CountedTwice(cfg, AppendLog(cfg, st, batch), n)
    ensures AppendLog(cfg, st, batch).misreleased == st.log.misreleased
  {
    EvictedGrow(cfg, st.log.evicted, st.log.evicted + Lost(cfg, st.spool, batch));
    StillTwice(cfg, st.log, AppendLog(cfg, st, batch));
  }

  lemma StillTwice(cfg: Config, a: Ledger, b: Ledger)
    requires Within(SpoolRecords(cfg, a.evicted), SpoolRecords(cfg, b.evicted))
    requires Within(a.acceptedReplay, b.acceptedReplay) && Within(a.droppedReplay, b.droppedReplay)
    ensures (exists n :: CountedTwice(cfg, a, n)) ==> exists n :: CountedTwice(cfg, b, n)
  {
    if n :| CountedTwice(cfg, a, n) {
      assert CountedTwice(cfg, b, n);
    }
  }

  lemma SpoolMoveShadowed(cfg: Config, st: State, id: StreamID)
    requires cfg.Lossless() && Faithful(cfg, st, 0) && Shadowed(cfg, st) && Can(cfg, st, Spooled(id))
    ensures Shadowed(cfg, SpoolMove(cfg, st, id))
  {
    var st1 := NoteOverflow(cfg, TakeBatch(st, id));
    StillTwice(cfg, st.log, st1.log);
    AppendShadowed(cfg, st1, BuildBatch(st, id), st.accums[id].cursors);
  }

  lemma {:induction false} DemoteSolid(cfg: Config, st: State, batches: seq<Outstanding>)
    requires cfg.Lossless() && Solid(cfg, st.spool.Fifo()) && SolidBatches(batches)
    ensures Solid(cfg, Demote(cfg, st, batches).spool.Fifo())
    decreases |batches|
  {
    if batches != [] {
      var o := batches[0];
      AppendSolid(cfg, st.spool, o.batch);
      DemoteSolid(cfg, if o.fromSpool then st else AppendToSpool(cfg, st, o.batch, o.cursors), batches[1..]);
    }
  }

  lemma DemoteAllShadowed(cfg: Config, st: State)
    requires cfg.Lossless() && Window(st.pending, st.spool) && Shadowed(cfg, st)
    ensures Shadowed(cfg, DemoteAll(cfg, st))
  {
    var r := Demote(cfg, NoteReorder(st), st.pending);
    DemoteSolid(cfg, NoteReorder(st), st.pending);
    DemoteSame(cfg, NoteReorder(st), st.pending);
    DemoteEvicts(cfg, NoteReorder(st), st.pending);
    EvictedGrow(cfg, st.log.evicted, r.log.evicted);
    StillTwice(cfg, st.log, r.log);
  }

  lemma SettleShadowed(cfg: Config, st: State, accepted: bool)
    requires Window(st.pending, st.spool) && Shadowed(cfg, st) && st.pending != []
    ensures Shadowed(cfg, Settle(cfg, st, accepted))
  {
    var o, r := st.pending[0], Settle(cfg, st, accepted);
    ReleaseRefines(st.spool);
    StillTwice(cfg, st.log, r.log);
    if o.fromSpool {
      assert st.pending[1..] == [];
      if st.log.displaced {
        assert CountedTwice(cfg, r.log, o.batch.records[0]);
      }
    } else {
      assert AllFresh(st.pending) && AllFresh(st.pending[1..]);
    }
  }

  lemma SettleMoveShadowed(cfg: Config, st: State, accepted: bool)
    requires Window(st.pending, st.spool) && Shadowed(cfg, st) && st.pending != []
    ensures Shadowed(cfg, SettleMove(cfg, st, accepted))
  {
    SettleShadowed(cfg, st, accepted);
    SettleKeeps(cfg, st, accepted);
  }

  lemma SendMoveShadowed(cfg: Config, st: State, id: StreamID)
    requires Inv(cfg, st) && Shadowed(cfg, st) && Can(cfg, st, SentFresh(id))
    ensures Shadowed(cfg, SendMove(st, id))
  {
    assert AllFresh(st.pending);
    StillTwice(cfg, st.log, SendMove(st, id).log);
  }

  lemma ReplayMoveShadowed(cfg: Config, st: State, b: Batch)
    requires Shadowed(cfg, st) && Can(cfg, st, SentReplay) && cfg.unmarshal(st.spool.Fifo()[0]) == Some(b)
    ensures Shadowed(cfg, ReplayMove(st, b))
  {
    assert PayloadRecords(cfg, st.spool.Fifo()[0]) == b.records;
    StillTwice(cfg, st.log, ReplayMove(st, b).log);
  }

  lemma CorruptShadowed(cfg: Config, st: State)
    requires Shadowed(cfg, st) && st.pending == []
    ensures Shadowed(cfg, DropCorrupt(cfg, st))
  {
    ReleaseRefines(st.spool);
    StillTwice(cfg, st.log, DropCorrupt(cfg, st).log);
  }

  lemma AsideShadowed(cfg: Config, st: State, m: Move)
    requires Aside(m) && Shadowed(cfg, st)
    ensures Shadowed(cfg, Do(cfg, st, m))
  {
    AsideKeepsQueues(cfg, st, m);
    StillTwice(cfg, st.log, Do(cfg, st, m).log);
  }

  lemma DoShadowed(cfg: Config, st: State, m: Move)
    requires cfg.Lossless() && Inv(cfg, st) && Faithful(cfg, st, 0) && Shadowed(cfg, st)
    ensures Shadowed(cfg, Do(cfg, st, m))
  {
    if Aside(m) {
      AsideShadowed(cfg, st, m);
    } else if Can(cfg, st, m) {
      match m
      case Spooled(id) => SpoolMoveShadowed(cfg, st, id);
      case SentFresh(id) => SendMoveShadowed(cfg, st, id);
      case SentReplay => ReplayMoveShadowed(cfg, st, cfg.unmarshal(st.spool.Fifo()[0]).value);
      case Corrupt => CorruptShadowed(cfg, st);
      case Settled(accepted) => SettleMoveShadowed(cfg, st, accepted);
      case Demoted => DemoteAllShadowed(cfg, st);
    }
  }

  lemma {:induction false} PlayShadowed(cfg: Config, spool: Spool, ck: Cursors, moves: seq<Move>)
    requires cfg.Ok() && cfg.Lossless() && Solid(cfg, spool.Fifo())
    ensures Shadowed(cfg, Play(cfg, Start(cfg, spool, ck), moves))
    decreases |moves|
  {
    if moves != [] {
      var before := moves[..|moves| - 1];
      PlayShadowed(cfg, spool, ck, before);
      PlayInv(cfg, spool, ck, before);
      PlayFaithful(cfg, spool, ck, before, 0);
      DoShadowed(cfg, Play(cfg, Start(cfg, spool, ck), before), moves[|moves| - 1]);
    }
  }

  /** An ack is taken for a replayed batch that is no longer the spool's front, so that Release drops
      another. */
  predicate DropsAnother(cfg: Config, st: State, m: Move) {
    && m.Settled? && Replaying(st)
    && (Len(st.spool) == 0 || cfg.unmarshal(st.spool.Fifo()[0]) != Some(st.pending[0].batch))
  }

  /** A spool that an earlier run left behind: entries that do not decode, and batches with records, each
      line once, none of them one of this run. */
  ghost predicate Inheritable(cfg: Config, spool: Spool, lines: nat) {
    && Solid(cfg, spool.Fifo())
    && (forall n: nat :: Count(SpoolRecords(cfg, spool.Fifo()), n) <= if n < lines then 0 else 1)
  }

  /** A displaced batch is not in the spool any more. */
  lemma DisplacedIsGone(cfg: Config, st: State, found: seq<nat>)
    requires Shadowed(cfg, st) && Replaying(st) && st.log.displaced
    requires forall n: nat :: Accounted(cfg, st, found, n) && Count(found, n) <= if n < |st.log.lines| then 0 else 1
    ensures Len(st.spool) > 0 ==> cfg.unmarshal(st.spool.Fifo()[0]) != Some(st.pending[0].batch)
  {
    var n := st.pending[0].batch.records[0];
    assert n in SpoolRecords(cfg, st.log.evicted);
    CountMember(SpoolRecords(cfg, st.log.evicted), n);
    assert Accounted(cfg, st, found, n);
    CountMember(SpoolRecords(cfg, st.spool.Fifo()), n);
    if Len(st.spool) > 0 {
      assert SpoolRecords(cfg, st.spool.Fifo())
          == PayloadRecords(cfg, st.spool.Fifo()[0]) + SpoolRecords(cfg, st.spool.Fifo()[1..]);
    }
  }

  lemma MisreleasedStep(cfg: Config, st: State, m: Move, found: seq<nat>)
    requires cfg.Lossless() && Inv(cfg, st) && Faithful(cfg, st, 0) && Shadowed(cfg, st)
    requires forall n: nat :: Accounted(cfg, st, found, n) && Count(found, n) <= if n < |st.log.lines| then 0 else 1
    ensures Do(cfg, st, m).log.misreleased <==> st.log.misreleased || DropsAnother(cfg, st, m)
  {
    if m.Settled? && Replaying(st) {
      SettleKeeps(cfg, st, m.accepted);
      if st.log.displaced {
        DisplacedIsGone(cfg, st, found);
      }
    } else {
      OthersRelease(cfg, st, m);
    }
  }

  lemma OthersRelease(cfg: Config, st: State, m: Move)
    requires !(m.Settled? && Replaying(st))
    ensures Do(cfg, st, m).log.misreleased == st.log.misreleased
  {
    if Aside(m) {
      AsideKeepsQueues(cfg, st, m);
    } else if Can(cfg, st, m) {
      match m
      case Spooled(id) => SpoolMoveReleases(cfg, st, id);
      case SentFresh(id) => SendMoveReleases(st, id);
      case SentReplay => ReplayMoveReleases(st, cfg.unmarshal(st.spool.Fifo()[0]).value);
      case Corrupt => CorruptReleases(cfg, st);
      case Settled(accepted) => SettleMoveLog(cfg, st, accepted);
      case Demoted => DemoteSame(cfg, NoteReorder(st), st.pending);
    }
  }

  lemma SpoolMoveReleases(cfg: Config, st: State, id: StreamID)
    requires id in st.accums
    ensures SpoolMove(cfg, st, id).log.misreleased == st.log.misreleased
  {
  }

  lemma SendMoveReleases(st: State, id: StreamID)
    requires id in st.accums
    ensures SendMove(st, id).log.misreleased == st.log.misreleased
  {
  }

  lemma ReplayMoveReleases(st: State, b: Batch)
    ensures ReplayMove(st, b).log.misreleased == st.log.misreleased
  {
  }

  lemma CorruptReleases(cfg: Config, st: State)
    ensures DropCorrupt(cfg, st).log.misreleased == st.log.misreleased
  {
  }

  /** Somewhere among the moves such an ack is taken. */
  predicate SomeDrops(cfg: Config, st: State, moves: seq<Move>)
    decreases |moves|
  {
    moves != [] &&
    (var last := |moves| - 1;
     SomeDrops(cfg, st, moves[..last]) || DropsAnother(cfg, Play(cfg, st, moves[..last]), moves[last]))
  }

  lemma {:induction false} MisreleasedIff(cfg: Config, spool: Spool, ck: Cursors, moves: seq<Move>)
    requires cfg.Ok() && cfg.Lossless()
    requires Inheritable(cfg, spool, |Play(cfg, Start(cfg, spool, ck), moves).log.lines|)
    ensures Play(cfg, Start(cfg, spool, ck), moves).log.misreleased <==> SomeDrops(cfg, Start(cfg, spool, ck), moves)
    decreases |moves|
  {
    if moves != [] {
      var before, m := moves[..|moves| - 1], moves[|moves| - 1];
      DoKeepsLines(cfg, Play(cfg, Start(cfg, spool, ck), before), m);
      MisreleasedIff(cfg, spool, ck, before);
      MisreleasedAt(cfg, spool, ck, before, m);
    }
  }

  lemma MisreleasedAt(cfg: Config, spool: Spool, ck: Cursors, moves: seq<Move>, m: Move)
    requires cfg.Ok() && cfg.Lossless()
    requires Inheritable(cfg, spool, |Play(cfg, Start(cfg, spool, ck), moves).log.lines|)
    ensures var st := Play(cfg, Start(cfg, spool, ck), moves);
            Do(cfg, st, m).log.misreleased <==> st.log.misreleased || DropsAnother(cfg, st, m)
  {
    var st, found := Play(cfg, Start(cfg, spool, ck), moves), SpoolRecords(cfg, spool.Fifo());
    PlayInv(cfg, spool, ck, moves);
    PlayFaithful(cfg, spool, ck, moves, 0);
    PlayShadowed(cfg, spool, ck, moves);
    forall n: nat
      ensures Accounted(cfg, st, found, n) && Count(found, n) <= if n < |st.log.lines| then 0 else 1
    {
      PlayConserves(cfg, spool, ck, moves, n);
    }
    MisreleasedStep(cfg, st, m, found);
  }

  lemma DoKeepsLines(cfg: Config, st: State, m: Move)
    ensures |st.log.lines| <= |Do(cfg, st, m).log.lines|
  {
    if m.Settled? && st.pending != [] {
      SettleKeeps(cfg, st, m.accepted);
    } else if m.Demoted? {
      DemoteSame(cfg, NoteReorder(st), st.pending);
    }
  }

  /** The exact condition. Whatever spool was inherited, every line is in exactly one
      place if and only if no ack was taken for a replayed batch while another entry, or none, was at
      the front of the spool. */
  lemma OnePlaceIff(cfg: Config, spool: Spool, ck: Cursors, moves: seq<Move>)
    requires cfg.Ok() && cfg.Lossless()
    requires Inheritable(cfg, spool, |Play(cfg, Start(cfg, spool, ck), moves).log.lines|)
    ensures var st0, found := Start(cfg, spool, ck), SpoolRecords(cfg, spool.Fifo());
            (forall n: nat :: InOnePlace(cfg, Play(cfg, st0, moves), found, n)) <==> !SomeDrops(cfg, st0, moves)
  {
    var st, found := Play(cfg, Start(cfg, spool, ck), moves), SpoolRecords(cfg, spool.Fifo());
    MisreleasedIff(cfg, spool, ck, moves);
    if st.log.misreleased {
      MisreleasedLoses(cfg, spool, ck, moves);
    } else {
      assert Reachable(cfg, spool, ck, st);
      forall n: nat
        ensures InOnePlace(cfg, st, found, n)
      {
        EachLineInOnePlace(cfg, spool, ck, st, n);
      }
    }
  }

  lemma MisreleasedLoses(cfg: Config, spool: Spool, ck: Cursors, moves: seq<Move>)
    requires cfg.Ok() && cfg.Lossless()
    requires Inheritable(cfg, spool, |Play(cfg, Start(cfg, spool, ck), moves).log.lines|)
    requires Play(cfg, Start(cfg, spool, ck), moves).log.misreleased
    ensures exists n: nat :: !InOnePlace(cfg, Play(cfg, Start(cfg, spool, ck), moves), SpoolRecords(cfg, spool.Fifo()), n)
  {
    var st := Play(cfg, Start(cfg, spool, ck), moves);
    PlayShadowed(cfg, spool, ck, moves);
    var n :| CountedTwice(cfg, st.log, n);
    PlayConserves(cfg, spool, ck, moves, n);
    TwiceIsNotOnce(cfg, st, SpoolRecords(cfg, spool.Fifo()), n);
  }

  lemma TwiceIsNotOnce(cfg: Config, st: State, found: seq<nat>, n: nat)
    requires Accounted(cfg, st, found, n) && Count(found, n) <= if n < |st.log.lines| then 0 else 1
    requires CountedTwice(cfg, st.log, n)
    ensures !InOnePlace(cfg, st, found, n)
  {
    CountMember(SpoolRecords(cfg, st.log.evicted), n);
    CountMember(st.log.acceptedReplay, n);
    CountMember(st.log.droppedReplay, n);
  }

  /** What such an ack does. A batch is spooled while the front entry is being replayed, and its
      append evicts k entries. The ack then takes entry k off the spool, whatever was replayed: with
      k = 0 the acknowledged entry, with k > 0 one that nobody answered for. */
  lemma AckReleasesEntryK(cfg: Config, st: State, batch: Batch, cursors: Cursors)
    requires cfg.Fits(batch) && Replaying(st) && FrontReplay(cfg, st.spool, st.meta, st.pending[0])
    ensures var data := cfg.marshal(batch);
            var k := AppendEvicts(cfg.limits, st.spool, data);
            var all := st.spool.Fifo() + [data];
            var after := Settle(cfg, AppendToSpool(cfg, st, batch, cursors), true);
            && k < |all|
            && after.spool.Fifo() == all[k + 1..]
            && after.log.released == st.log.released + [all[k]]
            && after.log.acceptedReplay == st.log.acceptedReplay + PayloadRecords(cfg, all[0])
  {
    var data := cfg.marshal(batch);
    AppendRefines(cfg.limits, st.spool, data);
    ReleaseRefines(SpoolAfter(cfg, st.spool, batch));
  }
}
