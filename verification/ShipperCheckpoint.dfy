/** With settlement in flush order, an accepted batch never moves a checkpoint past an older
    unsettled one. */
module ShipperCheckpoint {
  import opened Prelude
  import opened SpoolQueue
  import opened ShipperModel
  import opened ShipperLive
  import opened ShipperMoves
  import opened ShipperStructure
  import opened ShipperLedger
  import opened ShipperOrder
  import opened ShipperGap

  ghost predicate Among(es: seq<Entry>, s: Source, c: Cursor) {
    exists i :: 0 <= i < |es| && Has(es[i].cursors, s, c)
  }

  /** The batch's lines arrived in this run, and c is before those of s. */
  ghost predicate BeforeBatch(lines: seq<Line>, e: Entry, s: Source, c: Cursor) {
    e.batch.Some? ==>
      forall k :: 0 <= k < |e.batch.value.records| ==>
        e.batch.value.records[k] < |lines| && BeforeLine(lines, e.batch.value.records[k], s, c)
  }

  /** Flush history: the cursors of a batch are before the lines of every later one. */
  ghost predicate Chained(flushed: seq<Entry>, lines: seq<Line>) {
    forall i, j, s, c :: 0 <= i < j < |flushed| && Has(flushed[i].cursors, s, c) ==> BeforeBatch(lines, flushed[j], s, c)
  }

  /** They are behind the accumulators too. */
  ghost predicate FlushedBehind(st: State) {
    forall s, c :: Among(st.log.flushed, s, c) ==> Behind(st, s, c)
  }

  /** Until lines are skipped, a checkpoint was inherited or comes from a settled batch. */
  ghost predicate FromSettled(st: State) {
    !st.log.skipped ==> forall s, c :: Has(st.ck, s, c) ==> c.line < 0 || Among(st.log.settled, s, c)
  }

  ghost predicate Traced(cfg: Config, st: State) {
    Ahead(cfg, st) && Chained(st.log.flushed, st.log.lines) && FlushedBehind(st) && FromSettled(st)
  }

  lemma AmongMore(es: seq<Entry>, e: Entry, s: Source, c: Cursor)
    ensures Among(es + [e], s, c) <==> Among(es, s, c) || Has(e.cursors, s, c)
  {
    if i :| 0 <= i < |es| && Has(es[i].cursors, s, c) {
      assert Has((es + [e])[i].cursors, s, c);
    }
    if Has(e.cursors, s, c) {
      assert Has((es + [e])[|es|].cursors, s, c);
    }
  }

  // Flushing a batch

  ghost predicate Took(st: State, r: State, id: StreamID)
    requires id in st.accums
  {
    && r.accums == st.accums - {id} && r.log.lines == st.log.lines
    && r.log.flushed == st.log.flushed + [Entry(Some(BuildBatch(st, id)), st.accums[id].cursors)]
  }

  lemma BatchIsLater(cfg: Config, st: State, id: StreamID, s: Source, c: Cursor)
    requires Ahead(cfg, st) && id in st.accums && Behind(st, s, c)
    ensures BeforeBatch(st.log.lines, Entry(Some(BuildBatch(st, id)), st.accums[id].cursors), s, c)
  {
    forall k | 0 <= k < |st.accums[id].records|
      ensures st.accums[id].records[k] < |st.log.lines| && BeforeLine(st.log.lines, st.accums[id].records[k], s, c)
    {
      assert OfStream(cfg, st.log.lines, st.accums[id].records[k], id);
    }
  }

  lemma TakenChained(cfg: Config, st: State, id: StreamID)
    requires Traced(cfg, st) && id in st.accums
    ensures Chained(st.log.flushed + [Entry(Some(BuildBatch(st, id)), st.accums[id].cursors)], st.log.lines)
  {
    var e := Entry(Some(BuildBatch(st, id)), st.accums[id].cursors);
    var more := st.log.flushed + [e];
    forall i, j, s, c | 0 <= i < j < |more| && Has(more[i].cursors, s, c)
      ensures BeforeBatch(st.log.lines, more[j], s, c)
    {
      if j == |st.log.flushed| {
        assert Has(st.log.flushed[i].cursors, s, c);
        assert Among(st.log.flushed, s, c);
        BatchIsLater(cfg, st, id, s, c);
      } else {
        assert Has(st.log.flushed[i].cursors, s, c);
        assert more[j] == st.log.flushed[j];
      }
    }
  }

  lemma TakenBehind(cfg: Config, st: State, id: StreamID)
    requires Traced(cfg, st) && id in st.accums
    ensures FlushedBehind(TakeBatch(st, id))
  {
    var r, e := TakeBatch(st, id), Entry(Some(BuildBatch(st, id)), st.accums[id].cursors);
    TakenCursors(cfg, st, id);
    forall s, c | Among(r.log.flushed, s, c)
      ensures Behind(r, s, c)
    {
      AmongMore(st.log.flushed, e, s, c);
      if Among(st.log.flushed, s, c) {
        BehindLess(st, id, s, c);
      }
    }
  }

  lemma FlushTraced(cfg: Config, st: State, r: State, id: StreamID)
    requires Traced(cfg, st) && id in st.accums && Took(st, r, id) && Ahead(cfg, r)
    requires r.ck == st.ck && r.log.settled == st.log.settled && r.log.skipped == st.log.skipped
    ensures Traced(cfg, r)
  {
    TakenChained(cfg, st, id);
    TakenBehind(cfg, st, id);
    forall s, c | Among(r.log.flushed, s, c)
      ensures Behind(r, s, c)
    {
      assert Behind(TakeBatch(st, id), s, c);
    }
  }

  lemma SpoolMoveTook(cfg: Config, st: State, id: StreamID)
    requires id in st.accums
    ensures var r := SpoolMove(cfg, st, id);
            Took(st, r, id) && r.ck == st.ck && r.log.settled == st.log.settled && r.log.skipped == st.log.skipped
  {
  }

  lemma SendMoveTook(st: State, id: StreamID)
    requires id in st.accums
    ensures var r := SendMove(st, id);
            Took(st, r, id) && r.ck == st.ck && r.log.settled == st.log.settled && r.log.skipped == st.log.skipped
  {
  }

  // Moves that flush nothing

  /** Checkpoints come from the old ones or from what was settled meanwhile. */
  ghost predicate Progress(a: State, b: State) {
    && b.accums == a.accums && b.log.lines == a.log.lines && b.log.flushed == a.log.flushed
    && b.log.skipped == a.log.skipped
    && (forall s, c :: Has(b.ck, s, c) ==> Has(a.ck, s, c) || Among(b.log.settled, s, c))
    && (forall s, c :: Among(a.log.settled, s, c) ==> Among(b.log.settled, s, c))
  }

  lemma ProgressTraced(cfg: Config, a: State, b: State)
    requires Traced(cfg, a) && Progress(a, b) && Ahead(cfg, b)
    ensures Traced(cfg, b)
  {
    forall s, c | Among(b.log.flushed, s, c)
      ensures Behind(b, s, c)
    {
      assert Behind(a, s, c);
    }
  }

  lemma SettleProgress(cfg: Config, st: State, accepted: bool)
    requires st.pending != []
    ensures Progress(st, SettleMove(cfg, st, accepted))
  {
    var r, o := SettleMove(cfg, st, accepted), st.pending[0];
    SettleCursors(cfg, st, accepted);
    SettleMoveLog(cfg, st, accepted);
    var e := Entry(Some(o.batch), o.cursors);
    forall s, c
      ensures Among(r.log.settled, s, c) <==> Among(st.log.settled, s, c) || Has(o.cursors, s, c)
    {
      AmongMore(st.log.settled, e, s, c);
    }
  }

  lemma CorruptProgress(cfg: Config, st: State)
    ensures Progress(st, DropCorrupt(cfg, st))
  {
    forall s, c
      ensures Among(st.log.settled, s, c) ==> Among(DropCorrupt(cfg, st).log.settled, s, c)
    {
      AmongMore(st.log.settled, Entry(None, FrontMeta(st)), s, c);
    }
  }

  lemma DemoteProgress(cfg: Config, st: State)
    ensures Progress(st, DemoteAll(cfg, st))
  {
    DemoteSame(cfg, NoteReorder(st), st.pending);
  }

  lemma QuietProgress(cfg: Config, st: State, m: Move)
    requires m.SentReplay? || m.Relinked? || m.Committed?
    ensures Progress(st, Do(cfg, st, m))
  {
  }

  // Lines

  lemma LongerChained(flushed: seq<Entry>, lines: seq<Line>, line: Line)
    requires Chained(flushed, lines)
    ensures Chained(flushed, lines + [line])
  {
    forall i, j, s, c | 0 <= i < j < |flushed| && Has(flushed[i].cursors, s, c)
      ensures BeforeBatch(lines + [line], flushed[j], s, c)
    {
      assert BeforeBatch(lines, flushed[j], s, c);
    }
  }

  lemma FoldTraced(cfg: Config, st: State, id: StreamID, line: Line, now: nat)
    requires Traced(cfg, st) && cfg.labels(line.source) == Some(id)
    ensures Traced(cfg, FoldMove(cfg, st, id, line, now))
  {
    var r := FoldMove(cfg, st, id, line, now);
    FoldAhead(cfg, st, id, line, now);
    LongerChained(st.log.flushed, st.log.lines, line);
    forall s, c | Among(r.log.flushed, s, c)
      ensures Behind(r, s, c)
    {
      FoldBehind(cfg, st, id, line, now, s, c);
    }
  }

  lemma RejectTraced(cfg: Config, st: State, line: Line)
    requires Traced(cfg, st) && cfg.labels(line.source).None?
    ensures Traced(cfg, TurnAway(st, line))
  {
    var r := TurnAway(st, line);
    RejectSafe(cfg, st, line);
    LongerChained(st.log.flushed, st.log.lines, line);
    forall s, c | Among(r.log.flushed, s, c)
      ensures Behind(r, s, c)
    {
      assert Behind(st, s, c);
      forall i, k | i in r.accums && 0 <= k < |r.accums[i].records|
        ensures BeforeLine(r.log.lines, r.accums[i].records[k], s, c)
      {
        assert BeforeLine(st.log.lines, st.accums[i].records[k], s, c);
        assert OfStream(cfg, st.log.lines, st.accums[i].records[k], i);
      }
    }
  }

  lemma SkipTraced(cfg: Config, st: State, id: StreamID)
    requires Traced(cfg, st) && id in st.accums
    ensures Traced(cfg, FlushEmpty(st, id))
  {
    var r := FlushEmpty(st, id);
    SkipAhead(cfg, st, id);
    forall s, c | Among(r.log.flushed, s, c)
      ensures Behind(r, s, c)
    {
      BehindLess(st, id, s, c);
    }
  }

  lemma DoTraced(cfg: Config, st: State, m: Move)
    requires Traced(cfg, st)
    ensures Traced(cfg, Do(cfg, st, m))
  {
    if Can(cfg, st, m) {
      match m
      case Rejected(line) => RejectTraced(cfg, st, line);
      case Folded(id, line, now) => FoldTraced(cfg, st, id, line, now);
      case Skipped(id) => SkipTraced(cfg, st, id);
      case Spooled(id) =>
        SpoolMoveAhead(cfg, st, id);
        SpoolMoveTook(cfg, st, id);
        FlushTraced(cfg, st, SpoolMove(cfg, st, id), id);
      case SentFresh(id) =>
        SendMoveAhead(cfg, st, id);
        SendMoveTook(st, id);
        FlushTraced(cfg, st, SendMove(st, id), id);
      case _ => RestTraced(cfg, st, m);
    }
  }

  lemma RestTraced(cfg: Config, st: State, m: Move)
    requires Traced(cfg, st) && Can(cfg, st, m)
    requires m.Settled? || m.Corrupt? || m.Demoted? || m.SentReplay? || m.Relinked? || m.Committed?
    ensures Traced(cfg, Do(cfg, st, m))
  {
    match m {
      case Settled(accepted) => SettleProgress(cfg, st, accepted);
      case Corrupt => CorruptProgress(cfg, st);
      case Demoted => DemoteProgress(cfg, st);
      case _ => QuietProgress(cfg, st, m);
    }
    DoAhead(cfg, st, m);
    ProgressTraced(cfg, st, Do(cfg, st, m));
  }

  lemma {:induction false} PlayTraced(cfg: Config, spool: Spool, ck: Cursors, moves: seq<Move>)
    requires Inherited(ck)
    ensures Traced(cfg, Play(cfg, Start(cfg, spool, ck), moves))
    decreases |moves|
  {
    if moves == [] {
      PlayAhead(cfg, spool, ck, []);
    } else {
      PlayTraced(cfg, spool, ck, moves[..|moves| - 1]);
      DoTraced(cfg, Play(cfg, Start(cfg, spool, ck), moves[..|moves| - 1]), moves[|moves| - 1]);
    }
  }

  lemma PastSettled(st: State, rest: seq<Entry>, j: nat, k: nat)
    requires Chained(st.log.flushed, st.log.lines) && FromSettled(st) && !st.log.skipped
    requires st.log.flushed == st.log.settled + rest
    requires j < |rest| && rest[j].batch.Some? && k < |rest[j].batch.value.records|
    requires rest[j].batch.value.records[k] < |st.log.lines|
    ensures var n := rest[j].batch.value.records[k];
            var s := st.log.lines[n].source;
            s in st.ck ==> st.ck[s].line < n
  {
    var n := rest[j].batch.value.records[k];
    var s := st.log.lines[n].source;
    if s in st.ck && st.ck[s].line >= 0 {
      var c := st.ck[s];
      assert Has(st.ck, s, c);
      var i :| 0 <= i < |st.log.settled| && Has(st.log.settled[i].cursors, s, c);
      assert Has(st.log.flushed[i].cursors, s, c);
      var m := |st.log.settled| + j;
      assert st.log.flushed[m] == rest[j];
      assert BeforeBatch(st.log.lines, st.log.flushed[m], s, c);
    }
  }

  /** Between any two steps of a run in which the ack window never fills, nothing is evicted, every
      batch fits the spool and every line with labels is shippable, no source's checkpoint is at or
      past a line of an unsettled batch. */
  lemma CheckpointNeverPassesUnsettled(cfg: Config, spool: Spool, ck: Cursors, inputs: seq<Input>, j: nat, k: nat)
    requires cfg.Ok() && cfg.Lossless() && Inherited(ck) && AllShippable(cfg, Arrivals(inputs))
    requires var log := Run(cfg, Start(cfg, spool, ck), inputs).log;
             !log.overflowed && log.evicted == [] && AllFit(cfg, log.flushed)
    requires var st := Run(cfg, Start(cfg, spool, ck), inputs);
             && |st.meta| == Len(st.spool)
             && j < |Unsettled(cfg, st)| && Unsettled(cfg, st)[j].batch.Some?
             && k < |Unsettled(cfg, st)[j].batch.value.records|
             && Unsettled(cfg, st)[j].batch.value.records[k] < |st.log.lines|
    ensures var st := Run(cfg, Start(cfg, spool, ck), inputs);
            var n := Unsettled(cfg, st)[j].batch.value.records[k];
            var s := st.log.lines[n].source;
            s in st.ck ==> st.ck[s].line < n
  {
    var st := Run(cfg, Start(cfg, spool, ck), inputs);
    EveryRunIsReachable(cfg, spool, ck, inputs);
    var moves :| st == Play(cfg, Start(cfg, spool, ck), moves);
    PlayTraced(cfg, spool, ck, moves);
    PlayFilled(cfg, spool, ck, moves);
    SettledInFlushOrder(cfg, spool, ck, st);
    PastSettled(st, Unsettled(cfg, st), j, k);
  }
}
