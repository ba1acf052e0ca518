/** A process crash leaves no gap: no checkpoint, in memory or committed, is at or past a line that
    is held only in memory, unless lines that are not shippable were skipped past an unanswered
    batch. */
module ShipperGap {
  import opened Prelude
  import opened SpoolQueue
  import opened ShipperModel
  import opened ShipperLive
  import opened ShipperMoves
  import opened ShipperLedger

  predicate Has(m: Cursors, s: Source, c: Cursor) {
    s in m && m[s] == c
  }

  /** c is, or may become, the checkpoint of s: it was flushed before now. */
  ghost predicate InPlay(st: State, s: Source, c: Cursor) {
    || Has(st.ck, s, c)
    || Has(st.committed, s, c)
    || (exists i :: 0 <= i < |st.pending| && Has(st.pending[i].cursors, s, c))
    || (exists i :: 0 <= i < |st.meta| && Has(st.meta[i], s, c))
  }

  /** Lines of s still in an accumulator come after c. */
  ghost predicate BeforeAccums(accums: map<StreamID, Accum>, lines: seq<Line>, s: Source, c: Cursor) {
    forall id, k :: id in accums && 0 <= k < |accums[id].records| ==> BeforeLine(lines, accums[id].records[k], s, c)
  }

  predicate BeforeLine(lines: seq<Line>, n: nat, s: Source, c: Cursor) {
    n < |lines| && lines[n].source == s ==> c.line < n
  }

  /** The cursors of an accumulator are of its own sources and of lines that arrived. */
  ghost predicate OwnSources(cfg: Config, accums: map<StreamID, Accum>, lines: seq<Line>) {
    forall id, s :: id in accums && s in accums[id].cursors ==> Sourced(cfg, lines, id, s, accums[id].cursors[s])
  }

  predicate Sourced(cfg: Config, lines: seq<Line>, id: StreamID, s: Source, c: Cursor) {
    cfg.labels(s) == Some(id) && c.line < |lines|
  }

  /** A cursor in play is of a line that arrived, and behind the accumulators. */
  ghost predicate Behind(st: State, s: Source, c: Cursor) {
    c.line < |st.log.lines| && BeforeAccums(st.accums, st.log.lines, s, c)
  }

  ghost predicate Ahead(cfg: Config, st: State) {
    && OwnLines(cfg, st.accums, st.log.lines)
    && OwnSources(cfg, st.accums, st.log.lines)
    && (forall s, c :: InPlay(st, s, c) ==> Behind(st, s, c))
  }

  /** Line n, of a fresh outstanding batch at position j, is after both checkpoints, after the cursors
      of the batches sent before it, and before the cursors of every accumulator. */
  ghost predicate Protected(st: State, j: nat, n: nat)
    requires j <= |st.pending|
  {
    n < |st.log.lines| &&
    var s := st.log.lines[n].source;
    && (s in st.ck ==> st.ck[s].line < n)
    && (s in st.committed ==> st.committed[s].line < n)
    && (forall i :: 0 <= i < j && s in st.pending[i].cursors ==> st.pending[i].cursors[s].line < n)
    && (forall id :: id in st.accums && s in st.accums[id].cursors ==> n < st.accums[id].cursors[s].line)
  }

  /** Every line of a fresh outstanding batch is protected. */
  ghost predicate FreshAhead(st: State) {
    forall j, k :: 0 <= j < |st.pending| && !st.pending[j].fromSpool && 0 <= k < |st.pending[j].batch.records| ==>
      Protected(st, j, st.pending[j].batch.records[k])
  }

  /** b has the lines and accumulators of a, and no cursor in play but those of a and `extra`. */
  ghost predicate Narrows(a: State, b: State, extra: Cursors) {
    && b.accums == a.accums && b.log.lines == a.log.lines
    && (forall s, c :: InPlay(b, s, c) ==> InPlay(a, s, c) || Has(extra, s, c))
  }

  lemma AheadNarrows(cfg: Config, a: State, b: State)
    requires Ahead(cfg, a) && Narrows(a, b, map[])
    ensures Ahead(cfg, b)
  {
    forall s, c | InPlay(b, s, c)
      ensures Behind(b, s, c)
    {
      assert InPlay(a, s, c) && Behind(a, s, c);
    }
  }

  lemma AheadExtra(cfg: Config, a: State, b: State, extra: Cursors)
    requires Ahead(cfg, a) && Narrows(a, b, extra)
    requires forall s, c :: Has(extra, s, c) ==> Behind(a, s, c)
    ensures Ahead(cfg, b)
  {
    forall s, c | InPlay(b, s, c)
      ensures Behind(b, s, c)
    {
      assert Behind(a, s, c);
    }
  }

  /** The fields that InPlay reads. */
  lemma SameInPlay(a: State, b: State)
    requires b.ck == a.ck && b.committed == a.committed && b.pending == a.pending && b.meta == a.meta
    ensures forall s, c :: InPlay(b, s, c) <==> InPlay(a, s, c)
  {
  }

  lemma SameFresh(a: State, b: State)
    requires b.pending == a.pending && b.accums == a.accums && b.log.lines == a.log.lines
    requires b.ck == a.ck && b.committed == a.committed
    ensures FreshAhead(b) <==> FreshAhead(a)
  {
    forall j, n | 0 <= j <= |a.pending|
      ensures Protected(a, j, n) <==> Protected(b, j, n)
    {
    }
  }

  // Demotion

  lemma MetaNarrows(a: State, b: State, fits: bool, cursors: Cursors, k: nat)
    requires b.meta == MetaAfter(a.meta, fits, cursors, k)
    requires b.accums == a.accums && b.log.lines == a.log.lines
    requires b.ck == a.ck && b.committed == a.committed && b.pending == a.pending
    ensures Narrows(a, b, cursors)
  {
    forall s, c | InPlay(b, s, c)
      ensures InPlay(a, s, c) || Has(cursors, s, c)
    {
      if i :| 0 <= i < |b.meta| && Has(b.meta[i], s, c) {
        assert b.meta[i] in a.meta || b.meta[i] == cursors;
      }
    }
  }

  lemma {:induction false} DemoteNarrows(cfg: Config, st: State, batches: seq<Outstanding>)
    requires forall i :: 0 <= i < |batches| ==> batches[i] in st.pending
    ensures Narrows(st, Demote(cfg, st, batches), map[])
    decreases |batches|
  {
    if batches != [] {
      var o := batches[0];
      assert o in st.pending;
      if o.fromSpool {
        DemoteNarrows(cfg, st, batches[1..]);
      } else {
        var st1 := AppendToSpool(cfg, st, o.batch, o.cursors);
        MetaNarrows(st, st1, cfg.Fits(o.batch), o.cursors, |Lost(cfg, st.spool, o.batch)|);
        DemoteNarrows(cfg, st1, batches[1..]);
      }
    }
  }

  lemma DemoteAllNarrows(cfg: Config, st: State)
    ensures Narrows(st, DemoteAll(cfg, st), map[])
  {
    var st1, r := NoteReorder(st), DemoteAll(cfg, st);
    DemoteNarrows(cfg, st1, st.pending);
    forall s, c | InPlay(r, s, c)
      ensures InPlay(st, s, c)
    {
      assert InPlay(Demote(cfg, st1, st.pending), s, c);
    }
  }

  // Sending from the spool

  lemma ReplayNarrows(st: State, b: Batch)
    ensures Narrows(st, ReplayMove(st, b), map[])
  {
    forall s, c | InPlay(ReplayMove(st, b), s, c)
      ensures InPlay(st, s, c)
    {
      if Has(FrontMeta(st), s, c) {
        assert st.meta != [] && Has(st.meta[0], s, c);
      }
    }
  }

  lemma CorruptNarrows(cfg: Config, st: State)
    ensures Narrows(st, DropCorrupt(cfg, st), map[])
  {
    forall s, c | InPlay(DropCorrupt(cfg, st), s, c)
      ensures InPlay(st, s, c)
    {
      if i :| 0 <= i < |PopMeta(st.meta)| && Has(PopMeta(st.meta)[i], s, c) {
        assert PopMeta(st.meta)[i] in st.meta;
      }
    }
  }

  // Settling

  lemma SettleCursors(cfg: Config, st: State, accepted: bool)
    requires st.pending != []
    ensures var r := SettleMove(cfg, st, accepted);
            && r.accums == st.accums && r.log.lines == st.log.lines && r.log.hasty == st.log.hasty
            && r.pending == st.pending[1..] && r.committed == st.committed
            && (r.meta == st.meta || r.meta == PopMeta(st.meta))
            && r.ck == if accepted then Advance(st.ck, st.pending[0].cursors) else st.ck
  {
    SettledCursors(cfg, st, accepted);
    SettleKeeps(cfg, st, accepted);
    CreditCursors(cfg, st, accepted);
  }

  lemma SettledCursors(cfg: Config, st: State, accepted: bool)
    requires st.pending != []
    ensures var r := Settle(cfg, st, accepted);
            && r.pending == st.pending[1..] && r.committed == st.committed && r.ck == st.ck && r.log.hasty == st.log.hasty
            && (r.meta == st.meta || r.meta == PopMeta(st.meta))
  {
  }

  lemma CreditCursors(cfg: Config, st: State, accepted: bool)
    requires st.pending != [] && Settle(cfg, st, accepted).ck == st.ck
    ensures SettleMove(cfg, st, accepted).ck == if accepted then Advance(st.ck, st.pending[0].cursors) else st.ck
  {
  }

  lemma SettleNarrows(cfg: Config, st: State, accepted: bool)
    requires st.pending != []
    ensures Narrows(st, SettleMove(cfg, st, accepted), map[])
  {
    var r := SettleMove(cfg, st, accepted);
    SettleCursors(cfg, st, accepted);
    forall s, c | InPlay(r, s, c)
      ensures InPlay(st, s, c)
    {
      if i :| 0 <= i < |r.pending| && Has(r.pending[i].cursors, s, c) {
        assert r.pending[i] == st.pending[i + 1];
      } else if i :| 0 <= i < |r.meta| && Has(r.meta[i], s, c) {
        assert r.meta[i] in st.meta;
      }
    }
  }

  lemma SettleFreshAhead(cfg: Config, st: State, accepted: bool)
    requires st.pending != [] && FreshAhead(st)
    ensures FreshAhead(SettleMove(cfg, st, accepted))
  {
    var r := SettleMove(cfg, st, accepted);
    SettleCursors(cfg, st, accepted);
    forall j, k | 0 <= j < |r.pending| && !r.pending[j].fromSpool && 0 <= k < |r.pending[j].batch.records|
      ensures Protected(r, j, r.pending[j].batch.records[k])
    {
      var n := r.pending[j].batch.records[k];
      assert r.pending[j] == st.pending[j + 1];
      assert Protected(st, j + 1, n);
      assert st.pending[0].cursors == st.pending[..j + 1][0].cursors;
      forall i | 0 <= i < j && r.log.lines[n].source in r.pending[i].cursors
        ensures r.pending[i].cursors[r.log.lines[n].source].line < n
      {
        assert r.pending[i] == st.pending[i + 1];
      }
    }
  }

  // Flushing

  lemma TakenCursors(cfg: Config, st: State, id: StreamID)
    requires Ahead(cfg, st) && id in st.accums
    ensures forall s, c :: Has(st.accums[id].cursors, s, c) ==> Behind(TakeBatch(st, id), s, c)
  {
    forall s, c | Has(st.accums[id].cursors, s, c)
      ensures Behind(TakeBatch(st, id), s, c)
    {
      assert Sourced(cfg, st.log.lines, id, s, st.accums[id].cursors[s]);
      forall i, k | i in st.accums - {id} && 0 <= k < |st.accums[i].records|
        ensures BeforeLine(st.log.lines, st.accums[i].records[k], s, c)
      {
        assert OfStream(cfg, st.log.lines, st.accums[i].records[k], i);
      }
    }
  }

  /** Cursors and records of an accumulator concern its own label set only, so flushing it says
      nothing about the others. */
  lemma TakeBatchAhead(cfg: Config, st: State, id: StreamID)
    requires Ahead(cfg, st) && id in st.accums
    ensures Ahead(cfg, TakeBatch(st, id))
  {
    var r := TakeBatch(st, id);
    TakeBatchMoves(cfg, st, id, 0);
    forall i, s | i in r.accums && s in r.accums[i].cursors
      ensures Sourced(cfg, r.log.lines, i, s, r.accums[i].cursors[s])
    {
      assert Sourced(cfg, st.log.lines, i, s, st.accums[i].cursors[s]);
    }
    SameInPlay(st, r);
    forall s, c | InPlay(r, s, c)
      ensures Behind(r, s, c)
    {
      assert InPlay(st, s, c) && Behind(st, s, c);
      BehindLess(st, id, s, c);
    }
  }

  lemma BehindLess(st: State, id: StreamID, s: Source, c: Cursor)
    requires Behind(st, s, c) && id in st.accums
    ensures Behind(TakeBatch(st, id), s, c)
  {
    forall i, k | i in st.accums - {id} && 0 <= k < |st.accums[i].records|
      ensures BeforeLine(st.log.lines, st.accums[i].records[k], s, c)
    {
      assert BeforeLine(st.log.lines, st.accums[i].records[k], s, c);
    }
  }

  lemma SpoolMoveAhead(cfg: Config, st: State, id: StreamID)
    requires Ahead(cfg, st) && id in st.accums
    ensures Ahead(cfg, SpoolMove(cfg, st, id))
  {
    var a, b, cursors := TakeBatch(st, id), BuildBatch(st, id), st.accums[id].cursors;
    TakeBatchAhead(cfg, st, id);
    TakenCursors(cfg, st, id);
    MetaNarrows(a, SpoolMove(cfg, st, id), cfg.Fits(b), cursors, |Lost(cfg, st.spool, b)|);
    AheadExtra(cfg, a, SpoolMove(cfg, st, id), cursors);
  }

  lemma PushNarrows(st: State, o: Outstanding)
    ensures Narrows(st, PushPending(st, o), o.cursors)
  {
  }

  lemma SendMoveAhead(cfg: Config, st: State, id: StreamID)
    requires Ahead(cfg, st) && id in st.accums
    ensures Ahead(cfg, SendMove(st, id))
  {
    var cursors := st.accums[id].cursors;
    TakeBatchAhead(cfg, st, id);
    TakenCursors(cfg, st, id);
    PushNarrows(TakeBatch(st, id), Outstanding(BuildBatch(st, id), cursors, false));
    AheadExtra(cfg, TakeBatch(st, id), SendMove(st, id), cursors);
  }

  lemma TakeBatchFresh(st: State, id: StreamID)
    requires FreshAhead(st) && id in st.accums
    ensures FreshAhead(TakeBatch(st, id))
  {
    forall j, k | 0 <= j < |st.pending| && !st.pending[j].fromSpool && 0 <= k < |st.pending[j].batch.records|
      ensures Protected(TakeBatch(st, id), j, st.pending[j].batch.records[k])
    {
      assert Protected(st, j, st.pending[j].batch.records[k]);
    }
  }

  /** A line of the accumulator just taken is protected at the end of the window. */
  lemma TakenIsProtected(cfg: Config, st: State, id: StreamID, k: nat)
    requires Ahead(cfg, st) && id in st.accums && k < |st.accums[id].records|
    ensures Protected(TakeBatch(st, id), |st.pending|, st.accums[id].records[k])
  {
    var n := st.accums[id].records[k];
    assert OfStream(cfg, st.log.lines, n, id);
    var s := st.log.lines[n].source;
    forall c | InPlay(st, s, c)
      ensures c.line < n
    {
      assert BeforeAccums(st.accums, st.log.lines, s, c);
      assert BeforeLine(st.log.lines, st.accums[id].records[k], s, c);
    }
    if s in st.ck { assert InPlay(st, s, st.ck[s]); }
    if s in st.committed { assert InPlay(st, s, st.committed[s]); }
    forall i | 0 <= i < |st.pending| && s in st.pending[i].cursors
      ensures st.pending[i].cursors[s].line < n
    {
      assert Has(st.pending[i].cursors, s, st.pending[i].cursors[s]);
      assert InPlay(st, s, st.pending[i].cursors[s]);
    }
    OneLabelSet(cfg, st, id, s);
  }

  lemma OneLabelSet(cfg: Config, st: State, id: StreamID, s: Source)
    requires OwnSources(cfg, st.accums, st.log.lines) && cfg.labels(s) == Some(id)
    ensures forall i :: i in st.accums && i != id ==> s !in st.accums[i].cursors
  {
  }

  lemma PushFresh(st: State, o: Outstanding)
    requires FreshAhead(st)
    requires forall k :: 0 <= k < |o.batch.records| ==> Protected(st, |st.pending|, o.batch.records[k])
    ensures FreshAhead(PushPending(st, o))
  {
    var r := PushPending(st, o);
    forall j, k | 0 <= j < |r.pending| && !r.pending[j].fromSpool && 0 <= k < |r.pending[j].batch.records|
      ensures Protected(r, j, r.pending[j].batch.records[k])
    {
      assert Protected(st, j, r.pending[j].batch.records[k]);
    }
  }

  lemma SendMoveFresh(cfg: Config, st: State, id: StreamID)
    requires Ahead(cfg, st) && FreshAhead(st) && id in st.accums
    ensures FreshAhead(SendMove(st, id))
  {
    var st1, o := TakeBatch(st, id), Outstanding(BuildBatch(st, id), st.accums[id].cursors, false);
    TakeBatchFresh(st, id);
    forall k | 0 <= k < |o.batch.records|
      ensures Protected(st1, |st1.pending|, o.batch.records[k])
    {
      TakenIsProtected(cfg, st, id, k);
    }
    PushFresh(st1, o);
  }

  lemma SpoolMoveFresh(cfg: Config, st: State, id: StreamID)
    requires FreshAhead(st) && id in st.accums
    ensures FreshAhead(SpoolMove(cfg, st, id))
  {
    TakeBatchFresh(st, id);
    SameFresh(TakeBatch(st, id), SpoolMove(cfg, st, id));
  }

  // An accumulator without records

  lemma SkipAhead(cfg: Config, st: State, id: StreamID)
    requires Ahead(cfg, st) && id in st.accums
    ensures Ahead(cfg, FlushEmpty(st, id))
  {
    var a, b := TakeBatch(st, id), FlushEmpty(st, id);
    TakeBatchAhead(cfg, st, id);
    TakenCursors(cfg, st, id);
    AheadExtra(cfg, a, b, st.accums[id].cursors);
  }

  /** The skip leaves the window protected if and only if it moves the checkpoint of no source that
      has a line in a fresh outstanding batch. */
  lemma SkipIsSafeIff(st: State, id: StreamID)
    requires FreshAhead(st) && id in st.accums
    ensures FreshAhead(FlushEmpty(st, id)) <==> Quiet(st, st.accums[id].cursors)
  {
    var b, cursors := FlushEmpty(st, id), st.accums[id].cursors;
    if Quiet(st, cursors) {
      forall j, k | 0 <= j < |b.pending| && !b.pending[j].fromSpool && 0 <= k < |b.pending[j].batch.records|
        ensures Protected(b, j, b.pending[j].batch.records[k])
      {
        assert Protected(st, j, st.pending[j].batch.records[k]);
      }
    } else {
      var j, k :| 0 <= j < |st.pending| && !st.pending[j].fromSpool && 0 <= k < |st.pending[j].batch.records|
        && st.pending[j].batch.records[k] < |st.log.lines|
        && Moves(st.ck, cursors, st.log.lines[st.pending[j].batch.records[k]].source);
      var n := st.pending[j].batch.records[k];
      assert Protected(st, j, n);
      assert !Protected(b, j, n);
    }
  }

  // A line

  lemma FoldSources(cfg: Config, st: State, id: StreamID, line: Line, now: nat)
    requires OwnSources(cfg, st.accums, st.log.lines) && cfg.labels(line.source) == Some(id)
    ensures OwnSources(cfg, FoldMove(cfg, st, id, line, now).accums, st.log.lines + [line])
  {
    var r := FoldMove(cfg, st, id, line, now);
    forall i, s | i in r.accums && s in r.accums[i].cursors
      ensures Sourced(cfg, st.log.lines + [line], i, s, r.accums[i].cursors[s])
    {
      if i in st.accums && s in st.accums[i].cursors {
        assert Sourced(cfg, st.log.lines, i, s, st.accums[i].cursors[s]);
      }
    }
  }

  /** A new line is past every cursor seen so far. */
  lemma FoldBehind(cfg: Config, st: State, id: StreamID, line: Line, now: nat, s: Source, c: Cursor)
    requires OwnLines(cfg, st.accums, st.log.lines) && Behind(st, s, c)
    ensures Behind(FoldMove(cfg, st, id, line, now), s, c)
  {
    var r := FoldMove(cfg, st, id, line, now);
    forall i, k | i in r.accums && 0 <= k < |r.accums[i].records|
      ensures BeforeLine(r.log.lines, r.accums[i].records[k], s, c)
    {
      if i in st.accums && k < |st.accums[i].records| {
        assert OfStream(cfg, st.log.lines, st.accums[i].records[k], i);
        assert BeforeLine(st.log.lines, st.accums[i].records[k], s, c);
      }
    }
  }

  lemma FoldAhead(cfg: Config, st: State, id: StreamID, line: Line, now: nat)
    requires Ahead(cfg, st) && cfg.labels(line.source) == Some(id)
    ensures Ahead(cfg, FoldMove(cfg, st, id, line, now))
  {
    var r := FoldMove(cfg, st, id, line, now);
    FoldOwns(cfg, st, id, line, now);
    FoldSources(cfg, st, id, line, now);
    SameInPlay(st, r);
    forall s, c | InPlay(r, s, c)
      ensures Behind(r, s, c)
    {
      FoldBehind(cfg, st, id, line, now, s, c);
    }
  }

  lemma FoldFresh(cfg: Config, st: State, id: StreamID, line: Line, now: nat)
    requires FreshAhead(st)
    ensures FreshAhead(FoldMove(cfg, st, id, line, now))
  {
    var r := FoldMove(cfg, st, id, line, now);
    forall j, k | 0 <= j < |r.pending| && !r.pending[j].fromSpool && 0 <= k < |r.pending[j].batch.records|
      ensures Protected(r, j, r.pending[j].batch.records[k])
    {
      assert Protected(st, j, st.pending[j].batch.records[k]);
    }
  }

  lemma RejectSafe(cfg: Config, st: State, line: Line)
    requires Ahead(cfg, st) && cfg.labels(line.source).None?
    ensures Ahead(cfg, TurnAway(st, line)) && (FreshAhead(st) ==> FreshAhead(TurnAway(st, line)))
  {
    var r := TurnAway(st, line);
    RejectAdds(cfg, st, line, 0);
    forall i, s | i in r.accums && s in r.accums[i].cursors
      ensures Sourced(cfg, r.log.lines, i, s, r.accums[i].cursors[s])
    {
      assert Sourced(cfg, st.log.lines, i, s, st.accums[i].cursors[s]);
    }
    SameInPlay(st, r);
    forall s, c | InPlay(r, s, c)
      ensures Behind(r, s, c)
    {
      assert Behind(st, s, c);
      forall i, k | i in r.accums && 0 <= k < |r.accums[i].records|
        ensures BeforeLine(r.log.lines, r.accums[i].records[k], s, c)
      {
        assert BeforeLine(st.log.lines, st.accums[i].records[k], s, c);
        assert OfStream(cfg, st.log.lines, st.accums[i].records[k], i);
      }
    }
    if FreshAhead(st) {
      forall j, k | 0 <= j < |r.pending| && !r.pending[j].fromSpool && 0 <= k < |r.pending[j].batch.records|
        ensures Protected(r, j, r.pending[j].batch.records[k])
      {
        assert Protected(st, j, st.pending[j].batch.records[k]);
      }
    }
  }

  // Commits and the stream

  lemma CommitSafe(cfg: Config, st: State)
    requires Ahead(cfg, st)
    ensures Ahead(cfg, CommitMove(st)) && (FreshAhead(st) ==> FreshAhead(CommitMove(st)))
  {
    var r := CommitMove(st);
    forall s, c | InPlay(r, s, c)
      ensures InPlay(st, s, c)
    {
    }
    AheadNarrows(cfg, st, r);
    if FreshAhead(st) {
      forall j, k | 0 <= j < |r.pending| && !r.pending[j].fromSpool && 0 <= k < |r.pending[j].batch.records|
        ensures Protected(r, j, r.pending[j].batch.records[k])
      {
        assert Protected(st, j, st.pending[j].batch.records[k]);
      }
    }
  }

  lemma RelinkSafe(cfg: Config, st: State, link: Link)
    requires Ahead(cfg, st)
    ensures Ahead(cfg, Relink(st, link)) && (FreshAhead(st) ==> FreshAhead(Relink(st, link)))
  {
    SameInPlay(st, Relink(st, link));
    AheadNarrows(cfg, st, Relink(st, link));
    SameFresh(st, Relink(st, link));
  }

  // Every move

  lemma DoAhead(cfg: Config, st: State, m: Move)
    requires Ahead(cfg, st)
    ensures Ahead(cfg, Do(cfg, st, m))
  {
    if Can(cfg, st, m) {
      match m
      case Rejected(line) => RejectSafe(cfg, st, line);
      case Folded(id, line, now) => FoldAhead(cfg, st, id, line, now);
      case Skipped(id) => SkipAhead(cfg, st, id);
      case Spooled(id) => SpoolMoveAhead(cfg, st, id);
      case SentFresh(id) => SendMoveAhead(cfg, st, id);
      case Relinked(link) => RelinkSafe(cfg, st, link);
      case Committed => CommitSafe(cfg, st);
      case _ => NarrowingAhead(cfg, st, m);
    }
  }

  lemma NarrowingAhead(cfg: Config, st: State, m: Move)
    requires Ahead(cfg, st) && Can(cfg, st, m) && (m.SentReplay? || m.Corrupt? || m.Settled? || m.Demoted?)
    ensures Ahead(cfg, Do(cfg, st, m))
  {
    match m
    case SentReplay => ReplayNarrows(st, cfg.unmarshal(st.spool.Fifo()[0]).value);
    case Corrupt => CorruptNarrows(cfg, st);
    case Settled(accepted) => SettleNarrows(cfg, st, accepted);
    case Demoted => DemoteAllNarrows(cfg, st);
    AheadNarrows(cfg, st, Do(cfg, st, m));
  }

  /** A checkpoint advances for skipped lines although a line of the same source is only in memory. */
  predicate SkipsEarly(cfg: Config, st: State, m: Move) {
    m.Skipped? && Can(cfg, st, m) && !Quiet(st, st.accums[m.id].cursors)
  }

  lemma ReplayFresh(st: State, b: Batch)
    requires st.pending == []
    ensures FreshAhead(ReplayMove(st, b))
  {
  }

  lemma DoFreshIff(cfg: Config, st: State, m: Move)
    requires Ahead(cfg, st) && FreshAhead(st)
    ensures FreshAhead(Do(cfg, st, m)) <==> !SkipsEarly(cfg, st, m)
  {
    if Can(cfg, st, m) {
      match m
      case Rejected(line) => RejectSafe(cfg, st, line);
      case Folded(id, line, now) => FoldFresh(cfg, st, id, line, now);
      case Skipped(id) => SkipIsSafeIff(st, id);
      case Spooled(id) => SpoolMoveFresh(cfg, st, id);
      case SentFresh(id) => SendMoveFresh(cfg, st, id);
      case Relinked(link) => RelinkSafe(cfg, st, link);
      case Committed => CommitSafe(cfg, st);
      case SentReplay => ReplayFresh(st, cfg.unmarshal(st.spool.Fifo()[0]).value);
      case Corrupt => SameFresh(st, DropCorrupt(cfg, st));
      case Settled(accepted) => SettleFreshAhead(cfg, st, accepted);
      case Demoted => DemoteSame(cfg, NoteReorder(st), st.pending);
    }
  }

  /** Cursors a previous run left in the checkpoint are of its own lines. */
  predicate Inherited(ck: Cursors) {
    forall s :: s in ck ==> ck[s].line < 0
  }

  lemma {:induction false} PlayAhead(cfg: Config, spool: Spool, ck: Cursors, moves: seq<Move>)
    requires Inherited(ck)
    ensures Ahead(cfg, Play(cfg, Start(cfg, spool, ck), moves))
    decreases |moves|
  {
    if moves != [] {
      var before := moves[..|moves| - 1];
      PlayAhead(cfg, spool, ck, before);
      DoAhead(cfg, Play(cfg, Start(cfg, spool, ck), before), moves[|moves| - 1]);
    }
  }

  predicate SomeEarly(cfg: Config, st: State, moves: seq<Move>)
    decreases |moves|
  {
    moves != [] &&
    (var last := |moves| - 1;
     SomeEarly(cfg, st, moves[..last]) || SkipsEarly(cfg, Play(cfg, st, moves[..last]), moves[last]))
  }

  /** At every moment from the start on. */
  ghost predicate AlwaysAhead(cfg: Config, st: State, moves: seq<Move>)
    decreases |moves|
  {
    && FreshAhead(Play(cfg, st, moves))
    && (moves != [] ==> AlwaysAhead(cfg, st, moves[..|moves| - 1]))
  }

  /** The exact condition. Throughout a run no checkpoint, in memory or committed, is at or past a line
      of a fresh outstanding batch, if and only if the run never flushes an accumulator of lines that
      cannot be shipped when that moves the checkpoint of a source with a line in such a batch. */
  lemma {:induction false} AlwaysProtectedIff(cfg: Config, spool: Spool, ck: Cursors, moves: seq<Move>)
    requires Inherited(ck)
    ensures var st := Start(cfg, spool, ck); AlwaysAhead(cfg, st, moves) <==> !SomeEarly(cfg, st, moves)
    decreases |moves|
  {
    if moves != [] {
      var before := moves[..|moves| - 1];
      AlwaysProtectedIff(cfg, spool, ck, before);
      if AlwaysAhead(cfg, Start(cfg, spool, ck), before) {
        PlayAhead(cfg, spool, ck, before);
        DoFreshIff(cfg, Play(cfg, Start(cfg, spool, ck), before), moves[|moves| - 1]);
      }
    }
  }

  /** The ledger remembers an early skip. */
  lemma DoHasty(cfg: Config, st: State, m: Move)
    ensures Do(cfg, st, m).log.hasty <==> st.log.hasty || SkipsEarly(cfg, st, m)
    ensures st.log.skipped || SkipsEarly(cfg, st, m) ==> Do(cfg, st, m).log.skipped
  {
    if Can(cfg, st, m) {
      match m
      case Skipped(id) =>
      case Settled(accepted) => SettleMoveLog(cfg, st, accepted);
      case Demoted => DemoteSame(cfg, NoteReorder(st), st.pending);
      case _ => RestHasty(cfg, st, m);
    }
  }

  predicate SameSkips(a: State, b: State) {
    b.log.hasty == a.log.hasty && b.log.skipped == a.log.skipped
  }

  lemma SpoolMoveSkips(cfg: Config, st: State, id: StreamID)
    requires id in st.accums
    ensures SameSkips(st, SpoolMove(cfg, st, id))
  {
  }

  lemma SendMoveSkips(st: State, id: StreamID)
    requires id in st.accums
    ensures SameSkips(st, SendMove(st, id))
  {
  }

  lemma ReplayMoveSkips(st: State, b: Batch)
    ensures SameSkips(st, ReplayMove(st, b))
  {
  }

  lemma CorruptSkips(cfg: Config, st: State)
    ensures SameSkips(st, DropCorrupt(cfg, st))
  {
  }

  lemma RestHasty(cfg: Config, st: State, m: Move)
    requires Can(cfg, st, m) && !m.Skipped? && !m.Settled? && !m.Demoted?
    ensures SameSkips(st, Do(cfg, st, m))
  {
    match m
    case Spooled(id) => SpoolMoveSkips(cfg, st, id);
    case SentFresh(id) => SendMoveSkips(st, id);
    case SentReplay => ReplayMoveSkips(st, cfg.unmarshal(st.spool.Fifo()[0]).value);
    case Corrupt => CorruptSkips(cfg, st);
    case _ =>
  }

  lemma {:induction false} HastyIff(cfg: Config, st: State, moves: seq<Move>)
    requires !st.log.hasty
    ensures Play(cfg, st, moves).log.hasty <==> SomeEarly(cfg, st, moves)
    ensures Play(cfg, st, moves).log.hasty ==> Play(cfg, st, moves).log.skipped
    decreases |moves|
  {
    if moves != [] {
      HastyIff(cfg, st, moves[..|moves| - 1]);
      DoHasty(cfg, Play(cfg, st, moves[..|moves| - 1]), moves[|moves| - 1]);
    }
  }

  /** The committed checkpoint is not at or past line n. What a restart from it reads again is in
      Pipeline. */
  predicate CheckpointBefore(st: State, n: nat)
    requires n < |st.log.lines|
  {
    var s := st.log.lines[n].source;
    s in st.committed ==> st.committed[s].line < n
  }

  lemma {:induction false} FreshRecordsMember(batches: seq<Outstanding>, n: nat)
    requires n in FreshRecords(batches)
    ensures exists j :: 0 <= j < |batches| && !batches[j].fromSpool && n in batches[j].batch.records
  {
    if batches[0].fromSpool || n !in batches[0].batch.records {
      FreshRecordsMember(batches[1..], n);
      var j :| 0 <= j < |batches[1..]| && !batches[1..][j].fromSpool && n in batches[1..][j].batch.records;
      assert batches[j + 1] == batches[1..][j];
    }
  }

  lemma FreshIsAhead(st: State, n: nat)
    requires FreshAhead(st) && n in FreshRecords(st.pending) && n < |st.log.lines|
    ensures CheckpointBefore(st, n)
  {
    FreshRecordsMember(st.pending, n);
    var j :| 0 <= j < |st.pending| && !st.pending[j].fromSpool && n in st.pending[j].batch.records;
    var k :| 0 <= k < |st.pending[j].batch.records| && st.pending[j].batch.records[k] == n;
    assert Protected(st, j, st.pending[j].batch.records[k]);
  }

  lemma AccumIsAhead(cfg: Config, st: State, n: nat)
    requires Ahead(cfg, st) && n < |st.log.lines| && InAccum(cfg, st, n) > 0
    ensures CheckpointBefore(st, n)
  {
    var s := st.log.lines[n].source;
    var id := cfg.labels(s).value;
    CountMember(st.accums[id].records, n);
    var k :| 0 <= k < |st.accums[id].records| && st.accums[id].records[k] == n;
    if s in st.committed {
      assert InPlay(st, s, st.committed[s]);
      assert BeforeLine(st.log.lines, st.accums[id].records[k], s, st.committed[s]);
    }
  }

  /** At any moment of any run, each line is, once, in the spool or recorded with its fate (beside
      records a previous run left in the spool), or the committed checkpoint is still before it.
      Overloads, faults, disconnects, replay and eviction are all allowed; the proviso, that no skip
      came early, is the exact condition of AlwaysProtectedIff. */
  lemma OnDiskOrAhead(cfg: Config, spool: Spool, ck: Cursors, moves: seq<Move>, n: nat)
    requires cfg.Lossless() && Inherited(ck) && !SomeEarly(cfg, Start(cfg, spool, ck), moves)
    requires n < |Play(cfg, Start(cfg, spool, ck), moves).log.lines|
    ensures var st := Play(cfg, Start(cfg, spool, ck), moves);
            Elsewhere(cfg, st, n) == Count(SpoolRecords(cfg, spool.Fifo()), n) + 1 || CheckpointBefore(st, n)
  {
    var st0 := Start(cfg, spool, ck);
    var st := Play(cfg, st0, moves);
    PlayConserves(cfg, spool, ck, moves, n);
    AlwaysProtectedIff(cfg, spool, ck, moves);
    PlayAhead(cfg, spool, ck, moves);
    CountMember(FreshRecords(st.pending), n);
    if n in FreshRecords(st.pending) {
      FreshIsAhead(st, n);
    } else if InAccum(cfg, st, n) > 0 {
      AccumIsAhead(cfg, st, n);
    }
  }

  /** Every line with labels is shippable. */
  ghost predicate AllShippable(cfg: Config, lines: seq<Line>) {
    forall i :: 0 <= i < |lines| && cfg.labels(lines[i].source).Some? ==>
      cfg.Shippable(cfg.labels(lines[i].source).value, lines[i])
  }

  predicate Filled(accums: map<StreamID, Accum>) {
    forall id :: id in accums ==> accums[id].records != []
  }

  lemma FlushFilled(cfg: Config, st: State, m: Move)
    requires Filled(st.accums) && !st.log.skipped && Can(cfg, st, m) && (m.Skipped? || m.Spooled? || m.SentFresh?)
    ensures Filled(Do(cfg, st, m).accums) && !Do(cfg, st, m).log.skipped && Do(cfg, st, m).log.lines == st.log.lines
  {
  }

  lemma FoldFilled(cfg: Config, st: State, id: StreamID, line: Line, now: nat)
    requires Filled(st.accums) && !st.log.skipped && cfg.Shippable(id, line)
    ensures Filled(FoldMove(cfg, st, id, line, now).accums) && !FoldMove(cfg, st, id, line, now).log.skipped
  {
  }

  lemma IntakeFilled(cfg: Config, st: State, m: Move)
    requires AllShippable(cfg, st.log.lines) ==> Filled(st.accums) && !st.log.skipped
    requires Can(cfg, st, m) && (m.Rejected? || m.Folded?)
    ensures AllShippable(cfg, Do(cfg, st, m).log.lines) ==> Filled(Do(cfg, st, m).accums) && !Do(cfg, st, m).log.skipped
  {
    ShippableBefore(cfg, st.log.lines, m.line);
    if m.Folded? && AllShippable(cfg, st.log.lines + [m.line]) {
      FoldFilled(cfg, st, m.id, m.line, m.now);
    }
  }

  lemma DoFilled(cfg: Config, st: State, m: Move)
    requires AllShippable(cfg, st.log.lines) ==> Filled(st.accums) && !st.log.skipped
    ensures AllShippable(cfg, Do(cfg, st, m).log.lines) ==> Filled(Do(cfg, st, m).accums) && !Do(cfg, st, m).log.skipped
  {
    if Can(cfg, st, m) {
      if m.Rejected? || m.Folded? {
        IntakeFilled(cfg, st, m);
      } else {
        RestFilled(cfg, st, m);
      }
    }
  }

  lemma RestFilled(cfg: Config, st: State, m: Move)
    requires AllShippable(cfg, st.log.lines) ==> Filled(st.accums) && !st.log.skipped
    requires Can(cfg, st, m) && !m.Rejected? && !m.Folded?
    ensures AllShippable(cfg, Do(cfg, st, m).log.lines) ==> Filled(Do(cfg, st, m).accums) && !Do(cfg, st, m).log.skipped
  {
    match m
    case Settled(accepted) => SettleMoveLog(cfg, st, accepted); SettleKeeps(cfg, st, accepted);
    case Demoted => DemoteSame(cfg, NoteReorder(st), st.pending);
    case SentReplay =>
    case Corrupt =>
    case Relinked(link) =>
    case Committed =>
    case _ => FlushLines(cfg, st, m); if AllShippable(cfg, st.log.lines) { FlushFilled(cfg, st, m); }
  }

  lemma FlushLines(cfg: Config, st: State, m: Move)
    requires Can(cfg, st, m) && (m.Skipped? || m.Spooled? || m.SentFresh?)
    ensures Do(cfg, st, m).log.lines == st.log.lines
  {
  }

  lemma ShippableBefore(cfg: Config, lines: seq<Line>, line: Line)
    ensures AllShippable(cfg, lines + [line]) ==>
              AllShippable(cfg, lines) && (cfg.labels(line.source).Some? ==> cfg.Shippable(cfg.labels(line.source).value, line))
  {
    var more := lines + [line];
    if AllShippable(cfg, more) {
      assert more[|lines|] == line;
      forall i | 0 <= i < |lines| && cfg.labels(lines[i].source).Some?
        ensures cfg.Shippable(cfg.labels(lines[i].source).value, lines[i])
      {
        assert more[i] == lines[i];
      }
    }
  }

  lemma {:induction false} PlayFilled(cfg: Config, spool: Spool, ck: Cursors, moves: seq<Move>)
    ensures var st := Play(cfg, Start(cfg, spool, ck), moves);
            AllShippable(cfg, st.log.lines) ==> Filled(st.accums) && !st.log.skipped
    decreases |moves|
  {
    if moves != [] {
      PlayFilled(cfg, spool, ck, moves[..|moves| - 1]);
      DoFilled(cfg, Play(cfg, Start(cfg, spool, ck), moves[..|moves| - 1]), moves[|moves| - 1]);
    }
  }

  /** So it is between any two steps of a run in which every line with labels is shippable. */
  lemma ShippableOnDiskOrAhead(cfg: Config, spool: Spool, ck: Cursors, inputs: seq<Input>, n: nat)
    requires cfg.Ok() && cfg.Lossless() && Inherited(ck) && AllShippable(cfg, Arrivals(inputs)) && n < |Arrivals(inputs)|
    ensures var st := Run(cfg, Start(cfg, spool, ck), inputs);
            && n < |st.log.lines|
            && (Elsewhere(cfg, st, n) == Count(SpoolRecords(cfg, spool.Fifo()), n) + 1 || CheckpointBefore(st, n))
  {
    EveryRunIsReachable(cfg, spool, ck, inputs);
    var moves :| Run(cfg, Start(cfg, spool, ck), inputs) == Play(cfg, Start(cfg, spool, ck), moves);
    PlayFilled(cfg, spool, ck, moves);
    HastyIff(cfg, Start(cfg, spool, ck), moves);
    OnDiskOrAhead(cfg, spool, ck, moves, n);
  }
}
