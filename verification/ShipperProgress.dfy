/** The checkpoint catches up (internal/agent/shipper.go): the cursor of a source's last line is never
    dropped on the way from its accumulator, over the window or the spool, to the checkpoint. */
module ShipperProgress {
  import opened Prelude
  import opened SpoolQueue
  import opened ShipperModel
  import opened ShipperLive
  import opened ShipperMoves
  import opened ShipperStructure
  import opened ShipperReplay
  import opened ShipperGap
  import opened ShipperOrigin
  import opened ShipperAcks

  /** Nothing was evicted, dropped for its size, or refused for good. */
  predicate Clean(log: Ledger) {
    log.evicted == [] && !log.unspooled && !log.refused
  }

  /** The lines of the source are of one file, in order, and after what was checkpointed of it before. */
  predicate Onward(lines: seq<Line>, s: Source, ck: Cursors) {
    && (forall i, j :: 0 <= i < j < |lines| && lines[i].source == s && lines[j].source == s ==>
          lines[i].file == lines[j].file && lines[i].offset < lines[j].offset)
    && (forall i :: 0 <= i < |lines| && lines[i].source == s && s in ck && ck[s].file == lines[i].file ==> ck[s].offset < lines[i].offset)
  }

  /** The ordinal of the last line of a source, -1 without one. */
  function Latest(lines: seq<Line>, s: Source): (m: int)
    ensures -1 <= m < |lines| && (m >= 0 ==> lines[m].source == s)
    ensures forall j :: m < j < |lines| ==> lines[j].source != s
    decreases |lines|
  {
    if lines == [] then -1
    else if lines[|lines| - 1].source == s then |lines| - 1
    else
      var m := Latest(lines[..|lines| - 1], s);
      assert forall j :: m < j < |lines| ==> lines[j].source != s by {
        forall j | m < j < |lines|
          ensures lines[j].source != s
        {
          assert j < |lines| - 1 ==> lines[..|lines| - 1][j] == lines[j];
        }
      }
      m
  }

  lemma LatestMore(lines: seq<Line>, line: Line, s: Source)
    ensures Latest(lines + [line], s) == if line.source == s then |lines| else Latest(lines, s)
  {
    assert (lines + [line])[..|lines|] == lines;
  }

  predicate At(cs: Cursors, s: Source, m: int) {
    s in cs && cs[s].line == m
  }

  ghost predicate InAccums(accums: map<StreamID, Accum>, s: Source, m: int) {
    exists id :: id in accums && At(accums[id].cursors, s, m)
  }

  ghost predicate InWindow(pending: seq<Outstanding>, s: Source, m: int) {
    exists i :: 0 <= i < |pending| && !pending[i].fromSpool && At(pending[i].cursors, s, m)
  }

  ghost predicate InMeta(meta: seq<Cursors>, s: Source, m: int) {
    exists i :: 0 <= i < |meta| && At(meta[i], s, m)
  }

  /** The cursor of the last line is somewhere. */
  ghost predicate HeldAt(st: State, s: Source, m: int) {
    InAccums(st.accums, s, m) || InWindow(st.pending, s, m) || InMeta(st.meta, s, m) || At(st.ck, s, m)
  }

  ghost predicate Held(st: State, s: Source) {
    var m := Latest(st.log.lines, s);
    m >= 0 ==> HeldAt(st, s, m)
  }

  ghost predicate Lined(lines: seq<Line>, cs: Cursors) {
    forall s :: s in cs ==> CursorOf(lines, s, cs[s])
  }

  /** Every cursor on its way is of a line of this run; an entry that does not decode has none. */
  ghost predicate AllLined(st: State) {
    && (forall id :: id in st.accums ==> Lined(st.log.lines, st.accums[id].cursors))
    && (forall i :: 0 <= i < |st.pending| ==> Lined(st.log.lines, st.pending[i].cursors))
    && (forall i :: 0 <= i < |st.meta| ==> Lined(st.log.lines, st.meta[i]))
    && (forall i :: 0 <= i < |st.log.flushed| && st.log.flushed[i].batch.None? ==> st.log.flushed[i].cursors == map[])
  }

  lemma LinedLater(lines: seq<Line>, more: seq<Line>, cs: Cursors)
    requires Lined(lines, cs)
    ensures Lined(lines + more, cs)
  {
    forall s | s in cs
      ensures CursorOf(lines + more, s, cs[s])
    {
      assert CursorOf(lines, s, cs[s]);
    }
  }

  lemma LinesLater(st: State, r: State)
    requires AllLined(st) && st.log.lines <= r.log.lines
    requires r.accums == st.accums && r.pending == st.pending && r.meta == st.meta && r.log.flushed == st.log.flushed
    ensures AllLined(r)
  {
    var more := r.log.lines[|st.log.lines|..];
    assert r.log.lines == st.log.lines + more;
    forall id | id in st.accums
      ensures Lined(r.log.lines, st.accums[id].cursors)
    {
      LinedLater(st.log.lines, more, st.accums[id].cursors);
    }
    forall i | 0 <= i < |st.pending|
      ensures Lined(r.log.lines, st.pending[i].cursors)
    {
      LinedLater(st.log.lines, more, st.pending[i].cursors);
    }
    forall i | 0 <= i < |st.meta|
      ensures Lined(r.log.lines, st.meta[i])
    {
      LinedLater(st.log.lines, more, st.meta[i]);
    }
  }

  // The checkpoint

  ghost predicate CheckpointKnown(ck: Cursors, st: State, s: Source) {
    s in st.ck ==> Origin(ck, st.log.lines, s, st.ck[s])
  }

  /** A cursor of line m, or of an earlier place. */
  predicate UpTo(c: Cursor, m: int, file: nat, offset: nat) {
    c.file == file && c.offset <= offset && (c.line == m || c.offset < offset)
  }

  lemma CursorUpTo(lines: seq<Line>, ck: Cursors, s: Source, c: Cursor)
    requires CursorOf(lines, s, c) && Onward(lines, s, ck)
    ensures var m := Latest(lines, s); m >= 0 && UpTo(c, m, lines[m].file, lines[m].offset)
  {
    var m, j := Latest(lines, s), c.line;
    assert j <= m;
    assert j < m ==> lines[j].source == s && lines[m].source == s;
  }

  lemma AdvanceAt(ck: Cursors, cursors: Cursors, s: Source, m: int, file: nat, offset: nat)
    requires At(cursors, s, m) || At(ck, s, m)
    requires s in cursors ==> UpTo(cursors[s], m, file, offset) && (cursors[s].line == m ==> cursors[s].offset == offset)
    requires s in ck ==> (UpTo(ck[s], m, file, offset) && (ck[s].line == m ==> ck[s].offset == offset))
                         || (ck[s].line != m && (ck[s].file == file ==> ck[s].offset < offset))
    ensures At(Advance(ck, cursors), s, m)
  {
    AdvanceIs(ck, cursors, s);
  }

  /** The cursor of the last line goes into the checkpoint, and stays there. */
  lemma AdvanceHolds(lines: seq<Line>, ck0: Cursors, ck: Cursors, cursors: Cursors, s: Source)
    requires Onward(lines, s, ck0) && (s in cursors ==> CursorOf(lines, s, cursors[s])) && Latest(lines, s) >= 0
    requires s in ck ==> Origin(ck0, lines, s, ck[s])
    requires At(cursors, s, Latest(lines, s)) || At(ck, s, Latest(lines, s))
    ensures At(Advance(ck, cursors), s, Latest(lines, s))
  {
    var m := Latest(lines, s);
    if s in cursors {
      CursorUpTo(lines, ck0, s, cursors[s]);
    }
    if s in ck {
      if CursorOf(lines, s, ck[s]) {
        CursorUpTo(lines, ck0, s, ck[s]);
      } else {
        assert s in ck0 && ck0[s] == ck[s] && lines[m].source == s;
      }
    }
    AdvanceAt(ck, cursors, s, m, lines[m].file, lines[m].offset);
  }

  // Lines arrive

  lemma RejectHolds(cfg: Config, st: State, line: Line, s: Source)
    requires AllLined(st) && Held(st, s) && line.source != s
    ensures AllLined(TurnAway(st, line)) && Held(TurnAway(st, line), s)
  {
    LatestMore(st.log.lines, line, s);
    LinesLater(st, TurnAway(st, line));
  }

  lemma FoldLines(cfg: Config, st: State, id: StreamID, line: Line, now: nat)
    requires AllLined(st)
    ensures AllLined(FoldMove(cfg, st, id, line, now))
  {
    var r := FoldMove(cfg, st, id, line, now);
    var grown := st.(log := st.log.(lines := st.log.lines + [line]));
    LinesLater(st, grown);
    forall s | s in r.accums[id].cursors
      ensures CursorOf(r.log.lines, s, r.accums[id].cursors[s])
    {
      if s != line.source {
        assert id in st.accums && Lined(grown.log.lines, st.accums[id].cursors);
      }
    }
  }

  lemma FoldHolds(cfg: Config, st: State, id: StreamID, line: Line, now: nat, s: Source)
    requires Held(st, s)
    ensures Held(FoldMove(cfg, st, id, line, now), s)
  {
    var r := FoldMove(cfg, st, id, line, now);
    LatestMore(st.log.lines, line, s);
    if line.source == s {
      assert At(r.accums[id].cursors, s, |st.log.lines|);
    } else {
      var m := Latest(st.log.lines, s);
      if m >= 0 && InAccums(st.accums, s, m) {
        var i :| i in st.accums && At(st.accums[i].cursors, s, m);
        assert At(r.accums[i].cursors, s, m);
      }
    }
  }

  // An accumulator is flushed

  lemma TakeLines(st: State, id: StreamID)
    requires AllLined(st) && id in st.accums
    ensures AllLined(TakeBatch(st, id)) && Lined(st.log.lines, st.accums[id].cursors)
  {
  }

  /** What is flushed, or still held. */
  lemma TakeHolds(st: State, id: StreamID, s: Source, m: int)
    requires id in st.accums && HeldAt(st, s, m)
    ensures At(st.accums[id].cursors, s, m) || HeldAt(TakeBatch(st, id), s, m)
  {
    if InAccums(st.accums, s, m) && !At(st.accums[id].cursors, s, m) {
      var i :| i in st.accums && At(st.accums[i].cursors, s, m);
      assert i in TakeBatch(st, id).accums;
    }
  }

  lemma SkipLines(st: State, id: StreamID)
    requires AllLined(st) && id in st.accums
    ensures AllLined(FlushEmpty(st, id))
  {
  }

  lemma SkipHolds(ck: Cursors, st: State, id: StreamID, s: Source)
    requires AllLined(st) && id in st.accums && Held(st, s) && Onward(st.log.lines, s, ck) && CheckpointKnown(ck, st, s)
    ensures Held(FlushEmpty(st, id), s)
  {
    var m := Latest(st.log.lines, s);
    var r, cursors := FlushEmpty(st, id), st.accums[id].cursors;
    if m >= 0 {
      TakeHolds(st, id, s, m);
      if At(cursors, s, m) || At(st.ck, s, m) {
        assert Lined(st.log.lines, cursors);
        AdvanceHolds(st.log.lines, ck, st.ck, cursors, s);
        assert At(r.ck, s, m);
      } else {
        assert HeldAt(r, s, m);
      }
    }
  }

  /** A batch that fits goes to the end of the metadata. */
  lemma AppendKeepsMeta(cfg: Config, st: State, batch: Batch, cursors: Cursors)
    requires Aligned(cfg, st.spool, st.meta, st.log.flushed)
    ensures var r := AppendToSpool(cfg, st, batch, cursors);
            && (Clean(r.log) ==> Clean(st.log) && r.meta == st.meta + [cursors])
            && (forall i :: 0 <= i < |r.meta| ==> r.meta[i] == cursors || r.meta[i] in st.meta)
  {
    var r := AppendToSpool(cfg, st, batch, cursors);
    if cfg.Fits(batch) {
      AppendRefines(cfg.limits, st.spool, cfg.marshal(batch));
    }
  }

  lemma SpoolHolds(cfg: Config, st: State, id: StreamID, s: Source)
    requires AllLined(st) && id in st.accums && (Clean(st.log) ==> Held(st, s)) && Aligned(cfg, st.spool, st.meta, st.log.flushed)
    ensures var r := SpoolMove(cfg, st, id); AllLined(r) && (Clean(r.log) ==> Clean(st.log) && Held(r, s))
  {
    var a, r, cursors := NoteOverflow(cfg, TakeBatch(st, id)), SpoolMove(cfg, st, id), st.accums[id].cursors;
    TakeLines(st, id);
    AlignedLater(cfg, st.spool, st.meta, st.log.flushed, Entry(Some(BuildBatch(st, id)), cursors));
    AppendKeepsMeta(cfg, a, BuildBatch(st, id), cursors);
    var m := Latest(st.log.lines, s);
    if Clean(r.log) && m >= 0 {
      TakeHolds(st, id, s, m);
      MetaHolds(st.meta, cursors, s, m);
    }
  }

  lemma MetaHolds(meta: seq<Cursors>, cursors: Cursors, s: Source, m: int)
    ensures InMeta(meta, s, m) || At(cursors, s, m) ==> InMeta(meta + [cursors], s, m)
  {
    if InMeta(meta, s, m) {
      var i :| 0 <= i < |meta| && At(meta[i], s, m);
      assert At((meta + [cursors])[i], s, m);
    } else if At(cursors, s, m) {
      assert At((meta + [cursors])[|meta|], s, m);
    }
  }

  lemma WindowHolds(pending: seq<Outstanding>, o: Outstanding, s: Source, m: int)
    ensures InWindow(pending, s, m) || (!o.fromSpool && At(o.cursors, s, m)) ==> InWindow(pending + [o], s, m)
  {
    if InWindow(pending, s, m) {
      var i :| 0 <= i < |pending| && !pending[i].fromSpool && At(pending[i].cursors, s, m);
      assert (pending + [o])[i] == pending[i];
    } else if !o.fromSpool && At(o.cursors, s, m) {
      assert (pending + [o])[|pending|] == o;
    }
  }

  lemma SendHolds(st: State, id: StreamID, s: Source)
    requires AllLined(st) && id in st.accums && Held(st, s)
    ensures AllLined(SendMove(st, id)) && Held(SendMove(st, id), s)
  {
    var o := Outstanding(BuildBatch(st, id), st.accums[id].cursors, false);
    TakeLines(st, id);
    var m := Latest(st.log.lines, s);
    if m >= 0 {
      TakeHolds(st, id, s, m);
      WindowHolds(st.pending, o, s, m);
    }
  }

  // Replays

  lemma ReplayLines(st: State, b: Batch)
    requires AllLined(st)
    ensures AllLined(ReplayMove(st, b))
  {
  }

  lemma ReplayHolds(st: State, b: Batch, s: Source)
    requires Held(st, s)
    ensures Held(ReplayMove(st, b), s)
  {
    var m := Latest(st.log.lines, s);
    WindowHolds(st.pending, Outstanding(b, FrontMeta(st), true), s, m);
  }

  /** What is released has no cursor to lose, or its cursors are in the checkpoint. */
  lemma PopHolds(meta: seq<Cursors>, s: Source, m: int)
    requires InMeta(meta, s, m)
    ensures At(meta[0], s, m) || InMeta(PopMeta(meta), s, m)
  {
    var i :| 0 <= i < |meta| && At(meta[i], s, m);
    if i > 0 {
      assert At(PopMeta(meta)[i - 1], s, m);
    }
  }

  lemma CorruptLines(cfg: Config, st: State)
    requires AllLined(st)
    ensures AllLined(DropCorrupt(cfg, st)) && DropCorrupt(cfg, st).meta == PopMeta(st.meta)
    ensures Clean(DropCorrupt(cfg, st).log) == Clean(st.log)
  {
  }

  /** An entry that does not decode is none of this run's, so its cursors are unknown. */
  lemma CorruptIsUnknown(cfg: Config, q: Spool, meta: seq<Cursors>, flushed: seq<Entry>)
    requires Aligned(cfg, q, meta, flushed) && Len(q) > 0 && cfg.unmarshal(q.Fifo()[0]).None?
    requires forall i :: 0 <= i < |flushed| && flushed[i].batch.None? ==> flushed[i].cursors == map[]
    ensures meta[0] == map[]
  {
    assert Known(flushed, cfg.unmarshal(q.Fifo()[0]), meta[0]);
  }

  lemma CorruptHolds(cfg: Config, st: State, s: Source)
    requires AllLined(st) && Held(st, s) && Aligned(cfg, st.spool, st.meta, st.log.flushed)
    requires Len(st.spool) > 0 && cfg.unmarshal(st.spool.Fifo()[0]).None?
    ensures Held(DropCorrupt(cfg, st), s)
  {
    CorruptIsUnknown(cfg, st.spool, st.meta, st.log.flushed);
    CorruptLines(cfg, st);
    var m := Latest(st.log.lines, s);
    if m >= 0 && InMeta(st.meta, s, m) {
      PopHolds(st.meta, s, m);
      assert !At(map[], s, m);
    }
  }

  // Acks

  lemma SettleShrinks(cfg: Config, st: State)
    requires st.pending != [] && AllLined(st)
    ensures var r := SettleMove(cfg, st, true);
            && AllLined(r) && r.log.lines == st.log.lines && r.accums == st.accums && r.pending == st.pending[1..]
            && r.meta == (if st.pending[0].fromSpool then PopMeta(st.meta) else st.meta)
            && r.ck == Advance(st.ck, st.pending[0].cursors)
            && Clean(r.log) == Clean(st.log)
  {
    SettleMoveLog(cfg, st, true);
  }

  lemma WindowPop(pending: seq<Outstanding>, s: Source, m: int)
    requires InWindow(pending, s, m)
    ensures (!pending[0].fromSpool && At(pending[0].cursors, s, m)) || InWindow(pending[1..], s, m)
  {
    var i :| 0 <= i < |pending| && !pending[i].fromSpool && At(pending[i].cursors, s, m);
    if i > 0 {
      assert pending[1..][i - 1] == pending[i];
    }
  }

  lemma AcceptHolds(cfg: Config, ck: Cursors, st: State, s: Source)
    requires AllLined(st) && Held(st, s) && st.pending != [] && Onward(st.log.lines, s, ck) && CheckpointKnown(ck, st, s)
    requires st.pending[0].fromSpool ==> st.meta != [] && st.meta[0] == st.pending[0].cursors
    ensures AllLined(SettleMove(cfg, st, true)) && Held(SettleMove(cfg, st, true), s)
  {
    var r, o := SettleMove(cfg, st, true), st.pending[0];
    var m := Latest(st.log.lines, s);
    SettleShrinks(cfg, st);
    if m >= 0 {
      if At(o.cursors, s, m) || At(st.ck, s, m) {
        assert Lined(st.log.lines, o.cursors);
        AdvanceHolds(st.log.lines, ck, st.ck, o.cursors, s);
      } else if InWindow(st.pending, s, m) {
        WindowPop(st.pending, s, m);
      } else if InMeta(st.meta, s, m) && o.fromSpool {
        PopHolds(st.meta, s, m);
      }
    }
  }

  lemma RefusalIsUnclean(cfg: Config, st: State)
    requires st.pending != [] && AllLined(st)
    ensures AllLined(SettleMove(cfg, st, false)) && !Clean(SettleMove(cfg, st, false).log)
  {
    SettleMoveLog(cfg, st, false);
  }

  // Demotion

  /** The cursors of the fresh batches, in order. */
  function FreshCursors(batches: seq<Outstanding>): seq<Cursors> {
    if batches == [] then []
    else (if batches[0].fromSpool then [] else [batches[0].cursors]) + FreshCursors(batches[1..])
  }

  ghost predicate Extends(a: State, b: State, more: seq<Cursors>) {
    && (Clean(b.log) ==> Clean(a.log) && b.meta == a.meta + more)
    && (forall i :: 0 <= i < |b.meta| ==> b.meta[i] in more || b.meta[i] in a.meta)
  }

  lemma ExtendsOn(a: State, b: State, c: State, x: Cursors, more: seq<Cursors>)
    requires Extends(a, b, [x]) && Extends(b, c, more)
    ensures Extends(a, c, [x] + more)
  {
    assert (a.meta + [x]) + more == a.meta + ([x] + more);
    forall i | 0 <= i < |c.meta|
      ensures c.meta[i] in [x] + more || c.meta[i] in a.meta
    {
      if c.meta[i] in b.meta {
        var j :| 0 <= j < |b.meta| && b.meta[j] == c.meta[i];
      }
    }
  }

  lemma {:induction false} DemoteKeepsMeta(cfg: Config, st: State, batches: seq<Outstanding>)
    requires cfg.Lossless() && Aligned(cfg, st.spool, st.meta, st.log.flushed) && OwnCursors(st.log.flushed, batches)
    ensures Extends(st, Demote(cfg, st, batches), FreshCursors(batches))
    decreases |batches|
  {
    if batches != [] {
      var o := batches[0];
      if o.fromSpool {
        DemoteKeepsMeta(cfg, st, batches[1..]);
        assert [] + FreshCursors(batches[1..]) == FreshCursors(batches[1..]);
      } else {
        var next := AppendToSpool(cfg, st, o.batch, o.cursors);
        AppendKeepsMeta(cfg, st, o.batch, o.cursors);
        AppendAligned(cfg, st.spool, st.meta, st.log.flushed, o.batch, o.cursors);
        DemoteKeepsMeta(cfg, next, batches[1..]);
        assert Extends(st, next, [o.cursors]);
        ExtendsOn(st, next, Demote(cfg, next, batches[1..]), o.cursors, FreshCursors(batches[1..]));
      }
    } else {
      assert st.meta + [] == st.meta;
    }
  }

  lemma {:induction false} FreshHolds(batches: seq<Outstanding>, s: Source, m: int)
    ensures InWindow(batches, s, m) ==> InMeta(FreshCursors(batches), s, m)
    ensures forall cs :: cs in FreshCursors(batches) ==> exists i :: 0 <= i < |batches| && batches[i].cursors == cs
  {
    if batches != [] {
      var head := if batches[0].fromSpool then [] else [batches[0].cursors];
      var rest := FreshCursors(batches[1..]);
      FreshHolds(batches[1..], s, m);
      if InWindow(batches, s, m) {
        WindowPop(batches, s, m);
        assert !batches[0].fromSpool ==> head[0] == batches[0].cursors;
        LaterMeta(head, rest, s, m);
      }
      forall cs | cs in FreshCursors(batches)
        ensures exists i :: 0 <= i < |batches| && batches[i].cursors == cs
      {
        if cs in rest {
          var i :| 0 <= i < |batches[1..]| && batches[1..][i].cursors == cs;
          assert batches[i + 1].cursors == cs;
        }
      }
    }
  }

  lemma LaterMeta(a: seq<Cursors>, b: seq<Cursors>, s: Source, m: int)
    ensures InMeta(a, s, m) || InMeta(b, s, m) ==> InMeta(a + b, s, m)
  {
    if InMeta(a, s, m) {
      var i :| 0 <= i < |a| && At(a[i], s, m);
      assert At((a + b)[i], s, m);
    } else if InMeta(b, s, m) {
      var i :| 0 <= i < |b| && At(b[i], s, m);
      assert At((a + b)[|a| + i], s, m);
    }
  }

  lemma DemoteAllKeeps(cfg: Config, st: State)
    requires cfg.Lossless() && Inv(cfg, st)
    ensures var r := DemoteAll(cfg, st);
            && r.accums == st.accums && r.ck == st.ck && r.pending == [] && r.log.lines == st.log.lines && r.log.flushed == st.log.flushed
            && Extends(st, r, FreshCursors(st.pending))
  {
    DemoteKeepsMeta(cfg, NoteReorder(st), st.pending);
    DemoteSame(cfg, NoteReorder(st), st.pending);
  }

  lemma DemoteHolds(cfg: Config, st: State, s: Source)
    requires cfg.Lossless() && Inv(cfg, st) && AllLined(st) && (Clean(st.log) ==> Held(st, s))
    ensures var r := DemoteAll(cfg, st); AllLined(r) && (Clean(r.log) ==> Clean(st.log) && Held(r, s))
  {
    var r := DemoteAll(cfg, st);
    var m := Latest(st.log.lines, s);
    DemoteAllKeeps(cfg, st);
    FreshHolds(st.pending, s, m);
    LaterMeta(st.meta, FreshCursors(st.pending), s, m);
    forall i | 0 <= i < |r.meta|
      ensures Lined(r.log.lines, r.meta[i])
    {
      if r.meta[i] in FreshCursors(st.pending) {
        var j :| 0 <= j < |st.pending| && st.pending[j].cursors == r.meta[i];
      }
    }
  }

  // Every move

  ghost predicate Progress(cfg: Config, ck: Cursors, st: State, s: Source) {
    AllLined(st) && (Clean(st.log) ==> Held(st, s))
  }

  lemma QuietProgress(cfg: Config, ck: Cursors, st: State, m: Move, s: Source)
    requires Progress(cfg, ck, st, s) && Can(cfg, st, m) && cfg.labels(s).Some?
    requires m.Rejected? || m.Folded? || m.Relinked? || m.Committed?
    ensures Progress(cfg, ck, Do(cfg, st, m), s)
  {
    match m
    case Rejected(line) =>
      LatestMore(st.log.lines, line, s);
      LinesLater(st, TurnAway(st, line));
    case Folded(id, line, now) =>
      FoldLines(cfg, st, id, line, now);
      if Clean(st.log) { FoldHolds(cfg, st, id, line, now, s); }
    case _ =>
  }

  lemma FlushProgress(cfg: Config, ck: Cursors, st: State, m: Move, s: Source)
    requires Progress(cfg, ck, st, s) && Can(cfg, st, m) && (m.Skipped? || m.Spooled? || m.SentFresh?)
    requires Inv(cfg, st) && Onward(st.log.lines, s, ck) && CheckpointKnown(ck, st, s)
    ensures Progress(cfg, ck, Do(cfg, st, m), s)
  {
    match m
    case Skipped(id) =>
      SkipLines(st, id);
      if Clean(st.log) { SkipHolds(ck, st, id, s); }
    case Spooled(id) => SpoolHolds(cfg, st, id, s);
    case SentFresh(id) => if Clean(st.log) { SendHolds(st, id, s); } else { TakeLines(st, id); }
  }

  lemma ReplayProgress(cfg: Config, ck: Cursors, st: State, b: Batch, s: Source)
    requires Progress(cfg, ck, st, s)
    ensures Progress(cfg, ck, ReplayMove(st, b), s)
  {
    ReplayLines(st, b);
    if Clean(st.log) {
      ReplayHolds(st, b, s);
    }
  }

  lemma CorruptProgress(cfg: Config, ck: Cursors, st: State, s: Source)
    requires Progress(cfg, ck, st, s) && Inv(cfg, st) && Can(cfg, st, Corrupt)
    ensures Progress(cfg, ck, DropCorrupt(cfg, st), s)
  {
    CorruptLines(cfg, st);
    if Clean(st.log) {
      CorruptHolds(cfg, st, s);
    }
  }

  lemma AcceptProgress(cfg: Config, ck: Cursors, st: State, s: Source)
    requires Progress(cfg, ck, st, s) && st.pending != [] && Faithful(cfg, st, 0)
    requires Onward(st.log.lines, s, ck) && CheckpointKnown(ck, st, s)
    ensures Progress(cfg, ck, SettleMove(cfg, st, true), s)
  {
    SettleShrinks(cfg, st);
    if Clean(st.log) {
      assert FrontOk(cfg, st.spool, st.meta, st.pending, st.log.displaced);
      AcceptHolds(cfg, ck, st, s);
    }
  }

  lemma WindowProgress(cfg: Config, ck: Cursors, st: State, m: Move, s: Source)
    requires Progress(cfg, ck, st, s) && Can(cfg, st, m) && (m.SentReplay? || m.Corrupt? || m.Settled? || m.Demoted?)
    requires cfg.Lossless() && Inv(cfg, st) && Faithful(cfg, st, 0) && Onward(st.log.lines, s, ck) && CheckpointKnown(ck, st, s)
    ensures Progress(cfg, ck, Do(cfg, st, m), s)
  {
    match m
    case SentReplay => ReplayProgress(cfg, ck, st, cfg.unmarshal(st.spool.Fifo()[0]).value, s);
    case Corrupt => CorruptProgress(cfg, ck, st, s);
    case Settled(accepted) => if accepted { AcceptProgress(cfg, ck, st, s); } else { RefusalIsUnclean(cfg, st); }
    case Demoted => DemoteHolds(cfg, st, s);
  }

  lemma OnwardBefore(lines: seq<Line>, more: seq<Line>, s: Source, ck: Cursors)
    requires Onward(more, s, ck) && lines <= more
    ensures Onward(lines, s, ck)
  {
    assert forall i :: 0 <= i < |lines| ==> lines[i] == more[i];
  }

  lemma DoProgress(cfg: Config, ck: Cursors, st: State, m: Move, s: Source)
    requires Progress(cfg, ck, st, s) && cfg.labels(s).Some? && cfg.Lossless()
    requires Inv(cfg, st) && Faithful(cfg, st, 0) && Traceable(ck, st) && Onward(st.log.lines, s, ck)
    ensures Progress(cfg, ck, Do(cfg, st, m), s)
  {
    if Can(cfg, st, m) {
      assert s in st.ck ==> InPlay(st, s, st.ck[s]);
      if m.Rejected? || m.Folded? || m.Relinked? || m.Committed? {
        QuietProgress(cfg, ck, st, m, s);
      } else if m.Skipped? || m.Spooled? || m.SentFresh? {
        FlushProgress(cfg, ck, st, m, s);
      } else {
        WindowProgress(cfg, ck, st, m, s);
      }
    }
  }

  lemma DoLines(cfg: Config, st: State, m: Move)
    ensures st.log.lines <= Do(cfg, st, m).log.lines
  {
    if Can(cfg, st, m) {
      match m
      case Settled(accepted) => SettleMoveLog(cfg, st, accepted);
      case Demoted => DemoteSame(cfg, NoteReorder(st), st.pending);
      case _ =>
    }
  }

  lemma StartProgress(cfg: Config, spool: Spool, ck: Cursors, s: Source)
    ensures Progress(cfg, ck, Start(cfg, spool, ck), s)
  {
  }

  lemma {:induction false} PlayProgress(cfg: Config, spool: Spool, ck: Cursors, moves: seq<Move>, s: Source)
    requires cfg.Ok() && cfg.Lossless() && Inherited(ck) && cfg.labels(s).Some?
    requires Onward(Play(cfg, Start(cfg, spool, ck), moves).log.lines, s, ck)
    ensures Progress(cfg, ck, Play(cfg, Start(cfg, spool, ck), moves), s)
    decreases |moves|
  {
    if moves == [] {
      StartProgress(cfg, spool, ck, s);
    } else {
      var k := |moves| - 1;
      var st := Play(cfg, Start(cfg, spool, ck), moves[..k]);
      DoLines(cfg, st, moves[k]);
      OnwardBefore(st.log.lines, Do(cfg, st, moves[k]).log.lines, s, ck);
      PlayProgress(cfg, spool, ck, moves[..k], s);
      PlayInv(cfg, spool, ck, moves[..k]);
      PlayFaithful(cfg, spool, ck, moves[..k], 0);
      PlayTraceable(cfg, spool, ck, moves[..k]);
      DoProgress(cfg, ck, st, moves[k], s);
    }
  }

  /** At every moment of every run that loses and refuses nothing: the cursor of a source's last line is in
      an accumulator, in the window, with a spooled batch, or in the checkpoint. */
  lemma LastLineIsHeld(cfg: Config, spool: Spool, ck: Cursors, st: State, s: Source)
    requires cfg.Ok() && cfg.Lossless() && Inherited(ck) && cfg.labels(s).Some? && Reachable(cfg, spool, ck, st)
    requires Clean(st.log) && Onward(st.log.lines, s, ck)
    ensures Held(st, s)
  {
    var moves :| st == Play(cfg, Start(cfg, spool, ck), moves);
    PlayProgress(cfg, spool, ck, moves, s);
  }

  /** Nothing is on its way any more. */
  predicate Empty(st: State) {
    st.accums == map[] && st.pending == [] && st.spool.Fifo() == []
  }

  /** Once nothing is on its way any more, each source is checkpointed at its last line: the next process
      is not sent back to what has been settled. */
  lemma CheckpointCatchesUp(cfg: Config, spool: Spool, ck: Cursors, st: State, s: Source)
    requires cfg.Ok() && cfg.Lossless() && Inherited(ck) && cfg.labels(s).Some? && Reachable(cfg, spool, ck, st)
    requires Clean(st.log) && Onward(st.log.lines, s, ck) && Empty(st) && Latest(st.log.lines, s) >= 0
    ensures s in st.ck && st.ck[s].line == Latest(st.log.lines, s)
    ensures var last := st.log.lines[Latest(st.log.lines, s)]; st.ck[s].file == last.file && st.ck[s].offset == last.offset
  {
    LastLineIsHeld(cfg, spool, ck, st, s);
    var moves :| st == Play(cfg, Start(cfg, spool, ck), moves);
    PlayInv(cfg, spool, ck, moves);
    PlayTraceable(cfg, spool, ck, moves);
    assert |st.meta| == 0;
    assert InPlay(st, s, st.ck[s]);
  }
}
