/** Where cursors come from: each that is in the checkpoint, or may get there, is the cursor of a line of
    this run or was in the checkpoint when the run began. */
module ShipperOrigin {
  import opened SpoolQueue
  import opened ShipperModel
  import opened ShipperLive
  import opened ShipperMoves
  import opened ShipperGap

  /** The cursor of a line, as addLine records it. */
  predicate CursorOf(lines: seq<Line>, s: Source, c: Cursor) {
    && 0 <= c.line < |lines| && lines[c.line].source == s
    && c.file == lines[c.line].file && c.offset == lines[c.line].offset
  }

  predicate Origin(ck: Cursors, lines: seq<Line>, s: Source, c: Cursor) {
    CursorOf(lines, s, c) || (c.line < 0 && Has(ck, s, c))
  }

  ghost predicate FromLines(accums: map<StreamID, Accum>, lines: seq<Line>) {
    forall id, s :: id in accums && s in accums[id].cursors ==> CursorOf(lines, s, accums[id].cursors[s])
  }

  ghost predicate Traceable(ck: Cursors, st: State) {
    && (forall s, c :: InPlay(st, s, c) ==> Origin(ck, st.log.lines, s, c))
    && FromLines(st.accums, st.log.lines)
    && (forall s :: s in ck ==> s in st.ck && s in st.committed)
  }

  /** b has no cursor that a has not, but those of `extra`, and forgets no source. */
  lemma NarrowsTraceable(ck: Cursors, a: State, b: State, extra: Cursors)
    requires Traceable(ck, a) && Narrows(a, b, extra)
    requires forall s, c :: Has(extra, s, c) ==> CursorOf(a.log.lines, s, c)
    requires forall s :: s in ck ==> s in b.ck && s in b.committed
    ensures Traceable(ck, b)
  {
    forall s, c | InPlay(b, s, c)
      ensures Origin(ck, b.log.lines, s, c)
    {
      assert InPlay(a, s, c) || Has(extra, s, c);
    }
  }

  lemma TakenTraceable(ck: Cursors, st: State, id: StreamID)
    requires Traceable(ck, st) && id in st.accums
    ensures Traceable(ck, TakeBatch(st, id))
    ensures forall s, c :: Has(st.accums[id].cursors, s, c) ==> CursorOf(st.log.lines, s, c)
  {
    SameInPlay(st, TakeBatch(st, id));
  }

  lemma FlushTraceable(cfg: Config, ck: Cursors, st: State, m: Move)
    requires Traceable(ck, st) && Can(cfg, st, m) && (m.Skipped? || m.Spooled? || m.SentFresh?)
    ensures Traceable(ck, Do(cfg, st, m))
  {
    var a, b, cursors := TakeBatch(st, m.id), BuildBatch(st, m.id), st.accums[m.id].cursors;
    var r := Do(cfg, st, m);
    TakenTraceable(ck, st, m.id);
    match m
    case Skipped(id) =>
    case Spooled(id) => MetaNarrows(a, r, cfg.Fits(b), cursors, |Lost(cfg, st.spool, b)|);
    case SentFresh(id) => PushNarrows(a, Outstanding(b, cursors, false));
    NarrowsTraceable(ck, a, r, cursors);
  }

  lemma FoldTraceable(cfg: Config, ck: Cursors, st: State, id: StreamID, line: Line, now: nat)
    requires Traceable(ck, st)
    ensures Traceable(ck, FoldMove(cfg, st, id, line, now))
  {
    var r := FoldMove(cfg, st, id, line, now);
    SameInPlay(st, r);
    OneLineMore(ck, st, r, line);
    forall i, s | i in r.accums && s in r.accums[i].cursors
      ensures CursorOf(r.log.lines, s, r.accums[i].cursors[s])
    {
      if i in st.accums && s in st.accums[i].cursors {
        assert CursorOf(st.log.lines, s, st.accums[i].cursors[s]);
      }
    }
  }

  lemma OneLineMore(ck: Cursors, st: State, r: State, line: Line)
    requires Traceable(ck, st) && r.log.lines == st.log.lines + [line]
    requires forall s, c :: InPlay(r, s, c) <==> InPlay(st, s, c)
    ensures forall s, c :: InPlay(r, s, c) ==> Origin(ck, r.log.lines, s, c)
    ensures FromLines(st.accums, r.log.lines)
  {
    forall s, c | InPlay(r, s, c)
      ensures Origin(ck, r.log.lines, s, c)
    {
      assert InPlay(st, s, c) && Origin(ck, st.log.lines, s, c);
    }
    forall i, s | i in st.accums && s in st.accums[i].cursors
      ensures CursorOf(r.log.lines, s, st.accums[i].cursors[s])
    {
      assert CursorOf(st.log.lines, s, st.accums[i].cursors[s]);
    }
  }

  lemma RestTraceable(cfg: Config, ck: Cursors, st: State, m: Move)
    requires Traceable(ck, st) && Can(cfg, st, m)
    requires m.SentReplay? || m.Corrupt? || m.Settled? || m.Demoted? || m.Relinked? || m.Committed?
    ensures Traceable(ck, Do(cfg, st, m))
  {
    match m
    case SentReplay => ReplayNarrows(st, cfg.unmarshal(st.spool.Fifo()[0]).value);
    case Corrupt => CorruptNarrows(cfg, st);
    case Settled(accepted) => SettleNarrows(cfg, st, accepted); SettleCursors(cfg, st, accepted);
    case Demoted => DemoteAllNarrows(cfg, st); DemoteSame(cfg, NoteReorder(st), st.pending);
    case Relinked(link) =>
    case Committed =>
    NarrowsTraceable(ck, st, Do(cfg, st, m), map[]);
  }

  lemma DoTraceable(cfg: Config, ck: Cursors, st: State, m: Move)
    requires Traceable(ck, st)
    ensures Traceable(ck, Do(cfg, st, m))
  {
    if Can(cfg, st, m) {
      match m
      case Rejected(line) =>
        SameInPlay(st, TurnAway(st, line));
        OneLineMore(ck, st, TurnAway(st, line), line);
      case Folded(id, line, now) => FoldTraceable(cfg, ck, st, id, line, now);
      case Skipped(id) => FlushTraceable(cfg, ck, st, m);
      case Spooled(id) => FlushTraceable(cfg, ck, st, m);
      case SentFresh(id) => FlushTraceable(cfg, ck, st, m);
      case _ => RestTraceable(cfg, ck, st, m);
    }
  }

  lemma {:induction false} PlayTraceable(cfg: Config, spool: Spool, ck: Cursors, moves: seq<Move>)
    requires Inherited(ck)
    ensures Traceable(ck, Play(cfg, Start(cfg, spool, ck), moves))
    decreases |moves|
  {
    if moves != [] {
      var before := moves[..|moves| - 1];
      PlayTraceable(cfg, spool, ck, before);
      DoTraceable(cfg, ck, Play(cfg, Start(cfg, spool, ck), before), moves[|moves| - 1]);
    }
  }

  /** In every run the committed cursor of a source is that of one of its lines, or the one that the run
      began with: it points into the file that the line came from, right after it. */
  lemma CommittedIsALine(cfg: Config, spool: Spool, ck: Cursors, inputs: seq<Input>, s: Source)
    requires cfg.Ok() && Inherited(ck)
    ensures var st := Run(cfg, Start(cfg, spool, ck), inputs);
            && (s in st.committed ==> CursorOf(st.log.lines, s, st.committed[s]) || (s in ck && st.committed[s] == ck[s]))
            && (s in ck ==> s in st.committed)
  {
    EveryRunIsReachable(cfg, spool, ck, inputs);
    var st := Run(cfg, Start(cfg, spool, ck), inputs);
    var moves :| st == Play(cfg, Start(cfg, spool, ck), moves);
    PlayTraceable(cfg, spool, ck, moves);
    if s in st.committed {
      assert InPlay(st, s, st.committed[s]);
    }
  }
}
