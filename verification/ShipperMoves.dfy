/** The shipper's event loop taken apart into moves that each touch one queue. Every step, run and
    shutdown is a sequence of moves, so what every move keeps holds at every moment of every run. */
module ShipperMoves {
  import opened Prelude
  import opened SpoolQueue
  import opened ShipperModel
  import opened ShipperLive

  /** What no batch, record or cursor depends on: the stream, the timers, the commit. */
  datatype Link = Link(
    connected: bool,
    paused: bool,
    pauseArmed: bool,
    retryArmed: bool,
    attempt: nat,
    sent: seq<Batch>,
    sendsLeft: nat)

  function Relink(st: State, l: Link): State {
    st.(connected := l.connected, paused := l.paused, pauseArmed := l.pauseArmed, retryArmed := l.retryArmed,
        attempt := l.attempt, sent := l.sent, sendsLeft := l.sendsLeft)
  }

  function LinkOf(st: State): Link {
    Link(st.connected, st.paused, st.pauseArmed, st.retryArmed, st.attempt, st.sent, st.sendsLeft)
  }

  datatype Move =
    | Rejected(line: Line)
    | Folded(id: StreamID, line: Line, now: nat)
    | Skipped(id: StreamID)
    | Spooled(id: StreamID)
    | SentFresh(id: StreamID)
    | SentReplay
    | Corrupt
    | Settled(accepted: bool)
    | Demoted
    | Relinked(link: Link)
    | Committed

  predicate Can(cfg: Config, st: State, m: Move) {
    match m
    case Rejected(line) => cfg.labels(line.source).None?
    case Folded(id, line, _) => cfg.labels(line.source) == Some(id)
    case Skipped(id) => id in st.accums && st.accums[id].records == []
    case Spooled(id) => id in st.accums && st.accums[id].records != [] && !MaySend(cfg, st)
    case SentFresh(id) => id in st.accums && st.accums[id].records != [] && MaySend(cfg, st)
    case SentReplay =>
      && st.connected && !st.paused && st.pending == []
      && Len(st.spool) > 0 && cfg.unmarshal(st.spool.Fifo()[0]).Some?
    case Corrupt => st.pending == [] && Len(st.spool) > 0 && cfg.unmarshal(st.spool.Fifo()[0]).None?
    case Settled(_) => st.pending != []
    case Relinked(link) => !link.connected || link.paused ==> st.pending == []
    case _ => true
  }

  function Folding(cfg: Config, st: State, id: StreamID, line: Line, now: nat): Accum {
    Attach(if id in st.accums then st.accums[id] else NewAccum(cfg, now), line, |st.log.lines|, cfg.Shippable(id, line))
  }

  /** The line goes into its accumulator, which is created if need be. */
  function FoldMove(cfg: Config, st: State, id: StreamID, line: Line, now: nat): State {
    st.(accums := st.accums[id := Folding(cfg, st, id, line, now)],
        log := st.log.(lines := st.log.lines + [line],
                       droppedFresh := When(!cfg.Shippable(id, line), st.log.droppedFresh, [|st.log.lines|])))
  }

  lemma FoldMoveIsFold(cfg: Config, st: State, id: StreamID, line: Line, now: nat)
    ensures FoldMove(cfg, st, id, line, now) == Fold(cfg, EnsureAccum(cfg, st, id, now), id, line)
  {
    var a := Folding(cfg, st, id, line, now);
    assert st.accums[id := NewAccum(cfg, now)][id := a] == st.accums[id := a];
  }

  /** A full window, a pause, a backlog or a lost stream: the new batch goes to the spool. */
  function SpoolMove(cfg: Config, st: State, id: StreamID): State
    requires id in st.accums
  {
    AppendToSpool(cfg, NoteOverflow(cfg, TakeBatch(st, id)), BuildBatch(st, id), st.accums[id].cursors)
  }

  function SendMove(st: State, id: StreamID): State
    requires id in st.accums
  {
    PushPending(TakeBatch(st, id), Outstanding(BuildBatch(st, id), st.accums[id].cursors, false))
  }

  function ReplayMove(st: State, b: Batch): State {
    PushPending(st, Outstanding(b, FrontMeta(st), true))
  }

  function SettleMove(cfg: Config, st: State, accepted: bool): State
    requires st.pending != []
  {
    if accepted then Accept(cfg, st) else Refuse(cfg, st)
  }

  function CommitMove(st: State): State {
    st.(committed := st.ck)
  }

  /** A move that is not possible leaves the state alone. */
  function Do(cfg: Config, st: State, m: Move): State {
    if !Can(cfg, st, m) then st
    else match m
      case Rejected(line) => TurnAway(st, line)
      case Folded(id, line, now) => FoldMove(cfg, st, id, line, now)
      case Skipped(id) => FlushEmpty(st, id)
      case Spooled(id) => SpoolMove(cfg, st, id)
      case SentFresh(id) => SendMove(st, id)
      case SentReplay => ReplayMove(st, cfg.unmarshal(st.spool.Fifo()[0]).value)
      case Corrupt => DropCorrupt(cfg, st)
      case Settled(accepted) => SettleMove(cfg, st, accepted)
      case Demoted => DemoteAll(cfg, st)
      case Relinked(link) => Relink(st, link)
      case Committed => CommitMove(st)
  }

  /** Moves that leave the window and the spool alone. */
  predicate Aside(m: Move) {
    m.Rejected? || m.Folded? || m.Skipped? || m.Relinked? || m.Committed?
  }

  predicate SameQueues(a: State, b: State) {
    && b.pending == a.pending && b.spool == a.spool && b.meta == a.meta
    && b.log == a.log.(lines := b.log.lines, droppedFresh := b.log.droppedFresh, skipped := b.log.skipped,
                       hasty := b.log.hasty)
  }

  lemma FoldKeepsQueues(cfg: Config, st: State, id: StreamID, line: Line, now: nat)
    ensures SameQueues(st, FoldMove(cfg, st, id, line, now))
  {
  }

  lemma TurnAwayKeepsQueues(st: State, line: Line)
    ensures SameQueues(st, TurnAway(st, line))
  {
  }

  lemma SkipKeepsQueues(st: State, id: StreamID)
    requires id in st.accums
    ensures SameQueues(st, FlushEmpty(st, id))
  {
  }

  lemma RelinkKeepsQueues(st: State, link: Link)
    ensures SameQueues(st, Relink(st, link))
  {
  }

  lemma CommitKeepsQueues(st: State)
    ensures SameQueues(st, CommitMove(st))
  {
  }

  lemma AsideKeepsQueues(cfg: Config, st: State, m: Move)
    requires Aside(m)
    ensures SameQueues(st, Do(cfg, st, m))
  {
    if Can(cfg, st, m) {
      match m
      case Rejected(line) => TurnAwayKeepsQueues(st, line);
      case Folded(id, line, now) => FoldKeepsQueues(cfg, st, id, line, now);
      case Skipped(id) => SkipKeepsQueues(st, id);
      case Relinked(link) => RelinkKeepsQueues(st, link);
      case Committed => CommitKeepsQueues(st);
    }
  }

  lemma SettleMoveLog(cfg: Config, st: State, accepted: bool)
    requires st.pending != []
    ensures SettleMove(cfg, st, accepted).log == SettleLog(st, st.pending[0], accepted)
  {
  }

  function Play(cfg: Config, st: State, moves: seq<Move>): State
    decreases |moves|
  {
    if moves == [] then st
    else Do(cfg, Play(cfg, st, moves[..|moves| - 1]), moves[|moves| - 1])
  }

  lemma {:induction false} PlayConcat(cfg: Config, st: State, a: seq<Move>, b: seq<Move>)
    ensures Play(cfg, st, a + b) == Play(cfg, Play(cfg, st, a), b)
    decreases |b|
  {
    if b == [] {
      assert a + b == a;
    } else {
      var k := |b| - 1;
      assert (a + b)[..|a + b| - 1] == a + b[..k];
      PlayConcat(cfg, st, a, b[..k]);
    }
  }

  /** b is reached from a by moves in which `lines` arrive. */
  ghost predicate Leads(cfg: Config, a: State, b: State, lines: seq<Line>) {
    && b.log.lines == a.log.lines + lines
    && exists moves :: Play(cfg, a, moves) == b
  }

  lemma LeadsNowhere(cfg: Config, a: State)
    ensures Leads(cfg, a, a, [])
  {
    assert Play(cfg, a, []) == a;
  }

  lemma LeadsOne(cfg: Config, a: State, m: Move, lines: seq<Line>)
    requires Do(cfg, a, m).log.lines == a.log.lines + lines
    ensures Leads(cfg, a, Do(cfg, a, m), lines)
  {
    assert [m][..0] == [];
    assert Play(cfg, a, [m]) == Do(cfg, Play(cfg, a, []), m);
  }

  lemma LeadsOn(cfg: Config, a: State, b: State, c: State, x: seq<Line>, y: seq<Line>)
    requires Leads(cfg, a, b, x) && Leads(cfg, b, c, y)
    ensures Leads(cfg, a, c, x + y)
  {
    var p :| Play(cfg, a, p) == b;
    var q :| Play(cfg, b, q) == c;
    PlayConcat(cfg, a, p, q);
    assert a.log.lines + x + y == a.log.lines + (x + y);
  }

  lemma LeadsQuietly(cfg: Config, a: State, b: State, c: State)
    requires Leads(cfg, a, b, []) && Leads(cfg, b, c, [])
    ensures Leads(cfg, a, c, [])
  {
    LeadsOn(cfg, a, b, c, [], []);
    assert [] + [] == Arrivals([]);
  }

  lemma CorruptLeads(cfg: Config, st: State)
    requires Can(cfg, st, Corrupt)
    ensures Leads(cfg, st, DropCorrupt(cfg, st), [])
  {
    LeadsOne(cfg, st, Corrupt, []);
  }

  lemma ReplayLeads(cfg: Config, st: State, b: Batch)
    requires Can(cfg, st, SentReplay) && cfg.unmarshal(st.spool.Fifo()[0]) == Some(b)
    ensures Leads(cfg, st, ReplayMove(st, b), [])
  {
    LeadsOne(cfg, st, SentReplay, []);
  }

  lemma SettleLeads(cfg: Config, st: State, accepted: bool)
    requires st.pending != []
    ensures Leads(cfg, st, SettleMove(cfg, st, accepted), [])
  {
    LeadsOne(cfg, st, Settled(accepted), []);
  }

  lemma SkipLeads(cfg: Config, st: State, id: StreamID)
    requires Can(cfg, st, Skipped(id))
    ensures Leads(cfg, st, FlushEmpty(st, id), [])
  {
    LeadsOne(cfg, st, Skipped(id), []);
  }

  lemma SpoolLeads(cfg: Config, st: State, id: StreamID)
    requires Can(cfg, st, Spooled(id))
    ensures Leads(cfg, st, SpoolMove(cfg, st, id), [])
  {
    LeadsOne(cfg, st, Spooled(id), []);
  }

  lemma SendLeads(cfg: Config, st: State, id: StreamID)
    requires Can(cfg, st, SentFresh(id))
    ensures Leads(cfg, st, SendMove(st, id), [])
  {
    LeadsOne(cfg, st, SentFresh(id), []);
  }

  lemma FoldMoveLeads(cfg: Config, st: State, id: StreamID, line: Line, now: nat)
    requires cfg.labels(line.source) == Some(id)
    ensures Leads(cfg, st, FoldMove(cfg, st, id, line, now), [line])
  {
    LeadsOne(cfg, st, Folded(id, line, now), [line]);
  }

  lemma RejectLeads(cfg: Config, st: State, line: Line)
    requires cfg.labels(line.source).None?
    ensures Leads(cfg, st, TurnAway(st, line), [line])
  {
    LeadsOne(cfg, st, Rejected(line), [line]);
  }

  lemma RelinkLeads(cfg: Config, a: State, b: State)
    requires b == Relink(a, LinkOf(b)) && (!b.connected || b.paused ==> b.pending == [])
    ensures Leads(cfg, a, b, [])
  {
    LeadsOne(cfg, a, Relinked(LinkOf(b)), []);
  }

  lemma AppendKeepsLines(cfg: Config, st: State, batch: Batch, cursors: Cursors)
    ensures AppendToSpool(cfg, st, batch, cursors).log.lines == st.log.lines
  {
  }

  lemma {:induction false} DemoteKeepsLines(cfg: Config, st: State, batches: seq<Outstanding>)
    ensures Demote(cfg, st, batches).log.lines == st.log.lines
    decreases |batches|
  {
    if batches != [] {
      var o := batches[0];
      AppendKeepsLines(cfg, st, o.batch, o.cursors);
      DemoteKeepsLines(cfg, if o.fromSpool then st else AppendToSpool(cfg, st, o.batch, o.cursors), batches[1..]);
    }
  }

  lemma DemoteAllLeads(cfg: Config, st: State)
    ensures Leads(cfg, st, DemoteAll(cfg, st), [])
  {
    DemoteKeepsLines(cfg, NoteReorder(st), st.pending);
    LeadsOne(cfg, st, Demoted, []);
  }

  lemma TeardownLeads(cfg: Config, st: State)
    ensures Leads(cfg, st, Teardown(cfg, st), [])
  {
    DemoteAllLeads(cfg, st);
    RelinkLeads(cfg, DemoteAll(cfg, st), Teardown(cfg, st));
    LeadsQuietly(cfg, st, DemoteAll(cfg, st), Teardown(cfg, st));
  }

  /** After a send the stream may turn out to be lost. */
  lemma SentLeads(cfg: Config, a: State, b: State, ok: bool)
    requires Leads(cfg, a, b, [])
    ensures Leads(cfg, a, if ok then b else Teardown(cfg, b), [])
  {
    TeardownLeads(cfg, b);
    LeadsQuietly(cfg, a, b, Teardown(cfg, b));
  }

  lemma {:induction false} DrainLoopLeads(cfg: Config, st: State)
    requires st.connected && !st.paused && st.pending == []
    ensures Leads(cfg, st, DrainLoop(cfg, st), [])
    decreases Len(st.spool)
  {
    if Len(st.spool) == 0 {
      LeadsNowhere(cfg, st);
    } else {
      match cfg.unmarshal(st.spool.Fifo()[0])
      case None => DrainOnLeads(cfg, st, DropCorrupt(cfg, st));
      case Some(b) => DrainSendLeads(cfg, st, b);
    }
  }

  lemma {:induction false} DrainOnLeads(cfg: Config, st: State, next: State)
    requires st.connected && !st.paused && Can(cfg, st, Corrupt) && next == DropCorrupt(cfg, st)
    ensures Leads(cfg, st, DrainLoop(cfg, next), [])
    decreases Len(st.spool), 0
  {
    ReleaseRefines(st.spool);
    CorruptLeads(cfg, st);
    DrainLoopLeads(cfg, next);
    LeadsQuietly(cfg, st, next, DrainLoop(cfg, next));
  }

  lemma DrainSendLeads(cfg: Config, st: State, b: Batch)
    requires Can(cfg, st, SentReplay) && cfg.unmarshal(st.spool.Fifo()[0]) == Some(b)
    ensures Leads(cfg, st, SendNow(cfg, st, b, FrontMeta(st), true), [])
  {
    ReplayLeads(cfg, st, b);
    SentLeads(cfg, st, ReplayMove(st, b), st.sendsLeft != 0);
  }

  lemma TryDrainLeads(cfg: Config, st: State)
    ensures Leads(cfg, st, TryDrain(cfg, st), [])
  {
    if !st.connected || st.paused || st.pending != [] {
      LeadsNowhere(cfg, st);
    } else {
      DrainLoopLeads(cfg, st);
    }
  }

  lemma OverloadLeads(cfg: Config, st: State)
    ensures Leads(cfg, st, Overload(cfg, st), [])
  {
    DemoteAllLeads(cfg, st);
    RelinkLeads(cfg, DemoteAll(cfg, st), Overload(cfg, st));
    LeadsQuietly(cfg, st, DemoteAll(cfg, st), Overload(cfg, st));
  }

  lemma ApplyAckLeads(cfg: Config, st: State, code: AckCode)
    requires st.pending != []
    ensures Leads(cfg, st, ApplyAck(cfg, st, code), [])
  {
    match code
    case ACCEPTED => SettleLeads(cfg, st, true);
    case INVALID => SettleLeads(cfg, st, false);
    case OVERLOADED => OverloadLeads(cfg, st);
    case INTERNAL => DemoteAllLeads(cfg, st);
  }

  lemma ProcessAckLeads(cfg: Config, st: State, code: AckCode)
    ensures Leads(cfg, st, ProcessAck(cfg, st, code), [])
  {
    if st.pending == [] {
      LeadsNowhere(cfg, st);
    } else {
      ApplyAckLeads(cfg, st, code);
      TryDrainLeads(cfg, ApplyAck(cfg, st, code));
      LeadsQuietly(cfg, st, ApplyAck(cfg, st, code), ProcessAck(cfg, st, code));
    }
  }

  lemma FlushAccumLeads(cfg: Config, st: State, id: StreamID)
    ensures Leads(cfg, st, FlushAccum(cfg, st, id), [])
  {
    if id !in st.accums {
      LeadsNowhere(cfg, st);
    } else if st.accums[id].records == [] {
      SkipLeads(cfg, st, id);
    } else if !MaySend(cfg, st) {
      SpoolLeads(cfg, st, id);
    } else {
      SendLeads(cfg, st, id);
      SentLeads(cfg, st, SendMove(st, id), st.sendsLeft != 0);
    }
  }

  lemma SendNowTakesNone(cfg: Config, st: State, batch: Batch, cursors: Cursors, fromSpool: bool)
    ensures SendNow(cfg, st, batch, cursors, fromSpool).accums == st.accums
  {
    var st1 := PushPending(st, Outstanding(batch, cursors, fromSpool));
    DemoteKeepsAccums(cfg, NoteReorder(st1), st1.pending);
  }

  lemma DispatchTakesNone(cfg: Config, st: State, batch: Batch, cursors: Cursors)
    ensures Dispatch(cfg, st, batch, cursors).accums == st.accums
  {
    if MaySend(cfg, st) { SendNowTakesNone(cfg, st, batch, cursors, false); }
  }

  /** What a flush leaves of the accumulators. */
  lemma FlushTakesOne(cfg: Config, st: State, id: StreamID)
    ensures FlushAccum(cfg, st, id).accums == st.accums - {id}
  {
    if id in st.accums && st.accums[id].records != [] {
      DispatchTakesNone(cfg, TakeBatch(st, id), BuildBatch(st, id), st.accums[id].cursors);
    }
  }

  lemma {:induction false} DemoteKeepsAccums(cfg: Config, st: State, batches: seq<Outstanding>)
    ensures Demote(cfg, st, batches).accums == st.accums
    decreases |batches|
  {
    if batches != [] {
      var o := batches[0];
      DemoteKeepsAccums(cfg, if o.fromSpool then st else AppendToSpool(cfg, st, o.batch, o.cursors), batches[1..]);
    }
  }

  lemma FlushThenFold(cfg: Config, st: State, id: StreamID, line: Line, now: nat)
    requires cfg.labels(line.source) == Some(id)
    ensures Leads(cfg, st, FoldMove(cfg, FlushAccum(cfg, st, id), id, line, now), [line])
  {
    var st2 := FlushAccum(cfg, st, id);
    FlushAccumLeads(cfg, st, id);
    FoldMoveLeads(cfg, st2, id, line, now);
    LeadsOn(cfg, st, st2, FoldMove(cfg, st2, id, line, now), [], [line]);
    assert [] + [line] == [line];
  }

  lemma MakeRoomKeepsLines(cfg: Config, st: State, id: StreamID, line: Line, now: nat)
    ensures MakeRoom(cfg, st, id, line, now).log.lines == st.log.lines
  {
    FlushAccumLeads(cfg, EnsureAccum(cfg, st, id, now), id);
  }

  /** addLine's accumulator bookkeeping: perhaps a flush, then the line. */
  lemma FoldLeads(cfg: Config, st: State, id: StreamID, line: Line, now: nat)
    requires cfg.labels(line.source) == Some(id)
    ensures Leads(cfg, st, Fold(cfg, MakeRoom(cfg, st, id, line, now), id, line), [line])
  {
    if NoRoom(cfg, EnsureAccum(cfg, st, id, now), id, line) {
      FlushTakesOne(cfg, st, id);
      FlushThenFold(cfg, st, id, line, now);
      FoldMoveIsFold(cfg, FlushAccum(cfg, st, id), id, line, now);
    } else {
      FoldMoveLeads(cfg, st, id, line, now);
      FoldMoveIsFold(cfg, st, id, line, now);
    }
  }

  lemma AddLineLeads(cfg: Config, st: State, line: Line, now: nat)
    ensures Leads(cfg, st, AddLine(cfg, st, line, now), [line])
  {
    match cfg.labels(line.source)
    case None => RejectLeads(cfg, st, line);
    case Some(id) =>
      FoldLeads(cfg, st, id, line, now);
      FlushIfFullLeads(cfg, st, Fold(cfg, MakeRoom(cfg, st, id, line, now), id, line), id, line);
  }

  lemma FlushIfFullLeads(cfg: Config, a: State, b: State, id: StreamID, line: Line)
    requires Leads(cfg, a, b, [line])
    ensures Leads(cfg, a, FlushIfFull(cfg, b, id), [line])
  {
    FlushAccumLeads(cfg, b, id);
    LeadsNowhere(cfg, b);
    LeadsOn(cfg, a, b, FlushIfFull(cfg, b, id), [line], []);
    assert [line] + [] == [line];
  }

  lemma {:induction false} FlushEachLeads(cfg: Config, st: State, ids: seq<StreamID>)
    ensures Leads(cfg, st, FlushEach(cfg, st, ids), [])
    decreases |ids|
  {
    if ids == [] {
      LeadsNowhere(cfg, st);
    } else {
      var st1 := FlushAccum(cfg, st, ids[0]);
      FlushAccumLeads(cfg, st, ids[0]);
      FlushEachLeads(cfg, st1, ids[1..]);
      LeadsQuietly(cfg, st, st1, FlushEach(cfg, st1, ids[1..]));
    }
  }

  lemma DrainAfterLeads(cfg: Config, a: State, b: State)
    requires b == Relink(a, LinkOf(b)) && (!b.connected || b.paused ==> b.pending == [])
    ensures Leads(cfg, a, TryDrain(cfg, b), [])
  {
    RelinkLeads(cfg, a, b);
    TryDrainLeads(cfg, b);
    LeadsQuietly(cfg, a, b, TryDrain(cfg, b));
  }

  function Arrival(event: Event): seq<Line> {
    if event.LineArrives? then [event.line] else []
  }

  lemma ReactLeads(cfg: Config, st: State, event: Event)
    requires Live(st)
    ensures Leads(cfg, st, React(cfg, st, event), Arrival(event))
  {
    LeadsNowhere(cfg, st);
    match event
    case LineArrives(line, now) => AddLineLeads(cfg, st, line, now);
    case AccumTimer(due) => FlushEachLeads(cfg, st, due);
    case RetryTimer(ok) =>
      if st.retryArmed {
        DrainAfterLeads(cfg, st, OpenStream(st));
        RelinkLeads(cfg, st, RetryLater(st));
      }
    case PauseTimer => DrainAfterLeads(cfg, st, Resume(st));
    case AckArrives(code) => ProcessAckLeads(cfg, st, code);
    case StreamEnds => TeardownLeads(cfg, st);
    case CommitTick => LeadsOne(cfg, st, Committed, []);
  }

  lemma StepLeads(cfg: Config, st: State, input: Input)
    requires Live(st)
    ensures Leads(cfg, st, Step(cfg, st, input), Arrival(input.event))
  {
    var st1 := st.(sendsLeft := input.sends);
    RelinkLeads(cfg, st, st1);
    ReactLeads(cfg, st1, input.event);
    LeadsOn(cfg, st, st1, Step(cfg, st, input), [], Arrival(input.event));
    assert [] + Arrival(input.event) == Arrival(input.event);
  }

  function Arrivals(inputs: seq<Input>): seq<Line> {
    if inputs == [] then [] else Arrivals(inputs[..|inputs| - 1]) + Arrival(inputs[|inputs| - 1].event)
  }

  /** Every run is a sequence of moves, and the lines it took in are those that arrived. */
  lemma {:induction false} RunLeads(cfg: Config, st: State, inputs: seq<Input>)
    requires cfg.Ok() && Live(st)
    ensures Leads(cfg, st, Run(cfg, st, inputs), Arrivals(inputs)) && Live(Run(cfg, st, inputs))
    decreases |inputs|
  {
    if inputs == [] {
      LeadsNowhere(cfg, st);
    } else {
      var before, input := inputs[..|inputs| - 1], inputs[|inputs| - 1];
      RunLeads(cfg, st, before);
      StepLive(cfg, Run(cfg, st, before), input);
      StepLeads(cfg, Run(cfg, st, before), input);
      LeadsOn(cfg, st, Run(cfg, st, before), Run(cfg, st, inputs), Arrivals(before), Arrival(input.event));
    }
  }

  lemma {:induction false} AwaitAcksLeads(cfg: Config, st: State, acks: seq<AckCode>)
    ensures Leads(cfg, st, AwaitAcks(cfg, st, acks), [])
    decreases |acks|
  {
    if acks == [] || st.pending == [] || !st.connected {
      LeadsNowhere(cfg, st);
    } else {
      var st1 := ProcessAck(cfg, st, acks[0]);
      ProcessAckLeads(cfg, st, acks[0]);
      AwaitAcksLeads(cfg, st1, acks[1..]);
      LeadsQuietly(cfg, st, st1, AwaitAcks(cfg, st1, acks[1..]));
    }
  }

  lemma FinishLeads(cfg: Config, st: State)
    ensures Leads(cfg, st, Finish(cfg, st), [])
  {
    DemoteAllLeads(cfg, st);
    LeadsOne(cfg, DemoteAll(cfg, st), Committed, []);
    LeadsQuietly(cfg, st, DemoteAll(cfg, st), Finish(cfg, st));
  }

  lemma ShutdownLeads(cfg: Config, st: State, ids: seq<StreamID>, acks: seq<AckCode>)
    ensures Leads(cfg, st, Shutdown(cfg, st, ids, acks), [])
  {
    var st1 := FlushEach(cfg, st, ids);
    var st2 := AwaitAcks(cfg, st1, acks);
    FlushEachLeads(cfg, st, ids);
    AwaitAcksLeads(cfg, st1, acks);
    FinishLeads(cfg, st2);
    LeadsQuietly(cfg, st, st1, st2);
    LeadsQuietly(cfg, st, st2, Finish(cfg, st2));
  }

  /** st is a moment of a run, or of a shutdown, that began with `spool` and `ck`. */
  ghost predicate Reachable(cfg: Config, spool: Spool, ck: Cursors, st: State) {
    exists moves :: st == Play(cfg, Start(cfg, spool, ck), moves)
  }

  /** The state between any two steps of any run is such a moment. */
  lemma EveryRunIsReachable(cfg: Config, spool: Spool, ck: Cursors, inputs: seq<Input>)
    requires cfg.Ok()
    ensures var st := Run(cfg, Start(cfg, spool, ck), inputs);
            Reachable(cfg, spool, ck, st) && st.log.lines == Arrivals(inputs)
  {
    var st := Start(cfg, spool, ck);
    RunLeads(cfg, st, inputs);
    var moves :| Play(cfg, st, moves) == Run(cfg, st, inputs);
    assert st.log.lines + Arrivals(inputs) == Arrivals(inputs);
  }

  /** So is the state after a shutdown. */
  lemma ShutdownIsReachable(cfg: Config, spool: Spool, ck: Cursors, st: State, ids: seq<StreamID>, acks: seq<AckCode>)
    requires Reachable(cfg, spool, ck, st)
    ensures Reachable(cfg, spool, ck, Shutdown(cfg, st, ids, acks))
    ensures Shutdown(cfg, st, ids, acks).log.lines == st.log.lines
  {
    var p :| st == Play(cfg, Start(cfg, spool, ck), p);
    ShutdownLeads(cfg, st, ids, acks);
    var q :| Play(cfg, st, q) == Shutdown(cfg, st, ids, acks);
    PlayConcat(cfg, Start(cfg, spool, ck), p, q);
  }
}
