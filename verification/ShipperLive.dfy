/** The protocol is never stuck: a backlog is being drained, or a timer that will drain it is armed. */
module ShipperLive {
  import opened SpoolQueue
  import opened ShipperModel

  /** What demoting changes: the spool, its metadata and the ledger's record of them. */
  predicate SameButSpool(a: State, b: State) {
    b == a.(spool := b.spool, meta := b.meta,
            log := a.log.(evicted := b.log.evicted, displaced := b.log.displaced,
                          droppedFresh := b.log.droppedFresh, unspooled := b.log.unspooled))
  }

  lemma AppendSame(cfg: Config, st: State, batch: Batch, cursors: Cursors)
    ensures SameButSpool(st, AppendToSpool(cfg, st, batch, cursors))
  {
  }

  lemma SameTrans(a: State, b: State, c: State)
    requires SameButSpool(a, b) && SameButSpool(b, c)
    ensures SameButSpool(a, c)
  {
  }

  lemma {:induction false} DemoteSame(cfg: Config, st: State, batches: seq<Outstanding>)
    ensures SameButSpool(st, Demote(cfg, st, batches))
    decreases |batches|
  {
    if batches != [] {
      var o := batches[0];
      var st1 := if o.fromSpool then st else AppendToSpool(cfg, st, o.batch, o.cursors);
      AppendSame(cfg, st, o.batch, o.cursors);
      DemoteSame(cfg, st1, batches[1..]);
      SameTrans(st, st1, Demote(cfg, st1, batches[1..]));
    }
  }

  /** Connected, not paused and with a backlog, something is always in flight; paused and
      disconnected states have their timer armed and nothing in flight. */
  predicate Live(st: State) {
    && (st.connected && !st.paused && Len(st.spool) > 0 ==> st.pending != [])
    && st.paused == st.pauseArmed
    && st.connected == !st.retryArmed
    && (!st.connected || st.paused ==> st.pending == [])
  }

  lemma TeardownLive(cfg: Config, st: State)
    requires st.paused == st.pauseArmed
    ensures Live(Teardown(cfg, st))
  {
    DemoteSame(cfg, NoteReorder(st), st.pending);
  }

  lemma SendNowLive(cfg: Config, st: State, batch: Batch, cursors: Cursors, fromSpool: bool)
    requires st.connected && !st.paused && !st.pauseArmed && !st.retryArmed
    ensures Live(SendNow(cfg, st, batch, cursors, fromSpool))
  {
    TeardownLive(cfg, PushPending(st, Outstanding(batch, cursors, fromSpool)));
  }

  lemma DispatchLive(cfg: Config, st: State, batch: Batch, cursors: Cursors)
    requires cfg.Ok() && Live(st)
    ensures Live(Dispatch(cfg, st, batch, cursors))
  {
    if MaySend(cfg, st) {
      SendNowLive(cfg, st, batch, cursors, false);
    }
  }

  lemma {:induction false} DrainLoopLive(cfg: Config, st: State)
    requires Live(st) || st.pending == []
    requires st.connected && !st.paused && st.pending == [] && !st.pauseArmed && !st.retryArmed
    ensures Live(DrainLoop(cfg, st))
    decreases Len(st.spool)
  {
    if Len(st.spool) > 0 {
      match cfg.unmarshal(st.spool.Fifo()[0])
      case None =>
        ReleaseRefines(st.spool);
        DrainLoopLive(cfg, DropCorrupt(cfg, st));
      case Some(b) =>
        SendNowLive(cfg, st, b, FrontMeta(st), true);
    }
  }

  /** All of Live but the backlog clause, which draining restores. */
  predicate Timed(st: State) {
    && st.paused == st.pauseArmed
    && st.connected == !st.retryArmed
    && (!st.connected || st.paused ==> st.pending == [])
  }

  lemma TryDrainLive(cfg: Config, st: State)
    requires Timed(st)
    ensures Live(TryDrain(cfg, st))
  {
    if st.connected && !st.paused && st.pending == [] {
      DrainLoopLive(cfg, st);
    }
  }

  lemma ApplyAckTimed(cfg: Config, st: State, code: AckCode)
    requires Live(st) && st.pending != []
    ensures Timed(ApplyAck(cfg, st, code))
  {
    DemoteSame(cfg, NoteReorder(st), st.pending);
  }

  lemma ProcessAckLive(cfg: Config, st: State, code: AckCode)
    requires Live(st)
    ensures Live(ProcessAck(cfg, st, code))
  {
    if st.pending != [] {
      ApplyAckTimed(cfg, st, code);
      TryDrainLive(cfg, ApplyAck(cfg, st, code));
    }
  }

  lemma FlushAccumLive(cfg: Config, st: State, id: StreamID)
    requires cfg.Ok() && Live(st)
    ensures Live(FlushAccum(cfg, st, id))
  {
    if id in st.accums && st.accums[id].records != [] {
      DispatchLive(cfg, TakeBatch(st, id), BuildBatch(st, id), st.accums[id].cursors);
    }
  }

  lemma MakeRoomLive(cfg: Config, st: State, id: StreamID, line: Line, now: nat)
    requires cfg.Ok() && Live(st)
    ensures Live(MakeRoom(cfg, st, id, line, now))
  {
    FlushAccumLive(cfg, EnsureAccum(cfg, st, id, now), id);
  }

  lemma FoldLive(cfg: Config, st: State, id: StreamID, line: Line)
    requires Live(st) && id in st.accums
    ensures Live(Fold(cfg, st, id, line))
  {
  }

  lemma AddLineLive(cfg: Config, st: State, line: Line, now: nat)
    requires cfg.Ok() && Live(st)
    ensures Live(AddLine(cfg, st, line, now))
  {
    match cfg.labels(line.source)
    case None =>
    case Some(id) =>
      var st1 := MakeRoom(cfg, st, id, line, now);
      MakeRoomLive(cfg, st, id, line, now);
      FoldLive(cfg, st1, id, line);
      FlushAccumLive(cfg, Fold(cfg, st1, id, line), id);
  }

  lemma {:induction false} FlushEachLive(cfg: Config, st: State, ids: seq<StreamID>)
    requires cfg.Ok() && Live(st)
    ensures Live(FlushEach(cfg, st, ids))
    decreases |ids|
  {
    if ids != [] {
      FlushAccumLive(cfg, st, ids[0]);
      FlushEachLive(cfg, FlushAccum(cfg, st, ids[0]), ids[1..]);
    }
  }

  lemma ReactLive(cfg: Config, st: State, event: Event)
    requires cfg.Ok() && Live(st)
    ensures Live(React(cfg, st, event))
  {
    match event
    case LineArrives(line, now) => AddLineLive(cfg, st, line, now);
    case AccumTimer(due) => FlushEachLive(cfg, st, due);
    case RetryTimer(ok) => if st.retryArmed && ok { TryDrainLive(cfg, OpenStream(st)); }
    case PauseTimer => if st.pauseArmed { TryDrainLive(cfg, Resume(st)); }
    case AckArrives(code) => ProcessAckLive(cfg, st, code);
    case StreamEnds => TeardownLive(cfg, st);
    case CommitTick =>
  }

  lemma StepLive(cfg: Config, st: State, input: Input)
    requires cfg.Ok() && Live(st)
    ensures Live(Step(cfg, st, input))
  {
    ReactLive(cfg, st.(sendsLeft := input.sends), input.event);
  }

  /** Between any two steps of any run the protocol is not stuck: a backlog is being drained or a
      timer that will drain it is armed. */
  lemma {:induction false} EveryRunIsLive(cfg: Config, spool: Spool, ck: Cursors, inputs: seq<Input>)
    requires cfg.Ok()
    ensures Live(Run(cfg, Start(cfg, spool, ck), inputs))
    decreases |inputs|
  {
    if inputs != [] {
      EveryRunIsLive(cfg, spool, ck, inputs[..|inputs| - 1]);
      StepLive(cfg, Run(cfg, Start(cfg, spool, ck), inputs[..|inputs| - 1]), inputs[|inputs| - 1]);
    }
  }
}
