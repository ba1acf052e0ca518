/** The count that the shipper's backoff grows with (internal/agent/shipper.go): connection attempts,
    lost streams and overloads since the last success. */
module ShipperBackoff {
  import opened Prelude
  import opened SpoolQueue
  import opened ShipperModel
  import opened ShipperLive

  /** From a to b, the count goes up by one if the stream was lost, and stays otherwise. */
  predicate Falls(a: State, b: State) {
    && (b.connected ==> a.connected)
    && b.attempt == (if a.connected && !b.connected then a.attempt + 1 else a.attempt)
  }

  lemma TeardownFalls(cfg: Config, st: State)
    requires st.connected
    ensures Falls(st, Teardown(cfg, st))
  {
    DemoteSame(cfg, NoteReorder(st), st.pending);
  }

  lemma SendNowFalls(cfg: Config, st: State, batch: Batch, cursors: Cursors, fromSpool: bool)
    requires st.connected
    ensures Falls(st, SendNow(cfg, st, batch, cursors, fromSpool))
  {
    TeardownFalls(cfg, PushPending(st, Outstanding(batch, cursors, fromSpool)));
  }

  lemma {:induction false} DrainLoopFalls(cfg: Config, st: State)
    requires st.connected
    ensures Falls(st, DrainLoop(cfg, st))
    decreases Len(st.spool)
  {
    if Len(st.spool) > 0 {
      match cfg.unmarshal(st.spool.Fifo()[0])
      case None =>
        ReleaseRefines(st.spool);
        DrainLoopFalls(cfg, DropCorrupt(cfg, st));
      case Some(b) =>
        SendNowFalls(cfg, st, b, FrontMeta(st), true);
    }
  }

  lemma TryDrainFalls(cfg: Config, st: State)
    ensures Falls(st, TryDrain(cfg, st))
  {
    if st.connected {
      DrainLoopFalls(cfg, st);
    }
  }

  lemma DispatchFalls(cfg: Config, st: State, batch: Batch, cursors: Cursors)
    ensures Falls(st, Dispatch(cfg, st, batch, cursors))
  {
    if MaySend(cfg, st) {
      SendNowFalls(cfg, st, batch, cursors, false);
    } else {
      AppendSame(cfg, NoteOverflow(cfg, st), batch, cursors);
    }
  }

  lemma FlushAccumFalls(cfg: Config, st: State, id: StreamID)
    ensures Falls(st, FlushAccum(cfg, st, id))
  {
    if id in st.accums && st.accums[id].records != [] {
      DispatchFalls(cfg, TakeBatch(st, id), BuildBatch(st, id), st.accums[id].cursors);
    }
  }

  lemma {:induction false} FlushEachFalls(cfg: Config, st: State, ids: seq<StreamID>)
    ensures Falls(st, FlushEach(cfg, st, ids))
    decreases |ids|
  {
    if ids != [] {
      FlushAccumFalls(cfg, st, ids[0]);
      FlushEachFalls(cfg, FlushAccum(cfg, st, ids[0]), ids[1..]);
    }
  }

  lemma MakeRoomFalls(cfg: Config, st: State, id: StreamID, line: Line, now: nat)
    ensures Falls(st, MakeRoom(cfg, st, id, line, now))
  {
    FlushAccumFalls(cfg, EnsureAccum(cfg, st, id, now), id);
  }

  lemma FoldFalls(cfg: Config, st: State, id: StreamID, line: Line)
    requires id in st.accums
    ensures Falls(st, FlushIfFull(cfg, Fold(cfg, st, id, line), id))
  {
    FlushAccumFalls(cfg, Fold(cfg, st, id, line), id);
  }

  lemma AddLineFalls(cfg: Config, st: State, line: Line, now: nat)
    ensures Falls(st, AddLine(cfg, st, line, now))
  {
    match cfg.labels(line.source)
    case None =>
    case Some(id) =>
      MakeRoomFalls(cfg, st, id, line, now);
      FoldFalls(cfg, MakeRoom(cfg, st, id, line, now), id, line);
  }

  /** An ACCEPTED ack for a waiting batch, or a stream opened. */
  predicate Succeeds(a: State, event: Event) {
    || (event == AckArrives(ACCEPTED) && a.connected && a.pending != [])
    || (event == RetryTimer(true) && a.retryArmed)
  }

  /** An OVERLOADED ack for a waiting batch, a connection attempt that failed, or a stream lost, also at
      once after it was opened. */
  predicate Fails(a: State, event: Event, b: State) {
    || (event == AckArrives(OVERLOADED) && a.connected && a.pending != [])
    || (event == RetryTimer(false) && a.retryArmed)
    || ((a.connected || (event == RetryTimer(true) && a.retryArmed)) && !b.connected)
  }

  predicate Counted(a: State, event: Event, b: State) {
    b.attempt == (if Succeeds(a, event) then 0 else a.attempt) + (if Fails(a, event, b) then 1 else 0)
  }

  lemma AckCounted(cfg: Config, st: State, code: AckCode)
    requires st.connected && st.pending != []
    ensures Counted(st, AckArrives(code), ProcessAck(cfg, st, code))
  {
    DemoteSame(cfg, NoteReorder(st), st.pending);
    TryDrainFalls(cfg, ApplyAck(cfg, st, code));
  }

  lemma RetryCounted(cfg: Config, st: State, ok: bool)
    requires st.connected == !st.retryArmed
    ensures Counted(st, RetryTimer(ok), OnRetry(cfg, st, ok))
  {
    TryDrainFalls(cfg, OpenStream(st));
  }

  lemma PauseCounted(cfg: Config, st: State)
    ensures Counted(st, PauseTimer, OnPauseOver(cfg, st))
  {
    TryDrainFalls(cfg, Resume(st));
  }

  lemma ReactCounted(cfg: Config, st: State, event: Event)
    requires st.connected == !st.retryArmed
    ensures Counted(st, event, React(cfg, st, event))
  {
    match event
    case LineArrives(line, now) => AddLineFalls(cfg, st, line, now);
    case AccumTimer(due) => FlushEachFalls(cfg, st, due);
    case RetryTimer(ok) => RetryCounted(cfg, st, ok);
    case PauseTimer => PauseCounted(cfg, st);
    case AckArrives(code) =>
      if st.connected && st.pending != [] {
        AckCounted(cfg, st, code);
      }
    case StreamEnds =>
      if st.connected {
        TeardownFalls(cfg, st);
      }
    case CommitTick =>
  }

  /** The failures since the last success, as they can be seen from outside. */
  function Streak(cfg: Config, st: State, inputs: seq<Input>): nat
    decreases |inputs|
  {
    if inputs == [] then 0
    else
      var before, event := inputs[..|inputs| - 1], inputs[|inputs| - 1].event;
      var a, b := Run(cfg, st, before), Run(cfg, st, inputs);
      (if Succeeds(a, event) then 0 else Streak(cfg, st, before)) + (if Fails(a, event, b) then 1 else 0)
  }

  /** The delay is drawn for exactly this many failures: after every run the shared count is that of the
      overloads, failed connection attempts and lost streams since the last ACCEPTED ack or new stream. */
  lemma {:induction false} BackoffCountsFailures(cfg: Config, spool: Spool, ck: Cursors, inputs: seq<Input>)
    requires cfg.Ok()
    ensures Run(cfg, Start(cfg, spool, ck), inputs).attempt == Streak(cfg, Start(cfg, spool, ck), inputs)
    decreases |inputs|
  {
    if inputs != [] {
      var before, input := inputs[..|inputs| - 1], inputs[|inputs| - 1];
      var st := Run(cfg, Start(cfg, spool, ck), before);
      BackoffCountsFailures(cfg, spool, ck, before);
      EveryRunIsLive(cfg, spool, ck, before);
      ReactCounted(cfg, st.(sendsLeft := input.sends), input.event);
    }
  }
}
