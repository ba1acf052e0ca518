/** What an ack does to the stream and to the checkpoint, and what a pause means (internal/agent/shipper.go,
    processAck and advanceCheckpoint): the progress the protocol owes, where the other modules say what it
    must not do. */
module ShipperAcks {
  import opened Prelude
  import opened Frames
  import opened SpoolQueue
  import opened ShipperModel
  import opened ShipperLive

  /** Every source of a batch is checkpointed in the batch's file, at its cursor or past it. */
  ghost predicate Covers(ck: Cursors, cursors: Cursors) {
    forall s :: s in cursors ==> s in ck && ck[s].file == cursors[s].file && ck[s].offset >= cursors[s].offset
  }

  /** The sources of a batch get its cursors, but one that is already further on in the same file; the
      others keep what they have. */
  lemma AdvanceIs(ck: Cursors, cursors: Cursors, s: Source)
    ensures s in Advance(ck, cursors) <==> s in ck || s in cursors
    ensures s in cursors ==>
              Advance(ck, cursors)[s] == if s in ck && ck[s].file == cursors[s].file && ck[s].offset > cursors[s].offset then ck[s] else cursors[s]
    ensures s !in cursors && s in ck ==> Advance(ck, cursors)[s] == ck[s]
    ensures Covers(Advance(ck, cursors), cursors)
  {
  }

  lemma {:induction false} DrainKeepsCheckpoint(cfg: Config, st: State)
    ensures TryDrain(cfg, st).ck == st.ck
    decreases Len(st.spool)
  {
    if st.connected && !st.paused && st.pending == [] && Len(st.spool) > 0 {
      match cfg.unmarshal(st.spool.Fifo()[0])
      case None =>
        ReleaseRefines(st.spool);
        DrainKeepsCheckpoint(cfg, DropCorrupt(cfg, st));
      case Some(b) =>
        var o := Outstanding(b, FrontMeta(st), true);
        DemoteSame(cfg, NoteReorder(PushPending(st, o)), PushPending(st, o).pending);
    }
  }

  /** The checkpoint of b is that of a with these cursors in it. */
  ghost predicate Credited(a: Cursors, b: Cursors, cursors: Cursors) {
    Covers(b, cursors) && forall s :: s !in cursors ==> (s in b <==> s in a) && (s in a ==> b[s] == a[s])
  }

  lemma AdvanceCredits(ck: Cursors, cursors: Cursors)
    ensures Credited(ck, Advance(ck, cursors), cursors)
  {
    forall s: Source
      ensures s !in cursors ==> (s in Advance(ck, cursors) <==> s in ck) && (s in ck ==> Advance(ck, cursors)[s] == ck[s])
      ensures Covers(Advance(ck, cursors), cursors)
    {
      AdvanceIs(ck, cursors, s);
    }
  }

  lemma DemoteKeepsCheckpoint(cfg: Config, st: State)
    ensures DemoteAll(cfg, st).ck == st.ck && Overload(cfg, st).ck == st.ck
  {
    DemoteSame(cfg, NoteReorder(st), st.pending);
  }

  lemma AckCovers(cfg: Config, st: State, code: AckCode)
    requires st.pending != []
    ensures var r := ProcessAck(cfg, st, code);
            if code == ACCEPTED then Credited(st.ck, r.ck, st.pending[0].cursors) else r.ck == st.ck
  {
    DrainKeepsCheckpoint(cfg, ApplyAck(cfg, st, code));
    DemoteKeepsCheckpoint(cfg, st);
    AdvanceCredits(st.ck, st.pending[0].cursors);
  }

  /** In every run, after an ACCEPTED ack every source of the oldest batch is checkpointed at the batch's
      cursor in its file or past it, and no other source has moved. After any other ack nothing has. */
  lemma AckedIsCovered(cfg: Config, spool: Spool, ck: Cursors, inputs: seq<Input>, code: AckCode, sends: nat)
    requires var st := Run(cfg, Start(cfg, spool, ck), inputs); st.connected && st.pending != []
    ensures var st := Run(cfg, Start(cfg, spool, ck), inputs);
            var r := Run(cfg, Start(cfg, spool, ck), inputs + [Input(AckArrives(code), sends)]);
            if code == ACCEPTED then Credited(st.ck, r.ck, st.pending[0].cursors) else r.ck == st.ck
  {
    RunSnoc(cfg, Start(cfg, spool, ck), inputs, Input(AckArrives(code), sends));
    StepCovers(cfg, Run(cfg, Start(cfg, spool, ck), inputs), code, sends);
  }

  lemma RunSnoc(cfg: Config, st: State, inputs: seq<Input>, input: Input)
    ensures Run(cfg, st, inputs + [input]) == Step(cfg, Run(cfg, st, inputs), input)
  {
    assert (inputs + [input])[..|inputs|] == inputs;
  }

  lemma StepCovers(cfg: Config, st: State, code: AckCode, sends: nat)
    requires st.connected && st.pending != []
    ensures var r := Step(cfg, st, Input(AckArrives(code), sends));
            if code == ACCEPTED then Credited(st.ck, r.ck, st.pending[0].cursors) else r.ck == st.ck
  {
    AckCovers(cfg, st.(sendsLeft := sends), code);
  }

  /** Sending is suspended: the timer that ends this is armed, and nothing is in flight. */
  predicate Suspended(st: State) {
    st.paused && st.pauseArmed && st.pending == []
  }

  lemma OverloadPauses(cfg: Config, st: State)
    requires st.pending != []
    ensures var r := ProcessAck(cfg, st, OVERLOADED);
            Suspended(r) && r.connected == st.connected && r.sent == st.sent && r.attempt == st.attempt + 1
  {
    DemoteSame(cfg, NoteReorder(st), st.pending);
  }

  /** OVERLOADED suspends sending on the stream that stays open, with a longer wait than before; nothing
      is sent in the same step. */
  lemma OverloadSuspends(cfg: Config, st: State, sends: nat)
    requires st.connected && st.pending != []
    ensures var r := Step(cfg, st, Input(AckArrives(OVERLOADED), sends));
            Suspended(r) && r.connected && r.sent == st.sent && r.attempt == st.attempt + 1
  {
    OverloadPauses(cfg, st.(sendsLeft := sends));
  }

  /** Nothing is added to a stream: it is the same one with the same batches, or a new or lost one without
      any. */
  predicate Silent(a: State, b: State) {
    b.sent == a.sent || b.sent == []
  }

  lemma FlushSuspended(cfg: Config, st: State, id: StreamID)
    requires Suspended(st)
    ensures Suspended(FlushAccum(cfg, st, id)) && FlushAccum(cfg, st, id).sent == st.sent
  {
  }

  lemma {:induction false} FlushEachSuspended(cfg: Config, st: State, ids: seq<StreamID>)
    requires Suspended(st)
    ensures Suspended(FlushEach(cfg, st, ids)) && FlushEach(cfg, st, ids).sent == st.sent
    decreases |ids|
  {
    if ids != [] {
      FlushSuspended(cfg, st, ids[0]);
      FlushEachSuspended(cfg, FlushAccum(cfg, st, ids[0]), ids[1..]);
    }
  }

  lemma MakeRoomSuspended(cfg: Config, st: State, id: StreamID, line: Line, now: nat)
    requires Suspended(st)
    ensures var r := MakeRoom(cfg, st, id, line, now); Suspended(r) && r.sent == st.sent
  {
    FlushSuspended(cfg, EnsureAccum(cfg, st, id, now), id);
  }

  lemma FoldSuspended(cfg: Config, st: State, id: StreamID, line: Line)
    requires Suspended(st) && id in st.accums
    ensures Suspended(Fold(cfg, st, id, line)) && Fold(cfg, st, id, line).sent == st.sent
  {
  }

  lemma AddLineSuspended(cfg: Config, st: State, line: Line, now: nat)
    requires Suspended(st)
    ensures Suspended(AddLine(cfg, st, line, now)) && AddLine(cfg, st, line, now).sent == st.sent
  {
    match cfg.labels(line.source)
    case None =>
    case Some(id) =>
      MakeRoomSuspended(cfg, st, id, line, now);
      FoldSuspended(cfg, MakeRoom(cfg, st, id, line, now), id, line);
      FlushSuspended(cfg, Fold(cfg, MakeRoom(cfg, st, id, line, now), id, line), id);
  }

  lemma StepSuspended(cfg: Config, st: State, input: Input)
    requires Suspended(st) && !input.event.PauseTimer?
    ensures var r := Step(cfg, st, input); Suspended(r) && Silent(st, r)
  {
    var st1 := st.(sendsLeft := input.sends);
    match input.event
    case LineArrives(line, now) => AddLineSuspended(cfg, st1, line, now);
    case AccumTimer(due) => FlushEachSuspended(cfg, st1, due);
    case StreamEnds => DemoteSame(cfg, NoteReorder(st1), st1.pending);
    case _ =>
  }

  predicate NoPauseTimer(inputs: seq<Input>) {
    forall k :: 0 <= k < |inputs| ==> !inputs[k].event.PauseTimer?
  }

  /** While sending is suspended nothing is sent, on this stream or on any later one, whatever lines,
      timers, acks, reconnects and failures come: only the pause timer ends it. */
  lemma {:induction false} SuspendedSendsNothing(cfg: Config, st: State, inputs: seq<Input>)
    requires Suspended(st) && NoPauseTimer(inputs)
    ensures var r := Run(cfg, st, inputs); Suspended(r) && Silent(st, r)
    decreases |inputs|
  {
    if inputs != [] {
      var k := |inputs| - 1;
      SuspendedSendsNothing(cfg, st, inputs[..k]);
      StepSuspended(cfg, Run(cfg, st, inputs[..k]), inputs[k]);
    }
  }

  /** r has sent this entry on the stream of st, and waits for its ack only. */
  predicate Replays(cfg: Config, st: State, r: State, p: Payload) {
    && |r.pending| == 1 && r.pending[0].fromSpool
    && cfg.unmarshal(p) == Some(r.pending[0].batch) && r.sent == st.sent + [r.pending[0].batch]
  }

  /** From st to r, on a stream that takes the batch: k entries that do not decode go, and the first that
      does, if there is one, is sent and stays at the spool's front. */
  ghost predicate Drained(cfg: Config, st: State, r: State, k: nat) {
    var fifo := st.spool.Fifo();
    && r.connected && !r.paused && r.pauseArmed == st.pauseArmed && k <= |fifo| && r.spool.Fifo() == fifo[k..]
    && (forall i :: 0 <= i < k ==> cfg.unmarshal(fifo[i]).None?)
    && (if k < |fifo| then Replays(cfg, st, r, fifo[k]) else r.pending == [] && r.sent == st.sent)
  }

  lemma DrainedOne(cfg: Config, st: State, b: Batch)
    requires st.connected && !st.paused && st.pending == [] && st.sendsLeft > 0 && Len(st.spool) > 0
    requires cfg.unmarshal(st.spool.Fifo()[0]) == Some(b)
    ensures Drained(cfg, st, SendNow(cfg, st, b, FrontMeta(st), true), 0)
  {
  }

  lemma DrainedMore(cfg: Config, st: State, r: State, k: nat)
    requires Len(st.spool) > 0 && cfg.unmarshal(st.spool.Fifo()[0]).None? && Drained(cfg, DropCorrupt(cfg, st), r, k)
    ensures Drained(cfg, st, r, k + 1)
  {
    ReleaseRefines(st.spool);
    var fifo := st.spool.Fifo();
    assert fifo[1..][k..] == fifo[k + 1..];
    assert forall i :: 0 < i < k + 1 ==> fifo[i] == fifo[1..][i - 1];
  }

  lemma {:induction false} DrainSends(cfg: Config, st: State) returns (k: nat)
    requires st.connected && !st.paused && st.pending == [] && st.sendsLeft > 0
    ensures Drained(cfg, st, TryDrain(cfg, st), k)
    decreases Len(st.spool)
  {
    k := 0;
    if Len(st.spool) > 0 {
      match cfg.unmarshal(st.spool.Fifo()[0])
      case None =>
        ReleaseRefines(st.spool);
        var rest := DrainSends(cfg, DropCorrupt(cfg, st));
        DrainedMore(cfg, st, TryDrain(cfg, st), rest);
        k := rest + 1;
      case Some(b) =>
        DrainedOne(cfg, st, b);
    }
  }

  /** After INTERNAL the stream is used on: with a backlog, which the demoted batches are part of, the
      oldest batch that can be read is sent again in the same step. */
  lemma InternalResends(cfg: Config, st: State, sends: nat) returns (k: nat)
    requires Live(st) && st.connected && st.pending != [] && sends > 0
    ensures var st1 := st.(sendsLeft := sends);
            Drained(cfg, DemoteAll(cfg, st1), Step(cfg, st, Input(AckArrives(INTERNAL), sends)), k) && DemoteAll(cfg, st1).sent == st.sent
  {
    var st1 := st.(sendsLeft := sends);
    DemoteSame(cfg, NoteReorder(st1), st1.pending);
    k := DrainSends(cfg, DemoteAll(cfg, st1));
  }

  /** When the pause is over, the oldest batch that can be read is sent in the same step. */
  lemma ResumeSends(cfg: Config, st: State, sends: nat) returns (k: nat)
    requires Suspended(st) && st.connected && sends > 0
    ensures var st1 := st.(paused := false, pauseArmed := false, sendsLeft := sends);
            Drained(cfg, st1, Step(cfg, st, Input(PauseTimer, sends)), k)
  {
    k := DrainSends(cfg, Resume(st.(sendsLeft := sends)));
  }

  /** Spooled: at the back, behind what an eviction has left. */
  ghost predicate SpooledLast(cfg: Config, st: State, r: State, b: Batch, evicted: nat) {
    && r.sent == st.sent && r.pending == st.pending
    && (cfg.Fits(b) ==>
          evicted <= |st.spool.Fifo()| && r.spool.Fifo() == (st.spool.Fifo() + [cfg.marshal(b)])[evicted..])
  }

  lemma SpoolingGoes(cfg: Config, st: State, b: Batch, cursors: Cursors) returns (evicted: nat)
    ensures SpooledLast(cfg, st, AppendToSpool(cfg, st, b, cursors), b, evicted)
  {
    evicted := 0;
    if cfg.Fits(b) {
      AppendRefines(cfg.limits, st.spool, cfg.marshal(b));
      evicted := AppendEvicts(cfg.limits, st.spool, cfg.marshal(b));
    }
  }

  /** Sent behind those in flight. */
  predicate SentLast(st: State, r: State, b: Batch, cursors: Cursors) {
    r.sent == st.sent + [b] && r.pending == st.pending + [Outstanding(b, cursors, false)] && r.spool == st.spool
  }

  lemma SendingGoes(cfg: Config, st: State, b: Batch, cursors: Cursors)
    requires st.sendsLeft > 0
    ensures SentLast(st, SendNow(cfg, st, b, cursors, false), b, cursors)
  {
  }

  lemma DispatchGoes(cfg: Config, st: State, b: Batch, cursors: Cursors) returns (evicted: nat)
    requires st.sendsLeft > 0
    ensures var r := Dispatch(cfg, st, b, cursors);
            if st.connected && !st.paused && st.spool.Fifo() == [] && |st.pending| < cfg.ackWindow then SentLast(st, r, b, cursors)
            else SpooledLast(cfg, st, r, b, evicted)
  {
    evicted := 0;
    SendingGoes(cfg, st, b, cursors);
    if !MaySend(cfg, st) {
      evicted := SpoolingGoes(cfg, NoteOverflow(cfg, st), b, cursors);
    }
  }

  /** Where a fresh batch goes: on the stream, behind those in flight, exactly when it is up, not paused,
      the spool is empty and the window has room; otherwise to the back of the spool. */
  lemma FreshBatchGoes(cfg: Config, st: State, id: StreamID) returns (evicted: nat)
    requires id in st.accums && st.accums[id].records != [] && st.sendsLeft > 0
    ensures var r, b := FlushAccum(cfg, st, id), Batch(st.batchSeq + 1, id, st.accums[id].records);
            if st.connected && !st.paused && st.spool.Fifo() == [] && |st.pending| < cfg.ackWindow
            then SentLast(st, r, b, st.accums[id].cursors)
            else SpooledLast(cfg, st, r, b, evicted)
  {
    evicted := DispatchGoes(cfg, TakeBatch(st, id), BuildBatch(st, id), st.accums[id].cursors);
  }

  lemma SendNowRefusesNothing(cfg: Config, st: State, batch: Batch, cursors: Cursors, fromSpool: bool)
    ensures SendNow(cfg, st, batch, cursors, fromSpool).log.refused == st.log.refused
  {
    var st1 := PushPending(st, Outstanding(batch, cursors, fromSpool));
    DemoteSame(cfg, NoteReorder(st1), st1.pending);
  }

  lemma {:induction false} DrainRefusesNothing(cfg: Config, st: State)
    ensures DrainLoop(cfg, st).log.refused == st.log.refused
    decreases Len(st.spool)
  {
    if Len(st.spool) > 0 {
      match cfg.unmarshal(st.spool.Fifo()[0])
      case None =>
        ReleaseRefines(st.spool);
        DrainRefusesNothing(cfg, DropCorrupt(cfg, st));
      case Some(b) =>
        SendNowRefusesNothing(cfg, st, b, FrontMeta(st), true);
    }
  }

  lemma SpoolRefusesNothing(cfg: Config, st: State, batch: Batch, cursors: Cursors)
    ensures AppendToSpool(cfg, NoteOverflow(cfg, st), batch, cursors).log.refused == st.log.refused
  {
    AppendSame(cfg, NoteOverflow(cfg, st), batch, cursors);
  }

  lemma DispatchRefusesNothing(cfg: Config, st: State, batch: Batch, cursors: Cursors)
    ensures Dispatch(cfg, st, batch, cursors).log.refused == st.log.refused
  {
    if MaySend(cfg, st) {
      SendNowRefusesNothing(cfg, st, batch, cursors, false);
    } else {
      SpoolRefusesNothing(cfg, st, batch, cursors);
    }
  }

  lemma FlushRefusesNothing(cfg: Config, st: State, id: StreamID)
    ensures FlushAccum(cfg, st, id).log.refused == st.log.refused
  {
    if id in st.accums && st.accums[id].records != [] {
      DispatchRefusesNothing(cfg, TakeBatch(st, id), BuildBatch(st, id), st.accums[id].cursors);
    }
  }

  lemma {:induction false} FlushEachRefusesNothing(cfg: Config, st: State, ids: seq<StreamID>)
    ensures FlushEach(cfg, st, ids).log.refused == st.log.refused
    decreases |ids|
  {
    if ids != [] {
      FlushRefusesNothing(cfg, st, ids[0]);
      FlushEachRefusesNothing(cfg, FlushAccum(cfg, st, ids[0]), ids[1..]);
    }
  }

  lemma MakeRoomRefusesNothing(cfg: Config, st: State, id: StreamID, line: Line, now: nat)
    ensures MakeRoom(cfg, st, id, line, now).log.refused == st.log.refused
  {
    FlushRefusesNothing(cfg, EnsureAccum(cfg, st, id, now), id);
  }

  lemma FoldRefusesNothing(cfg: Config, st: State, id: StreamID, line: Line)
    requires id in st.accums
    ensures FlushIfFull(cfg, Fold(cfg, st, id, line), id).log.refused == st.log.refused
  {
    FlushRefusesNothing(cfg, Fold(cfg, st, id, line), id);
  }

  lemma AddLineRefusesNothing(cfg: Config, st: State, line: Line, now: nat)
    ensures AddLine(cfg, st, line, now).log.refused == st.log.refused
  {
    match cfg.labels(line.source)
    case None =>
    case Some(id) =>
      MakeRoomRefusesNothing(cfg, st, id, line, now);
      FoldRefusesNothing(cfg, MakeRoom(cfg, st, id, line, now), id, line);
  }

  lemma AckRefuses(cfg: Config, st: State, code: AckCode)
    requires st.pending != []
    ensures ProcessAck(cfg, st, code).log.refused == (st.log.refused || code == INVALID)
  {
    DemoteSame(cfg, NoteReorder(st), st.pending);
    DrainRefusesNothing(cfg, ApplyAck(cfg, st, code));
  }

  lemma RetryRefusesNothing(cfg: Config, st: State, ok: bool)
    ensures OnRetry(cfg, st, ok).log.refused == st.log.refused
  {
    DrainRefusesNothing(cfg, OpenStream(st));
  }

  lemma PauseRefusesNothing(cfg: Config, st: State)
    ensures OnPauseOver(cfg, st).log.refused == st.log.refused
  {
    DrainRefusesNothing(cfg, Resume(st));
  }

  lemma EndRefusesNothing(cfg: Config, st: State)
    ensures OnStreamEnd(cfg, st).log.refused == st.log.refused
  {
    DemoteSame(cfg, NoteReorder(st), st.pending);
  }

  lemma AckStepRefuses(cfg: Config, st: State, code: AckCode)
    ensures OnAck(cfg, st, code).log.refused == (st.log.refused || (code == INVALID && st.connected && st.pending != []))
  {
    if st.pending != [] {
      AckRefuses(cfg, st, code);
    }
  }

  /** A batch is refused for good by an INVALID ack that finds one waiting, and by nothing else. */
  lemma ReactRefuses(cfg: Config, st: State, event: Event)
    ensures React(cfg, st, event).log.refused == (st.log.refused || (event == AckArrives(INVALID) && st.connected && st.pending != []))
  {
    match event
    case LineArrives(line, now) => AddLineRefusesNothing(cfg, st, line, now);
    case AccumTimer(due) => FlushEachRefusesNothing(cfg, st, due);
    case RetryTimer(ok) => RetryRefusesNothing(cfg, st, ok);
    case PauseTimer => PauseRefusesNothing(cfg, st);
    case AckArrives(code) => AckStepRefuses(cfg, st, code);
    case StreamEnds => EndRefusesNothing(cfg, st);
    case CommitTick =>
  }

  /** So a run without INVALID acks refuses nothing. */
  lemma {:induction false} RefusedByInvalid(cfg: Config, spool: Spool, ck: Cursors, inputs: seq<Input>)
    requires forall k :: 0 <= k < |inputs| ==> inputs[k].event != AckArrives(INVALID)
    ensures !Run(cfg, Start(cfg, spool, ck), inputs).log.refused
    decreases |inputs|
  {
    if inputs != [] {
      var k := |inputs| - 1;
      RefusedByInvalid(cfg, spool, ck, inputs[..k]);
      ReactRefuses(cfg, Run(cfg, Start(cfg, spool, ck), inputs[..k]).(sendsLeft := inputs[k].sends), inputs[k].event);
    }
  }
}
