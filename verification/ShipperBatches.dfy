/** How batches are made (internal/agent/shipper.go, addLine and flushAccum): each is within both bounds,
    and none leaves before it must. */
module ShipperBatches {
  import opened Prelude
  import opened SpoolQueue
  import opened ShipperModel
  import opened ShipperLive

  /** The sizes of these lines together. */
  function Weight(lines: seq<Line>, records: seq<nat>): nat
    decreases |records|
  {
    if records == [] then 0
    else
      var k := |records| - 1;
      Weight(lines, records[..k]) + if records[k] < |lines| then lines[records[k]].size else 0
  }

  lemma WeightSnoc(lines: seq<Line>, records: seq<nat>, n: nat)
    ensures Weight(lines, records + [n]) == Weight(lines, records) + if n < |lines| then lines[n].size else 0
  {
    assert (records + [n])[..|records|] == records;
  }

  lemma {:induction false} WeightLater(lines: seq<Line>, line: Line, records: seq<nat>)
    requires forall k :: 0 <= k < |records| ==> records[k] < |lines|
    ensures Weight(lines + [line], records) == Weight(lines, records)
    decreases |records|
  {
    if records != [] {
      WeightLater(lines, line, records[..|records| - 1]);
    }
  }

  /** Records that may leave as one batch. */
  ghost predicate WithinBounds(cfg: Config, lines: seq<Line>, id: StreamID, records: seq<nat>) {
    && |records| <= cfg.maxBatchRecords
    && (forall k :: 0 <= k < |records| ==> records[k] < |lines|)
    && (records != [] ==> cfg.overhead(id) + Weight(lines, records) <= cfg.maxBatchBytes)
  }

  ghost predicate Measured(cfg: Config, lines: seq<Line>, id: StreamID, a: Accum) {
    a.bytes == Weight(lines, a.records) && WithinBounds(cfg, lines, id, a.records)
  }

  /** Between events no accumulator is full. */
  ghost predicate Tidy(cfg: Config, lines: seq<Line>, accums: map<StreamID, Accum>) {
    forall id :: id in accums ==> Measured(cfg, lines, id, accums[id]) && |accums[id].records| < cfg.maxBatchRecords
  }

  ghost predicate BatchOk(cfg: Config, lines: seq<Line>, e: Entry) {
    e.batch.Some? && e.batch.value.records != [] && WithinBounds(cfg, lines, e.batch.value.stream, e.batch.value.records)
  }

  /** The batches from `from` on, which were built in this run. */
  ghost predicate AllOk(cfg: Config, lines: seq<Line>, flushed: seq<Entry>, from: nat) {
    forall i :: from <= i < |flushed| ==> BatchOk(cfg, lines, flushed[i])
  }

  ghost predicate Batching(cfg: Config, st: State, from: nat) {
    Tidy(cfg, st.log.lines, st.accums) && AllOk(cfg, st.log.lines, st.log.flushed, from)
  }

  predicate SameBatching(a: State, b: State) {
    b.accums == a.accums && b.log.lines == a.log.lines && b.log.flushed == a.log.flushed
  }

  // What leaves the accumulators alone

  lemma SendNowSame(cfg: Config, st: State, batch: Batch, cursors: Cursors, fromSpool: bool)
    ensures SameBatching(st, SendNow(cfg, st, batch, cursors, fromSpool))
  {
    var st1 := PushPending(st, Outstanding(batch, cursors, fromSpool));
    DemoteSame(cfg, NoteReorder(st1), st1.pending);
  }

  lemma DispatchSame(cfg: Config, st: State, batch: Batch, cursors: Cursors)
    ensures SameBatching(st, Dispatch(cfg, st, batch, cursors))
  {
    if MaySend(cfg, st) {
      SendNowSame(cfg, st, batch, cursors, false);
    } else {
      AppendSame(cfg, NoteOverflow(cfg, st), batch, cursors);
    }
  }

  lemma {:induction false} DrainSame(cfg: Config, st: State)
    ensures SameBatching(st, DrainLoop(cfg, st))
    decreases Len(st.spool)
  {
    if Len(st.spool) > 0 {
      match cfg.unmarshal(st.spool.Fifo()[0])
      case None =>
        ReleaseRefines(st.spool);
        DrainSame(cfg, DropCorrupt(cfg, st));
      case Some(b) =>
        SendNowSame(cfg, st, b, FrontMeta(st), true);
    }
  }

  lemma ApplyAckSame(cfg: Config, st: State, code: AckCode)
    requires st.pending != []
    ensures SameBatching(st, ApplyAck(cfg, st, code))
  {
    DemoteSame(cfg, NoteReorder(st), st.pending);
  }

  lemma AckSame(cfg: Config, st: State, code: AckCode)
    ensures SameBatching(st, OnAck(cfg, st, code))
  {
    if st.connected && st.pending != [] {
      ApplyAckSame(cfg, st, code);
      DrainSame(cfg, ApplyAck(cfg, st, code));
    }
  }

  lemma RetrySame(cfg: Config, st: State, ok: bool)
    ensures SameBatching(st, OnRetry(cfg, st, ok))
  {
    DrainSame(cfg, OpenStream(st));
  }

  lemma PauseSame(cfg: Config, st: State)
    ensures SameBatching(st, OnPauseOver(cfg, st))
  {
    DrainSame(cfg, Resume(st));
  }

  lemma EndSame(cfg: Config, st: State)
    ensures SameBatching(st, OnStreamEnd(cfg, st))
  {
    DemoteSame(cfg, NoteReorder(st), st.pending);
  }

  // Flushing

  /** What a flush does to the accumulators and the batches. */
  lemma FlushIs(cfg: Config, st: State, id: StreamID)
    ensures var r := FlushAccum(cfg, st, id);
            && r.accums == st.accums - {id} && r.log.lines == st.log.lines
            && r.log.flushed == st.log.flushed +
                 if id in st.accums && st.accums[id].records != []
                 then [Entry(Some(Batch(st.batchSeq + 1, id, st.accums[id].records)), st.accums[id].cursors)] else []
  {
    if id in st.accums && st.accums[id].records != [] {
      DispatchSame(cfg, TakeBatch(st, id), BuildBatch(st, id), st.accums[id].cursors);
    } else {
      assert st.log.flushed + [] == st.log.flushed;
      assert id !in st.accums ==> st.accums - {id} == st.accums;
    }
  }

  lemma FlushBatching(cfg: Config, st: State, id: StreamID, from: nat)
    requires Batching(cfg, st, from)
    ensures Batching(cfg, FlushAccum(cfg, st, id), from)
  {
    FlushIs(cfg, st, id);
    if id in st.accums {
      assert Measured(cfg, st.log.lines, id, st.accums[id]);
    }
  }

  lemma {:induction false} FlushEachBatching(cfg: Config, st: State, ids: seq<StreamID>, from: nat)
    requires Batching(cfg, st, from)
    ensures Batching(cfg, FlushEach(cfg, st, ids), from)
    decreases |ids|
  {
    if ids != [] {
      FlushBatching(cfg, st, ids[0], from);
      FlushEachBatching(cfg, FlushAccum(cfg, st, ids[0]), ids[1..], from);
    }
  }

  // A line

  lemma EmptyMeasured(cfg: Config, lines: seq<Line>, id: StreamID, now: nat)
    requires cfg.Ok()
    ensures Measured(cfg, lines, id, NewAccum(cfg, now)) && |NewAccum(cfg, now).records| < cfg.maxBatchRecords
  {
  }

  lemma SetBatching(cfg: Config, st: State, id: StreamID, now: nat, from: nat)
    requires cfg.Ok() && Batching(cfg, st, from)
    ensures Batching(cfg, ResetAccum(cfg, st, id, now), from)
  {
    EmptyMeasured(cfg, st.log.lines, id, now);
  }

  /** There is room, and nothing was flushed unless there was none. */
  lemma RoomIs(cfg: Config, st: State, id: StreamID, line: Line, now: nat, from: nat)
    requires cfg.Ok() && Batching(cfg, st, from)
    ensures var r := MakeRoom(cfg, st, id, line, now);
            && Batching(cfg, r, from) && r.log.lines == st.log.lines && r.accums - {id} == st.accums - {id}
            && (line.valid && r.accums[id].records != [] ==> cfg.overhead(id) + Weight(st.log.lines, r.accums[id].records) + line.size <= cfg.maxBatchBytes)
  {
    var st1 := EnsureAccum(cfg, st, id, now);
    SetBatching(cfg, st, id, now, from);
    assert Measured(cfg, st.log.lines, id, st1.accums[id]);
    if NoRoom(cfg, st1, id, line) {
      FlushBatching(cfg, st1, id, from);
      FlushIs(cfg, st1, id);
      SetBatching(cfg, FlushAccum(cfg, st1, id), id, now, from);
    }
  }

  lemma {:induction false} TidyLater(cfg: Config, lines: seq<Line>, line: Line, accums: map<StreamID, Accum>)
    requires Tidy(cfg, lines, accums)
    ensures Tidy(cfg, lines + [line], accums)
  {
    forall id | id in accums
      ensures Measured(cfg, lines + [line], id, accums[id])
    {
      assert Measured(cfg, lines, id, accums[id]);
      WeightLater(lines, line, accums[id].records);
    }
  }

  lemma OkLater(cfg: Config, lines: seq<Line>, line: Line, flushed: seq<Entry>, from: nat)
    requires AllOk(cfg, lines, flushed, from)
    ensures AllOk(cfg, lines + [line], flushed, from)
  {
    forall i | from <= i < |flushed|
      ensures BatchOk(cfg, lines + [line], flushed[i])
    {
      assert BatchOk(cfg, lines, flushed[i]);
      WeightLater(lines, line, flushed[i].batch.value.records);
    }
  }

  lemma AttachMeasured(cfg: Config, lines: seq<Line>, id: StreamID, a: Accum, line: Line)
    requires Measured(cfg, lines, id, a) && |a.records| < cfg.maxBatchRecords
    requires line.valid && a.records != [] ==> cfg.overhead(id) + Weight(lines, a.records) + line.size <= cfg.maxBatchBytes
    ensures Measured(cfg, lines + [line], id, Attach(a, line, |lines|, cfg.Shippable(id, line)))
  {
    WeightLater(lines, line, a.records);
    WeightSnoc(lines + [line], a.records, |lines|);
    assert a.records == [] ==> Weight(lines, a.records) == 0;
  }

  lemma FoldBatching(cfg: Config, st: State, id: StreamID, line: Line, from: nat)
    requires cfg.Ok() && Batching(cfg, st, from) && id in st.accums
    requires line.valid && st.accums[id].records != [] ==>
               cfg.overhead(id) + Weight(st.log.lines, st.accums[id].records) + line.size <= cfg.maxBatchBytes
    ensures Batching(cfg, FlushIfFull(cfg, Fold(cfg, st, id, line), id), from)
  {
    var r := Fold(cfg, st, id, line);
    assert Measured(cfg, st.log.lines, id, st.accums[id]);
    AttachMeasured(cfg, st.log.lines, id, st.accums[id], line);
    TidyLater(cfg, st.log.lines, line, st.accums);
    OkLater(cfg, st.log.lines, line, st.log.flushed, from);
    if |r.accums[id].records| >= cfg.maxBatchRecords {
      FlushIs(cfg, r, id);
      assert r.accums[id].records != [];
    }
  }

  lemma AddLineBatching(cfg: Config, st: State, line: Line, now: nat, from: nat)
    requires cfg.Ok() && Batching(cfg, st, from)
    ensures Batching(cfg, AddLine(cfg, st, line, now), from)
  {
    match cfg.labels(line.source)
    case None =>
      TidyLater(cfg, st.log.lines, line, st.accums);
      OkLater(cfg, st.log.lines, line, st.log.flushed, from);
    case Some(id) =>
      RoomIs(cfg, st, id, line, now, from);
      FoldBatching(cfg, MakeRoom(cfg, st, id, line, now), id, line, from);
  }

  lemma ReactBatching(cfg: Config, st: State, event: Event, from: nat)
    requires cfg.Ok() && Batching(cfg, st, from)
    ensures Batching(cfg, React(cfg, st, event), from)
  {
    match event
    case LineArrives(line, now) => AddLineBatching(cfg, st, line, now, from);
    case AccumTimer(due) => FlushEachBatching(cfg, st, due, from);
    case RetryTimer(ok) => RetrySame(cfg, st, ok);
    case PauseTimer => PauseSame(cfg, st);
    case AckArrives(code) => AckSame(cfg, st, code);
    case StreamEnds => EndSame(cfg, st);
    case CommitTick =>
  }

  /** In every run each batch has a record and is within both bounds, measured by the lines themselves; and
      between events no accumulator has reached the record bound. */
  lemma {:induction false} EveryBatchIsWithinBounds(cfg: Config, spool: Spool, ck: Cursors, inputs: seq<Input>)
    requires cfg.Ok()
    ensures Batching(cfg, Run(cfg, Start(cfg, spool, ck), inputs), Len(spool))
    decreases |inputs|
  {
    if inputs != [] {
      var k := |inputs| - 1;
      var st := Run(cfg, Start(cfg, spool, ck), inputs[..k]);
      EveryBatchIsWithinBounds(cfg, spool, ck, inputs[..k]);
      ReactBatching(cfg, st.(sendsLeft := inputs[k].sends), inputs[k].event, Len(spool));
    }
  }

  /** Why a batch left when this line came: it has as many records as a batch may have, or the line does not
      fit beside its records. */
  predicate MustLeave(cfg: Config, lines: seq<Line>, line: Line, b: Batch) {
    |b.records| >= cfg.maxBatchRecords || (line.valid && cfg.overhead(b.stream) + Weight(lines, b.records) + line.size > cfg.maxBatchBytes)
  }

  /** From a to b, only such batches of this stream have left, and no other accumulator has changed. */
  ghost predicate LeavesOnly(cfg: Config, a: State, b: State, id: StreamID, lines: seq<Line>, line: Line) {
    && a.log.flushed <= b.log.flushed && b.accums - {id} == a.accums - {id}
    && forall i :: |a.log.flushed| <= i < |b.log.flushed| ==>
         b.log.flushed[i].batch.Some? && b.log.flushed[i].batch.value.stream == id
         && MustLeave(cfg, lines, line, b.log.flushed[i].batch.value)
  }

  lemma CrowdedLeaves(cfg: Config, st: State, id: StreamID, line: Line)
    requires id in st.accums && Measured(cfg, st.log.lines, id, st.accums[id]) && NoRoom(cfg, st, id, line)
    ensures var r := FlushAccum(cfg, st, id);
            LeavesOnly(cfg, st, r, id, st.log.lines + [line], line) && r.log.lines == st.log.lines && r.log.flushed != st.log.flushed
  {
    WeightLater(st.log.lines, line, st.accums[id].records);
    FlushIs(cfg, st, id);
  }

  lemma ResetLeaves(cfg: Config, st: State, id: StreamID, now: nat, lines: seq<Line>, line: Line)
    ensures LeavesOnly(cfg, st, ResetAccum(cfg, st, id, now), id, lines, line) && LeavesOnly(cfg, st, EnsureAccum(cfg, st, id, now), id, lines, line)
  {
  }

  lemma RoomLeaves(cfg: Config, st: State, id: StreamID, line: Line, now: nat)
    requires cfg.Ok() && Tidy(cfg, st.log.lines, st.accums)
    ensures var r := MakeRoom(cfg, st, id, line, now);
            && LeavesOnly(cfg, st, r, id, st.log.lines + [line], line) && r.log.lines == st.log.lines
            && (if r.log.flushed == st.log.flushed && id in st.accums then r.accums[id] == st.accums[id]
                else r.accums[id] == NewAccum(cfg, now))
  {
    var st1, lines := EnsureAccum(cfg, st, id, now), st.log.lines + [line];
    EmptyMeasured(cfg, st.log.lines, id, now);
    ResetLeaves(cfg, st, id, now, lines, line);
    if NoRoom(cfg, st1, id, line) {
      var st2 := FlushAccum(cfg, st1, id);
      CrowdedLeaves(cfg, st1, id, line);
      ResetLeaves(cfg, st2, id, now, lines, line);
      LeavesTwice(cfg, st, st1, st2, id, lines, line);
      LeavesTwice(cfg, st, st2, ResetAccum(cfg, st2, id, now), id, lines, line);
    }
  }

  lemma FoldLeaves(cfg: Config, st: State, id: StreamID, line: Line)
    requires cfg.Ok() && id in st.accums
    ensures var r := FlushIfFull(cfg, Fold(cfg, st, id, line), id);
            && LeavesOnly(cfg, st, r, id, st.log.lines + [line], line)
            && (id in r.accums ==> st.accums[id].records <= r.accums[id].records && r.accums[id].deadline == st.accums[id].deadline)
            && (id in r.accums <==> r.log.flushed == st.log.flushed)
  {
    FlushIs(cfg, Fold(cfg, st, id, line), id);
  }

  lemma LeavesTwice(cfg: Config, a: State, b: State, c: State, id: StreamID, lines: seq<Line>, line: Line)
    requires LeavesOnly(cfg, a, b, id, lines, line) && LeavesOnly(cfg, b, c, id, lines, line)
    ensures LeavesOnly(cfg, a, c, id, lines, line)
  {
  }

  /** No batch leaves early: of what was accumulated, a line makes only that leave which must, and only of
      its own stream; otherwise it joins what is there, which keeps its deadline. A new accumulator is due
      one delay after the line that opened it. */
  lemma LinesLeaveWhenTheyMust(cfg: Config, st: State, line: Line, now: nat)
    requires cfg.Ok() && Tidy(cfg, st.log.lines, st.accums) && cfg.labels(line.source).Some?
    ensures var r, id := AddLine(cfg, st, line, now), cfg.labels(line.source).value;
            && LeavesOnly(cfg, st, r, id, st.log.lines + [line], line)
            && (r.log.flushed == st.log.flushed ==> id in r.accums)
            && (id in r.accums && id in st.accums && r.log.flushed == st.log.flushed ==>
                  st.accums[id].records <= r.accums[id].records && r.accums[id].deadline == st.accums[id].deadline)
            && (id in r.accums && (id !in st.accums || r.log.flushed != st.log.flushed) ==>
                  r.accums[id].deadline == now + cfg.maxBatchDelay)
  {
    var id := cfg.labels(line.source).value;
    var st2 := MakeRoom(cfg, st, id, line, now);
    RoomLeaves(cfg, st, id, line, now);
    FoldLeaves(cfg, st2, id, line);
    LeavesTwice(cfg, st, st2, AddLine(cfg, st, line, now), id, st.log.lines + [line], line);
  }
}
