/** A configuration that the theorems about the shipper apply to, and runs of it in which a promise
    of the documentation fails. */
module ShipperExamples {
  import opened Prelude
  import opened Frames
  import opened SpoolQueue
  import opened ShipperModel
  import opened ShipperMoves
  import opened ShipperLedger
  import opened ShipperReplay
  import opened ShipperOrder
  import opened ShipperGap

  predicate Small(b: Batch) {
    && b.id < 256 && 0 <= b.stream < 256 && |b.records| + 2 <= MAX_PAYLOAD
    && (forall i :: 0 <= i < |b.records| ==> b.records[i] < 256)
  }

  /** One byte for the id, one for the stream, one for each record; a batch this cannot hold is too big
      for the spool. */
  function Pack(b: Batch): bytes {
    if Small(b) then [b.id as byte, b.stream as byte] + seq(|b.records|, i requires 0 <= i < |b.records| => b.records[i] as byte)
    else seq(MAX_PAYLOAD + 1, _ => 0)
  }

  function Unpack(p: Payload): Option<Batch> {
    if |p| < 2 then None else Some(Batch(p[0] as nat, p[1] as int, seq(|p| - 2, i requires 0 <= i < |p| - 2 => p[i + 2] as nat)))
  }

  /** Every line is a batch of its own. */
  function Sample(limits: Limits, ackWindow: nat): Config {
    Config(source => Some(0), id => 0, Pack, Unpack, limits, 1, 100, 1, ackWindow)
  }

  /** Such configurations are lossless, whatever their limits and window. */
  lemma SampleIsLossless(limits: Limits, ackWindow: nat)
    requires ackWindow > 0
    ensures Sample(limits, ackWindow).Ok() && Sample(limits, ackWindow).Lossless()
  {
    var cfg := Sample(limits, ackWindow);
    forall b: Batch | cfg.Fits(b)
      ensures cfg.unmarshal(cfg.marshal(b)) == Some(b)
    {
      assert Small(b);
      assert Unpack(Pack(b)).value.records == b.records;
    }
  }

  lemma RunOne(cfg: Config, st: State, inputs: seq<Input>, last: Input)
    ensures Run(cfg, st, inputs + [last]) == Step(cfg, Run(cfg, st, inputs), last)
  {
    assert (inputs + [last])[..|inputs|] == inputs;
  }

  lemma RunTwo(cfg: Config, st: State, a: Input, b: Input)
    ensures Run(cfg, st, [a, b]) == Step(cfg, Step(cfg, st, a), b)
  {
    RunOne(cfg, st, [], a);
    RunOne(cfg, st, [a], b);
    assert [] + [a] == [a] && [a] + [b] == [a, b];
  }

  lemma RunThree(cfg: Config, st: State, a: Input, b: Input, c: Input)
    ensures Run(cfg, st, [a, b, c]) == Step(cfg, Run(cfg, st, [a, b]), c)
  {
    RunOne(cfg, st, [a, b], c);
    assert [a, b] + [c] == [a, b, c];
  }

  lemma RunFour(cfg: Config, st: State, a: Input, b: Input, c: Input, d: Input)
    ensures Run(cfg, st, [a, b, c, d]) == Step(cfg, Step(cfg, Run(cfg, st, [a, b]), c), d)
  {
    RunThree(cfg, st, a, b, c);
    RunOne(cfg, st, [a, b, c], d);
    assert [a, b, c] + [d] == [a, b, c, d];
  }

  lemma RunFive(cfg: Config, st: State, a: Input, b: Input, c: Input, d: Input, e: Input)
    ensures Run(cfg, st, [a, b, c, d, e]) == Step(cfg, Step(cfg, Step(cfg, Run(cfg, st, [a, b]), c), d), e)
  {
    RunFour(cfg, st, a, b, c, d);
    RunOne(cfg, st, [a, b, c, d], e);
    assert [a, b, c, d] + [e] == [a, b, c, d, e];
  }

  const GOOD := Line("a", 1, 10, true, 1)
  const NEXT := Line("a", 1, 20, true, 1)
  const BAD := Line("a", 1, 20, false, 1)

  const UP := Input(RetryTimer(true), 9)
  const DOWN := Input(StreamEnds, 9)

  function Arrive(line: Line): Input {
    Input(LineArrives(line, 0), 9)
  }

  /** The batch that line n becomes. */
  function Single(n: nat): Batch {
    Batch(n + 1, 0, [n])
  }

  function At(n: nat, line: Line): Cursors {
    map[line.source := Cursor(n, line.file, line.offset)]
  }

  /** The state with the line's batch built. */
  function Built(st: State, line: Line): State {
    st.(sendsLeft := 9, batchSeq := st.batchSeq + 1,
        log := st.log.(lines := st.log.lines + [line],
                       flushed := st.log.flushed + [Entry(Some(Single(st.batchSeq)), At(st.batchSeq, line))]))
  }

  /** What a line that arrives finds in its accumulator. */
  function Held(n: nat, line: Line): Accum {
    if line.valid then Accum([n], 1, At(n, line), 1) else Accum([], 0, At(n, line), 1)
  }

  function Holding(st: State, line: Line): State {
    st.(accums := map[0 := Held(|st.log.lines|, line)],
        log := st.log.(lines := st.log.lines + [line],
                       droppedFresh := When(!line.valid, st.log.droppedFresh, [|st.log.lines|])))
  }

  function Flushed(st: State, n: nat, line: Line): State {
    st.(accums := map[], batchSeq := st.batchSeq + 1,
        log := st.log.(flushed := st.log.flushed + [Entry(Some(Batch(st.batchSeq + 1, 0, [n])), At(n, line))]))
  }

  /** What the sample configurations decide about a line. */
  predicate Plain(cfg: Config, line: Line) {
    && cfg.labels(line.source) == Some(0) && cfg.overhead(0) == 0 && line.size == 1
    && cfg.maxBatchRecords == 1 && cfg.maxBatchBytes == 100 && cfg.maxBatchDelay == 1
  }

  lemma RoomIsMade(cfg: Config, st: State, line: Line)
    requires st.accums == map[] && Plain(cfg, line)
    ensures MakeRoom(cfg, st, 0, line, 0) == st.(accums := map[0 := Accum([], 0, map[], 1)])
  {
  }

  lemma LineIsHeld(cfg: Config, st: State, line: Line)
    requires st.accums == map[0 := Accum([], 0, map[], 1)] && Plain(cfg, line)
    ensures Fold(cfg, st, 0, line) == Holding(st, line)
  {
    var n := |st.log.lines|;
    assert map[][line.source := Cursor(n, line.file, line.offset)] == At(n, line);
    assert [] + [n] == [n];
    assert Attach(Accum([], 0, map[], 1), line, n, line.valid) == Held(n, line);
  }

  lemma HeldIsFlushed(cfg: Config, st: State, n: nat, line: Line)
    requires st.accums == map[0 := Held(n, line)] && line.valid && cfg.maxBatchRecords == 1
    ensures FlushIfFull(cfg, st, 0) == Dispatch(cfg, Flushed(st, n, line), Batch(st.batchSeq + 1, 0, [n]), At(n, line))
  {
    assert st.accums - {0} == map[];
    assert TakeBatch(st, 0) == Flushed(st, n, line);
    assert BuildBatch(st, 0) == Batch(st.batchSeq + 1, 0, [n]);
  }

  lemma LineIsAdded(cfg: Config, st: State, line: Line)
    requires st.accums == map[] && Plain(cfg, line)
    ensures AddLine(cfg, st, line, 0) == FlushIfFull(cfg, Holding(st, line), 0)
  {
    RoomIsMade(cfg, st, line);
    var st1 := st.(accums := map[0 := Accum([], 0, map[], 1)]);
    LineIsHeld(cfg, st1, line);
    assert Holding(st1, line) == Holding(st, line);
  }

  lemma Arrives(cfg: Config, st: State, line: Line)
    ensures Step(cfg, st, Arrive(line)) == AddLine(cfg, st.(sendsLeft := 9), line, 0)
  {
  }

  lemma FlushedIsBuilt(st: State, line: Line)
    requires st.batchSeq == |st.log.lines| && line.valid
    ensures Flushed(Holding(st.(sendsLeft := 9), line), st.batchSeq, line) == Built(st.(accums := map[]), line)
  {
  }

  /** With a batch for every line, a line that arrives is dispatched. */
  lemma LineIsDispatched(cfg: Config, st: State, line: Line)
    requires st.accums == map[] && st.batchSeq == |st.log.lines| && line.valid && Plain(cfg, line)
    ensures Step(cfg, st, Arrive(line)) == Dispatch(cfg, Built(st, line), Single(st.batchSeq), At(st.batchSeq, line))
  {
    var st1 := st.(sendsLeft := 9);
    Arrives(cfg, st, line);
    LineIsAdded(cfg, st1, line);
    HeldIsFlushed(cfg, Holding(st1, line), st.batchSeq, line);
    FlushedIsBuilt(st, line);
    assert st.(accums := map[]) == st;
  }

  lemma Sends(cfg: Config, st: State, batch: Batch, cursors: Cursors)
    requires MaySend(cfg, st) && st.sendsLeft > 0
    ensures Dispatch(cfg, st, batch, cursors) == PushPending(st, Outstanding(batch, cursors, false))
  {
  }

  lemma Spools(cfg: Config, st: State, batch: Batch, cursors: Cursors)
    requires !MaySend(cfg, st)
    ensures Dispatch(cfg, st, batch, cursors) == AppendToSpool(cfg, NoteOverflow(cfg, st), batch, cursors)
  {
  }

  /** An empty spool: the stream is opened and nothing is sent. */
  lemma Opens(cfg: Config, st: State)
    requires st.retryArmed && Len(st.spool) == 0
    ensures Step(cfg, st, UP) == OpenStream(st.(sendsLeft := 9))
  {
  }

  lemma FirstFits(limits: Limits, window: nat, n: nat)
    requires n < 255
    ensures Sample(limits, window).Fits(Single(n)) && |Pack(Single(n))| == 3
    ensures Unpack(Pack(Single(n))) == Some(Single(n))
  {
    assert Unpack(Pack(Single(n))).value.records == [n];
  }

  /** Spooling into a spool that stays within one segment evicts nothing. */
  lemma StaysWhole(lim: Limits, q: Spool, p: Payload)
    requires |q.segments| <= 1 && (q.segments != [] ==> Size(q.segments[0].entries) + HEADER + |p| <= lim.segmentBytes)
    ensures AppendEvicts(lim, q, p) == 0 && |Append(lim, q, p).segments| == 1
    ensures Append(lim, q, p).segments[0].entries == (if q.segments == [] then [] else q.segments[0].entries) + [p]
    ensures Append(lim, q, p).Fifo() == q.Fifo() + [p]
  {
    AppendRefines(lim, q, p);
    assert (q.Fifo() + [p])[0..] == q.Fifo() + [p];
  }

  const ROOMY := Limits(1000, 1000)

  /** Connected, with line 0 sent and unanswered. */
  function FirstSent(window: nat): State {
    Run(Sample(ROOMY, window), Start(Sample(ROOMY, window), EmptyQueue, map[]), [UP, Arrive(GOOD)])
  }

  lemma FirstIsSent(window: nat)
    requires window > 0
    ensures var st := FirstSent(window);
            && st.accums == map[] && st.pending == [Outstanding(Single(0), At(0, GOOD), false)]
            && st.spool == EmptyQueue && st.meta == [] && st.ck == map[] && st.committed == map[]
            && st.connected && !st.paused && st.batchSeq == 1 && st.sent == [Single(0)] && st.sendsLeft == 8
            && st.log == Start(Sample(ROOMY, window), EmptyQueue, map[]).log.(
                 lines := [GOOD], flushed := [Entry(Some(Single(0)), At(0, GOOD))])
  {
    var cfg := Sample(ROOMY, window);
    var st0 := Start(cfg, EmptyQueue, map[]);
    var st1 := OpenStream(st0.(sendsLeft := 9));
    RunTwo(cfg, st0, UP, Arrive(GOOD));
    Opens(cfg, st0);
    FirstGoesOut(cfg, st1);
  }

  /** The first line of a new connection over an empty spool. */
  lemma FirstGoesOut(cfg: Config, st: State)
    requires st.accums == map[] && st.batchSeq == 0 && st.log.lines == [] && st.log.flushed == [] && Plain(cfg, GOOD)
    requires MaySend(cfg, st) && st.sent == [] && st.pending == [] && !st.log.displaced
    ensures var r := Step(cfg, st, Arrive(GOOD));
            && r.pending == [Outstanding(Single(0), At(0, GOOD), false)] && r.sent == [Single(0)]
            && r == st.(pending := r.pending, sent := r.sent, batchSeq := 1, sendsLeft := 8,
                        log := st.log.(lines := [GOOD], flushed := [Entry(Some(Single(0)), At(0, GOOD))]))
  {
    LineIsDispatched(cfg, st, GOOD);
    Sends(cfg, Built(st, GOOD), Single(0), At(0, GOOD));
    assert [] + [GOOD] == [GOOD];
  }

  /** A line that cannot be shipped is skipped past an unanswered one of the same source, and the
      checkpoint is committed: after a crash line 0 is nowhere and is not read again. */
  lemma EarlySkipLosesALine()
    ensures var cfg := Sample(ROOMY, 2);
            var st := Run(cfg, Start(cfg, EmptyQueue, map[]),
                          [UP, Arrive(GOOD), Arrive(BAD), Input(AccumTimer([0]), 9), Input(CommitTick, 9)]);
            && st.log.hasty && 0 < |st.log.lines|
            && Elsewhere(cfg, st, 0) == 0 && !CheckpointBefore(st, 0)
  {
    var cfg := Sample(ROOMY, 2);
    var st0, st2 := Start(cfg, EmptyQueue, map[]), FirstSent(2);
    FirstIsSent(2);
    var timer, tick := Input(AccumTimer([0]), 9), Input(CommitTick, 9);
    RunFive(cfg, st0, UP, Arrive(GOOD), Arrive(BAD), timer, tick);
    var st3 := Step(cfg, st2, Arrive(BAD));
    SkippableIsHeld(st2, st3);
    SkipAndCommit(st3);
  }

  lemma SkippableIsHeld(st2: State, st3: State)
    requires st2 == FirstSent(2) && st3 == Step(Sample(ROOMY, 2), st2, Arrive(BAD))
    ensures st3.accums == map[0 := Accum([], 0, At(1, BAD), 1)]
    ensures st3.log.lines == [GOOD, BAD] && st3.pending == st2.pending && st3.ck == map[] && st3.spool == EmptyQueue
    ensures st3.log == st2.log.(lines := [GOOD, BAD], droppedFresh := [1])
  {
    FirstIsSent(2);
    BadIsHeld(Sample(ROOMY, 2), st2, st3);
  }

  lemma BadIsHeld(cfg: Config, st2: State, st3: State)
    requires st2.accums == map[] && st2.log.lines == [GOOD] && st2.log.droppedFresh == [] && Plain(cfg, BAD)
    requires st3 == Step(cfg, st2, Arrive(BAD))
    ensures st3.accums == map[0 := Accum([], 0, At(1, BAD), 1)]
    ensures st3.pending == st2.pending && st3.ck == st2.ck && st3.spool == st2.spool
    ensures st3.log == st2.log.(lines := [GOOD, BAD], droppedFresh := [1])
  {
    var st := st2.(sendsLeft := 9);
    Arrives(cfg, st2, BAD);
    LineIsAdded(cfg, st, BAD);
    NothingIsFull(cfg, Holding(st, BAD), BAD);
    assert [GOOD] + [BAD] == [GOOD, BAD] && [] + [1] == [1];
  }

  lemma NothingIsFull(cfg: Config, st: State, line: Line)
    requires st.accums == map[0 := Accum([], 0, At(1, line), 1)] && cfg.maxBatchRecords == 1
    ensures FlushIfFull(cfg, st, 0) == st
  {
  }

  lemma SkipAndCommit(st: State)
    requires st.accums == map[0 := Accum([], 0, At(1, BAD), 1)] && st.log.lines == [GOOD, BAD] && st.ck == map[]
    requires st.pending == [Outstanding(Single(0), At(0, GOOD), false)] && st.spool == EmptyQueue
    requires st.log.acceptedFresh == [] && st.log.droppedFresh == [1] && st.log.evicted == [] && st.log.released == []
    ensures var cfg := Sample(ROOMY, 2);
            var r := Step(cfg, Step(cfg, st, Input(AccumTimer([0]), 9)), Input(CommitTick, 9));
            && r.log.hasty && r.log.lines == [GOOD, BAD] && Elsewhere(cfg, r, 0) == 0 && !CheckpointBefore(r, 0)
  {
    var cfg := Sample(ROOMY, 2);
    var st1 := st.(sendsLeft := 9);
    assert [0][1..] == [];
    var st2 := FlushEmpty(st1, 0);
    assert Step(cfg, st, Input(AccumTimer([0]), 9)) == FlushEach(cfg, FlushAccum(cfg, st1, 0), []) == st2;
    assert Moves(st1.ck, At(1, BAD), "a");
    assert st2.ck["a"] == Cursor(1, 1, 20);
    assert !Quiet(st1, At(1, BAD)) by {
      assert st1.pending[0].batch.records[0] == 0;
      assert Moves(st1.ck, At(1, BAD), st1.log.lines[0].source);
    }
    CountOne(0, 1);
    assert EmptyQueue.Fifo() == [];
  }

  /** A window of one: line 1 finds it full and is spooled, the stream ends, and line 0 is spooled
      behind it. Nothing was evicted and nothing too big. */
  lemma OverflowReorders()
    ensures var cfg := Sample(ROOMY, 1);
            var st := Run(cfg, Start(cfg, EmptyQueue, map[]), [UP, Arrive(GOOD), Arrive(NEXT), DOWN]);
            && |st.meta| == Len(st.spool) && Whole(st.log)
            && st.log.flushed != st.log.settled + Unsettled(cfg, st)
  {
    var cfg := Sample(ROOMY, 1);
    var st0, st2 := Start(cfg, EmptyQueue, map[]), FirstSent(1);
    FirstIsSent(1);
    RunFour(cfg, st0, UP, Arrive(GOOD), Arrive(NEXT), DOWN);
    var st3 := Step(cfg, st2, Arrive(NEXT));
    SecondIsSpooled(st2, st3);
    LossReorders(st3);
    SampleIsLossless(ROOMY, 1);
    EveryRunIsReachable(cfg, EmptyQueue, map[], [UP, Arrive(GOOD), Arrive(NEXT), DOWN]);
    ReorderedIsOutOfOrder(cfg, EmptyQueue, map[], Step(cfg, st3, DOWN));
  }

  lemma SecondIsSpooled(st2: State, st3: State)
    requires st2 == FirstSent(1) && st3 == Step(Sample(ROOMY, 1), st2, Arrive(NEXT))
    ensures st3.pending == st2.pending && st3.connected
    ensures st3.spool == Alone(1) && Whole(st3.log)
  {
    var cfg := Sample(ROOMY, 1);
    FirstIsSent(1);
    LineIsDispatched(cfg, st2, NEXT);
    Spools(cfg, Built(st2, NEXT), Single(1), At(1, NEXT));
    FirstFits(ROOMY, 1, 1);
    SpooledAlone(ROOMY, 1, NoteOverflow(cfg, Built(st2, NEXT)), 1, At(1, NEXT));
  }

  /** Into an empty spool. */
  lemma SpooledAlone(limits: Limits, window: nat, st: State, n: nat, cursors: Cursors)
    requires st.spool == EmptyQueue && st.meta == [] && n < 255
    ensures var r := AppendToSpool(Sample(limits, window), st, Single(n), cursors);
            && r == st.(spool := Alone(n), meta := [cursors])
            && Len(r.spool) == 1 && r.spool.Fifo() == [Pack(Single(n))]
  {
    var cfg, p := Sample(limits, window), Pack(Single(n));
    FirstFits(limits, window, n);
    AloneHolds(n);
    var first: seq<Segment>, ps: seq<Payload> := [Segment(0, [])], [p];
    assert EmptyQueue.segments + first == first && first[0].entries + ps == ps;
    assert Push(limits, EmptyQueue, p) == Alone(n);
    assert Evict(limits, Alone(n)) == Alone(n) && Evicted(limits, Alone(n)) == 0;
    assert Lost(cfg, EmptyQueue, Single(n)) == [] && st.log.evicted + [] == st.log.evicted;
    assert AppendLog(cfg, st, Single(n)) == st.log;
    assert ([] + [cursors])[0..] == [cursors];
  }

  function Alone(n: nat): (q: Spool)
    requires n < 255
  {
    FirstFits(ROOMY, 1, n);
    Queue([Segment(0, [Pack(Single(n))])], 0, 1)
  }

  lemma AloneHolds(n: nat)
    requires n < 255
    ensures Alone(n).Fifo() == [Pack(Single(n))]
  {
    var q := Alone(n);
    assert q.segments == [Segment(0, [Pack(Single(n))])] && q.segments[1..] == [];
    assert Flatten(q.segments) == q.segments[0].entries + Flatten(q.segments[1..]);
  }

  lemma LossReorders(st: State)
    requires st.pending == [Outstanding(Single(0), At(0, GOOD), false)] && st.connected && Whole(st.log)
    requires st.spool == Alone(1)
    ensures Whole(Step(Sample(ROOMY, 1), st, DOWN).log) && Step(Sample(ROOMY, 1), st, DOWN).log.reordered
  {
    var cfg := Sample(ROOMY, 1);
    var st1 := st.(sendsLeft := 9);
    NothingIsLost();
    AloneHolds(1);
    OneDemoted(cfg, NoteReorder(st1), st.pending[0]);
    LogStaysWhole(cfg, NoteReorder(st1), Single(0));
  }

  /** Behind the first entry of a roomy spool. */
  lemma NothingIsLost()
    ensures var cfg := Sample(ROOMY, 1); cfg.Fits(Single(0)) && Lost(cfg, Alone(1), Single(0)) == []
  {
    FirstFits(ROOMY, 1, 0);
    FirstFits(ROOMY, 1, 1);
    OneEntry(Pack(Single(1)));
    StaysWhole(ROOMY, Alone(1), Pack(Single(0)));
  }

  lemma OneDemoted(cfg: Config, st: State, o: Outstanding)
    requires !o.fromSpool
    ensures Demote(cfg, st, [o]) == AppendToSpool(cfg, st, o.batch, o.cursors)
  {
    var os := [o];
    assert os[1..] == [];
  }

  lemma LogStaysWhole(cfg: Config, st: State, b: Batch)
    requires Whole(st.log) && cfg.Fits(b) && Lost(cfg, st.spool, b) == []
    ensures Whole(AppendLog(cfg, st, b)) && AppendLog(cfg, st, b).reordered == st.log.reordered
  {
    assert st.log.evicted + [] == st.log.evicted;
  }

  const TIGHT := Limits(15, 1)

  /** Line 0 is spooled and replayed; spooling line 1 evicts it; its ack then releases line 1, which
      nobody answered for. */
  lemma EvictionMisreleases()
    ensures var cfg := Sample(TIGHT, 1);
            var st := Run(cfg, Start(cfg, EmptyQueue, map[]),
                          [Arrive(GOOD), UP, Arrive(NEXT), Input(AckArrives(ACCEPTED), 9)]);
            && st.log.released == [Pack(Single(1))] && st.log.evicted == [Pack(Single(0))]
            && Accepted(st, 1) == 0 && Dropped(st, 1) == 0 && Accepted(st, 0) == 1
            && Len(st.spool) == 0 && st.pending == [] && st.accums == map[]
            && !InOnePlace(cfg, st, [], 1)
  {
    var cfg := Sample(TIGHT, 1);
    var st0 := Start(cfg, EmptyQueue, map[]);
    var ack := Input(AckArrives(ACCEPTED), 9);
    RunTwo(cfg, st0, Arrive(GOOD), UP);
    RunFour(cfg, st0, Arrive(GOOD), UP, Arrive(NEXT), ack);
    var st1 := Step(cfg, st0, Arrive(GOOD));
    FirstIsSpooled(st0, st1);
    var st2 := Step(cfg, st1, UP);
    FirstIsReplayed(st1, st2);
    var st3 := Step(cfg, st2, Arrive(NEXT));
    LineIsDispatched(cfg, st2, NEXT);
    SecondEvicts(st2, st3);
    AckMisreleases(st3, Step(cfg, st3, ack));
  }

  const ONE := Alone(0)
  const TWO := Queue([Segment(1, [Pack(Single(1))])], 0, 2)

  predicate Fresh(log: Ledger) {
    && log.acceptedFresh == [] && log.acceptedReplay == [] && log.droppedFresh == [] && log.droppedReplay == []
    && log.released == [] && !log.misreleased
  }

  lemma FirstIsSpooled(st0: State, st1: State)
    requires st0 == Start(Sample(TIGHT, 1), EmptyQueue, map[]) && st1 == Step(Sample(TIGHT, 1), st0, Arrive(GOOD))
    ensures st1.spool == ONE && st1.meta == [At(0, GOOD)] && st1.pending == [] && st1.accums == map[]
    ensures !st1.connected && !st1.paused && st1.retryArmed && st1.batchSeq == 1 && st1.log.lines == [GOOD]
    ensures Fresh(st1.log) && st1.log.evicted == []
  {
    FirstWaits(st0);
  }

  /** The first line before any connection. */
  lemma FirstWaits(st: State)
    requires st.accums == map[] && st.batchSeq == 0 && st.log.lines == [] && st.log.flushed == []
    requires !st.connected && st.spool == EmptyQueue && st.meta == []
    ensures Step(Sample(TIGHT, 1), st, Arrive(GOOD))
         == st.(spool := ONE, meta := [At(0, GOOD)], batchSeq := 1, sendsLeft := 9,
                log := st.log.(lines := [GOOD], flushed := [Entry(Some(Single(0)), At(0, GOOD))]))
  {
    var cfg := Sample(TIGHT, 1);
    LineWaits(cfg, st);
    SpooledAlone(TIGHT, 1, Built(st, GOOD), 0, At(0, GOOD));
    assert [] + [GOOD] == [GOOD];
  }

  lemma LineWaits(cfg: Config, st: State)
    requires st.accums == map[] && st.batchSeq == 0 && st.log.lines == [] && !st.connected && Plain(cfg, GOOD)
    ensures Step(cfg, st, Arrive(GOOD)) == AppendToSpool(cfg, Built(st, GOOD), Single(0), At(0, GOOD))
  {
    LineIsDispatched(cfg, st, GOOD);
    OfflineSpools(cfg, Built(st, GOOD), Single(0), At(0, GOOD));
  }

  lemma OfflineSpools(cfg: Config, st: State, batch: Batch, cursors: Cursors)
    requires !st.connected
    ensures Dispatch(cfg, st, batch, cursors) == AppendToSpool(cfg, st, batch, cursors)
  {
    Spools(cfg, st, batch, cursors);
    assert NoteOverflow(cfg, st) == st;
  }

  lemma FirstIsReplayed(st1: State, st2: State)
    requires st1.spool == ONE && st1.meta == [At(0, GOOD)] && st1.pending == [] && st1.accums == map[]
    requires !st1.connected && !st1.paused && st1.retryArmed && st1.batchSeq == 1 && st1.log.lines == [GOOD]
    requires Fresh(st1.log) && st1.log.evicted == []
    requires st2 == Step(Sample(TIGHT, 1), st1, UP)
    ensures st2.spool == ONE && st2.meta == [At(0, GOOD)] && st2.accums == map[]
    ensures st2.pending == [Outstanding(Single(0), At(0, GOOD), true)]
    ensures st2.connected && st2.batchSeq == 1 && st2.log.lines == [GOOD] && Fresh(st2.log) && st2.log.evicted == []
  {
    var cfg := Sample(TIGHT, 1);
    FirstFits(TIGHT, 1, 0);
    AloneHolds(0);
    TwoHolds();
    var open := OpenStream(st1.(sendsLeft := 9));
    assert DrainLoop(cfg, open) == SendNow(cfg, open, Single(0), At(0, GOOD), true);
  }

  lemma TwoHolds()
    ensures TWO.Valid() && TWO.Fifo() == [Pack(Single(1))]
  {
    assert TWO.segments[1..] == [];
    assert [Pack(Single(1))] + [] == [Pack(Single(1))];
  }

  lemma SecondEvicts(st2: State, st3: State)
    requires st2.spool == ONE && st2.meta == [At(0, GOOD)] && st2.accums == map[]
    requires st2.pending == [Outstanding(Single(0), At(0, GOOD), true)]
    requires st2.connected && st2.batchSeq == 1 && st2.log.lines == [GOOD] && Fresh(st2.log) && st2.log.evicted == []
    requires st3 == Dispatch(Sample(TIGHT, 1), Built(st2, NEXT), Single(1), At(1, NEXT))
    ensures st3.spool == TWO && st3.accums == map[] && st3.pending == st2.pending && st3.connected
    ensures Fresh(st3.log) && st3.log.evicted == [Pack(Single(0))] && st3.log.displaced && st3.log.lines == [GOOD, NEXT]
  {
    var cfg := Sample(TIGHT, 1);
    var st := Built(st2, NEXT);
    AloneHolds(0);
    assert Len(st2.spool) == 1;
    BuiltFields(st2, NEXT);
    DispatchEvicts(st);
    assert [GOOD] + [NEXT] == [GOOD, NEXT];
  }

  lemma BuiltFields(st: State, line: Line)
    ensures var r := Built(st, line);
            && r.spool == st.spool && r.pending == st.pending && r.accums == st.accums && r.connected == st.connected
            && r.log.lines == st.log.lines + [line] && r.log.evicted == st.log.evicted
            && (Fresh(st.log) ==> Fresh(r.log))
  {
  }

  lemma DispatchEvicts(st: State)
    requires st.spool == ONE && Len(ONE) == 1 && st.log.evicted == [] && Replaying(st) && Fresh(st.log)
    ensures var r := Dispatch(Sample(TIGHT, 1), st, Single(1), At(1, NEXT));
            && r.spool == TWO && r.pending == st.pending && r.accums == st.accums && r.connected == st.connected
            && Fresh(r.log) && r.log.evicted == [Pack(Single(0))] && r.log.displaced && r.log.lines == st.log.lines
  {
    var cfg := Sample(TIGHT, 1);
    Spools(cfg, st, Single(1), At(1, NEXT));
    SpoolsAndEvicts(NoteOverflow(cfg, st));
  }

  lemma SpoolsAndEvicts(st: State)
    requires st.spool == ONE && st.log.evicted == [] && Replaying(st)
    ensures var r := AppendToSpool(Sample(TIGHT, 1), st, Single(1), At(1, NEXT));
            && r.spool == TWO && r.pending == st.pending && r.accums == st.accums && r.connected == st.connected
            && r.log == st.log.(evicted := [Pack(Single(0))], displaced := true)
  {
    var cfg := Sample(TIGHT, 1);
    FirstFits(TIGHT, 1, 1);
    AloneHolds(0);
    SecondSegment();
    assert ONE.Fifo()[..1] == ONE.Fifo();
    assert Lost(cfg, ONE, Single(1)) == [Pack(Single(0))];
    assert [] + [Pack(Single(0))] == [Pack(Single(0))];
    assert AppendLog(cfg, st, Single(1)) == st.log.(evicted := [Pack(Single(0))], displaced := true);
  }

  lemma SecondSegment()
    ensures Append(TIGHT, ONE, Pack(Single(1))) == TWO && AppendEvicts(TIGHT, ONE, Pack(Single(1))) == 1
  {
    var p := Pack(Single(1));
    var both := Queue([Segment(0, [Pack(Single(0))]), Segment(1, [p])], 0, 2);
    FirstFits(TIGHT, 1, 0);
    FirstFits(TIGHT, 1, 1);
    TwoHolds();
    OneEntry(Pack(Single(0)));
    OneEntry(p);
    assert ONE.segments + [Segment(1, [])] == [ONE.segments[0], Segment(1, [])];
    assert [] + [p] == [p];
    assert Push(TIGHT, ONE, p) == both;
    assert both.segments[1..] == TWO.segments;
    BothEvict(both);
  }

  lemma OneEntry(p: Payload)
    requires |p| == 3
    ensures Size([p]) == 11
  {
    var ps := [p];
    assert ps[1..] == [];
  }

  lemma BothEvict(both: Queue)
    requires |both.segments| == 2 && both.segments[1..] == TWO.segments && both.consumed == 0 && both.nextSeq == 2
    requires both.Valid() && Size(both.segments[0].entries) == 11 && |both.segments[0].entries| == 1
    requires Size(both.segments[1].entries) == 11
    ensures Evict(TIGHT, both) == TWO && Evicted(TIGHT, both) == 1
  {
    BothAreBig(both.segments);
    OnlySegmentStays(TWO);
    FirstOfTwoGoes(both, TWO);
  }

  lemma FirstOfTwoGoes(q: Queue, r: Spool)
    requires |q.segments| == 2 && q.Valid() && TotalBytes(q.segments) > TIGHT.maxBytes && q.consumed == 0
    requires r == q.(segments := q.segments[1..], consumed := 0) && Evict(TIGHT, r) == r && Evicted(TIGHT, r) == 0
    ensures Evict(TIGHT, q) == r && Evicted(TIGHT, q) == |q.segments[0].entries|
  {
  }

  lemma BothAreBig(segs: seq<Segment>)
    requires |segs| == 2 && Size(segs[0].entries) == 11 && Size(segs[1].entries) == 11
    ensures TotalBytes(segs) == 22
  {
    var rest := segs[1..];
    assert rest[1..] == [];
    assert TotalBytes(rest) == 11;
  }

  lemma OnlySegmentStays(q: Spool)
    requires |q.segments| == 1
    ensures Evict(TIGHT, q) == q && Evicted(TIGHT, q) == 0
  {
  }

  lemma AckMisreleases(st3: State, st4: State)
    requires st3.spool == TWO && st3.accums == map[] && st3.connected
    requires st3.pending == [Outstanding(Single(0), At(0, GOOD), true)]
    requires Fresh(st3.log) && st3.log.evicted == [Pack(Single(0))] && st3.log.displaced && st3.log.lines == [GOOD, NEXT]
    requires st4 == Step(Sample(TIGHT, 1), st3, Input(AckArrives(ACCEPTED), 9))
    ensures st4.log.released == [Pack(Single(1))] && st4.log.evicted == [Pack(Single(0))]
    ensures Accepted(st4, 1) == 0 && Dropped(st4, 1) == 0 && Accepted(st4, 0) == 1
    ensures Len(st4.spool) == 0 && st4.pending == [] && st4.accums == map[]
    ensures !InOnePlace(Sample(TIGHT, 1), st4, [], 1)
  {
    var cfg := Sample(TIGHT, 1);
    var st := st3.(sendsLeft := 9);
    AcceptReleases(st);
    AckIsAccepted(cfg, st3, Accept(cfg, st));
    Miscounted(cfg, st4);
  }

  lemma AckIsAccepted(cfg: Config, st: State, r: State)
    requires st.connected && st.pending != [] && r == Accept(cfg, st.(sendsLeft := 9)) && Len(r.spool) == 0
    ensures Step(cfg, st, Input(AckArrives(ACCEPTED), 9)) == r
  {
  }

  lemma AcceptReleases(st: State)
    requires st.spool == TWO && st.accums == map[] && st.pending == [Outstanding(Single(0), At(0, GOOD), true)]
    requires Fresh(st.log)
    ensures var r := Accept(Sample(TIGHT, 1), st);
            && r.spool.Fifo() == [] && r.pending == [] && r.accums == map[]
            && r.log.released == [Pack(Single(1))] && r.log.acceptedReplay == [0] && r.log.acceptedFresh == []
            && r.log.droppedFresh == [] && r.log.droppedReplay == [] && r.log.evicted == st.log.evicted
            && r.log.lines == st.log.lines
  {
    TwoHolds();
    ReleaseRefines(TWO);
    SettleReleases(Sample(TIGHT, 1), st);
  }

  lemma SettleReleases(cfg: Config, st: State)
    requires st.spool == TWO && TWO.Fifo() == [Pack(Single(1))] && st.pending == [Outstanding(Single(0), At(0, GOOD), true)]
    requires Fresh(st.log)
    ensures var r := Accept(cfg, st);
            && r.spool == Release(TWO) && r.pending == [] && r.accums == st.accums
            && r.log.released == [Pack(Single(1))] && r.log.acceptedReplay == [0] && r.log.acceptedFresh == []
            && r.log.droppedFresh == [] && r.log.droppedReplay == [] && r.log.evicted == st.log.evicted
            && r.log.lines == st.log.lines
  {
    SettleMoveLog(cfg, st, true);
    SettleKeeps(cfg, st, true);
    var none: seq<Payload>, nobody: seq<nat> := [], [];
    assert st.pending[1..] == [] && none + [Pack(Single(1))] == [Pack(Single(1))] && nobody + [0] == [0];
    assert Front(TWO) == [Pack(Single(1))];
    assert SettleLog(st, st.pending[0], true).released == [Pack(Single(1))];
  }

  lemma Miscounted(cfg: Config, st: State)
    requires cfg.unmarshal == Unpack && st.log.lines == [GOOD, NEXT] && st.accums == map[] && st.pending == []
    requires st.spool.Fifo() == [] && st.log.evicted == [Pack(Single(0))]
    requires st.log.acceptedReplay == [0] && st.log.acceptedFresh == [] && st.log.droppedFresh == []
    requires st.log.droppedReplay == []
    ensures Accepted(st, 1) == 0 && Dropped(st, 1) == 0 && Accepted(st, 0) == 1 && !InOnePlace(cfg, st, [], 1)
  {
    CountOne(0, 0);
    CountOne(1, 0);
    FirstFits(TIGHT, 1, 0);
    OneRecord(cfg, Pack(Single(0)));
  }
}
