/** The agent's delivery protocol (internal/agent/shipper.go) as step functions on a value.
    The class in Shipper.dfy computes these functions; the theorems about whole runs are
    proved of them. Randomness, clocks and the transport are parameters of each step. */
module ShipperModel {
  import opened Prelude
  import opened Frames
  import opened SpoolQueue

  type Source = string
  type StreamID = int

  /** A line as a source hands it over. `valid` is the outcome of record validation and `size`
      the encoded record's size. */
  datatype Line = Line(source: Source, file: nat, offset: nat, valid: bool, size: nat)

  /** Where to resume a source. The code decides on `file` and `offset` only; `line` is the
      ordinal of the line the cursor came from, negative for a line of an earlier run, and no
      decision reads it. */
  datatype Cursor = Cursor(line: int, file: nat, offset: nat)

  type Cursors = map<Source, Cursor>

  /** A record is represented by the ordinal of its line. */
  datatype Batch = Batch(id: nat, stream: StreamID, records: seq<nat>)

  datatype Accum = Accum(records: seq<nat>, bytes: nat, cursors: Cursors, deadline: nat)

  /** `cursors` of a batch left over from an earlier run is the empty map. */
  datatype Outstanding = Outstanding(batch: Batch, cursors: Cursors, fromSpool: bool)

  datatype AckCode = ACCEPTED | OVERLOADED | INVALID | INTERNAL

  datatype Config = Config(
    labels: Source -> Option<StreamID>,
    overhead: StreamID -> nat,
    marshal: Batch -> bytes,
    unmarshal: Payload -> Option<Batch>,
    limits: Limits,
    maxBatchRecords: nat,
    maxBatchBytes: nat,
    maxBatchDelay: nat,
    ackWindow: nat)
  {
    /** The configuration NewShipper leaves behind: every bound is positive. */
    predicate Ok() {
      maxBatchRecords > 0 && maxBatchBytes > 0 && ackWindow > 0
    }

    /** A batch whose encoding fits one spool entry can be read back. */
    ghost predicate Lossless() {
      forall b :: Fits(b) ==> unmarshal(marshal(b)) == Some(b)
    }

    predicate Fits(b: Batch) {
      |marshal(b)| <= MAX_PAYLOAD
    }

    /** A line that becomes a record: valid, and within the batch bound even alone. */
    predicate Shippable(id: StreamID, line: Line) {
      line.valid && overhead(id) + line.size <= maxBatchBytes
    }
  }

  /** A batch (None: bytes that do not decode) with the cursors kept for it. */
  datatype Entry = Entry(batch: Option<Batch>, cursors: Cursors)

  /** What happened so far. Nothing in the protocol reads it.
      - lines: every line given to addLine, in order.
      - flushed: every batch built, in flush order, after the entries found in the spool.
      - settled: every batch whose fate was decided (accepted, refused for good, or an entry
        that could not be decoded), in that order.
      - acceptedFresh to droppedReplay: the records whose fate was decided, by what it was and by
        whether they had been spooled. `evicted` and `released` are the entries that Append's
        eviction and Release took off the spool.
      - displaced: an eviction ran since the batch now being replayed was sent; misreleased: an
        ack settled a replayed batch after that.
      - overflowed: a batch was spooled because the ack window was full.
      - unspooled: a batch was too big for a spool entry and was dropped.
      - reordered: a fresh batch was demoted while the spool was not empty.
      - skipped: an accumulator without records advanced the checkpoint; hasty: it did so for the
        source of a line of a fresh outstanding batch.
      - refused: a batch was refused for good. */
  datatype Ledger = Ledger(
    lines: seq<Line>,
    flushed: seq<Entry>,
    settled: seq<Entry>,
    acceptedFresh: seq<nat>,
    acceptedReplay: seq<nat>,
    droppedFresh: seq<nat>,
    droppedReplay: seq<nat>,
    evicted: seq<Payload>,
    released: seq<Payload>,
    displaced: bool,
    misreleased: bool,
    overflowed: bool,
    unspooled: bool,
    reordered: bool,
    skipped: bool,
    hasty: bool,
    refused: bool)

  datatype State = State(
    accums: map<StreamID, Accum>,
    pending: seq<Outstanding>,
    spool: Spool,
    meta: seq<Cursors>,
    ck: Cursors,
    committed: Cursors,
    connected: bool,
    paused: bool,
    pauseArmed: bool,
    retryArmed: bool,
    attempt: nat,
    batchSeq: nat,
    sent: seq<Batch>,
    sendsLeft: nat,
    log: Ledger)

  /** Records of a spooled payload; an undecodable one has none. */
  function PayloadRecords(cfg: Config, p: Payload): seq<nat> {
    match cfg.unmarshal(p)
    case None => []
    case Some(b) => b.records
  }

  function SpoolRecords(cfg: Config, ps: seq<Payload>): seq<nat> {
    if ps == [] then [] else PayloadRecords(cfg, ps[0]) + SpoolRecords(cfg, ps[1..])
  }

  /** The spooled entries with the cursors kept for them. */
  function Zip(cfg: Config, ps: seq<Payload>, meta: seq<Cursors>): (r: seq<Entry>)
    requires |ps| == |meta|
    ensures |r| == |ps|
  {
    seq(|ps|, i requires 0 <= i < |ps| => Entry(cfg.unmarshal(ps[i]), meta[i]))
  }

  predicate Replaying(st: State) {
    st.pending != [] && st.pending[0].fromSpool
  }

  function SpoolAfter(cfg: Config, q: Spool, batch: Batch): Spool {
    if cfg.Fits(batch) then Append(cfg.limits, q, cfg.marshal(batch)) else q
  }

  /** The entries that spooling a batch evicts. */
  function Lost(cfg: Config, q: Spool, batch: Batch): seq<Payload> {
    if cfg.Fits(batch) then
      AppendRefines(cfg.limits, q, cfg.marshal(batch));
      q.Fifo()[..AppendEvicts(cfg.limits, q, cfg.marshal(batch))]
    else []
  }

  /** spoolMeta gets the batch's cursors and loses `n` entries at the front. */
  function MetaAfter(meta: seq<Cursors>, fits: bool, cursors: Cursors, n: nat): seq<Cursors> {
    if fits then (meta + [cursors])[if n > |meta| + 1 then |meta| + 1 else n..] else meta
  }

  function AppendLog(cfg: Config, st: State, batch: Batch): Ledger {
    st.log.(
      evicted := st.log.evicted + Lost(cfg, st.spool, batch),
      displaced := st.log.displaced || (Lost(cfg, st.spool, batch) != [] && Replaying(st)),
      droppedFresh := if cfg.Fits(batch) then st.log.droppedFresh else st.log.droppedFresh + batch.records,
      unspooled := st.log.unspooled || !cfg.Fits(batch))
  }

  /** appendToSpool: spoolMeta loses as many entries at the front as the spool did; a batch over the
      spool's entry limit is dropped and counted. */
  function AppendToSpool(cfg: Config, st: State, batch: Batch, cursors: Cursors): State {
    st.(spool := SpoolAfter(cfg, st.spool, batch),
        meta := MetaAfter(st.meta, cfg.Fits(batch), cursors, |Lost(cfg, st.spool, batch)|),
        log := AppendLog(cfg, st, batch))
  }

  /** demoteOutstanding: a replayed batch is still in the spool and is skipped. */
  function Demote(cfg: Config, st: State, batches: seq<Outstanding>): State
    decreases |batches|
  {
    if batches == [] then st
    else
      var o := batches[0];
      Demote(cfg, if o.fromSpool then st else AppendToSpool(cfg, st, o.batch, o.cursors), batches[1..])
  }

  /** Demoting fresh batches puts them behind whatever the spool already holds. */
  function NoteReorder(st: State): State {
    var mixed := Len(st.spool) > 0 && st.pending != [] && !st.pending[0].fromSpool;
    st.(log := st.log.(reordered := st.log.reordered || mixed))
  }

  /** Demotes every batch in pending and forgets them. */
  function DemoteAll(cfg: Config, st: State): State {
    Demote(cfg, NoteReorder(st), st.pending).(pending := [])
  }

  function CloseStream(st: State): State {
    st.(connected := false, sent := [], retryArmed := true, attempt := st.attempt + 1)
  }

  function Teardown(cfg: Config, st: State): State {
    CloseStream(DemoteAll(cfg, st))
  }

  function PushPending(st: State, o: Outstanding): State {
    st.(pending := st.pending + [o], sent := st.sent + [o.batch],
        sendsLeft := if st.sendsLeft == 0 then 0 else st.sendsLeft - 1,
        log := st.log.(displaced := st.log.displaced && !o.fromSpool))
  }

  /** sendNow: outstanding whether or not Send reported an error; an error tears the stream
      down. The stream takes `sendsLeft` more batches and then fails. */
  function SendNow(cfg: Config, st: State, batch: Batch, cursors: Cursors, fromSpool: bool): State {
    var st1 := PushPending(st, Outstanding(batch, cursors, fromSpool));
    if st.sendsLeft == 0 then Teardown(cfg, st1) else st1
  }

  function NoteOverflow(cfg: Config, st: State): State {
    var full := st.connected && !st.paused && |st.pending| >= cfg.ackWindow;
    st.(log := st.log.(overflowed := st.log.overflowed || full))
  }

  predicate MaySend(cfg: Config, st: State) {
    st.connected && !st.paused && Len(st.spool) == 0 && |st.pending| < cfg.ackWindow
  }

  function Dispatch(cfg: Config, st: State, batch: Batch, cursors: Cursors): State {
    if !MaySend(cfg, st) then AppendToSpool(cfg, NoteOverflow(cfg, st), batch, cursors)
    else SendNow(cfg, st, batch, cursors, false)
  }

  /** The entry that Release takes off the spool. */
  function Front(q: Spool): seq<Payload> {
    if Len(q) == 0 then [] else [q.Fifo()[0]]
  }

  function PopMeta(meta: seq<Cursors>): seq<Cursors> {
    if meta == [] then [] else meta[1..]
  }

  /** An entry that cannot be decoded is released and dropped. */
  function DropCorrupt(cfg: Config, st: State): State {
    st.(spool := Release(st.spool),
        meta := PopMeta(st.meta),
        log := st.log.(released := st.log.released + Front(st.spool),
                       settled := st.log.settled + [Entry(None, FrontMeta(st))]))
  }

  function FrontMeta(st: State): Cursors {
    if st.meta == [] then map[] else st.meta[0]
  }

  /** The loop of tryDrainSpool. */
  function DrainLoop(cfg: Config, st: State): State
    decreases Len(st.spool)
  {
    if Len(st.spool) == 0 then st
    else
      match cfg.unmarshal(st.spool.Fifo()[0])
      case None =>
        ReleaseRefines(st.spool);
        DrainLoop(cfg, DropCorrupt(cfg, st))
      case Some(b) =>
        SendNow(cfg, st, b, FrontMeta(st), true)
  }

  function TryDrain(cfg: Config, st: State): State {
    if !st.connected || st.paused || st.pending != [] then st else DrainLoop(cfg, st)
  }

  /** A cursor replaces the checkpoint of its source unless it is behind it in the same file. */
  predicate Moves(ck: Cursors, cursors: Cursors, s: Source) {
    s in cursors && !(s in ck && cursors[s].file == ck[s].file && cursors[s].offset < ck[s].offset)
  }

  /** advanceCheckpoint for every source of a batch: never backward within one file. */
  function Advance(ck: Cursors, cursors: Cursors): Cursors {
    map s | s in ck.Keys + cursors.Keys :: if Moves(ck, cursors, s) then cursors[s] else ck[s]
  }

  function When<T>(b: bool, x: seq<T>, y: seq<T>): seq<T> {
    if b then x + y else x
  }

  function SettleLog(st: State, o: Outstanding, accepted: bool): Ledger {
    var rs := o.batch.records;
    st.log.(
      settled := st.log.settled + [Entry(Some(o.batch), o.cursors)],
      acceptedFresh := When(accepted && !o.fromSpool, st.log.acceptedFresh, rs),
      droppedFresh := When(!accepted && !o.fromSpool, st.log.droppedFresh, rs),
      acceptedReplay := When(accepted && o.fromSpool, st.log.acceptedReplay, rs),
      droppedReplay := When(!accepted && o.fromSpool, st.log.droppedReplay, rs),
      released := When(o.fromSpool, st.log.released, Front(st.spool)),
      misreleased := st.log.misreleased || (o.fromSpool && st.log.displaced),
      refused := st.log.refused || !accepted)
  }

  /** The oldest batch's fate is decided: it leaves the window, and the spool if it came from there
      (Spool.Release and popSpoolMeta). */
  function Settle(cfg: Config, st: State, accepted: bool): State
    requires st.pending != []
  {
    var o := st.pending[0];
    st.(pending := st.pending[1..],
        spool := if o.fromSpool then Release(st.spool) else st.spool,
        meta := if o.fromSpool then PopMeta(st.meta) else st.meta,
        log := SettleLog(st, o, accepted))
  }

  function Credit(st: State, cursors: Cursors): State {
    st.(ck := Advance(st.ck, cursors), attempt := 0)
  }

  function Accept(cfg: Config, st: State): State
    requires st.pending != []
  {
    Credit(Settle(cfg, st, true), st.pending[0].cursors)
  }

  function Refuse(cfg: Config, st: State): State
    requires st.pending != []
  {
    Settle(cfg, st, false)
  }

  /** armPause. */
  function Pause(st: State): State {
    st.(paused := true, pauseArmed := true, attempt := st.attempt + 1)
  }

  function Overload(cfg: Config, st: State): State {
    Pause(DemoteAll(cfg, st))
  }

  /** processAck without the final tryDrainSpool, on a non-empty window. */
  function ApplyAck(cfg: Config, st: State, code: AckCode): State
    requires st.pending != []
  {
    match code
    case ACCEPTED => Accept(cfg, st)
    case INVALID => Refuse(cfg, st)
    case OVERLOADED => Overload(cfg, st)
    case INTERNAL => DemoteAll(cfg, st)
  }

  function ProcessAck(cfg: Config, st: State, code: AckCode): State {
    if st.pending == [] then st else TryDrain(cfg, ApplyAck(cfg, st, code))
  }

  function NewAccum(cfg: Config, now: nat): Accum {
    Accum([], 0, map[], now + cfg.maxBatchDelay)
  }

  function BuildBatch(st: State, id: StreamID): Batch
    requires id in st.accums
  {
    Batch(st.batchSeq + 1, id, st.accums[id].records)
  }

  /** The accumulator has become a batch. */
  function TakeBatch(st: State, id: StreamID): State
    requires id in st.accums
  {
    var batch := BuildBatch(st, id);
    st.(accums := st.accums - {id},
        batchSeq := st.batchSeq + 1,
        log := st.log.(flushed := st.log.flushed + [Entry(Some(batch), st.accums[id].cursors)]))
  }

  /** An accumulator without records has no ack to wait for: the checkpoint advances at once. */
  function FlushEmpty(st: State, id: StreamID): State
    requires id in st.accums
  {
    st.(accums := st.accums - {id},
        ck := Advance(st.ck, st.accums[id].cursors),
        log := st.log.(skipped := true, hasty := st.log.hasty || !Quiet(st, st.accums[id].cursors)))
  }

  /** Advancing the checkpoint to `cursors` moves it for no source that has a line in a fresh
      outstanding batch. */
  predicate Quiet(st: State, cursors: Cursors) {
    forall j, k :: 0 <= j < |st.pending| && !st.pending[j].fromSpool && 0 <= k < |st.pending[j].batch.records| ==>
      var n := st.pending[j].batch.records[k];
      n < |st.log.lines| ==> !Moves(st.ck, cursors, st.log.lines[n].source)
  }

  function FlushAccum(cfg: Config, st: State, id: StreamID): State {
    if id !in st.accums then st
    else if st.accums[id].records == [] then FlushEmpty(st, id)
    else Dispatch(cfg, TakeBatch(st, id), BuildBatch(st, id), st.accums[id].cursors)
  }

  /** A source without labels: the line is dropped and counted. */
  function TurnAway(st: State, line: Line): State {
    st.(log := st.log.(lines := st.log.lines + [line],
                       droppedFresh := st.log.droppedFresh + [|st.log.lines|]))
  }

  function EnsureAccum(cfg: Config, st: State, id: StreamID, now: nat): (r: State)
    ensures id in r.accums
  {
    if id in st.accums then st else ResetAccum(cfg, st, id, now)
  }

  function ResetAccum(cfg: Config, st: State, id: StreamID, now: nat): State {
    st.(accums := st.accums[id := NewAccum(cfg, now)])
  }

  /** The record does not fit beside those already in the accumulator. */
  predicate NoRoom(cfg: Config, st: State, id: StreamID, line: Line)
    requires id in st.accums
  {
    var a := st.accums[id];
    line.valid && a.records != [] && cfg.overhead(id) + a.bytes + line.size > cfg.maxBatchBytes
  }

  /** The accumulator the line will go into, flushing a full one first. */
  function MakeRoom(cfg: Config, st: State, id: StreamID, line: Line, now: nat): (r: State)
    ensures id in r.accums
  {
    var st1 := EnsureAccum(cfg, st, id, now);
    if NoRoom(cfg, st1, id, line) then ResetAccum(cfg, FlushAccum(cfg, st1, id), id, now) else st1
  }

  /** Line n of accumulator `a`: the cursor always, the record if it can be shipped. A record that
      is invalid, or too big even alone, will never be shipped, so its cursor is kept. */
  function Attach(a: Accum, line: Line, n: nat, shippable: bool): Accum {
    a.(cursors := a.cursors[line.source := Cursor(n, line.file, line.offset)],
       records := if shippable then a.records + [n] else a.records,
       bytes := if shippable then a.bytes + line.size else a.bytes)
  }

  function Fold(cfg: Config, st: State, id: StreamID, line: Line): (r: State)
    requires id in st.accums
    ensures id in r.accums
  {
    var n, shippable := |st.log.lines|, cfg.Shippable(id, line);
    st.(accums := st.accums[id := Attach(st.accums[id], line, n, shippable)],
        log := st.log.(lines := st.log.lines + [line],
                       droppedFresh := When(!shippable, st.log.droppedFresh, [n])))
  }

  function FlushIfFull(cfg: Config, st: State, id: StreamID): State {
    if id in st.accums && |st.accums[id].records| >= cfg.maxBatchRecords then FlushAccum(cfg, st, id) else st
  }

  function AddLine(cfg: Config, st: State, line: Line, now: nat): State {
    match cfg.labels(line.source)
    case None => TurnAway(st, line)
    case Some(id) => FlushIfFull(cfg, Fold(cfg, MakeRoom(cfg, st, id, line, now), id, line), id)
  }

  /** Flushes the accumulators named in `ids`, in that order. */
  function FlushEach(cfg: Config, st: State, ids: seq<StreamID>): State
    decreases |ids|
  {
    if ids == [] then st else FlushEach(cfg, FlushAccum(cfg, st, ids[0]), ids[1..])
  }

  function OpenStream(st: State): State {
    st.(connected := true, sent := [], retryArmed := false, attempt := 0)
  }

  function Resume(st: State): State {
    st.(paused := false, pauseArmed := false)
  }

  function RetryLater(st: State): State {
    st.(retryArmed := true, attempt := st.attempt + 1)
  }

  function Connect(cfg: Config, st: State, ok: bool): State {
    if ok then TryDrain(cfg, OpenStream(st))
    else RetryLater(st)
  }

  /** The cases of Run's select. A step that is not enabled leaves the state alone. AccumTimer
      carries the ids that are due, in the order the sweep visits them. */
  datatype Event =
    | LineArrives(line: Line, now: nat)
    | AccumTimer(due: seq<StreamID>)
    | RetryTimer(ok: bool)
    | PauseTimer
    | AckArrives(code: AckCode)
    | StreamEnds
    | CommitTick

  /** An event, and how many sends the stream takes before it fails. */
  datatype Input = Input(event: Event, sends: nat)

  function OnRetry(cfg: Config, st: State, ok: bool): State {
    if st.retryArmed then Connect(cfg, st, ok) else st
  }

  function OnPauseOver(cfg: Config, st: State): State {
    if st.pauseArmed then TryDrain(cfg, Resume(st)) else st
  }

  function OnAck(cfg: Config, st: State, code: AckCode): State {
    if st.connected then ProcessAck(cfg, st, code) else st
  }

  function OnStreamEnd(cfg: Config, st: State): State {
    if st.connected then Teardown(cfg, st) else st
  }

  function React(cfg: Config, st: State, event: Event): State {
    match event
    case LineArrives(line, now) => AddLine(cfg, st, line, now)
    case AccumTimer(due) => FlushEach(cfg, st, due)
    case RetryTimer(ok) => OnRetry(cfg, st, ok)
    case PauseTimer => OnPauseOver(cfg, st)
    case AckArrives(code) => OnAck(cfg, st, code)
    case StreamEnds => OnStreamEnd(cfg, st)
    case CommitTick => st.(committed := st.ck)
  }

  function Step(cfg: Config, st: State, input: Input): State {
    React(cfg, st.(sendsLeft := input.sends), input.event)
  }

  /** Run's start: one unknown cursor map per entry the spool already holds, and the first
      connection attempt due at once. */
  function Start(cfg: Config, spool: Spool, ck: Cursors): State {
    State(map[], [], spool, seq(Len(spool), i => map[]), ck, ck, false, false, false, true, 0, 0, [], 0,
          Ledger([], Zip(cfg, spool.Fifo(), seq(Len(spool), i => map[])), [], [], [], [], [], [], [], false, false, false, false, false, false, false, false))
  }

  function Run(cfg: Config, st: State, inputs: seq<Input>): State
    decreases |inputs|
  {
    if inputs == [] then st
    else Step(cfg, Run(cfg, st, inputs[..|inputs| - 1]), inputs[|inputs| - 1])
  }

  /** The acks that arrive while shutdown waits for the window to empty. */
  function AwaitAcks(cfg: Config, st: State, acks: seq<AckCode>): State
    decreases |acks|
  {
    if acks == [] || st.pending == [] || !st.connected then st
    else AwaitAcks(cfg, ProcessAck(cfg, st, acks[0]), acks[1..])
  }

  /** The end of shutdown: what is still unanswered goes to the spool, and the checkpoint is
      committed. */
  function Finish(cfg: Config, st: State): State {
    DemoteAll(cfg, st).(committed := DemoteAll(cfg, st).ck)
  }

  /** shutdown: flush everything, wait for acks, spool the rest, commit. */
  function Shutdown(cfg: Config, st: State, ids: seq<StreamID>, acks: seq<AckCode>): State {
    Finish(cfg, AwaitAcks(cfg, FlushEach(cfg, st, ids), acks))
  }
}
