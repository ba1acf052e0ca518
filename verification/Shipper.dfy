/** The shipper as the agent runs it (internal/agent/shipper.go): one object whose methods update
    its fields, over the spool of SpoolFiles. Every method computes the step function of
    ShipperModel that has its name; Serve, the event loop, keeps what the theorems about runs say. */
module Shipper {
  import opened Prelude
  import SpoolQueue
  import M = ShipperModel
  import Live = ShipperLive
  import Moves = ShipperMoves
  import Structure = ShipperStructure
  import Ledger = ShipperLedger
  import Gap = ShipperGap
  import Acks = ShipperAcks
  import opened SpoolFiles
  import SpoolDisk

  predicate Ascending(ids: seq<int>) {
    forall i, j :: 0 <= i < j < |ids| ==> ids[i] < ids[j]
  }

  /** The ids whose accumulator is due at `now`, in the order given. */
  function Due(accums: map<M.StreamID, M.Accum>, ids: seq<M.StreamID>, now: nat): seq<M.StreamID> {
    if ids == [] then []
    else
      var k := |ids| - 1;
      Due(accums, ids[..k], now) + if ids[k] in accums && accums[ids[k]].deadline <= now then [ids[k]] else []
  }

  lemma {:induction false} DueFilters(accums: map<M.StreamID, M.Accum>, ids: seq<M.StreamID>, now: nat)
    requires Ascending(ids)
    ensures Ascending(Due(accums, ids, now))
    ensures forall id :: id in Due(accums, ids, now) <==> id in ids && id in accums && accums[id].deadline <= now
  {
    if ids != [] {
      var k := |ids| - 1;
      DueFilters(accums, ids[..k], now);
      assert ids == ids[..k] + [ids[k]];
      var before := Due(accums, ids[..k], now);
      assert forall i :: 0 <= i < |before| ==> before[i] in before;
    }
  }

  /** slices.Sorted(maps.Keys(m)). */
  method SortedKeys(keys: set<int>) returns (ids: seq<int>)
    ensures Ascending(ids)
    ensures forall id :: id in ids <==> id in keys
  {
    ids := [];
    var left := keys;
    while left != {}
      invariant Ascending(ids)
      invariant forall i, id :: 0 <= i < |ids| && id in left ==> ids[i] < id
      invariant forall id :: id in keys <==> id in ids || id in left
      decreases |left|
    {
      var least := Least(left);
      ids, left := ids + [least], left - {least};
    }
  }

  lemma HasMember<T>(s: set<T>)
    requires s != {}
    ensures exists x :: x in s
  {
  }

  lemma HasNumber(s: set<int>)
    ensures s == {} || exists x: int :: x in s
  {
    if !exists x: int :: x in s {
      assert s == {};
    }
  }

  method Least(s: set<int>) returns (m: int)
    requires s != {}
    ensures m in s && forall x :: x in s ==> m <= x
  {
    HasNumber(s);
    m :| m in s;
    var rest := s - {m};
    while rest != {}
      invariant m in s && rest <= s
      invariant forall x :: x in s && x !in rest ==> m <= x
      decreases |rest|
    {
      HasNumber(rest);
      var x :| x in rest;
      if x < m {
        m := x;
      }
      rest := rest - {x};
    }
  }

  /** The cursor advanceCheckpoint leaves for one source. */
  function Later(now: Option<M.Cursor>, cur: M.Cursor): M.Cursor {
    if now.Some? && cur.file == now.value.file && cur.offset < now.value.offset then now.value else cur
  }

  function Lookup(m: M.Cursors, s: M.Source): Option<M.Cursor> {
    if s in m then Some(m[s]) else None
  }

  /** advanceCheckpoint for every source of a cursor map, in any order. */
  method AdvanceCheckpoint(checkpoint: M.Cursors, cursors: M.Cursors) returns (r: M.Cursors)
    ensures r == M.Advance(checkpoint, cursors)
    ensures Acks.Credited(checkpoint, r, cursors)
    ensures forall s :: s in cursors ==>
              r[s] == if s in checkpoint && checkpoint[s].file == cursors[s].file && checkpoint[s].offset > cursors[s].offset
                      then checkpoint[s] else cursors[s]
  {
    r := checkpoint;
    var left := cursors.Keys;
    while left != {}
      invariant left <= cursors.Keys
      invariant forall s :: Lookup(r, s) ==
                             if s in cursors && s !in left then Some(Later(Lookup(checkpoint, s), cursors[s]))
                             else Lookup(checkpoint, s)
      decreases |left|
    {
      HasMember(left);
      var source :| source in left;
      var cur := cursors[source];
      assert Lookup(r, source) == Lookup(checkpoint, source);
      if !(source in r && cur.file == r[source].file && cur.offset < r[source].offset) {
        r := r[source := cur];
      }
      left := left - {source};
    }
    AdvanceByLookup(checkpoint, cursors, r);
    Acks.AdvanceCredits(checkpoint, cursors);
    forall s | s in cursors
      ensures r[s] == if s in checkpoint && checkpoint[s].file == cursors[s].file && checkpoint[s].offset > cursors[s].offset
                      then checkpoint[s] else cursors[s]
    {
      Acks.AdvanceIs(checkpoint, cursors, s);
    }
  }

  lemma AdvanceByLookup(checkpoint: M.Cursors, cursors: M.Cursors, r: M.Cursors)
    requires forall s :: Lookup(r, s) ==
                          if s in cursors then Some(Later(Lookup(checkpoint, s), cursors[s]))
                          else Lookup(checkpoint, s)
    ensures r == M.Advance(checkpoint, cursors)
  {
    var a := M.Advance(checkpoint, cursors);
    forall s
      ensures Lookup(r, s) == Lookup(a, s)
    {
    }
    assert forall s :: s in r <==> s in a by {
      forall s ensures s in r <==> s in a { assert Lookup(r, s) == Lookup(a, s); }
    }
    assert forall s :: s in r ==> r[s] == a[s] by {
      forall s | s in r ensures r[s] == a[s] { assert Lookup(r, s) == Lookup(a, s); }
    }
  }

  class Agent {
    const cfg: M.Config
    const spool: SpoolDir
    var accums: map<M.StreamID, M.Accum>
    var pendingAcks: seq<M.Outstanding>
    var spoolMeta: seq<M.Cursors>
    var checkpoint: M.Cursors
    var committed: M.Cursors
    var connected: bool
    var sendPaused: bool
    var pauseArmed: bool
    var retryArmed: bool
    var attempt: nat
    var batchSeq: nat
    /** What the transport does: how many more sends succeed. */
    var sendsLeft: nat
    ghost var sent: seq<M.Batch>
    ghost var log: M.Ledger

    ghost predicate Valid()
      reads this, spool
    {
      spool.Valid() && spool.releasesSincePersist < SpoolDisk.DURABLE_INTERVAL && spool.config.limits == cfg.limits
    }

    ghost function St(): M.State
      requires Valid()
      reads this, spool
    {
      M.State(accums, pendingAcks, spool.queue, spoolMeta, checkpoint, committed, connected, sendPaused, pauseArmed,
              retryArmed, attempt, batchSeq, sent, sendsLeft, log)
    }

    /** Run's start: one unknown cursor map per entry the spool already holds. */
    constructor (cfg: M.Config, spool: SpoolDir, checkpoint: M.Cursors)
      requires spool.Valid() && spool.releasesSincePersist < SpoolDisk.DURABLE_INTERVAL
      requires spool.config.limits == cfg.limits
      ensures Valid() && this.cfg == cfg && this.spool == spool
      ensures St() == M.Start(cfg, spool.queue, checkpoint)
    {
      var n := spool.Len();
      this.cfg, this.spool := cfg, spool;
      accums, pendingAcks := map[], [];
      spoolMeta := seq(n, i => map[]);
      this.checkpoint, committed := checkpoint, checkpoint;
      connected, sendPaused, pauseArmed, retryArmed := false, false, false, true;
      attempt, batchSeq, sendsLeft := 0, 0, 0;
      sent := [];
      log := M.Start(cfg, spool.queue, checkpoint).log;
    }

    /** appendToSpool. */
    method AppendToSpool(batch: M.Batch, cursors: M.Cursors)
      requires Valid()
      modifies this, spool
      ensures Valid() && St() == M.AppendToSpool(cfg, old(St()), batch, cursors)
    {
      ghost var spec := M.AppendToSpool(cfg, St(), batch, cursors);
      var data := cfg.marshal(batch);
      var evicted, ok := spool.Append(data);
      if ok {
        spoolMeta := spoolMeta + [cursors];
        if evicted > |spoolMeta| {
          evicted := |spoolMeta|;
        }
        spoolMeta := spoolMeta[evicted..];
      }
      log := spec.log;
    }

    /** demoteOutstanding. */
    method DemoteOutstanding(batches: seq<M.Outstanding>)
      requires Valid()
      modifies this, spool
      ensures Valid() && St() == M.Demote(cfg, old(St()), batches)
    {
      var i := 0;
      while i < |batches|
        invariant i <= |batches| && Valid()
        invariant M.Demote(cfg, St(), batches[i..]) == M.Demote(cfg, old(St()), batches)
      {
        var o := batches[i];
        assert batches[i..][1..] == batches[i + 1..];
        if !o.fromSpool {
          AppendToSpool(o.batch, o.cursors);
        }
        i := i + 1;
      }
    }

    /** demoteRemaining, and the first half of teardownStream. */
    method DemoteAll()
      requires Valid()
      modifies this, spool
      ensures Valid() && St() == M.DemoteAll(cfg, old(St()))
    {
      log := M.NoteReorder(St()).log;
      DemoteOutstanding(pendingAcks);
      pendingAcks := [];
    }

    /** teardownStream. */
    method TeardownStream()
      requires Valid()
      modifies this, spool
      ensures Valid() && St() == M.Teardown(cfg, old(St()))
    {
      DemoteAll();
      connected, sent, retryArmed := false, [], true;
      attempt := attempt + 1;
    }

    /** The transport's Send, and the batch's place in the window whatever Send reports. */
    method Send(o: M.Outstanding) returns (ok: bool)
      requires Valid()
      modifies `sendsLeft, `pendingAcks, `sent, `log
      ensures Valid() && St() == M.PushPending(old(St()), o) && ok == (old(sendsLeft) > 0)
    {
      log := M.PushPending(St(), o).log;
      ok := sendsLeft > 0;
      if ok {
        sendsLeft := sendsLeft - 1;
      }
      pendingAcks := pendingAcks + [o];
      sent := sent + [o.batch];
    }

    /** sendNow. */
    method SendNow(batch: M.Batch, cursors: M.Cursors, fromSpool: bool)
      requires Valid()
      modifies this, spool
      ensures Valid() && St() == M.SendNow(cfg, old(St()), batch, cursors, fromSpool)
    {
      var ok := Send(M.Outstanding(batch, cursors, fromSpool));
      if !ok {
        TeardownStream();
      }
    }

    /** dispatch. */
    method Dispatch(batch: M.Batch, cursors: M.Cursors)
      requires Valid()
      modifies this, spool
      ensures Valid() && St() == M.Dispatch(cfg, old(St()), batch, cursors)
    {
      var spooled := spool.Len();
      if !connected || sendPaused || spooled > 0 || |pendingAcks| >= cfg.ackWindow {
        log := M.NoteOverflow(cfg, St()).log;
        AppendToSpool(batch, cursors);
      } else {
        SendNow(batch, cursors, false);
      }
    }

    /** Spool.Release and popSpoolMeta. */
    method ReleaseFront()
      requires Valid()
      modifies spool, `spoolMeta
      ensures Valid() && St() == old(St()).(spool := SpoolQueue.Release(old(St()).spool), meta := M.PopMeta(old(St()).meta))
    {
      spool.Release();
      if |spoolMeta| > 0 {
        spoolMeta := spoolMeta[1..];
      }
    }

    /** An entry that cannot be decoded. */
    method DropCorrupt()
      requires Valid()
      modifies spool, `spoolMeta, `log
      ensures Valid() && St() == M.DropCorrupt(cfg, old(St()))
    {
      ghost var spec := M.DropCorrupt(cfg, St());
      ReleaseFront();
      log := spec.log;
    }

    /** tryDrainSpool. */
    method TryDrainSpool()
      requires Valid()
      modifies this, spool
      ensures Valid() && St() == M.TryDrain(cfg, old(St()))
    {
      if !connected || sendPaused || |pendingAcks| > 0 {
        return;
      }
      var left := spool.Len();
      while left > 0
        invariant Valid() && left == SpoolQueue.Len(spool.queue)
        invariant M.DrainLoop(cfg, St()) == M.DrainLoop(cfg, old(St()))
        decreases left
      {
        var payload := spool.PeekEntry();
        match cfg.unmarshal(payload.value) {
          case None =>
            SpoolQueue.ReleaseRefines(spool.queue);
            DropCorrupt();
          case Some(batch) =>
            SendNow(batch, if |spoolMeta| == 0 then map[] else spoolMeta[0], true);
            return;
        }
        left := spool.Len();
      }
    }

    /** The part of processAck that ends the oldest batch's life. */
    method Settle(accepted: bool) returns (o: M.Outstanding)
      requires Valid() && pendingAcks != []
      modifies spool, `spoolMeta, `pendingAcks, `log
      ensures Valid() && St() == M.Settle(cfg, old(St()), accepted) && o == old(pendingAcks)[0]
    {
      ghost var spec := M.Settle(cfg, St(), accepted);
      o := pendingAcks[0];
      pendingAcks := pendingAcks[1..];
      if o.fromSpool {
        ReleaseFront();
      }
      log := spec.log;
    }

    method Credit(cursors: M.Cursors)
      requires Valid()
      modifies `checkpoint, `attempt
      ensures Valid() && St() == M.Credit(old(St()), cursors)
    {
      checkpoint := AdvanceCheckpoint(checkpoint, cursors);
      attempt := 0;
    }

    method ArmPause()
      requires Valid()
      modifies `sendPaused, `pauseArmed, `attempt
      ensures Valid() && St() == M.Pause(old(St()))
    {
      sendPaused, pauseArmed, attempt := true, true, attempt + 1;
    }

    /** processAck: the ack belongs to the oldest outstanding batch. */
    method ProcessAck(code: M.AckCode)
      requires Valid()
      modifies this, spool
      ensures Valid() && St() == M.ProcessAck(cfg, old(St()), code)
    {
      if |pendingAcks| == 0 {
        return;
      }
      match code {
        case ACCEPTED =>
          var o := Settle(true);
          Credit(o.cursors);
        case OVERLOADED =>
          DemoteAll();
          ArmPause();
        case INVALID =>
          var o := Settle(false);
        case INTERNAL =>
          DemoteAll();
      }
      assert St() == M.ApplyAck(cfg, old(St()), code);
      TryDrainSpool();
    }

    method TakeBatch(id: M.StreamID) returns (batch: M.Batch)
      requires Valid() && id in accums
      modifies `accums, `batchSeq, `log
      ensures Valid() && St() == M.TakeBatch(old(St()), id) && batch == M.BuildBatch(old(St()), id)
    {
      log := M.TakeBatch(St(), id).log;
      batchSeq := batchSeq + 1;
      batch := M.Batch(batchSeq, id, accums[id].records);
      accums := accums - {id};
    }

    method FlushEmpty(id: M.StreamID)
      requires Valid() && id in accums
      modifies `accums, `checkpoint, `log
      ensures Valid() && St() == M.FlushEmpty(old(St()), id)
    {
      log := M.FlushEmpty(St(), id).log;
      checkpoint := AdvanceCheckpoint(checkpoint, accums[id].cursors);
      accums := accums - {id};
    }

    /** flushAccum. */
    method FlushAccum(id: M.StreamID)
      requires Valid()
      modifies this, spool
      ensures Valid() && St() == M.FlushAccum(cfg, old(St()), id)
    {
      if id !in accums {
        return;
      }
      if accums[id].records == [] {
        FlushEmpty(id);
      } else {
        var cursors := accums[id].cursors;
        var batch := TakeBatch(id);
        Dispatch(batch, cursors);
      }
    }

    /** The first half of addLine: an accumulator with room for the record. */
    method MakeRoom(id: M.StreamID, line: M.Line, now: nat)
      requires Valid()
      modifies this, spool
      ensures Valid() && St() == M.MakeRoom(cfg, old(St()), id, line, now)
      ensures id in accums && |log.lines| == old(|log.lines|)
    {
      Moves.MakeRoomKeepsLines(cfg, St(), id, line, now);
      if id !in accums {
        accums := accums[id := M.NewAccum(cfg, now)];
      }
      var a := accums[id];
      if line.valid && |a.records| > 0 && cfg.overhead(id) + a.bytes + line.size > cfg.maxBatchBytes {
        FlushAccum(id);
        accums := accums[id := M.NewAccum(cfg, now)];
      }
    }

    /** The second half of addLine: the cursor always, the record if it can be shipped. */
    method Fold(id: M.StreamID, line: M.Line, tag: nat)
      requires Valid() && id in accums && tag == |log.lines|
      modifies `accums, `log
      ensures Valid() && St() == M.Fold(cfg, old(St()), id, line)
    {
      log := M.Fold(cfg, St(), id, line).log;
      var a := accums[id];
      a := a.(cursors := a.cursors[line.source := M.Cursor(tag, line.file, line.offset)]);
      if line.valid && cfg.overhead(id) + line.size <= cfg.maxBatchBytes {
        a := a.(records := a.records + [tag], bytes := a.bytes + line.size);
      }
      accums := accums[id := a];
    }

    /** addLine. `tag` is the line's ordinal. */
    method AddLine(line: M.Line, now: nat, tag: nat)
      requires Valid() && tag == |log.lines|
      modifies this, spool
      ensures Valid() && St() == M.AddLine(cfg, old(St()), line, now)
    {
      var id := cfg.labels(line.source);
      if id.None? {
        log := M.TurnAway(St(), line).log;
        return;
      }
      MakeRoom(id.value, line, now);
      Fold(id.value, line, tag);
      if |accums[id.value].records| >= cfg.maxBatchRecords {
        FlushAccum(id.value);
      }
    }

    /** One round of flushDueAccums' loop. */
    method FlushIfDue(id: M.StreamID, now: nat, ghost st0: M.State, ghost due: seq<M.StreamID>)
      requires Valid() && id in accums && St() == M.FlushEach(cfg, st0, due)
      modifies this, spool
      ensures Valid()
      ensures St() == M.FlushEach(cfg, st0, due + if old(accums)[id].deadline <= now then [id] else [])
      ensures accums == if old(accums)[id].deadline <= now then old(accums) - {id} else old(accums)
    {
      if accums[id].deadline <= now {
        FlushEachSnoc(cfg, st0, due, id);
        Moves.FlushTakesOne(cfg, St(), id);
        FlushAccum(id);
      } else {
        assert due + [] == due;
      }
    }

    /** flushDueAccums: every accumulator whose deadline has passed, in ascending stream order. */
    method FlushDueAccums(now: nat) returns (ghost due: seq<M.StreamID>)
      requires Valid()
      modifies this, spool
      ensures Valid() && St() == M.FlushEach(cfg, old(St()), due) && Ascending(due)
      ensures forall id :: id in due <==> id in old(accums) && old(accums)[id].deadline <= now
    {
      var ids := SortedKeys(accums.Keys);
      ghost var before, st0 := accums, St();
      due := [];
      var i := 0;
      while i < |ids|
        invariant i <= |ids| && Valid()
        invariant due == Due(before, ids[..i], now)
        invariant forall k :: i <= k < |ids| ==> Untouched(before, accums, ids[k])
        invariant St() == M.FlushEach(cfg, st0, due)
      {
        assert ids[..i + 1][..i] == ids[..i];
        assert Untouched(before, accums, ids[i]) && forall k :: i < k < |ids| ==> ids[i] < ids[k];
        FlushIfDue(ids[i], now, st0, due);
        due := Due(before, ids[..i + 1], now);
        i := i + 1;
      }
      assert ids[..|ids|] == ids;
      DueFilters(before, ids, now);
    }

    /** flushAllAccums. */
    method FlushAllAccums() returns (ghost ids: seq<M.StreamID>)
      requires Valid()
      modifies this, spool
      ensures Valid() && St() == M.FlushEach(cfg, old(St()), ids) && Ascending(ids)
      ensures forall id :: id in ids <==> id in old(accums)
    {
      var keys := SortedKeys(accums.Keys);
      ids := keys;
      var i := 0;
      while i < |keys|
        invariant i <= |keys| && Valid()
        invariant M.FlushEach(cfg, St(), keys[i..]) == M.FlushEach(cfg, old(St()), keys)
      {
        assert keys[i..][1..] == keys[i + 1..];
        FlushAccum(keys[i]);
        i := i + 1;
      }
    }

    /** The ack wait of shutdown. */
    method AwaitAcks(acks: seq<M.AckCode>)
      requires Valid()
      modifies this, spool
      ensures Valid() && St() == M.AwaitAcks(cfg, old(St()), acks)
    {
      var i := 0;
      while i < |acks| && |pendingAcks| > 0 && connected
        invariant i <= |acks| && Valid()
        invariant M.AwaitAcks(cfg, St(), acks[i..]) == M.AwaitAcks(cfg, old(St()), acks)
      {
        assert acks[i..][1..] == acks[i + 1..];
        ProcessAck(acks[i]);
        i := i + 1;
      }
    }

    method Commit()
      requires Valid()
      modifies `committed
      ensures Valid() && St() == old(St()).(committed := old(St()).ck)
    {
      committed := checkpoint;
    }

    /** shutdown, given the acks that still arrive: nothing stays in memory. */
    method Shutdown(acks: seq<M.AckCode>) returns (ghost ids: seq<M.StreamID>)
      requires Valid()
      modifies this, spool
      ensures Valid() && St() == M.Shutdown(cfg, old(St()), ids, acks)
      ensures forall id :: id in ids <==> id in old(accums)
    {
      ids := FlushAllAccums();
      AwaitAcks(acks);
      DemoteAll();
      Commit();
    }

    method OpenStream()
      requires Valid()
      modifies `connected, `sent, `retryArmed, `attempt
      ensures Valid() && St() == M.OpenStream(old(St()))
    {
      connected, sent, retryArmed, attempt := true, [], false, 0;
    }

    /** tryConnect. */
    method TryConnect(ok: bool)
      requires Valid()
      modifies this, spool
      ensures Valid() && St() == M.Connect(cfg, old(St()), ok)
    {
      if !ok {
        retryArmed, attempt := true, attempt + 1;
      } else {
        OpenStream();
        TryDrainSpool();
      }
    }

    method Resume()
      requires Valid()
      modifies `sendPaused, `pauseArmed
      ensures Valid() && St() == M.Resume(old(St()))
    {
      sendPaused, pauseArmed := false, false;
    }

    /** The cases of Run's select. */
    method OnPauseOver()
      requires Valid()
      modifies this, spool
      ensures Valid() && St() == M.OnPauseOver(cfg, old(St()))
    {
      if pauseArmed {
        Resume();
        TryDrainSpool();
      }
    }

    method OnRetry(ok: bool)
      requires Valid()
      modifies this, spool
      ensures Valid() && St() == M.OnRetry(cfg, old(St()), ok)
    {
      if retryArmed {
        TryConnect(ok);
      }
    }

    method OnAck(code: M.AckCode)
      requires Valid()
      modifies this, spool
      ensures Valid() && St() == M.OnAck(cfg, old(St()), code)
    {
      if connected {
        ProcessAck(code);
      }
    }

    method OnStreamEnd()
      requires Valid()
      modifies this, spool
      ensures Valid() && St() == M.OnStreamEnd(cfg, old(St()))
    {
      if connected {
        TeardownStream();
      }
    }

    method OnAccumTick(now: nat) returns (ghost event: M.Event)
      requires Valid()
      modifies this, spool
      ensures Valid() && event.AccumTimer? && Sweeps(old(accums), now, event.due)
      ensures St() == M.FlushEach(cfg, old(St()), event.due)
    {
      ghost var due := FlushDueAccums(now);
      event := M.AccumTimer(due);
    }

    /** The signals of the stream and its timers. */
    method ReactToStream(signal: Signal) returns (ghost event: M.Event)
      requires Valid() && !signal.LineRead? && !signal.AccumTick?
      modifies this, spool
      ensures Valid() && St() == M.React(cfg, old(St()), event) && Reads(signal, old(accums), event)
    {
      match signal {
        case RetryDue(ok) =>
          event := M.RetryTimer(ok);
          OnRetry(ok);
        case PauseDue =>
          event := M.PauseTimer;
          OnPauseOver();
        case AckRead(code) =>
          event := M.AckArrives(code);
          OnAck(code);
        case StreamLost =>
          event := M.StreamEnds;
          OnStreamEnd();
        case CommitDue =>
          event := M.CommitTick;
          Commit();
      }
    }

    /** `tag` is the ordinal the next line gets. */
    method React(signal: Signal, tag: nat) returns (ghost event: M.Event)
      requires Valid() && tag == |log.lines|
      modifies this, spool
      ensures Valid() && St() == M.React(cfg, old(St()), event) && Reads(signal, old(accums), event)
    {
      match signal {
        case LineRead(line, now) =>
          event := M.LineArrives(line, now);
          AddLine(line, now, tag);
        case AccumTick(now) => event := OnAccumTick(now);
        case _ => event := ReactToStream(signal);
      }
    }

    /** One round of Run's loop. */
    method Handle(signal: Signal, sends: nat, tag: nat) returns (ghost input: M.Input)
      requires Valid() && tag == |log.lines|
      modifies this, spool
      ensures Valid() && St() == M.Step(cfg, old(St()), input)
      ensures input.sends == sends && Reads(signal, old(accums), input.event)
    {
      sendsLeft := sends;
      ghost var event := React(signal, tag);
      input := M.Input(event, sends);
    }

    /** Run, up to the shutdown: whatever signals arrive and however many sends succeed after each,
        the agent is aligned and never stuck, every line is accounted for, and if every line with
        labels is shippable none is only in memory with a committed checkpoint past it. */
    method Serve(signals: seq<(Signal, nat)>) returns (ghost inputs: seq<M.Input>)
      requires Valid() && cfg.Ok() && cfg.Lossless() && St() == M.Start(cfg, spool.queue, checkpoint)
      modifies this, spool
      ensures Valid() && St() == M.Run(cfg, old(St()), inputs)
      ensures log.lines == LinesOf(signals)
      ensures Structure.Inv(cfg, St()) && Live.Live(St())
      ensures forall n: nat :: Ledger.Accounted(cfg, St(), M.SpoolRecords(cfg, old(spool.Contents())), n)
      ensures Gap.Inherited(old(checkpoint)) && Gap.AllShippable(cfg, LinesOf(signals)) ==>
                forall n: nat :: n < |log.lines| ==>
                  || Ledger.Elsewhere(cfg, St(), n) == Ledger.Count(M.SpoolRecords(cfg, old(spool.Contents())), n) + 1
                  || Gap.CheckpointBefore(St(), n)
    {
      inputs := [];
      var i, tag := 0, 0;
      while i < |signals|
        invariant i <= |signals| && Valid()
        invariant St() == M.Run(cfg, old(St()), inputs)
        invariant Moves.Arrivals(inputs) == LinesOf(signals[..i]) && tag == |LinesOf(signals[..i])|
      {
        Moves.EveryRunIsReachable(cfg, old(spool.queue), old(checkpoint), inputs);
        var (signal, sends) := signals[i];
        ghost var input := Handle(signal, sends, tag);
        OneMoreInput(cfg, old(St()), inputs, input);
        OneMoreSignal(signals, i);
        inputs := inputs + [input];
        if signal.LineRead? {
          tag := tag + 1;
        }
        i := i + 1;
      }
      assert signals[..|signals|] == signals;
      RunFacts(cfg, old(spool.queue), old(checkpoint), inputs, LinesOf(signals), St());
    }

    /** The shutdown of such a run: nothing is left in memory, and every line is in the spool or has a
        recorded fate. */
    method Stop(acks: seq<M.AckCode>, ghost queue: SpoolQueue.Spool, ghost ck: M.Cursors, ghost inputs: seq<M.Input>)
      requires Valid() && cfg.Ok() && cfg.Lossless() && St() == M.Run(cfg, M.Start(cfg, queue, ck), inputs)
      modifies this, spool
      ensures Valid() && accums == map[] && pendingAcks == [] && committed == checkpoint
      ensures forall n: nat :: n < |Moves.Arrivals(inputs)| ==>
                Ledger.Elsewhere(cfg, St(), n) == Ledger.Count(M.SpoolRecords(cfg, queue.Fifo()), n) + 1
    {
      ghost var before := St();
      ghost var ids := Shutdown(acks);
      Moves.EveryRunIsReachable(cfg, queue, ck, inputs);
      forall n: nat | n < |Moves.Arrivals(inputs)|
        ensures accums == map[] && pendingAcks == [] && committed == checkpoint
        ensures Ledger.Elsewhere(cfg, St(), n) == Ledger.Count(M.SpoolRecords(cfg, queue.Fifo()), n) + 1
      {
        Ledger.ShutdownKeepsNothingInMemory(cfg, queue, ck, before, ids, acks, n);
      }
      Ledger.ShutdownKeepsNothingInMemory(cfg, queue, ck, before, ids, acks, 0);
    }
  }

  /** What Run's select waits for. */
  datatype Signal =
    | LineRead(line: M.Line, now: nat)
    | AccumTick(now: nat)
    | RetryDue(ok: bool)
    | PauseDue
    | AckRead(code: M.AckCode)
    | StreamLost
    | CommitDue

  /** The event of the model that a signal is: the accumulators due are swept in ascending order. */
  predicate Reads(signal: Signal, accums: map<M.StreamID, M.Accum>, event: M.Event) {
    match signal
    case LineRead(line, now) => event == M.LineArrives(line, now)
    case AccumTick(now) => event.AccumTimer? && Sweeps(accums, now, event.due)
    case RetryDue(ok) => event == M.RetryTimer(ok)
    case PauseDue => event == M.PauseTimer
    case AckRead(code) => event == M.AckArrives(code)
    case StreamLost => event == M.StreamEnds
    case CommitDue => event == M.CommitTick
  }

  predicate Untouched(before: map<M.StreamID, M.Accum>, accums: map<M.StreamID, M.Accum>, id: M.StreamID) {
    id in before && id in accums && accums[id] == before[id]
  }

  predicate Sweeps(accums: map<M.StreamID, M.Accum>, now: nat, due: seq<M.StreamID>) {
    && Ascending(due)
    && (forall id :: id in due ==> id in accums && accums[id].deadline <= now)
    && (forall id :: id in accums && accums[id].deadline <= now ==> id in due)
  }

  function LinesOf(signals: seq<(Signal, nat)>): seq<M.Line> {
    if signals == [] then []
    else
      var k := |signals| - 1;
      LinesOf(signals[..k]) + if signals[k].0.LineRead? then [signals[k].0.line] else []
  }

  lemma OneMoreSignal(signals: seq<(Signal, nat)>, i: nat)
    requires i < |signals|
    ensures LinesOf(signals[..i + 1])
         == LinesOf(signals[..i]) + if signals[i].0.LineRead? then [signals[i].0.line] else []
  {
    assert signals[..i + 1][..i] == signals[..i];
  }

  lemma OneMoreInput(cfg: M.Config, st: M.State, inputs: seq<M.Input>, input: M.Input)
    ensures M.Run(cfg, st, inputs + [input]) == M.Step(cfg, M.Run(cfg, st, inputs), input)
    ensures Moves.Arrivals(inputs + [input]) == Moves.Arrivals(inputs) + Moves.Arrival(input.event)
  {
    assert (inputs + [input])[..|inputs|] == inputs;
  }

  /** The theorems about runs, of one run. */
  lemma RunFacts(cfg: M.Config, queue: SpoolQueue.Spool, ck: M.Cursors, inputs: seq<M.Input>, lines: seq<M.Line>, st: M.State)
    requires cfg.Ok() && cfg.Lossless() && st == M.Run(cfg, M.Start(cfg, queue, ck), inputs)
    requires lines == Moves.Arrivals(inputs)
    ensures st.log.lines == lines && Structure.Inv(cfg, st) && Live.Live(st)
    ensures forall n: nat :: Ledger.Accounted(cfg, st, M.SpoolRecords(cfg, queue.Fifo()), n)
    ensures Gap.Inherited(ck) && Gap.AllShippable(cfg, lines) ==>
              forall n: nat :: n < |st.log.lines| ==>
                || Ledger.Elsewhere(cfg, st, n) == Ledger.Count(M.SpoolRecords(cfg, queue.Fifo()), n) + 1
                || Gap.CheckpointBefore(st, n)
  {
    Moves.EveryRunIsReachable(cfg, queue, ck, inputs);
    Structure.EveryMomentIsAligned(cfg, queue, ck, st);
    Live.EveryRunIsLive(cfg, queue, ck, inputs);
    forall n: nat
      ensures Ledger.Accounted(cfg, st, M.SpoolRecords(cfg, queue.Fifo()), n)
    {
      Ledger.EveryLineIsAccounted(cfg, queue, ck, st, n);
    }
    if Gap.Inherited(ck) && Gap.AllShippable(cfg, lines) {
      forall n: nat | n < |st.log.lines|
        ensures || Ledger.Elsewhere(cfg, st, n) == Ledger.Count(M.SpoolRecords(cfg, queue.Fifo()), n) + 1
                || Gap.CheckpointBefore(st, n)
      {
        Gap.ShippableOnDiskOrAhead(cfg, queue, ck, inputs, n);
      }
    }
  }

  lemma {:induction false} FlushEachSnoc(cfg: M.Config, st: M.State, ids: seq<M.StreamID>, id: M.StreamID)
    ensures M.FlushEach(cfg, st, ids + [id]) == M.FlushAccum(cfg, M.FlushEach(cfg, st, ids), id)
    decreases |ids|
  {
    if ids == [] {
      assert ids + [id] == [id] && [id][1..] == [];
    } else {
      assert (ids + [id])[1..] == ids[1..] + [id];
      FlushEachSnoc(cfg, M.FlushAccum(cfg, st, ids[0]), ids[1..], id);
    }
  }

}
