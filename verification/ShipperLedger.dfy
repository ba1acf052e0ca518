/** Conservation: every line given to the shipper is in exactly one place, at every moment. */
module ShipperLedger {
  import opened Prelude
  import opened Frames
  import opened SpoolQueue
  import opened ShipperModel
  import opened ShipperLive
  import opened ShipperMoves

  function Count(s: seq<nat>, n: nat): nat {
    if s == [] then 0 else (if s[0] == n then 1 else 0) + Count(s[1..], n)
  }

  lemma {:induction false} CountConcat(a: seq<nat>, b: seq<nat>, n: nat)
    ensures Count(a + b, n) == Count(a, n) + Count(b, n)
  {
    if a == [] {
      assert a + b == b;
    } else {
      assert (a + b)[1..] == a[1..] + b;
      CountConcat(a[1..], b, n);
    }
  }

  lemma {:induction false} CountMember(s: seq<nat>, n: nat)
    ensures Count(s, n) > 0 <==> n in s
  {
    if s != [] {
      CountMember(s[1..], n);
      assert n in s <==> n == s[0] || n in s[1..];
    }
  }

  lemma CountOne(n: nat, m: nat)
    ensures Count([m], n) == if m == n then 1 else 0
  {
    assert [m][1..] == [];
  }

  /** How often line n is in an accumulator. A line can only be in that of its own label set. */
  function InAccums(cfg: Config, accums: map<StreamID, Accum>, lines: seq<Line>, n: nat): nat {
    if n >= |lines| then 0
    else
      match cfg.labels(lines[n].source)
      case None => 0
      case Some(id) => if id in accums then Count(accums[id].records, n) else 0
  }

  function InAccum(cfg: Config, st: State, n: nat): nat {
    InAccums(cfg, st.accums, st.log.lines, n)
  }

  /** Records held only by the window: those of fresh batches. */
  function FreshRecords(batches: seq<Outstanding>): seq<nat> {
    if batches == [] then []
    else (if batches[0].fromSpool then [] else batches[0].batch.records) + FreshRecords(batches[1..])
  }

  /** How often line n is in the spool, or has left the agent. */
  function Elsewhere(cfg: Config, st: State, n: nat): nat {
    Count(SpoolRecords(cfg, st.spool.Fifo()), n) + Count(st.log.acceptedFresh, n) + Count(st.log.droppedFresh, n)
      + Count(SpoolRecords(cfg, st.log.evicted), n) + Count(SpoolRecords(cfg, st.log.released), n)
  }

  /** How often line n is held by the agent or known to have left it. */
  function Places(cfg: Config, st: State, n: nat): nat {
    InAccum(cfg, st, n) + Count(FreshRecords(st.pending), n) + Elsewhere(cfg, st, n)
  }

  /** Accumulators hold lines of their own label set only. */
  ghost predicate OwnLines(cfg: Config, accums: map<StreamID, Accum>, lines: seq<Line>) {
    forall id, k :: id in accums && 0 <= k < |accums[id].records| ==> OfStream(cfg, lines, accums[id].records[k], id)
  }

  predicate OfStream(cfg: Config, lines: seq<Line>, n: nat, id: StreamID) {
    n < |lines| && cfg.labels(lines[n].source) == Some(id)
  }

  /** Line n is accounted for: once if it arrived in this run, on top of what the spool held. */
  predicate Accounted(cfg: Config, st: State, found: seq<nat>, n: nat) {
    Places(cfg, st, n) == Count(found, n) + if n < |st.log.lines| then 1 else 0
  }

  lemma {:induction false} SpoolRecordsConcat(cfg: Config, a: seq<Payload>, b: seq<Payload>)
    ensures SpoolRecords(cfg, a + b) == SpoolRecords(cfg, a) + SpoolRecords(cfg, b)
  {
    if a == [] {
      assert a + b == b;
    } else {
      assert (a + b)[1..] == a[1..] + b;
      SpoolRecordsConcat(cfg, a[1..], b);
    }
  }

  lemma SpoolCount(cfg: Config, a: seq<Payload>, b: seq<Payload>, n: nat)
    ensures Count(SpoolRecords(cfg, a + b), n) == Count(SpoolRecords(cfg, a), n) + Count(SpoolRecords(cfg, b), n)
  {
    SpoolRecordsConcat(cfg, a, b);
    CountConcat(SpoolRecords(cfg, a), SpoolRecords(cfg, b), n);
  }

  lemma OneRecord(cfg: Config, p: Payload)
    ensures SpoolRecords(cfg, [p]) == PayloadRecords(cfg, p)
  {
    assert [p][1..] == [];
  }

  lemma {:induction false} FreshRecordsConcat(a: seq<Outstanding>, b: seq<Outstanding>)
    ensures FreshRecords(a + b) == FreshRecords(a) + FreshRecords(b)
  {
    if a == [] {
      assert a + b == b;
    } else {
      assert (a + b)[1..] == a[1..] + b;
      FreshRecordsConcat(a[1..], b);
    }
  }

  /** Spooling a batch that fits adds it to the spool and takes the evicted entries out. */
  lemma AppendCounts(cfg: Config, q: Spool, batch: Batch, n: nat)
    requires cfg.Lossless() && cfg.Fits(batch)
    ensures Count(SpoolRecords(cfg, SpoolAfter(cfg, q, batch).Fifo()), n) + Count(SpoolRecords(cfg, Lost(cfg, q, batch)), n)
         == Count(SpoolRecords(cfg, q.Fifo()), n) + Count(batch.records, n)
  {
    var data := cfg.marshal(batch);
    var k := AppendEvicts(cfg.limits, q, data);
    AppendRefines(cfg.limits, q, data);
    var all := q.Fifo();
    assert (all + [data])[k..] == all[k..] + [data];
    assert all == all[..k] + all[k..];
    SpoolCount(cfg, all[..k], all[k..], n);
    SpoolCount(cfg, all[k..], [data], n);
    OneRecord(cfg, data);
  }

  lemma AppendMoves(cfg: Config, st: State, batch: Batch, cursors: Cursors, n: nat)
    requires cfg.Lossless()
    ensures Elsewhere(cfg, AppendToSpool(cfg, st, batch, cursors), n) == Elsewhere(cfg, st, n) + Count(batch.records, n)
  {
    var log := AppendLog(cfg, st, batch);
    if cfg.Fits(batch) {
      AppendCounts(cfg, st.spool, batch, n);
      SpoolCount(cfg, st.log.evicted, Lost(cfg, st.spool, batch), n);
    } else {
      assert st.log.evicted + [] == st.log.evicted;
      CountConcat(st.log.droppedFresh, batch.records, n);
    }
  }

  lemma {:induction false} DemoteMoves(cfg: Config, st: State, batches: seq<Outstanding>, n: nat)
    requires cfg.Lossless()
    ensures Elsewhere(cfg, Demote(cfg, st, batches), n) == Elsewhere(cfg, st, n) + Count(FreshRecords(batches), n)
    decreases |batches|
  {
    if batches != [] {
      var o := batches[0];
      var first := if o.fromSpool then [] else o.batch.records;
      CountConcat(first, FreshRecords(batches[1..]), n);
      AppendMoves(cfg, st, o.batch, o.cursors, n);
      DemoteMoves(cfg, if o.fromSpool then st else AppendToSpool(cfg, st, o.batch, o.cursors), batches[1..], n);
    }
  }

  /** Demotion loses and duplicates nothing. */
  lemma DemoteAllConserves(cfg: Config, st: State, n: nat)
    requires cfg.Lossless()
    ensures Places(cfg, DemoteAll(cfg, st), n) == Places(cfg, st, n)
    ensures DemoteAll(cfg, st).accums == st.accums && DemoteAll(cfg, st).log.lines == st.log.lines
  {
    DemoteMoves(cfg, NoteReorder(st), st.pending, n);
    DemoteSame(cfg, NoteReorder(st), st.pending);
  }

  lemma PushMoves(cfg: Config, st: State, o: Outstanding, n: nat)
    ensures Places(cfg, PushPending(st, o), n) == Places(cfg, st, n) + if o.fromSpool then 0 else Count(o.batch.records, n)
  {
    FreshRecordsConcat(st.pending, [o]);
    assert [o][1..] == [];
    assert FreshRecords([o]) == if o.fromSpool then [] else o.batch.records;
    CountConcat(FreshRecords(st.pending), FreshRecords([o]), n);
  }

  /** Turning an accumulator into a batch takes its records out of the accumulators. */
  lemma TakeBatchMoves(cfg: Config, st: State, id: StreamID, n: nat)
    requires OwnLines(cfg, st.accums, st.log.lines) && id in st.accums
    ensures OwnLines(cfg, st.accums - {id}, st.log.lines)
    ensures InAccums(cfg, st.accums - {id}, st.log.lines, n) + Count(st.accums[id].records, n) == InAccum(cfg, st, n)
  {
    CountMember(st.accums[id].records, n);
    if n in st.accums[id].records {
      var k :| 0 <= k < |st.accums[id].records| && st.accums[id].records[k] == n;
      assert OfStream(cfg, st.log.lines, st.accums[id].records[k], id);
    }
  }

  lemma SpoolMoveConserves(cfg: Config, st: State, id: StreamID, n: nat)
    requires cfg.Lossless() && OwnLines(cfg, st.accums, st.log.lines) && id in st.accums
    ensures Places(cfg, SpoolMove(cfg, st, id), n) == Places(cfg, st, n)
  {
    TakeBatchMoves(cfg, st, id, n);
    AppendMoves(cfg, NoteOverflow(cfg, TakeBatch(st, id)), BuildBatch(st, id), st.accums[id].cursors, n);
  }

  lemma SendMoveConserves(cfg: Config, st: State, id: StreamID, n: nat)
    requires OwnLines(cfg, st.accums, st.log.lines) && id in st.accums
    ensures Places(cfg, SendMove(st, id), n) == Places(cfg, st, n)
  {
    TakeBatchMoves(cfg, st, id, n);
    PushMoves(cfg, TakeBatch(st, id), Outstanding(BuildBatch(st, id), st.accums[id].cursors, false), n);
  }

  lemma ReplayMoveConserves(cfg: Config, st: State, b: Batch, n: nat)
    ensures Places(cfg, ReplayMove(st, b), n) == Places(cfg, st, n)
  {
    PushMoves(cfg, st, Outstanding(b, FrontMeta(st), true), n);
  }

  /** Release moves the front entry from the spool to the released ones. */
  lemma ReleaseCounts(cfg: Config, q: Spool, released: seq<Payload>, n: nat)
    ensures Count(SpoolRecords(cfg, Release(q).Fifo()), n) + Count(SpoolRecords(cfg, released + Front(q)), n)
         == Count(SpoolRecords(cfg, q.Fifo()), n) + Count(SpoolRecords(cfg, released), n)
  {
    ReleaseRefines(q);
    SpoolCount(cfg, released, Front(q), n);
    if q.Fifo() != [] {
      assert q.Fifo() == [q.Fifo()[0]] + q.Fifo()[1..];
      SpoolCount(cfg, [q.Fifo()[0]], q.Fifo()[1..], n);
    }
  }

  lemma CorruptConserves(cfg: Config, st: State, n: nat)
    ensures Places(cfg, DropCorrupt(cfg, st), n) == Places(cfg, st, n)
  {
    ReleaseCounts(cfg, st.spool, st.log.released, n);
  }

  lemma SettleFreshConserves(cfg: Config, st: State, accepted: bool, n: nat)
    requires st.pending != [] && !st.pending[0].fromSpool
    ensures Places(cfg, Settle(cfg, st, accepted), n) == Places(cfg, st, n)
  {
    var rs := st.pending[0].batch.records;
    CountConcat(rs, FreshRecords(st.pending[1..]), n);
    CountConcat(st.log.acceptedFresh, rs, n);
    CountConcat(st.log.droppedFresh, rs, n);
  }

  lemma SettleReplayConserves(cfg: Config, st: State, accepted: bool, n: nat)
    requires st.pending != [] && st.pending[0].fromSpool
    ensures Places(cfg, Settle(cfg, st, accepted), n) == Places(cfg, st, n)
  {
    ReleaseCounts(cfg, st.spool, st.log.released, n);
    assert [] + FreshRecords(st.pending[1..]) == FreshRecords(st.pending[1..]);
  }

  lemma SettleKeeps(cfg: Config, st: State, accepted: bool)
    requires st.pending != []
    ensures Settle(cfg, st, accepted).accums == st.accums && Settle(cfg, st, accepted).log.lines == st.log.lines
    ensures SettleMove(cfg, st, accepted)
         == Settle(cfg, st, accepted).(ck := SettleMove(cfg, st, accepted).ck, attempt := SettleMove(cfg, st, accepted).attempt)
  {
  }

  lemma SettleConserves(cfg: Config, st: State, accepted: bool, n: nat)
    requires st.pending != []
    ensures Places(cfg, SettleMove(cfg, st, accepted), n) == Places(cfg, st, n)
  {
    if st.pending[0].fromSpool {
      SettleReplayConserves(cfg, st, accepted, n);
    } else {
      SettleFreshConserves(cfg, st, accepted, n);
    }
    SettleKeeps(cfg, st, accepted);
  }

  lemma SkipConserves(cfg: Config, st: State, id: StreamID, n: nat)
    requires OwnLines(cfg, st.accums, st.log.lines) && id in st.accums && st.accums[id].records == []
    ensures Places(cfg, FlushEmpty(st, id), n) == Places(cfg, st, n)
  {
    TakeBatchMoves(cfg, st, id, n);
  }

  lemma RejectAdds(cfg: Config, st: State, line: Line, n: nat)
    requires OwnLines(cfg, st.accums, st.log.lines) && cfg.labels(line.source).None?
    ensures OwnLines(cfg, st.accums, st.log.lines + [line])
    ensures Places(cfg, TurnAway(st, line), n) == Places(cfg, st, n) + if n == |st.log.lines| then 1 else 0
  {
    var k := |st.log.lines|;
    forall id, i | id in st.accums && 0 <= i < |st.accums[id].records|
      ensures OfStream(cfg, st.log.lines + [line], st.accums[id].records[i], id)
    {
      assert OfStream(cfg, st.log.lines, st.accums[id].records[i], id);
    }
    CountConcat(st.log.droppedFresh, [k], n);
    CountOne(n, k);
  }

  lemma FoldOwns(cfg: Config, st: State, id: StreamID, line: Line, now: nat)
    requires OwnLines(cfg, st.accums, st.log.lines) && cfg.labels(line.source) == Some(id)
    ensures OwnLines(cfg, FoldMove(cfg, st, id, line, now).accums, st.log.lines + [line])
  {
    var r := FoldMove(cfg, st, id, line, now);
    forall i, k | i in r.accums && 0 <= k < |r.accums[i].records|
      ensures OfStream(cfg, st.log.lines + [line], r.accums[i].records[k], i)
    {
      if i in st.accums && k < |st.accums[i].records| {
        assert OfStream(cfg, st.log.lines, st.accums[i].records[k], i);
      }
    }
  }

  /** The new line is in no accumulator yet. */
  lemma NewLineIsNew(cfg: Config, st: State, id: StreamID)
    requires OwnLines(cfg, st.accums, st.log.lines)
    ensures id in st.accums ==> Count(st.accums[id].records, |st.log.lines|) == 0
  {
    if id in st.accums {
      CountMember(st.accums[id].records, |st.log.lines|);
      forall k | 0 <= k < |st.accums[id].records|
        ensures st.accums[id].records[k] < |st.log.lines|
      {
        assert OfStream(cfg, st.log.lines, st.accums[id].records[k], id);
      }
    }
  }

  /** Where the line goes: its accumulator, or the drop count. */
  lemma FoldAdds(cfg: Config, st: State, id: StreamID, line: Line, now: nat, n: nat)
    requires OwnLines(cfg, st.accums, st.log.lines) && cfg.labels(line.source) == Some(id)
    ensures Places(cfg, FoldMove(cfg, st, id, line, now), n) == Places(cfg, st, n) + if n == |st.log.lines| then 1 else 0
  {
    var k, ok := |st.log.lines|, cfg.Shippable(id, line);
    var before := if id in st.accums then st.accums[id].records else [];
    NewLineIsNew(cfg, st, id);
    CountConcat(before, [k], n);
    CountConcat(st.log.droppedFresh, [k], n);
    CountOne(n, k);
    FoldedCounts(cfg, st, id, line, now, n);
  }

  lemma FoldedCounts(cfg: Config, st: State, id: StreamID, line: Line, now: nat, n: nat)
    requires cfg.labels(line.source) == Some(id)
    requires id in st.accums ==> Count(st.accums[id].records, |st.log.lines|) == 0
    requires var before := if id in st.accums then st.accums[id].records else [];
             Count(before + [|st.log.lines|], n) == Count(before, n) + if n == |st.log.lines| then 1 else 0
    ensures InAccum(cfg, FoldMove(cfg, st, id, line, now), n)
         == InAccum(cfg, st, n) + if n == |st.log.lines| && cfg.Shippable(id, line) then 1 else 0
  {
    assert (st.log.lines + [line])[|st.log.lines|] == line;
  }

  lemma DoOwns(cfg: Config, st: State, m: Move)
    requires OwnLines(cfg, st.accums, st.log.lines)
    ensures OwnLines(cfg, Do(cfg, st, m).accums, Do(cfg, st, m).log.lines)
  {
    if Can(cfg, st, m) {
      match m
      case Rejected(line) => RejectAdds(cfg, st, line, 0);
      case Folded(id, line, now) => FoldOwns(cfg, st, id, line, now);
      case Skipped(id) => TakeBatchMoves(cfg, st, id, 0);
      case Spooled(id) => TakeBatchMoves(cfg, st, id, 0);
      case SentFresh(id) => TakeBatchMoves(cfg, st, id, 0);
      case Settled(accepted) => SettleKeeps(cfg, st, accepted);
      case Demoted => DemoteSame(cfg, NoteReorder(st), st.pending);
      case _ =>
    }
  }

  /** The same lines, as often. */
  predicate Same(cfg: Config, a: State, b: State, n: nat) {
    b.log.lines == a.log.lines && Places(cfg, b, n) == Places(cfg, a, n)
  }

  lemma SendingConserves(cfg: Config, st: State, m: Move, n: nat)
    requires OwnLines(cfg, st.accums, st.log.lines) && Can(cfg, st, m)
    requires m.SentFresh? || m.SentReplay? || m.Corrupt? || m.Settled?
    ensures Same(cfg, st, Do(cfg, st, m), n)
  {
    match m
    case SentFresh(id) => SendMoveConserves(cfg, st, id, n);
    case SentReplay => ReplayMoveConserves(cfg, st, cfg.unmarshal(st.spool.Fifo()[0]).value, n);
    case Corrupt => CorruptConserves(cfg, st, n);
    case Settled(accepted) => SettleConserves(cfg, st, accepted, n); SettleKeeps(cfg, st, accepted);
  }

  lemma SpoolingConserves(cfg: Config, st: State, m: Move, n: nat)
    requires cfg.Lossless() && OwnLines(cfg, st.accums, st.log.lines) && Can(cfg, st, m)
    requires m.Skipped? || m.Spooled? || m.Demoted? || m.Relinked? || m.Committed?
    ensures Same(cfg, st, Do(cfg, st, m), n)
  {
    match m
    case Skipped(id) => SkipConserves(cfg, st, id, n);
    case Spooled(id) => SpoolMoveConserves(cfg, st, id, n);
    case Demoted => DemoteAllConserves(cfg, st, n);
    case _ =>
  }

  lemma IntakeConserves(cfg: Config, st: State, m: Move, found: seq<nat>, n: nat)
    requires OwnLines(cfg, st.accums, st.log.lines) && Accounted(cfg, st, found, n) && Can(cfg, st, m)
    requires m.Rejected? || m.Folded?
    ensures Accounted(cfg, Do(cfg, st, m), found, n)
  {
    match m
    case Rejected(line) => RejectAdds(cfg, st, line, n);
    case Folded(id, line, now) => FoldAdds(cfg, st, id, line, now, n);
  }

  lemma DoConserves(cfg: Config, st: State, m: Move, found: seq<nat>, n: nat)
    requires cfg.Lossless() && OwnLines(cfg, st.accums, st.log.lines) && Accounted(cfg, st, found, n)
    ensures Accounted(cfg, Do(cfg, st, m), found, n)
  {
    if Can(cfg, st, m) {
      if m.Rejected? || m.Folded? {
        IntakeConserves(cfg, st, m, found, n);
      } else if m.SentFresh? || m.SentReplay? || m.Corrupt? || m.Settled? {
        SendingConserves(cfg, st, m, n);
      } else {
        SpoolingConserves(cfg, st, m, n);
      }
    }
  }

  lemma {:induction false} PlayConserves(cfg: Config, spool: Spool, ck: Cursors, moves: seq<Move>, n: nat)
    requires cfg.Lossless()
    ensures var st := Play(cfg, Start(cfg, spool, ck), moves);
            OwnLines(cfg, st.accums, st.log.lines) && Accounted(cfg, st, SpoolRecords(cfg, spool.Fifo()), n)
    decreases |moves|
  {
    if moves != [] {
      var before := moves[..|moves| - 1];
      PlayConserves(cfg, spool, ck, before, n);
      DoOwns(cfg, Play(cfg, Start(cfg, spool, ck), before), moves[|moves| - 1]);
      DoConserves(cfg, Play(cfg, Start(cfg, spool, ck), before), moves[|moves| - 1],
                  SpoolRecords(cfg, spool.Fifo()), n);
    }
  }

  /** At every moment of every run, evictions, refusals and disconnects included, every line that
      arrived is in exactly one place: an accumulator, a fresh outstanding batch, the spool, accepted
      or dropped without having been spooled, evicted, or released from the spool. */
  lemma EveryLineIsAccounted(cfg: Config, spool: Spool, ck: Cursors, st: State, n: nat)
    requires cfg.Lossless() && Reachable(cfg, spool, ck, st)
    ensures OwnLines(cfg, st.accums, st.log.lines) && Accounted(cfg, st, SpoolRecords(cfg, spool.Fifo()), n)
  {
    var moves :| st == Play(cfg, Start(cfg, spool, ck), moves);
    PlayConserves(cfg, spool, ck, moves, n);
  }

  lemma {:induction false} FlushEachEmpties(cfg: Config, st: State, ids: seq<StreamID>)
    ensures FlushEach(cfg, st, ids).accums == st.accums - (set id | id in ids)
    decreases |ids|
  {
    if ids != [] {
      FlushTakesOne(cfg, st, ids[0]);
      FlushEachEmpties(cfg, FlushAccum(cfg, st, ids[0]), ids[1..]);
      assert (set id | id in ids) == {ids[0]} + (set id | id in ids[1..]);
    }
  }

  lemma {:induction false} DrainTakesNone(cfg: Config, st: State)
    ensures DrainLoop(cfg, st).accums == st.accums
    decreases Len(st.spool)
  {
    if Len(st.spool) > 0 {
      match cfg.unmarshal(st.spool.Fifo()[0])
      case None =>
        ReleaseRefines(st.spool);
        DrainTakesNone(cfg, DropCorrupt(cfg, st));
      case Some(b) => SendNowTakesNone(cfg, st, b, FrontMeta(st), true);
    }
  }

  lemma ApplyAckTakesNone(cfg: Config, st: State, code: AckCode)
    requires st.pending != []
    ensures ApplyAck(cfg, st, code).accums == st.accums
  {
    match code
    case ACCEPTED => SettleKeeps(cfg, st, true);
    case INVALID => SettleKeeps(cfg, st, false);
    case OVERLOADED => DemoteKeepsAccums(cfg, NoteReorder(st), st.pending);
    case INTERNAL => DemoteKeepsAccums(cfg, NoteReorder(st), st.pending);
  }

  lemma {:induction false} AwaitAcksTakesNone(cfg: Config, st: State, acks: seq<AckCode>)
    ensures AwaitAcks(cfg, st, acks).accums == st.accums
    decreases |acks|
  {
    if acks != [] && st.pending != [] && st.connected {
      var st1 := ApplyAck(cfg, st, acks[0]);
      ApplyAckTakesNone(cfg, st, acks[0]);
      DrainTakesNone(cfg, st1);
      AwaitAcksTakesNone(cfg, ProcessAck(cfg, st, acks[0]), acks[1..]);
    }
  }

  lemma NothingLeft(accums: map<StreamID, Accum>, ids: seq<StreamID>)
    requires forall id :: id in accums ==> id in ids
    ensures accums - (set id | id in ids) == map[]
  {
    var left := accums - (set id | id in ids);
    forall id
      ensures id !in left
    {
      if id in accums {
        assert id in ids;
      }
    }
  }

  lemma ShutdownEmpties(cfg: Config, st: State, ids: seq<StreamID>, acks: seq<AckCode>)
    requires forall id :: id in st.accums ==> id in ids
    ensures var r := Shutdown(cfg, st, ids, acks); r.accums == map[] && r.pending == [] && r.committed == r.ck
  {
    var st2 := AwaitAcks(cfg, FlushEach(cfg, st, ids), acks);
    FlushEachEmpties(cfg, st, ids);
    NothingLeft(st.accums, ids);
    AwaitAcksTakesNone(cfg, FlushEach(cfg, st, ids), acks);
    DemoteKeepsAccums(cfg, NoteReorder(st2), st2.pending);
  }

  /** Shutdown leaves nothing in memory: from any moment of any run and whatever acks still arrive,
      when it returns every line is in the spool or has a recorded fate, and the checkpoint is
      committed. */
  lemma ShutdownKeepsNothingInMemory(
    cfg: Config, spool: Spool, ck: Cursors, st: State, ids: seq<StreamID>, acks: seq<AckCode>, n: nat)
    requires cfg.Lossless() && Reachable(cfg, spool, ck, st)
    requires forall id :: id in st.accums ==> id in ids
    ensures var r := Shutdown(cfg, st, ids, acks);
            && r.accums == map[] && r.pending == [] && r.committed == r.ck
            && Elsewhere(cfg, r, n) == Count(SpoolRecords(cfg, spool.Fifo()), n) + if n < |st.log.lines| then 1 else 0
  {
    ShutdownEmpties(cfg, st, ids, acks);
    ShutdownIsReachable(cfg, spool, ck, st, ids, acks);
    EveryLineIsAccounted(cfg, spool, ck, Shutdown(cfg, st, ids, acks), n);
  }
}
