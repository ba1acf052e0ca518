/** From the queue to the hypertable (internal/ingest/consumer.go, internal/storage/writer.go,
    internal/storage/streams.go): deliveries, a bounded channel of shipments, a pool of workers that
    batch and retry, and shutdown, as a state machine over the steps of all goroutines. */
module Writer {
  import opened Prelude
  import opened Sequences
  import Lru

  type Stream = int

  /** The dedup key of a log row. */
  datatype Key = Key(stream: Stream, seqno: int, time: int)

  /** A record as it arrives. `valid` is the outcome of its validation. */
  datatype Entry = Entry(seqno: int, time: int, valid: bool)

  /** What a message holds. */
  datatype Content = Garbage | BadLabels | Batch(stream: Stream, entries: seq<Entry>)

  /** How the delivery of a message can end. */
  datatype Terminal = Acked | Naked | Termed

  /** A delivery inside handle; `checked` once Submit is waiting in its select. */
  datatype Handler = Handler(delivery: nat, checked: bool)

  /** A worker and its batch. `attempt` is 0 between flushes; `copying` once the batch's streams are
      durable; `last` marks the flush after which the worker returns. */
  datatype Worker = Worker(
    records: seq<Key>,
    streams: set<Stream>,
    acks: seq<nat>,
    attempt: nat,
    copying: bool,
    draining: bool,
    last: bool,
    stopped: bool)

  type Cache = seq<Lru.Entry<Stream, int>>

  /** The database holds `rows` of the streams table and `table` of the logs table. */
  datatype Sys = Sys(
    content: seq<Content>,
    ends: seq<seq<Terminal>>,
    handlers: seq<Handler>,
    stopping: bool,
    queue: seq<nat>,
    workers: seq<Worker>,
    canceled: bool,
    quit: bool,
    drained: bool,
    cache: Cache,
    rows: set<Stream>,
    table: seq<Key>)

  datatype Config = Config(depth: nat, batchSize: nat, maxAttempts: nat, capacity: nat, refreshAfter: int, direct: bool)

  /** What the database did with a transaction and what it reported: a commit that is reported has
      happened, one that fails may have happened. */
  datatype Outcome = Committed | Failed(happened: bool, retryable: bool)

  function Happens(o: Outcome): bool { o.Committed? || o.happened }

  /** Submit's filter: the valid records, stamped with the stream of the shipment. */
  function Accepted(c: Content): seq<Key> {
    if !c.Batch? then [] else Keys(c.stream, c.entries)
  }

  function KeyOf(stream: Stream, e: Entry): Key { Key(stream, e.seqno, e.time) }

  function Keys(stream: Stream, entries: seq<Entry>): seq<Key> {
    var kept := Where(entries, IsValid);
    seq(|kept|, j requires 0 <= j < |kept| => KeyOf(stream, kept[j]))
  }

  predicate IsValid(e: Entry) { e.valid }

  /** What Submit keeps of a shipment: each valid record once, in order, and nothing else. */
  lemma AcceptedAreTheValid(stream: Stream, entries: seq<Entry>) returns (at: seq<nat>)
    ensures var ks := Accepted(Batch(stream, entries));
            && |at| == |ks|
            && (forall j :: 0 <= j < |at| ==> at[j] < |entries| && entries[at[j]].valid && ks[j] == KeyOf(stream, entries[at[j]]))
            && (forall j, k :: 0 <= j < k < |at| ==> at[j] < at[k])
            && (forall i: nat {:trigger i in at} :: i < |entries| && entries[i].valid ==> i in at)
  {
    at := WhereSelects(entries, IsValid);
    assert Draws(entries, IsValid, at, Where(entries, IsValid));
    forall i: nat | i < |entries| && entries[i].valid
      ensures i in at
    {
      assert !Misses(entries, IsValid, at, i);
    }
  }

  /** acceptable: the invalid records are compacted out. */
  method Acceptable(stream: Stream, entries: seq<Entry>) returns (kept: seq<Key>)
    ensures kept == Accepted(Batch(stream, entries))
  {
    kept := [];
    for i := 0 to |entries|
      invariant kept == Keys(stream, entries[..i])
    {
      assert entries[..i + 1] == entries[..i] + [entries[i]];
      WhereSnoc(entries[..i], entries[i], IsValid);
      if entries[i].valid {
        kept := kept + [KeyOf(stream, entries[i])];
      }
    }
    assert entries[..|entries|] == entries;
  }

  function Repeat(t: Terminal, n: nat): seq<Terminal> { seq(n, _ => t) }

  function Count(xs: seq<nat>, n: nat): nat {
    if xs == [] then 0 else (if xs[0] == n then 1 else 0) + Count(xs[1..], n)
  }

  /** Every delivery in `ns` is terminated. */
  function Ended(ends: seq<seq<Terminal>>, ns: seq<nat>, t: Terminal): seq<seq<Terminal>> {
    seq(|ends|, n requires 0 <= n < |ends| => ends[n] + Repeat(t, Count(ns, n)))
  }

  /** The handler's part is over. */
  function Leave(s: Sys, h: nat, t: Terminal): Sys
    requires h < |s.handlers|
  {
    s.(handlers := Without(s.handlers, h), ends := Ended(s.ends, [s.handlers[h].delivery], t))
  }

  /** enter, and handle up to Submit. */
  function Deliver(s: Sys, c: Content): Sys {
    var end := if s.stopping then [Naked] else if c.Batch? then [] else [Termed];
    s.(content := s.content + [c], ends := s.ends + [end],
       handlers := if end == [] then s.handlers + [Handler(|s.content|, false)] else s.handlers)
  }

  /** Submit up to its select: refused by a closing writer, or nothing worth queueing. */
  function Check(s: Sys, h: nat): Sys
    requires h < |s.handlers| && s.handlers[h].delivery < |s.content|
  {
    var n := s.handlers[h].delivery;
    if s.quit then Leave(s, h, Naked)
    else if Accepted(s.content[n]) == [] then Leave(s, h, Acked)
    else s.(handlers := s.handlers[h := Handler(n, true)])
  }

  /** The select of Submit: the channel has room. */
  function Send(s: Sys, h: nat): Sys
    requires h < |s.handlers|
  {
    s.(handlers := Without(s.handlers, h), queue := s.queue + [s.handlers[h].delivery])
  }

  /** needsUpsert's answer. */
  predicate NeedsUpsert(cfg: Config, cache: Cache, stream: Stream, now: int) {
    var i := Lru.Find(cache, stream);
    i >= |cache| || now - cache[i].value >= cfg.refreshAfter
  }

  /** writeBatch.add of the shipment of a delivery, and the flush of a full batch. */
  function AddTo(cfg: Config, w: Worker, n: nat, c: Content, needs: bool): Worker {
    var records := w.records + Accepted(c);
    w.(records := records, acks := w.acks + [n],
       streams := if needs && c.Batch? then w.streams + {c.stream} else w.streams,
       attempt := if |records| >= cfg.batchSize then 1 else 0, copying := false)
  }

  function Take(cfg: Config, s: Sys, i: nat, now: int): Sys
    requires i < |s.workers| && s.queue != [] && s.queue[0] < |s.content|
  {
    var w, n := s.workers[i], s.queue[0];
    var c := s.content[n];
    var asks := c.Batch? && c.stream !in w.streams;
    s.(queue := s.queue[1..],
       cache := if asks then Lru.Use(s.cache, c.stream) else s.cache,
       workers := s.workers[i := AddTo(cfg, w, n, c, asks && NeedsUpsert(cfg, s.cache, c.stream, now))])
  }

  function SetWorker(s: Sys, i: nat, w: Worker): Sys
    requires i < |s.workers|
  {
    s.(workers := s.workers[i := w])
  }

  function BeginFlush(w: Worker, last: bool): Worker {
    w.(attempt := 1, copying := false, last := last)
  }

  /** The end of flush: every ack is called, and the batch is reset. */
  function EndFlush(s: Sys, i: nat, t: Terminal): Sys
    requires i < |s.workers|
  {
    var w := s.workers[i];
    s.(ends := Ended(s.ends, w.acks, t),
       workers := s.workers[i := Worker([], {}, [], 0, false, w.draining, w.last, w.last)])
  }

  /** A failed attempt: another one, or the batch is given up. */
  function Retry(cfg: Config, s: Sys, i: nat, retryable: bool): Sys
    requires i < |s.workers|
  {
    var w := s.workers[i];
    if retryable && w.attempt < cfg.maxAttempts then SetWorker(s, i, w.(attempt := w.attempt + 1, copying := false))
    else EndFlush(s, i, Naked)
  }

  /** markUpserted for every stream of the batch, in ascending order. */
  function Marked(cfg: Config, cache: Cache, ids: seq<Stream>, at: int): Cache
    decreases |ids|
  {
    if ids == [] then cache else Marked(cfg, Lru.StoreBounded(cache, cfg.capacity, ids[0], at), ids[1..], at)
  }

  /** commitStreams. `ids` is the batch's streams in order. */
  function Upsert(cfg: Config, s: Sys, i: nat, o: Outcome, ids: seq<Stream>, at: int): Sys
    requires i < |s.workers|
  {
    var w := s.workers[i];
    if w.streams == {} then SetWorker(s, i, w.(copying := true))
    else
      var rows := if Happens(o) then s.rows + w.streams else s.rows;
      if o.Committed? then
        s.(rows := rows, cache := Marked(cfg, s.cache, ids, at), workers := s.workers[i := w.(streams := {}, copying := true)])
      else Retry(cfg, s.(rows := rows), i, o.retryable)
  }

  /** INSERT ... ON CONFLICT DO NOTHING from staging. */
  function Staged(table: seq<Key>, ks: seq<Key>): seq<Key>
    decreases |ks|
  {
    if ks == [] then table else Staged(if ks[0] in table then table else table + [ks[0]], ks[1..])
  }

  predicate Unrepeated(ks: seq<Key>) {
    forall i, j :: 0 <= i < j < |ks| ==> ks[i] != ks[j]
  }

  /** COPY straight into logs: a unique violation aborts it. */
  function Direct(table: seq<Key>, ks: seq<Key>): Option<seq<Key>> {
    if Unrepeated(table + ks) then Some(table + ks) else None
  }

  /** commitRecords: the direct path falls back to staging on a unique violation. */
  function Inserted(cfg: Config, table: seq<Key>, ks: seq<Key>): seq<Key> {
    if cfg.direct && Direct(table, ks).Some? then Direct(table, ks).value else Staged(table, ks)
  }

  /** The foreign key of logs. */
  predicate KeyHolds(rows: set<Stream>, ks: seq<Key>) {
    forall j :: 0 <= j < |ks| ==> ks[j].stream in rows
  }

  /** commitRecords: a batch that breaks the foreign key is never committed and not worth a retry. */
  function Copy(cfg: Config, s: Sys, i: nat, o: Outcome): Sys
    requires i < |s.workers|
  {
    var w := s.workers[i];
    if !KeyHolds(s.rows, w.records) then Retry(cfg, s, i, false)
    else
      var s1 := s.(table := if Happens(o) then Inserted(cfg, s.table, w.records) else s.table);
      if o.Committed? then EndFlush(s1, i, Acked) else Retry(cfg, s1, i, o.retryable)
  }

  predicate AllStopped(workers: seq<Worker>) {
    forall i :: 0 <= i < |workers| ==> workers[i].stopped
  }

  /** One step of one goroutine, or a commit of another node on the same database. A step that is not
      enabled changes nothing. */
  datatype Action =
    | Arrives(c: Content)
    | Checks(h: nat)
    | Sends(h: nat)
    | GivesUp(h: nat)
    | Takes(i: nat, now: int)
    | Ticks(i: nat)
    | SeesQuit(i: nat)
    | FindsEmpty(i: nat)
    | Upserts(i: nat, o: Outcome, at: int)
    | Copies(i: nat, o: Outcome)
    | StopsConsumer
    | Cancels
    | Closes
    | Abandons
    | EndsDrain
    | Others(streams: set<Stream>, ks: seq<Key>)

  predicate Idle(s: Sys, i: nat) {
    i < |s.workers| && !s.workers[i].stopped && s.workers[i].attempt == 0
  }

  predicate Flushing(s: Sys, i: nat, copying: bool) {
    i < |s.workers| && !s.workers[i].stopped && s.workers[i].attempt > 0 && s.workers[i].copying == copying
  }

  predicate Waits(s: Sys, h: nat, checked: bool) {
    h < |s.handlers| && s.handlers[h].checked == checked && s.handlers[h].delivery < |s.content|
  }

  predicate Can(cfg: Config, s: Sys, a: Action) {
    match a
    case Arrives(_) => true
    case Checks(h) => Waits(s, h, false)
    case Sends(h) => Waits(s, h, true) && |s.queue| < cfg.depth
    case GivesUp(h) => Waits(s, h, true) && s.quit
    case Takes(i, _) => Idle(s, i) && s.queue != [] && s.queue[0] < |s.content|
    case Ticks(i) => Idle(s, i) && s.workers[i].records != [] && !s.workers[i].draining
    case SeesQuit(i) => Idle(s, i) && (s.quit || s.canceled)
    case FindsEmpty(i) => Idle(s, i) && s.workers[i].draining && s.queue == []
    case Upserts(i, _, _) => Flushing(s, i, false)
    case Copies(i, _) => Flushing(s, i, true)
    case StopsConsumer => true
    case Cancels => true
    case Closes => true
    case Abandons => s.quit && !s.drained && AllStopped(s.workers) && s.queue != []
    case EndsDrain => s.quit && AllStopped(s.workers) && s.queue == []
    case Others(streams, ks) => KeyHolds(s.rows + streams, ks)
  }

  /** streamSlice: the batch's streams in ascending order. */
  function Sorted(ids: set<Stream>): (r: seq<Stream>)
    ensures forall j :: 0 <= j < |r| ==> r[j] in ids
    ensures forall x :: x in ids ==> x in r
    decreases |ids|
  {
    if ids == {} then []
    else
      LeastExists(ids);
      var x :| x in ids && forall y :: y in ids ==> x <= y;
      [x] + Sorted(ids - {x})
  }

  lemma {:induction false} LeastExists(ids: set<Stream>)
    requires ids != {}
    ensures exists x :: x in ids && forall y :: y in ids ==> x <= y
    decreases |ids|
  {
    SomeStream(ids);
    var x :| x in ids;
    if ids - {x} == {} {
      assert ids == {x};
    } else {
      LeastExists(ids - {x});
      var m :| m in ids - {x} && forall y :: y in ids - {x} ==> m <= y;
      assert forall y :: y in ids ==> y == x || y in ids - {x};
      var least := if x < m then x else m;
      assert least in ids;
    }
  }

  lemma SomeStream(ids: set<Stream>)
    ensures ids == {} || exists x: Stream :: x in ids
  {
    if !exists x: Stream :: x in ids {
      assert ids == {};
    }
  }

  function Do(cfg: Config, s: Sys, a: Action): Sys {
    if !Can(cfg, s, a) then s
    else
      match a
      case Arrives(c) => Deliver(s, c)
      case Checks(h) => Check(s, h)
      case Sends(h) => Send(s, h)
      case GivesUp(h) => Leave(s, h, Naked)
      case Takes(i, now) => Take(cfg, s, i, now)
      case Ticks(i) => SetWorker(s, i, BeginFlush(s.workers[i], false))
      case SeesQuit(i) => SetWorker(s, i, s.workers[i].(draining := true))
      case FindsEmpty(i) => SetWorker(s, i, if s.workers[i].records == [] then s.workers[i].(stopped := true) else BeginFlush(s.workers[i], true))
      case Upserts(i, o, at) => Upsert(cfg, s, i, o, Sorted(s.workers[i].streams), at)
      case Copies(i, o) => Copy(cfg, s, i, o)
      case StopsConsumer => s.(stopping := true)
      case Cancels => s.(canceled := true)
      case Closes => s.(quit := true)
      case Abandons => s.(queue := s.queue[1..], ends := Ended(s.ends, [s.queue[0]], Naked))
      case EndsDrain => s.(drained := true)
      case Others(streams, ks) => s.(rows := s.rows + streams, table := Staged(s.table, ks))
  }

  const Fresh := Worker([], {}, [], 0, false, false, false, false)

  /** A pool of workers over a database that already holds rows. */
  function Begin(workers: nat, rows: set<Stream>, table: seq<Key>): Sys {
    Sys([], [], [], false, [], seq(workers, _ => Fresh), false, false, false, [], rows, table)
  }

  function Play(cfg: Config, s: Sys, actions: seq<Action>): Sys
    decreases |actions|
  {
    if actions == [] then s else Do(cfg, Play(cfg, s, actions[..|actions| - 1]), actions[|actions| - 1])
  }
}
