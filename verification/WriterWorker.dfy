/** The objects a worker updates in place (internal/storage/writer.go, internal/storage/streams.go):
    the stream cache, the batch and the retry loop of flush. An uninterrupted flush is shown to be a
    run of the steps of Writer. */
module WriterWorker {
  import opened Prelude
  import Lru
  import opened Writer

  /** What a flush reads and changes besides the batch. */
  datatype Store = Store(cache: Cache, rows: set<Stream>, table: seq<Key>)

  /** What an attempt came to. */
  datatype Attempt = Attempt(streams: set<Stream>, store: Store, error: Option<bool>)

  /** commitRecords on its own. */
  function CopyOnce(cfg: Config, records: seq<Key>, store: Store, o: Outcome): Attempt {
    if !KeyHolds(store.rows, records) then Attempt({}, store, Some(false))
    else
      var next := store.(table := if Happens(o) then Inserted(cfg, store.table, records) else store.table);
      Attempt({}, next, if o.Committed? then None else Some(o.retryable))
  }

  /** writeOnce: the streams that are not durable yet, then the records. The error says whether it is
      worth another attempt. */
  function WriteOnce(cfg: Config, records: seq<Key>, streams: set<Stream>, store: Store, o: (Outcome, Outcome), at: int): Attempt {
    if streams == {} then CopyOnce(cfg, records, store, o.1)
    else
      var rows := if Happens(o.0) then store.rows + streams else store.rows;
      if o.0.Committed? then
        CopyOnce(cfg, records, store.(rows := rows, cache := Marked(cfg, store.cache, Sorted(streams), at)), o.1)
      else Attempt(streams, store.(rows := rows), Some(o.0.retryable))
  }

  /** flush, from attempt k on. */
  function FlushFrom(cfg: Config, records: seq<Key>, streams: set<Stream>, store: Store, os: seq<(Outcome, Outcome)>, at: int, k: nat): (Terminal, Store)
    requires 1 <= k <= cfg.maxAttempts <= |os|
    decreases cfg.maxAttempts - k
  {
    var a := WriteOnce(cfg, records, streams, store, os[k - 1], at);
    if a.error.None? then (Acked, a.store)
    else if a.error.value && k < cfg.maxAttempts then FlushFrom(cfg, records, a.streams, a.store, os, at, k + 1)
    else (Naked, a.store)
  }

  /** The cache holds a write of the stream that is less than the refresh interval old. */
  ghost predicate Recent(cfg: Config, cache: Cache, id: Stream, now: int) {
    exists e :: e in cache && e.key == id && now - e.value < cfg.refreshAfter
  }

  lemma {:induction false} NeedsIff(cfg: Config, cache: Cache, id: Stream, now: int)
    requires Lru.Distinct(cache)
    ensures NeedsUpsert(cfg, cache, id, now) <==> !Recent(cfg, cache, id, now)
  {
    var i := Lru.Find(cache, id);
    forall e | e in cache && e.key == id
      ensures i < |cache| && e == cache[i]
    {
      var j :| 0 <= j < |cache| && cache[j] == e;
    }
    if i < |cache| {
      assert cache[i] in cache;
    }
  }

  /** streamCache. */
  class StreamCache {
    const cfg: Config
    const entries: Lru.Cache<Stream, int>

    ghost predicate Valid()
      reads entries, entries.nodes
    {
      entries.Valid() && entries.capacity == cfg.capacity
    }

    ghost function Contents(): Cache
      requires Valid()
      reads entries, entries.nodes
    {
      entries.Contents()
    }

    constructor (cfg: Config)
      requires cfg.capacity >= 1
      ensures Valid() && Contents() == [] && this.cfg == cfg && fresh(entries) && entries.nodes == []
    {
      this.cfg := cfg;
      var cache := new Lru.Cache<Stream, int>(cfg.capacity);
      entries := cache;
    }

    /** needsUpsert: a lookup is a use. */
    method Needs(id: Stream, now: int) returns (needs: bool)
      requires Valid()
      modifies entries, entries.nodes
      ensures Valid() && Contents() == Lru.Use(old(Contents()), id)
      ensures needs == NeedsUpsert(cfg, old(Contents()), id, now)
      ensures Lru.Within(entries.nodes, old(entries.nodes))
    {
      var refreshed := entries.Get(id);
      needs := refreshed.None? || now - refreshed.value >= cfg.refreshAfter;
    }

    /** markUpserted. */
    method MarkUpserted(id: Stream, at: int)
      requires Valid()
      modifies entries, entries.nodes
      ensures Valid() && Contents() == Lru.StoreBounded(old(Contents()), cfg.capacity, id, at)
      ensures forall m :: m in entries.nodes ==> m in old(entries.nodes) || fresh(m)
    {
      entries.Put(id, at);
    }

    /** The loop after the commit of the streams. */
    method MarkAll(ids: seq<Stream>, at: int)
      requires Valid()
      modifies entries, entries.nodes
      ensures Valid() && Contents() == Marked(cfg, old(Contents()), ids, at)
      ensures forall m :: m in entries.nodes ==> m in old(entries.nodes) || fresh(m)
    {
      var i := 0;
      while i < |ids|
        invariant i <= |ids| && Valid()
        invariant Marked(cfg, Contents(), ids[i..], at) == Marked(cfg, old(Contents()), ids, at)
        invariant forall m :: m in entries.nodes ==> m in old(entries.nodes) || fresh(m)
      {
        assert ids[i..][1..] == ids[i + 1..];
        MarkUpserted(ids[i], at);
        i := i + 1;
      }
    }
  }

  /** The two tables, and what a transaction on them does. */
  class Database {
    var rows: set<Stream>
    var table: seq<Key>

    constructor (rows: set<Stream>, table: seq<Key>)
      ensures this.rows == rows && this.table == table
    {
      this.rows, this.table := rows, table;
    }

    method UpsertStreams(streams: set<Stream>, o: Outcome)
      modifies `rows
      ensures rows == if Happens(o) then old(rows) + streams else old(rows)
    {
      if Happens(o) {
        rows := rows + streams;
      }
    }

    method CopyRecords(cfg: Config, records: seq<Key>, o: Outcome) returns (error: Option<bool>)
      modifies `table
      ensures var a := CopyOnce(cfg, records, Store([], rows, old(table)), o); table == a.store.table && error == a.error
    {
      if !KeyHolds(rows, records) {
        return Some(false);
      }
      if Happens(o) {
        table := Inserted(cfg, table, records);
      }
      error := if o.Committed? then None else Some(o.retryable);
    }
  }

  /** writeBatch. */
  class WriteBatch {
    const cfg: Config
    var records: seq<Key>
    var streams: set<Stream>
    var acks: seq<nat>

    constructor (cfg: Config)
      ensures this.cfg == cfg && records == [] && streams == {} && acks == []
    {
      this.cfg := cfg;
      records, streams, acks := [], {}, [];
    }

    /** The batch as a worker of the model. */
    ghost function AsWorker(): Worker
      reads this
    {
      Worker(records, streams, acks, 0, false, false, false, false)
    }

    /** add: the records and the ack join the batch; the cache is asked only for a stream the batch is not
        already going to write. */
    method Add(cache: StreamCache, n: nat, c: Content, now: int) returns (full: bool)
      requires cache.Valid() && cache.cfg == cfg && c.Batch?
      modifies `records, `streams, `acks, cache.entries, cache.entries.nodes
      ensures cache.Valid()
      ensures records == old(records) + Accepted(c) && acks == old(acks) + [n] && full == (|records| >= cfg.batchSize)
      ensures var asks := c.stream !in old(streams);
              && streams == (if asks && NeedsUpsert(cfg, old(cache.Contents()), c.stream, now) then old(streams) + {c.stream} else old(streams))
              && cache.Contents() == (if asks then Lru.Use(old(cache.Contents()), c.stream) else old(cache.Contents()))
    {
      records := records + Accepted(c);
      acks := acks + [n];
      full := |records| >= cfg.batchSize;
      if c.stream in streams {
        return;
      }
      var needs := cache.Needs(c.stream, now);
      if needs {
        streams := streams + {c.stream};
      }
    }

    /** commitStreams: nothing to do once the streams are durable. */
    method CommitStreams(cache: StreamCache, db: Database, o: Outcome, at: int) returns (error: Option<bool>)
      requires cache.Valid() && cache.cfg == cfg && streams != {}
      modifies `streams, cache.entries, cache.entries.nodes, db`rows
      ensures cache.Valid()
      ensures db.rows == if Happens(o) then old(db.rows) + old(streams) else old(db.rows)
      ensures error == if o.Committed? then None else Some(o.retryable)
      ensures if o.Committed? then streams == {} && cache.Contents() == Marked(cfg, old(cache.Contents()), Sorted(old(streams)), at)
              else streams == old(streams) && cache.Contents() == old(cache.Contents())
      ensures forall m :: m in cache.entries.nodes ==> m in old(cache.entries.nodes) || fresh(m)
    {
      var ids := Sorted(streams);
      db.UpsertStreams(streams, o);
      if o.Failed? {
        return Some(o.retryable);
      }
      cache.MarkAll(ids, at);
      streams := {};
      error := None;
    }

    ghost function StoreOf(cache: StreamCache, db: Database): Store
      requires cache.Valid()
      reads cache.entries, cache.entries.nodes, db
    {
      Store(cache.Contents(), db.rows, db.table)
    }

    /** writeOnce. */
    method Write(cache: StreamCache, db: Database, o: (Outcome, Outcome), at: int) returns (error: Option<bool>)
      requires cache.Valid() && cache.cfg == cfg
      modifies `streams, cache.entries, cache.entries.nodes, db
      ensures cache.Valid()
      ensures Attempt(streams, StoreOf(cache, db), error) == WriteOnce(cfg, records, old(streams), old(StoreOf(cache, db)), o, at)
      ensures forall m :: m in cache.entries.nodes ==> m in old(cache.entries.nodes) || fresh(m)
    {
      error := None;
      if streams != {} {
        error := CommitStreams(cache, db, o.0, at);
      }
      if error.None? {
        error := CommitRecords(cache, db, o.1);
      }
    }

    /** commitRecords. */
    method CommitRecords(cache: StreamCache, db: Database, o: Outcome) returns (error: Option<bool>)
      requires cache.Valid() && cache.cfg == cfg && streams == {}
      modifies db`table
      ensures cache.Valid()
      ensures Attempt(streams, StoreOf(cache, db), error) == CopyOnce(cfg, records, old(StoreOf(cache, db)), o)
    {
      error := db.CopyRecords(cfg, records, o);
    }

    /** The retry loop of flush. */
    method Attempts(cache: StreamCache, db: Database, os: seq<(Outcome, Outcome)>, at: int) returns (end: Terminal)
      requires cache.Valid() && cache.cfg == cfg && 1 <= cfg.maxAttempts <= |os|
      modifies `streams, cache.entries, cache.entries.nodes, db
      ensures cache.Valid()
      ensures (end, StoreOf(cache, db)) == FlushFrom(cfg, records, old(streams), old(StoreOf(cache, db)), os, at, 1)
    {
      var k := 1;
      while true
        invariant 1 <= k <= cfg.maxAttempts && cache.Valid()
        invariant forall m :: m in cache.entries.nodes ==> m in old(cache.entries.nodes) || fresh(m)
        invariant FlushFrom(cfg, records, streams, StoreOf(cache, db), os, at, k)
               == FlushFrom(cfg, records, old(streams), old(StoreOf(cache, db)), os, at, 1)
        decreases cfg.maxAttempts - k
      {
        ghost var was, store := streams, StoreOf(cache, db);
        var error := Write(cache, db, os[k - 1], at);
        FlushUnfold(cfg, records, was, store, os, at, k);
        if error.None? {
          return Acked;
        }
        if !error.value || k == cfg.maxAttempts {
          return Naked;
        }
        k := k + 1;
      }
    }

    method Reset()
      modifies `records, `streams, `acks
      ensures records == [] && streams == {} && acks == []
    {
      records, streams, acks := [], {}, [];
    }

    /** flush of a batch with records: the attempts, the acks and the reset. */
    method Flush(cache: StreamCache, db: Database, os: seq<(Outcome, Outcome)>, at: int) returns (end: Terminal, acked: seq<nat>)
      requires cache.Valid() && cache.cfg == cfg && 1 <= cfg.maxAttempts <= |os|
      modifies `records, `streams, `acks, cache.entries, cache.entries.nodes, db
      ensures cache.Valid()
      ensures (end, StoreOf(cache, db)) == FlushFrom(cfg, old(records), old(streams), old(StoreOf(cache, db)), os, at, 1)
      ensures acked == old(acks) && records == [] && streams == {} && acks == []
    {
      end := Attempts(cache, db, os, at);
      acked := acks;
      Reset();
    }
  }

  lemma FlushUnfold(cfg: Config, records: seq<Key>, streams: set<Stream>, store: Store, os: seq<(Outcome, Outcome)>, at: int, k: nat)
    requires 1 <= k <= cfg.maxAttempts <= |os|
    ensures var a := WriteOnce(cfg, records, streams, store, os[k - 1], at);
            FlushFrom(cfg, records, streams, store, os, at, k)
            == if a.error.None? then (Acked, a.store)
               else if a.error.value && k < cfg.maxAttempts then FlushFrom(cfg, records, a.streams, a.store, os, at, k + 1)
               else (Naked, a.store)
  {
  }

  /** s with worker i and the store replaced. */
  function With(s: Sys, i: nat, w: Worker, store: Store): Sys
    requires i < |s.workers|
  {
    s.(workers := s.workers[i := w], cache := store.cache, rows := store.rows, table := store.table)
  }

  function StoreIn(s: Sys): Store { Store(s.cache, s.rows, s.table) }

  /** The steps of one attempt. */
  function AttemptSteps(i: nat, o: (Outcome, Outcome), at: int, streams: set<Stream>): seq<Action> {
    [Upserts(i, o.0, at)] + if streams == {} || o.0.Committed? then [Copies(i, o.1)] else []
  }

  /** What the worker does after an attempt. */
  function AfterAttempt(cfg: Config, s: Sys, i: nat, a: Attempt): Sys
    requires i < |s.workers|
  {
    var w := s.workers[i].(streams := a.streams);
    var s1 := With(s, i, w, a.store);
    if a.error.None? then EndFlush(s1, i, Acked) else Retry(cfg, s1, i, a.error.value)
  }

  lemma PlayOne(cfg: Config, s: Sys, a: Action)
    ensures Play(cfg, s, [a]) == Do(cfg, s, a)
  {
    var one := [a];
    assert one[..0] == [];
    assert Play(cfg, s, []) == s;
  }

  lemma PlayTwo(cfg: Config, s: Sys, a: Action, b: Action)
    ensures Play(cfg, s, [a, b]) == Do(cfg, Do(cfg, s, a), b)
  {
    assert [a, b][..1] == [a];
    PlayOne(cfg, s, a);
  }

  lemma {:induction false} PlayConcat(cfg: Config, s: Sys, a: seq<Action>, b: seq<Action>)
    ensures Play(cfg, s, a + b) == Play(cfg, Play(cfg, s, a), b)
    decreases |b|
  {
    if b == [] {
      assert a + b == a;
    } else {
      var k := |b| - 1;
      assert (a + b)[..|a + b| - 1] == a + b[..k];
      PlayConcat(cfg, s, a, b[..k]);
    }
  }

  lemma CopyPlays(cfg: Config, s: Sys, i: nat, o: Outcome)
    requires Flushing(s, i, true) && s.workers[i].streams == {}
    ensures Do(cfg, s, Copies(i, o)) == AfterAttempt(cfg, s, i, CopyOnce(cfg, s.workers[i].records, StoreIn(s), o))
  {
    var w := s.workers[i];
    assert w.(streams := {}) == w && s.workers[i := w] == s.workers;
    if KeyHolds(s.rows, w.records) {
      StoredPlays(cfg, s, i, o);
    } else {
      assert With(s, i, w, StoreIn(s)) == s;
    }
  }

  lemma StoredPlays(cfg: Config, s: Sys, i: nat, o: Outcome)
    requires Flushing(s, i, true) && s.workers[i].streams == {} && KeyHolds(s.rows, s.workers[i].records)
    ensures Copy(cfg, s, i, o) == AfterAttempt(cfg, s, i, CopyOnce(cfg, s.workers[i].records, StoreIn(s), o))
  {
    var w := s.workers[i];
    var table := if Happens(o) then Inserted(cfg, s.table, w.records) else s.table;
    assert w.(streams := {}) == w && s.workers[i := w] == s.workers;
    assert With(s, i, w, StoreIn(s).(table := table)) == s.(table := table);
  }

  lemma NothingToWrite(cfg: Config, s: Sys, i: nat, o: Outcome, at: int)
    requires Flushing(s, i, false) && s.workers[i].streams == {}
    ensures Do(cfg, s, Upserts(i, o, at)) == SetWorker(s, i, s.workers[i].(copying := true))
  {
  }

  lemma StreamsWritten(cfg: Config, s: Sys, i: nat, o: Outcome, at: int)
    requires Flushing(s, i, false) && s.workers[i].streams != {} && o.Committed?
    ensures var w := s.workers[i];
            Do(cfg, s, Upserts(i, o, at)) == With(s, i, w.(streams := {}, copying := true),
              Store(Marked(cfg, s.cache, Sorted(w.streams), at), s.rows + w.streams, s.table))
  {
  }

  lemma StreamsFailed(cfg: Config, s: Sys, i: nat, o: Outcome, at: int)
    requires Flushing(s, i, false) && s.workers[i].streams != {} && o.Failed?
    ensures var w := s.workers[i];
            Do(cfg, s, Upserts(i, o, at))
            == AfterAttempt(cfg, s, i, Attempt(w.streams, StoreIn(s).(rows := if Happens(o) then s.rows + w.streams else s.rows), Some(o.retryable)))
  {
    assert s.workers[i := s.workers[i].(streams := s.workers[i].streams)] == s.workers;
  }

  /** The flag `copying` does not outlive an attempt. */
  lemma CopyingForgotten(cfg: Config, s: Sys, i: nat, w: Worker, store: Store, a: Attempt)
    requires i < |s.workers| && w == s.workers[i].(streams := w.streams, copying := w.copying)
    ensures AfterAttempt(cfg, With(s, i, w, store), i, a) == AfterAttempt(cfg, s, i, a)
  {
    var t := With(s, i, w, store);
    var x := With(t, i, t.workers[i].(streams := a.streams), a.store);
    var y := With(s, i, s.workers[i].(streams := a.streams), a.store);
    assert x.workers == s.workers[i := w.(streams := a.streams)];
    assert y.workers == s.workers[i := s.workers[i].(streams := a.streams)];
    ForgottenHere(cfg, s, x, y, i, a);
  }

  lemma ForgottenHere(cfg: Config, s: Sys, x: Sys, y: Sys, i: nat, a: Attempt)
    requires i < |s.workers| && i < |y.workers|
    requires x == y.(workers := x.workers) && |x.workers| == |y.workers|
    requires x.workers == y.workers[i := y.workers[i].(copying := x.workers[i].copying)]
    ensures if a.error.None? then EndFlush(x, i, Acked) == EndFlush(y, i, Acked)
            else Retry(cfg, x, i, a.error.value) == Retry(cfg, y, i, a.error.value)
  {
    var w := y.workers[i].(attempt := y.workers[i].attempt + 1, copying := false);
    assert x.workers[i].(attempt := x.workers[i].attempt + 1, copying := false) == w;
    assert x.workers[i := w] == y.workers[i := w];
    forall t
      ensures EndFlush(x, i, t) == EndFlush(y, i, t)
    {
      var done := Worker([], {}, [], 0, false, y.workers[i].draining, y.workers[i].last, y.workers[i].last);
      assert x.workers[i := done] == y.workers[i := done];
    }
  }

  /** One attempt of the loop is one or two steps of the worker. */
  lemma AttemptPlays(cfg: Config, s: Sys, i: nat, o: (Outcome, Outcome), at: int)
    requires Flushing(s, i, false)
    ensures var w := s.workers[i];
            Play(cfg, s, AttemptSteps(i, o, at, w.streams))
            == AfterAttempt(cfg, s, i, WriteOnce(cfg, w.records, w.streams, StoreIn(s), o, at))
  {
    StepsPlay(cfg, s, i, o, at, s.workers[i].streams);
    if s.workers[i].streams == {} {
      BarePlays(cfg, s, i, o, at);
    } else if o.0.Committed? {
      WrittenPlays(cfg, s, i, o, at);
    } else {
      StreamsFailed(cfg, s, i, o.0, at);
    }
  }

  lemma StepsPlay(cfg: Config, s: Sys, i: nat, o: (Outcome, Outcome), at: int, streams: set<Stream>)
    ensures Play(cfg, s, AttemptSteps(i, o, at, streams))
         == if streams == {} || o.0.Committed? then Do(cfg, Do(cfg, s, Upserts(i, o.0, at)), Copies(i, o.1))
            else Do(cfg, s, Upserts(i, o.0, at))
  {
    var a, b := Upserts(i, o.0, at), Copies(i, o.1);
    PlayOne(cfg, s, a);
    PlayTwo(cfg, s, a, b);
    assert [a] + [b] == [a, b] && [a] + [] == [a];
  }

  lemma BarePlays(cfg: Config, s: Sys, i: nat, o: (Outcome, Outcome), at: int)
    requires Flushing(s, i, false) && s.workers[i].streams == {}
    ensures Do(cfg, Do(cfg, s, Upserts(i, o.0, at)), Copies(i, o.1))
         == AfterAttempt(cfg, s, i, CopyOnce(cfg, s.workers[i].records, StoreIn(s), o.1))
  {
    var w := s.workers[i];
    var v := w.(copying := true);
    NothingToWrite(cfg, s, i, o.0, at);
    assert SetWorker(s, i, v) == With(s, i, v, StoreIn(s));
    CopyPlays(cfg, SetWorker(s, i, v), i, o.1);
    CopyingForgotten(cfg, s, i, v, StoreIn(s), CopyOnce(cfg, w.records, StoreIn(s), o.1));
  }

  lemma WrittenPlays(cfg: Config, s: Sys, i: nat, o: (Outcome, Outcome), at: int)
    requires Flushing(s, i, false) && s.workers[i].streams != {} && o.0.Committed?
    ensures var w := s.workers[i];
            Do(cfg, Do(cfg, s, Upserts(i, o.0, at)), Copies(i, o.1))
            == AfterAttempt(cfg, s, i, WriteOnce(cfg, w.records, w.streams, StoreIn(s), o, at))
  {
    var w := s.workers[i];
    var v := w.(streams := {}, copying := true);
    var store := Store(Marked(cfg, s.cache, Sorted(w.streams), at), s.rows + w.streams, s.table);
    StreamsWritten(cfg, s, i, o.0, at);
    CopyPlays(cfg, With(s, i, v, store), i, o.1);
    CopyingForgotten(cfg, s, i, v, store, CopyOnce(cfg, w.records, store, o.1));
  }

  /** What a whole flush leaves. */
  function AfterFlush(s: Sys, i: nat, end: Terminal, store: Store): Sys
    requires i < |s.workers|
  {
    EndFlush(s.(cache := store.cache, rows := store.rows, table := store.table), i, end)
  }

  /** The retry loop, uninterrupted, is a run of the state machine: what every interleaving keeps, the
      loop keeps. */
  lemma {:induction false} FlushPlays(cfg: Config, s: Sys, i: nat, os: seq<(Outcome, Outcome)>, at: int) returns (steps: seq<Action>)
    requires Flushing(s, i, false) && s.workers[i].attempt <= cfg.maxAttempts <= |os|
    ensures var w := s.workers[i];
            var r := FlushFrom(cfg, w.records, w.streams, StoreIn(s), os, at, w.attempt);
            Play(cfg, s, steps) == AfterFlush(s, i, r.0, r.1)
    decreases cfg.maxAttempts - s.workers[i].attempt
  {
    var w := s.workers[i];
    var o := os[w.attempt - 1];
    var a := WriteOnce(cfg, w.records, w.streams, StoreIn(s), o, at);
    steps := AttemptSteps(i, o, at, w.streams);
    AttemptPlays(cfg, s, i, o, at);
    if a.error.Some? && a.error.value && w.attempt < cfg.maxAttempts {
      var next := AfterAttempt(cfg, s, i, a);
      var more := FlushPlays(cfg, next, i, os, at);
      PlayConcat(cfg, s, steps, more);
      steps := steps + more;
      AttemptForgotten(s, next, i, a);
    } else {
      LastAttempt(cfg, s, i, a);
    }
  }

  lemma LastAttempt(cfg: Config, s: Sys, i: nat, a: Attempt)
    requires i < |s.workers| && !(a.error.Some? && a.error.value && s.workers[i].attempt < cfg.maxAttempts)
    ensures AfterAttempt(cfg, s, i, a) == AfterFlush(s, i, if a.error.None? then Acked else Naked, a.store)
  {
    var x := With(s, i, s.workers[i].(streams := a.streams), a.store);
    forall t
      ensures EndFlush(x, i, t) == AfterFlush(s, i, t, a.store)
    {
      var done := Worker([], {}, [], 0, false, s.workers[i].draining, s.workers[i].last, s.workers[i].last);
      assert x.workers[i := done] == s.workers[i := done];
    }
  }

  /** The end of the flush does not depend on how many attempts it took. */
  lemma AttemptForgotten(s: Sys, next: Sys, i: nat, a: Attempt)
    requires i < |s.workers|
    requires next == With(s, i, s.workers[i].(streams := a.streams, attempt := s.workers[i].attempt + 1, copying := false), a.store)
    ensures forall t, store :: AfterFlush(next, i, t, store) == AfterFlush(s, i, t, store)
  {
    forall t, store
      ensures AfterFlush(next, i, t, store) == AfterFlush(s, i, t, store)
    {
      var done := Worker([], {}, [], 0, false, s.workers[i].draining, s.workers[i].last, s.workers[i].last);
      assert next.workers[i := done] == s.workers[i := done];
    }
  }
}
