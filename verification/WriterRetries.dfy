/** What the retry loop of flush and the marking of the stream cache come to
    (internal/storage/writer.go, internal/storage/streams.go). */
module WriterRetries {
  import opened Prelude
  import opened Writer
  import opened WriterWorker
  import Lru

  /** What the database said at the attempts so far leaves the streams to be written at attempt k. */
  predicate StreamsLeft(streams: set<Stream>, os: seq<(Outcome, Outcome)>, k: nat)
    requires 1 <= k <= |os|
  {
    streams != {} && forall j :: 0 <= j < k - 1 ==> os[j].0.Failed?
  }

  /** The error of attempt k, if all before it failed: that of the streams' commit, when they are still to
      be written, a broken foreign key, which is permanent, or that of the records' commit. */
  function FailureAt(held: bool, streams: set<Stream>, os: seq<(Outcome, Outcome)>, k: nat): Option<bool>
    requires 1 <= k <= |os|
  {
    var o := os[k - 1];
    if StreamsLeft(streams, os, k) && o.0.Failed? then Some(o.0.retryable)
    else if !held then Some(false)
    else if o.1.Failed? then Some(o.1.retryable)
    else None
  }

  predicate AllRetried(held: bool, streams: set<Stream>, os: seq<(Outcome, Outcome)>, k: nat)
    requires 1 <= k <= |os|
  {
    forall j :: 1 <= j < k ==> FailureAt(held, streams, os, j) == Some(true)
  }

  predicate SucceedsAt(held: bool, streams: set<Stream>, os: seq<(Outcome, Outcome)>, k: nat)
    requires 1 <= k <= |os|
  {
    FailureAt(held, streams, os, k).None? && AllRetried(held, streams, os, k)
  }

  /** The state of the loop before attempt k. */
  predicate Before(base: Store, all: set<Stream>, streams: set<Stream>, store: Store, os: seq<(Outcome, Outcome)>, k: nat)
    requires 1 <= k <= |os|
  {
    && streams == (if StreamsLeft(all, os, k) then all else {})
    && store.rows + streams == base.rows + all
  }

  lemma AttemptFails(cfg: Config, records: seq<Key>, base: Store, all: set<Stream>, streams: set<Stream>, store: Store,
                     os: seq<(Outcome, Outcome)>, at: int, k: nat)
    requires 1 <= k <= |os| && Before(base, all, streams, store, os, k)
    ensures var a := WriteOnce(cfg, records, streams, store, os[k - 1], at);
            && a.error == FailureAt(KeyHolds(base.rows + all, records), all, os, k)
            && (k < |os| && a.error.Some? ==> Before(base, all, a.streams, a.store, os, k + 1))
  {
    if streams != {} && Happens(os[k - 1].0) {
      assert store.rows + streams + streams == store.rows + streams;
    }
    if streams == {} {
      assert store.rows + streams == store.rows;
    }
    if k < |os| {
      assert StreamsLeft(all, os, k + 1) <==> StreamsLeft(all, os, k) && os[k - 1].0.Failed?;
    }
    var a := WriteOnce(cfg, records, streams, store, os[k - 1], at);
    assert a.store.rows + {} == a.store.rows;
  }

  lemma {:induction false} AckedFrom(cfg: Config, records: seq<Key>, base: Store, all: set<Stream>, streams: set<Stream>,
                                     store: Store, os: seq<(Outcome, Outcome)>, at: int, k: nat)
    requires 1 <= k <= cfg.maxAttempts <= |os| && Before(base, all, streams, store, os, k)
    requires AllRetried(KeyHolds(base.rows + all, records), all, os, k)
    ensures var held := KeyHolds(base.rows + all, records);
            FlushFrom(cfg, records, streams, store, os, at, k).0 ==
              if exists n :: k <= n <= cfg.maxAttempts && SucceedsAt(held, all, os, n) then Acked else Naked
    decreases cfg.maxAttempts - k
  {
    var held := KeyHolds(base.rows + all, records);
    var a := WriteOnce(cfg, records, streams, store, os[k - 1], at);
    AttemptFails(cfg, records, base, all, streams, store, os, at, k);
    if a.error.None? {
      assert SucceedsAt(held, all, os, k);
    } else if a.error.value && k < cfg.maxAttempts {
      AckedFrom(cfg, records, base, all, a.streams, a.store, os, at, k + 1);
    } else {
      forall n | k <= n <= cfg.maxAttempts
        ensures !SucceedsAt(held, all, os, n)
      {
        if n > k {
          assert AllRetried(held, all, os, n) ==> FailureAt(held, all, os, k) == Some(true);
        }
      }
    }
  }

  /** A batch is acked if and only if some attempt within the bound succeeds and every one before it
      failed with an error worth a retry; otherwise it is given back. An attempt writes the streams
      unless an earlier one has, and the records after them. */
  lemma AckedIff(cfg: Config, records: seq<Key>, streams: set<Stream>, store: Store, os: seq<(Outcome, Outcome)>, at: int)
    requires 1 <= cfg.maxAttempts <= |os|
    ensures var held := KeyHolds(store.rows + streams, records);
            FlushFrom(cfg, records, streams, store, os, at, 1).0 ==
              if exists n :: 1 <= n <= cfg.maxAttempts && SucceedsAt(held, streams, os, n) then Acked else Naked
  {
    AckedFrom(cfg, records, store, streams, streams, store, os, at, 1);
  }

  /** The cache has this entry among its first p + 1. */
  ghost predicate HasEarly(cache: Cache, id: Stream, at: int, p: nat) {
    exists q :: 0 <= q <= p && q < |cache| && cache[q] == Lru.Entry(id, at)
  }

  lemma StoreKeeps(cache: Cache, capacity: nat, key: Stream, id: Stream, at: int, p: nat)
    requires HasEarly(cache, id, at, p) && p + 1 < capacity
    ensures HasEarly(Lru.StoreBounded(cache, capacity, key, at), id, at, p + 1)
  {
    var r := Lru.StoreBounded(cache, capacity, key, at);
    var q :| 0 <= q <= p && q < |cache| && cache[q] == Lru.Entry(id, at);
    var i := Lru.Find(cache, key);
    if key == id {
      assert r[0] == Lru.Entry(id, at);
    } else if i < q {
      assert r[q] == Lru.Entry(id, at);
    } else {
      assert r[q + 1] == Lru.Entry(id, at);
    }
  }

  lemma {:induction false} MarkedKeeps(cfg: Config, cache: Cache, ids: seq<Stream>, at: int, id: Stream, p: nat)
    requires HasEarly(cache, id, at, p) && p + |ids| < cfg.capacity
    ensures HasEarly(Marked(cfg, cache, ids, at), id, at, p + |ids|)
    decreases |ids|
  {
    if ids != [] {
      StoreKeeps(cache, cfg.capacity, ids[0], id, at, p);
      MarkedKeeps(cfg, Lru.StoreBounded(cache, cfg.capacity, ids[0], at), ids[1..], at, id, p + 1);
    }
  }

  /** After a batch's streams are marked, the last ones that the cache has room for are in it with the new
      time: all of them, unless the batch has more streams than the cache has places. */
  lemma {:induction false} MarkedAreKnown(cfg: Config, cache: Cache, ids: seq<Stream>, at: int, i: nat)
    requires i < |ids| <= i + cfg.capacity
    ensures Lru.Entry(ids[i], at) in Marked(cfg, cache, ids, at)
    decreases |ids|
  {
    var next := Lru.StoreBounded(cache, cfg.capacity, ids[0], at);
    if i == 0 {
      assert next[0] == Lru.Entry(ids[0], at);
      MarkedKeeps(cfg, next, ids[1..], at, ids[0], 0);
    } else {
      MarkedAreKnown(cfg, next, ids[1..], at, i - 1);
    }
  }
}
