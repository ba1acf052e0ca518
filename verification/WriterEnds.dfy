/** How deliveries end (internal/ingest/consumer.go, internal/storage/writer.go): what is dropped, what is
    acked without being stored, when a batch is given up, and that nothing else reaches the table. */
module WriterEnds {
  import opened Writer
  import opened WriterSafety
  import opened WriterShutdown

  /** Neither the consumer nor the writer is told to stop. */
  predicate Undisturbed(actions: seq<Action>) {
    forall k :: 0 <= k < |actions| ==> !actions[k].StopsConsumer? && !actions[k].Closes?
  }

  predicate Running(s: Sys) {
    !s.stopping && !s.quit
  }

  /** How a delivery of this content may end. */
  ghost predicate EndFits(c: Content, end: seq<Terminal>) {
    if !c.Batch? then end == [Termed]
    else if forall e :: e in c.entries ==> !e.valid then end == [] || end == [Acked]
    else Termed !in end
  }

  ghost predicate EndsFit(content: seq<Content>, ends: seq<seq<Terminal>>) {
    |ends| == |content| && forall n :: 0 <= n < |ends| ==> EndFits(content[n], ends[n])
  }

  lemma NothingAccepted(c: Content)
    ensures Accepted(c) == [] <==> !c.Batch? || forall e :: e in c.entries ==> !e.valid
  {
    if c.Batch? {
      var at := AcceptedAreTheValid(c.stream, c.entries);
      if Accepted(c) == [] {
        forall e | e in c.entries
          ensures !e.valid
        {
          var i: nat :| i < |c.entries| && c.entries[i] == e;
          assert e.valid ==> i in at;
        }
      } else {
        assert c.entries[at[0]] in c.entries && c.entries[at[0]].valid;
      }
    }
  }

  /** Deliveries with records worth storing end; the others are left alone. */
  lemma EndedFit(content: seq<Content>, ends: seq<seq<Terminal>>, ns: seq<nat>, t: Terminal)
    requires EndsFit(content, ends) && t != Termed
    requires forall j :: 0 <= j < |ns| ==> ns[j] < |content| && Accepted(content[ns[j]]) != []
    ensures EndsFit(content, Ended(ends, ns, t))
  {
    forall n | 0 <= n < |ends|
      ensures EndFits(content[n], Ended(ends, ns, t)[n])
    {
      assert EndFits(content[n], ends[n]);
      NothingAccepted(content[n]);
      CountMember(ns, n);
      if Accepted(content[n]) == [] {
        assert n !in ns;
        assert Ended(ends, ns, t)[n] == ends[n];
      }
    }
  }

  lemma CheckFits(cfg: Config, s: Sys, h: nat)
    requires EndsFit(s.content, s.ends) && Safe(cfg, s) && !s.quit && h < |s.handlers| && Places(s, s.handlers[h].delivery) == 1
    ensures EndsFit(s.content, Check(s, h).ends)
  {
    var n := s.handlers[h].delivery;
    assert n < |s.content|;
    if Accepted(s.content[n]) == [] {
      var r := Check(s, h);
      DeliveryHeld(s, h);
      NothingAccepted(s.content[n]);
      assert s.ends[n] == [];
      forall m | 0 <= m < |s.ends|
        ensures EndFits(s.content[m], r.ends[m])
      {
        assert EndFits(s.content[m], s.ends[m]);
        CountOne(n, m);
        if m == n {
          assert r.ends[m] == [] + Repeat(Acked, 1) == [Acked];
        } else {
          assert r.ends[m] == s.ends[m];
        }
      }
    }
  }

  lemma DeliveryHeld(s: Sys, h: nat)
    requires h < |s.handlers| && s.handlers[h].delivery < |s.ends| && Places(s, s.handlers[h].delivery) == 1
    ensures s.ends[s.handlers[h].delivery] == []
  {
    var n := s.handlers[h].delivery;
    assert Deliveries(s.handlers)[h] == n;
    CountMember(Deliveries(s.handlers), n);
  }

  lemma DeliverFits(cfg: Config, s: Sys, c: Content)
    requires EndsFit(s.content, s.ends) && !s.stopping
    ensures EndsFit(Deliver(s, c).content, Deliver(s, c).ends)
  {
    var r := Deliver(s, c);
    forall n | 0 <= n < |r.ends|
      ensures EndFits(r.content[n], r.ends[n])
    {
      if n < |s.ends| {
        assert EndFits(s.content[n], s.ends[n]);
      }
    }
  }

  lemma RetryFits(cfg: Config, s: Sys, i: nat, retryable: bool)
    requires EndsFit(s.content, s.ends) && i < |s.workers| && WorkerOk(cfg, s.content, s.rows, s.workers[i])
    ensures EndsFit(s.content, Retry(cfg, s, i, retryable).ends) && EndsFit(s.content, EndFlush(s, i, Acked).ends)
  {
    EndedFit(s.content, s.ends, s.workers[i].acks, Naked);
    EndedFit(s.content, s.ends, s.workers[i].acks, Acked);
  }

  lemma UpsertFits(cfg: Config, s: Sys, i: nat, o: Outcome, ids: seq<Stream>, at: int)
    requires EndsFit(s.content, s.ends) && i < |s.workers| && WorkerOk(cfg, s.content, s.rows, s.workers[i])
    ensures EndsFit(s.content, Upsert(cfg, s, i, o, ids, at).ends)
  {
    var rows := if Happens(o) then s.rows + s.workers[i].streams else s.rows;
    WorkerLater(cfg, s.content, s.content, s.rows, rows, s.workers[i]);
    RetryFits(cfg, s.(rows := rows), i, o.Failed? && o.retryable);
  }

  lemma CopyFits(cfg: Config, s: Sys, i: nat, o: Outcome)
    requires EndsFit(s.content, s.ends) && i < |s.workers| && WorkerOk(cfg, s.content, s.rows, s.workers[i])
    ensures EndsFit(s.content, Copy(cfg, s, i, o).ends)
  {
    RetryFits(cfg, s, i, false);
    RetryFits(cfg, s.(table := if Happens(o) then Inserted(cfg, s.table, s.workers[i].records) else s.table), i, o.Failed? && o.retryable);
  }

  lemma StillRunning(cfg: Config, s: Sys, a: Action)
    requires Running(s) && !a.StopsConsumer? && !a.Closes?
    ensures Running(Do(cfg, s, a))
  {
    if Can(cfg, s, a) && (a.Upserts? || a.Copies?) {
      WorkerKeepsGates(cfg, s, a);
    }
  }

  lemma DoFits(cfg: Config, s: Sys, a: Action)
    requires EndsFit(s.content, s.ends) && Safe(cfg, s) && Conserved(s) && Running(s) && !a.StopsConsumer? && !a.Closes?
    ensures EndsFit(Do(cfg, s, a).content, Do(cfg, s, a).ends)
  {
    if Can(cfg, s, a) {
      match a
      case Arrives(c) => DeliverFits(cfg, s, c);
      case Checks(h) =>
        assert s.handlers[h].delivery < |s.content|;
        CheckFits(cfg, s, h);
      case Upserts(i, o, at) => UpsertFits(cfg, s, i, o, Sorted(s.workers[i].streams), at);
                                UpsertDeliveries(cfg, s, i, o, Sorted(s.workers[i].streams), at);
      case Copies(i, o) => CopyFits(cfg, s, i, o);
                           CopyDeliveries(cfg, s, i, o);
      case _ =>
    }
  }

  /** In every run that nobody stops: what cannot be decoded, or has unusable labels, is terminated for
      good when it arrives; a message without a valid record is acked; any other is acked or given back,
      never dropped. */
  lemma {:induction false} EndsAreRight(cfg: Config, workers: nat, rows: set<Stream>, table: seq<Key>, actions: seq<Action>)
    requires cfg.maxAttempts > 0 && TableOk(rows, table) && Undisturbed(actions)
    ensures var s := Play(cfg, Begin(workers, rows, table), actions); Running(s) && EndsFit(s.content, s.ends)
    decreases |actions|
  {
    if actions != [] {
      var k := |actions| - 1;
      var s := Play(cfg, Begin(workers, rows, table), actions[..k]);
      EndsAreRight(cfg, workers, rows, table, actions[..k]);
      EveryRunIsSafe(cfg, workers, rows, table, actions[..k]);
      EveryDeliveryInOnePlace(cfg, workers, rows, table, actions[..k]);
      DoFits(cfg, s, actions[k]);
      StillRunning(cfg, s, actions[k]);
    }
  }

  /** An idle worker's batch is not full yet. */
  ghost predicate Partial(cfg: Config, w: Worker) {
    w.attempt == 0 ==> |w.records| < cfg.batchSize
  }

  ghost predicate AllPartial(cfg: Config, s: Sys) {
    forall i :: 0 <= i < |s.workers| ==> Partial(cfg, s.workers[i])
  }

  lemma RetryPartial(cfg: Config, s: Sys, i: nat, retryable: bool)
    requires AllPartial(cfg, s) && cfg.batchSize > 0 && i < |s.workers|
    ensures AllPartial(cfg, Retry(cfg, s, i, retryable)) && AllPartial(cfg, EndFlush(s, i, Acked))
  {
  }

  lemma UpsertPartial(cfg: Config, s: Sys, i: nat, o: Outcome, ids: seq<Stream>, at: int)
    requires AllPartial(cfg, s) && cfg.batchSize > 0 && Flushing(s, i, false)
    ensures AllPartial(cfg, Upsert(cfg, s, i, o, ids, at))
  {
    RetryPartial(cfg, s.(rows := if Happens(o) then s.rows + s.workers[i].streams else s.rows), i, o.Failed? && o.retryable);
  }

  lemma CopyPartial(cfg: Config, s: Sys, i: nat, o: Outcome)
    requires AllPartial(cfg, s) && cfg.batchSize > 0 && i < |s.workers|
    ensures AllPartial(cfg, Copy(cfg, s, i, o))
  {
    RetryPartial(cfg, s, i, false);
    RetryPartial(cfg, s.(table := if Happens(o) then Inserted(cfg, s.table, s.workers[i].records) else s.table), i, o.Failed? && o.retryable);
  }

  lemma DoPartial(cfg: Config, s: Sys, a: Action)
    requires AllPartial(cfg, s) && cfg.batchSize > 0
    ensures AllPartial(cfg, Do(cfg, s, a))
  {
    if Can(cfg, s, a) {
      match a
      case Upserts(i, o, at) => UpsertPartial(cfg, s, i, o, Sorted(s.workers[i].streams), at);
      case Copies(i, o) => CopyPartial(cfg, s, i, o);
      case _ =>
    }
  }

  /** A batch that has grown to the batch size is written at once: no worker sits on a full one. */
  lemma {:induction false} FullBatchesAreWritten(cfg: Config, workers: nat, rows: set<Stream>, table: seq<Key>, actions: seq<Action>)
    requires cfg.batchSize > 0
    ensures AllPartial(cfg, Play(cfg, Begin(workers, rows, table), actions))
    decreases |actions|
  {
    if actions != [] {
      FullBatchesAreWritten(cfg, workers, rows, table, actions[..|actions| - 1]);
      DoPartial(cfg, Play(cfg, Begin(workers, rows, table), actions[..|actions| - 1]), actions[|actions| - 1]);
    }
  }

  /** A transaction that failed. */
  predicate Fails(a: Action) {
    (a.Upserts? || a.Copies?) && a.o.Failed?
  }

  function Failures(actions: seq<Action>): nat
    decreases |actions|
  {
    if actions == [] then 0 else Failures(actions[..|actions| - 1]) + if Fails(actions[|actions| - 1]) then 1 else 0
  }

  predicate AllRetryable(actions: seq<Action>) {
    forall k :: 0 <= k < |actions| && Fails(actions[k]) ==> actions[k].o.retryable
  }

  /** No worker has made more attempts than there were failures, and nothing was given back. */
  ghost predicate Persists(s: Sys, failures: nat) {
    && (forall i :: 0 <= i < |s.workers| ==> s.workers[i].attempt <= failures + 1)
    && (forall n :: 0 <= n < |s.ends| ==> Naked !in s.ends[n])
  }

  lemma EndFlushPersists(s: Sys, i: nat, failures: nat)
    requires Persists(s, failures) && i < |s.workers|
    ensures Persists(EndFlush(s, i, Acked), failures)
  {
    var r := EndFlush(s, i, Acked);
    forall n | 0 <= n < |r.ends|
      ensures Naked !in r.ends[n]
    {
      assert r.ends[n] == s.ends[n] + Repeat(Acked, Count(s.workers[i].acks, n));
    }
  }

  lemma RetryPersists(cfg: Config, s: Sys, i: nat, failures: nat)
    requires Persists(s, failures) && i < |s.workers| && failures + 1 < cfg.maxAttempts
    ensures Persists(Retry(cfg, s, i, true), failures + 1)
  {
  }

  lemma UpsertPersists(cfg: Config, s: Sys, i: nat, o: Outcome, ids: seq<Stream>, at: int, failures: nat)
    requires Persists(s, failures) && i < |s.workers| && (o.Failed? ==> o.retryable && failures + 1 < cfg.maxAttempts)
    ensures Persists(Upsert(cfg, s, i, o, ids, at), if o.Failed? then failures + 1 else failures)
  {
    if o.Failed? {
      RetryPersists(cfg, s.(rows := if Happens(o) then s.rows + s.workers[i].streams else s.rows), i, failures);
    }
  }

  lemma CopyPersists(cfg: Config, s: Sys, i: nat, o: Outcome, failures: nat)
    requires Persists(s, failures) && i < |s.workers| && (o.Failed? ==> o.retryable && failures + 1 < cfg.maxAttempts)
    requires KeyHolds(s.rows, s.workers[i].records)
    ensures Persists(Copy(cfg, s, i, o), if o.Failed? then failures + 1 else failures)
  {
    var s1 := s.(table := if Happens(o) then Inserted(cfg, s.table, s.workers[i].records) else s.table);
    if o.Failed? {
      RetryPersists(cfg, s1, i, failures);
    } else {
      EndFlushPersists(s1, i, failures);
    }
  }

  lemma CheckPersists(s: Sys, h: nat, failures: nat)
    requires Persists(s, failures) && !s.quit && h < |s.handlers| && s.handlers[h].delivery < |s.content|
    ensures Persists(Check(s, h), failures)
  {
    var r := Check(s, h);
    forall n | 0 <= n < |r.ends|
      ensures Naked !in r.ends[n]
    {
      if r.ends != s.ends {
        assert r.ends[n] == s.ends[n] + Repeat(Acked, Count([s.handlers[h].delivery], n));
      }
    }
  }

  lemma DeliverPersists(s: Sys, c: Content, failures: nat)
    requires Persists(s, failures) && !s.stopping
    ensures Persists(Deliver(s, c), failures)
  {
  }

  lemma DoPersists(cfg: Config, s: Sys, a: Action, failures: nat)
    requires Persists(s, failures) && Safe(cfg, s) && Running(s) && !a.StopsConsumer? && !a.Closes?
    requires Fails(a) ==> a.o.retryable && failures + 1 < cfg.maxAttempts
    ensures Persists(Do(cfg, s, a), if Fails(a) then failures + 1 else failures)
  {
    if Can(cfg, s, a) {
      match a
      case Arrives(c) => DeliverPersists(s, c, failures);
      case Checks(h) => CheckPersists(s, h, failures);
      case Upserts(i, o, at) => UpsertPersists(cfg, s, i, o, Sorted(s.workers[i].streams), at, failures);
      case Copies(i, o) =>
        assert WorkerOk(cfg, s.content, s.rows, s.workers[i]) && s.rows + {} == s.rows;
        CopyPersists(cfg, s, i, o, failures);
      case _ =>
    }
  }

  /** Fewer failures than attempts, all worth a retry, and nobody stopping anything: then no message is
      ever given back, whichever batches and transactions the failures hit and whether or not the failed
      commits happened. */
  lemma {:induction false} RetriesSuffice(cfg: Config, workers: nat, rows: set<Stream>, table: seq<Key>, actions: seq<Action>)
    requires cfg.maxAttempts > 0 && TableOk(rows, table) && Undisturbed(actions)
    requires AllRetryable(actions) && Failures(actions) < cfg.maxAttempts
    ensures Persists(Play(cfg, Begin(workers, rows, table), actions), Failures(actions))
    decreases |actions|
  {
    if actions != [] {
      var k := |actions| - 1;
      var s := Play(cfg, Begin(workers, rows, table), actions[..k]);
      RetriesSuffice(cfg, workers, rows, table, actions[..k]);
      EveryRunIsSafe(cfg, workers, rows, table, actions[..k]);
      EndsAreRight(cfg, workers, rows, table, actions[..k]);
      DoPersists(cfg, s, actions[k], Failures(actions[..k]));
    }
  }

  /** A row that some message carries as a valid record. */
  ghost predicate Carried(content: seq<Content>, k: Key) {
    exists n :: 0 <= n < |content| && HasValid(content[n], k)
  }

  ghost predicate HasValid(c: Content, k: Key) {
    c.Batch? && exists e :: e in c.entries && e.valid && KeyOf(c.stream, e) == k
  }

  lemma AcceptedCarried(content: seq<Content>, n: nat)
    requires n < |content|
    ensures forall k :: k in Accepted(content[n]) ==> Carried(content, k)
  {
    var c := content[n];
    if c.Batch? {
      var at := AcceptedAreTheValid(c.stream, c.entries);
      forall k | k in Accepted(c)
        ensures Carried(content, k)
      {
        var j :| 0 <= j < |Accepted(c)| && Accepted(c)[j] == k;
        assert c.entries[at[j]] in c.entries;
        assert HasValid(c, k);
      }
    }
  }

  ghost predicate AllCarried(content: seq<Content>, ks: seq<Key>) {
    forall k :: k in ks ==> Carried(content, k)
  }

  /** Rows of the table that were there before, or that another node wrote. */
  ghost predicate Sourced(content: seq<Content>, before: set<Key>, table: seq<Key>) {
    forall k :: k in table ==> k in before || Carried(content, k)
  }

  ghost predicate Traced(before: set<Key>, s: Sys) {
    && Sourced(s.content, before, s.table)
    && forall i :: 0 <= i < |s.workers| ==> AllCarried(s.content, s.workers[i].records)
  }

  function Foreign(table: seq<Key>, actions: seq<Action>): set<Key>
    decreases |actions|
  {
    if actions == [] then set k | k in table
    else
      var a := actions[|actions| - 1];
      Foreign(table, actions[..|actions| - 1]) + if a.Others? then set k | k in a.ks else {}
  }

  lemma CarriedLater(content: seq<Content>, c: Content, k: Key)
    requires Carried(content, k)
    ensures Carried(content + [c], k)
  {
    var n :| 0 <= n < |content| && HasValid(content[n], k);
    assert (content + [c])[n] == content[n];
  }

  lemma TracedLater(before: set<Key>, s: Sys, c: Content)
    requires Traced(before, s)
    ensures Traced(before, Deliver(s, c))
  {
    forall k | Carried(s.content, k)
      ensures Carried(s.content + [c], k)
    {
      CarriedLater(s.content, c, k);
    }
  }

  lemma RetryTraced(cfg: Config, before: set<Key>, s: Sys, i: nat, retryable: bool)
    requires Traced(before, s) && i < |s.workers|
    ensures Traced(before, Retry(cfg, s, i, retryable)) && Traced(before, EndFlush(s, i, Acked))
  {
  }

  lemma UpsertTraced(cfg: Config, before: set<Key>, s: Sys, i: nat, o: Outcome, ids: seq<Stream>, at: int)
    requires Traced(before, s) && i < |s.workers|
    ensures Traced(before, Upsert(cfg, s, i, o, ids, at))
  {
    RetryTraced(cfg, before, s.(rows := if Happens(o) then s.rows + s.workers[i].streams else s.rows), i, o.Failed? && o.retryable);
  }

  lemma CopyTraced(cfg: Config, before: set<Key>, s: Sys, i: nat, o: Outcome)
    requires Traced(before, s) && i < |s.workers| && Unrepeated(s.table)
    ensures Traced(before, Copy(cfg, s, i, o))
  {
    InsertedIsStaged(cfg, s.table, s.workers[i].records);
    StagedHolds(s.table, s.workers[i].records);
    RetryTraced(cfg, before, s, i, false);
    RetryTraced(cfg, before, s.(table := if Happens(o) then Inserted(cfg, s.table, s.workers[i].records) else s.table), i, o.Failed? && o.retryable);
  }

  lemma TakeTraced(cfg: Config, before: set<Key>, s: Sys, i: nat, now: int)
    requires Traced(before, s) && Idle(s, i) && s.queue != [] && s.queue[0] < |s.content|
    ensures Traced(before, Take(cfg, s, i, now))
  {
    AcceptedCarried(s.content, s.queue[0]);
  }

  lemma OthersTraced(before: set<Key>, s: Sys, streams: set<Stream>, ks: seq<Key>)
    requires Traced(before, s) && Unrepeated(s.table)
    ensures Traced(before + (set k | k in ks), s.(rows := s.rows + streams, table := Staged(s.table, ks)))
  {
    StagedHolds(s.table, ks);
  }

  lemma DoTraced(cfg: Config, before: set<Key>, s: Sys, a: Action)
    requires Traced(before, s) && Safe(cfg, s)
    ensures Traced(before + if a.Others? then set k | k in a.ks else {}, Do(cfg, s, a))
  {
    if Can(cfg, s, a) {
      match a
      case Arrives(c) => TracedLater(before, s, c);
      case Takes(i, now) => TakeTraced(cfg, before, s, i, now);
      case Upserts(i, o, at) => UpsertTraced(cfg, before, s, i, o, Sorted(s.workers[i].streams), at);
      case Copies(i, o) => CopyTraced(cfg, before, s, i, o);
      case Others(streams, ks) => OthersTraced(before, s, streams, ks);
      case _ =>
    }
  }

  /** In every run, a row of the table was there at the start, was written by another node, or is a valid
      record of a message that arrived: no invalid record is ever stored, and none is made up. */
  lemma {:induction false} OnlyValidRecordsAreStored(cfg: Config, workers: nat, rows: set<Stream>, table: seq<Key>, actions: seq<Action>)
    requires cfg.maxAttempts > 0 && TableOk(rows, table)
    ensures Traced(Foreign(table, actions), Play(cfg, Begin(workers, rows, table), actions))
    decreases |actions|
  {
    if actions != [] {
      var k := |actions| - 1;
      var s := Play(cfg, Begin(workers, rows, table), actions[..k]);
      OnlyValidRecordsAreStored(cfg, workers, rows, table, actions[..k]);
      EveryRunIsSafe(cfg, workers, rows, table, actions[..k]);
      DoTraced(cfg, Foreign(table, actions[..k]), s, actions[k]);
    }
  }
}
