/** What every interleaving of the steps of Writer keeps: each delivery is terminated at most once, an
    ack means the rows are in the table, the foreign key is never broken and no key is stored twice. */
module WriterSafety {
  import opened Sequences
  import Lru
  import opened Writer

  function Deliveries(hs: seq<Handler>): (r: seq<nat>)
    ensures |r| == |hs| && forall i :: 0 <= i < |r| ==> r[i] == hs[i].delivery
  {
    seq(|hs|, i requires 0 <= i < |hs| => hs[i].delivery)
  }

  /** How often the workers' batches hold the ack of a delivery. */
  function HeldBy(workers: seq<Worker>, n: nat): nat {
    if workers == [] then 0 else Count(workers[0].acks, n) + HeldBy(workers[1..], n)
  }

  /** Where a delivery is: with a handler, in the queue, in a batch, or terminated. */
  function Places(s: Sys, n: nat): nat {
    Count(Deliveries(s.handlers), n) + Count(s.queue, n) + HeldBy(s.workers, n) + if n < |s.ends| then |s.ends[n]| else 0
  }

  lemma {:induction false} CountConcat(a: seq<nat>, b: seq<nat>, n: nat)
    ensures Count(a + b, n) == Count(a, n) + Count(b, n)
  {
    if a == [] {
      assert a + b == b;
    } else {
      assert (a + b)[1..] == a[1..] + b;
      CountConcat(a[1..], b, n);
    }
  }

  lemma {:induction false} CountMember(xs: seq<nat>, n: nat)
    ensures n in xs <==> Count(xs, n) > 0
  {
    if xs != [] {
      CountMember(xs[1..], n);
    }
  }

  lemma CountOne(m: nat, n: nat)
    ensures Count([m], n) == if m == n then 1 else 0
  {
    var xs := [m];
    assert xs[1..] == [];
  }

  lemma CountSnoc(xs: seq<nat>, m: nat, n: nat)
    ensures Count(xs + [m], n) == Count(xs, n) + if m == n then 1 else 0
  {
    CountConcat(xs, [m], n);
    CountOne(m, n);
  }

  lemma CountWithout(xs: seq<nat>, i: nat, n: nat)
    requires i < |xs|
    ensures Count(Without(xs, i), n) + (if xs[i] == n then 1 else 0) == Count(xs, n)
  {
    assert xs == xs[..i] + ([xs[i]] + xs[i + 1..]);
    CountConcat(xs[..i], [xs[i]] + xs[i + 1..], n);
    CountConcat([xs[i]], xs[i + 1..], n);
    CountConcat(xs[..i], xs[i + 1..], n);
    CountOne(xs[i], n);
  }

  lemma {:induction false} HeldUpdate(workers: seq<Worker>, i: nat, w: Worker, n: nat)
    requires i < |workers|
    ensures HeldBy(workers[i := w], n) + Count(workers[i].acks, n) == HeldBy(workers, n) + Count(w.acks, n)
  {
    if i > 0 {
      assert workers[i := w][1..] == workers[1..][i - 1 := w];
      HeldUpdate(workers[1..], i - 1, w, n);
    } else {
      assert workers[i := w][1..] == workers[1..];
    }
  }

  /** The delivery has left the handlers. */
  lemma LeftHandlers(s: Sys, h: nat, n: nat)
    requires h < |s.handlers|
    ensures Count(Deliveries(Without(s.handlers, h)), n) + (if s.handlers[h].delivery == n then 1 else 0)
         == Count(Deliveries(s.handlers), n)
  {
    assert Deliveries(Without(s.handlers, h)) == Without(Deliveries(s.handlers), h);
    CountWithout(Deliveries(s.handlers), h, n);
  }

  lemma EndedLength(ends: seq<seq<Terminal>>, ns: seq<nat>, t: Terminal, n: nat)
    requires n < |ends|
    ensures |Ended(ends, ns, t)[n]| == |ends[n]| + Count(ns, n)
  {
  }

  /** Every delivery that is somewhere has a place to be terminated in. */
  ghost predicate Numbered(s: Sys) {
    && |s.ends| == |s.content|
    && (forall n: nat :: n >= |s.content| ==> Places(s, n) == 0)
  }

  lemma LeavePlaces(s: Sys, h: nat, t: Terminal, n: nat)
    requires h < |s.handlers| && s.handlers[h].delivery < |s.ends|
    ensures Places(Leave(s, h, t), n) == Places(s, n)
  {
    LeftHandlers(s, h, n);
    CountOne(s.handlers[h].delivery, n);
    if n < |s.ends| {
      EndedLength(s.ends, [s.handlers[h].delivery], t, n);
    }
  }

  lemma CheckPlaces(s: Sys, h: nat, n: nat)
    requires h < |s.handlers| && s.handlers[h].delivery < |s.content| == |s.ends|
    ensures Places(Check(s, h), n) == Places(s, n)
  {
    LeavePlaces(s, h, Naked, n);
    LeavePlaces(s, h, Acked, n);
    assert Deliveries(s.handlers[h := Handler(s.handlers[h].delivery, true)]) == Deliveries(s.handlers);
  }

  lemma SendPlaces(s: Sys, h: nat, n: nat)
    requires h < |s.handlers|
    ensures Places(Send(s, h), n) == Places(s, n)
  {
    LeftHandlers(s, h, n);
    CountSnoc(s.queue, s.handlers[h].delivery, n);
  }

  lemma DeliverPlaces(s: Sys, c: Content, n: nat)
    requires Numbered(s)
    ensures Places(Deliver(s, c), n) == Places(s, n) + if n == |s.content| then 1 else 0
  {
    var r := Deliver(s, c);
    assert Places(s, |s.content|) == 0;
    if r.handlers != s.handlers {
      assert Deliveries(r.handlers) == Deliveries(s.handlers) + [|s.content|];
      CountSnoc(Deliveries(s.handlers), |s.content|, n);
    }
  }

  lemma TakePlaces(cfg: Config, s: Sys, i: nat, now: int, n: nat)
    requires i < |s.workers| && s.queue != [] && s.queue[0] < |s.content|
    ensures Places(Take(cfg, s, i, now), n) == Places(s, n)
  {
    var r := Take(cfg, s, i, now);
    HeldUpdate(s.workers, i, r.workers[i], n);
    CountSnoc(s.workers[i].acks, s.queue[0], n);
  }

  lemma SetPlaces(s: Sys, i: nat, w: Worker, n: nat)
    requires i < |s.workers| && w.acks == s.workers[i].acks
    ensures Places(SetWorker(s, i, w), n) == Places(s, n)
  {
    HeldUpdate(s.workers, i, w, n);
  }

  lemma EndFlushPlaces(s: Sys, i: nat, t: Terminal, n: nat)
    requires i < |s.workers| && (n >= |s.ends| ==> Count(s.workers[i].acks, n) == 0)
    ensures Places(EndFlush(s, i, t), n) == Places(s, n)
  {
    var r := EndFlush(s, i, t);
    HeldUpdate(s.workers, i, r.workers[i], n);
    if n < |s.ends| {
      EndedLength(s.ends, s.workers[i].acks, t, n);
    }
  }

  lemma RetryPlaces(cfg: Config, s: Sys, i: nat, retryable: bool, n: nat)
    requires i < |s.workers| && (n >= |s.ends| ==> Count(s.workers[i].acks, n) == 0)
    ensures Places(Retry(cfg, s, i, retryable), n) == Places(s, n)
  {
    EndFlushPlaces(s, i, Naked, n);
    SetPlaces(s, i, s.workers[i].(attempt := s.workers[i].attempt + 1, copying := false), n);
  }

  lemma SamePlaces(a: Sys, b: Sys, n: nat)
    requires a.handlers == b.handlers && a.queue == b.queue && a.workers == b.workers && a.ends == b.ends
    ensures Places(a, n) == Places(b, n)
  {
  }

  lemma UpsertPlaces(cfg: Config, s: Sys, i: nat, o: Outcome, ids: seq<Stream>, at: int, n: nat)
    requires i < |s.workers| && (n >= |s.ends| ==> Count(s.workers[i].acks, n) == 0)
    ensures Places(Upsert(cfg, s, i, o, ids, at), n) == Places(s, n)
  {
    var rows := if Happens(o) then s.rows + s.workers[i].streams else s.rows;
    SamePlaces(s, s.(rows := rows), n);
    RetryPlaces(cfg, s.(rows := rows), i, o.Failed? && o.retryable, n);
    SetPlaces(s, i, s.workers[i].(copying := true), n);
    HeldUpdate(s.workers, i, s.workers[i].(streams := {}, copying := true), n);
  }

  lemma CopyPlaces(cfg: Config, s: Sys, i: nat, o: Outcome, n: nat)
    requires i < |s.workers| && (n >= |s.ends| ==> Count(s.workers[i].acks, n) == 0)
    ensures Places(Copy(cfg, s, i, o), n) == Places(s, n)
  {
    var s1 := s.(table := if Happens(o) then Inserted(cfg, s.table, s.workers[i].records) else s.table);
    SamePlaces(s, s1, n);
    RetryPlaces(cfg, s, i, false, n);
    EndFlushPlaces(s1, i, Acked, n);
    RetryPlaces(cfg, s1, i, o.Failed? && o.retryable, n);
  }

  lemma {:induction false} HeldHere(workers: seq<Worker>, i: nat, n: nat)
    requires i < |workers|
    ensures Count(workers[i].acks, n) <= HeldBy(workers, n)
  {
    if i > 0 {
      HeldHere(workers[1..], i - 1, n);
    }
  }

  lemma AbandonPlaces(s: Sys, n: nat)
    requires s.queue != [] && s.queue[0] < |s.ends|
    ensures Places(s.(queue := s.queue[1..], ends := Ended(s.ends, [s.queue[0]], Naked)), n) == Places(s, n)
  {
    CountOne(s.queue[0], n);
    if n < |s.ends| {
      EndedLength(s.ends, [s.queue[0]], Naked, n);
    }
  }

  lemma QueueNumbered(s: Sys)
    requires Numbered(s) && s.queue != []
    ensures s.queue[0] < |s.ends|
  {
    assert Count(s.queue, s.queue[0]) > 0;
    assert Places(s, s.queue[0]) > 0;
  }

  lemma AcksNumbered(s: Sys, i: nat, n: nat)
    requires Numbered(s) && i < |s.workers|
    ensures n >= |s.ends| ==> Count(s.workers[i].acks, n) == 0
  {
    HeldHere(s.workers, i, n);
    assert n >= |s.content| ==> Places(s, n) == 0;
  }

  /** No step loses a delivery or puts it in two places. */
  lemma DoPlaces(cfg: Config, s: Sys, a: Action, n: nat)
    requires Numbered(s)
    ensures Places(Do(cfg, s, a), n) == Places(s, n) + if a.Arrives? && n == |s.content| then 1 else 0
  {
    if Can(cfg, s, a) {
      match a
      case Arrives(c) => DeliverPlaces(s, c, n);
      case Checks(h) => CheckPlaces(s, h, n);
      case Sends(h) => SendPlaces(s, h, n);
      case GivesUp(h) => LeavePlaces(s, h, Naked, n);
      case Takes(i, now) => TakePlaces(cfg, s, i, now, n);
      case Ticks(i) => SetPlaces(s, i, BeginFlush(s.workers[i], false), n);
      case SeesQuit(i) => SetPlaces(s, i, s.workers[i].(draining := true), n);
      case FindsEmpty(i) =>
        SetPlaces(s, i, s.workers[i].(stopped := true), n);
        SetPlaces(s, i, BeginFlush(s.workers[i], true), n);
      case Upserts(i, o, at) => AcksNumbered(s, i, n); UpsertPlaces(cfg, s, i, o, Sorted(s.workers[i].streams), at, n);
      case Copies(i, o) => AcksNumbered(s, i, n); CopyPlaces(cfg, s, i, o, n);
      case Abandons => QueueNumbered(s); AbandonPlaces(s, n);
      case _ =>
    }
  }

  /** No delivery is forgotten and none ends less. */
  predicate SameDeliveries(a: Sys, b: Sys) {
    b.content == a.content && |b.ends| == |a.ends|
  }

  lemma RetryDeliveries(cfg: Config, s: Sys, i: nat, retryable: bool)
    requires i < |s.workers|
    ensures SameDeliveries(s, Retry(cfg, s, i, retryable)) && SameDeliveries(s, EndFlush(s, i, Acked))
  {
  }

  lemma UpsertDeliveries(cfg: Config, s: Sys, i: nat, o: Outcome, ids: seq<Stream>, at: int)
    requires i < |s.workers|
    ensures SameDeliveries(s, Upsert(cfg, s, i, o, ids, at))
  {
    RetryDeliveries(cfg, s.(rows := if Happens(o) then s.rows + s.workers[i].streams else s.rows), i, o.Failed? && o.retryable);
  }

  lemma CopyDeliveries(cfg: Config, s: Sys, i: nat, o: Outcome)
    requires i < |s.workers|
    ensures SameDeliveries(s, Copy(cfg, s, i, o))
  {
    RetryDeliveries(cfg, s, i, false);
    RetryDeliveries(cfg, s.(table := if Happens(o) then Inserted(cfg, s.table, s.workers[i].records) else s.table), i,
                    o.Failed? && o.retryable);
  }

  lemma DoLengths(cfg: Config, s: Sys, a: Action)
    requires |s.ends| == |s.content|
    ensures |Do(cfg, s, a).ends| == |Do(cfg, s, a).content| == |s.content| + if a.Arrives? then 1 else 0
    ensures s.content <= Do(cfg, s, a).content
  {
    if Can(cfg, s, a) {
      match a
      case Upserts(i, o, at) => UpsertDeliveries(cfg, s, i, o, Sorted(s.workers[i].streams), at);
      case Copies(i, o) => CopyDeliveries(cfg, s, i, o);
      case _ =>
    }
  }

  ghost predicate Conserved(s: Sys) {
    |s.ends| == |s.content| && forall n: nat :: Places(s, n) == if n < |s.content| then 1 else 0
  }

  lemma DoConserves(cfg: Config, s: Sys, a: Action)
    requires Conserved(s)
    ensures Conserved(Do(cfg, s, a))
  {
    var r := Do(cfg, s, a);
    DoLengths(cfg, s, a);
    forall n: nat
      ensures Places(r, n) == if n < |r.content| then 1 else 0
    {
      DoPlaces(cfg, s, a, n);
    }
  }

  lemma {:induction false} NoneHeld(workers: nat, n: nat)
    ensures HeldBy(seq(workers, _ => Fresh), n) == 0
  {
    if workers > 0 {
      NoneHeld(workers - 1, n);
      assert seq(workers, _ => Fresh)[1..] == seq(workers - 1, _ => Fresh);
    }
  }

  /** In every interleaving each delivery is in exactly one place: with its handler, in the queue, in
      one worker's batch, or terminated, once. */
  lemma {:induction false} EveryDeliveryInOnePlace(cfg: Config, workers: nat, rows: set<Stream>, table: seq<Key>, actions: seq<Action>)
    ensures Conserved(Play(cfg, Begin(workers, rows, table), actions))
    decreases |actions|
  {
    if actions == [] {
      forall n: nat
        ensures Places(Begin(workers, rows, table), n) == 0
      {
        NoneHeld(workers, n);
      }
    } else {
      EveryDeliveryInOnePlace(cfg, workers, rows, table, actions[..|actions| - 1]);
      DoConserves(cfg, Play(cfg, Begin(workers, rows, table), actions[..|actions| - 1]), actions[|actions| - 1]);
    }
  }

  /** So no message is terminated twice. */
  lemma TerminatedAtMostOnce(cfg: Config, workers: nat, rows: set<Stream>, table: seq<Key>, actions: seq<Action>, n: nat)
    requires n < |Play(cfg, Begin(workers, rows, table), actions).content|
    ensures var s := Play(cfg, Begin(workers, rows, table), actions); n < |s.ends| && |s.ends[n]| <= 1
  {
    EveryDeliveryInOnePlace(cfg, workers, rows, table, actions);
    assert Places(Play(cfg, Begin(workers, rows, table), actions), n) == 1;
  }

  ghost predicate AllIn(ks: seq<Key>, table: seq<Key>) {
    forall j :: 0 <= j < |ks| ==> ks[j] in table
  }

  /** A batch holds the records of the deliveries it will ack, and their streams are in the database
      or about to be written. */
  ghost predicate WorkerOk(cfg: Config, content: seq<Content>, rows: set<Stream>, w: Worker) {
    && (forall j :: 0 <= j < |w.acks| ==>
          w.acks[j] < |content| && Accepted(content[w.acks[j]]) != [] && AllIn(Accepted(content[w.acks[j]]), w.records))
    && KeyHolds(rows + w.streams, w.records)
    && (w.copying ==> w.streams == {})
    && (w.records == [] ==> w.acks == [])
    && (w.stopped ==> w.acks == [])
    && w.attempt <= cfg.maxAttempts
  }

  ghost predicate QueueOk(content: seq<Content>, queue: seq<nat>) {
    forall j :: 0 <= j < |queue| ==> queue[j] < |content| && Accepted(content[queue[j]]) != []
  }

  ghost predicate HandlersOk(content: seq<Content>, hs: seq<Handler>) {
    forall h :: 0 <= h < |hs| ==>
      hs[h].delivery < |content| && (hs[h].checked ==> Accepted(content[hs[h].delivery]) != [])
  }

  /** Only streams that are in the database are cached. */
  ghost predicate CacheOk(rows: set<Stream>, cache: Cache) {
    forall j :: 0 <= j < |cache| ==> cache[j].key in rows
  }

  ghost predicate TableOk(rows: set<Stream>, table: seq<Key>) {
    Unrepeated(table) && KeyHolds(rows, table)
  }

  /** An acked delivery's records are in the table. */
  ghost predicate EndsOk(content: seq<Content>, ends: seq<seq<Terminal>>, table: seq<Key>)
    requires |ends| == |content|
  {
    forall n :: 0 <= n < |ends| && Acked in ends[n] ==> AllIn(Accepted(content[n]), table)
  }

  ghost predicate Safe(cfg: Config, s: Sys) {
    && |s.ends| == |s.content|
    && (forall i :: 0 <= i < |s.workers| ==> WorkerOk(cfg, s.content, s.rows, s.workers[i]))
    && QueueOk(s.content, s.queue) && HandlersOk(s.content, s.handlers)
    && CacheOk(s.rows, s.cache) && TableOk(s.rows, s.table) && EndsOk(s.content, s.ends, s.table)
  }

  lemma {:induction false} StagedHolds(table: seq<Key>, ks: seq<Key>)
    requires Unrepeated(table)
    ensures Unrepeated(Staged(table, ks)) && AllIn(ks, Staged(table, ks)) && table <= Staged(table, ks)
    ensures forall k :: k in Staged(table, ks) <==> k in table || k in ks
    decreases |ks|
  {
    if ks != [] {
      var next := if ks[0] in table then table else table + [ks[0]];
      StagedHolds(next, ks[1..]);
      assert forall j :: 0 < j < |ks| ==> ks[j] == ks[1..][j - 1];
    }
  }

  /** Both copy modes leave the same table. */
  lemma {:induction false} DirectIsStaged(table: seq<Key>, ks: seq<Key>)
    requires Direct(table, ks).Some?
    ensures Staged(table, ks) == Direct(table, ks).value
    decreases |ks|
  {
    if ks == [] {
      assert table + ks == table;
    } else {
      forall j | 0 <= j < |table|
        ensures table[j] != ks[0]
      {
        assert (table + ks)[j] == table[j] && (table + ks)[|table|] == ks[0];
      }
      assert table + ks == (table + [ks[0]]) + ks[1..];
      DirectIsStaged(table + [ks[0]], ks[1..]);
    }
  }

  lemma StagedOk(rows: set<Stream>, more: set<Stream>, table: seq<Key>, ks: seq<Key>)
    requires TableOk(rows, table) && rows <= more && KeyHolds(more, ks)
    ensures TableOk(more, Staged(table, ks)) && table <= Staged(table, ks) && AllIn(ks, Staged(table, ks))
  {
    StagedHolds(table, ks);
    var r := Staged(table, ks);
    forall j | 0 <= j < |r|
      ensures r[j].stream in more
    {
      assert r[j] in r;
    }
  }

  lemma InsertedIsStaged(cfg: Config, table: seq<Key>, ks: seq<Key>)
    ensures Inserted(cfg, table, ks) == Staged(table, ks)
  {
    if Direct(table, ks).Some? {
      DirectIsStaged(table, ks);
    }
  }

  lemma KeysAreStamped(stream: Stream, entries: seq<Entry>)
    ensures forall j :: 0 <= j < |Keys(stream, entries)| ==> Keys(stream, entries)[j].stream == stream
  {
  }

  /** The database only grows. */
  ghost predicate Grows(a: Sys, b: Sys) {
    && a.rows <= b.rows && a.table <= b.table && a.content <= b.content
  }

  lemma WorkerLater(cfg: Config, content: seq<Content>, more: seq<Content>, rows: set<Stream>, rows2: set<Stream>, w: Worker)
    requires WorkerOk(cfg, content, rows, w) && content <= more && rows <= rows2
    ensures WorkerOk(cfg, more, rows2, w)
  {
  }

  lemma EndsLater(content: seq<Content>, ends: seq<seq<Terminal>>, table: seq<Key>, more: seq<Key>)
    requires |ends| == |content| && EndsOk(content, ends, table) && table <= more
    ensures EndsOk(content, ends, more)
  {
    forall n | 0 <= n < |ends| && Acked in ends[n]
      ensures AllIn(Accepted(content[n]), more)
    {
      assert AllIn(Accepted(content[n]), table);
    }
  }

  /** A step that touches none of the deliveries' ends. */
  lemma DatabaseGrows(cfg: Config, s: Sys, rows: set<Stream>, table: seq<Key>)
    requires Safe(cfg, s) && s.rows <= rows && s.table <= table && TableOk(rows, table)
    ensures Safe(cfg, s.(rows := rows, table := table))
  {
    forall i | 0 <= i < |s.workers|
      ensures WorkerOk(cfg, s.content, rows, s.workers[i])
    {
      WorkerLater(cfg, s.content, s.content, s.rows, rows, s.workers[i]);
    }
    EndsLater(s.content, s.ends, s.table, table);
  }

  /** Deliveries end without an ack, or with one that is deserved. */
  lemma EndsAdded(content: seq<Content>, ends: seq<seq<Terminal>>, table: seq<Key>, ns: seq<nat>, t: Terminal)
    requires |ends| == |content| && EndsOk(content, ends, table)
    requires t == Acked ==> forall j :: 0 <= j < |ns| && ns[j] < |content| ==> AllIn(Accepted(content[ns[j]]), table)
    ensures EndsOk(content, Ended(ends, ns, t), table)
  {
    forall n | 0 <= n < |ends| && Acked in Ended(ends, ns, t)[n]
      ensures AllIn(Accepted(content[n]), table)
    {
      CountMember(ns, n);
    }
  }

  lemma LeaveSafe(cfg: Config, s: Sys, h: nat, t: Terminal)
    requires Safe(cfg, s) && h < |s.handlers|
    requires t == Acked ==> Accepted(s.content[s.handlers[h].delivery]) == []
    ensures Safe(cfg, Leave(s, h, t))
  {
    EndsAdded(s.content, s.ends, s.table, [s.handlers[h].delivery], t);
  }

  lemma CheckSafe(cfg: Config, s: Sys, h: nat)
    requires Safe(cfg, s) && h < |s.handlers|
    ensures Safe(cfg, Check(s, h))
  {
    LeaveSafe(cfg, s, h, Naked);
    if Accepted(s.content[s.handlers[h].delivery]) == [] {
      LeaveSafe(cfg, s, h, Acked);
    }
  }

  lemma SendSafe(cfg: Config, s: Sys, h: nat)
    requires Safe(cfg, s) && h < |s.handlers| && s.handlers[h].checked
    ensures Safe(cfg, Send(s, h))
  {
  }

  lemma DeliverSafe(cfg: Config, s: Sys, c: Content)
    requires Safe(cfg, s)
    ensures Safe(cfg, Deliver(s, c))
  {
    var r := Deliver(s, c);
    forall i | 0 <= i < |s.workers|
      ensures WorkerOk(cfg, r.content, s.rows, s.workers[i])
    {
      WorkerLater(cfg, s.content, r.content, s.rows, s.rows, s.workers[i]);
    }
    forall n | 0 <= n < |r.ends| && Acked in r.ends[n]
      ensures AllIn(Accepted(r.content[n]), s.table)
    {
      assert n < |s.ends| && AllIn(Accepted(s.content[n]), s.table);
    }
  }

  lemma SetSafe(cfg: Config, s: Sys, i: nat, w: Worker)
    requires Safe(cfg, s) && i < |s.workers| && WorkerOk(cfg, s.content, s.rows, w)
    ensures Safe(cfg, SetWorker(s, i, w))
  {
  }

  /** The cache vouches for the stream, or it will be written. */
  lemma AddedOk(cfg: Config, s: Sys, w: Worker, n: nat, now: int)
    requires WorkerOk(cfg, s.content, s.rows, w) && CacheOk(s.rows, s.cache) && n < |s.content| && Accepted(s.content[n]) != []
    requires w.attempt == 0 && !w.stopped && cfg.maxAttempts > 0
    ensures var c := s.content[n];
            WorkerOk(cfg, s.content, s.rows, AddTo(cfg, w, n, c, c.stream !in w.streams && NeedsUpsert(cfg, s.cache, c.stream, now)))
  {
    var c := s.content[n];
    var needs := c.stream !in w.streams && NeedsUpsert(cfg, s.cache, c.stream, now);
    var r := AddTo(cfg, w, n, c, needs);
    KeysAreStamped(c.stream, c.entries);
    assert c.stream in s.rows + r.streams;
    forall j | 0 <= j < |r.acks|
      ensures r.acks[j] < |s.content| && Accepted(s.content[r.acks[j]]) != [] && AllIn(Accepted(s.content[r.acks[j]]), r.records)
    {
      if j < |w.acks| {
        assert w.acks[j] < |s.content| && AllIn(Accepted(s.content[w.acks[j]]), w.records);
      }
    }
  }

  lemma UsedCacheOk(rows: set<Stream>, cache: Cache, stream: Stream)
    requires CacheOk(rows, cache)
    ensures CacheOk(rows, Lru.Use(cache, stream))
  {
    var i := Lru.Find(cache, stream);
    if i < |cache| {
      forall j | 0 <= j < |cache|
        ensures Lru.ToFront(cache, i)[j].key in rows
      {
        Lru.ToFrontAt(cache, i, j);
      }
    }
  }

  lemma TakeSafe(cfg: Config, s: Sys, i: nat, now: int)
    requires Safe(cfg, s) && Idle(s, i) && s.queue != [] && cfg.maxAttempts > 0
    ensures Safe(cfg, Take(cfg, s, i, now))
  {
    var n := s.queue[0];
    AddedOk(cfg, s, s.workers[i], n, now);
    UsedCacheOk(s.rows, s.cache, s.content[n].stream);
  }

  lemma EndFlushSafe(cfg: Config, s: Sys, i: nat, t: Terminal)
    requires Safe(cfg, s) && i < |s.workers| && (t == Acked ==> AllIn(s.workers[i].records, s.table))
    ensures Safe(cfg, EndFlush(s, i, t))
  {
    var w := s.workers[i];
    if t == Acked {
      forall j | 0 <= j < |w.acks| && w.acks[j] < |s.content|
        ensures AllIn(Accepted(s.content[w.acks[j]]), s.table)
      {
        assert AllIn(Accepted(s.content[w.acks[j]]), w.records);
      }
    }
    EndsAdded(s.content, s.ends, s.table, w.acks, t);
  }

  lemma RetrySafe(cfg: Config, s: Sys, i: nat, retryable: bool)
    requires Safe(cfg, s) && i < |s.workers| && !s.workers[i].stopped
    ensures Safe(cfg, Retry(cfg, s, i, retryable))
  {
    EndFlushSafe(cfg, s, i, Naked);
  }

  lemma {:induction false} MarkedOk(cfg: Config, rows: set<Stream>, cache: Cache, ids: seq<Stream>, at: int)
    requires CacheOk(rows, cache) && forall j :: 0 <= j < |ids| ==> ids[j] in rows
    ensures CacheOk(rows, Marked(cfg, cache, ids, at))
    decreases |ids|
  {
    if ids != [] {
      StoredCacheOk(rows, cache, cfg.capacity, ids[0], at);
      MarkedOk(cfg, rows, Lru.StoreBounded(cache, cfg.capacity, ids[0], at), ids[1..], at);
    }
  }

  lemma StoredCacheOk(rows: set<Stream>, cache: Cache, capacity: nat, stream: Stream, at: int)
    requires CacheOk(rows, cache) && stream in rows
    ensures CacheOk(rows, Lru.StoreBounded(cache, capacity, stream, at))
  {
    var i := Lru.Find(cache, stream);
    if i < |cache| {
      forall j | 0 <= j < |cache| - 1
        ensures Without(cache, i)[j].key in rows
      {
        assert Without(cache, i)[j] == cache[if j < i then j else j + 1];
      }
    }
  }

  /** The streams of the batch are now in the database. */
  lemma WrittenOk(cfg: Config, content: seq<Content>, rows: set<Stream>, w: Worker)
    requires WorkerOk(cfg, content, rows, w)
    ensures WorkerOk(cfg, content, rows + w.streams, w.(streams := {}, copying := true))
  {
    assert rows + w.streams + {} == rows + w.streams;
  }

  lemma CachedSafe(cfg: Config, s: Sys, cache: Cache)
    requires Safe(cfg, s) && CacheOk(s.rows, cache)
    ensures Safe(cfg, s.(cache := cache))
  {
  }

  lemma UpsertSafe(cfg: Config, s: Sys, i: nat, o: Outcome, ids: seq<Stream>, at: int)
    requires Safe(cfg, s) && i < |s.workers| && !s.workers[i].stopped
    requires forall j :: 0 <= j < |ids| ==> ids[j] in s.workers[i].streams
    ensures Safe(cfg, Upsert(cfg, s, i, o, ids, at))
  {
    var w := s.workers[i];
    var rows := if Happens(o) then s.rows + w.streams else s.rows;
    if w.streams == {} {
      SetSafe(cfg, s, i, w.(copying := true));
    } else {
      DatabaseGrows(cfg, s, rows, s.table);
      var s1 := s.(rows := rows);
      assert s1 == s.(rows := rows, table := s.table);
      if o.Committed? {
        forall j | 0 <= j < |ids|
          ensures ids[j] in rows
        {
          assert ids[j] in w.streams;
        }
        MarkedOk(cfg, rows, s.cache, ids, at);
        WrittenOk(cfg, s.content, s.rows, w);
        CachedSafe(cfg, s1, Marked(cfg, s.cache, ids, at));
        SetSafe(cfg, s1.(cache := Marked(cfg, s.cache, ids, at)), i, w.(streams := {}, copying := true));
      } else {
        RetrySafe(cfg, s1, i, o.retryable);
      }
    }
  }

  lemma CopySafe(cfg: Config, s: Sys, i: nat, o: Outcome)
    requires Safe(cfg, s) && i < |s.workers| && !s.workers[i].stopped
    ensures Safe(cfg, Copy(cfg, s, i, o))
  {
    var w := s.workers[i];
    if !KeyHolds(s.rows, w.records) {
      RetrySafe(cfg, s, i, false);
    } else {
      var table := if Happens(o) then Inserted(cfg, s.table, w.records) else s.table;
      InsertedIsStaged(cfg, s.table, w.records);
      StagedOk(s.rows, s.rows, s.table, w.records);
      DatabaseGrows(cfg, s, s.rows, table);
      var s1 := s.(table := table);
      assert s1 == s.(rows := s.rows, table := table);
      if o.Committed? {
        EndFlushSafe(cfg, s1, i, Acked);
      } else {
        RetrySafe(cfg, s1, i, o.retryable);
      }
    }
  }

  lemma OthersSafe(cfg: Config, s: Sys, streams: set<Stream>, ks: seq<Key>)
    requires Safe(cfg, s) && KeyHolds(s.rows + streams, ks)
    ensures Safe(cfg, s.(rows := s.rows + streams, table := Staged(s.table, ks)))
  {
    StagedOk(s.rows, s.rows + streams, s.table, ks);
    DatabaseGrows(cfg, s, s.rows + streams, Staged(s.table, ks));
  }

  lemma AbandonSafe(cfg: Config, s: Sys)
    requires Safe(cfg, s) && s.queue != []
    ensures Safe(cfg, s.(queue := s.queue[1..], ends := Ended(s.ends, [s.queue[0]], Naked)))
  {
    EndsAdded(s.content, s.ends, s.table, [s.queue[0]], Naked);
  }

  lemma DoSafe(cfg: Config, s: Sys, a: Action)
    requires cfg.maxAttempts > 0 && Safe(cfg, s)
    ensures Safe(cfg, Do(cfg, s, a))
  {
    if Can(cfg, s, a) {
      match a
      case Arrives(c) => DeliverSafe(cfg, s, c);
      case Checks(h) => CheckSafe(cfg, s, h);
      case Sends(h) => SendSafe(cfg, s, h);
      case GivesUp(h) => LeaveSafe(cfg, s, h, Naked);
      case Takes(i, now) => TakeSafe(cfg, s, i, now);
      case Ticks(i) => SetSafe(cfg, s, i, BeginFlush(s.workers[i], false));
      case SeesQuit(i) => SetSafe(cfg, s, i, s.workers[i].(draining := true));
      case FindsEmpty(i) =>
        SetSafe(cfg, s, i, if s.workers[i].records == [] then s.workers[i].(stopped := true) else BeginFlush(s.workers[i], true));
      case Upserts(i, o, at) => UpsertSafe(cfg, s, i, o, Sorted(s.workers[i].streams), at);
      case Copies(i, o) => CopySafe(cfg, s, i, o);
      case Abandons => AbandonSafe(cfg, s);
      case Others(streams, ks) => OthersSafe(cfg, s, streams, ks);
      case _ =>
    }
  }

  lemma {:induction false} EveryRunIsSafe(cfg: Config, workers: nat, rows: set<Stream>, table: seq<Key>, actions: seq<Action>)
    requires cfg.maxAttempts > 0 && TableOk(rows, table)
    ensures Safe(cfg, Play(cfg, Begin(workers, rows, table), actions))
    decreases |actions|
  {
    if actions != [] {
      EveryRunIsSafe(cfg, workers, rows, table, actions[..|actions| - 1]);
      DoSafe(cfg, Play(cfg, Begin(workers, rows, table), actions[..|actions| - 1]), actions[|actions| - 1]);
    }
  }

  /** An acked message's valid records are all in the table, through any interleaving of workers,
      retries, commits whose report was lost, redeliveries, other nodes and shutdown. */
  lemma AckMeansStored(cfg: Config, workers: nat, rows: set<Stream>, table: seq<Key>, actions: seq<Action>, n: nat)
    requires cfg.maxAttempts > 0 && TableOk(rows, table)
    requires var s := Play(cfg, Begin(workers, rows, table), actions); n < |s.content| && n < |s.ends| && Acked in s.ends[n]
    ensures var s := Play(cfg, Begin(workers, rows, table), actions);
            s.content[n].Batch? ==>
              forall e :: e in s.content[n].entries && e.valid ==> KeyOf(s.content[n].stream, e) in s.table
  {
    EveryRunIsSafe(cfg, workers, rows, table, actions);
    var s := Play(cfg, Begin(workers, rows, table), actions);
    if s.content[n].Batch? {
      ValidAreIn(s.content[n].stream, s.content[n].entries, s.table);
    }
  }

  lemma ValidAreIn(stream: Stream, entries: seq<Entry>, table: seq<Key>)
    requires AllIn(Accepted(Batch(stream, entries)), table)
    ensures forall e :: e in entries && e.valid ==> KeyOf(stream, e) in table
  {
    var at := AcceptedAreTheValid(stream, entries);
    forall e | e in entries && e.valid
      ensures KeyOf(stream, e) in table
    {
      var i: nat :| i < |entries| && entries[i] == e;
      assert i in at;
      var j :| 0 <= j < |at| && at[j] == i;
      assert Accepted(Batch(stream, entries))[j] == KeyOf(stream, e);
    }
  }

  /** No batch reaches its copy without its streams in the database, so the foreign key never fails
      one; and no dedup key is stored twice. */
  lemma StreamsComeFirst(cfg: Config, workers: nat, rows: set<Stream>, table: seq<Key>, actions: seq<Action>, i: nat)
    requires cfg.maxAttempts > 0 && TableOk(rows, table)
    requires Flushing(Play(cfg, Begin(workers, rows, table), actions), i, true)
    ensures var s := Play(cfg, Begin(workers, rows, table), actions); KeyHolds(s.rows, s.workers[i].records)
  {
    EveryRunIsSafe(cfg, workers, rows, table, actions);
    var s := Play(cfg, Begin(workers, rows, table), actions);
    assert WorkerOk(cfg, s.content, s.rows, s.workers[i]);
    assert s.rows + {} == s.rows;
  }

  lemma StoredOnce(cfg: Config, workers: nat, rows: set<Stream>, table: seq<Key>, actions: seq<Action>)
    requires cfg.maxAttempts > 0 && TableOk(rows, table)
    ensures var s := Play(cfg, Begin(workers, rows, table), actions); Unrepeated(s.table) && KeyHolds(s.rows, s.table)
  {
    EveryRunIsSafe(cfg, workers, rows, table, actions);
  }
}
