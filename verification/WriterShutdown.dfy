/** How a shutdown ends: exactly when every message has been terminated. */
module WriterShutdown {
  import opened Writer
  import opened WriterSafety

  /** A Submit waiting in its select sends after the final drain is over. */
  predicate SendsLate(cfg: Config, s: Sys, a: Action) {
    a.Sends? && Can(cfg, s, a) && s.drained
  }

  predicate SomeLateSend(cfg: Config, s: Sys, actions: seq<Action>)
    decreases |actions|
  {
    actions != [] &&
    (var last := |actions| - 1;
     || SomeLateSend(cfg, s, actions[..last])
     || SendsLate(cfg, Play(cfg, s, actions[..last]), actions[last]))
  }

  /** Once the final drain is over no worker runs, and only late sends fill the queue. */
  ghost predicate Settled(s: Sys, late: bool) {
    if s.drained then s.quit && AllStopped(s.workers) && (late <==> s.queue != []) else !late
  }

  /** What a worker's commits leave alone. */
  predicate SameGates(a: Sys, b: Sys) {
    && b.drained == a.drained && b.quit == a.quit && b.stopping == a.stopping
    && b.handlers == a.handlers && b.queue == a.queue
  }

  lemma RetryKeepsGates(cfg: Config, s: Sys, i: nat, retryable: bool)
    requires i < |s.workers|
    ensures SameGates(s, Retry(cfg, s, i, retryable)) && SameGates(s, EndFlush(s, i, Acked))
  {
  }

  lemma UpsertKeepsGates(cfg: Config, s: Sys, i: nat, o: Outcome, ids: seq<Stream>, at: int)
    requires i < |s.workers|
    ensures SameGates(s, Upsert(cfg, s, i, o, ids, at))
  {
    RetryKeepsGates(cfg, s.(rows := if Happens(o) then s.rows + s.workers[i].streams else s.rows), i, o.Failed? && o.retryable);
  }

  lemma CopyKeepsGates(cfg: Config, s: Sys, i: nat, o: Outcome)
    requires i < |s.workers|
    ensures SameGates(s, Copy(cfg, s, i, o))
  {
    RetryKeepsGates(cfg, s, i, false);
    RetryKeepsGates(cfg, s.(table := if Happens(o) then Inserted(cfg, s.table, s.workers[i].records) else s.table), i,
                    o.Failed? && o.retryable);
  }

  lemma WorkerKeepsGates(cfg: Config, s: Sys, a: Action)
    requires (a.Upserts? || a.Copies?) && Can(cfg, s, a)
    ensures SameGates(s, Do(cfg, s, a))
  {
    match a
    case Upserts(i, o, at) => UpsertKeepsGates(cfg, s, i, o, Sorted(s.workers[i].streams), at);
    case Copies(i, o) => CopyKeepsGates(cfg, s, i, o);
  }

  lemma DoSettled(cfg: Config, s: Sys, a: Action, late: bool)
    requires Settled(s, late)
    ensures Settled(Do(cfg, s, a), late || SendsLate(cfg, s, a))
  {
    if Can(cfg, s, a) {
      match a
      case Upserts(_, _, _) => WorkerKeepsGates(cfg, s, a);
      case Copies(_, _) => WorkerKeepsGates(cfg, s, a);
      case _ =>
    }
  }

  lemma {:induction false} PlaySettled(cfg: Config, workers: nat, rows: set<Stream>, table: seq<Key>, actions: seq<Action>)
    ensures var s := Begin(workers, rows, table); Settled(Play(cfg, s, actions), SomeLateSend(cfg, s, actions))
    decreases |actions|
  {
    if actions != [] {
      var s, last := Begin(workers, rows, table), |actions| - 1;
      PlaySettled(cfg, workers, rows, table, actions[..last]);
      DoSettled(cfg, Play(cfg, s, actions[..last]), actions[last], SomeLateSend(cfg, s, actions[..last]));
    }
  }

  /** Every delivery has ended, once. */
  ghost predicate AllEnded(s: Sys) {
    |s.ends| == |s.content| && forall n :: 0 <= n < |s.ends| ==> |s.ends[n]| == 1
  }

  lemma {:induction false} NobodyHolds(workers: seq<Worker>, n: nat)
    requires forall i :: 0 <= i < |workers| ==> workers[i].acks == []
    ensures HeldBy(workers, n) == 0
  {
    if workers != [] {
      NobodyHolds(workers[1..], n);
    }
  }

  /** The exact condition. When the writer has been closed and drained and no handler is running, every
      message was terminated exactly once if and only if no Submit won its select after the drain. */
  lemma AllEndedIff(cfg: Config, workers: nat, rows: set<Stream>, table: seq<Key>, actions: seq<Action>)
    requires cfg.maxAttempts > 0 && TableOk(rows, table)
    requires var s := Play(cfg, Begin(workers, rows, table), actions); s.drained && s.handlers == []
    ensures var s := Begin(workers, rows, table); AllEnded(Play(cfg, s, actions)) <==> !SomeLateSend(cfg, s, actions)
  {
    var s := Play(cfg, Begin(workers, rows, table), actions);
    EveryDeliveryInOnePlace(cfg, workers, rows, table, actions);
    EveryRunIsSafe(cfg, workers, rows, table, actions);
    PlaySettled(cfg, workers, rows, table, actions);
    EndedByPlaces(cfg, s);
  }

  lemma EndedByPlaces(cfg: Config, s: Sys)
    requires Conserved(s) && Safe(cfg, s) && AllStopped(s.workers) && s.handlers == []
    ensures AllEnded(s) <==> s.queue == []
  {
    forall n | 0 <= n < |s.ends|
      ensures |s.ends[n]| == 1 - Count(s.queue, n)
    {
      assert Places(s, n) == 1;
      NobodyHolds(s.workers, n);
    }
    if s.queue != [] {
      var n := s.queue[0];
      assert Count(s.queue, n) > 0;
      assert n < |s.ends| && |s.ends[n]| != 1;
    }
  }

  /** The writer is closed while a delivery may still be handled. */
  predicate ClosesEarly(s: Sys, a: Action) {
    a.Closes? && !s.quit && !(s.stopping && s.handlers == [])
  }

  predicate SomeEarlyClose(cfg: Config, s: Sys, actions: seq<Action>)
    decreases |actions|
  {
    actions != [] &&
    (var last := |actions| - 1;
     || SomeEarlyClose(cfg, s, actions[..last])
     || ClosesEarly(Play(cfg, s, actions[..last]), actions[last]))
  }

  /** Nothing is being handled any more once the writer closes. */
  ghost predicate Orderly(s: Sys) {
    (s.quit ==> s.stopping && s.handlers == []) && (s.drained ==> s.quit)
  }

  lemma DoOrderly(cfg: Config, s: Sys, a: Action)
    requires Orderly(s) && !ClosesEarly(s, a)
    ensures Orderly(Do(cfg, s, a)) && !SendsLate(cfg, s, a)
  {
    if Can(cfg, s, a) {
      match a
      case Upserts(_, _, _) => WorkerKeepsGates(cfg, s, a);
      case Copies(_, _) => WorkerKeepsGates(cfg, s, a);
      case _ =>
    }
  }

  lemma {:induction false} OrderlyNeverLate(cfg: Config, workers: nat, rows: set<Stream>, table: seq<Key>, actions: seq<Action>)
    requires !SomeEarlyClose(cfg, Begin(workers, rows, table), actions)
    ensures var s := Begin(workers, rows, table); Orderly(Play(cfg, s, actions)) && !SomeLateSend(cfg, s, actions)
    decreases |actions|
  {
    if actions != [] {
      var s, last := Begin(workers, rows, table), |actions| - 1;
      OrderlyNeverLate(cfg, workers, rows, table, actions[..last]);
      DoOrderly(cfg, Play(cfg, s, actions[..last]), actions[last]);
    }
  }

  /** The collector's order of shutdown: the consumer is stopped and its handlers have returned before
      the writer is closed. Then every message is terminated exactly once. */
  lemma OrderlyShutdownEndsAll(cfg: Config, workers: nat, rows: set<Stream>, table: seq<Key>, actions: seq<Action>)
    requires cfg.maxAttempts > 0 && TableOk(rows, table)
    requires !SomeEarlyClose(cfg, Begin(workers, rows, table), actions)
    requires Play(cfg, Begin(workers, rows, table), actions).drained
    ensures AllEnded(Play(cfg, Begin(workers, rows, table), actions))
  {
    OrderlyNeverLate(cfg, workers, rows, table, actions);
    AllEndedIff(cfg, workers, rows, table, actions);
  }

  const SAMPLE := Config(1, 1, 1, 1, 1, false)
  const CONTENT := Batch(7, [Entry(0, 0, true)])

  /** One worker. The writer is closed and drained while a Submit waits in its select. */
  const RACE := [Arrives(CONTENT), Checks(0), Closes, SeesQuit(0), FindsEmpty(0), EndsDrain, Sends(0)]

  ghost predicate Steps(cfg: Config, actions: seq<Action>, states: seq<Sys>, k: nat)
    requires k < |actions| < |states|
  {
    states[k + 1] == Do(cfg, states[k], actions[k])
  }

  lemma Trace(cfg: Config, s: Sys, actions: seq<Action>) returns (states: seq<Sys>)
    ensures |states| == |actions| + 1 && states[0] == s && states[|actions|] == Play(cfg, s, actions)
    ensures forall k :: 0 <= k < |actions| ==> Steps(cfg, actions, states, k)
  {
    states := seq(|actions| + 1, k requires 0 <= k <= |actions| => Play(cfg, s, actions[..k]));
    assert actions[..|actions|] == actions;
    forall k | 0 <= k < |actions|
      ensures Steps(cfg, actions, states, k)
    {
      PlayStep(cfg, s, actions, k);
    }
  }

  lemma PlayStep(cfg: Config, s: Sys, actions: seq<Action>, k: nat)
    requires k < |actions|
    ensures Play(cfg, s, actions[..k + 1]) == Do(cfg, Play(cfg, s, actions[..k]), actions[k])
  {
    assert actions[..k + 1][..k] == actions[..k];
  }

  /** The delivery is accepted, and nobody is left to store or terminate it. */
  lemma RaceLosesAnAck()
    ensures var s := Play(SAMPLE, Begin(1, {}, []), RACE);
            s.drained && s.handlers == [] && s.queue == [0] && s.ends == [[]] && !AllEnded(s)
  {
    var states := Trace(SAMPLE, Begin(1, {}, []), RACE);
    RaceTrace(RACE, states);
    assert states[7].ends[0] == [];
  }

  lemma RaceTrace(actions: seq<Action>, states: seq<Sys>)
    requires actions == RACE && |states| == 8 && states[0] == Begin(1, {}, [])
    requires forall k :: 0 <= k < |actions| ==> Steps(SAMPLE, actions, states, k)
    ensures var s := states[7]; s.drained && s.handlers == [] && s.queue == [0] && s.ends == [[]]
  {
    assert && Steps(SAMPLE, actions, states, 0) && Steps(SAMPLE, actions, states, 1) && Steps(SAMPLE, actions, states, 2)
           && Steps(SAMPLE, actions, states, 3) && Steps(SAMPLE, actions, states, 4) && Steps(SAMPLE, actions, states, 5)
           && Steps(SAMPLE, actions, states, 6);
    RaceArrives(states[0], states[1], states[2]);
    RaceDrains(states[2], states[3], states[4], states[5], states[6]);
  }

  predicate Waiting(s: Sys) {
    s.handlers == [Handler(0, true)] && s.content == [CONTENT] && s.ends == [[]] && s.queue == [] && s.workers == [Fresh]
  }

  lemma RaceArrives(s0: Sys, s1: Sys, s2: Sys)
    requires s0 == Begin(1, {}, []) && s1 == Do(SAMPLE, s0, Arrives(CONTENT)) && s2 == Do(SAMPLE, s1, Checks(0))
    ensures Waiting(s2) && !s2.drained
  {
    assert Accepted(CONTENT) == [Key(7, 0, 0)] by {
      assert CONTENT.entries[1..] == [];
    }
    assert s1.handlers == [Handler(0, false)];
    assert s0.workers == [Fresh];
  }

  lemma RaceDrains(s2: Sys, s3: Sys, s4: Sys, s5: Sys, s6: Sys)
    requires Waiting(s2)
    requires s3 == Do(SAMPLE, s2, Closes) && s4 == Do(SAMPLE, s3, SeesQuit(0)) && s5 == Do(SAMPLE, s4, FindsEmpty(0))
    requires s6 == Do(SAMPLE, s5, EndsDrain)
    ensures s6.drained && s6.handlers == [Handler(0, true)] && s6.content == [CONTENT] && s6.ends == [[]] && s6.queue == []
  {
    assert s4.workers == [Fresh.(draining := true)];
    assert s5.workers == [Fresh.(draining := true, stopped := true)];
  }
}
