/** What Stop waits for (internal/ingest/consumer.go, internal/storage/writer.go, cmd/collector/main.go):
    the workers run on the context that the signal cancels, so when the consumer is stopped they may all
    have left, and a Submit that finds the channel full waits for nobody. */
module WriterStop {
  import opened Sequences
  import opened Writer
  import opened WriterSafety
  import opened WriterShutdown
  import opened WriterWorker

  /** Handlers whose Submit takes a place in the channel. */
  function Needy(content: seq<Content>, hs: seq<Handler>): nat {
    if hs == [] then 0
    else (if hs[0].delivery < |content| && Accepted(content[hs[0].delivery]) != [] then 1 else 0) + Needy(content, hs[1..])
  }

  /** The workers have left, the writer is not closed. */
  ghost predicate Deserted(cfg: Config, s: Sys) {
    AllStopped(s.workers) && !s.quit && |s.queue| <= cfg.depth && HandlersOk(s.content, s.handlers)
  }

  predicate NoClose(actions: seq<Action>) {
    forall k :: 0 <= k < |actions| ==> !actions[k].Closes?
  }

  lemma {:induction false} NeedyConcat(content: seq<Content>, a: seq<Handler>, b: seq<Handler>)
    ensures Needy(content, a + b) == Needy(content, a) + Needy(content, b)
  {
    if a == [] {
      assert a + b == b;
    } else {
      assert (a + b)[1..] == a[1..] + b;
      NeedyConcat(content, a[1..], b);
    }
  }

  lemma NeedyWithout(content: seq<Content>, hs: seq<Handler>, h: nat)
    requires h < |hs|
    ensures Needy(content, hs) == Needy(content, Without(hs, h)) + Needy(content, [hs[h]])
  {
    assert hs == hs[..h] + ([hs[h]] + hs[h + 1..]);
    NeedyConcat(content, hs[..h], [hs[h]] + hs[h + 1..]);
    NeedyConcat(content, [hs[h]], hs[h + 1..]);
    NeedyConcat(content, hs[..h], hs[h + 1..]);
  }

  lemma NeedyOne(content: seq<Content>, h: Handler)
    ensures Needy(content, [h]) == if h.delivery < |content| && Accepted(content[h.delivery]) != [] then 1 else 0
  {
    assert [h][1..] == [];
  }

  lemma NeedyChecked(content: seq<Content>, hs: seq<Handler>, h: nat, r: Handler)
    requires h < |hs| && r.delivery == hs[h].delivery
    ensures Needy(content, hs[h := r]) == Needy(content, hs)
  {
    NeedyWithout(content, hs, h);
    NeedyWithout(content, hs[h := r], h);
    assert Without(hs[h := r], h) == Without(hs, h);
    NeedyOne(content, hs[h]);
    NeedyOne(content, r);
  }

  lemma {:induction false} NeedyLater(content: seq<Content>, c: Content, hs: seq<Handler>)
    requires forall h :: 0 <= h < |hs| ==> hs[h].delivery < |content|
    ensures Needy(content + [c], hs) == Needy(content, hs)
  {
    if hs != [] {
      assert hs[0].delivery < |content|;
      NeedyLater(content, c, hs[1..]);
    }
  }

  lemma ArrivesDeserted(cfg: Config, s: Sys, c: Content)
    requires Deserted(cfg, s)
    ensures Deserted(cfg, Deliver(s, c))
    ensures Needy(Deliver(s, c).content, Deliver(s, c).handlers) >= Needy(s.content, s.handlers)
  {
    var r := Deliver(s, c);
    NeedyLater(s.content, c, s.handlers);
    forall h | 0 <= h < |s.handlers|
      ensures s.handlers[h].delivery < |r.content| && r.content[s.handlers[h].delivery] == s.content[s.handlers[h].delivery]
    {
    }
    NeedyConcat(r.content, s.handlers, [Handler(|s.content|, false)]);
  }

  lemma LeavesDeserted(cfg: Config, s: Sys, h: nat)
    requires Deserted(cfg, s) && h < |s.handlers|
    ensures HandlersOk(s.content, Without(s.handlers, h))
  {
    forall i | 0 <= i < |s.handlers| - 1
      ensures Without(s.handlers, h)[i] == s.handlers[if i < h then i else i + 1]
    {
    }
  }

  /** A place that a handler needs is taken in the channel or still needed. */
  lemma StepDeserted(cfg: Config, s: Sys, a: Action)
    requires Deserted(cfg, s) && !a.Closes?
    ensures var r := Do(cfg, s, a);
            Deserted(cfg, r) && |r.queue| + Needy(r.content, r.handlers) >= |s.queue| + Needy(s.content, s.handlers)
  {
    if Can(cfg, s, a) {
      match a
      case Arrives(c) => ArrivesDeserted(cfg, s, c);
      case Checks(h) =>
        LeavesDeserted(cfg, s, h);
        NeedyWithout(s.content, s.handlers, h);
        NeedyOne(s.content, s.handlers[h]);
        NeedyChecked(s.content, s.handlers, h, Handler(s.handlers[h].delivery, true));
      case Sends(h) =>
        LeavesDeserted(cfg, s, h);
        NeedyWithout(s.content, s.handlers, h);
        NeedyOne(s.content, s.handlers[h]);
      case _ =>
    }
  }

  lemma {:induction false} PlayDeserted(cfg: Config, s: Sys, actions: seq<Action>)
    requires Deserted(cfg, s) && NoClose(actions)
    ensures var r := Play(cfg, s, actions);
            Deserted(cfg, r) && |r.queue| + Needy(r.content, r.handlers) >= |s.queue| + Needy(s.content, s.handlers)
    decreases |actions|
  {
    if actions != [] {
      var k := |actions| - 1;
      PlayDeserted(cfg, s, actions[..k]);
      StepDeserted(cfg, Play(cfg, s, actions[..k]), actions[k]);
    }
  }

  /** The first handler's check ends it, for want of a record worth queueing. */
  lemma OneIsIdle(cfg: Config, s: Sys)
    requires Deserted(cfg, s) && s.handlers != [] && !s.handlers[0].checked && Accepted(s.content[s.handlers[0].delivery]) == []
    ensures var r := Do(cfg, s, Checks(0));
            Deserted(cfg, r) && r.content == s.content && r.queue == s.queue && r.handlers == s.handlers[1..]
  {
    LeavesDeserted(cfg, s, 0);
    assert Without(s.handlers, 0) == s.handlers[1..];
  }

  /** The first handler gets to its select. */
  lemma OneChecks(cfg: Config, s: Sys)
    requires Deserted(cfg, s) && s.handlers != [] && !s.handlers[0].checked && Accepted(s.content[s.handlers[0].delivery]) != []
    ensures var r, n := Do(cfg, s, Checks(0)), s.handlers[0].delivery;
            r == s.(handlers := s.handlers[0 := Handler(n, true)]) && Deserted(cfg, r) && r.handlers[1..] == s.handlers[1..]
  {
  }

  lemma OneSends(cfg: Config, s: Sys)
    requires Deserted(cfg, s) && s.handlers != [] && s.handlers[0].checked && |s.queue| < cfg.depth
    ensures var r := Do(cfg, s, Sends(0));
            Deserted(cfg, r) && r.content == s.content && r.queue == s.queue + [s.handlers[0].delivery] && r.handlers == s.handlers[1..]
  {
    LeavesDeserted(cfg, s, 0);
    assert Without(s.handlers, 0) == s.handlers[1..];
  }

  lemma PlayOne(cfg: Config, s: Sys, a: Action)
    ensures Play(cfg, s, [a]) == Do(cfg, s, a)
  {
    assert [a][..0] == [];
  }

  lemma PlayTwo(cfg: Config, s: Sys, a: Action, b: Action)
    ensures Play(cfg, s, [a, b]) == Do(cfg, Do(cfg, s, a), b)
  {
    assert [a, b][..1] == [a];
    PlayOne(cfg, s, a);
  }

  ghost predicate Fits(cfg: Config, s: Sys) {
    |s.queue| + Needy(s.content, s.handlers) <= cfg.depth
  }

  /** The first handler finishes. */
  lemma OneFinishes(cfg: Config, s: Sys) returns (actions: seq<Action>)
    requires Deserted(cfg, s) && s.handlers != [] && Fits(cfg, s)
    ensures NoClose(actions)
    ensures var r := Play(cfg, s, actions); Deserted(cfg, r) && r.handlers == s.handlers[1..] && Fits(cfg, r)
  {
    if s.handlers[0].checked {
      actions := [Sends(0)];
      OneSends(cfg, s);
      PlayOne(cfg, s, Sends(0));
    } else {
      if Accepted(s.content[s.handlers[0].delivery]) == [] {
        actions := [Checks(0)];
        OneIsIdle(cfg, s);
        PlayOne(cfg, s, Checks(0));
      } else {
        actions := [Checks(0), Sends(0)];
        OneChecks(cfg, s);
        OneSends(cfg, Do(cfg, s, Checks(0)));
        PlayTwo(cfg, s, Checks(0), Sends(0));
      }
    }
  }

  lemma {:induction false} AllFinish(cfg: Config, s: Sys) returns (actions: seq<Action>)
    requires Deserted(cfg, s) && Fits(cfg, s)
    ensures NoClose(actions) && Play(cfg, s, actions).handlers == []
    decreases |s.handlers|
  {
    if s.handlers == [] {
      actions := [];
    } else {
      var first := OneFinishes(cfg, s);
      var rest := AllFinish(cfg, Play(cfg, s, first));
      PlayConcat(cfg, s, first, rest);
      actions := first + rest;
    }
  }

  /** The exact condition for Stop's wait to end before the writer is closed: every Submit that is still
      to come finds a place in the channel. When one does not, it stays in its select whatever happens,
      until Stop's deadline has passed and Close lets it go. */
  lemma StopEndsIff(cfg: Config, s: Sys)
    requires Deserted(cfg, s)
    ensures (exists actions :: NoClose(actions) && Play(cfg, s, actions).handlers == [])
       <==> Fits(cfg, s)
  {
    if Fits(cfg, s) {
      var actions := AllFinish(cfg, s);
    } else {
      forall actions | NoClose(actions)
        ensures Play(cfg, s, actions).handlers != []
      {
        PlayDeserted(cfg, s, actions);
      }
    }
  }

  /** One worker, a channel of one. The signal comes and the worker leaves; two messages are still
      delivered before the consumer is stopped. */
  const SIGNALLED := [Cancels, SeesQuit(0), FindsEmpty(0), Arrives(CONTENT), Checks(0), Sends(0), Arrives(CONTENT), Checks(0), StopsConsumer]

  predicate Unmanned(s: Sys, content: seq<Content>, handlers: seq<Handler>, queue: seq<nat>) {
    && s.content == content && s.handlers == handlers && s.queue == queue
    && s.workers == [Fresh.(draining := true, stopped := true)] && !s.quit && !s.stopping
  }

  lemma WorkerLeaves(s0: Sys, s1: Sys, s2: Sys, s3: Sys)
    requires s0 == Begin(1, {}, []) && s1 == Do(SAMPLE, s0, Cancels)
    requires s2 == Do(SAMPLE, s1, SeesQuit(0)) && s3 == Do(SAMPLE, s2, FindsEmpty(0))
    ensures Unmanned(s3, [], [], [])
  {
    assert s0.workers == [Fresh];
    assert s2.workers == [Fresh.(draining := true)];
  }

  lemma ContentCounts()
    ensures Accepted(CONTENT) == [Key(7, 0, 0)]
  {
    assert CONTENT.entries[1..] == [];
  }

  lemma Delivers(s: Sys, r: Sys, t: Sys, content: seq<Content>, queue: seq<nat>)
    requires Unmanned(s, content, [], queue)
    requires r == Do(SAMPLE, s, Arrives(CONTENT)) && t == Do(SAMPLE, r, Checks(0))
    ensures Unmanned(t, content + [CONTENT], [Handler(|content|, true)], queue)
  {
    ContentCounts();
    assert r.handlers == [Handler(|content|, false)] && r.content[|content|] == CONTENT;
  }

  lemma SentOn(s: Sys, r: Sys)
    requires Unmanned(s, [CONTENT], [Handler(0, true)], []) && r == Do(SAMPLE, s, Sends(0))
    ensures Unmanned(r, [CONTENT], [], [0])
  {
  }

  ghost predicate Follows(states: seq<Sys>) {
    |states| == 10 && states[0] == Begin(1, {}, []) && forall k :: 0 <= k < 9 ==> Steps(SAMPLE, SIGNALLED, states, k)
  }

  lemma SignalledLeaves(states: seq<Sys>)
    requires Follows(states)
    ensures Unmanned(states[3], [], [], [])
  {
    assert Steps(SAMPLE, SIGNALLED, states, 0) && Steps(SAMPLE, SIGNALLED, states, 1) && Steps(SAMPLE, SIGNALLED, states, 2);
    WorkerLeaves(states[0], states[1], states[2], states[3]);
  }

  lemma SignalledFirst(states: seq<Sys>)
    requires Follows(states) && Unmanned(states[3], [], [], [])
    ensures Unmanned(states[5], [CONTENT], [Handler(0, true)], [])
  {
    assert Steps(SAMPLE, SIGNALLED, states, 3) && Steps(SAMPLE, SIGNALLED, states, 4);
    Delivers(states[3], states[4], states[5], [], []);
  }

  lemma SignalledSend(states: seq<Sys>)
    requires Follows(states) && Unmanned(states[5], [CONTENT], [Handler(0, true)], [])
    ensures Unmanned(states[6], [CONTENT], [], [0])
  {
    assert Steps(SAMPLE, SIGNALLED, states, 5);
    SentOn(states[5], states[6]);
  }

  lemma SignalledSecond(states: seq<Sys>)
    requires Follows(states) && Unmanned(states[6], [CONTENT], [], [0])
    ensures Unmanned(states[8], [CONTENT, CONTENT], [Handler(1, true)], [0])
  {
    assert Steps(SAMPLE, SIGNALLED, states, 6) && Steps(SAMPLE, SIGNALLED, states, 7);
    Delivers(states[6], states[7], states[8], [CONTENT], [0]);
  }

  lemma SignalledStops(states: seq<Sys>)
    requires Follows(states) && Unmanned(states[8], [CONTENT, CONTENT], [Handler(1, true)], [0])
    ensures Unmanned(states[9].(stopping := false), [CONTENT, CONTENT], [Handler(1, true)], [0]) && states[9].stopping
  {
    assert Steps(SAMPLE, SIGNALLED, states, 8);
  }

  /** The second message is in a Submit that no step but Close ends. */
  lemma SignalStrandsASubmit()
    ensures var s := Play(SAMPLE, Begin(1, {}, []), SIGNALLED);
            && s.stopping && s.handlers == [Handler(1, true)]
            && forall actions :: NoClose(actions) ==> Play(SAMPLE, s, actions).handlers != []
  {
    var states := Trace(SAMPLE, Begin(1, {}, []), SIGNALLED);
    SignalledLeaves(states);
    SignalledFirst(states);
    SignalledSend(states);
    SignalledSecond(states);
    SignalledStops(states);
    NeedyOne(states[9].content, Handler(1, true));
    ContentCounts();
    StopEndsIff(SAMPLE, states[9]);
  }
}
