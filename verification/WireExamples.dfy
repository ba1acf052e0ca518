/** A composed run in which the agent takes an ack for a batch that it does not answer, and drops a
    batch that nobody stored. */
module WireExamples {
  import opened Prelude
  import opened Sequences
  import opened SpoolQueue
  import opened ShipperModel
  import opened ShipperExamples
  import opened Collector
  import opened Wire

  const BOUNDS := Bounds(1, 1)
  const ENCODES := Verdict(true, n => true, true)
  const FAILS := Verdict(true, n => true, false)

  /** Line 0 and line 1 go out as a batch each. The collector cannot encode batch 0 and answers
      INTERNAL; it stores batch 1 and answers ACCEPTED. Only then does the agent read the two acks. */
  const STRAY := [
    Agent(UP), Agent(Arrive(GOOD)), Agent(Arrive(NEXT)),
    Receive(FAILS), Receive(ENCODES), TakeJob, EndPublish(0, Stored), Reply,
    Deliver(9), Deliver(9)]

  /** nets[k] is what the first k actions make of net. */
  ghost predicate Traces(cfg: Config, net: Net, actions: seq<Action>, nets: seq<Net>) {
    && |nets| == |actions| + 1 && nets[0] == net && nets[|actions|] == NetRun(cfg, BOUNDS, net, actions)
    && (forall k :: 0 <= k < |actions| ==> Follows(cfg, nets, actions, k))
    && (forall k :: 0 <= k < |actions| && Misanswers(nets[k], actions[k]) ==> SomeMisanswer(cfg, BOUNDS, net, actions))
  }

  ghost predicate Follows(cfg: Config, nets: seq<Net>, actions: seq<Action>, k: nat)
    requires k < |actions| < |nets|
  {
    nets[k + 1] == NetStep(cfg, BOUNDS, nets[k], actions[k])
  }

  lemma {:induction false} Trace(cfg: Config, net: Net, actions: seq<Action>) returns (nets: seq<Net>)
    ensures Traces(cfg, net, actions, nets)
    decreases |actions|
  {
    if actions == [] {
      nets := [net];
    } else {
      var last := |actions| - 1;
      var before := Trace(cfg, net, actions[..last]);
      nets := before + [NetStep(cfg, BOUNDS, before[last], actions[last])];
      OneMore(cfg, net, actions, before, nets);
    }
  }

  lemma OneMore(cfg: Config, net: Net, actions: seq<Action>, before: seq<Net>, nets: seq<Net>)
    requires actions != [] && Traces(cfg, net, actions[..|actions| - 1], before)
    requires nets == before + [NetStep(cfg, BOUNDS, before[|actions| - 1], actions[|actions| - 1])]
    ensures Traces(cfg, net, actions, nets)
  {
    forall k | 0 <= k < |actions|
      ensures Follows(cfg, nets, actions, k)
      ensures Misanswers(nets[k], actions[k]) ==> SomeMisanswer(cfg, BOUNDS, net, actions)
    {
      if k < |actions| - 1 {
        EarlierStep(cfg, net, actions, before, nets, k);
      } else {
        LastStep(cfg, net, actions, before);
      }
    }
  }

  lemma EarlierStep(cfg: Config, net: Net, actions: seq<Action>, before: seq<Net>, nets: seq<Net>, k: nat)
    requires k < |actions| - 1 && Traces(cfg, net, actions[..|actions| - 1], before)
    requires |nets| == |before| + 1 && nets[..|before|] == before
    ensures Follows(cfg, nets, actions, k)
    ensures Misanswers(nets[k], actions[k]) ==> SomeMisanswer(cfg, BOUNDS, net, actions)
  {
    assert Follows(cfg, before, actions[..|actions| - 1], k);
    assert actions[..|actions| - 1][k] == actions[k];
    assert nets[..|before|][k] == nets[k] && nets[..|before|][k + 1] == nets[k + 1];
  }

  lemma LastStep(cfg: Config, net: Net, actions: seq<Action>, before: seq<Net>)
    requires actions != [] && Traces(cfg, net, actions[..|actions| - 1], before)
    ensures Misanswers(before[|actions| - 1], actions[|actions| - 1]) ==> SomeMisanswer(cfg, BOUNDS, net, actions)
  {
  }

  /** Everything but the agent is as at the start. */
  ghost predicate Unheard(net: Net) {
    net.acks == [] && net.answered == 0 && net.handler == Idle && net.credited == [] && net.pipeline == EmptyPipeline
  }

  lemma AgentMoves(cfg: Config, net: Net, next: Net, input: Input)
    requires !input.event.AckArrives? && Unheard(net)
    requires next == NetStep(cfg, BOUNDS, net, Agent(input))
    ensures Unheard(next) && next.agent == Step(cfg, net.agent, input)
  {
  }

  /** Both batches are out and unanswered. */
  predicate BothOut(st: State) {
    && st.connected && !st.paused && st.spool == EmptyQueue && st.meta == [] && st.sent == [Single(0), Single(1)]
    && st.pending == [Outstanding(Single(0), At(0, GOOD), false), Outstanding(Single(1), At(1, NEXT), false)]
  }

  lemma SecondGoesOut(cfg: Config, st: State)
    requires st.accums == map[] && st.batchSeq == 1 && |st.log.lines| == 1 && Plain(cfg, NEXT) && cfg.ackWindow == 2
    requires st.connected && !st.paused && st.spool == EmptyQueue && st.meta == [] && st.sent == [Single(0)]
    requires st.pending == [Outstanding(Single(0), At(0, GOOD), false)]
    ensures BothOut(Step(cfg, st, Arrive(NEXT)))
  {
    LineIsDispatched(cfg, st, NEXT);
    Sends(cfg, Built(st, NEXT), Single(1), At(1, NEXT));
  }

  lemma AgentStarts(n0: Net, n1: Net, n2: Net, n3: Net)
    requires var cfg := Sample(ROOMY, 2);
             && n0 == NetStart(cfg, EmptyQueue, map[])
             && n1 == NetStep(cfg, BOUNDS, n0, Agent(UP)) && n2 == NetStep(cfg, BOUNDS, n1, Agent(Arrive(GOOD)))
             && n3 == NetStep(cfg, BOUNDS, n2, Agent(Arrive(NEXT)))
    ensures Unheard(n3) && BothOut(n3.agent)
  {
    var cfg := Sample(ROOMY, 2);
    AgentMoves(cfg, n0, n1, UP);
    AgentMoves(cfg, n1, n2, Arrive(GOOD));
    AgentMoves(cfg, n2, n3, Arrive(NEXT));
    RunTwo(cfg, n0.agent, UP, Arrive(GOOD));
    BothGoOut(n2.agent, n3.agent);
  }

  lemma BothGoOut(st2: State, st3: State)
    requires st2 == FirstSent(2) && st3 == Step(Sample(ROOMY, 2), st2, Arrive(NEXT))
    ensures BothOut(st3)
  {
    FirstIsSent(2);
    SecondGoesOut(Sample(ROOMY, 2), st2);
  }

  /** The collector has answered both. */
  ghost predicate BothAnswered(net: Net) {
    && net.acks == [Ack(0, INTERNAL), Ack(1, ACCEPTED)] && net.answered == 0 && net.credited == []
    && net.pipeline.published == [0] && net.pipeline.jobs == map[0 := JobOf(Single(1), ENCODES)]
  }

  lemma FirstRefused(cfg: Config, net: Net)
    requires Unheard(net) && BothOut(net.agent)
    ensures NetStep(cfg, BOUNDS, net, Receive(FAILS)) == net.(acks := [Ack(0, INTERNAL)])
  {
    assert Single(0).records == [0];
    PayloadIsFiltered(Single(0), FAILS);
  }

  lemma SecondQueued(cfg: Config, net: Net)
    requires net.acks == [Ack(0, INTERNAL)] && Unheard(net.(acks := [])) && BothOut(net.agent)
    ensures NetStep(cfg, BOUNDS, net, Receive(ENCODES))
         == net.(handler := Awaits(0), pipeline := Pipeline(map[0 := JobOf(Single(1), ENCODES)], [0], [], map[], [], 1, false))
  {
    assert Single(1).records == [1];
    PayloadIsFiltered(Single(1), ENCODES);
    assert net.agent.sent[Handled(net)] == Single(1);
  }

  lemma SecondStored(cfg: Config, net: Net)
    requires net.pipeline == Pipeline(map[0 := JobOf(Single(1), ENCODES)], [0], [], map[], [], 1, false)
    ensures NetStep(cfg, BOUNDS, NetStep(cfg, BOUNDS, net, TakeJob), EndPublish(0, Stored))
         == net.(pipeline := Pipeline(map[0 := JobOf(Single(1), ENCODES)], [], [], map[0 := Stored], [0], 1, false))
  {
    var q := [0];
    assert q[1..] == [] && [] + [0] == [0];
    assert Without([0], 0) == [];
    var one := NetStep(cfg, BOUNDS, net, TakeJob);
    assert one.pipeline.queue == [] && one.pipeline.busy == [0];
  }

  lemma SecondReplied(cfg: Config, net: Net)
    requires net.agent.connected && net.handler == Awaits(0) && net.answered == 0 && net.acks == [Ack(0, INTERNAL)]
    requires net.pipeline == Pipeline(map[0 := JobOf(Single(1), ENCODES)], [], [], map[0 := Stored], [0], 1, false)
    ensures NetStep(cfg, BOUNDS, net, Reply) == net.(acks := [Ack(0, INTERNAL), Ack(1, ACCEPTED)], handler := Idle)
  {
  }

  lemma CollectorAnswers(cfg: Config, n3: Net, n4: Net, n5: Net, n6: Net, n7: Net, n8: Net)
    requires Unheard(n3) && BothOut(n3.agent)
    requires n4 == NetStep(cfg, BOUNDS, n3, Receive(FAILS)) && n5 == NetStep(cfg, BOUNDS, n4, Receive(ENCODES))
    requires n6 == NetStep(cfg, BOUNDS, n5, TakeJob) && n7 == NetStep(cfg, BOUNDS, n6, EndPublish(0, Stored))
    requires n8 == NetStep(cfg, BOUNDS, n7, Reply)
    ensures BothAnswered(n8) && BothOut(n8.agent)
  {
    FirstRefused(cfg, n3);
    SecondQueued(cfg, n4);
    SecondStored(cfg, n5);
    SecondReplied(cfg, n7);
  }

  /** INTERNAL spools both batches and sends the first of them again at once. */
  lemma BothDemoted(st: State)
    requires BothOut(st)
    ensures var r := DemoteAll(Sample(ROOMY, 2), st);
            && r.connected && !r.paused && r.pending == [] && r.sent == st.sent && r.sendsLeft == st.sendsLeft
            && Len(r.spool) == 2 && r.spool.Fifo()[0] == Pack(Single(0))
  {
    var cfg := Sample(ROOMY, 2);
    FirstFits(ROOMY, 2, 0);
    FirstFits(ROOMY, 2, 1);
    var st0 := NoteReorder(st);
    var st1 := AppendToSpool(cfg, st0, Single(0), At(0, GOOD));
    var st2 := AppendToSpool(cfg, st1, Single(1), At(1, NEXT));
    SpooledAlone(ROOMY, 2, st0, 0, At(0, GOOD));
    OneEntry(Pack(Single(0)));
    StaysWhole(ROOMY, Alone(0), Pack(Single(1)));
    assert st.pending[1..] == [st.pending[1]];
    OneDemoted(cfg, st1, st.pending[1]);
    assert Demote(cfg, st0, st.pending) == st2;
  }

  lemma FirstSentAgain(cfg: Config, st: State)
    requires st.connected && !st.paused && st.pending == [] && st.sendsLeft > 0
    requires Len(st.spool) > 0 && cfg.unmarshal(st.spool.Fifo()[0]) == Some(Single(0))
    ensures var r := TryDrain(cfg, st);
            r.connected && r.sent == st.sent + [Single(0)] && |r.pending| == 1 && r.pending[0].batch == Single(0)
  {
  }

  lemma InternalResends(st: State)
    requires BothOut(st)
    ensures var r := Step(Sample(ROOMY, 2), st, Input(AckArrives(INTERNAL), 9));
            && r.connected && r.sent == [Single(0), Single(1), Single(0)]
            && |r.pending| == 1 && r.pending[0].batch == Single(0)
  {
    var st1 := st.(sendsLeft := 9);
    BothDemoted(st1);
    FirstFits(ROOMY, 2, 0);
    FirstSentAgain(Sample(ROOMY, 2), DemoteAll(Sample(ROOMY, 2), st1));
  }

  lemma FirstAckTaken(net: Net)
    requires BothAnswered(net) && BothOut(net.agent)
    ensures var r := NetStep(Sample(ROOMY, 2), BOUNDS, net, Deliver(9));
            && r.acks == [Ack(1, ACCEPTED)] && r.answered == 1 && r.credited == [] && r.pipeline == net.pipeline
            && r.agent.connected && r.agent.sent == [Single(0), Single(1), Single(0)]
            && |r.agent.pending| == 1 && r.agent.pending[0].batch == Single(0)
  {
    InternalResends(net.agent);
    DeliverFirst(Sample(ROOMY, 2), net, Step(Sample(ROOMY, 2), net.agent, Input(AckArrives(INTERNAL), 9)));
  }

  lemma DeliverFirst(cfg: Config, net: Net, st: State)
    requires BothAnswered(net) && net.agent.connected
    requires st == Step(cfg, net.agent, Input(AckArrives(INTERNAL), 9)) && st.connected
    ensures var r := NetStep(cfg, BOUNDS, net, Deliver(9));
            && r.acks == [Ack(1, ACCEPTED)] && r.answered == 1 && r.credited == [] && r.pipeline == net.pipeline
            && r.agent == st
  {
    assert net.acks[1..] == [Ack(1, ACCEPTED)];
  }

  lemma SecondAckTaken(net: Net)
    requires net.acks == [Ack(1, ACCEPTED)] && net.credited == [] && net.agent.connected
    requires |net.agent.pending| == 1 && net.agent.pending[0].batch == Single(0)
    ensures var r := NetStep(Sample(ROOMY, 2), BOUNDS, net, Deliver(9));
            r.credited == [Single(0)] && r.pipeline == net.pipeline
  {
  }

  /** The answer to batch 1 is taken for batch 0, which is settled as accepted; the broker holds
      nothing of it. */
  lemma StrayAckLosesABatch()
    ensures var cfg := Sample(ROOMY, 2);
            var net := NetStart(cfg, EmptyQueue, map[]);
            && SomeMisanswer(cfg, BOUNDS, net, STRAY) && SomeOverdue(cfg, BOUNDS, net, STRAY)
            && NetRun(cfg, BOUNDS, net, STRAY).credited == [Single(0)]
            && !Durable(NetRun(cfg, BOUNDS, net, STRAY).pipeline, Single(0))
  {
    var cfg := Sample(ROOMY, 2);
    var nets := Trace(cfg, NetStart(cfg, EmptyQueue, map[]), STRAY);
    StrayTrace(STRAY, nets);
    SampleIsLossless(ROOMY, 2);
    AcksMatchIff(cfg, BOUNDS, EmptyQueue, map[], STRAY);
  }

  lemma StrayTrace(actions: seq<Action>, nets: seq<Net>)
    requires actions == STRAY && |nets| == 11 && nets[0] == NetStart(Sample(ROOMY, 2), EmptyQueue, map[])
    requires forall k :: 0 <= k < |actions| ==> Follows(Sample(ROOMY, 2), nets, actions, k)
    ensures Misanswers(nets[9], actions[9])
    ensures nets[10].credited == [Single(0)] && !Durable(nets[10].pipeline, Single(0))
  {
    var cfg := Sample(ROOMY, 2);
    assert && Follows(cfg, nets, actions, 0) && Follows(cfg, nets, actions, 1) && Follows(cfg, nets, actions, 2)
           && Follows(cfg, nets, actions, 3) && Follows(cfg, nets, actions, 4) && Follows(cfg, nets, actions, 5)
           && Follows(cfg, nets, actions, 6) && Follows(cfg, nets, actions, 7) && Follows(cfg, nets, actions, 8)
           && Follows(cfg, nets, actions, 9);
    AgentStarts(nets[0], nets[1], nets[2], nets[3]);
    CollectorAnswers(cfg, nets[3], nets[4], nets[5], nets[6], nets[7], nets[8]);
    AcksTaken(nets[8], nets[9], nets[10]);
  }

  lemma AcksTaken(n8: Net, n9: Net, n10: Net)
    requires BothAnswered(n8) && BothOut(n8.agent)
    requires n9 == NetStep(Sample(ROOMY, 2), BOUNDS, n8, Deliver(9))
    requires n10 == NetStep(Sample(ROOMY, 2), BOUNDS, n9, Deliver(9))
    ensures Misanswers(n9, Deliver(9)) && n10.credited == [Single(0)] && !Durable(n10.pipeline, Single(0))
  {
    FirstAckTaken(n8);
    SecondAckTaken(n9);
  }
}
