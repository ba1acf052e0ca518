/** Agent, two FIFO channels and collector put together (internal/agent/shipper.go,
    internal/ingest/handler.go, internal/ingest/pipeline.go): when the ack the agent pops is the
    answer to the batch it pops it for, and that an accepted batch was stored first. */
module Wire {
  import opened SpoolQueue
  import opened ShipperModel
  import opened ShipperLive
  import opened Collector

  /** An ack, with the number of the send on this stream that it answers. */
  datatype Ack = Ack(send: nat, code: AckCode)

  /** `answered` counts the acks the agent has taken off this stream, `credited` lists the batches it
      took to be accepted. `debt` is kept by the rules of Owing below, and nothing reads it. */
  datatype Net = Net(
    agent: State,
    acks: seq<Ack>,
    answered: nat,
    handler: Handler,
    pipeline: Pipeline,
    credited: seq<Batch>,
    debt: int)

  /** The agent's own steps; the handler receiving a batch; another stream's handler submitting one; a
      publisher taking a job, and ending its publish; the handler reading its reply; the agent reading
      an ack; and the pipeline starting to close. */
  datatype Action =
    | Agent(input: Input)
    | Receive(verdict: Verdict)
    | Rival(job: Job)
    | TakeJob
    | EndPublish(i: nat, result: Result)
    | Reply
    | Deliver(sends: nat)
    | Close

  /** Sends the collector has answered. The next one is being handled or comes next. */
  function Handled(net: Net): nat { net.answered + |net.acks| }

  /** Acks, present or to come, for sends the agent no longer waits for. */
  function Strays(net: Net): int { |net.agent.sent| - net.answered - |net.agent.pending| }

  /** A lost stream takes its batches and acks with it, and its handler stops waiting. */
  function Reset(net: Net): Net {
    if net.agent.connected then net else net.(acks := [], answered := 0, handler := Idle, debt := 0)
  }

  predicate Demotes(code: AckCode) {
    code == OVERLOADED || code == INTERNAL
  }

  /** How many acks are owed for batches the agent no longer waits for: an ack that demotes leaves one
      owed for each batch that waited behind the one it answered, and an ack that finds nothing
      waiting pays one. */
  function Owing(debt: int, waiting: nat, code: AckCode): int {
    if waiting == 0 then debt - 1
    else if Demotes(code) then debt + waiting - 1
    else debt
  }

  function SendAck(net: Net, code: AckCode): Net {
    net.(acks := net.acks + [Ack(Handled(net), code)], handler := Idle)
  }

  function Handle(bounds: Bounds, net: Net, b: Batch, verdict: Verdict): Net {
    match Precheck(b, verdict)
    case Some(code) => SendAck(net, code)
    case None =>
      match Submit(bounds, net.pipeline)
      case Refused(code) => SendAck(net, code)
      case Queued(n) => net.(handler := Awaits(n), pipeline := Enqueue(bounds, net.pipeline, JobOf(b, verdict)))
  }

  function DeliverAck(cfg: Config, net: Net, sends: nat): Net
    requires net.acks != []
  {
    var code := net.acks[0].code;
    var waiting := net.agent.pending;
    Reset(net.(
      agent := Step(cfg, net.agent, Input(AckArrives(code), sends)),
      acks := net.acks[1..],
      answered := net.answered + 1,
      debt := Owing(net.debt, |waiting|, code),
      credited := if code == ACCEPTED && waiting != [] then net.credited + [waiting[0].batch] else net.credited))
  }

  predicate CanReply(net: Net) {
    net.agent.connected && net.handler.Awaits? && net.handler.job in net.pipeline.replies
  }

  function NetStep(cfg: Config, bounds: Bounds, net: Net, action: Action): Net {
    match action
    case Agent(input) =>
      if input.event.AckArrives? then net else Reset(net.(agent := Step(cfg, net.agent, input)))
    case Receive(verdict) =>
      if !net.agent.connected || net.handler != Idle || Handled(net) >= |net.agent.sent| then net
      else Handle(bounds, net, net.agent.sent[Handled(net)], verdict)
    case Rival(job) => net.(pipeline := Enqueue(bounds, net.pipeline, job))
    case TakeJob => net.(pipeline := Take(bounds, net.pipeline))
    case EndPublish(i, result) => net.(pipeline := Collector.Finish(net.pipeline, i, result))
    case Reply => if CanReply(net) then SendAck(net, CodeOf(net.pipeline.replies[net.handler.job])) else net
    case Deliver(sends) => if !net.agent.connected || net.acks == [] then net else DeliverAck(cfg, net, sends)
    case Close => net.(pipeline := net.pipeline.(closing := true))
  }

  function NetRun(cfg: Config, bounds: Bounds, net: Net, actions: seq<Action>): Net
    decreases |actions|
  {
    if actions == [] then net
    else NetStep(cfg, bounds, NetRun(cfg, bounds, net, actions[..|actions| - 1]), actions[|actions| - 1])
  }

  function NetStart(cfg: Config, spool: Spool, ck: Cursors): Net {
    Net(Start(cfg, spool, ck), [], 0, Idle, EmptyPipeline, [], 0)
  }

  /** The window is the last batches put on the stream. */
  ghost predicate Suffix(st: State) {
    && |st.pending| <= |st.sent|
    && (forall i :: 0 <= i < |st.pending| ==> st.pending[i].batch == st.sent[|st.sent| - |st.pending| + i])
    && (!st.connected ==> st.sent == [])
  }

  /** From a to b either the stream was lost, or batches were only added to it and k of them left
      the window. */
  ghost predicate Carries(a: State, b: State, k: int) {
    && Suffix(b)
    && (b.connected ==> a.connected && a.sent <= b.sent && |b.sent| - |b.pending| == |a.sent| - |a.pending| + k)
  }

  lemma CarriesTwice(a: State, b: State, c: State, k: int, m: int)
    requires Carries(a, b, k) && Carries(b, c, m)
    ensures Carries(a, c, k + m)
  {
  }

  /** The fields Carries speaks of. */
  predicate SameStream(a: State, b: State) {
    b.sent == a.sent && b.pending == a.pending && b.connected == a.connected
  }

  lemma SameCarries(a: State, b: State)
    requires Suffix(a) && SameStream(a, b)
    ensures Carries(a, b, 0)
  {
  }

  lemma DemoteAllStream(cfg: Config, st: State)
    ensures var r := DemoteAll(cfg, st); r.sent == st.sent && r.connected == st.connected && r.pending == []
  {
    DemoteSame(cfg, NoteReorder(st), st.pending);
  }

  lemma DemoteAllCarries(cfg: Config, st: State)
    requires Suffix(st)
    ensures Carries(st, DemoteAll(cfg, st), |st.pending|) && Carries(st, Overload(cfg, st), |st.pending|)
    ensures !Teardown(cfg, st).connected && Suffix(Teardown(cfg, st))
  {
    DemoteAllStream(cfg, st);
  }

  lemma PushCarries(st: State, o: Outstanding)
    requires Suffix(st) && st.connected
    ensures Carries(st, PushPending(st, o), 0)
  {
  }

  lemma SendNowCarries(cfg: Config, st: State, batch: Batch, cursors: Cursors, fromSpool: bool)
    requires Suffix(st) && st.connected
    ensures Carries(st, SendNow(cfg, st, batch, cursors, fromSpool), 0)
  {
    PushCarries(st, Outstanding(batch, cursors, fromSpool));
    DemoteAllCarries(cfg, PushPending(st, Outstanding(batch, cursors, fromSpool)));
  }

  lemma DispatchCarries(cfg: Config, st: State, batch: Batch, cursors: Cursors)
    requires Suffix(st)
    ensures Carries(st, Dispatch(cfg, st, batch, cursors), 0)
  {
    if MaySend(cfg, st) {
      SendNowCarries(cfg, st, batch, cursors, false);
    } else {
      SameCarries(st, Dispatch(cfg, st, batch, cursors));
    }
  }

  lemma {:induction false} DrainLoopCarries(cfg: Config, st: State)
    requires Suffix(st) && st.connected
    ensures Carries(st, DrainLoop(cfg, st), 0)
    decreases Len(st.spool)
  {
    if Len(st.spool) > 0 {
      match cfg.unmarshal(st.spool.Fifo()[0])
      case None =>
        ReleaseRefines(st.spool);
        SameCarries(st, DropCorrupt(cfg, st));
        DrainLoopCarries(cfg, DropCorrupt(cfg, st));
        CarriesTwice(st, DropCorrupt(cfg, st), DrainLoop(cfg, DropCorrupt(cfg, st)), 0, 0);
      case Some(b) =>
        SendNowCarries(cfg, st, b, FrontMeta(st), true);
    }
  }

  lemma TryDrainCarries(cfg: Config, st: State)
    requires Suffix(st)
    ensures Carries(st, TryDrain(cfg, st), 0)
  {
    if st.connected {
      DrainLoopCarries(cfg, st);
    }
  }

  /** How many batches an ack takes out of the window. */
  function Taken(st: State, code: AckCode): nat {
    if st.pending == [] then 0 else if Demotes(code) then |st.pending| else 1
  }

  lemma SettleCarries(cfg: Config, st: State, accepted: bool)
    requires Suffix(st) && st.pending != []
    ensures Carries(st, if accepted then Accept(cfg, st) else Refuse(cfg, st), 1)
  {
    var r := if accepted then Accept(cfg, st) else Refuse(cfg, st);
    assert r.sent == st.sent && r.connected == st.connected && r.pending == st.pending[1..];
  }

  lemma ApplyAckCarries(cfg: Config, st: State, code: AckCode)
    requires Suffix(st) && st.pending != []
    ensures Carries(st, ApplyAck(cfg, st, code), Taken(st, code))
  {
    match code
    case ACCEPTED => SettleCarries(cfg, st, true);
    case INVALID => SettleCarries(cfg, st, false);
    case OVERLOADED => DemoteAllCarries(cfg, st);
    case INTERNAL => DemoteAllCarries(cfg, st);
  }

  lemma ProcessAckCarries(cfg: Config, st: State, code: AckCode)
    requires Suffix(st)
    ensures Carries(st, ProcessAck(cfg, st, code), Taken(st, code))
  {
    if st.pending != [] {
      ApplyAckCarries(cfg, st, code);
      TryDrainCarries(cfg, ApplyAck(cfg, st, code));
      CarriesTwice(st, ApplyAck(cfg, st, code), ProcessAck(cfg, st, code), Taken(st, code), 0);
    }
  }

  lemma FlushAccumCarries(cfg: Config, st: State, id: StreamID)
    requires Suffix(st)
    ensures Carries(st, FlushAccum(cfg, st, id), 0)
  {
    if id in st.accums {
      if st.accums[id].records == [] {
        SameCarries(st, FlushEmpty(st, id));
      } else {
        SameCarries(st, TakeBatch(st, id));
        DispatchCarries(cfg, TakeBatch(st, id), BuildBatch(st, id), st.accums[id].cursors);
        CarriesTwice(st, TakeBatch(st, id), FlushAccum(cfg, st, id), 0, 0);
      }
    }
  }

  lemma MakeRoomCarries(cfg: Config, st: State, id: StreamID, line: Line, now: nat)
    requires Suffix(st)
    ensures Carries(st, MakeRoom(cfg, st, id, line, now), 0)
  {
    var st1 := EnsureAccum(cfg, st, id, now);
    SameCarries(st, st1);
    if NoRoom(cfg, st1, id, line) {
      var st2 := FlushAccum(cfg, st1, id);
      FlushAccumCarries(cfg, st1, id);
      CarriesTwice(st, st1, st2, 0, 0);
      SameCarries(st2, ResetAccum(cfg, st2, id, now));
      CarriesTwice(st, st2, ResetAccum(cfg, st2, id, now), 0, 0);
    }
  }

  lemma FoldCarries(cfg: Config, st: State, id: StreamID, line: Line, now: nat)
    requires Suffix(st)
    ensures Carries(st, Fold(cfg, MakeRoom(cfg, st, id, line, now), id, line), 0)
  {
    var st1 := MakeRoom(cfg, st, id, line, now);
    MakeRoomCarries(cfg, st, id, line, now);
    SameCarries(st1, Fold(cfg, st1, id, line));
    CarriesTwice(st, st1, Fold(cfg, st1, id, line), 0, 0);
  }

  lemma AddLineCarries(cfg: Config, st: State, line: Line, now: nat)
    requires Suffix(st)
    ensures Carries(st, AddLine(cfg, st, line, now), 0)
  {
    match cfg.labels(line.source)
    case None => SameCarries(st, TurnAway(st, line));
    case Some(id) =>
      var st1 := Fold(cfg, MakeRoom(cfg, st, id, line, now), id, line);
      FoldCarries(cfg, st, id, line, now);
      FlushAccumCarries(cfg, st1, id);
      SameCarries(st1, st1);
      CarriesTwice(st, st1, FlushIfFull(cfg, st1, id), 0, 0);
  }

  lemma {:induction false} FlushEachCarries(cfg: Config, st: State, ids: seq<StreamID>)
    requires Suffix(st)
    ensures Carries(st, FlushEach(cfg, st, ids), 0)
    decreases |ids|
  {
    if ids != [] {
      var st1 := FlushAccum(cfg, st, ids[0]);
      FlushAccumCarries(cfg, st, ids[0]);
      FlushEachCarries(cfg, st1, ids[1..]);
      CarriesTwice(st, st1, FlushEach(cfg, st1, ids[1..]), 0, 0);
    }
  }

  /** The stream was just opened, was lost, or only took batches. */
  ghost predicate Continues(a: State, b: State) {
    Carries(a, b, 0) || (!a.connected && Suffix(b) && |b.sent| == |b.pending|)
  }

  lemma DrainedOpen(cfg: Config, st: State)
    requires Timed(st) && !st.connected
    ensures var r := TryDrain(cfg, OpenStream(st)); Suffix(r) && |r.sent| == |r.pending|
  {
    TryDrainCarries(cfg, OpenStream(st));
    TryDrainLive(cfg, OpenStream(st));
  }

  /** Every step but an ack. */
  lemma ReactCarries(cfg: Config, st: State, event: Event)
    requires Live(st) && Suffix(st) && !event.AckArrives?
    ensures Continues(st, React(cfg, st, event))
  {
    SameCarries(st, st);
    match event
    case LineArrives(line, now) => AddLineCarries(cfg, st, line, now);
    case AccumTimer(due) => FlushEachCarries(cfg, st, due);
    case RetryTimer(ok) => if st.retryArmed && ok { DrainedOpen(cfg, st); }
    case PauseTimer => if st.pauseArmed { ResumeCarries(cfg, st); }
    case StreamEnds => DemoteAllCarries(cfg, st);
    case CommitTick =>
  }

  lemma ResumeCarries(cfg: Config, st: State)
    requires Suffix(st)
    ensures Carries(st, TryDrain(cfg, Resume(st)), 0)
  {
    SameCarries(st, Resume(st));
    TryDrainCarries(cfg, Resume(st));
    CarriesTwice(st, Resume(st), TryDrain(cfg, Resume(st)), 0, 0);
  }

  lemma StepCarries(cfg: Config, st: State, input: Input)
    requires Live(st) && Suffix(st) && !input.event.AckArrives?
    ensures Continues(st, Step(cfg, st, input))
  {
    var st1 := st.(sendsLeft := input.sends);
    SameCarries(st, st1);
    ReactCarries(cfg, st1, input.event);
    if Carries(st1, Step(cfg, st, input), 0) {
      CarriesTwice(st, st1, Step(cfg, st, input), 0, 0);
    }
  }

  lemma AckCarries(cfg: Config, st: State, code: AckCode, sends: nat)
    requires Suffix(st) && st.connected
    ensures Carries(st, Step(cfg, st, Input(AckArrives(code), sends)), Taken(st, code))
  {
    var st1 := st.(sendsLeft := sends);
    SameCarries(st, st1);
    ProcessAckCarries(cfg, st1, code);
    CarriesTwice(st, st1, ProcessAck(cfg, st1, code), 0, Taken(st, code));
  }

  /** The broker has stored the batch's valid records, and there are some. */
  ghost predicate HoldsBatch(p: Pipeline, n: nat, b: Batch) {
    n in p.jobs && p.jobs[n].batch == b && Filtered(p.jobs[n]) && p.jobs[n].payload != []
  }

  ghost predicate Durable(p: Pipeline, b: Batch) {
    exists n :: n in p.published && HoldsBatch(p, n, b)
  }

  /** Nothing the broker stored is forgotten. */
  ghost predicate Retains(p: Pipeline, r: Pipeline) {
    && (forall n :: n in p.jobs ==> n in r.jobs && r.jobs[n] == p.jobs[n])
    && (forall n :: n in p.published ==> n in r.published)
    && (forall n :: n in p.replies ==> n in r.replies && r.replies[n] == p.replies[n])
  }

  lemma StillDurable(p: Pipeline, r: Pipeline, b: Batch)
    requires Retains(p, r) && Durable(p, b)
    ensures Durable(r, b)
  {
    var n :| n in p.published && HoldsBatch(p, n, b);
    assert HoldsBatch(r, n, b);
  }

  ghost predicate Truthful(net: Net) {
    forall i :: 0 <= i < |net.acks| ==> TruthfulAck(net, i)
  }

  /** Acks come in the order of the sends, and ACCEPTED means stored. */
  ghost predicate TruthfulAck(net: Net, i: nat)
    requires i < |net.acks|
  {
    && net.acks[i].send == net.answered + i < |net.agent.sent|
    && (net.acks[i].code == ACCEPTED ==> Durable(net.pipeline, net.agent.sent[net.answered + i]))
  }

  /** The handler waits for a job made of the batch it is handling. */
  ghost predicate Attentive(net: Net) {
    net.handler.Awaits? ==>
      && net.agent.connected && Handled(net) < |net.agent.sent|
      && HoldsBatch(net.pipeline, net.handler.job, net.agent.sent[Handled(net)])
  }

  ghost predicate NetInv(cfg: Config, bounds: Bounds, net: Net) {
    && Live(net.agent) && Suffix(net.agent)
    && Kept(bounds, net.pipeline)
    && (!net.agent.connected ==> net.acks == [] && net.answered == 0)
    && Handled(net) <= |net.agent.sent|
    && Strays(net) == net.debt >= 0
    && Truthful(net) && Attentive(net)
  }

  lemma AgentInv(cfg: Config, bounds: Bounds, net: Net, input: Input)
    requires cfg.Ok() && NetInv(cfg, bounds, net) && !input.event.AckArrives?
    ensures NetInv(cfg, bounds, NetStep(cfg, bounds, net, Agent(input)))
  {
    var st := Step(cfg, net.agent, input);
    StepLive(cfg, net.agent, input);
    StepCarries(cfg, net.agent, input);
    AgentNet(cfg, bounds, net, st);
  }

  lemma AgentNet(cfg: Config, bounds: Bounds, net: Net, st: State)
    requires NetInv(cfg, bounds, net) && Live(st) && Suffix(st) && Continues(net.agent, st)
    ensures NetInv(cfg, bounds, Reset(net.(agent := st)))
  {
    var r := Reset(net.(agent := st));
    if st.connected && net.agent.connected {
      forall i | 0 <= i < |r.acks|
        ensures TruthfulAck(r, i)
      {
        assert TruthfulAck(net, i);
      }
    }
  }

  /** The pipeline moves on and the rest stays. */
  lemma PipelineInv(cfg: Config, bounds: Bounds, net: Net, p: Pipeline)
    requires NetInv(cfg, bounds, net) && Kept(bounds, p) && Retains(net.pipeline, p)
    ensures NetInv(cfg, bounds, net.(pipeline := p))
  {
    var r := net.(pipeline := p);
    forall i | 0 <= i < |r.acks|
      ensures TruthfulAck(r, i)
    {
      assert TruthfulAck(net, i);
      if r.acks[i].code == ACCEPTED {
        StillDurable(net.pipeline, p, net.agent.sent[net.answered + i]);
      }
    }
  }

  lemma EnqueueRetains(bounds: Bounds, p: Pipeline, job: Job)
    requires Kept(bounds, p)
    ensures Retains(p, Enqueue(bounds, p, job))
  {
  }

  lemma FinishRetains(bounds: Bounds, p: Pipeline, i: nat, r: Result)
    requires Kept(bounds, p)
    ensures Retains(p, Collector.Finish(p, i, r))
  {
    if i < |p.busy| {
      assert p.busy[i] in p.busy;
    }
  }

  /** An ack is sent for the batch being handled. */
  lemma SendAckInv(cfg: Config, bounds: Bounds, net: Net, code: AckCode)
    requires NetInv(cfg, bounds, net) && net.agent.connected && Handled(net) < |net.agent.sent|
    requires code == ACCEPTED ==> Durable(net.pipeline, net.agent.sent[Handled(net)])
    ensures NetInv(cfg, bounds, SendAck(net, code))
  {
    var r := SendAck(net, code);
    forall i | 0 <= i < |r.acks|
      ensures TruthfulAck(r, i)
    {
      if i < |net.acks| {
        assert TruthfulAck(net, i);
      }
    }
  }

  lemma QueuedInv(cfg: Config, bounds: Bounds, net: Net, verdict: Verdict)
    requires NetInv(cfg, bounds, net) && net.agent.connected && net.handler == Idle && Handled(net) < |net.agent.sent|
    requires Precheck(net.agent.sent[Handled(net)], verdict).None? && Submit(bounds, net.pipeline).Queued?
    ensures NetInv(cfg, bounds, Handle(bounds, net, net.agent.sent[Handled(net)], verdict))
  {
    var job := JobOf(net.agent.sent[Handled(net)], verdict);
    var p := Enqueue(bounds, net.pipeline, job);
    EnqueueKeeps(bounds, net.pipeline, job);
    EnqueueRetains(bounds, net.pipeline, job);
    PipelineInv(cfg, bounds, net, p);
    PayloadIsFiltered(job.batch, verdict);
    assert HoldsBatch(p, net.pipeline.next, job.batch);
    AwaitInv(cfg, bounds, net.(pipeline := p), net.pipeline.next);
  }

  lemma AwaitInv(cfg: Config, bounds: Bounds, net: Net, n: nat)
    requires NetInv(cfg, bounds, net) && net.agent.connected && Handled(net) < |net.agent.sent|
    requires HoldsBatch(net.pipeline, n, net.agent.sent[Handled(net)])
    ensures NetInv(cfg, bounds, net.(handler := Awaits(n)))
  {
    var r := net.(handler := Awaits(n));
    forall i | 0 <= i < |r.acks|
      ensures TruthfulAck(r, i)
    {
      assert TruthfulAck(net, i);
    }
  }

  lemma ReceiveInv(cfg: Config, bounds: Bounds, net: Net, verdict: Verdict)
    requires NetInv(cfg, bounds, net) && net.agent.connected && net.handler == Idle && Handled(net) < |net.agent.sent|
    ensures NetInv(cfg, bounds, Handle(bounds, net, net.agent.sent[Handled(net)], verdict))
  {
    var b := net.agent.sent[Handled(net)];
    match Precheck(b, verdict)
    case Some(code) => SendAckInv(cfg, bounds, net, code);
    case None =>
      match Submit(bounds, net.pipeline) {
        case Refused(code) => SendAckInv(cfg, bounds, net, code);
        case Queued(n) => QueuedInv(cfg, bounds, net, verdict);
      }
  }

  /** The reply of a stored job: the batch is durable before the ack is sent. */
  lemma ReplyInv(cfg: Config, bounds: Bounds, net: Net)
    requires NetInv(cfg, bounds, net) && CanReply(net)
    ensures NetInv(cfg, bounds, SendAck(net, CodeOf(net.pipeline.replies[net.handler.job])))
  {
    var n := net.handler.job;
    if CodeOf(net.pipeline.replies[n]) == ACCEPTED {
      assert n in net.pipeline.published && HoldsBatch(net.pipeline, n, net.agent.sent[Handled(net)]);
    }
    SendAckInv(cfg, bounds, net, CodeOf(net.pipeline.replies[n]));
  }

  lemma DeliverInv(cfg: Config, bounds: Bounds, net: Net, sends: nat)
    requires cfg.Ok() && NetInv(cfg, bounds, net) && net.agent.connected && net.acks != []
    ensures NetInv(cfg, bounds, DeliverAck(cfg, net, sends))
  {
    var code := net.acks[0].code;
    StepLive(cfg, net.agent, Input(AckArrives(code), sends));
    AckCarries(cfg, net.agent, code, sends);
    assert TruthfulAck(net, 0);
    DeliverNet(cfg, bounds, net, Step(cfg, net.agent, Input(AckArrives(code), sends)), DeliverAck(cfg, net, sends));
  }

  lemma DeliverNet(cfg: Config, bounds: Bounds, net: Net, st: State, r: Net)
    requires NetInv(cfg, bounds, net) && Live(st) && net.acks != [] && net.answered < |net.agent.sent|
    requires Carries(net.agent, st, Taken(net.agent, net.acks[0].code))
    requires r == Reset(net.(agent := st, acks := net.acks[1..], answered := net.answered + 1,
                             debt := Owing(net.debt, |net.agent.pending|, net.acks[0].code), credited := r.credited))
    ensures NetInv(cfg, bounds, r)
  {
    forall i | 0 <= i < |r.acks|
      ensures TruthfulAck(r, i)
    {
      assert TruthfulAck(net, i + 1);
    }
  }

  lemma NetStepInv(cfg: Config, bounds: Bounds, net: Net, action: Action)
    requires cfg.Ok() && NetInv(cfg, bounds, net)
    ensures NetInv(cfg, bounds, NetStep(cfg, bounds, net, action))
  {
    match action
    case Agent(input) => if !input.event.AckArrives? { AgentInv(cfg, bounds, net, input); }
    case Receive(verdict) =>
      if net.agent.connected && net.handler == Idle && Handled(net) < |net.agent.sent| {
        ReceiveInv(cfg, bounds, net, verdict);
      }
    case Rival(job) =>
      EnqueueKeeps(bounds, net.pipeline, job);
      EnqueueRetains(bounds, net.pipeline, job);
      PipelineInv(cfg, bounds, net, Enqueue(bounds, net.pipeline, job));
    case TakeJob =>
      TakeKeeps(bounds, net.pipeline);
      PipelineInv(cfg, bounds, net, Take(bounds, net.pipeline));
    case EndPublish(i, result) =>
      FinishKeeps(bounds, net.pipeline, i, result);
      FinishRetains(bounds, net.pipeline, i, result);
      PipelineInv(cfg, bounds, net, Collector.Finish(net.pipeline, i, result));
    case Reply => if CanReply(net) { ReplyInv(cfg, bounds, net); }
    case Deliver(sends) => if net.agent.connected && net.acks != [] { DeliverInv(cfg, bounds, net, sends); }
    case Close => PipelineInv(cfg, bounds, net, net.pipeline.(closing := true));
  }

  lemma StartInv(cfg: Config, bounds: Bounds, spool: Spool, ck: Cursors)
    ensures NetInv(cfg, bounds, NetStart(cfg, spool, ck))
  {
    assert Kept(bounds, EmptyPipeline);
  }

  lemma {:induction false} EveryNetRun(cfg: Config, bounds: Bounds, spool: Spool, ck: Cursors, actions: seq<Action>)
    requires cfg.Ok()
    ensures NetInv(cfg, bounds, NetRun(cfg, bounds, NetStart(cfg, spool, ck), actions))
    decreases |actions|
  {
    if actions == [] {
      StartInv(cfg, bounds, spool, ck);
    } else {
      EveryNetRun(cfg, bounds, spool, ck, actions[..|actions| - 1]);
      NetStepInv(cfg, bounds, NetRun(cfg, bounds, NetStart(cfg, spool, ck), actions[..|actions| - 1]),
                 actions[|actions| - 1]);
    }
  }

  /** In every composed run, over a bounded queue shared with other streams, publishers that fail or
      outlive their client, and a pipeline that closes: an ACCEPTED ack on the stream means that the
      broker holds the valid records of the batch sent at its position. */
  lemma AcceptedMeansStored(cfg: Config, bounds: Bounds, spool: Spool, ck: Cursors, actions: seq<Action>, i: nat)
    requires cfg.Ok()
    requires var net := NetRun(cfg, bounds, NetStart(cfg, spool, ck), actions);
             i < |net.acks| && net.acks[i].code == ACCEPTED
    ensures var net := NetRun(cfg, bounds, NetStart(cfg, spool, ck), actions);
            net.acks[i].send < |net.agent.sent| && Durable(net.pipeline, net.agent.sent[net.acks[i].send])
  {
    EveryNetRun(cfg, bounds, spool, ck, actions);
    Truth(cfg, bounds, NetRun(cfg, bounds, NetStart(cfg, spool, ck), actions), i);
  }

  lemma Truth(cfg: Config, bounds: Bounds, net: Net, i: nat)
    requires NetInv(cfg, bounds, net) && i < |net.acks| && net.acks[i].code == ACCEPTED
    ensures net.acks[i].send < |net.agent.sent| && Durable(net.pipeline, net.agent.sent[net.acks[i].send])
  {
    assert TruthfulAck(net, i);
  }

  /** The agent takes an ack for a batch that it does not answer. */
  predicate Misanswers(net: Net, action: Action) {
    && action.Deliver? && net.agent.connected && net.acks != [] && net.agent.pending != []
    && net.acks[0].send != |net.agent.sent| - |net.agent.pending|
  }

  predicate SomeMisanswer(cfg: Config, bounds: Bounds, net: Net, actions: seq<Action>)
    decreases |actions|
  {
    actions != [] &&
    (var last := |actions| - 1;
     || SomeMisanswer(cfg, bounds, net, actions[..last])
     || Misanswers(NetRun(cfg, bounds, net, actions[..last]), actions[last]))
  }

  /** An ack arrives, and finds a batch waiting, while one is still owed for a demoted batch. */
  predicate Overdue(net: Net, action: Action) {
    action.Deliver? && net.agent.connected && net.acks != [] && net.agent.pending != [] && net.debt > 0
  }

  predicate SomeOverdue(cfg: Config, bounds: Bounds, net: Net, actions: seq<Action>)
    decreases |actions|
  {
    actions != [] &&
    (var last := |actions| - 1;
     || SomeOverdue(cfg, bounds, net, actions[..last])
     || Overdue(NetRun(cfg, bounds, net, actions[..last]), actions[last]))
  }

  /** The exact condition. Every ack is taken for the batch it answers, if and only if no ack finds a
      batch waiting while acks are owed: for each demotion one for every batch behind the one
      answered, less one for each ack that found nothing waiting, all forgotten when the stream is
      lost. */
  lemma {:induction false} AcksMatchIff(cfg: Config, bounds: Bounds, spool: Spool, ck: Cursors, actions: seq<Action>)
    requires cfg.Ok()
    ensures var net := NetStart(cfg, spool, ck);
            SomeMisanswer(cfg, bounds, net, actions) <==> SomeOverdue(cfg, bounds, net, actions)
    decreases |actions|
  {
    if actions != [] {
      var before := actions[..|actions| - 1];
      var net := NetRun(cfg, bounds, NetStart(cfg, spool, ck), before);
      AcksMatchIff(cfg, bounds, spool, ck, before);
      EveryNetRun(cfg, bounds, spool, ck, before);
      if net.acks != [] {
        assert TruthfulAck(net, 0);
      }
    }
  }

  ghost predicate AllStored(net: Net) {
    forall i :: 0 <= i < |net.credited| ==> Durable(net.pipeline, net.credited[i])
  }

  /** Only an ACCEPTED ack for a waiting batch is credited. */
  predicate Credits(net: Net, action: Action) {
    && action.Deliver? && net.agent.connected && net.acks != [] && net.acks[0].code == ACCEPTED
    && net.agent.pending != []
  }

  lemma StepCredits(cfg: Config, bounds: Bounds, net: Net, action: Action)
    ensures NetStep(cfg, bounds, net, action).credited
         == if Credits(net, action) then net.credited + [net.agent.pending[0].batch] else net.credited
  {
  }

  lemma HandleRetains(bounds: Bounds, net: Net, b: Batch, verdict: Verdict)
    requires Kept(bounds, net.pipeline)
    ensures Retains(net.pipeline, Handle(bounds, net, b, verdict).pipeline)
  {
    EnqueueRetains(bounds, net.pipeline, JobOf(b, verdict));
  }

  lemma SameRetains(p: Pipeline)
    ensures Retains(p, p)
  {
  }

  lemma AgentKeepsPipeline(cfg: Config, bounds: Bounds, net: Net, action: Action)
    requires action.Agent? || action.Deliver? || action.Reply?
    ensures NetStep(cfg, bounds, net, action).pipeline == net.pipeline
  {
  }

  lemma StepRetains(cfg: Config, bounds: Bounds, net: Net, action: Action)
    requires Kept(bounds, net.pipeline)
    ensures Retains(net.pipeline, NetStep(cfg, bounds, net, action).pipeline)
  {
    SameRetains(net.pipeline);
    match action
    case Receive(verdict) =>
      if net.agent.connected && net.handler == Idle && Handled(net) < |net.agent.sent| {
        HandleRetains(bounds, net, net.agent.sent[Handled(net)], verdict);
      }
    case Rival(job) => EnqueueRetains(bounds, net.pipeline, job);
    case EndPublish(i, result) => FinishRetains(bounds, net.pipeline, i, result);
    case TakeJob =>
    case Close =>
    case _ => AgentKeepsPipeline(cfg, bounds, net, action);
  }

  lemma CreditIsStored(cfg: Config, bounds: Bounds, net: Net, action: Action)
    requires NetInv(cfg, bounds, net) && Credits(net, action) && !Misanswers(net, action)
    ensures Durable(net.pipeline, net.agent.pending[0].batch)
  {
    assert TruthfulAck(net, 0);
    assert net.agent.pending[0].batch == net.agent.sent[|net.agent.sent| - |net.agent.pending| + 0];
  }

  lemma CreditedStep(cfg: Config, bounds: Bounds, net: Net, action: Action)
    requires NetInv(cfg, bounds, net) && !Misanswers(net, action) && AllStored(net)
    ensures AllStored(NetStep(cfg, bounds, net, action))
  {
    var r := NetStep(cfg, bounds, net, action);
    StepRetains(cfg, bounds, net, action);
    StepCredits(cfg, bounds, net, action);
    forall i | 0 <= i < |r.credited|
      ensures Durable(r.pipeline, r.credited[i])
    {
      if i == |net.credited| {
        CreditIsStored(cfg, bounds, net, action);
      }
      StillDurable(net.pipeline, r.pipeline, r.credited[i]);
    }
  }

  /** In every composed run in which acks match, every batch the agent took to be accepted had its
      valid records stored first. */
  lemma {:induction false} CreditedWasStored(cfg: Config, bounds: Bounds, spool: Spool, ck: Cursors, actions: seq<Action>)
    requires cfg.Ok() && !SomeMisanswer(cfg, bounds, NetStart(cfg, spool, ck), actions)
    ensures AllStored(NetRun(cfg, bounds, NetStart(cfg, spool, ck), actions))
    decreases |actions|
  {
    if actions != [] {
      var before := actions[..|actions| - 1];
      CreditedWasStored(cfg, bounds, spool, ck, before);
      EveryNetRun(cfg, bounds, spool, ck, before);
      CreditedStep(cfg, bounds, NetRun(cfg, bounds, NetStart(cfg, spool, ck), before), actions[|actions| - 1]);
    }
  }

  /** No ack ever demotes more than the batch it answers. */
  predicate Calm(cfg: Config, bounds: Bounds, net: Net, actions: seq<Action>)
    decreases |actions|
  {
    actions != [] ==>
      (var before := NetRun(cfg, bounds, net, actions[..|actions| - 1]);
       && Calm(cfg, bounds, net, actions[..|actions| - 1])
       && (actions[|actions| - 1].Deliver? && before.agent.connected && before.acks != [] && Demotes(before.acks[0].code) ==>
             |before.agent.pending| <= 1))
  }

  /** In such a run nothing is ever owed, so all acks match. */
  lemma {:induction false} CalmOwesNothing(cfg: Config, bounds: Bounds, spool: Spool, ck: Cursors, actions: seq<Action>)
    requires cfg.Ok() && Calm(cfg, bounds, NetStart(cfg, spool, ck), actions)
    ensures NetRun(cfg, bounds, NetStart(cfg, spool, ck), actions).debt == 0
    ensures !SomeMisanswer(cfg, bounds, NetStart(cfg, spool, ck), actions)
    decreases |actions|
  {
    if actions != [] {
      var before := actions[..|actions| - 1];
      CalmOwesNothing(cfg, bounds, spool, ck, before);
      EveryNetRun(cfg, bounds, spool, ck, before);
      EveryNetRun(cfg, bounds, spool, ck, actions);
      AcksMatchIff(cfg, bounds, spool, ck, actions);
      AcksMatchIff(cfg, bounds, spool, ck, before);
      CalmStep(cfg, bounds, NetRun(cfg, bounds, NetStart(cfg, spool, ck), before), actions[|actions| - 1]);
    }
  }

  lemma CalmStep(cfg: Config, bounds: Bounds, net: Net, action: Action)
    requires net.debt == 0 && NetStep(cfg, bounds, net, action).debt >= 0
    requires action.Deliver? && net.agent.connected && net.acks != [] && Demotes(net.acks[0].code) ==>
               |net.agent.pending| <= 1
    ensures NetStep(cfg, bounds, net, action).debt == 0
  {
  }

  /** The window never outgrows the ack window. */
  lemma {:induction false} WindowOfOneIsCalm(cfg: Config, bounds: Bounds, spool: Spool, ck: Cursors, actions: seq<Action>)
    requires cfg.Ok() && cfg.ackWindow == 1
    ensures Calm(cfg, bounds, NetStart(cfg, spool, ck), actions)
    ensures |NetRun(cfg, bounds, NetStart(cfg, spool, ck), actions).agent.pending| <= 1
    decreases |actions|
  {
    if actions != [] {
      WindowOfOneIsCalm(cfg, bounds, spool, ck, actions[..|actions| - 1]);
      NetStepWindow(cfg, bounds, NetRun(cfg, bounds, NetStart(cfg, spool, ck), actions[..|actions| - 1]),
                    actions[|actions| - 1]);
    }
  }

  lemma NetStepWindow(cfg: Config, bounds: Bounds, net: Net, action: Action)
    requires cfg.Ok() && |net.agent.pending| <= cfg.ackWindow
    ensures |NetStep(cfg, bounds, net, action).agent.pending| <= cfg.ackWindow
  {
    match action
    case Agent(input) => StepWindow(cfg, net.agent, input);
    case Deliver(sends) => if net.acks != [] { StepWindow(cfg, net.agent, Input(AckArrives(net.acks[0].code), sends)); }
    case _ =>
  }

  lemma StepWindow(cfg: Config, st: State, input: Input)
    requires cfg.Ok() && |st.pending| <= cfg.ackWindow
    ensures |Step(cfg, st, input).pending| <= cfg.ackWindow
  {
    var st1 := st.(sendsLeft := input.sends);
    match input.event
    case LineArrives(line, now) => AddLineWindow(cfg, st1, line, now);
    case AccumTimer(due) => FlushEachWindow(cfg, st1, due);
    case RetryTimer(ok) => OnRetryWindow(cfg, st1, ok);
    case PauseTimer => OnPauseOverWindow(cfg, st1);
    case AckArrives(code) => ProcessAckWindow(cfg, st1, code);
    case StreamEnds => OnStreamEndWindow(cfg, st1);
    case CommitTick =>
  }

  lemma OnRetryWindow(cfg: Config, st: State, ok: bool)
    requires cfg.Ok() && |st.pending| <= cfg.ackWindow
    ensures |OnRetry(cfg, st, ok).pending| <= cfg.ackWindow
  {
    TryDrainWindow(cfg, OpenStream(st));
  }

  lemma OnPauseOverWindow(cfg: Config, st: State)
    requires cfg.Ok() && |st.pending| <= cfg.ackWindow
    ensures |OnPauseOver(cfg, st).pending| <= cfg.ackWindow
  {
    TryDrainWindow(cfg, Resume(st));
  }

  lemma OnStreamEndWindow(cfg: Config, st: State)
    requires |st.pending| <= cfg.ackWindow
    ensures |OnStreamEnd(cfg, st).pending| <= cfg.ackWindow
  {
    DemoteAllStream(cfg, st);
  }

  lemma SendNowWindow(cfg: Config, st: State, batch: Batch, cursors: Cursors, fromSpool: bool)
    requires |st.pending| < cfg.ackWindow
    ensures |SendNow(cfg, st, batch, cursors, fromSpool).pending| <= cfg.ackWindow
  {
  }

  lemma FlushAccumWindow(cfg: Config, st: State, id: StreamID)
    requires |st.pending| <= cfg.ackWindow
    ensures |FlushAccum(cfg, st, id).pending| <= cfg.ackWindow
  {
    if id in st.accums && st.accums[id].records != [] && MaySend(cfg, st) {
      SendNowWindow(cfg, TakeBatch(st, id), BuildBatch(st, id), st.accums[id].cursors, false);
    }
  }

  lemma AddLineWindow(cfg: Config, st: State, line: Line, now: nat)
    requires |st.pending| <= cfg.ackWindow
    ensures |AddLine(cfg, st, line, now).pending| <= cfg.ackWindow
  {
    match cfg.labels(line.source)
    case None =>
    case Some(id) =>
      MakeRoomWindow(cfg, st, id, line, now);
      FlushAccumWindow(cfg, Fold(cfg, MakeRoom(cfg, st, id, line, now), id, line), id);
  }

  lemma MakeRoomWindow(cfg: Config, st: State, id: StreamID, line: Line, now: nat)
    requires |st.pending| <= cfg.ackWindow
    ensures |MakeRoom(cfg, st, id, line, now).pending| <= cfg.ackWindow
  {
    FlushAccumWindow(cfg, EnsureAccum(cfg, st, id, now), id);
  }

  lemma {:induction false} FlushEachWindow(cfg: Config, st: State, ids: seq<StreamID>)
    requires |st.pending| <= cfg.ackWindow
    ensures |FlushEach(cfg, st, ids).pending| <= cfg.ackWindow
    decreases |ids|
  {
    if ids != [] {
      FlushAccumWindow(cfg, st, ids[0]);
      FlushEachWindow(cfg, FlushAccum(cfg, st, ids[0]), ids[1..]);
    }
  }

  lemma {:induction false} DrainLoopWindow(cfg: Config, st: State)
    requires cfg.Ok() && st.pending == []
    ensures |DrainLoop(cfg, st).pending| <= cfg.ackWindow
    decreases Len(st.spool)
  {
    if Len(st.spool) > 0 {
      match cfg.unmarshal(st.spool.Fifo()[0])
      case None =>
        ReleaseRefines(st.spool);
        DrainLoopWindow(cfg, DropCorrupt(cfg, st));
      case Some(b) => SendNowWindow(cfg, st, b, FrontMeta(st), true);
    }
  }

  lemma TryDrainWindow(cfg: Config, st: State)
    requires cfg.Ok() && |st.pending| <= cfg.ackWindow
    ensures |TryDrain(cfg, st).pending| <= cfg.ackWindow
  {
    if st.pending == [] {
      DrainLoopWindow(cfg, st);
    }
  }

  lemma ProcessAckWindow(cfg: Config, st: State, code: AckCode)
    requires cfg.Ok() && |st.pending| <= cfg.ackWindow
    ensures |ProcessAck(cfg, st, code).pending| <= cfg.ackWindow
  {
    if st.pending != [] {
      assert |ApplyAck(cfg, st, code).pending| <= cfg.ackWindow;
      TryDrainWindow(cfg, ApplyAck(cfg, st, code));
    }
  }
}
