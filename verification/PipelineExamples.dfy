/** A run in which a rotation turns a crash into a loss. */
module PipelineExamples {
  import opened Prelude
  import Lines
  import Tail
  import R = Rotation
  import Restart
  import J = Multiline
  import I = Intake
  import M = ShipperModel
  import Moves = ShipperMoves
  import Ledger = ShipperLedger
  import Gap = ShipperGap
  import X = ShipperExamples
  import SpoolQueue
  import opened Pipeline

  const TEXT: bytes := [97, 97, 97, 97, 97, 97, 97, 97, 97]
  const DATA: bytes := TEXT + [Lines.NL]

  const FILES: seq<bytes> := [[], []]
  const FULL: seq<bytes> := [[], DATA]
  const ROTATED: seq<bytes> := [[], DATA, []]

  const FIRST := J.Line("a", 0, 10, 1, TEXT)
  const EMITTED := R.Emission(1, Tail.Line(0, 10))

  function Sample(): Setup {
    Setup(b => 0, J.Config(text => false, 5), X.Sample(X.ROOMY, 2), map["a" := FILES], SpoolQueue.EmptyQueue, map[], s => R.Head(0, 0))
  }

  /** A line is written and read, held until the timeout, handed on and sent; then the path is rotated,
      the old file drained and the new one opened. */
  const R1: seq<Action> := [In(I.Tails("a", R.Write(DATA)))]
  const R2 := R1 + [In(I.Tails("a", R.Poll))]
  const R3 := R2 + [In(I.Hears("a", 0))]
  const R4 := R3 + [In(I.Ticks(5))]
  const R5 := R4 + [Ships(X.UP)]
  const R6 := R5 + [Hands("a", true, 1, 0, 9)]
  const R7 := R6 + [In(I.Tails("a", R.Rotate))]
  const RUN := R7 + [In(I.Tails("a", R.Poll))]

  lemma RunMore(actions: seq<Action>, a: Action)
    ensures Run(Sample(), actions + [a]) == Do(Sample(), Run(Sample(), actions), a)
  {
    assert (actions + [a])[..|actions|] == actions;
  }

  /** The source at three moments: when it has read the line, when the path is rotated, and after the
      next poll. */
  function Read(): R.Tailer {
    R.Tailer(FULL, 1, 10, R.Head(0, 0), [EMITTED], {1}, 10, 1, 0)
  }

  function Opened(): R.Tailer {
    R.Tailer(ROTATED, 2, 0, R.Head(0, 0), [EMITTED], {1, 2}, 0, 1, 0)
  }

  lemma DataIsOneLine()
    ensures Tail.ReadToEof(DATA, 0, false) == Tail.Scan([Tail.Line(0, 10)], 10)
    ensures Tail.Text(DATA, Tail.Line(0, 10)) == TEXT
  {
    Tail.NewlineAt(DATA, 0, 9);
    Tail.NothingAtEnd(DATA, false);
    assert [Tail.Line(0, 10)] + [] == [Tail.Line(0, 10)];
    assert DATA[0..10] == DATA;
    assert Lines.DropLast(DATA, Lines.NL) == TEXT;
  }

  lemma FirstPoll(t: R.Tailer)
    requires t == R.Step(b => 0, R.Open(b => 0, FILES, 0), R.Write(DATA))
    ensures R.Step(b => 0, t, R.Poll) == Read()
  {
    DataIsOneLine();
    assert [] + DATA == DATA;
    assert t.files == FULL by {
      assert t.files[0] == FULL[0] && t.files[1] == FULL[1];
    }
    assert R.Tag(1, [Tail.Line(0, 10)]) == [EMITTED] by {
      Restart.TagHolds(1, [Tail.Line(0, 10)]);
    }
    assert [] + [EMITTED] == [EMITTED];
  }

  lemma SecondPoll()
    ensures R.Step(b => 0, R.Step(b => 0, Read(), R.Rotate), R.Poll) == Opened()
  {
    var t := R.Step(b => 0, Read(), R.Rotate);
    assert FULL + [[]] == ROTATED;
    Tail.NothingAtEnd(DATA, true);
    Tail.NothingAtEnd([], false);
    assert [EMITTED] + [] == [EMITTED];
    assert {1} + {2} == {1, 2};
  }

  lemma LineIsFirst(t: R.Tailer)
    requires t == Read() || t == Opened()
    ensures I.Lifted("a", t.files, t.out) == [FIRST]
  {
    DataIsOneLine();
    assert Restart.Placed(t.files, t.out[0]);
  }

  /** What the joiner has heard, and what it has made of it. */
  lemma OneRecord()
    ensures var heard := [J.Got(FIRST, 0), J.Fires(5)];
            J.LinesOf("a", heard) == [FIRST] && J.Run(Sample().joins, "a", heard).done == [[FIRST]]
  {
    var one, two := [J.Got(FIRST, 0)], [J.Got(FIRST, 0), J.Fires(5)];
    assert one[..0] == [] && two[..1] == one;
    assert J.LinesOf("a", []) == [] && [] + [FIRST] == [FIRST] && [FIRST] + [] == [FIRST];
    assert J.LinesOf("a", one) == [FIRST];
    assert J.Run(Sample().joins, "a", one) == J.Joint([], [FIRST], 5);
    assert [] + [[FIRST]] == [[FIRST]];
  }

  function Tails(t: R.Tailer): map<Source, R.Tailer> { map["a" := t] }

  lemma AfterPoll()
    ensures Run(Sample(), R2) == Agent(I.Intake(Tails(Read()), []), [])
  {
    var none: seq<Action> := [];
    assert none + [In(I.Tails("a", R.Write(DATA)))] == R1;
    RunMore(none, In(I.Tails("a", R.Write(DATA))));
    RunMore(R1, In(I.Tails("a", R.Poll)));
    var t := R.Step(b => 0, R.Open(b => 0, FILES, 0), R.Write(DATA));
    BootIs();
    FirstPoll(t);
    assert Tails(R.Open(b => 0, FILES, 0))["a" := t] == Tails(t);
    assert Tails(t)["a" := Read()] == Tails(Read());
  }

  lemma LineIsHeard()
    ensures Do(Sample(), Agent(I.Intake(Tails(Read()), []), []), In(I.Hears("a", 0)))
         == Agent(I.Intake(Tails(Read()), [J.Got(FIRST, 0)]), [])
  {
    LineIsFirst(Read());
    assert [] + [J.Got(FIRST, 0)] == [J.Got(FIRST, 0)];
  }

  lemma TimerFires()
    ensures Do(Sample(), Agent(I.Intake(Tails(Read()), [J.Got(FIRST, 0)]), []), In(I.Ticks(5))) == With(Read(), [])
  {
    assert [J.Got(FIRST, 0)] + [J.Fires(5)] == [J.Got(FIRST, 0), J.Fires(5)];
  }

  lemma AfterTicks()
    ensures Run(Sample(), R4) == With(Read(), [])
  {
    AfterPoll();
    RunMore(R2, In(I.Hears("a", 0)));
    RunMore(R3, In(I.Ticks(5)));
    LineIsHeard();
    TimerFires();
  }

  lemma BootIs()
    ensures Run(Sample(), []) == Agent(I.Intake(Tails(R.Open(b => 0, FILES, 0)), []), [])
  {
    assert I.Boot(Sample().hash, Sample().disks, Sample().Resume()).tails == Tails(R.Open(b => 0, FILES, 0));
  }

  /** The agent with its line read, joined and perhaps handed on. */
  function With(t: R.Tailer, inputs: seq<M.Input>): Agent {
    Agent(I.Intake(Tails(t), [J.Got(FIRST, 0), J.Fires(5)]), inputs)
  }

  lemma UpComes()
    ensures Do(Sample(), With(Read(), []), Ships(X.UP)) == With(Read(), [X.UP])
  {
    assert [] + [X.UP] == [X.UP];
  }

  lemma NothingArrived()
    ensures Pipeline.Lines(With(Read(), [X.UP])) == []
  {
    assert [X.UP][..0] == [];
    assert Moves.Arrivals([]) == [] && Moves.Arrival(X.UP.event) == [];
  }

  lemma LineIsHanded()
    ensures Do(Sample(), With(Read(), [X.UP]), Hands("a", true, 1, 0, 9)) == With(Read(), [X.UP, X.Arrive(X.GOOD)])
  {
    var n := With(Read(), [X.UP]);
    OneRecord();
    NothingArrived();
    RecordIsGood();
    assert Done(Sample(), n, "a") == [[FIRST]] && Arrived("a", Pipeline.Lines(n)) == [];
    assert [X.UP] + [X.Arrive(X.GOOD)] == [X.UP, X.Arrive(X.GOOD)];
  }

  lemma RecordIsGood()
    ensures M.Line("a", J.RecordOf([FIRST]).file, J.RecordOf([FIRST]).offset, true, 1) == X.GOOD
  {
  }

  lemma AfterHands()
    ensures Run(Sample(), R6) == With(Read(), [X.UP, X.Arrive(X.GOOD)])
  {
    AfterTicks();
    RunMore(R4, Ships(X.UP));
    RunMore(R5, Hands("a", true, 1, 0, 9));
    UpComes();
    LineIsHanded();
  }

  lemma PathMoves(t: R.Tailer, inputs: seq<M.Input>, e: R.Event)
    requires R.Valid(t)
    ensures I.AllValid(With(t, inputs).intake)
    ensures Do(Sample(), With(t, inputs), In(I.Tails("a", e))) == With(R.Step(b => 0, t, e), inputs)
  {
    assert Tails(t)["a" := R.Step(b => 0, t, e)] == Tails(R.Step(b => 0, t, e));
  }

  lemma AfterAll()
    ensures Run(Sample(), RUN) == With(Opened(), [X.UP, X.Arrive(X.GOOD)])
  {
    AfterHands();
    RunMore(R6, In(I.Tails("a", R.Rotate)));
    RunMore(R7, In(I.Tails("a", R.Poll)));
    PathMoves(Read(), [X.UP, X.Arrive(X.GOOD)], R.Rotate);
    PathMoves(R.Step(b => 0, Read(), R.Rotate), [X.UP, X.Arrive(X.GOOD)], R.Poll);
    SecondPoll();
  }

  /** The line was sent and not answered; every line can be shipped; no fault but the crash happens. The
      process dies and the next one finds the path rotated: the line is nowhere. */
  lemma RotationLosesALine()
    ensures Sample().Ok() && "a" in Sample().disks
    ensures var n := Run(Sample(), RUN);
            && Gap.AllShippable(Sample().ships, Pipeline.Lines(n)) && Restarts(Sample(), n, "a", ROTATED, R.Head(0, 0))
            && n.intake.tails["a"].out == [EMITTED] && Lost(Sample(), n, "a", 0, ROTATED, R.Head(0, 0))
  {
    AfterAll();
    SampleIsOk();
    CrashNow(Run(Sample(), RUN));
    RestartLosesIff(Sample(), RUN, "a", 0, ROTATED, R.Head(0, 0));
  }

  lemma CrashNow(n: Agent)
    requires n == With(Opened(), [X.UP, X.Arrive(X.GOOD)])
    ensures Gap.AllShippable(Sample().ships, Pipeline.Lines(n)) && Restarts(Sample(), n, "a", ROTATED, R.Head(0, 0))
    ensures !Stored(Sample(), n, "a", 0)
  {
    FilesAreShort();
    FirstIsUnsettled(n);
  }

  lemma SampleIsOk()
    ensures Sample().Ok()
  {
    X.SampleIsLossless(X.ROOMY, 2);
  }

  lemma FilesAreShort()
    ensures R.AllShort(ROTATED)
  {
    forall g | 0 <= g < |ROTATED|
      ensures Tail.Short(ROTATED[g])
    {
    }
  }

  lemma FirstIsUnsettled(n: Agent)
    requires n.inputs == [X.UP, X.Arrive(X.GOOD)]
    ensures Pipeline.Lines(n) == [X.GOOD] && Gap.AllShippable(Sample().ships, [X.GOOD])
    ensures Committed(Sample(), n) == map[] && !Settled(Sample(), n, 0)
  {
    OneArrived(n);
    GoodIsShippable();
    StateIsFirstSent(n);
    NowhereElse(X.FirstSent(2));
    UnsettledIn(n, X.FirstSent(2));
  }

  lemma GoodIsShippable()
    ensures Gap.AllShippable(Sample().ships, [X.GOOD])
  {
    var cfg, lines := X.Sample(X.ROOMY, 2), [X.GOOD];
    assert cfg.Shippable(0, X.GOOD);
    forall i | 0 <= i < |lines| && cfg.labels(lines[i].source).Some?
      ensures cfg.Shippable(cfg.labels(lines[i].source).value, lines[i])
    {
      assert lines[i] == X.GOOD;
    }
  }

  lemma UnsettledIn(n: Agent, st: M.State)
    requires State(Sample(), n) == st && Ledger.Elsewhere(Sample().ships, st, 0) == 0
    requires Ledger.Count(M.SpoolRecords(Sample().ships, SpoolQueue.EmptyQueue.Fifo()), 0) == 0
    ensures !Settled(Sample(), n, 0)
  {
  }

  lemma OneArrived(n: Agent)
    requires n.inputs == [X.UP, X.Arrive(X.GOOD)]
    ensures Pipeline.Lines(n) == [X.GOOD]
  {
    assert n.inputs[..1] == [X.UP] && [X.UP][..0] == [];
    assert Moves.Arrivals([X.UP]) == [];
    assert [] + [X.GOOD] == [X.GOOD];
  }

  lemma StateIsFirstSent(n: Agent)
    requires n.inputs == [X.UP, X.Arrive(X.GOOD)]
    ensures State(Sample(), n) == X.FirstSent(2)
  {
  }

  lemma NowhereElse(st: M.State)
    requires st == X.FirstSent(2)
    ensures st.committed == map[] && Ledger.Elsewhere(Sample().ships, st, 0) == 0
    ensures Ledger.Count(M.SpoolRecords(Sample().ships, SpoolQueue.EmptyQueue.Fifo()), 0) == 0
  {
    X.FirstIsSent(2);
    assert SpoolQueue.EmptyQueue.Fifo() == [];
  }
}
