/** The agent from its files to its checkpoint (internal/agent/tailfile.go, internal/agent/multiline.go,
    internal/agent/shipper.go): what a crash loses, and what the next process reads again. */
module Pipeline {
  import opened Prelude
  import Tail
  import R = Rotation
  import Restart
  import J = Multiline
  import I = Intake
  import SpoolQueue
  import M = ShipperModel
  import Moves = ShipperMoves
  import Ledger = ShipperLedger
  import Gap = ShipperGap
  import Origin = ShipperOrigin

  type Source = I.Source

  function ResumeOf(ck: M.Cursors, s: Source, head: R.Head): Option<R.Point> {
    if s in ck then Some(R.Point(ck[s].file, ck[s].offset, head)) else None
  }

  /** What a process starts with: the files, the spool and the checkpoint, whose fingerprints are apart. */
  datatype Setup = Setup(
    hash: R.Hash,
    joins: J.Config,
    ships: M.Config,
    disks: I.Disks,
    spool: SpoolQueue.Spool,
    ck: M.Cursors,
    heads: Source -> R.Head)
  {
    function Resume(): I.Cursors {
      s => ResumeOf(ck, s, heads(s))
    }

    ghost predicate Ok() {
      && ships.Ok() && ships.Lossless() && Gap.Inherited(ck)
      && forall s :: s in disks ==> Restart.Good(hash, disks[s], Resume()(s))
    }

    function Start(): M.State { M.Start(ships, spool, ck) }
  }

  /** The sources and the joiner, and what the shipper has received. */
  datatype Agent = Agent(intake: I.Intake, inputs: seq<M.Input>)

  /** A step of the intake; the shipper receives a source's next record, valid or not and of any size; any
      other event of the shipper, lines of sources that are not files included. */
  datatype Action =
    | In(a: I.Action)
    | Hands(s: Source, valid: bool, size: nat, now: nat, sends: nat)
    | Ships(input: M.Input)

  function Done(setup: Setup, n: Agent, s: Source): seq<seq<J.Line>> {
    J.Run(setup.joins, s, n.intake.heard).done
  }

  /** The lines of one source among those that reached the shipper. */
  function Arrived(s: Source, lines: seq<M.Line>): seq<M.Line>
    decreases |lines|
  {
    if lines == [] then []
    else
      var k := |lines| - 1;
      Arrived(s, lines[..k]) + if lines[k].source == s then [lines[k]] else []
  }

  function Lines(n: Agent): seq<M.Line> { Moves.Arrivals(n.inputs) }

  function Hand(setup: Setup, n: Agent, s: Source, valid: bool, size: nat, now: nat, sends: nat): Agent {
    var k, done := |Arrived(s, Lines(n))|, Done(setup, n, s);
    if s in n.intake.tails && k < |done| && done[k] != [] then
      var r := J.RecordOf(done[k]);
      n.(inputs := n.inputs + [M.Input(M.LineArrives(M.Line(s, r.file, r.offset, valid, size), now), sends)])
    else n
  }

  ghost function Do(setup: Setup, n: Agent, a: Action): (r: Agent)
    requires I.AllValid(n.intake)
    ensures I.AllValid(r.intake) && r.intake.tails.Keys == n.intake.tails.Keys
  {
    match a
    case In(b) => n.(intake := I.Do(setup.hash, n.intake, b))
    case Hands(s, valid, size, now, sends) => Hand(setup, n, s, valid, size, now, sends)
    case Ships(input) =>
      if input.event.LineArrives? && input.event.line.source in n.intake.tails then n
      else n.(inputs := n.inputs + [input])
  }

  ghost function Run(setup: Setup, actions: seq<Action>): (r: Agent)
    ensures I.AllValid(r.intake) && r.intake.tails.Keys == setup.disks.Keys
    decreases |actions|
  {
    if actions == [] then Agent(I.Boot(setup.hash, setup.disks, setup.Resume()), [])
    else Do(setup, Run(setup, actions[..|actions| - 1]), actions[|actions| - 1])
  }

  function State(setup: Setup, n: Agent): M.State {
    M.Run(setup.ships, setup.Start(), n.inputs)
  }

  /** An arrival carries the cursor of a record. */
  predicate Carries(line: M.Line, group: seq<J.Line>) {
    group != [] && line.file == J.RecordOf(group).file && line.offset == J.RecordOf(group).offset
  }

  /** The shipper has received a beginning of what the joiner gave out for the source. */
  ghost predicate Matched(lines: seq<M.Line>, done: seq<seq<J.Line>>, s: Source) {
    |Arrived(s, lines)| <= |done| && forall k :: 0 <= k < |Arrived(s, lines)| ==> Carries(Arrived(s, lines)[k], done[k])
  }

  ghost predicate Inv(setup: Setup, n: Agent) {
    && n.intake.tails.Keys == setup.disks.Keys
    && I.Inv(setup.hash, setup.disks, setup.Resume(), n.intake)
    && forall s :: s in setup.disks ==> Matched(Lines(n), Done(setup, n, s), s)
  }

  lemma DoneGrows(cfg: J.Config, s: Source, heard: seq<J.Input>, input: J.Input)
    ensures J.Run(cfg, s, heard).done <= J.Run(cfg, s, heard + [input]).done
  {
    J.RunSnoc(cfg, s, heard, input);
  }

  lemma MatchedLater(lines: seq<M.Line>, done: seq<seq<J.Line>>, more: seq<seq<J.Line>>, s: Source)
    requires Matched(lines, done, s) && done <= more
    ensures Matched(lines, more, s)
  {
    forall k | 0 <= k < |Arrived(s, lines)|
      ensures Carries(Arrived(s, lines)[k], more[k])
    {
      assert Carries(Arrived(s, lines)[k], done[k]);
    }
  }

  lemma HeardGrows(cfg: J.Config, hash: R.Hash, n: I.Intake, a: I.Action, s: Source)
    requires I.AllValid(n)
    ensures J.Run(cfg, s, n.heard).done <= J.Run(cfg, s, I.Do(hash, n, a).heard).done
  {
    var r := I.Do(hash, n, a).heard;
    I.HearsOneMore(hash, n, a);
    if r != n.heard {
      DoneGrows(cfg, s, n.heard, r[|n.heard|]);
      assert r == n.heard + [r[|n.heard|]];
    }
  }

  lemma InKeeps(setup: Setup, n: Agent, a: I.Action)
    requires Inv(setup, n)
    ensures Inv(setup, Do(setup, n, In(a)))
  {
    var r := Do(setup, n, In(a));
    I.DoInv(setup.hash, setup.disks, setup.Resume(), n.intake, a);
    forall s | s in setup.disks
      ensures Matched(Lines(r), Done(setup, r, s), s)
    {
      HeardGrows(setup.joins, setup.hash, n.intake, a, s);
      MatchedLater(Lines(n), Done(setup, n, s), Done(setup, r, s), s);
    }
  }

  lemma ArrivedMore(s: Source, lines: seq<M.Line>, line: M.Line)
    ensures Arrived(s, lines + [line]) == Arrived(s, lines) + if line.source == s then [line] else []
  {
    assert (lines + [line])[..|lines|] == lines;
  }

  lemma MatchedLine(lines: seq<M.Line>, done: seq<seq<J.Line>>, s: Source, line: M.Line)
    requires Matched(lines, done, s)
    requires line.source == s ==> |Arrived(s, lines)| < |done| && Carries(line, done[|Arrived(s, lines)|])
    ensures Matched(lines + [line], done, s)
  {
    var a, b := Arrived(s, lines), Arrived(s, lines + [line]);
    ArrivedMore(s, lines, line);
    assert a <= b && (|b| == |a| || (line.source == s && b == a + [line]));
    forall k | 0 <= k < |b|
      ensures k < |done| && Carries(b[k], done[k])
    {
      if k < |a| {
        assert b[k] == a[k] && Carries(a[k], done[k]);
      }
    }
  }

  lemma MatchedMore(lines: seq<M.Line>, done: seq<seq<J.Line>>, s: Source, event: M.Event)
    requires Matched(lines, done, s)
    requires event.LineArrives? && event.line.source == s ==>
               |Arrived(s, lines)| < |done| && Carries(event.line, done[|Arrived(s, lines)|])
    ensures Matched(lines + Moves.Arrival(event), done, s)
  {
    if event.LineArrives? {
      MatchedLine(lines, done, s, event.line);
      assert Moves.Arrival(event) == [event.line];
    } else {
      assert lines + Moves.Arrival(event) == lines;
    }
  }

  /** One input of the shipper that matches. */
  lemma InputKeeps(setup: Setup, n: Agent, input: M.Input)
    requires Inv(setup, n)
    requires input.event.LineArrives? && input.event.line.source in setup.disks ==>
               var s := input.event.line.source;
               var k := |Arrived(s, Lines(n))|;
               k < |Done(setup, n, s)| && Carries(input.event.line, Done(setup, n, s)[k])
    ensures Inv(setup, n.(inputs := n.inputs + [input]))
  {
    var r := n.(inputs := n.inputs + [input]);
    LinesMore(n, input);
    forall s | s in setup.disks
      ensures Matched(Lines(r), Done(setup, r, s), s)
    {
      MatchedMore(Lines(n), Done(setup, n, s), s, input.event);
    }
  }

  lemma LinesMore(n: Agent, input: M.Input)
    ensures Lines(n.(inputs := n.inputs + [input])) == Lines(n) + Moves.Arrival(input.event)
  {
    assert (n.inputs + [input])[..|n.inputs|] == n.inputs;
  }

  /** Under every interleaving of files, sources, joiner and shipper, the shipper receives a beginning of
      each source's records, in order. */
  lemma {:induction false} EveryAgent(setup: Setup, actions: seq<Action>)
    ensures Inv(setup, Run(setup, actions))
    decreases |actions|
  {
    if actions == [] {
      I.BootInv(setup.hash, setup.disks, setup.Resume());
    } else {
      var n := Run(setup, actions[..|actions| - 1]);
      EveryAgent(setup, actions[..|actions| - 1]);
      match actions[|actions| - 1]
      case In(a) => InKeeps(setup, n, a);
      case Hands(s, valid, size, now, sends) =>
        var r := Hand(setup, n, s, valid, size, now, sends);
        if r != n {
          InputKeeps(setup, n, r.inputs[|n.inputs|]);
        }
      case Ships(input) =>
        if Do(setup, n, Ships(input)) != n {
          InputKeeps(setup, n, input);
        }
    }
  }

  // Which lines the committed cursor covers

  /** How many lines of its source come before arrival m. */
  function Rank(s: Source, lines: seq<M.Line>, m: nat): nat
    requires m <= |lines|
  {
    |Arrived(s, lines[..m])|
  }

  lemma {:induction false} RankHolds(s: Source, lines: seq<M.Line>, m: nat)
    requires m < |lines| && lines[m].source == s
    ensures Rank(s, lines, m) < |Arrived(s, lines)| && Arrived(s, lines)[Rank(s, lines, m)] == lines[m]
    decreases |lines|
  {
    var k := |lines| - 1;
    if m < k {
      RankHolds(s, lines[..k], m);
      assert lines[..k][..m] == lines[..m];
    }
  }

  lemma {:induction false} RankGrows(s: Source, lines: seq<M.Line>, m: nat, n: nat)
    requires m < n <= |lines| && lines[m].source == s
    ensures Rank(s, lines, m) < Rank(s, lines, n)
  {
    RankHolds(s, lines[..n], m);
    assert lines[..n][..m] == lines[..m];
  }

  /** The emissions of a source that the first k records are made of. */
  function Spent(done: seq<seq<J.Line>>, k: nat): nat { |J.Flat(if k <= |done| then done[..k] else done)| }

  lemma {:induction false} SpentGrows(done: seq<seq<J.Line>>, a: nat, b: nat)
    requires a <= b <= |done|
    ensures Spent(done, a) <= Spent(done, b)
    decreases b
  {
    if a < b {
      SpentGrows(done, a, b - 1);
      assert done[..b][..b - 1] == done[..b - 1];
    }
  }

  /** How many emissions of the source the committed cursor is at or past. */
  function Covered(done: seq<seq<J.Line>>, lines: seq<M.Line>, committed: M.Cursors, s: Source): nat {
    if s in committed && 0 <= committed[s].line < |lines| then Spent(done, Rank(s, lines, committed[s].line) + 1) else 0
  }

  /** The next process: it finds these generations, and the committed cursor with its fingerprint. */
  ghost predicate Finds(hash: R.Hash, t: R.Tailer, committed: M.Cursors, s: Source, later: seq<bytes>, head: R.Head) {
    && R.Later(t.files, later) && R.AllShort(later)
    && (s in committed && committed[s].file < |later| ==> R.Taken(hash, head, later[committed[s].file]))
  }

  /** The committed cursor is the one that the process began with, or that of a line that arrived. */
  predicate Legit(lines: seq<M.Line>, ck: M.Cursors, committed: M.Cursors, s: Source) {
    && (s in committed ==> Origin.CursorOf(lines, s, committed[s]) || (s in ck && committed[s] == ck[s]))
    && (s in ck ==> s in committed)
  }

  predicate Unmoved(ck: M.Cursors, committed: M.Cursors, s: Source) {
    (s in committed <==> s in ck) && (s in ck ==> committed[s] == ck[s])
  }

  /** The committed cursor is that of the c-th emission. */
  predicate MovedTo(out: seq<R.Emission>, committed: M.Cursors, s: Source, c: nat) {
    && 0 < c <= |out| && s in committed
    && committed[s].file == out[c - 1].gen && committed[s].offset == out[c - 1].line.offset
  }

  lemma RecordIsCovered(setup: Setup, n: Agent, s: Source, committed: M.Cursors)
    requires Inv(setup, n) && s in setup.disks && s in committed && Origin.CursorOf(Lines(n), s, committed[s])
    ensures MovedTo(n.intake.tails[s].out, committed, s, Covered(Done(setup, n, s), Lines(n), committed, s))
  {
    var lines, done, m := Lines(n), Done(setup, n, s), committed[s].line;
    RankHolds(s, lines, m);
    var k := Rank(s, lines, m);
    assert Matched(lines, done, s) && Carries(Arrived(s, lines)[k], done[k]);
    assert I.Sound(setup.hash, setup.disks, setup.Resume(), n.intake, s);
    var c := I.RecordIsEmitted(setup.joins, n.intake, s, k);
    assert Covered(done, lines, committed, s) == Spent(done, k + 1) == c;
    assert Arrived(s, lines)[k] == lines[m];
    assert MovedTo(n.intake.tails[s].out, committed, s, c);
  }

  lemma CommittedIsCovered(setup: Setup, n: Agent, s: Source, committed: M.Cursors)
    requires Gap.Inherited(setup.ck) && Inv(setup, n) && s in setup.disks && Legit(Lines(n), setup.ck, committed, s)
    ensures var c := Covered(Done(setup, n, s), Lines(n), committed, s);
            if c == 0 then Unmoved(setup.ck, committed, s) else MovedTo(n.intake.tails[s].out, committed, s, c)
  {
    if s in committed && Origin.CursorOf(Lines(n), s, committed[s]) {
      RecordIsCovered(setup, n, s, committed);
    }
  }

  /** What the next process reads first: it emits again, in order, exactly the lines that the committed
      cursor is not past and whose generation is the one at the path, and then what nobody had read. */
  lemma RestartReads(setup: Setup, n: Agent, s: Source, committed: M.Cursors, later: seq<bytes>, head: R.Head) returns (more: seq<Tail.Line>)
    requires setup.Ok() && Inv(setup, n) && s in setup.disks && Legit(Lines(n), setup.ck, committed, s)
    requires Finds(setup.hash, n.intake.tails[s], committed, s, later, head)
    ensures later != [] && Covered(Done(setup, n, s), Lines(n), committed, s) <= |n.intake.tails[s].out|
    ensures Restart.Reread(setup.hash, later, ResumeOf(committed, s, head))
         == R.Tag(|later| - 1, R.Of(n.intake.tails[s].out[Covered(Done(setup, n, s), Lines(n), committed, s)..], |later| - 1) + more)
  {
    var t, c := n.intake.tails[s], Covered(Done(setup, n, s), Lines(n), committed, s);
    CommittedIsCovered(setup, n, s, committed);
    if c > 0 {
      more := RestartsWhereItMoved(setup, n, s, committed, c, later, head);
    } else {
      more := RestartsWhereItBegan(setup, n, s, committed, later, head);
      assert t.out[0..] == t.out;
    }
  }

  lemma RestartsWhereItMoved(setup: Setup, n: Agent, s: Source, committed: M.Cursors, c: nat, later: seq<bytes>, head: R.Head)
    returns (more: seq<Tail.Line>)
    requires Inv(setup, n) && s in setup.disks && MovedTo(n.intake.tails[s].out, committed, s, c)
    requires Finds(setup.hash, n.intake.tails[s], committed, s, later, head)
    ensures later != []
    ensures Restart.Reread(setup.hash, later, ResumeOf(committed, s, head))
         == R.Tag(|later| - 1, R.Of(n.intake.tails[s].out[c..], |later| - 1) + more)
  {
    var t := n.intake.tails[s];
    R.ShortBefore(t.files, later);
    assert I.Sound(setup.hash, setup.disks, setup.Resume(), n.intake, s);
    I.EverySourceIsFaithful(setup.hash, setup.disks, setup.Resume(), n.intake, s);
    assert Restart.Placed(t.files, t.out[c - 1]);
    assert ResumeOf(committed, s, head) == Some(Restart.PointOf(t.out, c, head));
    more := Restart.RereadsTheRest(setup.hash, t, later, c, head);
  }

  lemma RestartsWhereItBegan(setup: Setup, n: Agent, s: Source, committed: M.Cursors, later: seq<bytes>, head: R.Head)
    returns (more: seq<Tail.Line>)
    requires setup.Ok() && s in setup.disks && Inv(setup, n) && Unmoved(setup.ck, committed, s)
    requires Finds(setup.hash, n.intake.tails[s], committed, s, later, head)
    ensures later != []
    ensures Restart.Reread(setup.hash, later, ResumeOf(committed, s, head))
         == R.Tag(|later| - 1, R.Of(n.intake.tails[s].out, |later| - 1) + more)
  {
    var files, resume, again := setup.disks[s], setup.Resume()(s), ResumeOf(committed, s, head);
    assert I.Sound(setup.hash, setup.disks, setup.Resume(), n.intake, s);
    var events :| n.intake.tails[s] == R.Run(setup.hash, R.Reopen(setup.hash, files, resume), events);
    Restart.RunGrows(setup.hash, R.Reopen(setup.hash, files, resume), events);
    Restart.LaterTrans(files, n.intake.tails[s].files, later);
    assert Restart.Good(setup.hash, files, resume);
    AgainIsGood(setup.hash, files, later, resume, again);
    more := Restart.RereadsAll(setup.hash, files, resume, events, later, again);
  }

  lemma AgainIsGood(hash: R.Hash, files: seq<bytes>, later: seq<bytes>, resume: Option<R.Point>, again: Option<R.Point>)
    requires R.Later(files, later) && Restart.Good(hash, files, resume) && Restart.SamePlace(resume, again)
    requires again.Some? && again.value.file < |later| ==> R.Taken(hash, again.value.head, later[again.value.file])
    ensures Restart.Good(hash, later, again)
  {
    if again.Some? {
      assert files[again.value.file] <= later[again.value.file];
    }
  }

  // What is lost

  /** Emission i is part of this arrival's record. */
  predicate Holds(done: seq<seq<J.Line>>, lines: seq<M.Line>, s: Source, m: nat, i: nat)
    requires m < |lines|
  {
    lines[m].source == s && Spent(done, Rank(s, lines, m)) <= i < Spent(done, Rank(s, lines, m) + 1)
  }

  /** It is part of a record of which this holds. */
  ghost predicate Among(done: seq<seq<J.Line>>, lines: seq<M.Line>, s: Source, i: nat, settled: nat -> bool) {
    exists m :: 0 <= m < |lines| && Holds(done, lines, s, m, i) && settled(m)
  }

  /** Among the first k records, the one that emission i is part of. */
  lemma {:induction false} FindRecord(done: seq<seq<J.Line>>, k: nat, i: nat) returns (x: nat)
    requires k <= |done| && i < Spent(done, k)
    ensures x < k && Spent(done, x) <= i < Spent(done, x + 1)
    decreases k
  {
    if k > 0 && i < Spent(done, k - 1) {
      x := FindRecord(done, k - 1, i);
    } else {
      x := k - 1;
    }
  }

  lemma {:induction false} ArrivalOf(s: Source, lines: seq<M.Line>, x: nat) returns (m: nat)
    requires x < |Arrived(s, lines)|
    ensures m < |lines| && lines[m].source == s && Rank(s, lines, m) == x
    decreases |lines|
  {
    var k := |lines| - 1;
    if x < |Arrived(s, lines[..k])| {
      m := ArrivalOf(s, lines[..k], x);
      assert lines[..k][..m] == lines[..m];
    } else {
      m := k;
    }
  }

  /** What the cursor covers is part of records up to its own. */
  lemma CoveredIsAmong(done: seq<seq<J.Line>>, lines: seq<M.Line>, committed: M.Cursors, s: Source, i: nat, settled: nat -> bool)
    requires Matched(lines, done, s) && i < Covered(done, lines, committed, s)
    requires s in committed && Origin.CursorOf(lines, s, committed[s])
    requires Passed(lines, committed, s, settled)
    ensures Among(done, lines, s, i, settled)
  {
    var m := committed[s].line;
    RankHolds(s, lines, m);
    var x := FindRecord(done, Rank(s, lines, m) + 1, i);
    var y := ArrivalOf(s, lines, x);
    if m < y {
      RankGrows(s, lines, m, y);
    }
    assert Holds(done, lines, s, y, i);
  }

  lemma {:induction false} OfHolds(out: seq<R.Emission>, i: nat, g: nat)
    requires i < |out| && out[i].gen == g
    ensures out[i].line in R.Of(out, g)
  {
    if i > 0 {
      OfHolds(out[1..], i - 1, g);
    }
  }

  lemma ReadAgainIff(out: seq<R.Emission>, c: nat, i: nat, last: nat, more: seq<Tail.Line>)
    requires c <= i < |out|
    ensures out[i] in R.Tag(last, R.Of(out[c..], last) + more) <==> out[i].gen == last
  {
    var lines := R.Of(out[c..], last) + more;
    Restart.TagHolds(last, lines);
    if out[i].gen == last {
      assert out[c..][i - c] == out[i];
      OfHolds(out[c..], i - c, last);
      assert out[i].line in lines;
      var j :| 0 <= j < |lines| && lines[j] == out[i].line;
      assert R.Tag(last, lines)[j] == out[i];
    }
  }

  lemma LegitIsCursor(lines: seq<M.Line>, ck: M.Cursors, committed: M.Cursors, s: Source)
    requires Gap.Inherited(ck) && Legit(lines, ck, committed, s) && s in committed && committed[s].line >= 0
    ensures Origin.CursorOf(lines, s, committed[s])
  {
  }

  /** The cursor has passed settled arrivals only. */
  ghost predicate Passed(lines: seq<M.Line>, committed: M.Cursors, s: Source, settled: nat -> bool) {
    forall y: nat :: y < |lines| && lines[y].source == s && s in committed && y <= committed[s].line ==> settled(y)
  }

  lemma UnsettledIsUncovered(setup: Setup, n: Agent, s: Source, committed: M.Cursors, i: nat, settled: nat -> bool)
    requires Gap.Inherited(setup.ck) && Inv(setup, n) && s in setup.disks && Legit(Lines(n), setup.ck, committed, s)
    requires Passed(Lines(n), committed, s, settled) && !Among(Done(setup, n, s), Lines(n), s, i, settled)
    ensures Covered(Done(setup, n, s), Lines(n), committed, s) <= i
  {
    var done, lines := Done(setup, n, s), Lines(n);
    if i < Covered(done, lines, committed, s) {
      assert Matched(lines, done, s);
      LegitIsCursor(lines, setup.ck, committed, s);
      CoveredIsAmong(done, lines, committed, s, i, settled);
    }
  }

  /** A line whose record is not settled is read again exactly when its generation is at the path,
      provided that the cursor has not passed an unsettled record. */
  lemma UnsettledIsRead(setup: Setup, n: Agent, s: Source, committed: M.Cursors, i: nat, later: seq<bytes>, head: R.Head, settled: nat -> bool)
    requires setup.Ok() && Inv(setup, n) && s in setup.disks && Legit(Lines(n), setup.ck, committed, s)
    requires Finds(setup.hash, n.intake.tails[s], committed, s, later, head)
    requires Passed(Lines(n), committed, s, settled)
    requires i < |n.intake.tails[s].out| && !Among(Done(setup, n, s), Lines(n), s, i, settled)
    ensures later != []
    ensures n.intake.tails[s].out[i] in Restart.Reread(setup.hash, later, ResumeOf(committed, s, head))
       <==> n.intake.tails[s].out[i].gen == |later| - 1
  {
    var more := RestartReads(setup, n, s, committed, later, head);
    UnsettledIsUncovered(setup, n, s, committed, i, settled);
    ReadAgainIff(n.intake.tails[s].out, Covered(Done(setup, n, s), Lines(n), committed, s), i, |later| - 1, more);
  }

  // The agent's own state

  lemma LinesAre(setup: Setup, n: Agent)
    requires setup.ships.Ok()
    ensures State(setup, n).log.lines == Lines(n)
  {
    Moves.EveryRunIsReachable(setup.ships, setup.spool, setup.ck, n.inputs);
  }

  function Committed(setup: Setup, n: Agent): M.Cursors { State(setup, n).committed }

  lemma CommittedIsLegit(setup: Setup, n: Agent, s: Source)
    requires setup.ships.Ok() && Gap.Inherited(setup.ck)
    ensures Legit(Lines(n), setup.ck, Committed(setup, n), s)
  {
    LinesAre(setup, n);
    Origin.CommittedIsALine(setup.ships, setup.spool, setup.ck, n.inputs, s);
  }

  /** Arrival m is in the spool or has a recorded fate. */
  predicate Settled(setup: Setup, n: Agent, m: nat) {
    Ledger.Elsewhere(setup.ships, State(setup, n), m) == Ledger.Count(M.SpoolRecords(setup.ships, setup.spool.Fifo()), m) + 1
  }

  /** Emission i of the source is part of such an arrival. */
  ghost predicate Stored(setup: Setup, n: Agent, s: Source, i: nat) {
    Among(Done(setup, n, s), Lines(n), s, i, (m: nat) => Settled(setup, n, m))
  }

  /** The process dies here, and the next one finds these files. */
  ghost predicate Restarts(setup: Setup, n: Agent, s: Source, later: seq<bytes>, head: R.Head)
    requires s in n.intake.tails
  {
    Finds(setup.hash, n.intake.tails[s], Committed(setup, n), s, later, head)
  }

  /** Emission i is not stored, and the next process does not read it. */
  ghost predicate Lost(setup: Setup, n: Agent, s: Source, i: nat, later: seq<bytes>, head: R.Head)
    requires s in n.intake.tails && i < |n.intake.tails[s].out| && later != []
  {
    && !Stored(setup, n, s, i)
    && n.intake.tails[s].out[i] !in Restart.Reread(setup.hash, later, ResumeOf(Committed(setup, n), s, head))
  }

  lemma PassedIsSettled(setup: Setup, n: Agent, s: Source)
    requires setup.Ok() && Gap.AllShippable(setup.ships, Lines(n))
    ensures Passed(Lines(n), Committed(setup, n), s, (m: nat) => Settled(setup, n, m))
  {
    LinesAre(setup, n);
    forall y: nat | y < |Lines(n)| && Lines(n)[y].source == s && s in Committed(setup, n) && y <= Committed(setup, n)[s].line
      ensures Settled(setup, n, y)
    {
      Gap.ShippableOnDiskOrAhead(setup.ships, setup.spool, setup.ck, n.inputs, y);
    }
  }

  /** A crash loses a line that a source has emitted if and only if it is neither in the spool nor has a
      recorded fate, and its generation is not at the path any more when the next process starts. */
  lemma RestartLosesIff(setup: Setup, actions: seq<Action>, s: Source, i: nat, later: seq<bytes>, head: R.Head)
    requires setup.Ok() && s in setup.disks && Restarts(setup, Run(setup, actions), s, later, head)
    requires Gap.AllShippable(setup.ships, Lines(Run(setup, actions))) && i < |Run(setup, actions).intake.tails[s].out|
    ensures later != []
    ensures var n := Run(setup, actions);
            Lost(setup, n, s, i, later, head) <==> !Stored(setup, n, s, i) && n.intake.tails[s].out[i].gen != |later| - 1
  {
    EveryAgent(setup, actions);
    if !Stored(setup, Run(setup, actions), s, i) {
      UnstoredIsRead(setup, Run(setup, actions), s, i, later, head);
    }
  }

  lemma UnstoredIsRead(setup: Setup, n: Agent, s: Source, i: nat, later: seq<bytes>, head: R.Head)
    requires setup.Ok() && s in setup.disks && Inv(setup, n) && Restarts(setup, n, s, later, head)
    requires Gap.AllShippable(setup.ships, Lines(n)) && i < |n.intake.tails[s].out| && !Stored(setup, n, s, i)
    ensures later != []
    ensures n.intake.tails[s].out[i] in Restart.Reread(setup.hash, later, ResumeOf(Committed(setup, n), s, head))
       <==> n.intake.tails[s].out[i].gen == |later| - 1
  {
    CommittedIsLegit(setup, n, s);
    PassedIsSettled(setup, n, s);
    UnsettledIsRead(setup, n, s, Committed(setup, n), i, later, head, (m: nat) => Settled(setup, n, m));
  }

  /** So of a path that is not rotated from the start of a process to the start of the next, a crash
      loses nothing. */
  lemma UnrotatedLosesNothing(setup: Setup, actions: seq<Action>, s: Source, i: nat, later: seq<bytes>, head: R.Head)
    requires setup.Ok() && s in setup.disks && Restarts(setup, Run(setup, actions), s, later, head)
    requires Gap.AllShippable(setup.ships, Lines(Run(setup, actions))) && i < |Run(setup, actions).intake.tails[s].out|
    requires |later| == |setup.disks[s]|
    ensures !Lost(setup, Run(setup, actions), s, i, later, head)
  {
    EveryAgent(setup, actions);
    OneGeneration(setup, Run(setup, actions), s, i, later);
    RestartLosesIff(setup, actions, s, i, later, head);
  }

  lemma OneGeneration(setup: Setup, n: Agent, s: Source, i: nat, later: seq<bytes>)
    requires Inv(setup, n) && s in setup.disks && i < |n.intake.tails[s].out|
    requires R.Later(n.intake.tails[s].files, later) && |later| == |setup.disks[s]|
    ensures n.intake.tails[s].out[i].gen == |later| - 1
  {
    var t := n.intake.tails[s];
    assert I.Sound(setup.hash, setup.disks, setup.Resume(), n.intake, s);
    assert t.first == |later| - 1 && Restart.Placed(t.files, t.out[i]);
  }

  /** The cursors of an earlier run: the ordinals of its lines mean nothing any more. */
  function Renumbered(ck: M.Cursors): M.Cursors {
    map s | s in ck :: ck[s].(line := -1)
  }

  /** The next process starts with what these theorems ask of a start, so they hold of every process of
      every life. */
  lemma NextStartIsOk(setup: Setup, actions: seq<Action>, disks: I.Disks, spool: SpoolQueue.Spool, heads: Source -> R.Head)
    requires setup.Ok() && disks.Keys == setup.disks.Keys
    requires forall s :: s in disks ==> Restarts(setup, Run(setup, actions), s, disks[s], heads(s))
    ensures setup.(disks := disks, spool := spool, ck := Renumbered(Committed(setup, Run(setup, actions))), heads := heads).Ok()
  {
    var n := Run(setup, actions);
    var committed := Committed(setup, n);
    var next := setup.(disks := disks, spool := spool, ck := Renumbered(committed), heads := heads);
    EveryAgent(setup, actions);
    forall s | s in disks
      ensures Restart.Good(next.hash, disks[s], next.Resume()(s))
    {
      CommittedIsLegit(setup, n, s);
      CommittedIsGood(setup, n, s, committed, disks[s], heads(s));
      assert next.Resume()(s) == ResumeOf(committed, s, heads(s));
    }
  }

  lemma CommittedIsGood(setup: Setup, n: Agent, s: Source, committed: M.Cursors, later: seq<bytes>, head: R.Head)
    requires setup.Ok() && Inv(setup, n) && s in setup.disks && Legit(Lines(n), setup.ck, committed, s)
    requires Finds(setup.hash, n.intake.tails[s], committed, s, later, head)
    ensures Restart.Good(setup.hash, later, ResumeOf(committed, s, head))
  {
    var c := Covered(Done(setup, n, s), Lines(n), committed, s);
    CommittedIsCovered(setup, n, s, committed);
    if c > 0 {
      MovedIsGood(setup, n, s, committed, c, later, head);
    } else {
      UnmovedIsGood(setup, n, s, committed, later, head);
    }
  }

  lemma MovedIsGood(setup: Setup, n: Agent, s: Source, committed: M.Cursors, c: nat, later: seq<bytes>, head: R.Head)
    requires Inv(setup, n) && s in setup.disks && MovedTo(n.intake.tails[s].out, committed, s, c)
    requires Finds(setup.hash, n.intake.tails[s], committed, s, later, head)
    ensures Restart.Good(setup.hash, later, ResumeOf(committed, s, head))
  {
    var t := n.intake.tails[s];
    assert I.Sound(setup.hash, setup.disks, setup.Resume(), n.intake, s);
    assert Restart.Placed(t.files, t.out[c - 1]);
    assert ResumeOf(committed, s, head) == Some(Restart.PointOf(t.out, c, head));
    Restart.PointIsGood(setup.hash, t, later, c, head);
  }

  lemma UnmovedIsGood(setup: Setup, n: Agent, s: Source, committed: M.Cursors, later: seq<bytes>, head: R.Head)
    requires setup.Ok() && Inv(setup, n) && s in setup.disks && Unmoved(setup.ck, committed, s)
    requires Finds(setup.hash, n.intake.tails[s], committed, s, later, head)
    ensures Restart.Good(setup.hash, later, ResumeOf(committed, s, head))
  {
    var files, resume := setup.disks[s], setup.Resume()(s);
    assert I.Sound(setup.hash, setup.disks, setup.Resume(), n.intake, s);
    var events :| n.intake.tails[s] == R.Run(setup.hash, R.Reopen(setup.hash, files, resume), events);
    Restart.RunGrows(setup.hash, R.Reopen(setup.hash, files, resume), events);
    Restart.LaterTrans(files, n.intake.tails[s].files, later);
    assert Restart.Good(setup.hash, files, resume);
    AgainIsGood(setup.hash, files, later, resume, ResumeOf(committed, s, head));
  }
}
