/** The other half of a restart (internal/agent/checkpoint.go, internal/agent/shipper.go): what has been
    settled and committed is not read again. */
module PipelineSettled {
  import opened Prelude
  import Tail
  import R = Rotation
  import Restart
  import J = Multiline
  import I = Intake
  import M = ShipperModel
  import Moves = ShipperMoves
  import Progress = ShipperProgress
  import opened Pipeline

  /** Ranges that tile come in order, and start where the first one does. */
  lemma {:induction false} TilesAscend(lines: seq<Tail.Line>, from: nat, to: nat, i: nat, j: nat)
    requires Tail.Tiles(lines, from, to) && i <= j < |lines|
    ensures from <= lines[i].start < lines[i].offset <= to && (i < j ==> lines[i].offset <= lines[j].start < lines[j].offset)
    decreases |lines|
  {
    if |lines| > 1 {
      TilesAscend(lines[1..], lines[0].offset, to, if i == 0 then 0 else i - 1, if j == 0 then 0 else j - 1);
    }
  }

  /** All emissions are of one generation: they are its lines. */
  lemma {:induction false} OfAll(out: seq<R.Emission>, g: nat)
    requires forall i :: 0 <= i < |out| ==> out[i].gen == g
    ensures |R.Of(out, g)| == |out| && forall i :: 0 <= i < |out| ==> R.Of(out, g)[i] == out[i].line
  {
    if out != [] {
      OfAll(out[1..], g);
    }
  }

  /** The emissions of a path that has not been rotated come in order, from where the process began. */
  ghost predicate InOrder(out: seq<R.Emission>, g: nat, begin: nat) {
    && (forall i :: 0 <= i < |out| ==> out[i].gen == g && begin <= out[i].line.start < out[i].line.offset)
    && (forall i, j :: 0 <= i < j < |out| ==> out[i].line.offset <= out[j].line.start)
  }

  lemma ScanInOrder(out: seq<R.Emission>, g: nat, data: bytes, begin: nat)
    requires begin <= |data| && (forall i :: 0 <= i < |out| ==> out[i].gen == g)
    requires R.Of(out, g) == Tail.ReadToEof(data, begin, false).lines
    ensures InOrder(out, g, begin)
  {
    var r := Tail.ReadToEof(data, begin, false);
    OfAll(out, g);
    Tail.ScanTiles(data, begin, false);
    forall i, j | 0 <= i <= j < |out|
      ensures begin <= out[i].line.start < out[i].line.offset && (i < j ==> out[i].line.offset <= out[j].line.start)
    {
      TilesAscend(r.lines, begin, r.offset, i, j);
    }
  }

  /** Where the process began to read generation g. */
  function Begun(setup: Setup, s: Source, g: nat): nat {
    if s in setup.ck && setup.ck[s].file == g then setup.ck[s].offset else 0
  }

  lemma OneFile(setup: Setup, n: Agent, s: Source, later: seq<bytes>)
    requires Inv(setup, n) && s in setup.disks && |later| == |setup.disks[s]| && R.Later(n.intake.tails[s].files, later)
    ensures forall i :: 0 <= i < |n.intake.tails[s].out| ==> n.intake.tails[s].out[i].gen == |later| - 1
  {
    forall i | 0 <= i < |n.intake.tails[s].out|
      ensures n.intake.tails[s].out[i].gen == |later| - 1
    {
      OneGeneration(setup, n, s, i, later);
    }
  }

  lemma OneFileInOrder(setup: Setup, n: Agent, s: Source, later: seq<bytes>)
    requires setup.Ok() && Inv(setup, n) && s in setup.disks && |later| == |setup.disks[s]|
    requires R.Later(n.intake.tails[s].files, later) && R.AllShort(later)
    ensures later != []
    ensures InOrder(n.intake.tails[s].out, |later| - 1, Begun(setup, s, |later| - 1))
  {
    var t, g := n.intake.tails[s], |later| - 1;
    BeginsThere(setup, n, s, later);
    OpenIsTold(setup, n, s, later);
    OneFile(setup, n, s, later);
    ScanInOrder(t.out, g, t.files[g][..t.seen], t.begin);
  }

  lemma OpenIsTold(setup: Setup, n: Agent, s: Source, later: seq<bytes>)
    requires Inv(setup, n) && s in setup.disks && R.Later(n.intake.tails[s].files, later) && R.AllShort(later)
    ensures R.Valid(n.intake.tails[s])
    ensures var t := n.intake.tails[s];
            t.gen == t.first ==> R.Of(t.out, t.gen) == Tail.ReadToEof(t.files[t.gen][..t.seen], t.begin, false).lines
  {
    var t := n.intake.tails[s];
    R.ShortBefore(t.files, later);
    I.EverySourceIsFaithful(setup.hash, setup.disks, setup.Resume(), n.intake, s);
    assert R.Told(t, t.gen);
  }

  lemma BeginsThere(setup: Setup, n: Agent, s: Source, later: seq<bytes>)
    requires setup.Ok() && Inv(setup, n) && s in setup.disks && |later| == |setup.disks[s]|
    requires R.Later(n.intake.tails[s].files, later)
    ensures var t := n.intake.tails[s];
            && later != [] && t.first == t.gen == |later| - 1
            && t.begin == Begun(setup, s, |later| - 1)
  {
    var files, resume := setup.disks[s], setup.Resume()(s);
    assert I.Sound(setup.hash, setup.disks, setup.Resume(), n.intake, s);
    var events :| n.intake.tails[s] == R.Run(setup.hash, R.Reopen(setup.hash, files, resume), events);
    assert Restart.Good(setup.hash, files, resume);
    Restart.BeginIsKnown(setup.hash, files, resume);
  }

  /** Arrival m carries the cursor of its record's last emission. */
  ghost predicate EndsAt(out: seq<R.Emission>, done: seq<seq<J.Line>>, lines: seq<M.Line>, s: Source, m: nat)
    requires m < |lines|
  {
    var k := Rank(s, lines, m);
    var c := Spent(done, k + 1);
    && k < |done| && done[k] != [] && 0 < c <= |out|
    && lines[m].file == out[c - 1].gen && lines[m].offset == out[c - 1].line.offset
  }

  ghost predicate AllEnd(out: seq<R.Emission>, done: seq<seq<J.Line>>, lines: seq<M.Line>, s: Source) {
    forall m :: 0 <= m < |lines| && lines[m].source == s ==> EndsAt(out, done, lines, s, m)
  }

  lemma ArrivalCarries(lines: seq<M.Line>, done: seq<seq<J.Line>>, s: Source, m: nat)
    requires Matched(lines, done, s) && m < |lines| && lines[m].source == s
    ensures Rank(s, lines, m) < |done| && Carries(lines[m], done[Rank(s, lines, m)])
  {
    RankHolds(s, lines, m);
    assert Carries(Arrived(s, lines)[Rank(s, lines, m)], done[Rank(s, lines, m)]);
  }

  lemma RecordEnds(setup: Setup, n: Agent, s: Source, k: nat) returns (c: nat)
    requires Inv(setup, n) && s in setup.disks && k < |Done(setup, n, s)|
    ensures c == |J.Flat(Done(setup, n, s)[..k + 1])| && 0 < c <= |n.intake.tails[s].out| && Done(setup, n, s)[k] != []
    ensures var e, r := n.intake.tails[s].out[c - 1], J.RecordOf(Done(setup, n, s)[k]); r.file == e.gen && r.offset == e.line.offset
  {
    assert I.Sound(setup.hash, setup.disks, setup.Resume(), n.intake, s);
    c := I.RecordIsEmitted(setup.joins, n.intake, s, k);
  }

  /** Record k ends with some emission, and has its cursor. */
  ghost predicate RecordAt(out: seq<R.Emission>, done: seq<seq<J.Line>>, k: nat)
    requires k < |done|
  {
    var c := Spent(done, k + 1);
    && done[k] != [] && 0 < c <= |out|
    && J.RecordOf(done[k]).file == out[c - 1].gen && J.RecordOf(done[k]).offset == out[c - 1].line.offset
  }

  ghost predicate RecordsAt(out: seq<R.Emission>, done: seq<seq<J.Line>>) {
    forall k :: 0 <= k < |done| ==> RecordAt(out, done, k)
  }

  lemma RecordFound(out: seq<R.Emission>, done: seq<seq<J.Line>>, k: nat, c: nat)
    requires k < |done| && done[k] != [] && c == |J.Flat(done[..k + 1])| && 0 < c <= |out|
    requires J.RecordOf(done[k]).file == out[c - 1].gen && J.RecordOf(done[k]).offset == out[c - 1].line.offset
    ensures RecordAt(out, done, k)
  {
  }

  lemma RecordIsAt(setup: Setup, n: Agent, s: Source, done: seq<seq<J.Line>>, out: seq<R.Emission>, k: nat)
    requires Inv(setup, n) && s in setup.disks && done == Done(setup, n, s) && out == n.intake.tails[s].out && k < |done|
    ensures RecordAt(out, done, k)
  {
    var c := RecordEnds(setup, n, s, k);
    RecordFound(out, done, k, c);
  }

  lemma AgentRecords(setup: Setup, n: Agent, s: Source, done: seq<seq<J.Line>>, out: seq<R.Emission>)
    requires Inv(setup, n) && s in setup.disks && done == Done(setup, n, s) && out == n.intake.tails[s].out
    ensures RecordsAt(out, done)
  {
    forall k | 0 <= k < |done|
      ensures RecordAt(out, done, k)
    {
      RecordIsAt(setup, n, s, done, out, k);
    }
  }

  lemma AgentMatched(setup: Setup, n: Agent, s: Source)
    requires Inv(setup, n) && s in setup.disks
    ensures Matched(Lines(n), Done(setup, n, s), s)
  {
  }

  lemma MatchedEnd(out: seq<R.Emission>, done: seq<seq<J.Line>>, lines: seq<M.Line>, s: Source)
    requires Matched(lines, done, s) && RecordsAt(out, done)
    ensures AllEnd(out, done, lines, s)
  {
    forall m | 0 <= m < |lines| && lines[m].source == s
      ensures EndsAt(out, done, lines, s, m)
    {
      ArrivalCarries(lines, done, s, m);
      assert RecordAt(out, done, Rank(s, lines, m));
    }
  }

  lemma AgentEnds(setup: Setup, n: Agent, s: Source)
    requires Inv(setup, n) && s in setup.disks
    ensures AllEnd(n.intake.tails[s].out, Done(setup, n, s), Lines(n), s)
  {
    AgentMatched(setup, n, s);
    AgentRecords(setup, n, s, Done(setup, n, s), n.intake.tails[s].out);
    MatchedEnd(n.intake.tails[s].out, Done(setup, n, s), Lines(n), s);
  }

  lemma SpentMore(done: seq<seq<J.Line>>, a: nat, b: nat)
    requires a < b <= |done| && done[b - 1] != []
    ensures Spent(done, a) < Spent(done, b)
  {
    assert done[..b][..b - 1] == done[..b - 1] && done[..b][b - 1] == done[b - 1];
    SpentGrows(done, a, b - 1);
  }

  lemma EndsOrder(done: seq<seq<J.Line>>, s: Source, lines: seq<M.Line>, i: nat, j: nat)
    requires i < j < |lines| && lines[i].source == s && Rank(s, lines, j) < |done| && done[Rank(s, lines, j)] != []
    ensures Spent(done, Rank(s, lines, i) + 1) < Spent(done, Rank(s, lines, j) + 1)
  {
    RankGrows(s, lines, i, j);
    SpentMore(done, Rank(s, lines, i) + 1, Rank(s, lines, j) + 1);
  }

  lemma ArrivalsAscend(out: seq<R.Emission>, done: seq<seq<J.Line>>, lines: seq<M.Line>, s: Source, g: nat, begin: nat, i: nat, j: nat)
    requires AllEnd(out, done, lines, s) && InOrder(out, g, begin)
    requires i < j < |lines| && lines[i].source == s && lines[j].source == s
    ensures lines[i].file == lines[j].file && lines[i].offset < lines[j].offset
  {
    assert EndsAt(out, done, lines, s, i) && EndsAt(out, done, lines, s, j);
    EndsOrder(done, s, lines, i, j);
    var a, b := Spent(done, Rank(s, lines, i) + 1), Spent(done, Rank(s, lines, j) + 1);
    assert out[a - 1].line.offset <= out[b - 1].line.start < out[b - 1].line.offset;
  }

  /** The shipper receives the cursors of an unrotated file in order. */
  lemma ArrivalsGoOn(out: seq<R.Emission>, done: seq<seq<J.Line>>, lines: seq<M.Line>, s: Source, g: nat, begin: nat, ck: M.Cursors)
    requires AllEnd(out, done, lines, s) && InOrder(out, g, begin)
    requires s in ck && ck[s].file == g ==> begin == ck[s].offset
    ensures Progress.Onward(lines, s, ck)
  {
    forall i, j | 0 <= i < j < |lines| && lines[i].source == s && lines[j].source == s
      ensures lines[i].file == lines[j].file && lines[i].offset < lines[j].offset
    {
      ArrivalsAscend(out, done, lines, s, g, begin, i, j);
    }
    forall i | 0 <= i < |lines| && lines[i].source == s && s in ck && ck[s].file == lines[i].file
      ensures ck[s].offset < lines[i].offset
    {
      assert EndsAt(out, done, lines, s, i);
    }
  }

  /** The last arrival of a source has all of them before it or at it. */
  lemma LastRank(s: Source, lines: seq<M.Line>)
    requires Progress.Latest(lines, s) >= 0
    ensures Rank(s, lines, Progress.Latest(lines, s)) + 1 == |Arrived(s, lines)|
  {
    var m := Progress.Latest(lines, s);
    NoneAfter(s, lines, m + 1);
    assert lines[..m + 1][..m] == lines[..m];
  }

  lemma {:induction false} NoneAfter(s: Source, lines: seq<M.Line>, k: nat)
    requires k <= |lines| && forall j :: k <= j < |lines| ==> lines[j].source != s
    ensures Arrived(s, lines) == Arrived(s, lines[..k])
    decreases |lines|
  {
    if k < |lines| {
      var last := |lines| - 1;
      NoneAfter(s, lines[..last], k);
      assert lines[..last][..k] == lines[..k];
    } else {
      assert lines[..k] == lines;
    }
  }

  lemma {:induction false} NoneArrived(s: Source, lines: seq<M.Line>)
    requires Progress.Latest(lines, s) < 0
    ensures Arrived(s, lines) == []
  {
    NoneAfter(s, lines, 0);
    assert lines[..0] == [];
  }

  /** Every emission of the source is part of a record that the shipper has received; nothing is on its
      way; and the checkpoint has been committed. */
  ghost predicate AllDone(setup: Setup, n: Agent, s: Source)
    requires s in n.intake.tails
  {
    && Spent(Done(setup, n, s), |Arrived(s, Lines(n))|) == |n.intake.tails[s].out|
    && Progress.Empty(State(setup, n)) && State(setup, n).committed == State(setup, n).ck
  }

  lemma NothingSpent(done: seq<seq<J.Line>>)
    ensures Spent(done, 0) == 0
  {
    assert done[..0] == [];
  }

  lemma SomeArrived(done: seq<seq<J.Line>>, lines: seq<M.Line>, s: Source)
    requires Spent(done, |Arrived(s, lines)|) > 0
    ensures Progress.Latest(lines, s) >= 0
  {
    NothingSpent(done);
    if Progress.Latest(lines, s) < 0 {
      NoneArrived(s, lines);
    }
  }

  lemma CheckpointIsLast(setup: Setup, n: Agent, s: Source)
    requires setup.Ok() && setup.ships.labels(s).Some? && Progress.Onward(Lines(n), s, setup.ck)
    requires Progress.Clean(State(setup, n).log) && Progress.Empty(State(setup, n)) && Progress.Latest(Lines(n), s) >= 0
    ensures var ck, m := State(setup, n).ck, Progress.Latest(Lines(n), s);
            s in ck && ck[s].line == m && ck[s].file == Lines(n)[m].file && ck[s].offset == Lines(n)[m].offset
  {
    LinesAre(setup, n);
    Moves.EveryRunIsReachable(setup.ships, setup.spool, setup.ck, n.inputs);
    Progress.CheckpointCatchesUp(setup.ships, setup.spool, setup.ck, State(setup, n), s);
  }

  /** The cursor of the last arrival is that of the last emission, when all emissions have arrived. */
  lemma LastIsLast(out: seq<R.Emission>, done: seq<seq<J.Line>>, lines: seq<M.Line>, s: Source, m: nat, ck: M.Cursors)
    requires m < |lines| && EndsAt(out, done, lines, s, m) && Rank(s, lines, m) + 1 == |Arrived(s, lines)|
    requires Spent(done, |Arrived(s, lines)|) == |out|
    requires s in ck && ck[s].file == lines[m].file && ck[s].offset == lines[m].offset
    ensures MovedTo(out, ck, s, |out|)
  {
  }

  /** The committed cursor is that of the last emission. */
  lemma CommittedAtTheEnd(setup: Setup, n: Agent, s: Source)
    requires setup.Ok() && Inv(setup, n) && s in setup.disks && setup.ships.labels(s).Some? && Progress.Onward(Lines(n), s, setup.ck)
    requires Progress.Clean(State(setup, n).log) && AllDone(setup, n, s) && n.intake.tails[s].out != []
    ensures MovedTo(n.intake.tails[s].out, Committed(setup, n), s, |n.intake.tails[s].out|)
  {
    AgentEnds(setup, n, s);
    SomeArrived(Done(setup, n, s), Lines(n), s);
    CheckpointIsLast(setup, n, s);
    LastRank(s, Lines(n));
    LastIsLast(n.intake.tails[s].out, Done(setup, n, s), Lines(n), s, Progress.Latest(Lines(n), s), State(setup, n).ck);
  }

  /** What is read again starts where all that was read before ends, or later, and is none of it. */
  ghost predicate OnlyAfter(out: seq<R.Emission>, again: seq<R.Emission>) {
    && (forall i, j :: 0 <= i < |out| && 0 <= j < |again| ==> out[i].line.offset <= again[j].line.start)
    && (forall i :: 0 <= i < |out| ==> out[i] !in again)
  }

  /** When all that was read of a path has been settled and committed, and nothing was lost or refused, the
      next process reads of the same file only what comes after: none of the old lines again. */
  lemma SettledIsNotReadAgain(setup: Setup, actions: seq<Action>, s: Source, later: seq<bytes>, head: R.Head)
    requires var n := Run(setup, actions);
             && setup.Ok() && s in setup.disks && |later| == |setup.disks[s]| && setup.ships.labels(s).Some?
             && Restarts(setup, n, s, later, head)
             && Progress.Clean(State(setup, n).log) && AllDone(setup, n, s)
    ensures later != []
    ensures var n := Run(setup, actions);
            OnlyAfter(n.intake.tails[s].out, Restart.Reread(setup.hash, later, ResumeOf(Committed(setup, n), s, head)))
  {
    EveryAgent(setup, actions);
    DoneIsNotReadAgain(setup, Run(setup, actions), s, later, head);
  }

  lemma GoesOnFrom(setup: Setup, n: Agent, s: Source, g: nat, begin: nat)
    requires Inv(setup, n) && s in setup.disks && InOrder(n.intake.tails[s].out, g, begin) && begin == Begun(setup, s, g)
    ensures Progress.Onward(Lines(n), s, setup.ck)
  {
    AgentEnds(setup, n, s);
    ArrivalsGoOn(n.intake.tails[s].out, Done(setup, n, s), Lines(n), s, g, begin, setup.ck);
  }

  lemma AgentGoesOn(setup: Setup, n: Agent, s: Source, later: seq<bytes>)
    requires Inv(setup, n) && s in setup.disks && later != []
    requires InOrder(n.intake.tails[s].out, |later| - 1, Begun(setup, s, |later| - 1))
    ensures Progress.Onward(Lines(n), s, setup.ck)
  {
    GoesOnFrom(setup, n, s, |later| - 1, Begun(setup, s, |later| - 1));
  }

  lemma DoneIsNotReadAgain(setup: Setup, n: Agent, s: Source, later: seq<bytes>, head: R.Head)
    requires setup.Ok() && Inv(setup, n) && s in setup.disks && |later| == |setup.disks[s]| && setup.ships.labels(s).Some?
    requires Restarts(setup, n, s, later, head) && Progress.Clean(State(setup, n).log) && AllDone(setup, n, s)
    ensures later != []
    ensures OnlyAfter(n.intake.tails[s].out, Restart.Reread(setup.hash, later, ResumeOf(Committed(setup, n), s, head)))
  {
    OneFileInOrder(setup, n, s, later);
    AgentGoesOn(setup, n, s, later);
    if n.intake.tails[s].out != [] {
      CommittedAtTheEnd(setup, n, s);
      EndIsRead(setup, n, s, Committed(setup, n), later, head);
    }
  }

  lemma EndIsRead(setup: Setup, n: Agent, s: Source, committed: M.Cursors, later: seq<bytes>, head: R.Head)
    requires Inv(setup, n) && s in setup.disks && n.intake.tails[s].out != []
    requires MovedTo(n.intake.tails[s].out, committed, s, |n.intake.tails[s].out|)
    requires Finds(setup.hash, n.intake.tails[s], committed, s, later, head)
    requires later != [] && InOrder(n.intake.tails[s].out, |later| - 1, 0)
    ensures OnlyAfter(n.intake.tails[s].out, Restart.Reread(setup.hash, later, ResumeOf(committed, s, head)))
  {
    EndIsGood(setup, n, s, committed, later, head);
    ReadsOnlyAfter(setup.hash, later, ResumeOf(committed, s, head), n.intake.tails[s].out);
  }

  lemma EndIsGood(setup: Setup, n: Agent, s: Source, committed: M.Cursors, later: seq<bytes>, head: R.Head)
    requires Inv(setup, n) && s in setup.disks && n.intake.tails[s].out != []
    requires MovedTo(n.intake.tails[s].out, committed, s, |n.intake.tails[s].out|)
    requires Finds(setup.hash, n.intake.tails[s], committed, s, later, head)
    ensures Restart.Good(setup.hash, later, ResumeOf(committed, s, head))
  {
    MovedIsGood(setup, n, s, committed, |n.intake.tails[s].out|, later, head);
  }

  lemma ReadsOnlyAfter(hash: R.Hash, later: seq<bytes>, resume: Option<R.Point>, out: seq<R.Emission>)
    requires later != [] && Restart.Good(hash, later, resume) && out != [] && InOrder(out, |later| - 1, 0)
    requires resume.Some? && resume.value.file == |later| - 1 && resume.value.offset == out[|out| - 1].line.offset
    ensures OnlyAfter(out, Restart.Reread(hash, later, resume))
  {
    var last, again := |later| - 1, Restart.Reread(hash, later, resume);
    Restart.BeginIsKnown(hash, later, resume);
    Restart.RereadIs(hash, later, resume);
    var begin := resume.value.offset;
    Tail.ScanTiles(later[last], begin, false);
    var r := Tail.ReadToEof(later[last], begin, false);
    Restart.TagHolds(last, r.lines);
    forall i, j | 0 <= i < |out| && 0 <= j < |again|
      ensures out[i].line.offset <= again[j].line.start
    {
      TilesAscend(r.lines, begin, r.offset, j, j);
      assert i < |out| - 1 ==> out[i].line.offset <= out[|out| - 1].line.start;
    }
  }
}
