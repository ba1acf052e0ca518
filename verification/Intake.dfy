/** Tail sources and the joiner put together (internal/agent/tailfile.go, internal/agent/multiline.go):
    from the bytes of every generation of every path to records, under every schedule of writes,
    rotations, polls, deliveries and timeouts. */
module Intake {
  import opened Prelude
  import Lines
  import Tail
  import R = Rotation
  import Restart
  import J = Multiline

  type Source = J.Source

  /** The generations of each path. */
  type Disks = m: map<Source, seq<bytes>> | forall s :: s in m ==> m[s] != [] witness map[]

  type Cursors = Source -> Option<R.Point>

  /** What emit sends for a range of a file. */
  function LineOf(s: Source, files: seq<bytes>, e: R.Emission): J.Line {
    J.Line(s, e.line.start, e.line.offset, e.gen, if Restart.Placed(files, e) then Tail.Text(files[e.gen], e.line) else [])
  }

  function Lifted(s: Source, files: seq<bytes>, out: seq<R.Emission>): (r: seq<J.Line>)
    ensures |r| == |out| && forall i :: 0 <= i < |r| ==> r[i] == LineOf(s, files, out[i])
  {
    seq(|out|, i requires 0 <= i < |out| => LineOf(s, files, out[i]))
  }

  /** Every source's state, and all that the joiner has received. */
  datatype Intake = Intake(tails: map<Source, R.Tailer>, heard: seq<J.Input>)

  ghost predicate AllValid(n: Intake) {
    forall s :: s in n.tails ==> R.Valid(n.tails[s])
  }

  /** What a source has emitted, whether or not the joiner has received it. */
  function Emitted(n: Intake, s: Source): seq<J.Line>
    requires s in n.tails
  {
    Lifted(s, n.tails[s].files, n.tails[s].out)
  }

  /** A path or its source makes a step; the joiner receives the next line of a source; its timer fires;
      its input is closed. */
  datatype Action = Tails(s: Source, e: R.Event) | Hears(s: Source, now: nat) | Ticks(now: nat) | Ends

  function Hear(n: Intake, s: Source, now: nat): Intake {
    if s !in n.tails then n
    else
      var k := |J.LinesOf(s, n.heard)|;
      if k < |n.tails[s].out| then n.(heard := n.heard + [J.Got(Emitted(n, s)[k], now)]) else n
  }

  ghost function Do(hash: R.Hash, n: Intake, a: Action): (r: Intake)
    requires AllValid(n)
    ensures AllValid(r) && r.tails.Keys == n.tails.Keys
  {
    match a
    case Tails(s, e) => if s in n.tails then n.(tails := n.tails[s := R.Step(hash, n.tails[s], e)]) else n
    case Hears(s, now) => Hear(n, s, now)
    case Ticks(now) => n.(heard := n.heard + [J.Fires(now)])
    case Ends => n.(heard := n.heard + [J.Closed])
  }

  function Boot(hash: R.Hash, disks: Disks, resume: Cursors): Intake {
    Intake(map s | s in disks :: R.Reopen(hash, disks[s], resume(s)), [])
  }

  ghost function Run(hash: R.Hash, disks: Disks, resume: Cursors, actions: seq<Action>): (r: Intake)
    ensures AllValid(r) && r.tails.Keys == disks.Keys
    decreases |actions|
  {
    if actions == [] then Boot(hash, disks, resume)
    else Do(hash, Run(hash, disks, resume, actions[..|actions| - 1]), actions[|actions| - 1])
  }

  ghost predicate Tailed(hash: R.Hash, files: seq<bytes>, resume: Option<R.Point>, t: R.Tailer)
    requires files != []
  {
    exists events :: t == R.Run(hash, R.Reopen(hash, files, resume), events)
  }

  /** The joiner has received a beginning of what the source emitted. */
  ghost predicate Fed(n: Intake, s: Source)
    requires s in n.tails
  {
    Restart.Ranked(n.tails[s]) && J.LinesOf(s, n.heard) <= Emitted(n, s)
  }

  /** What the invariant below says of one source. */
  ghost predicate Sound(hash: R.Hash, disks: Disks, resume: Cursors, n: Intake, s: Source)
    requires s in disks && s in n.tails
  {
    Tailed(hash, disks[s], resume(s), n.tails[s]) && Fed(n, s)
  }

  ghost predicate Inv(hash: R.Hash, disks: Disks, resume: Cursors, n: Intake) {
    && n.tails.Keys == disks.Keys && AllValid(n) && J.AllBounded(n.heard)
    && forall s :: s in disks ==> Sound(hash, disks, resume, n, s)
  }

  lemma TextIsBounded(data: bytes, l: Tail.Line)
    requires l.start <= l.offset <= |data|
    ensures |Tail.Text(data, l)| <= Lines.MAX_MESSAGE
  {
  }

  /** A line's text does not change when its file grows. */
  lemma LiftedLater(s: Source, a: seq<bytes>, b: seq<bytes>, out: seq<R.Emission>)
    requires R.Later(a, b) && forall i :: 0 <= i < |out| ==> Restart.Placed(a, out[i])
    ensures Lifted(s, a, out) == Lifted(s, b, out)
  {
    forall i | 0 <= i < |out|
      ensures LineOf(s, a, out[i]) == LineOf(s, b, out[i])
    {
      var e := out[i];
      assert Restart.Placed(a, e) && a[e.gen] <= b[e.gen];
      assert a[e.gen][e.line.start..e.line.offset] == b[e.gen][e.line.start..e.line.offset];
    }
  }

  lemma StepKeeps(hash: R.Hash, t: R.Tailer, e: R.Event)
    requires R.Valid(t) && Restart.Ranked(t)
    ensures var r := R.Step(hash, t, e); t.out <= r.out && R.Later(t.files, r.files)
  {
    R.StepGrows(hash, t, e);
  }

  lemma TailsFeeds(hash: R.Hash, n: Intake, s: Source, e: R.Event)
    requires AllValid(n) && s in n.tails && Fed(n, s)
    ensures Fed(Do(hash, n, Tails(s, e)), s)
  {
    var t, r := n.tails[s], Do(hash, n, Tails(s, e)).tails[s];
    StepKeeps(hash, t, e);
    Restart.StepRanked(hash, t, e);
    LiftedLater(s, t.files, r.files, t.out);
    assert Lifted(s, r.files, t.out) <= Lifted(s, r.files, r.out);
  }

  lemma StepTailed(hash: R.Hash, files: seq<bytes>, resume: Option<R.Point>, t: R.Tailer, e: R.Event)
    requires files != [] && R.Valid(t) && Tailed(hash, files, resume, t)
    ensures Tailed(hash, files, resume, R.Step(hash, t, e))
  {
    var events :| t == R.Run(hash, R.Reopen(hash, files, resume), events);
    assert (events + [e])[..|events|] == events;
    assert R.Step(hash, t, e) == R.Run(hash, R.Reopen(hash, files, resume), events + [e]);
  }

  lemma TailsSound(hash: R.Hash, disks: Disks, resume: Cursors, n: Intake, s: Source, e: R.Event)
    requires AllValid(n) && s in disks && s in n.tails && Sound(hash, disks, resume, n, s)
    ensures Sound(hash, disks, resume, Do(hash, n, Tails(s, e)), s)
  {
    TailsFeeds(hash, n, s, e);
    StepTailed(hash, disks[s], resume(s), n.tails[s], e);
  }

  lemma OthersSound(hash: R.Hash, disks: Disks, resume: Cursors, n: Intake, r: Intake, u: Source)
    requires u in disks && u in n.tails && Sound(hash, disks, resume, n, u)
    requires u in r.tails && r.tails[u] == n.tails[u] && r.heard == n.heard
    ensures Sound(hash, disks, resume, r, u)
  {
  }

  lemma TailsKeeps(hash: R.Hash, disks: Disks, resume: Cursors, n: Intake, s: Source, e: R.Event)
    requires Inv(hash, disks, resume, n) && s in disks
    ensures Inv(hash, disks, resume, Do(hash, n, Tails(s, e)))
  {
    var r := Do(hash, n, Tails(s, e));
    TailsSound(hash, disks, resume, n, s, e);
    forall u | u in disks
      ensures Sound(hash, disks, resume, r, u)
    {
      if u != s {
        OthersSound(hash, disks, resume, n, r, u);
      }
    }
  }

  lemma HeardMore(n: Intake, r: Intake, input: J.Input, s: Source)
    requires s in n.tails && Fed(n, s) && r.tails == n.tails && r.heard == n.heard + [input]
    requires input.Got? && input.line.source == s ==> J.LinesOf(s, n.heard) + [input.line] <= Emitted(n, s)
    ensures Fed(r, s)
  {
    assert r.heard[..|r.heard| - 1] == n.heard;
    assert J.LinesOf(s, n.heard) + [] == J.LinesOf(s, n.heard);
  }

  lemma HeardBounded(heard: seq<J.Input>, input: J.Input)
    requires J.AllBounded(heard) && (input.Got? ==> |input.line.text| <= Lines.MAX_MESSAGE)
    ensures J.AllBounded(heard + [input])
  {
  }

  lemma HearsKeeps(hash: R.Hash, disks: Disks, resume: Cursors, n: Intake, s: Source, now: nat)
    requires Inv(hash, disks, resume, n)
    ensures Inv(hash, disks, resume, Hear(n, s, now))
  {
    var r := Hear(n, s, now);
    if r != n {
      var k, all := |J.LinesOf(s, n.heard)|, Emitted(n, s);
      assert Sound(hash, disks, resume, n, s);
      assert J.LinesOf(s, n.heard) == all[..k] && all[..k] + [all[k]] == all[..k + 1];
      var e := n.tails[s].out[k];
      assert Restart.Placed(n.tails[s].files, e);
      TextIsBounded(n.tails[s].files[e.gen], e.line);
      HeardBounded(n.heard, J.Got(all[k], now));
      forall u | u in disks
        ensures Sound(hash, disks, resume, r, u)
      {
        assert Sound(hash, disks, resume, n, u);
        HeardMore(n, r, J.Got(all[k], now), u);
      }
    }
  }

  lemma QuietKeeps(hash: R.Hash, disks: Disks, resume: Cursors, n: Intake, input: J.Input)
    requires Inv(hash, disks, resume, n) && !input.Got?
    ensures Inv(hash, disks, resume, n.(heard := n.heard + [input]))
  {
    var r := n.(heard := n.heard + [input]);
    forall u | u in disks
      ensures Sound(hash, disks, resume, r, u)
    {
      assert Sound(hash, disks, resume, n, u);
      HeardMore(n, r, input, u);
    }
  }

  lemma BootInv(hash: R.Hash, disks: Disks, resume: Cursors)
    ensures Inv(hash, disks, resume, Boot(hash, disks, resume))
  {
    var n := Boot(hash, disks, resume);
    forall s | s in disks
      ensures Sound(hash, disks, resume, n, s)
    {
      assert n.tails[s] == R.Run(hash, R.Reopen(hash, disks[s], resume(s)), []);
    }
  }

  lemma DoInv(hash: R.Hash, disks: Disks, resume: Cursors, n: Intake, a: Action)
    requires Inv(hash, disks, resume, n)
    ensures Inv(hash, disks, resume, Do(hash, n, a))
  {
    match a
    case Tails(s, e) => if s in disks { TailsKeeps(hash, disks, resume, n, s, e); }
    case Hears(s, now) => HearsKeeps(hash, disks, resume, n, s, now);
    case Ticks(now) => QuietKeeps(hash, disks, resume, n, J.Fires(now));
    case Ends => QuietKeeps(hash, disks, resume, n, J.Closed);
  }

  lemma HearsOneMore(hash: R.Hash, n: Intake, a: Action)
    requires AllValid(n)
    ensures var r := Do(hash, n, a).heard;
            r == n.heard || (|r| == |n.heard| + 1 && r[..|n.heard|] == n.heard)
  {
  }

  /** Under every interleaving the joiner receives a beginning of what each source emitted, in order. */
  lemma {:induction false} EveryIntake(hash: R.Hash, disks: Disks, resume: Cursors, actions: seq<Action>)
    ensures Inv(hash, disks, resume, Run(hash, disks, resume, actions))
    decreases |actions|
  {
    if actions == [] {
      BootInv(hash, disks, resume);
    } else {
      var n := Run(hash, disks, resume, actions[..|actions| - 1]);
      EveryIntake(hash, disks, resume, actions[..|actions| - 1]);
      DoInv(hash, disks, resume, n, actions[|actions| - 1]);
    }
  }

  /** With short lines each source has read its generations as Rotation says. */
  lemma EverySourceIsFaithful(hash: R.Hash, disks: Disks, resume: Cursors, n: Intake, s: Source)
    requires Inv(hash, disks, resume, n) && s in disks && R.AllShort(n.tails[s].files)
    ensures R.Faithful(hash, n.tails[s])
  {
    assert Sound(hash, disks, resume, n, s);
    var events :| n.tails[s] == R.Run(hash, R.Reopen(hash, disks[s], resume(s)), events);
    R.EveryGeneration(hash, disks[s], resume(s), events);
  }

  /** The lines of a source as the joiner has grouped them, the record it still holds included. */
  function Groups(cfg: J.Config, n: Intake, s: Source): seq<seq<J.Line>> {
    var j := J.Run(cfg, s, n.heard);
    if j.open == [] then j.done else j.done + [j.open]
  }

  lemma GroupsAreLines(cfg: J.Config, n: Intake, s: Source)
    requires J.AllBounded(n.heard)
    ensures J.Flat(Groups(cfg, n, s)) == J.LinesOf(s, n.heard)
    ensures forall i :: 0 <= i < |Groups(cfg, n, s)| ==> J.Proper(cfg, Groups(cfg, n, s)[i])
  {
    J.RecordsAreTheLines(cfg, s, n.heard);
    var j := J.Run(cfg, s, n.heard);
    if j.open != [] {
      J.FlatSnoc(j.done, j.open);
    } else {
      assert J.Flat(j.done) + [] == J.Flat(j.done);
    }
  }

  // The part of a record in one generation

  /** The lines of one generation. */
  function Within(lines: seq<J.Line>, g: nat): seq<J.Line>
    decreases |lines|
  {
    if lines == [] then []
    else
      var k := |lines| - 1;
      Within(lines[..k], g) + if lines[k].file == g then [lines[k]] else []
  }

  /** The records' parts in one generation: a record that spans a rotation has one in each. */
  function Pieces(groups: seq<seq<J.Line>>, g: nat): (r: seq<seq<J.Line>>)
    ensures forall i :: 0 <= i < |r| ==> r[i] != []
    decreases |groups|
  {
    if groups == [] then []
    else
      var k := |groups| - 1;
      Pieces(groups[..k], g) + if Within(groups[k], g) == [] then [] else [Within(groups[k], g)]
  }

  /** A record within one generation is its own part. */
  lemma {:induction false} WithinAll(lines: seq<J.Line>, g: nat)
    ensures (forall i :: 0 <= i < |lines| ==> lines[i].file == g) ==> Within(lines, g) == lines
    ensures (forall i :: 0 <= i < |lines| ==> lines[i].file != g) ==> Within(lines, g) == []
    decreases |lines|
  {
    if lines != [] {
      var k := |lines| - 1;
      WithinAll(lines[..k], g);
      assert lines == lines[..k] + [lines[k]];
    }
  }

  lemma {:induction false} WithinConcat(a: seq<J.Line>, b: seq<J.Line>, g: nat)
    ensures Within(a + b, g) == Within(a, g) + Within(b, g)
    decreases |b|
  {
    if b == [] {
      assert a + b == a;
    } else {
      var k := |b| - 1;
      assert (a + b)[..|a + b| - 1] == a + b[..k];
      WithinConcat(a, b[..k], g);
    }
  }

  lemma {:induction false} PiecesFlat(groups: seq<seq<J.Line>>, g: nat)
    ensures J.Flat(Pieces(groups, g)) == Within(J.Flat(groups), g)
    decreases |groups|
  {
    if groups != [] {
      var k := |groups| - 1;
      PiecesFlat(groups[..k], g);
      WithinConcat(J.Flat(groups[..k]), groups[k], g);
      if Within(groups[k], g) == [] {
        assert Pieces(groups[..k], g) + [] == Pieces(groups[..k], g);
        assert Within(J.Flat(groups[..k]), g) + [] == Within(J.Flat(groups[..k]), g);
      } else {
        J.FlatSnoc(Pieces(groups[..k], g), Within(groups[k], g));
      }
    }
  }

  /** The lines of a generation that were received follow one another as its ranges do. */
  lemma {:induction false} WithinIsContiguous(s: Source, files: seq<bytes>, out: seq<R.Emission>, g: nat, from: nat, to: nat)
    requires Tail.Tiles(R.Of(out, g), from, to)
    ensures J.Contiguous(Within(Lifted(s, files, out), g), from, to)
    decreases |out|
  {
    if out != [] {
      var k := |out| - 1;
      assert out == out[..k] + [out[k]] && Lifted(s, files, out)[..k] == Lifted(s, files, out[..k]);
      R.OfConcat(out[..k], [out[k]], g);
      assert [out[k]][1..] == [];
      assert R.Of([out[k]], g) == if out[k].gen == g then [out[k].line] else [];
      if out[k].gen == g {
        TilesSnoc(R.Of(out[..k], g), out[k].line, from, to);
        WithinIsContiguous(s, files, out[..k], g, from, out[k].line.start);
        var w := Within(Lifted(s, files, out), g);
        assert w[..|w| - 1] == Within(Lifted(s, files, out[..k]), g);
      } else {
        assert R.Of(out[..k], g) + [] == R.Of(out[..k], g);
        WithinIsContiguous(s, files, out[..k], g, from, to);
        assert Within(Lifted(s, files, out), g) == Within(Lifted(s, files, out[..k]), g);
      }
    }
  }

  lemma {:induction false} TilesSnoc(a: seq<Tail.Line>, l: Tail.Line, from: nat, to: nat)
    requires Tail.Tiles(a + [l], from, to)
    ensures Tail.Tiles(a, from, l.start) && l.offset == to
    decreases |a|
  {
    if a == [] {
      assert (a + [l])[1..] == [];
    } else {
      assert (a + [l])[1..] == a[1..] + [l] && (a + [l])[0] == a[0];
      TilesSnoc(a[1..], l, a[0].offset, to);
    }
  }

  lemma {:induction false} TilesPrefix(a: seq<Tail.Line>, b: seq<Tail.Line>, from: nat, to: nat) returns (mid: nat)
    requires Tail.Tiles(a + b, from, to)
    ensures Tail.Tiles(a, from, mid) && (b == [] ==> mid == to)
    decreases |a|
  {
    if a == [] {
      mid := from;
      assert a + b == b;
    } else {
      assert (a + b)[1..] == a[1..] + b && (a + b)[0] == a[0];
      mid := TilesPrefix(a[1..], b, a[0].offset, to);
    }
  }

  /** Where the reading of a generation has got to. */
  function Extent(t: R.Tailer, g: nat): nat
    requires R.Valid(t) && t.first <= g <= t.gen
  {
    if g == t.gen then Tail.ReadToEof(t.files[g][..t.seen], R.From(t, g), false).offset
    else if g in t.entered then Tail.ReadToEof(t.files[g], R.From(t, g), true).offset
    else R.From(t, g)
  }

  lemma GenerationTiles(hash: R.Hash, t: R.Tailer, g: nat)
    requires R.Faithful(hash, t) && t.first <= g <= t.gen
    ensures Tail.Tiles(R.Of(t.out, g), R.From(t, g), Extent(t, g))
  {
    assert R.Told(t, g);
    if g == t.gen {
      Tail.ScanTiles(t.files[g][..t.seen], R.From(t, g), false);
    } else if g in t.entered {
      Tail.ScanTiles(t.files[g], R.From(t, g), true);
    }
  }

  /** The lines of a generation that the joiner has received tile it, as far as they go. */
  lemma HeardTiles(hash: R.Hash, n: Intake, s: Source, g: nat) returns (to: nat)
    requires s in n.tails && Fed(n, s) && R.Faithful(hash, n.tails[s]) && n.tails[s].first <= g <= n.tails[s].gen
    ensures J.Contiguous(Within(J.LinesOf(s, n.heard), g), R.From(n.tails[s], g), to)
    ensures J.LinesOf(s, n.heard) == Emitted(n, s) ==> to == Extent(n.tails[s], g)
  {
    var t, k := n.tails[s], |J.LinesOf(s, n.heard)|;
    GenerationTiles(hash, t, g);
    Restart.Parts(t.out, k, g);
    to := TilesPrefix(R.Of(t.out[..k], g), R.Of(t.out[k..], g), R.From(t, g), Extent(t, g));
    WithinIsContiguous(s, t.files, t.out[..k], g, R.From(t, g), to);
    assert Lifted(s, t.files, t.out[..k]) == J.LinesOf(s, n.heard);
    if k == |t.out| {
      assert t.out[k..] == [];
    }
  }

  /** From files to records. For every schedule of writes, rotations and polls of every source, every
      interleaving of deliveries and every timeout: the parts that the records of a source have in a
      generation tile it from where it was begun, without gap or overlap; and once the joiner has
      received everything, up to where the source has read. */
  lemma RecordsTile(hash: R.Hash, cfg: J.Config, disks: Disks, resume: Cursors, actions: seq<Action>, s: Source, g: nat)
    returns (to: nat)
    requires s in disks && R.AllShort(Run(hash, disks, resume, actions).tails[s].files)
    requires var t := Run(hash, disks, resume, actions).tails[s]; t.first <= g <= t.gen
    ensures var n := Run(hash, disks, resume, actions);
            && J.Contiguous(J.RecordsOf(Pieces(Groups(cfg, n, s), g)), R.From(n.tails[s], g), to)
            && (J.LinesOf(s, n.heard) == Emitted(n, s) ==> to == Extent(n.tails[s], g))
  {
    var n := Run(hash, disks, resume, actions);
    EveryIntake(hash, disks, resume, actions);
    assert Sound(hash, disks, resume, n, s);
    EverySourceIsFaithful(hash, disks, resume, n, s);
    to := HeardTiles(hash, n, s, g);
    GroupsAreLines(cfg, n, s);
    PiecesFlat(Groups(cfg, n, s), g);
    J.RecordsContiguous(Pieces(Groups(cfg, n, s), g), R.From(n.tails[s], g), to);
  }

  // Restarts

  lemma {:induction false} FlatTake(groups: seq<seq<J.Line>>, i: nat)
    requires i < |groups| && groups[i] != []
    ensures var c := |J.Flat(groups[..i + 1])|;
            0 < c <= |J.Flat(groups)| && J.Flat(groups)[..c] == J.Flat(groups[..i + 1])
            && J.Flat(groups)[c - 1] == groups[i][|groups[i]| - 1]
    decreases |groups|
  {
    var k := |groups| - 1;
    assert groups == groups[..k] + [groups[k]];
    if i == k {
      assert groups[..i + 1] == groups;
    } else {
      FlatTake(groups[..k], i);
      assert groups[..k][..i + 1] == groups[..i + 1];
    }
  }

  /** A record's cursor is that of its last line. */
  lemma RecordIsEmitted(cfg: J.Config, n: Intake, s: Source, i: nat) returns (c: nat)
    requires s in n.tails && Fed(n, s) && J.AllBounded(n.heard) && i < |J.Run(cfg, s, n.heard).done|
    ensures var group := J.Run(cfg, s, n.heard).done[i];
            && group != [] && c == |J.Flat(J.Run(cfg, s, n.heard).done[..i + 1])| && 0 < c <= |n.tails[s].out|
            && J.RecordOf(group).file == n.tails[s].out[c - 1].gen
            && J.RecordOf(group).offset == n.tails[s].out[c - 1].line.offset
  {
    var j := J.Run(cfg, s, n.heard);
    J.RecordsAreTheLines(cfg, s, n.heard);
    assert J.Proper(cfg, j.done[i]);
    FlatTake(j.done, i);
    c := |J.Flat(j.done[..i + 1])|;
    assert J.Flat(j.done)[c - 1] == J.LinesOf(s, n.heard)[c - 1] == Emitted(n, s)[c - 1];
  }

  /** Restarted at the cursor of any record, after any further writes and rotations, a source emits again
      exactly the lines after that record that are of the generation now at the path, in order, and then
      what had not been read. */
  lemma RestartAtRecord(hash: R.Hash, cfg: J.Config, disks: Disks, resume: Cursors, actions: seq<Action>, s: Source, i: nat,
                        later: seq<bytes>, head: R.Head)
    returns (c: nat, more: seq<Tail.Line>)
    requires s in disks && i < |J.Run(cfg, s, Run(hash, disks, resume, actions).heard).done|
    requires R.Later(Run(hash, disks, resume, actions).tails[s].files, later) && R.AllShort(later)
    requires J.Run(cfg, s, Run(hash, disks, resume, actions).heard).done[i] != []
    requires var r := J.RecordOf(J.Run(cfg, s, Run(hash, disks, resume, actions).heard).done[i]);
             r.file < |later| && R.Taken(hash, head, later[r.file])
    ensures var n := Run(hash, disks, resume, actions);
            var done, last := J.Run(cfg, s, n.heard).done, |later| - 1;
            var r := J.RecordOf(done[i]);
            && c == |J.Flat(done[..i + 1])| && c <= |n.tails[s].out|
            && Restart.Reread(hash, later, Some(R.Point(r.file, r.offset, head))) == R.Tag(last, R.Of(n.tails[s].out[c..], last) + more)
  {
    var n := Run(hash, disks, resume, actions);
    EveryIntake(hash, disks, resume, actions);
    assert Sound(hash, disks, resume, n, s);
    c := RecordIsEmitted(cfg, n, s, i);
    R.ShortBefore(n.tails[s].files, later);
    EverySourceIsFaithful(hash, disks, resume, n, s);
    more := Restart.RereadsTheRest(hash, n.tails[s], later, c, head);
  }
}
