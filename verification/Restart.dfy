/** What a restarted source reads again (internal/agent/tailfile.go): from the cursor of any line that an
    earlier process emitted, or from the cursor that one began with. */
module Restart {
  import opened Prelude
  import opened Tail
  import opened Rotation

  predicate Placed(files: seq<bytes>, e: Emission) {
    e.gen < |files| && e.line.start < e.line.offset <= |files[e.gen]|
  }

  /** Every emission is a range of its file, and generations come in order. */
  ghost predicate Ranked(t: Tailer) {
    && (forall i :: 0 <= i < |t.out| ==> Placed(t.files, t.out[i]) && t.first <= t.out[i].gen <= t.gen)
    && (forall i, j :: 0 <= i < j < |t.out| ==> t.out[i].gen <= t.out[j].gen)
  }

  lemma {:induction false} ScanPlaced(data: bytes, offset: nat, final: bool)
    requires offset <= |data|
    ensures forall l :: l in ReadToEof(data, offset, final).lines ==> l.start < l.offset <= |data|
    decreases |data| - offset
  {
    var j := Newline(data, offset);
    if j < |data| {
      ScanPlaced(data, j + 1, final);
    } else if Emits(data, offset, final) {
      EmitsSomething(data, offset, final);
    }
  }

  lemma {:induction false} TagHolds(gen: nat, lines: seq<Line>)
    ensures |Tag(gen, lines)| == |lines|
    ensures forall i :: 0 <= i < |lines| ==> Tag(gen, lines)[i] == Emission(gen, lines[i])
  {
    if lines != [] {
      TagHolds(gen, lines[1..]);
    }
  }

  /** The open generation is the last one that gave a line. */
  lemma MoreRanked(t: Tailer, r: Tailer, lines: seq<Line>)
    requires Valid(t) && Ranked(t) && r.out == t.out + Tag(t.gen, lines)
    requires r.files == t.files && r.first == t.first && t.gen <= r.gen
    requires forall l :: l in lines ==> l.start < l.offset <= |t.files[t.gen]|
    ensures Ranked(r)
  {
    TagHolds(t.gen, lines);
    forall i | 0 <= i < |r.out|
      ensures Placed(r.files, r.out[i]) && r.first <= r.out[i].gen <= t.gen && (i >= |t.out| ==> r.out[i].gen == t.gen)
    {
      if i >= |t.out| {
        assert r.out[i] == Emission(t.gen, lines[i - |t.out|]);
        assert lines[i - |t.out|] in lines;
      } else {
        assert r.out[i] == t.out[i];
      }
    }
  }

  lemma PollRanked(hash: Hash, t: Tailer)
    requires Valid(t) && Ranked(t)
    ensures Ranked(Step(hash, t, Poll))
  {
    var d := t;
    if t.gen < |t.files| - 1 {
      d := Drain(t);
      var was := t.files[t.gen];
      var from := if t.offset <= |was| then t.offset else |was|;
      ScanPlaced(was, from, true);
      MoreRanked(t, d, ReadToEof(was, from, true).lines);
    }
    var data := d.files[d.gen];
    var from := Resume(hash, data, d.offset, d.head);
    ScanPlaced(data, from, false);
    MoreRanked(d, CatchUp(hash, d), ReadToEof(data, from, false).lines);
  }

  lemma StepRanked(hash: Hash, t: Tailer, e: Event)
    requires Valid(t) && Ranked(t)
    ensures Ranked(Step(hash, t, e))
  {
    var r := Step(hash, t, e);
    if e.Poll? {
      PollRanked(hash, t);
    } else {
      forall i | 0 <= i < |t.out|
        ensures Placed(r.files, r.out[i])
      {
        assert Placed(t.files, t.out[i]);
      }
    }
  }

  lemma {:induction false} RunRanked(hash: Hash, t: Tailer, events: seq<Event>)
    requires Valid(t) && Ranked(t)
    ensures Ranked(Run(hash, t, events))
    decreases |events|
  {
    if events != [] {
      RunRanked(hash, t, events[..|events| - 1]);
      StepRanked(hash, Run(hash, t, events[..|events| - 1]), events[|events| - 1]);
    }
  }

  /** A cursor that an earlier process could have left: of a generation that existed, within it, with a
      fingerprint taken of it. */
  ghost predicate Good(hash: Hash, files: seq<bytes>, resume: Option<Point>) {
    resume.Some? ==>
      var p := resume.value;
      p.file < |files| && p.offset <= |files[p.file]| && Taken(hash, p.head, files[p.file])
  }

  lemma GoodLater(hash: Hash, a: seq<bytes>, b: seq<bytes>, resume: Option<Point>)
    requires Later(a, b) && Good(hash, a, resume)
    ensures Good(hash, b, resume)
  {
    if resume.Some? {
      var p := resume.value;
      assert a[p.file] <= b[p.file];
      TakenLater(hash, p.head, a[p.file], b[p.file]);
    }
  }

  /** Such a cursor is followed if and only if its generation is the one at the path. */
  lemma BeginIsKnown(hash: Hash, files: seq<bytes>, resume: Option<Point>)
    requires files != [] && Good(hash, files, resume)
    ensures Begin(hash, files, resume)
         == if resume.Some? && resume.value.file == |files| - 1 then resume.value.offset else 0
  {
    if resume.Some? {
      TakenLater(hash, resume.value.head, files[resume.value.file], files[resume.value.file]);
    }
  }

  /** The first poll of the restarted process. */
  function Reread(hash: Hash, later: seq<bytes>, resume: Option<Point>): seq<Emission>
    requires later != []
  {
    CatchUp(hash, Reopen(hash, later, resume)).out
  }

  lemma RereadIs(hash: Hash, later: seq<bytes>, resume: Option<Point>)
    requires later != []
    ensures var last := |later| - 1;
            Reread(hash, later, resume) == Tag(last, ReadToEof(later[last], Begin(hash, later, resume), false).lines)
  {
    var t := Reopen(hash, later, resume);
    TakenLater(hash, t.head, later[t.gen], later[t.gen]);
    assert [] + Tag(t.gen, ReadToEof(later[t.gen], t.offset, false).lines) == Tag(t.gen, ReadToEof(later[t.gen], t.offset, false).lines);
  }

  /** What was emitted of the open generation is the beginning of what one scan of the grown file gives. */
  lemma EmittedIsPrefix(hash: Hash, t: Tailer, data: bytes) returns (more: seq<Line>)
    requires Faithful(hash, t) && t.files[t.gen] <= data && Short(data)
    ensures From(t, t.gen) <= |data|
    ensures ReadToEof(data, From(t, t.gen), false).lines == Of(t.out, t.gen) + more
  {
    var a, from := t.files[t.gen][..t.seen], From(t, t.gen);
    assert Told(t, t.gen);
    ShortEarlier(a, data);
    ShortNeverSplits(a, from);
    ScanContinues(a, data, from, false);
    more := ReadToEof(data, ReadToEof(a, from, false).offset, false).lines;
  }

  lemma OfLast(out: seq<Emission>, c: nat)
    requires 0 < c <= |out|
    ensures var g := out[c - 1].gen;
            Of(out[..c], g) == Of(out[..c - 1], g) + [out[c - 1].line]
  {
    assert out[..c] == out[..c - 1] + [out[c - 1]];
    OfConcat(out[..c - 1], [out[c - 1]], out[c - 1].gen);
  }

  lemma {:induction false} NoneOf(out: seq<Emission>, g: nat)
    requires forall i :: 0 <= i < |out| ==> out[i].gen != g
    ensures Of(out, g) == []
  {
    if out != [] {
      assert out[0].gen != g;
      NoneOf(out[1..], g);
    }
  }

  lemma Parts(out: seq<Emission>, c: nat, g: nat)
    requires c <= |out|
    ensures Of(out, g) == Of(out[..c], g) + Of(out[c..], g)
  {
    assert out == out[..c] + out[c..];
    OfConcat(out[..c], out[c..], g);
  }

  /** The cursor of the c-th emission. */
  function PointOf(out: seq<Emission>, c: nat, head: Head): Point
    requires 0 < c <= |out|
  {
    Point(out[c - 1].gen, out[c - 1].line.offset, head)
  }

  lemma PointIsGood(hash: Hash, t: Tailer, later: seq<bytes>, c: nat, head: Head)
    requires Ranked(t) && Later(t.files, later) && 0 < c <= |t.out| && Taken(hash, head, later[t.out[c - 1].gen])
    ensures Good(hash, later, Some(PointOf(t.out, c, head)))
  {
    assert Placed(t.files, t.out[c - 1]) && t.files[t.out[c - 1].gen] <= later[t.out[c - 1].gen];
  }

  lemma RestOfOpen(hash: Hash, t: Tailer, data: bytes, c: nat) returns (more: seq<Line>)
    requires Faithful(hash, t) && t.files[t.gen] <= data && Short(data)
    requires 0 < c <= |t.out| && t.out[c - 1].gen == t.gen && t.out[c - 1].line.offset <= |data|
    ensures ReadToEof(data, t.out[c - 1].line.offset, false).lines == Of(t.out[c..], t.gen) + more
  {
    more := EmittedIsPrefix(hash, t, data);
    Parts(t.out, c, t.gen);
    OfLast(t.out, c);
    var a, l, b := Of(t.out[..c - 1], t.gen), t.out[c - 1].line, Of(t.out[c..], t.gen);
    var lines := ReadToEof(data, From(t, t.gen), false).lines;
    Nth(a, l, b, more, lines);
    RestartReproduces(data, From(t, t.gen), false, |a|);
  }

  lemma Nth(a: seq<Line>, l: Line, b: seq<Line>, more: seq<Line>, lines: seq<Line>)
    requires lines == ((a + [l]) + b) + more
    ensures |a| < |lines| && lines[|a|] == l && lines[|a| + 1..] == b + more
  {
  }

  lemma RestOfLater(hash: Hash, t: Tailer, later: seq<bytes>, c: nat) returns (more: seq<Line>)
    requires Faithful(hash, t) && Ranked(t) && Later(t.files, later) && AllShort(later)
    requires 0 < c <= |t.out| && t.out[c - 1].gen < |later| - 1
    ensures ReadToEof(later[|later| - 1], 0, false).lines == Of(t.out[c..], |later| - 1) + more
  {
    var last := |later| - 1;
    Parts(t.out, c, last);
    NoneOf(t.out[..c], last);
    more := RereadsFresh(hash, t, later);
    assert [] + Of(t.out[c..], last) == Of(t.out[c..], last);
  }

  /** Restarted at the cursor of the c-th emission, a source emits again exactly the later ones of the
      generation at the path, in order, and then what nobody had read: all of them when the path still
      names the generation that the process had open, none once it has been rotated away. */
  lemma RereadsTheRest(hash: Hash, t: Tailer, later: seq<bytes>, c: nat, head: Head) returns (more: seq<Line>)
    requires Faithful(hash, t) && Ranked(t) && Later(t.files, later) && AllShort(later)
    requires 0 < c <= |t.out| && Taken(hash, head, later[t.out[c - 1].gen])
    ensures var last := |later| - 1;
            Reread(hash, later, Some(PointOf(t.out, c, head))) == Tag(last, Of(t.out[c..], last) + more)
  {
    var last, p := |later| - 1, PointOf(t.out, c, head);
    PointIsGood(hash, t, later, c, head);
    BeginIsKnown(hash, later, Some(p));
    RereadIs(hash, later, Some(p));
    if p.file == last {
      assert t.files[last] <= later[last];
      more := RestOfOpen(hash, t, later[last], c);
    } else {
      more := RestOfLater(hash, t, later, c);
    }
  }

  /** A generation that the process began at zero, or has not opened, is read from its start. */
  lemma RereadsFresh(hash: Hash, t: Tailer, later: seq<bytes>) returns (more: seq<Line>)
    requires Faithful(hash, t) && Later(t.files, later) && AllShort(later) && later != []
    requires From(t, |later| - 1) == 0
    ensures var last := |later| - 1;
            ReadToEof(later[last], 0, false).lines == Of(t.out, last) + more
  {
    var last := |later| - 1;
    if last == t.gen {
      more := EmittedIsPrefix(hash, t, later[last]);
    } else {
      assert Told(t, last);
      more := ReadToEof(later[last], 0, false).lines;
    }
  }

  predicate SamePlace(a: Option<Point>, b: Option<Point>) {
    a.Some? == b.Some? && (a.Some? ==> a.value.file == b.value.file && a.value.offset == b.value.offset)
  }

  /** Restarted where the process itself began, a source emits all of it again, under the same
      condition. */
  lemma RereadsAll(hash: Hash, files: seq<bytes>, resume: Option<Point>, events: seq<Event>, later: seq<bytes>, again: Option<Point>)
    returns (more: seq<Line>)
    requires files != [] && Good(hash, files, resume) && AllShort(later)
    requires Later(Run(hash, Reopen(hash, files, resume), events).files, later)
    requires Good(hash, later, again) && SamePlace(resume, again)
    ensures var t, last := Run(hash, Reopen(hash, files, resume), events), |later| - 1;
            Reread(hash, later, again) == Tag(last, Of(t.out, last) + more)
  {
    var t, last := Run(hash, Reopen(hash, files, resume), events), |later| - 1;
    ShortBefore(t.files, later);
    EveryGeneration(hash, files, resume, events);
    RunGrows(hash, Reopen(hash, files, resume), events);
    LaterTrans(files, t.files, later);
    BeginIsKnown(hash, files, resume);
    BeginIsKnown(hash, later, again);
    RereadIs(hash, later, again);
    if last == t.first {
      more := EmittedIsPrefix(hash, t, later[last]);
    } else {
      more := RereadsFresh(hash, t, later);
    }
  }

  lemma LaterTrans(a: seq<bytes>, b: seq<bytes>, c: seq<bytes>)
    requires Later(a, b) && Later(b, c)
    ensures Later(a, c)
  {
    forall g | 0 <= g < |a|
      ensures a[g] <= c[g]
    {
      assert a[g] <= b[g] <= c[g];
    }
  }

  lemma {:induction false} RunGrows(hash: Hash, t: Tailer, events: seq<Event>)
    requires Valid(t)
    ensures Later(t.files, Run(hash, t, events).files)
    decreases |events|
  {
    if events != [] {
      var before := Run(hash, t, events[..|events| - 1]);
      RunGrows(hash, t, events[..|events| - 1]);
      StepGrows(hash, before, events[|events| - 1]);
      LaterTrans(t.files, before.files, Run(hash, t, events).files);
    }
  }
}
