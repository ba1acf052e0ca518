/** The joiner as it runs (internal/agent/multiline.go): one map of held records for all sources, grown
    and flushed in place. Whatever order its loops visit the map in, every source sees exactly the
    stage of Multiline that is its own. */
module Joiner {
  import opened Lines
  import opened Multiline

  /** heldRecord. */
  datatype Held = Held(line: Line, lines: nat, deadline: nat)

  /** The records of one source among all emitted. */
  function Of(out: seq<Line>, s: Source): seq<Line>
    decreases |out|
  {
    if out == [] then []
    else Of(out[..|out| - 1], s) + if out[|out| - 1].source == s then [out[|out| - 1]] else []
  }

  lemma OfSnoc(out: seq<Line>, r: Line, s: Source)
    ensures Of(out + [r], s) == Of(out, s) + if r.source == s then [r] else []
  {
    assert (out + [r])[..|out|] == out;
  }

  ghost predicate Solid(j: Joint, s: Source) {
    && (forall i :: 0 <= i < |j.done| ==> j.done[i] != [])
    && (j.open != [] ==> j.open[0].source == s)
  }

  /** What the map holds and the output has of a source is what its own stage says. */
  ghost predicate Shows(held: map<Source, Held>, out: seq<Line>, s: Source, j: Joint) {
    && Solid(j, s)
    && Of(out, s) == RecordsOf(j.done)
    && (s in held <==> j.open != [])
    && (s in held ==> held[s] == Held(RecordOf(j.open), |j.open|, j.deadline))
  }

  lemma FlushShows(held: map<Source, Held>, out: seq<Line>, s: Source, j: Joint)
    requires Shows(held, out, s, j) && s in held
    ensures Shows(held - {s}, out + [held[s].line], s, Flushed(j))
  {
    OfSnoc(out, held[s].line, s);
    assert RecordsOf(j.done + [j.open]) == RecordsOf(j.done) + [RecordOf(j.open)];
  }

  /** Another source's record changes nothing. */
  lemma OtherShows(held: map<Source, Held>, out: seq<Line>, held2: map<Source, Held>, out2: seq<Line>, s: Source, j: Joint)
    requires Shows(held, out, s, j) && Of(out2, s) == Of(out, s)
    requires (s in held2 <==> s in held) && (s in held ==> held2[s] == held[s])
    ensures Shows(held2, out2, s, j)
  {
  }

  lemma BeginShows(held: map<Source, Held>, out: seq<Line>, s: Source, j: Joint, line: Line, deadline: nat)
    requires Shows(held, out, s, j) && s !in held && line.source == s
    ensures Shows(held[s := Held(line, 1, deadline)], out, s, Joint(j.done, [line], deadline))
  {
  }

  lemma GrowShows(held: map<Source, Held>, out: seq<Line>, s: Source, j: Joint, line: Line, deadline: nat)
    requires Shows(held, out, s, j) && s in held && line.source == s
    ensures var h := held[s].line;
            Shows(held[s := Held(Line(h.source, h.start, line.offset, line.file, Multiline.Joined(h.text, line.text)), held[s].lines + 1, deadline)],
                  out, s, Joint(j.done, j.open + [line], deadline))
  {
    TextSnoc(j.open, line);
  }

  /** The stages of all sources, some of them flushed. */
  ghost function After(joints: Source -> Joint, done: set<Source>, s: Source): Joint {
    if s in done then Flushed(joints(s)) else joints(s)
  }

  ghost predicate AllShow(held: map<Source, Held>, out: seq<Line>, joints: Source -> Joint, done: set<Source>) {
    forall s :: Shows(held, out, s, After(joints, done, s))
  }

  lemma FlushAllShow(held: map<Source, Held>, out: seq<Line>, joints: Source -> Joint, done: set<Source>, source: Source)
    requires AllShow(held, out, joints, done) && source in held
    ensures AllShow(held - {source}, out + [held[source].line], joints, done + {source})
  {
    forall s
      ensures Shows(held - {source}, out + [held[source].line], s, After(joints, done + {source}, s))
    {
      assert Shows(held, out, s, After(joints, done, s)) && Shows(held, out, source, After(joints, done, source));
      OfSnoc(out, held[source].line, s);
      if s == source {
        FlushShows(held, out, s, After(joints, done, s));
      } else {
        OtherShows(held, out, held - {source}, out + [held[source].line], s, After(joints, done, s));
      }
    }
  }

  lemma NoneDone(held: map<Source, Held>, out: seq<Line>, joints: Source -> Joint)
    requires forall s :: Shows(held, out, s, joints(s))
    ensures AllShow(held, out, joints, {})
  {
  }

  /** A held record is open in its stage. */
  lemma HeldIs(held: map<Source, Held>, out: seq<Line>, joints: Source -> Joint, done: set<Source>, s: Source)
    requires AllShow(held, out, joints, done)
    ensures s in held <==> s !in done && joints(s).open != []
    ensures s in held ==> held[s] == Held(RecordOf(joints(s).open), |joints(s).open|, joints(s).deadline)
  {
    assert Shows(held, out, s, After(joints, done, s));
  }

  class JoinLoop {
    const cfg: Config
    var held: map<Source, Held>
    var out: seq<Line>

    constructor (cfg: Config)
      ensures this.cfg == cfg && forall s :: Shows(held, out, s, NOTHING)
    {
      this.cfg := cfg;
      held, out := map[], [];
    }

    /** flushOne, and the record leaves the map. */
    method Flush(source: Source, ghost joints: Source -> Joint, ghost done: set<Source>)
      requires source in held && AllShow(held, out, joints, done)
      modifies this
      ensures held == old(held) - {source} && AllShow(held, out, joints, done + {source})
    {
      FlushAllShow(held, out, joints, done, source);
      out := out + [held[source].line];
      held := held - {source};
    }

    /** newHeld. */
    method Hold(line: Line, now: nat, ghost joints: Source -> Joint, ghost done: set<Source>)
      requires line.source !in held && AllShow(held, out, joints, done)
      modifies `held
      ensures forall s :: Shows(held, out, s,
                if s == line.source then Joint(After(joints, done, s).done, [line], now + cfg.flushTimeout) else After(joints, done, s))
    {
      ghost var held0 := held;
      held := held[line.source := Held(line, 1, now + cfg.flushTimeout)];
      forall s
        ensures Shows(held, out, s,
                  if s == line.source then Joint(After(joints, done, s).done, [line], now + cfg.flushTimeout) else After(joints, done, s))
      {
        assert Shows(held0, out, s, After(joints, done, s));
        if s == line.source {
          BeginShows(held0, out, s, After(joints, done, s), line, now + cfg.flushTimeout);
        } else {
          OtherShows(held0, out, held, out, s, After(joints, done, s));
        }
      }
    }

    /** The default case of absorb. */
    method Grow(line: Line, now: nat, ghost joints: Source -> Joint)
      requires line.source in held && AllShow(held, out, joints, {})
      modifies `held
      ensures forall s :: Shows(held, out, s, if s == line.source then Joint(joints(s).done, joints(s).open + [line], now + cfg.flushTimeout) else joints(s))
    {
      var h := held[line.source];
      var text := h.line.text;
      if |text| > 0 {
        text := text + [NL];
      }
      text := text + line.text;
      assert text == Multiline.Joined(h.line.text, line.text);
      ghost var held0 := held;
      held := held[line.source := Held(Line(h.line.source, h.line.start, line.offset, line.file, text), h.lines + 1, now + cfg.flushTimeout)];
      forall s
        ensures Shows(held, out, s, if s == line.source then Joint(joints(s).done, joints(s).open + [line], now + cfg.flushTimeout) else joints(s))
      {
        assert Shows(held0, out, s, After(joints, {}, s));
        if s == line.source {
          GrowShows(held0, out, s, joints(s), line, now + cfg.flushTimeout);
        } else {
          OtherShows(held0, out, held, out, s, joints(s));
        }
      }
    }

    /** absorb. */
    method Absorb(line: Line, now: nat, ghost joints: Source -> Joint)
      requires AllShow(held, out, joints, {})
      modifies this
      ensures forall s :: Shows(held, out, s, Multiline.Step(cfg, s, joints(s), Got(line, now)))
    {
      HeldIs(held, out, joints, {}, line.source);
      if line.source in held {
        var h := held[line.source];
        var sep := if |h.line.text| > 0 then 1 else 0;
        assert h.line.text == TextOf(joints(line.source).open);
        assert |Multiline.Joined(h.line.text, line.text)| == |h.line.text| + sep + |line.text|;
        if !cfg.continuation(line.text) || |h.line.text| + sep + |line.text| > MAX_MESSAGE || h.lines + 1 > MAX_LINES {
          Flush(line.source, joints, {});
          ghost var done: set<Source> := {line.source};
          assert {} + done == done;
          assert !Fits(cfg, joints(line.source).open, line);
          Hold(line, now, joints, done);
          forall s
            ensures Shows(held, out, s, Multiline.Step(cfg, s, joints(s), Got(line, now)))
          {
            assert After(joints, done, s) == if s == line.source then Flushed(joints(s)) else joints(s);
          }
        } else {
          Grow(line, now, joints);
        }
      } else {
        ghost var none: set<Source> := {};
        assert joints(line.source).open == [];
        Hold(line, now, joints, none);
        forall s
          ensures Shows(held, out, s, Multiline.Step(cfg, s, joints(s), Got(line, now)))
        {
          assert After(joints, none, s) == joints(s);
        }
      }
    }

    /** flushDue: the map is ranged over in any order. */
    method FlushDue(now: nat, ghost joints: Source -> Joint)
      requires AllShow(held, out, joints, {})
      modifies this
      ensures forall s :: Shows(held, out, s, Multiline.Step(cfg, s, joints(s), Fires(now)))
    {
      ghost var held0, out0 := held, out;
      var left := held.Keys;
      ghost var done: set<Source> := {};
      while left != {}
        invariant left <= held.Keys && AllShow(held, out, joints, done)
        invariant forall s :: s in done ==> s in held0 && joints(s).deadline <= now
        invariant forall s :: s in held0 ==> s in left || s in done || joints(s).deadline > now
        decreases |left|
      {
        var source :| source in left;
        HeldIs(held, out, joints, done, source);
        HeldIs(held0, out0, joints, {}, source);
        if held[source].deadline <= now {
          Flush(source, joints, done);
          done := done + {source};
        }
        left := left - {source};
      }
      forall s
        ensures Shows(held, out, s, Multiline.Step(cfg, s, joints(s), Fires(now)))
      {
        HeldIs(held0, out0, joints, {}, s);
        assert Shows(held, out, s, After(joints, done, s));
      }
    }

    /** flushAll, at the end of input. */
    method FlushAll(ghost joints: Source -> Joint)
      requires AllShow(held, out, joints, {})
      modifies this
      ensures forall s :: Shows(held, out, s, Multiline.Step(cfg, s, joints(s), Closed))
    {
      var left := held.Keys;
      ghost var done: set<Source> := {};
      while left != {}
        invariant left == held.Keys && AllShow(held, out, joints, done)
        decreases |left|
      {
        var source :| source in left;
        Flush(source, joints, done);
        done := done + {source};
        left := left - {source};
      }
      forall s
        ensures Shows(held, out, s, Multiline.Step(cfg, s, joints(s), Closed))
      {
        HeldIs(held, out, joints, done, s);
        assert Shows(held, out, s, After(joints, done, s));
      }
    }

    /** runJoin. */
    method RunJoin(inputs: seq<Input>)
      requires forall s :: Shows(held, out, s, NOTHING)
      modifies this
      ensures forall s :: Shows(held, out, s, Multiline.Run(cfg, s, inputs))
    {
      var i := 0;
      while i < |inputs|
        invariant i <= |inputs|
        invariant forall s :: Shows(held, out, s, Multiline.Run(cfg, s, inputs[..i]))
      {
        ghost var before := inputs[..i];
        ghost var joints := s => Multiline.Run(cfg, s, before);
        NoneDone(held, out, joints);
        React(inputs[i], joints);
        ghost var through := before + [inputs[i]];
        assert inputs[..i + 1] == through;
        forall s
          ensures Shows(held, out, s, Multiline.Run(cfg, s, through))
        {
          RunSnoc(cfg, s, before, inputs[i]);
          assert Shows(held, out, s, Multiline.Step(cfg, s, joints(s), inputs[i]));
        }
        i := i + 1;
      }
      assert inputs[..|inputs|] == inputs;
    }

    method React(input: Input, ghost joints: Source -> Joint)
      requires AllShow(held, out, joints, {})
      modifies this
      ensures forall s :: Shows(held, out, s, Multiline.Step(cfg, s, joints(s), input))
    {
      match input {
        case Got(line, now) => Absorb(line, now, joints);
        case Fires(now) => FlushDue(now, joints);
        case Closed => FlushAll(joints);
      }
    }
  }
}
