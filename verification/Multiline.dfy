/** The multiline stage (internal/agent/multiline.go): continuation lines are folded into the record
    before them, for many interleaved sources, with bounds and timeouts. */
module Multiline {
  import opened Prelude
  import opened Lines

  type Source = string

  /** defaultMaxLines. */
  const MAX_LINES := 500

  /** `file` identifies the generation that the range is in. */
  datatype Line = Line(source: Source, start: nat, offset: nat, file: nat, text: bytes)

  datatype Config = Config(continuation: bytes -> bool, flushTimeout: nat)

  /** What the joiner's select receives; the input channel may also be closed. */
  datatype Input = Got(line: Line, now: nat) | Fires(now: nat) | Closed

  function Joined(a: bytes, b: bytes): bytes {
    if a == [] then b else a + [NL] + b
  }

  function TextOf(group: seq<Line>): bytes
    requires group != []
  {
    var k := |group| - 1;
    if k == 0 then group[0].text else Joined(TextOf(group[..k]), group[k].text)
  }

  /** A record: where it starts is its first line's, where it ends its last line's. */
  function RecordOf(group: seq<Line>): Line
    requires group != []
  {
    Line(group[0].source, group[0].start, group[|group| - 1].offset, group[|group| - 1].file, TextOf(group))
  }

  function RecordsOf(groups: seq<seq<Line>>): seq<Line>
    requires forall i :: 0 <= i < |groups| ==> groups[i] != []
  {
    seq(|groups|, i requires 0 <= i < |groups| => RecordOf(groups[i]))
  }

  /** One source's records as the lines they are made of: the emitted ones, and the held one. */
  datatype Joint = Joint(done: seq<seq<Line>>, open: seq<Line>, deadline: nat)

  predicate Fits(cfg: Config, open: seq<Line>, line: Line)
    requires open != []
  {
    && cfg.continuation(line.text)
    && |Joined(TextOf(open), line.text)| <= MAX_MESSAGE
    && |open| + 1 <= MAX_LINES
  }

  function Flushed(j: Joint): Joint {
    if j.open == [] then j else Joint(j.done + [j.open], [], 0)
  }

  /** absorb, for the source of the line. */
  function Absorbed(cfg: Config, j: Joint, line: Line, now: nat): Joint {
    if j.open != [] && Fits(cfg, j.open, line) then Joint(j.done, j.open + [line], now + cfg.flushTimeout)
    else Joint(Flushed(j).done, [line], now + cfg.flushTimeout)
  }

  /** One input, as far as it concerns source s. */
  function Step(cfg: Config, s: Source, j: Joint, input: Input): Joint {
    match input
    case Got(line, now) => if line.source == s then Absorbed(cfg, j, line, now) else j
    case Fires(now) => if j.open != [] && j.deadline <= now then Flushed(j) else j
    case Closed => Flushed(j)
  }

  const NOTHING := Joint([], [], 0)

  function Run(cfg: Config, s: Source, inputs: seq<Input>): Joint
    decreases |inputs|
  {
    if inputs == [] then NOTHING else Step(cfg, s, Run(cfg, s, inputs[..|inputs| - 1]), inputs[|inputs| - 1])
  }

  /** The lines of one source, in order. */
  function LinesOf(s: Source, inputs: seq<Input>): seq<Line>
    decreases |inputs|
  {
    if inputs == [] then []
    else
      var i := inputs[|inputs| - 1];
      LinesOf(s, inputs[..|inputs| - 1]) + if i.Got? && i.line.source == s then [i.line] else []
  }

  function Flat(groups: seq<seq<Line>>): seq<Line> {
    if groups == [] then [] else Flat(groups[..|groups| - 1]) + groups[|groups| - 1]
  }

  /** A record's lines: all but the first continue it, and the bounds hold. */
  ghost predicate Proper(cfg: Config, group: seq<Line>) {
    && group != [] && |group| <= MAX_LINES && |TextOf(group)| <= MAX_MESSAGE
    && forall i :: 0 < i < |group| ==> cfg.continuation(group[i].text)
  }

  ghost predicate Kept(cfg: Config, s: Source, inputs: seq<Input>, j: Joint) {
    && Flat(j.done) + j.open == LinesOf(s, inputs)
    && (forall i :: 0 <= i < |j.done| ==> Proper(cfg, j.done[i]))
    && (j.open != [] ==> Proper(cfg, j.open))
  }

  lemma FlatSnoc(groups: seq<seq<Line>>, group: seq<Line>)
    ensures Flat(groups + [group]) == Flat(groups) + group
  {
    assert (groups + [group])[..|groups|] == groups;
  }

  lemma TextSnoc(group: seq<Line>, line: Line)
    requires group != []
    ensures TextOf(group + [line]) == Joined(TextOf(group), line.text)
  {
    assert (group + [line])[..|group|] == group;
  }

  lemma FlushedKept(cfg: Config, s: Source, inputs: seq<Input>, j: Joint)
    requires Kept(cfg, s, inputs, j)
    ensures Kept(cfg, s, inputs, Flushed(j))
  {
    if j.open != [] {
      FlatSnoc(j.done, j.open);
    }
  }

  lemma AbsorbedKept(cfg: Config, s: Source, before: seq<Input>, j: Joint, line: Line, now: nat)
    requires Kept(cfg, s, before, j) && line.source == s && |line.text| <= MAX_MESSAGE
    ensures Kept(cfg, s, before + [Got(line, now)], Absorbed(cfg, j, line, now))
  {
    assert (before + [Got(line, now)])[..|before|] == before;
    var r := Absorbed(cfg, j, line, now);
    if j.open != [] && Fits(cfg, j.open, line) {
      TextSnoc(j.open, line);
      assert Flat(j.done) + (j.open + [line]) == (Flat(j.done) + j.open) + [line];
    } else {
      FlushedKept(cfg, s, before, j);
    }
  }

  lemma OthersKept(cfg: Config, s: Source, before: seq<Input>, j: Joint, input: Input)
    requires Kept(cfg, s, before, j) && !(input.Got? && input.line.source == s)
    ensures Kept(cfg, s, before + [input], Step(cfg, s, j, input))
  {
    assert (before + [input])[..|before|] == before;
    FlushedKept(cfg, s, before, j);
    assert LinesOf(s, before) + [] == LinesOf(s, before);
  }

  ghost predicate AllBounded(inputs: seq<Input>) {
    forall i :: 0 <= i < |inputs| && inputs[i].Got? ==> |inputs[i].line.text| <= MAX_MESSAGE
  }

  /** Under every interleaving of lines, timeouts and the end of input: the records of a source, and the
      one still held, are its lines in order, each line in exactly one, every line of a record but the
      first a continuation, and both bounds respected. */
  lemma {:induction false} RecordsAreTheLines(cfg: Config, s: Source, inputs: seq<Input>)
    requires AllBounded(inputs)
    ensures Kept(cfg, s, inputs, Run(cfg, s, inputs))
    decreases |inputs|
  {
    if inputs != [] {
      var k := |inputs| - 1;
      var before, input := inputs[..k], inputs[k];
      assert inputs == before + [input];
      RecordsAreTheLines(cfg, s, before);
      if input.Got? && input.line.source == s {
        AbsorbedKept(cfg, s, before, Run(cfg, s, before), input.line, input.now);
      } else {
        OthersKept(cfg, s, before, Run(cfg, s, before), input);
      }
    }
  }

  /** The last newline, or the length. */
  function LastBreak(b: bytes): (i: nat)
    ensures i <= |b| && (i < |b| ==> b[i] == NL) && (forall j :: 0 <= j < |b| && (j > i || i == |b|) ==> b[j] != NL)
    decreases |b|
  {
    if b == [] then 0
    else if b[|b| - 1] == NL then |b| - 1
    else
      var i := LastBreak(b[..|b| - 1]);
      if i < |b| - 1 then i else |b|
  }

  /** The lines of a text. */
  function Split(b: bytes): seq<bytes>
    decreases |b|
  {
    var i := LastBreak(b);
    if i < |b| then Split(b[..i]) + [b[i + 1..]] else [b]
  }

  lemma SplitSnoc(a: bytes, b: bytes)
    requires Free(b)
    ensures Split(a + [NL] + b) == Split(a) + [b]
  {
    var t := a + [NL] + b;
    assert t[|a|] == NL && forall j :: |a| < j < |t| ==> t[j] == b[j - |a| - 1];
    assert LastBreak(t) == |a|;
    assert t[..|a|] == a && t[|a| + 1..] == b;
  }

  lemma SplitOne(b: bytes)
    requires Free(b)
    ensures Split(b) == [b]
  {
  }

  function TextsOf(group: seq<Line>): seq<bytes> {
    seq(|group|, i requires 0 <= i < |group| => group[i].text)
  }

  /** Round trip: the lines can be read off a record's text, which has them one to a line. */
  lemma {:induction false} TextSplits(group: seq<Line>)
    requires group != [] && group[0].text != [] && forall i :: 0 <= i < |group| ==> Free(group[i].text)
    ensures TextOf(group) != [] && Split(TextOf(group)) == TextsOf(group)
    decreases |group|
  {
    var k := |group| - 1;
    if k > 0 {
      TextSplits(group[..k]);
      SplitSnoc(TextOf(group[..k]), group[k].text);
      assert TextsOf(group) == TextsOf(group[..k]) + [group[k].text];
    } else {
      SplitOne(group[0].text);
    }
  }

  /** When the source was last heard. */
  function LastHeard(s: Source, inputs: seq<Input>): nat
    decreases |inputs|
  {
    if inputs == [] then 0
    else
      var i := inputs[|inputs| - 1];
      if i.Got? && i.line.source == s then i.now else LastHeard(s, inputs[..|inputs| - 1])
  }

  /** The input ends the record that is held after `before`: a line that does not continue it, or would
      take it past a bound; the timer, a flush timeout or more after the source was last heard; the end of
      input. */
  predicate EndsRecord(cfg: Config, s: Source, before: seq<Input>, input: Input) {
    var open := Run(cfg, s, before).open;
    open != [] &&
    match input
    case Got(line, _) =>
      line.source == s && (!cfg.continuation(line.text) || |Joined(TextOf(open), line.text)| > MAX_MESSAGE || |open| >= MAX_LINES)
    case Fires(now) => LastHeard(s, before) + cfg.flushTimeout <= now
    case Closed => true
  }

  lemma {:induction false} DeadlineIs(cfg: Config, s: Source, inputs: seq<Input>)
    ensures Run(cfg, s, inputs).open != [] ==> Run(cfg, s, inputs).deadline == LastHeard(s, inputs) + cfg.flushTimeout
    decreases |inputs|
  {
    if inputs != [] {
      DeadlineIs(cfg, s, inputs[..|inputs| - 1]);
    }
  }

  /** Exactly when a record leaves: it is held as long as the lines continue it, the bounds allow and the
      source is not silent for too long. And what happens to the line that comes. */
  lemma RecordEndsIff(cfg: Config, s: Source, before: seq<Input>, input: Input)
    ensures var j, r := Run(cfg, s, before), Run(cfg, s, before + [input]);
            && r.done == (if EndsRecord(cfg, s, before, input) then j.done + [j.open] else j.done)
            && r.open == (var rest := if EndsRecord(cfg, s, before, input) then [] else j.open;
                          if input.Got? && input.line.source == s then rest + [input.line] else rest)
  {
    RunSnoc(cfg, s, before, input);
    DeadlineIs(cfg, s, before);
  }

  /** The record that follows record i, or what is held. */
  function Following(j: Joint, i: nat): seq<Line>
    requires i < |j.done|
  {
    if i + 1 < |j.done| then j.done[i + 1] else j.open
  }

  /** No record is cut short: each one ended at an input that ends it, and if that was a line, the line
      begins the next record. */
  lemma {:induction false} RecordsAreMaximal(cfg: Config, s: Source, inputs: seq<Input>, i: nat) returns (k: nat)
    requires i < |Run(cfg, s, inputs).done|
    ensures var j := Run(cfg, s, inputs);
            && k < |inputs| && EndsRecord(cfg, s, inputs[..k], inputs[k])
            && Run(cfg, s, inputs[..k]).done == j.done[..i] && Run(cfg, s, inputs[..k]).open == j.done[i]
            && (inputs[k].Got? ==> Following(j, i) != [] && Following(j, i)[0] == inputs[k].line)
    decreases |inputs|
  {
    var last := |inputs| - 1;
    assert inputs[..last] + [inputs[last]] == inputs;
    RecordEndsIff(cfg, s, inputs[..last], inputs[last]);
    if i < |Run(cfg, s, inputs[..last]).done| {
      k := RecordsAreMaximal(cfg, s, inputs[..last], i);
      assert inputs[..last][..k] == inputs[..k];
    } else {
      k := last;
    }
  }

  /** After the end of input nothing is held. */
  lemma ClosedHoldsNothing(cfg: Config, s: Source, inputs: seq<Input>)
    requires AllBounded(inputs)
    ensures var r := Run(cfg, s, inputs + [Closed]); r.open == [] && Flat(r.done) == LinesOf(s, inputs)
  {
    RecordsAreTheLines(cfg, s, inputs);
    RunSnoc(cfg, s, inputs, Closed);
    FlushedAll(Run(cfg, s, inputs));
  }

  lemma FlushedAll(j: Joint)
    ensures Flushed(j).open == [] && Flat(Flushed(j).done) == Flat(j.done) + j.open
  {
    if j.open != [] {
      FlatSnoc(j.done, j.open);
    } else {
      assert Flat(j.done) + [] == Flat(j.done);
    }
  }

  lemma RunSnoc(cfg: Config, s: Source, inputs: seq<Input>, input: Input)
    ensures Run(cfg, s, inputs + [input]) == Step(cfg, s, Run(cfg, s, inputs), input)
  {
    assert (inputs + [input])[..|inputs|] == inputs;
  }

  /** Ranges that follow one another from `from` to `to`. */
  predicate Contiguous(lines: seq<Line>, from: nat, to: nat)
    decreases |lines|
  {
    if lines == [] then from == to
    else
      var k := |lines| - 1;
      lines[k].offset == to && Contiguous(lines[..k], from, lines[k].start)
  }

  lemma {:induction false} ContiguousSplit(a: seq<Line>, b: seq<Line>, from: nat, to: nat) returns (mid: nat)
    requires Contiguous(a + b, from, to)
    ensures Contiguous(a, from, mid) && Contiguous(b, mid, to)
    decreases |b|
  {
    if b == [] {
      assert a + b == a;
      mid := to;
    } else {
      var k := |b| - 1;
      assert (a + b)[..|a + b| - 1] == a + b[..k];
      mid := ContiguousSplit(a, b[..k], from, b[k].start);
    }
  }

  lemma {:induction false} GroupSpan(group: seq<Line>, from: nat, to: nat)
    requires group != [] && Contiguous(group, from, to)
    ensures group[0].start == from && group[|group| - 1].offset == to
    decreases |group|
  {
    var k := |group| - 1;
    if k > 0 {
      GroupSpan(group[..k], from, group[k].start);
    } else {
      assert group[..k] == [];
    }
  }

  lemma {:induction false} RecordsContiguous(groups: seq<seq<Line>>, from: nat, to: nat)
    requires forall i :: 0 <= i < |groups| ==> groups[i] != []
    requires Contiguous(Flat(groups), from, to)
    ensures Contiguous(RecordsOf(groups), from, to)
    decreases |groups|
  {
    if groups != [] {
      var k := |groups| - 1;
      var mid := ContiguousSplit(Flat(groups[..k]), groups[k], from, to);
      GroupSpan(groups[k], mid, to);
      RecordsContiguous(groups[..k], from, mid);
      assert RecordsOf(groups)[..k] == RecordsOf(groups[..k]);
    }
  }

  /** When the lines of a source follow one another in its file, so do its records, up to the held one:
      no byte is in two records or in none. */
  lemma RecordsTile(cfg: Config, s: Source, inputs: seq<Input>, from: nat, to: nat) returns (mid: nat)
    requires AllBounded(inputs) && Contiguous(LinesOf(s, inputs), from, to)
    ensures var j := Run(cfg, s, inputs);
            && (forall i :: 0 <= i < |j.done| ==> j.done[i] != [])
            && Contiguous(RecordsOf(j.done), from, mid)
            && (if j.open == [] then mid == to else RecordOf(j.open).start == mid && RecordOf(j.open).offset == to)
  {
    var j := Run(cfg, s, inputs);
    RecordsAreTheLines(cfg, s, inputs);
    forall i | 0 <= i < |j.done|
      ensures j.done[i] != []
    {
      assert Proper(cfg, j.done[i]);
    }
    mid := ContiguousSplit(Flat(j.done), j.open, from, to);
    RecordsContiguous(j.done, from, mid);
    if j.open != [] {
      GroupSpan(j.open, mid, to);
    }
  }

  /** The inputs that can concern one source. */
  function Heard(s: Source, inputs: seq<Input>): seq<Input>
    decreases |inputs|
  {
    if inputs == [] then []
    else
      var i := inputs[|inputs| - 1];
      Heard(s, inputs[..|inputs| - 1]) + if i.Got? && i.line.source != s then [] else [i]
  }

  /** A source's records do not depend on what other sources say. */
  lemma {:induction false} SourcesAreIndependent(cfg: Config, s: Source, inputs: seq<Input>)
    ensures Run(cfg, s, inputs) == Run(cfg, s, Heard(s, inputs))
    decreases |inputs|
  {
    if inputs != [] {
      var k := |inputs| - 1;
      var heard := Heard(s, inputs[..k]);
      SourcesAreIndependent(cfg, s, inputs[..k]);
      if inputs[k].Got? && inputs[k].line.source != s {
        assert heard + [] == heard;
      } else {
        assert (heard + [inputs[k]])[..|heard|] == heard;
      }
    }
  }

  /** The input ends the record that is held, or nothing is held. */
  predicate Ends(cfg: Config, s: Source, j: Joint, input: Input) {
    j.open == [] ||
    match input
    case Got(line, _) => line.source == s && !Fits(cfg, j.open, line)
    case Fires(now) => j.deadline <= now
    case Closed => true
  }

  /** j is r after the records `before`. */
  predicate Extends(before: seq<seq<Line>>, j: Joint, r: Joint) {
    j.done == before + r.done && j.open == r.open && (r.open != [] ==> j.deadline == r.deadline)
  }

  lemma StepExtends(cfg: Config, s: Source, before: seq<seq<Line>>, j: Joint, r: Joint, input: Input)
    requires Extends(before, j, r)
    ensures Extends(before, Step(cfg, s, j, input), Step(cfg, s, r, input))
  {
    assert (before + r.done) + [r.open] == before + (r.done + [r.open]);
  }

  lemma FirstExtends(cfg: Config, s: Source, j: Joint, input: Input)
    requires Ends(cfg, s, j, input)
    ensures Extends(Flushed(j).done, Step(cfg, s, j, input), Step(cfg, s, NOTHING, input))
  {
  }

  /** A joiner that starts where another one's record ended gives, on the same inputs, exactly the other
      one's later records. */
  lemma {:induction false} RestartedJoiner(cfg: Config, s: Source, a: seq<Input>, b: seq<Input>)
    requires b != [] && Ends(cfg, s, Run(cfg, s, a), b[0])
    ensures Extends(Flushed(Run(cfg, s, a)).done, Run(cfg, s, a + b), Run(cfg, s, b))
    decreases |b|
  {
    var k := |b| - 1;
    assert (a + b)[..|a + b| - 1] == a + b[..k];
    if k == 0 {
      assert b[..0] == [] && a + [] == a;
      FirstExtends(cfg, s, Run(cfg, s, a), b[0]);
    } else {
      RestartedJoiner(cfg, s, a, b[..k]);
      StepExtends(cfg, s, Flushed(Run(cfg, s, a)).done, Run(cfg, s, a + b[..k]), Run(cfg, s, b[..k]), b[k]);
    }
  }
}
