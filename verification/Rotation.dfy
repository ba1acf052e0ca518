/** A tailed path over its generations (internal/agent/tailfile.go): the open descriptor, the offset and
    the head fingerprint, while the file grows and is rotated away between polls. */
module Rotation {
  import opened Prelude
  import opened Lines
  import opened Tail

  const HEAD_LEN := 256

  /** A zero length says that no fingerprint was taken. */
  datatype Head = Head(len: nat, hash: nat)

  type Hash = bytes -> nat

  function HeadOf(hash: Hash, data: bytes): Head {
    if |data| < HEAD_LEN then Head(0, 0) else Head(HEAD_LEN, hash(data[..HEAD_LEN]))
  }

  predicate Differs(f: Head, o: Head) {
    f.len > 0 && f.len == o.len && f.hash != o.hash
  }

  datatype Emission = Emission(gen: nat, line: Line)

  /** `files` are the generations that the path has named, oldest first; `gen` is the one whose
      descriptor is open. What follows `out` nothing reads: the generations opened so far, the size of
      the open one at the last poll, and the generation and offset that the process began at. */
  datatype Tailer = Tailer(
    files: seq<bytes>,
    gen: nat,
    offset: nat,
    head: Head,
    out: seq<Emission>,
    entered: set<nat>,
    seen: nat,
    first: nat,
    begin: nat)

  /** The writer appends to the file at the path; the path is renamed away and created again; the
      source polls. */
  datatype Event = Write(data: bytes) | Rotate | Poll

  predicate Valid(t: Tailer) {
    && t.first <= t.gen < |t.files| && t.begin <= |t.files[t.first]|
    && t.seen <= |t.files[t.gen]| && (t.gen == t.first ==> t.begin <= t.seen)
  }

  function Tag(gen: nat, lines: seq<Line>): seq<Emission> {
    if lines == [] then [] else [Emission(gen, lines[0])] + Tag(gen, lines[1..])
  }

  /** The lines of one generation. */
  function Of(out: seq<Emission>, gen: nat): seq<Line> {
    if out == [] then [] else (if out[0].gen == gen then [out[0].line] else []) + Of(out[1..], gen)
  }

  /** Where to read on in the file at hand, after a look at its size and its head: resolveState on the
      same inode, and the last part of resolveResumedCursor. */
  function Resume(hash: Hash, data: bytes, offset: nat, head: Head): (o: nat)
    ensures o <= |data|
  {
    if |data| < offset || Differs(head, HeadOf(hash, data)) then 0 else offset
  }

  /** A cursor of the checkpoint file. */
  datatype Point = Point(file: nat, offset: nat, head: Head)

  /** A process that starts to read the file at the path at this offset. */
  function Open(hash: Hash, files: seq<bytes>, offset: nat): (t: Tailer)
    requires files != [] && offset <= |files[|files| - 1]|
    ensures Valid(t)
  {
    var last := |files| - 1;
    Tailer(files, last, offset, HeadOf(hash, files[last]), [], {last}, offset, last, offset)
  }

  /** resolveResumedCursor: a source without history, or one whose generation is no longer at the path,
      begins at zero. */
  function Begin(hash: Hash, files: seq<bytes>, resume: Option<Point>): (offset: nat)
    requires files != []
    ensures offset <= |files[|files| - 1]|
  {
    if resume.None? || resume.value.file != |files| - 1 then 0
    else Resume(hash, files[|files| - 1], resume.value.offset, resume.value.head)
  }

  function Reopen(hash: Hash, files: seq<bytes>, resume: Option<Point>): (t: Tailer)
    requires files != []
    ensures Valid(t)
  {
    Open(hash, files, Begin(hash, files, resume))
  }

  /** rotate: the old file is drained to its end before the new one is opened. */
  function Drain(t: Tailer): (r: Tailer)
    requires Valid(t) && t.gen < |t.files| - 1
    ensures Valid(r)
  {
    var was := t.files[t.gen];
    var last := |t.files| - 1;
    var from := if t.offset <= |was| then t.offset else |was|;
    t.(out := t.out + Tag(t.gen, ReadToEof(was, from, true).lines), gen := last, offset := 0,
       head := Head(0, 0), entered := t.entered + {last}, seen := 0)
  }

  /** The read of a poll. */
  function CatchUp(hash: Hash, t: Tailer): (r: Tailer)
    requires Valid(t)
    ensures Valid(r)
  {
    var data := t.files[t.gen];
    var r := ReadToEof(data, Resume(hash, data, t.offset, t.head), false);
    t.(out := t.out + Tag(t.gen, r.lines), offset := r.offset, head := HeadOf(hash, data), seen := |data|)
  }

  function Step(hash: Hash, t: Tailer, e: Event): (r: Tailer)
    requires Valid(t)
    ensures Valid(r) && r.first == t.first && r.begin == t.begin
  {
    match e
    case Write(data) => t.(files := t.files[|t.files| - 1 := t.files[|t.files| - 1] + data])
    case Rotate => t.(files := t.files + [[]])
    case Poll => CatchUp(hash, if t.gen == |t.files| - 1 then t else Drain(t))
  }

  function Run(hash: Hash, t: Tailer, events: seq<Event>): (r: Tailer)
    requires Valid(t)
    ensures Valid(r) && r.first == t.first && r.begin == t.begin
    decreases |events|
  {
    if events == [] then t else Step(hash, Run(hash, t, events[..|events| - 1]), events[|events| - 1])
  }

  lemma {:induction false} OfConcat(a: seq<Emission>, b: seq<Emission>, gen: nat)
    ensures Of(a + b, gen) == Of(a, gen) + Of(b, gen)
  {
    if a == [] {
      assert a + b == b;
    } else {
      assert (a + b)[1..] == a[1..] + b && (a + b)[0] == a[0];
      OfConcat(a[1..], b, gen);
      Regroup(if a[0].gen == gen then [a[0].line] else [], Of(a[1..], gen), Of(b, gen));
    }
  }

  lemma {:induction false} OfTag(gen: nat, lines: seq<Line>, g: nat)
    ensures Of(Tag(gen, lines), g) == if g == gen then lines else []
  {
    if lines != [] {
      OfTag(gen, lines[1..], g);
      assert Tag(gen, lines)[1..] == Tag(gen, lines[1..]);
    }
  }

  lemma OfMore(out: seq<Emission>, gen: nat, lines: seq<Line>, g: nat)
    ensures Of(out + Tag(gen, lines), g) == if g == gen then Of(out, g) + lines else Of(out, g)
  {
    OfConcat(out, Tag(gen, lines), g);
    OfTag(gen, lines, g);
  }

  /** Where a generation is read from. */
  function From(t: Tailer, g: nat): nat { if g == t.first then t.begin else 0 }

  /** What has been emitted of generation g. */
  predicate Told(t: Tailer, g: nat)
    requires Valid(t)
  {
    Of(t.out, g) ==
      if g == t.gen then ReadToEof(t.files[g][..t.seen], From(t, g), false).lines
      else if g in t.entered && g < |t.files| then ReadToEof(t.files[g], From(t, g), true).lines
      else []
  }

  /** A fingerprint of this file, taken now or when it was shorter. */
  predicate Taken(hash: Hash, head: Head, data: bytes) {
    head == Head(0, 0) || head == HeadOf(hash, data)
  }

  /** The open generation has been read as far as it reached at the last poll. */
  predicate Reading(hash: Hash, t: Tailer)
    requires Valid(t)
  {
    && t.gen in t.entered && Taken(hash, t.head, t.files[t.gen])
    && t.offset == ReadToEof(t.files[t.gen][..t.seen], From(t, t.gen), false).offset
  }

  ghost predicate Faithful(hash: Hash, t: Tailer) {
    && Valid(t) && Reading(hash, t)
    && (forall g :: g in t.entered ==> t.first <= g <= t.gen)
    && (forall g: nat :: Told(t, g))
  }

  ghost predicate AllShort(files: seq<bytes>) {
    forall g :: 0 <= g < |files| ==> Short(files[g])
  }

  lemma TakenLater(hash: Hash, head: Head, a: bytes, b: bytes)
    requires a <= b && Taken(hash, head, a)
    ensures Taken(hash, head, b) && !Differs(head, HeadOf(hash, b))
  {
    if |a| >= HEAD_LEN {
      assert a[..HEAD_LEN] == b[..HEAD_LEN];
    }
  }

  /** A file that only grew is never taken for a truncated one. */
  lemma GrowthResumes(hash: Hash, t: Tailer)
    requires Valid(t) && Reading(hash, t)
    ensures Resume(hash, t.files[t.gen], t.offset, t.head) == t.offset
  {
    TakenLater(hash, t.head, t.files[t.gen], t.files[t.gen]);
  }

  lemma WriteFaithful(hash: Hash, t: Tailer, data: bytes)
    requires Faithful(hash, t)
    ensures Faithful(hash, Step(hash, t, Write(data)))
  {
    var r := Step(hash, t, Write(data));
    var last := |t.files| - 1;
    assert t.files[t.gen] <= r.files[t.gen];
    TakenLater(hash, t.head, t.files[t.gen], r.files[t.gen]);
    assert t.files[t.gen][..t.seen] == r.files[t.gen][..t.seen];
    forall g: nat
      ensures Told(r, g)
    {
      assert Told(t, g);
      assert g in t.entered ==> g <= t.gen <= last;
    }
  }

  lemma RotateFaithful(hash: Hash, t: Tailer)
    requires Faithful(hash, t)
    ensures Faithful(hash, Step(hash, t, Rotate))
  {
    var r := Step(hash, t, Rotate);
    forall g: nat
      ensures Told(r, g)
    {
      assert Told(t, g);
    }
  }

  /** Reading on from the last poll completes what one scan of the file would give. */
  lemma ReadFaithful(hash: Hash, t: Tailer)
    requires Faithful(hash, t) && Short(t.files[t.gen])
    ensures Faithful(hash, CatchUp(hash, t))
  {
    var data, from := t.files[t.gen], From(t, t.gen);
    var a := data[..t.seen];
    var r := CatchUp(hash, t);
    GrowthResumes(hash, t);
    ShortEarlier(a, data);
    ShortNeverSplits(a, from);
    ScanContinues(a, data, from, false);
    assert data[..|data|] == data;
    forall g: nat
      ensures Told(r, g)
    {
      assert Told(t, g);
      OfMore(t.out, t.gen, ReadToEof(data, t.offset, false).lines, g);
    }
  }

  lemma DrainFaithful(hash: Hash, t: Tailer)
    requires Faithful(hash, t) && Short(t.files[t.gen]) && t.gen < |t.files| - 1
    ensures Faithful(hash, Drain(t))
  {
    var r := Drain(t);
    UnreadFile(r.files[r.gen], 0);
    forall g: nat
      ensures Told(r, g)
    {
      DrainTold(hash, t, g);
    }
  }

  lemma UnreadFile(data: bytes, offset: nat)
    requires offset <= |data|
    ensures ReadToEof(data[..offset], offset, false) == Scan([], offset)
  {
    NothingAtEnd(data[..offset], false);
  }

  lemma DrainTold(hash: Hash, t: Tailer, g: nat)
    requires Faithful(hash, t) && Short(t.files[t.gen]) && t.gen < |t.files| - 1
    ensures Told(Drain(t), g)
  {
    if g == t.gen {
      DrainedIsTold(hash, t);
    } else if g == |t.files| - 1 {
      FreshIsTold(hash, t);
    } else {
      OthersStayTold(hash, t, g);
    }
  }

  lemma OthersStayTold(hash: Hash, t: Tailer, g: nat)
    requires Faithful(hash, t) && t.gen < |t.files| - 1 && g != t.gen && g != |t.files| - 1
    ensures Told(Drain(t), g)
  {
    assert Told(t, g);
    OfMore(t.out, t.gen, ReadToEof(t.files[t.gen], t.offset, true).lines, g);
  }

  /** The file a drain leaves has been read to its end. */
  lemma DrainedIsTold(hash: Hash, t: Tailer)
    requires Faithful(hash, t) && Short(t.files[t.gen]) && t.gen < |t.files| - 1
    ensures Told(Drain(t), t.gen)
  {
    var data := t.files[t.gen];
    assert Told(t, t.gen);
    OfMore(t.out, t.gen, ReadToEof(data, t.offset, true).lines, t.gen);
    DrainCompletes(data, From(t, t.gen), t.seen, t.offset);
  }

  /** The file a drain opens has not been read yet. */
  lemma FreshIsTold(hash: Hash, t: Tailer)
    requires Faithful(hash, t) && t.gen < |t.files| - 1
    ensures Told(Drain(t), |t.files| - 1)
  {
    var last := |t.files| - 1;
    assert Told(t, last);
    OfMore(t.out, t.gen, ReadToEof(t.files[t.gen], t.offset, true).lines, last);
    UnreadFile(t.files[last], 0);
  }

  /** What was held back at the last poll, and what came after it. */
  lemma DrainCompletes(data: bytes, from: nat, seen: nat, offset: nat)
    requires Short(data) && from <= seen <= |data| && offset == ReadToEof(data[..seen], from, false).offset
    ensures ReadToEof(data[..seen], from, false).lines + ReadToEof(data, offset, true).lines == ReadToEof(data, from, true).lines
  {
    ShortEarlier(data[..seen], data);
    ShortNeverSplits(data[..seen], from);
    ScanContinues(data[..seen], data, from, true);
  }

  lemma StepFaithful(hash: Hash, t: Tailer, e: Event)
    requires Faithful(hash, t) && AllShort(t.files)
    ensures Faithful(hash, Step(hash, t, e))
  {
    match e
    case Write(data) => WriteFaithful(hash, t, data);
    case Rotate => RotateFaithful(hash, t);
    case Poll =>
      if t.gen == |t.files| - 1 {
        ReadFaithful(hash, t);
      } else {
        DrainFaithful(hash, t);
        ReadFaithful(hash, Drain(t));
      }
  }

  /** The generations of a moment, and of a later one. */
  ghost predicate Later(a: seq<bytes>, b: seq<bytes>) {
    |a| <= |b| && forall g :: 0 <= g < |a| ==> a[g] <= b[g]
  }

  lemma StepGrows(hash: Hash, t: Tailer, e: Event)
    requires Valid(t)
    ensures Later(t.files, Step(hash, t, e).files)
  {
  }

  lemma ShortBefore(a: seq<bytes>, b: seq<bytes>)
    requires Later(a, b) && AllShort(b)
    ensures AllShort(a)
  {
    forall g | 0 <= g < |a|
      ensures Short(a[g])
    {
      assert a[g] <= b[g];
      ShortEarlier(a[g], b[g]);
    }
  }

  lemma OpenFaithful(hash: Hash, files: seq<bytes>, offset: nat)
    requires files != [] && offset <= |files[|files| - 1]|
    ensures Faithful(hash, Open(hash, files, offset))
  {
    UnreadFile(files[|files| - 1], offset);
  }

  /** Under every schedule of writes, rotations and polls, whatever cursor the process began with: each
      generation that was ever opened is read exactly once, in order, as one scan of it would read it
      (the first from where the process began), the rotated ones to their end; of a generation that was
      not at the path at any poll nothing is. */
  lemma {:induction false} EveryGeneration(hash: Hash, files: seq<bytes>, resume: Option<Point>, events: seq<Event>)
    requires files != [] && AllShort(Run(hash, Reopen(hash, files, resume), events).files)
    ensures Faithful(hash, Run(hash, Reopen(hash, files, resume), events))
    decreases |events|
  {
    if events == [] {
      OpenFaithful(hash, files, Begin(hash, files, resume));
    } else {
      var t := Run(hash, Reopen(hash, files, resume), events[..|events| - 1]);
      StepGrows(hash, t, events[|events| - 1]);
      ShortBefore(t.files, Step(hash, t, events[|events| - 1]).files);
      EveryGeneration(hash, files, resume, events[..|events| - 1]);
      StepFaithful(hash, t, events[|events| - 1]);
    }
  }

  /** A rotated generation that was opened is covered by its lines from end to end, unless it ended in
      a lone carriage return. */
  lemma RotatedIsCovered(hash: Hash, files: seq<bytes>, resume: Option<Point>, events: seq<Event>, g: nat)
    requires files != [] && AllShort(Run(hash, Reopen(hash, files, resume), events).files)
    requires var t := Run(hash, Reopen(hash, files, resume), events); g < t.gen && g in t.entered
    requires var t := Run(hash, Reopen(hash, files, resume), events);
             t.files[g][LastLine(t.files[g], From(t, g))..] != [CR]
    ensures var t := Run(hash, Reopen(hash, files, resume), events); Tiles(Of(t.out, g), From(t, g), |t.files[g]|)
  {
    var t := Run(hash, Reopen(hash, files, resume), events);
    EveryGeneration(hash, files, resume, events);
    assert Told(t, g);
    ScanTiles(t.files[g], From(t, g), true);
    DrainCoversIff(t.files[g], From(t, g));
  }

  /** What one line, its text and whether it was terminated say of the whole scan. */
  lemma RoundIsScan(data: bytes, start: nat, end: nat, terminated: bool, text: bytes, final: bool)
    requires start <= |data| && (terminated <==> Newline(data, start) < |data|)
    requires end == (if terminated then Newline(data, start) + 1 else |data|) && text == Text(data, Line(start, end))
    ensures Round(data, start, end, terminated, text, final)
  {
    if !terminated {
      assert Emits(data, start, final) <==> |text| >= MAX_MESSAGE || (final && |text| > 0);
    }
  }

  ghost predicate Round(data: bytes, start: nat, end: nat, terminated: bool, text: bytes, final: bool)
    requires start <= |data|
  {
    var emitted := terminated || |text| >= MAX_MESSAGE || (final && |text| > 0);
    && start <= end <= |data| && (terminated ==> start < end) && text == Text(data, Line(start, end))
    && var rest := if terminated then ReadToEof(data, end, final) else Scan([], if emitted then end else start);
       ReadToEof(data, start, final) == Scan((if emitted then [Line(start, end)] else []) + rest.lines, rest.offset)
  }

  lemma NextRound(data: bytes, start: nat, consumed: nat, terminated: bool, text: bytes, final: bool)
    requires start <= |data| && Read(text, consumed, terminated) == Next(data[start..])
    ensures Round(data, start, start + consumed, terminated, text, final)
  {
    var end := if Newline(data, start) < |data| then Newline(data, start) + 1 else |data|;
    NextIsLine(data, start, end);
    RoundIsScan(data, start, end, terminated, text, final);
  }

  /** The source: its offset moves past each line it gives out. */
  class TailSource {
    var offset: nat

    constructor ()
      ensures offset == 0
    {
      offset := 0;
    }

    /** One round of readToEOF's loop. */
    method ReadOne(br: Reader, assembler: LineAssembler, final: bool) returns (lines: seq<Line>, text: bytes, more: bool)
      requires br.Valid() && br.pos == offset
      modifies this, assembler, br
      ensures br.Valid() && old(offset) <= offset <= |br.data| && (more ==> br.pos == offset > old(offset))
      ensures var rest := if more then ReadToEof(br.data, offset, final) else Scan([], offset);
              ReadToEof(br.data, old(offset), final) == Scan(lines + rest.lines, rest.offset)
      ensures lines == [] || (lines == [Line(old(offset), offset)] && text == Text(br.data, lines[0]))
    {
      ghost var data := br.data;
      var start := offset;
      var consumed;
      text, consumed, more := assembler.NextLine(br);
      NextRound(data, start, consumed, more, text, final);
      if more || |text| >= MAX_MESSAGE || (final && |text| > 0) {
        offset := start + consumed;
        lines := [Line(start, offset)];
      } else {
        lines := [];
      }
    }

    /** readToEOF. */
    method ReadLines(data: bytes, size: nat, assembler: LineAssembler, final: bool) returns (lines: seq<Line>, texts: seq<bytes>)
      requires offset <= |data| && size > 0
      modifies this, assembler
      ensures Scan(lines, offset) == ReadToEof(data, old(offset), final)
      ensures Quoted(data, lines, texts)
    {
      lines, texts := [], [];
      var br := new Reader(data, size, offset);
      var more := true;
      Regroup([], [], ReadToEof(data, offset, final).lines);
      while more
        invariant offset <= |data| && br.Valid() && br.data == data && (more ==> br.pos == offset)
        invariant fresh(br) && Quoted(data, lines, texts)
        invariant var rest := if more then ReadToEof(data, offset, final) else Scan([], offset);
                  ReadToEof(data, old(offset), final) == Scan(lines + rest.lines, rest.offset)
        decreases more, |data| - offset
      {
        var next, text;
        ghost var from := offset;
        next, text, more := ReadOne(br, assembler, final);
        Regroup(lines, next, (if more then ReadToEof(data, offset, final) else Scan([], offset)).lines);
        if next != [] {
          lines, texts := lines + next, texts + [text];
        } else {
          Regroup(lines, [], []);
        }
      }
    }
  }

  /** Each text is what its line's range reads as. */
  ghost predicate Quoted(data: bytes, lines: seq<Line>, texts: seq<bytes>) {
    |texts| == |lines| &&
    forall i :: 0 <= i < |lines| ==> lines[i].start <= lines[i].offset <= |data| && texts[i] == Text(data, lines[i])
  }
}
