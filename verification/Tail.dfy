/** Tailing a file (internal/agent/tailfile.go): which byte ranges become lines, under any schedule of
    polls. */
module Tail {
  import opened Prelude
  import opened Lines

  /** The range of the file that a line came from. */
  datatype Line = Line(start: nat, offset: nat)

  datatype Scan = Scan(lines: seq<Line>, offset: nat)

  /** The position of the first newline from `i` on, or the end of the file. */
  function Newline(data: bytes, i: nat): (j: nat)
    requires i <= |data|
    ensures i <= j <= |data| && (j < |data| ==> data[j] == NL) && forall k :: i <= k < j ==> data[k] != NL
    decreases |data| - i
  {
    if i == |data| || data[i] == NL then i else Newline(data, i + 1)
  }

  /** What a range reads as. */
  function Text(data: bytes, l: Line): bytes
    requires l.start <= l.offset <= |data|
  {
    Strip(Cut(data[l.start..l.offset]))
  }

  /** An unterminated line is held back unless it has reached the bound, or the file is being drained
      for good. */
  predicate Emits(data: bytes, start: nat, final: bool)
    requires start <= |data|
  {
    var n := |Text(data, Line(start, |data|))|;
    n >= MAX_MESSAGE || (final && n > 0)
  }

  /** readToEOF. */
  function ReadToEof(data: bytes, offset: nat, final: bool): (r: Scan)
    requires offset <= |data|
    ensures offset <= r.offset <= |data|
    decreases |data| - offset
  {
    var j := Newline(data, offset);
    if j < |data| then
      var more := ReadToEof(data, j + 1, final);
      Scan([Line(offset, j + 1)] + more.lines, more.offset)
    else if Emits(data, offset, final) then Scan([Line(offset, |data|)], |data|)
    else Scan([], offset)
  }

  /** Ranges that follow one another from `from` to `to`, none empty. */
  predicate Tiles(lines: seq<Line>, from: nat, to: nat) {
    if lines == [] then from == to
    else lines[0].start == from < lines[0].offset && Tiles(lines[1..], lines[0].offset, to)
  }

  lemma EmitsSomething(data: bytes, start: nat, final: bool)
    requires start <= |data| && Emits(data, start, final)
    ensures start < |data|
  {
  }

  /** Every scan tiles the bytes it passes. */
  lemma {:induction false} ScanTiles(data: bytes, offset: nat, final: bool)
    requires offset <= |data|
    ensures var r := ReadToEof(data, offset, final); Tiles(r.lines, offset, r.offset)
    decreases |data| - offset
  {
    var j := Newline(data, offset);
    if j < |data| {
      ScanTiles(data, j + 1, final);
      var more := ReadToEof(data, j + 1, final);
      assert ([Line(offset, j + 1)] + more.lines)[1..] == more.lines;
    } else if Emits(data, offset, final) {
      EmitsSomething(data, offset, final);
      assert [Line(offset, |data|)][1..] == [];
    }
  }

  lemma NothingAtEnd(data: bytes, final: bool)
    ensures ReadToEof(data, |data|, final) == Scan([], |data|)
  {
  }

  /** Tailing restarted at the offset of any line emits exactly the later lines, with the same ranges. */
  lemma {:induction false} RestartReproduces(data: bytes, offset: nat, final: bool, k: nat)
    requires offset <= |data| && k < |ReadToEof(data, offset, final).lines|
    ensures var r := ReadToEof(data, offset, final);
            && r.lines[k].offset <= |data|
            && ReadToEof(data, r.lines[k].offset, final) == Scan(r.lines[k + 1..], r.offset)
    decreases |data| - offset
  {
    var j := Newline(data, offset);
    if j < |data| {
      Shift(Line(offset, j + 1), ReadToEof(data, j + 1, final).lines, k);
      if k > 0 {
        RestartReproduces(data, j + 1, final, k - 1);
      }
    } else {
      NothingAtEnd(data, final);
    }
  }

  lemma Shift(l: Line, xs: seq<Line>, k: nat)
    requires k <= |xs|
    ensures ([l] + xs)[k + 1..] == xs[k..] && ([l] + xs)[k] == if k == 0 then l else xs[k - 1]
    ensures k == 0 ==> xs[k..] == xs
  {
  }

  /** The scan ends by giving out a line that has not been terminated. */
  predicate Splits(data: bytes, offset: nat)
    requires offset <= |data|
    decreases |data| - offset
  {
    var j := Newline(data, offset);
    if j < |data| then Splits(data, j + 1) else Emits(data, offset, false)
  }

  lemma {:induction false} NewlineLater(a: bytes, b: bytes, i: nat)
    requires a <= b && i <= |a|
    ensures if Newline(a, i) < |a| then Newline(b, i) == Newline(a, i) else Newline(b, i) >= |a|
  {
    var j, k := Newline(a, i), Newline(b, i);
    if j < |a| {
      assert b[j] == a[j];
    }
    if k < |a| {
      assert a[k] == b[k];
    }
  }

  /** Reading again when the file has grown continues the scan. */
  lemma {:induction false} ScanContinues(a: bytes, b: bytes, offset: nat, final: bool)
    requires a <= b && offset <= |a| && !Splits(a, offset)
    ensures var r := ReadToEof(a, offset, false);
            var more := ReadToEof(b, r.offset, final);
            ReadToEof(b, offset, final) == Scan(r.lines + more.lines, more.offset)
    decreases |a| - offset
  {
    var j := Newline(a, offset);
    NewlineLater(a, b, offset);
    if j < |a| {
      ScanContinues(a, b, j + 1, final);
      var r := ReadToEof(a, j + 1, false);
      Regroup([Line(offset, j + 1)], r.lines, ReadToEof(b, r.offset, final).lines);
    } else {
      Regroup([], [], ReadToEof(b, offset, final).lines);
    }
  }

  lemma Regroup(a: seq<Line>, b: seq<Line>, c: seq<Line>)
    ensures a + (b + c) == (a + b) + c && [] + c == c
  {
  }

  /** An unterminated line given out early ends where the file ended then; read in one go it would not. */
  lemma {:induction false} SplitShows(a: bytes, b: bytes, offset: nat)
    requires a < b && offset <= |a| && Splits(a, offset)
    ensures var r := ReadToEof(a, offset, false); r.lines != [] && !(r.lines <= ReadToEof(b, offset, false).lines)
    decreases |a| - offset
  {
    var j := Newline(a, offset);
    NewlineLater(a, b, offset);
    var r, s := ReadToEof(a, offset, false), ReadToEof(b, offset, false);
    if j < |a| {
      SplitShows(a, b, j + 1);
      var x, y := ReadToEof(a, j + 1, false).lines, ReadToEof(b, j + 1, false).lines;
      PrefixTail(Line(offset, j + 1), x, y);
    } else {
      assert r.lines == [Line(offset, |a|)];
      assert s.lines != [] ==> s.lines[0].offset > |a|;
    }
  }

  lemma PrefixTail(l: Line, x: seq<Line>, y: seq<Line>)
    ensures [l] + x <= [l] + y <==> x <= y
  {
    assert ([l] + x)[1..] == x && ([l] + y)[1..] == y;
  }

  /** The exact condition. Two polls, with the file growing in between, give the lines and the offset
      of one poll at the end if and only if the first did not give out an unterminated line. */
  lemma TwoPollsIff(a: bytes, b: bytes, offset: nat)
    requires a < b && offset <= |a|
    ensures var r := ReadToEof(a, offset, false);
            var more := ReadToEof(b, r.offset, false);
            ReadToEof(b, offset, false) == Scan(r.lines + more.lines, more.offset) <==> !Splits(a, offset)
  {
    if Splits(a, offset) {
      SplitShows(a, b, offset);
      var r := ReadToEof(a, offset, false);
      assert r.lines <= r.lines + ReadToEof(b, r.offset, false).lines;
    } else {
      ScanContinues(a, b, offset, false);
    }
  }

  /** A failing input: a poll after MAX_MESSAGE bytes of a line cuts it in two, a later one does not. */
  lemma PollCutsALongLine(a: bytes)
    requires |a| == MAX_MESSAGE && forall i :: 0 <= i < |a| ==> a[i] == 97
    ensures var b := a + [97, NL];
            && ReadToEof(a, 0, false) == Scan([Line(0, |a|)], |a|)
            && ReadToEof(b, |a|, false) == Scan([Line(|a|, |b|)], |b|)
            && ReadToEof(b, 0, false) == Scan([Line(0, |b|)], |b|)
  {
    var b := a + [97, NL];
    NewlineAt(a, 0, |a|);
    assert a[0..|a|] == a;
    assert Text(a, Line(0, |a|)) == a;
    NewlineAt(b, 0, |a| + 1);
    NewlineAt(b, |a|, |a| + 1);
    NewlineAt(b, |b|, |b|);
    assert ReadToEof(b, |b|, false) == Scan([], |b|);
  }

  lemma NewlineAt(data: bytes, i: nat, j: nat)
    requires i <= j <= |data| && (j < |data| ==> data[j] == NL) && forall k :: i <= k < j ==> data[k] != NL
    ensures Newline(data, i) == j
  {
  }

  /** Every line, its terminator and an unterminated one's absence aside, is shorter than MAX_MESSAGE. */
  ghost predicate Short(data: bytes) {
    forall i :: 0 <= i <= |data| ==> Newline(data, i) - i < MAX_MESSAGE
  }

  lemma ShortEmitsNothing(data: bytes, start: nat)
    requires start <= |data| && |data| - start < MAX_MESSAGE
    ensures !Emits(data, start, false)
  {
  }

  lemma {:induction false} ShortNeverSplits(data: bytes, offset: nat)
    requires Short(data) && offset <= |data|
    ensures !Splits(data, offset)
    decreases |data| - offset
  {
    var j := Newline(data, offset);
    if j < |data| {
      ShortNeverSplits(data, j + 1);
    } else {
      ShortEmitsNothing(data, offset);
    }
  }

  lemma ShortEarlier(a: bytes, b: bytes)
    requires a <= b && Short(b)
    ensures Short(a)
  {
    forall i | 0 <= i <= |a|
      ensures Newline(a, i) - i < MAX_MESSAGE
    {
      NewlineLater(a, b, i);
      assert Newline(b, i) - i < MAX_MESSAGE;
    }
  }

  ghost predicate Growing(files: seq<bytes>) {
    forall i, j :: 0 <= i <= j < |files| ==> files[i] <= files[j]
  }

  /** A poll at each of these contents of the file. */
  ghost function Polls(files: seq<bytes>): (r: Scan)
    requires Growing(files)
    ensures files == [] ==> r.offset == 0
    ensures files != [] ==> r.offset <= |files[|files| - 1]|
    decreases |files|
  {
    if files == [] then Scan([], 0)
    else
      var k := |files| - 1;
      var before := Polls(files[..k]);
      assert k > 0 ==> files[k - 1] <= files[k];
      var next := ReadToEof(files[k], before.offset, false);
      Scan(before.lines + next.lines, next.offset)
  }

  /** Every schedule of polls of a growing file gives the lines of one poll at the end. */
  lemma {:induction false} EverySchedule(files: seq<bytes>)
    requires Growing(files) && files != [] && Short(files[|files| - 1])
    ensures Polls(files) == ReadToEof(files[|files| - 1], 0, false)
    decreases |files|
  {
    var k := |files| - 1;
    if k > 0 {
      assert files[k - 1] <= files[k];
      ShortEarlier(files[k - 1], files[k]);
      EverySchedule(files[..k]);
      ShortNeverSplits(files[k - 1], 0);
      ScanContinues(files[k - 1], files[k], 0, false);
    } else {
      assert files[..k] == [];
      assert [] + ReadToEof(files[k], 0, false).lines == ReadToEof(files[k], 0, false).lines;
    }
  }

  /** Where the bytes after the last newline begin. */
  function LastLine(data: bytes, offset: nat): (r: nat)
    requires offset <= |data|
    ensures r <= |data|
    decreases |data| - offset
  {
    var j := Newline(data, offset);
    if j < |data| then LastLine(data, j + 1) else offset
  }

  /** The exact condition. The drain of a rotated file covers it to its last byte, if and only if what
      follows the last newline is not a lone carriage return. */
  lemma {:induction false} DrainCoversIff(data: bytes, offset: nat)
    requires offset <= |data|
    ensures ReadToEof(data, offset, true).offset == |data| <==> data[LastLine(data, offset)..] != [CR]
    decreases |data| - offset
  {
    var j := Newline(data, offset);
    if j < |data| {
      DrainCoversIff(data, j + 1);
    } else {
      StripsToNothing(data, offset);
    }
  }

  /** A failing input: the last byte of a drained file is in no line. */
  lemma LoneReturnIsLeft()
    ensures ReadToEof([97, NL, CR], 0, true) == Scan([Line(0, 2)], 2)
  {
    var data: bytes := [97, NL, CR];
    NewlineAt(data, 0, 1);
    NewlineAt(data, 2, 3);
    StripsToNothing(data, 2);
    assert data[2..] == [CR];
  }

  lemma StripsToNothing(data: bytes, start: nat)
    requires start <= |data| && forall k :: start <= k < |data| ==> data[k] != NL
    ensures Emits(data, start, true) <==> start < |data| && data[start..] != [CR]
  {
    var rest := data[start..];
    assert data[start..|data|] == rest;
    forall k | 0 <= k < |rest|
      ensures rest[k] != NL
    {
      assert rest[k] == data[start + k];
    }
    FreeStrips(Cut(rest));
  }

  lemma FreeStrips(b: bytes)
    requires forall k :: 0 <= k < |b| ==> b[k] != NL
    ensures Strip(b) == [] <==> b == [] || b == [CR]
  {
  }

  lemma IndexIsNewline(data: bytes, offset: nat)
    requires offset <= |data|
    ensures Index(data[offset..]) == Newline(data, offset) - offset
  {
    var j, rest := Newline(data, offset), data[offset..];
    forall k | 0 <= k < j - offset
      ensures rest[k] != NL
    {
      assert rest[k] == data[offset + k];
    }
    if j < |data| {
      IndexUnique(rest, j - offset);
    } else {
      IndexNone(rest);
    }
  }

  lemma SliceOfSlice(data: bytes, offset: nat, n: nat)
    requires offset + n <= |data|
    ensures data[offset..][..n] == data[offset..offset + n]
  {
  }

  lemma TextIs(data: bytes, start: nat, end: nat, b: bytes)
    requires start <= end <= |data| && b == data[start..end]
    ensures Text(data, Line(start, end)) == Strip(Cut(b))
  {
  }

  /** The line the assembler reads at an offset is the one of the scan. */
  lemma NextIsLine(data: bytes, offset: nat, end: nat)
    requires offset <= |data| && end == if Newline(data, offset) < |data| then Newline(data, offset) + 1 else |data|
    ensures Next(data[offset..]).consumed == end - offset
    ensures Next(data[offset..]).terminated <==> Newline(data, offset) < |data|
    ensures Next(data[offset..]).line == Text(data, Line(offset, end))
  {
    IndexIsNewline(data, offset);
    SliceOfSlice(data, offset, end - offset);
    TextIs(data, offset, end, data[offset..][..end - offset]);
    NextOf(data[offset..], end - offset, Newline(data, offset) < |data|);
  }

  lemma NextOf(rest: bytes, n: nat, terminated: bool)
    requires n == (if terminated then Index(rest) + 1 else Index(rest)) && (terminated <==> Index(rest) < |rest|)
    ensures Next(rest).line == Strip(Cut(rest[..n])) && Next(rest).consumed == n && Next(rest).terminated == terminated
  {
  }
}
