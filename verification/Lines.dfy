/** Line assembly (internal/agent/lines.go): what a line is, and the loop that collects it from a
    buffered reader's fragments. */
module Lines {
  import opened Prelude

  /** model.MaxMessageLen: 64 KiB. */
  const MAX_MESSAGE := 0x1_0000

  const NL: byte := 10
  const CR: byte := 13

  /** The position of the first newline, or the length. */
  function Index(rest: bytes): (i: nat)
    ensures i <= |rest| && (i < |rest| ==> rest[i] == NL) && forall j :: 0 <= j < i ==> rest[j] != NL
  {
    if rest == [] || rest[0] == NL then 0 else 1 + Index(rest[1..])
  }

  function Cut(b: bytes): bytes {
    if |b| <= MAX_MESSAGE then b else b[..MAX_MESSAGE]
  }

  function DropLast(b: bytes, c: byte): bytes {
    if b != [] && b[|b| - 1] == c then b[..|b| - 1] else b
  }

  /** The terminator goes only if the cut has left it there, and so does a carriage return. */
  function Strip(b: bytes): bytes {
    DropLast(DropLast(b, NL), CR)
  }

  datatype Read = Read(line: bytes, consumed: nat, terminated: bool)

  /** The line at the front of `rest`: up to its newline, or all there is. */
  function Next(rest: bytes): (r: Read)
    ensures r.consumed <= |rest| && (r.terminated ==> r.consumed > 0) && (!r.terminated ==> r.consumed == |rest|)
    ensures |r.line| <= r.consumed && |r.line| <= MAX_MESSAGE
  {
    var i := Index(rest);
    var n := if i < |rest| then i + 1 else i;
    Read(Strip(Cut(rest[..n])), n, i < |rest|)
  }

  ghost predicate Free(b: bytes) {
    forall j :: 0 <= j < |b| ==> b[j] != NL
  }

  lemma DropLastIs(b: bytes, c: byte) returns (dropped: bool)
    ensures b == DropLast(b, c) + (if dropped then [c] else []) && (dropped <==> b != [] && b[|b| - 1] == c)
  {
    dropped := b != [] && b[|b| - 1] == c;
  }

  /** What a line is: all the bytes up to the newline, or the first 64 KiB of them, less the newline and
      one carriage return before it. */
  lemma LineIs(rest: bytes) returns (nl: bool, cr: bool)
    ensures var r := Next(rest);
            && rest[..if r.consumed <= MAX_MESSAGE then r.consumed else MAX_MESSAGE]
               == r.line + (if cr then [CR] else []) + (if nl then [NL] else [])
            && (nl <==> r.terminated && r.consumed <= MAX_MESSAGE)
            && (r.line != [] && !cr ==> r.line[|r.line| - 1] != CR)
    ensures var r := Next(rest);
            if r.terminated then rest[r.consumed - 1] == NL && Free(rest[..r.consumed - 1]) else Free(rest)
  {
    var r := Next(rest);
    var kept := Cut(rest[..r.consumed]);
    nl := DropLastIs(kept, NL);
    cr := DropLastIs(DropLast(kept, NL), CR);
  }

  lemma IndexUnique(rest: bytes, i: nat)
    requires i < |rest| && rest[i] == NL && forall j :: 0 <= j < i ==> rest[j] != NL
    ensures Index(rest) == i
  {
  }

  lemma IndexNone(rest: bytes)
    requires forall j :: 0 <= j < |rest| ==> rest[j] != NL
    ensures Index(rest) == |rest|
  {
  }

  /** More data does not change a line that was terminated. */
  lemma NextLater(rest: bytes, more: bytes)
    requires Next(rest).terminated && rest <= more
    ensures Next(more) == Next(rest)
  {
    IndexUnique(more, Index(rest));
    var n := Index(rest) + 1;
    assert more[..n] == rest[..n];
  }

  /** The first `n` bytes of `rest` as a read that ended so. */
  ghost predicate Reads(rest: bytes, n: nat, status: Status) {
    n <= |rest| &&
    match status
    case Found => n > 0 && rest[n - 1] == NL && Free(rest[..n - 1])
    case BufferFull => Free(rest[..n])
    case EndOfFile => Free(rest[..n]) && n == |rest|
  }

  datatype Status = Found | BufferFull | EndOfFile

  /** bufio.Reader over a file's bytes, with a buffer of `size`. */
  class Reader {
    const data: bytes
    const size: nat
    var pos: nat

    ghost predicate Valid()
      reads this
    {
      pos <= |data| && size > 0
    }

    constructor (data: bytes, size: nat, pos: nat)
      requires pos <= |data| && size > 0
      ensures Valid() && this.data == data && this.size == size && this.pos == pos
    {
      this.data, this.size, this.pos := data, size, pos;
    }

    /** ReadSlice('\n'). */
    method ReadSlice() returns (fragment: bytes, status: Status)
      requires Valid()
      modifies this
      ensures Valid() && pos == old(pos) + |fragment| && fragment == data[old(pos)..][..|fragment|]
      ensures Reads(data[old(pos)..], |fragment|, status) && (status.BufferFull? ==> |fragment| == size)
    {
      var n := 0;
      while n < size && pos + n < |data| && data[pos + n] != NL
        invariant n <= size && pos + n <= |data| && Free(data[pos..][..n])
      {
        n := n + 1;
      }
      if n == size {
        status := BufferFull;
      } else if pos + n == |data| {
        status := EndOfFile;
      } else {
        n, status := n + 1, Found;
      }
      fragment := data[pos..][..n];
      pos := pos + n;
    }
  }

  class LineAssembler {
    var buf: bytes

    constructor ()
      ensures buf == []
    {
      buf := [];
    }

    /** Bytes past the bound are counted and dropped. */
    method Collect(fragment: bytes, ghost before: bytes)
      requires buf == Cut(before)
      modifies this
      ensures buf == Cut(before + fragment)
    {
      if |buf| < MAX_MESSAGE {
        var space := MAX_MESSAGE - |buf|;
        buf := buf + if |fragment| <= space then fragment else fragment[..space];
      }
    }

    /** next: whatever fragments the reader hands out, the line is the one at its position. */
    method NextLine(br: Reader) returns (line: bytes, consumed: nat, terminated: bool)
      requires br.Valid()
      modifies this, br
      ensures br.Valid() && br.pos == old(br.pos) + consumed
      ensures Read(line, consumed, terminated) == Next(br.data[old(br.pos)..])
    {
      buf := [];
      ghost var rest := br.data[br.pos..];
      consumed, terminated := 0, false;
      assert rest[..0] == [];
      var status := BufferFull;
      while status == BufferFull
        invariant br.Valid() && br.pos == old(br.pos) + consumed && rest == br.data[old(br.pos)..]
        invariant Reads(rest, consumed, status) && buf == Cut(rest[..consumed])
        decreases status == BufferFull, |rest| - consumed
      {
        var fragment: bytes;
        ghost var before := consumed;
        fragment, status := br.ReadSlice();
        assert br.data[old(br.pos) + before..] == rest[before..];
        ReadsOn(rest, before, |fragment|, status);
        Collect(fragment, rest[..before]);
        consumed := consumed + |fragment|;
      }
      terminated := status.Found?;
      Ends(rest, consumed, status);
      if |buf| > 0 && buf[|buf| - 1] == NL {
        buf := buf[..|buf| - 1];
      }
      if |buf| > 0 && buf[|buf| - 1] == CR {
        buf := buf[..|buf| - 1];
      }
      line := buf;
    }
  }

  lemma ReadsOn(rest: bytes, before: nat, n: nat, status: Status)
    requires before <= |rest| && Free(rest[..before]) && Reads(rest[before..], n, status)
    ensures Reads(rest, before + n, status) && rest[..before] + rest[before..][..n] == rest[..before + n]
  {
    var m := if status.Found? then n - 1 else n;
    forall j | 0 <= j < before + m
      ensures rest[j] != NL
    {
      if j < before {
        assert rest[..before][j] != NL;
      } else {
        assert rest[before..][..m][j - before] != NL;
      }
    }
  }

  lemma Ends(rest: bytes, consumed: nat, status: Status)
    requires Reads(rest, consumed, status) && !status.BufferFull?
    ensures Next(rest) == Read(Strip(Cut(rest[..consumed])), consumed, status.Found?)
  {
    if status.Found? {
      forall j | 0 <= j < consumed - 1
        ensures rest[j] != NL
      {
        assert rest[..consumed - 1][j] != NL;
      }
      IndexUnique(rest, consumed - 1);
    } else {
      assert rest[..consumed] == rest;
      IndexNone(rest);
    }
  }
}
