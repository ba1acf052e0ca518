/** The on-disk framing of a spool segment (internal/agent/spool.go): every entry is a
    big-endian length, a big-endian checksum and the payload. The checksum is any function
    of the payload. */
module Frames {
  import opened Prelude

  const HEADER := 8

  /** maxEntryPayloadBytes: 256 MiB. */
  const MAX_PAYLOAD := 0x1000_0000

  type Payload = p: bytes | |p| <= MAX_PAYLOAD

  /** What the framing depends on: a checksum and a four-byte integer encoding. */
  datatype Format = Format(crc: bytes -> uint32, put: uint32 -> bytes, get: bytes -> uint32) {
    ghost predicate Ok() {
      && (forall n :: |put(n)| == 4 && get(put(n)) == n)
      && (forall b :: |b| == 4 ==> put(get(b)) == b)
    }
  }

  /** binary.BigEndian, the encoding the spool uses. */
  function BigEndian(crc: bytes -> uint32): (f: Format)
    ensures f.Ok() && f.crc == crc
    ensures forall n: uint32 :: |f.put(n)| == 4 && f.put(n)[3] as int == n % 256
  {
    forall n: uint32 ensures GetUint32(PutUint32(n)) == n { GetPut(n); }
    forall b: bytes | |b| == 4 ensures PutUint32(GetUint32(b)) == b { PutGet(b); }
    Format(crc, PutUint32, GetUint32)
  }

  function PutUint32(n: uint32): (b: bytes)
    ensures |b| == 4
  {
    var q1 := n / 256;
    var q2 := q1 / 256;
    [q2 / 256, q2 % 256, q1 % 256, n % 256]
  }

  function GetUint32(b: bytes): uint32 {
    if |b| != 4 then 0 else
    var q2: int := b[0] as int * 256 + b[1] as int;
    (q2 * 256 + b[2] as int) * 256 + b[3] as int
  }

  lemma GetPut(n: uint32)
    ensures GetUint32(PutUint32(n)) == n
  {
    var q1 := n / 256;
    var q2 := q1 / 256;
    assert q2 / 256 * 256 + q2 % 256 == q2 && q2 * 256 + q1 % 256 == q1;
  }

  lemma PutGet(b: bytes)
    requires |b| == 4
    ensures PutUint32(GetUint32(b)) == b
  {
    var q2: int := b[0] as int * 256 + b[1] as int;
    var q1 := q2 * 256 + b[2] as int;
    assert GetUint32(b) / 256 == q1 && q1 / 256 == q2;
  }

  function EncodeEntry(f: Format, p: Payload): (e: bytes) {
    f.put(|p|) + f.put(f.crc(p)) + p
  }

  function EncodeAll(f: Format, ps: seq<Payload>): bytes {
    if ps == [] then [] else EncodeEntry(f, ps[0]) + EncodeAll(f, ps[1..])
  }

  /** Bytes that the entries occupy on disk, headers included. */
  function Size(ps: seq<Payload>): nat {
    if ps == [] then 0 else HEADER + |ps[0]| + Size(ps[1..])
  }

  lemma {:induction false} EncodeAllSize(f: Format, ps: seq<Payload>)
    requires f.Ok()
    ensures |EncodeAll(f, ps)| == Size(ps)
  {
    if ps != [] {
      EncodeAllSize(f, ps[1..]);
    }
  }

  lemma {:induction false} EncodeAllConcat(f: Format, a: seq<Payload>, b: seq<Payload>)
    ensures EncodeAll(f, a + b) == EncodeAll(f, a) + EncodeAll(f, b)
  {
    if a == [] {
      assert a + b == b;
    } else {
      assert (a + b)[1..] == a[1..] + b;
      EncodeAllConcat(f, a[1..], b);
    }
  }

  lemma {:induction false} SizeConcat(a: seq<Payload>, b: seq<Payload>)
    ensures Size(a + b) == Size(a) + Size(b)
  {
    if a == [] {
      assert a + b == b;
    } else {
      assert (a + b)[1..] == a[1..] + b;
      SizeConcat(a[1..], b);
    }
  }

  /** The whole valid entry that starts at `offset`, or None when the bytes there are torn,
      carry an absurd length or fail their checksum. */
  function EntryAt(f: Format, file: bytes, offset: nat): (r: Option<Payload>)
    requires offset <= |file|
    ensures r.Some? ==> offset + HEADER + |r.value| <= |file|
  {
    var left := |file| - offset;
    if left < HEADER then None else
    var length := f.get(file[offset..offset + 4]);
    var wantCRC := f.get(file[offset + 4..offset + 8]);
    if length > MAX_PAYLOAD || length > left - HEADER then None else
    var payload := file[offset + HEADER..offset + HEADER + length];
    if f.crc(payload) != wantCRC then None else Some(payload)
  }

  /** A recognised entry is exactly the bytes an append of its payload writes. */
  lemma EntryAtIsEncoded(f: Format, file: bytes, offset: nat)
    requires f.Ok()
    requires offset <= |file| && EntryAt(f, file, offset).Some?
    ensures var p := EntryAt(f, file, offset).value;
            file[offset..offset + HEADER + |p|] == EncodeEntry(f, p)
  {
    var p := EntryAt(f, file, offset).value;
    assert file[offset..offset + HEADER + |p|]
        == file[offset..offset + 4] + file[offset + 4..offset + 8] + file[offset + HEADER..offset + HEADER + |p|];
  }

  /** An entry that was written whole is recognised whatever follows it. */
  lemma EntryAtWhole(f: Format, before: bytes, p: Payload, after: bytes)
    requires f.Ok()
    ensures EntryAt(f, before + EncodeEntry(f, p) + after, |before|) == Some(p)
  {
    var file := before + EncodeEntry(f, p) + after;
    var o := |before|;
    assert file[o..o + 4] == f.put(|p|);
    assert file[o + 4..o + 8] == f.put(f.crc(p));
    assert file[o + HEADER..o + HEADER + |p|] == p;
  }

  /** A proper prefix of an entry is never taken for one, whatever the checksum function is:
      the length prefix alone gives it away. */
  lemma EntryAtTorn(f: Format, before: bytes, p: Payload, n: nat)
    requires f.Ok()
    requires n < |EncodeEntry(f, p)|
    ensures EntryAt(f, before + EncodeEntry(f, p)[..n], |before|) == None
  {
    var file := before + EncodeEntry(f, p)[..n];
    if n >= HEADER {
      assert file[|before|..|before| + 4] == f.put(|p|);
    }
  }

  /** The maximal run of whole valid entries from `offset` on. */
  function EntriesFrom(f: Format, file: bytes, offset: nat): seq<Payload>
    requires offset <= |file|
    decreases |file| - offset
  {
    match EntryAt(f, file, offset)
    case None => []
    case Some(p) => [p] + EntriesFrom(f, file, offset + HEADER + |p|)
  }

  lemma Slices(file: bytes, i: nat, j: nat, k: nat)
    requires i <= j <= k <= |file|
    ensures file[i..k] == file[i..j] + file[j..k]
  {
  }

  lemma {:induction false} EntriesFromEncoded(f: Format, file: bytes, offset: nat)
    requires f.Ok()
    requires offset <= |file|
    ensures var ps := EntriesFrom(f, file, offset);
            && offset + Size(ps) <= |file|
            && file[offset..offset + Size(ps)] == EncodeAll(f, ps)
    decreases |file| - offset
  {
    match EntryAt(f, file, offset)
    case None =>
    case Some(p) =>
      var next := offset + HEADER + |p|;
      var ps := EntriesFrom(f, file, offset);
      EntryAtIsEncoded(f, file, offset);
      EntriesFromEncoded(f, file, next);
      assert ps[1..] == EntriesFrom(f, file, next);
      Slices(file, offset, next, offset + Size(ps));
  }

  lemma EncodeAllSplit(f: Format, ps: seq<Payload>, k: nat)
    requires k < |ps|
    ensures EncodeAll(f, ps) == EncodeAll(f, ps[..k]) + (EncodeEntry(f, ps[k]) + EncodeAll(f, ps[k + 1..]))
  {
    assert ps == ps[..k] + ps[k..] && ps[k..][1..] == ps[k + 1..];
    EncodeAllConcat(f, ps[..k], ps[k..]);
  }

  /** Entry k of an encoded run is found at its own offset, whatever follows the run. */
  lemma EntryAtIndex(f: Format, ps: seq<Payload>, k: nat, file: bytes, tail: bytes)
    requires f.Ok()
    requires k < |ps| && file == EncodeAll(f, ps) + tail
    ensures Size(ps[..k]) <= |file| && EntryAt(f, file, Size(ps[..k])) == Some(ps[k])
  {
    var before, rest := EncodeAll(f, ps[..k]), EncodeAll(f, ps[k + 1..]);
    EncodeAllSize(f, ps[..k]);
    EncodeAllSplit(f, ps, k);
    FourParts(before, EncodeEntry(f, ps[k]), rest, tail);
    EntryAtWhole(f, before, ps[k], rest + tail);
  }

  lemma FourParts(a: bytes, b: bytes, c: bytes, d: bytes)
    ensures (a + (b + c)) + d == a + b + (c + d)
  {
  }

  lemma SizeSnoc(ps: seq<Payload>, k: nat)
    requires k < |ps|
    ensures Size(ps[..k + 1]) == Size(ps[..k]) + HEADER + |ps[k]|
  {
    assert ps[..k + 1] == ps[..k] + [ps[k]];
    SizeConcat(ps[..k], [ps[k]]);
    assert Size([ps[k]]) == HEADER + |ps[k]|;
  }

  lemma EntriesFromStep(f: Format, file: bytes, offset: nat, p: Payload)
    requires offset <= |file| && EntryAt(f, file, offset) == Some(p)
    ensures EntriesFrom(f, file, offset) == [p] + EntriesFrom(f, file, offset + HEADER + |p|)
  {
  }

  lemma FromIndex(ps: seq<Payload>, k: nat)
    requires k < |ps|
    ensures ps[k..] == [ps[k]] + ps[k + 1..]
  {
  }

  lemma {:induction false} EntriesFromFound(f: Format, file: bytes, ps: seq<Payload>, k: nat)
    requires k <= |ps| && Size(ps) <= |file|
    requires forall i :: k <= i < |ps| ==> Size(ps[..i]) <= |file| && EntryAt(f, file, Size(ps[..i])) == Some(ps[i])
    requires EntryAt(f, file, Size(ps)) == None
    ensures Size(ps[..k]) <= |file| && EntriesFrom(f, file, Size(ps[..k])) == ps[k..]
    decreases |ps| - k
  {
    if k == |ps| {
      assert ps[..k] == ps;
    } else {
      EntriesFromFound(f, file, ps, k + 1);
      SizeSnoc(ps, k);
      EntriesFromStep(f, file, Size(ps[..k]), ps[k]);
      FromIndex(ps, k);
    }
  }

  /** Recovery reads back exactly the entries that were completely written, in order, and
      nothing of a torn last write. */
  lemma EntriesOfTornFile(f: Format, ps: seq<Payload>, last: Payload, n: nat)
    requires f.Ok()
    requires n < HEADER + |last|
    ensures EntriesFrom(f, EncodeAll(f, ps) + EncodeEntry(f, last)[..n], 0) == ps
  {
    var torn := EncodeEntry(f, last)[..n];
    var file := EncodeAll(f, ps) + torn;
    EncodeAllSize(f, ps);
    forall i | 0 <= i < |ps|
      ensures Size(ps[..i]) <= |file| && EntryAt(f, file, Size(ps[..i])) == Some(ps[i])
    {
      EntryAtIndex(f, ps, i, file, torn);
    }
    EntryAtTorn(f, EncodeAll(f, ps), last, n);
    EntriesFromFound(f, file, ps, 0);
  }

  lemma EntriesOfWholeFile(f: Format, ps: seq<Payload>)
    requires f.Ok()
    ensures EntriesFrom(f, EncodeAll(f, ps), 0) == ps
  {
    EntriesOfTornFile(f, ps, [], 0);
    assert EncodeAll(f, ps) + EncodeEntry(f, [])[..0] == EncodeAll(f, ps);
  }

  /** What a scan with a byte limit returns: it stops at the first entry that fails, or at the
      first entry boundary at or past the limit. */
  ghost predicate ScanResult(f: Format, file: bytes, limit: nat, entries: nat, validBytes: nat) {
    var ps := EntriesFrom(f, file, 0);
    && entries <= |ps|
    && validBytes == Size(ps[..entries])
    && (entries == |ps| || limit <= validBytes)
    && (entries == 0 || Size(ps[..entries - 1]) < limit)
  }

  lemma {:induction false} EntriesSplit(f: Format, file: bytes, k: nat)
    requires k <= |EntriesFrom(f, file, 0)|
    ensures var ps := EntriesFrom(f, file, 0);
            && Size(ps[..k]) <= |file|
            && EntriesFrom(f, file, Size(ps[..k])) == ps[k..]
  {
    var ps := EntriesFrom(f, file, 0);
    if k > 0 {
      EntriesSplit(f, file, k - 1);
      assert ps[..k] == ps[..k - 1] + [ps[k - 1]];
      SizeConcat(ps[..k - 1], [ps[k - 1]]);
      assert Size([ps[k - 1]]) == HEADER + |ps[k - 1]|;
    }
  }

  lemma ScanStep(f: Format, file: bytes, k: nat, offset: nat, p: Payload)
    requires k <= |EntriesFrom(f, file, 0)|
    requires offset == Size(EntriesFrom(f, file, 0)[..k]) <= |file|
    requires EntryAt(f, file, offset) == Some(p)
    ensures var ps := EntriesFrom(f, file, 0);
            k < |ps| && offset + HEADER + |p| == Size(ps[..k + 1]) <= |file|
  {
    var ps := EntriesFrom(f, file, 0);
    EntriesSplit(f, file, k);
    EntriesSplit(f, file, k + 1);
    assert ps[k] == ps[k..][0] == p;
    assert ps[..k + 1] == ps[..k] + [p];
    SizeConcat(ps[..k], [p]);
    assert Size([p]) == HEADER + |p|;
  }

  lemma ScanStop(f: Format, file: bytes, k: nat, offset: nat)
    requires k <= |EntriesFrom(f, file, 0)|
    requires offset == Size(EntriesFrom(f, file, 0)[..k]) <= |file|
    requires EntryAt(f, file, offset) == None
    ensures k == |EntriesFrom(f, file, 0)|
  {
    EntriesSplit(f, file, k);
  }

  /** scanEntries: walks the file entry by entry. A negative limit, or one past the end, means
      the whole file. */
  method ScanEntries(f: Format, file: bytes, limit: int) returns (entries: nat, validBytes: nat)
    ensures ScanResult(f, file, if limit < 0 || limit > |file| then |file| else limit, entries, validBytes)
    ensures validBytes <= |file|
  {
    var lim := if limit < 0 || limit > |file| then |file| else limit;
    ghost var ps := EntriesFrom(f, file, 0);
    entries, validBytes := 0, 0;
    while validBytes < lim
      invariant entries <= |ps| && validBytes == Size(ps[..entries]) <= |file|
      invariant entries == 0 || Size(ps[..entries - 1]) < lim
      decreases |file| - validBytes
    {
      var entry := EntryAt(f, file, validBytes);
      if entry.None? {
        ScanStop(f, file, entries, validBytes);
        break;
      }
      ScanStep(f, file, entries, validBytes, entry.value);
      entries, validBytes := entries + 1, validBytes + HEADER + |entry.value|;
    }
  }

  lemma {:induction false} SizeGrows(ps: seq<Payload>, i: nat, j: nat)
    requires i < j <= |ps|
    ensures Size(ps[..i]) < Size(ps[..j])
  {
    assert ps[..j] == ps[..i] + ps[i..j];
    SizeConcat(ps[..i], ps[i..j]);
  }
}
