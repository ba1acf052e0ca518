/** The live tail's evaluator and the statements the planner compiles (internal/query/match.go,
    internal/query/plan.go). A statement is its syntax tree; a predicate of SQL is true, false or
    unknown, and a row is kept only where it is true. Regular expressions are not interpreted. */
module Matcher {
  import opened Prelude
  import opened Sorting
  import opened Labels
  import SourceChoice

  datatype Op = Eq | Neq | Re | Nre | Gte | Lte | Gt | Lt

  datatype Selector = Selector(name: string, op: Op, value: string)

  datatype LineOp = Contains | NotContains | Matches | NotMatches

  datatype Stage = LineFilter(lop: LineOp, text: string) | ParserStage | LabelFilter

  datatype Query = Query(selectors: seq<Selector>, stages: seq<Stage>, aggregates: bool)

  datatype Record = Record(level: int, message: string)

  /** The two regex engines, and ParseLevel, which the parser has already run on every level matcher. */
  datatype Engines = Engines(go: (string, string) -> bool, are: (string, string) -> bool, parseLevel: string -> Option<int>)
  {
    /** The two dialects find the same texts with this line regex. */
    ghost predicate SearchesAlike(re: string) {
      forall s :: go(Dotall(re), s) == are(Are(re), s)
    }

    /** The two dialects match the same values with this selector regex. */
    ghost predicate MatchesAlike(re: string) {
      forall s :: go(Dotall(Anchor(re)), s) == are(Anchor(Are(re)), s)
    }
  }

  function Anchor(re: string): string { "^(?:" + re + ")$" }

  function Dotall(re: string): string { "(?s)" + re }

  /** are: the escapes whose meaning differs between the dialects. */
  function Are(re: string): string {
    if |re| < 2 || re[0] != '\\' then if re == [] then [] else [re[0]] + Are(re[1..])
    else
      [re[0], if re[1] == 'b' then 'y' else if re[1] == 'B' then 'Y' else if re[1] == 'z' then 'Z' else re[1]] + Are(re[2..])
  }

  /** What the statement on streams reads of a row. */
  datatype Term =
    | Column(name: string)
    | LabelOr(name: string)
    | Level
    | Message

  /** LabelOr(k) is coalesce(labels ->> k, ''); Has is labels @> {k: v}. */
  datatype Sql =
    | Compare(term: Term, op: Op, value: string)
    | CompareInt(iop: Op, n: int)
    | Has(name: string, value: string)
    | Like(pattern: string, negated: bool)
    | Search(pattern: string, negated: bool)

  datatype Truth = True | False | Unknown

  function Decide(b: bool): Truth { if b then True else False }

  /** The operators of sqlOps on text, in the C collation. */
  predicate TextHolds(e: Engines, op: Op, a: string, b: string) {
    match op
    case Eq => a == b
    case Neq => a != b
    case Re => e.are(b, a)
    case Nre => !e.are(b, a)
    case Gte => StringLeq(b, a)
    case Lte => StringLeq(a, b)
    case Gt => !StringLeq(a, b)
    case Lt => !StringLeq(b, a)
  }

  predicate IsRegex(op: Op) {
    op == Re || op == Nre
  }

  /** The operators of sqlOps on a smallint: there is no regex match, and the statement is refused. */
  function IntTruth(op: Op, a: int, b: int): Truth {
    match op
    case Eq => Decide(a == b)
    case Neq => Decide(a != b)
    case Re => Unknown
    case Nre => Unknown
    case Gte => Decide(a >= b)
    case Lte => Decide(a <= b)
    case Gt => Decide(a > b)
    case Lt => Decide(a < b)
  }

  function Lower(c: char): char {
    if 'A' <= c <= 'Z' then c + 32 as char else c
  }

  function Fold(s: string): string {
    if s == [] then [] else [Lower(s[0])] + Fold(s[1..])
  }

  /** LIKE, with the backslash as its escape character (section 9.7.1 of the PostgreSQL manual). */
  predicate LikeHolds(p: string, s: string)
    decreases |p|, |s|
  {
    if p == [] then s == []
    else if p[0] == '%' then LikeHolds(p[1..], s) || (s != [] && LikeHolds(p, s[1..]))
    else if p[0] == '_' then s != [] && LikeHolds(p[1..], s[1..])
    else if p[0] == '\\' then |p| >= 2 && s != [] && s[0] == p[1] && LikeHolds(p[2..], s[1..])
    else s != [] && s[0] == p[0] && LikeHolds(p[1..], s[1..])
  }

  /** A row of streams: labels ->> k is NULL for a missing key. */
  function Stored(ls: LabelSet, name: string): Option<string> {
    if name in ls.extra then Some(ls.extra[name]) else None
  }

  function ColumnOf(ls: LabelSet, name: string): string {
    if name == "service" then ls.service else if name == "host" then ls.host else ls.env
  }

  function StreamTruth(e: Engines, p: Sql, ls: LabelSet): Truth {
    match p
    case Compare(Column(name), op, value) => Decide(TextHolds(e, op, ColumnOf(ls, name), value))
    case Compare(LabelOr(name), op, value) =>
      Decide(TextHolds(e, op, match Stored(ls, name) { case None => "" case Some(v) => v }, value))
    case Has(name, value) => Decide(Stored(ls, name) == Some(value))
    case _ => Unknown
  }

  function RecordTruth(e: Engines, p: Sql, r: Record): Truth {
    match p
    case CompareInt(op, n) => IntTruth(op, r.level, n)
    case Like(pattern, negated) => Decide(LikeHolds(Fold(pattern), Fold(r.message)) != negated)
    case Search(pattern, negated) => Decide(e.are(pattern, r.message) != negated)
    case _ => Unknown
  }

  /** matcher. */
  function CompileSelector(m: Selector): Sql {
    var v := if IsRegex(m.op) then Anchor(Are(m.value)) else m.value;
    if SourceChoice.Promoted(m.name) then Compare(Column(m.name), m.op, v)
    else if m.op == Eq then Has(m.name, v)
    else Compare(LabelOr(m.name), m.op, v)
  }

  /** likeMeta. */
  function Escape(text: string): string {
    if text == [] then []
    else (if text[0] == '\\' || text[0] == '%' || text[0] == '_' then ['\\', text[0]] else [text[0]]) + Escape(text[1..])
  }

  /** lineFilter. */
  function CompileLine(op: LineOp, text: string): Sql {
    match op
    case Contains => Like("%" + Escape(text) + "%", false)
    case NotContains => Like("%" + Escape(text) + "%", true)
    case Matches => Search(Are(text), false)
    case NotMatches => Search(Are(text), true)
  }

  /** strings.Contains. */
  predicate Within(needle: string, s: string) {
    needle <= s || (s != [] && Within(needle, s[1..]))
  }

  /** textPred. */
  predicate TextPred(e: Engines, op: Op, value: string, s: string) {
    match op
    case Eq => s == value
    case Neq => s != value
    case Re => e.go(Dotall(Anchor(value)), s)
    case Nre => !e.go(Dotall(Anchor(value)), s)
    case Gte => StringLeq(value, s)
    case Lte => StringLeq(s, value)
    case Gt => !StringLeq(s, value)
    case Lt => !StringLeq(value, s)
  }

  /** The label a selector reads, and whether it is there. */
  function Get(ls: LabelSet, name: string): (string, bool) {
    if name == "service" then (ls.service, true)
    else if name == "host" then (ls.host, true)
    else if name == "env" then (ls.env, true)
    else if name in ls.extra then (ls.extra[name], true)
    else ("", false)
  }

  /** labelPred. */
  predicate LabelPred(e: Engines, m: Selector, ls: LabelSet) {
    var got := Get(ls, m.name);
    if m.op == Eq then got.1 && got.0 == m.value else TextPred(e, m.op, m.value, got.0)
  }

  /** levelPred: whatever is not one of the first five is a less-than. */
  predicate LevelPred(op: Op, want: int, r: Record) {
    match op
    case Eq => r.level == want
    case Neq => r.level != want
    case Gte => r.level >= want
    case Lte => r.level <= want
    case Gt => r.level > want
    case _ => r.level < want
  }

  /** linePred. */
  predicate LinePred(e: Engines, op: LineOp, text: string, r: Record) {
    match op
    case Contains => Within(Fold(text), Fold(r.message))
    case NotContains => !Within(Fold(text), Fold(r.message))
    case Matches => e.go(Dotall(text), r.message)
    case NotMatches => !e.go(Dotall(text), r.message)
  }

  lemma {:induction false} FoldConcat(a: string, b: string)
    ensures Fold(a + b) == Fold(a) + Fold(b)
  {
    if a == [] {
      assert a + b == b;
    } else {
      assert (a + b)[1..] == a[1..] + b;
      FoldConcat(a[1..], b);
    }
  }

  /** Folding and escaping do not get in each other's way. */
  lemma {:induction false} FoldEscape(text: string)
    ensures Fold(Escape(text)) == Escape(Fold(text))
  {
    if text != [] {
      var head := if text[0] == '\\' || text[0] == '%' || text[0] == '_' then ['\\', text[0]] else [text[0]];
      FoldConcat(head, Escape(text[1..]));
      FoldEscape(text[1..]);
      assert Fold(text)[1..] == Fold(text[1..]);
      assert head[1..] == if |head| == 2 then [text[0]] else [];
      assert [text[0]][1..] == [];
    }
  }

  /** An escaped text matches itself and nothing else. */
  lemma {:induction false} EscapedIsLiteral(text: string, more: string, s: string)
    ensures LikeHolds(Escape(text) + more, s) <==> text <= s && LikeHolds(more, s[|text|..])
  {
    if text == [] {
      assert Escape(text) + more == more && s[0..] == s;
    } else {
      EscapedHead(text, more, s);
      if s != [] && s[0] == text[0] {
        EscapedIsLiteral(text[1..], more, s[1..]);
        PrefixTail(text, s);
      }
    }
  }

  lemma EscapedHead(text: string, more: string, s: string)
    requires text != []
    ensures LikeHolds(Escape(text) + more, s)
       <==> s != [] && s[0] == text[0] && LikeHolds(Escape(text[1..]) + more, s[1..])
  {
    EscapeHead(text, more);
    LikeHead(Escape(text) + more, s);
  }

  /** One step of LIKE on a literal character. */
  lemma LikeHead(p: string, s: string)
    requires p != [] && p[0] != '%' && p[0] != '_'
    ensures LikeHolds(p, s)
       <==> if p[0] == '\\' then |p| >= 2 && s != [] && s[0] == p[1] && LikeHolds(p[2..], s[1..])
            else s != [] && s[0] == p[0] && LikeHolds(p[1..], s[1..])
  {
  }

  lemma EscapeHead(text: string, more: string)
    requires text != []
    ensures var p, rest := Escape(text) + more, Escape(text[1..]) + more;
            if text[0] == '\\' || text[0] == '%' || text[0] == '_' then |p| >= 2 && p[0] == '\\' && p[1] == text[0] && p[2..] == rest
            else |p| >= 1 && p[0] == text[0] && p[1..] == rest
  {
    if text[0] == '\\' || text[0] == '%' || text[0] == '_' {
      TwoThen('\\', text[0], Escape(text[1..]), more);
    } else {
      OneThen(text[0], Escape(text[1..]), more);
    }
  }

  lemma TwoThen(a: char, b: char, x: string, y: string)
    ensures var p := ([a, b] + x) + y; |p| >= 2 && p[0] == a && p[1] == b && p[2..] == x + y
  {
  }

  lemma OneThen(a: char, x: string, y: string)
    ensures var p := ([a] + x) + y; |p| >= 1 && p[0] == a && p[1..] == x + y
  {
  }

  lemma PrefixTail(text: string, s: string)
    requires text != [] && s != [] && s[0] == text[0]
    ensures text <= s <==> text[1..] <= s[1..]
    ensures text <= s ==> s[|text|..] == s[1..][|text| - 1..]
  {
    assert text == [text[0]] + text[1..] && s == [s[0]] + s[1..];
  }

  lemma {:induction false} PercentMatchesAll(s: string)
    ensures LikeHolds("%", s)
  {
    assert "%"[1..] == [];
    if s != [] {
      PercentMatchesAll(s[1..]);
    }
  }

  /** A pattern of an escaped text between percent signs is a plain substring search. */
  lemma {:induction false} LikeIsSubstring(text: string, s: string)
    ensures LikeHolds("%" + Escape(text) + "%", s) <==> Within(text, s)
  {
    var p := "%" + Escape(text) + "%";
    assert p[1..] == Escape(text) + "%";
    EscapedIsLiteral(text, "%", s);
    if text <= s {
      PercentMatchesAll(s[|text|..]);
    }
    if s != [] {
      LikeIsSubstring(text, s[1..]);
    }
  }

  lemma ILikeIsSubstring(text: string, message: string)
    ensures LikeHolds(Fold("%" + Escape(text) + "%"), Fold(message)) <==> Within(Fold(text), Fold(message))
  {
    FoldConcat("%" + Escape(text), "%");
    FoldConcat("%", Escape(text));
    FoldEscape(text);
    assert "%"[1..] == [] && Fold("%") == "%";
    LikeIsSubstring(Fold(text), Fold(message));
  }

  /** The same character, or one ASCII letter in two cases. */
  predicate Alike(a: char, b: char) {
    a == b || ('A' <= a <= 'Z' && b as int == a as int + 32) || ('A' <= b <= 'Z' && a as int == b as int + 32)
  }

  lemma LowerIff(a: char, b: char)
    ensures Lower(a) == Lower(b) <==> Alike(a, b)
  {
  }

  lemma {:induction false} FoldAt(s: string, k: nat)
    ensures |Fold(s)| == |s| && (k < |s| ==> Fold(s)[k] == Lower(s[k]))
  {
    if s != [] {
      FoldAt(s[1..], if k == 0 then 0 else k - 1);
    }
  }

  /** The text stands at i, in whatever case. */
  ghost predicate Occurs(text: string, s: string, i: nat) {
    i + |text| <= |s| && forall k :: 0 <= k < |text| ==> Alike(text[k], s[i + k])
  }

  lemma OccursAtFront(text: string, s: string)
    ensures Fold(text) <= Fold(s) <==> Occurs(text, s, 0)
  {
    FoldAt(text, 0);
    FoldAt(s, 0);
    forall k | 0 <= k < |text| <= |s|
      ensures Fold(text)[k] == Fold(s)[k] <==> Alike(text[k], s[0 + k])
    {
      FoldAt(text, k);
      FoldAt(s, k);
      LowerIff(text[k], s[k]);
    }
  }

  lemma OccursLater(text: string, s: string, i: nat)
    requires s != []
    ensures Occurs(text, s[1..], i) <==> Occurs(text, s, i + 1)
  {
    if i + 1 + |text| <= |s| {
      forall k | 0 <= k < |text|
        ensures Alike(text[k], s[1..][i + k]) <==> Alike(text[k], s[i + 1 + k])
      {
      }
    }
  }

  /** Searching the folded message for the folded text finds the text in whatever case, wherever it
      stands. */
  lemma {:induction false} WithinIff(text: string, s: string)
    ensures Within(Fold(text), Fold(s)) <==> exists i: nat :: Occurs(text, s, i)
  {
    OccursAtFront(text, s);
    if s != [] {
      WithinIff(text, s[1..]);
      assert Fold(s)[1..] == Fold(s[1..]);
      forall i: nat
        ensures Occurs(text, s[1..], i) <==> Occurs(text, s, i + 1)
      {
        OccursLater(text, s, i);
      }
      if i: nat :| Occurs(text, s, i) && i > 0 {
        assert Occurs(text, s[1..], i - 1);
      }
    }
  }

  /** What |= and != look for, in the tail and in the statement: the characters of the text, each in
      either case, somewhere in the message. */
  lemma ContainsIff(e: Engines, text: string, r: Record)
    ensures LinePred(e, Contains, text, r) <==> exists i: nat :: Occurs(text, r.message, i)
    ensures LinePred(e, NotContains, text, r) <==> !exists i: nat :: Occurs(text, r.message, i)
    ensures RecordTruth(e, CompileLine(Contains, text), r) == True <==> exists i: nat :: Occurs(text, r.message, i)
    ensures RecordTruth(e, CompileLine(NotContains, text), r) == True <==> !exists i: nat :: Occurs(text, r.message, i)
  {
    WithinIff(text, r.message);
    ILikeIsSubstring(text, r.message);
  }

  /** The character at k is escaped: the backslash before it is one, and not itself escaped. */
  predicate Escaped(re: string, k: nat)
    requires k <= |re|
  {
    k > 0 && re[k - 1] == '\\' && !Escaped(re, k - 1)
  }

  lemma {:induction false} EscapedLater(re: string, m: nat, k: nat)
    requires m <= k <= |re| && !Escaped(re, m)
    ensures Escaped(re, k) <==> Escaped(re[m..], k - m)
    decreases k
  {
    if k > m {
      EscapedLater(re, m, k - 1);
    }
  }

  /** are changes a character if and only if it is escaped and one of the three whose escape means
      something else to PostgreSQL. */
  lemma {:induction false} AreAt(re: string, k: nat)
    requires k < |re|
    ensures |Are(re)| == |re|
    ensures Are(re)[k] == if Escaped(re, k) && re[k] == 'b' then 'y' else if Escaped(re, k) && re[k] == 'B' then 'Y'
                          else if Escaped(re, k) && re[k] == 'z' then 'Z' else re[k]
    decreases |re|
  {
    var m := if |re| < 2 || re[0] != '\\' then 1 else 2;
    assert !Escaped(re, 0);
    assert re[0] == '\\' ==> Escaped(re, 1);
    if m < |re| {
      AreAt(re[m..], if k < m then 0 else k - m);
      if m <= k {
        assert !Escaped(re, m);
        EscapedLater(re, m, k);
      }
    } else {
      assert re[m..] == [];
    }
  }

  /** A regex of the query means the same to both engines; without one nothing is asked. */
  ghost predicate SelectorRead(e: Engines, m: Selector) {
    IsRegex(m.op) ==> e.MatchesAlike(m.value)
  }

  ghost predicate LineRead(e: Engines, op: LineOp, text: string) {
    op == Matches || op == NotMatches ==> e.SearchesAlike(text)
  }

  ghost predicate SelectorsRead(e: Engines, ms: seq<Selector>) {
    forall i :: 0 <= i < |ms| ==> if ms[i].name == "level" then !IsRegex(ms[i].op) else SelectorRead(e, ms[i])
  }

  ghost predicate LinesRead(e: Engines, stages: seq<Stage>) {
    forall i :: 0 <= i < |stages| && stages[i].LineFilter? ==> LineRead(e, stages[i].lop, stages[i].text)
  }

  /** A selector accepts a stream in the tail iff its statement keeps the stream's row, a missing label
      included: absent under containment, empty under every other operator. */
  lemma SelectorAgrees(e: Engines, m: Selector, ls: LabelSet)
    requires SelectorRead(e, m)
    ensures LabelPred(e, m, ls) <==> StreamTruth(e, CompileSelector(m), ls) == True
    ensures m.op == Eq && !SourceChoice.Promoted(m.name) ==>
              (LabelPred(e, m, ls) <==> m.name in ls.extra && ls.extra[m.name] == m.value)
    ensures m.op == Neq && !SourceChoice.Promoted(m.name) ==>
              (LabelPred(e, m, ls) <==> (m.name in ls.extra && ls.extra[m.name] != m.value) || (m.name !in ls.extra && m.value != ""))
  {
  }

  lemma LineAgrees(e: Engines, op: LineOp, text: string, r: Record)
    requires LineRead(e, op, text)
    ensures LinePred(e, op, text, r) <==> RecordTruth(e, CompileLine(op, text), r) == True
  {
    ILikeIsSubstring(text, r.message);
  }

  /** The exact condition on a level matcher: it has no regex operator, which the parser sees to. */
  lemma LevelAgreesIff(e: Engines, op: Op, want: int)
    ensures (forall r: Record :: LevelPred(op, want, r) <==> RecordTruth(e, CompareInt(op, want), r) == True) <==> !IsRegex(op)
  {
    var low := Record(want - 1, []);
    assert LevelPred(Re, want, low) && LevelPred(Nre, want, low);
  }

  /** The stages a tail can honor. */
  predicate Tailable(q: Query) {
    !q.aggregates && forall i :: 0 <= i < |q.stages| ==> q.stages[i].LineFilter?
  }

  function WantedLevel(e: Engines, m: Selector): int {
    match e.parseLevel(m.value)
    case None => 0
    case Some(n) => n
  }

  /** What the tail asks of a stream's labels, and of a record. */
  predicate AcceptsStream(e: Engines, q: Query, ls: LabelSet) {
    forall i :: 0 <= i < |q.selectors| && q.selectors[i].name != "level" ==> LabelPred(e, q.selectors[i], ls)
  }

  predicate AcceptsRecord(e: Engines, q: Query, r: Record) {
    AcceptsLevels(e, q.selectors, r) && AcceptsLines(e, q.stages, r)
  }

  predicate AcceptsLevels(e: Engines, ms: seq<Selector>, r: Record) {
    forall i :: 0 <= i < |ms| && ms[i].name == "level" ==> LevelPred(ms[i].op, WantedLevel(e, ms[i]), r)
  }

  lemma OneMoreLevel(e: Engines, ms: seq<Selector>, m: Selector, r: Record)
    ensures AcceptsLevels(e, ms + [m], r) <==> AcceptsLevels(e, ms, r) && (m.name == "level" ==> LevelPred(m.op, WantedLevel(e, m), r))
  {
    var more := ms + [m];
    assert more[|ms|] == m;
    assert forall i :: 0 <= i < |ms| ==> more[i] == ms[i];
  }

  predicate AcceptsLines(e: Engines, stages: seq<Stage>, r: Record) {
    forall i :: 0 <= i < |stages| && stages[i].LineFilter? ==> LinePred(e, stages[i].lop, stages[i].text, r)
  }

  lemma OneMoreLine(e: Engines, stages: seq<Stage>, st: Stage, r: Record)
    ensures AcceptsLines(e, stages + [st], r) <==> AcceptsLines(e, stages, r) && (st.LineFilter? ==> LinePred(e, st.lop, st.text, r))
  {
    var more := stages + [st];
    assert more[|stages|] == st;
    assert forall i :: 0 <= i < |stages| ==> more[i] == stages[i];
  }

  /** The conditions of the statement on streams. */
  function StreamConditions(ms: seq<Selector>): seq<Sql>
    decreases |ms|
  {
    if ms == [] then []
    else
      var m := ms[|ms| - 1];
      StreamConditions(ms[..|ms| - 1]) + if m.name == "level" then [] else [CompileSelector(m)]
  }

  /** The conditions of the statement on logs, beside the stream ids and the range. */
  function LevelConditions(e: Engines, ms: seq<Selector>): seq<Sql>
    decreases |ms|
  {
    if ms == [] then []
    else
      var m := ms[|ms| - 1];
      LevelConditions(e, ms[..|ms| - 1]) + if m.name == "level" then [CompareInt(m.op, WantedLevel(e, m))] else []
  }

  function LineConditions(stages: seq<Stage>): seq<Sql>
    decreases |stages|
  {
    if stages == [] then []
    else
      var st := stages[|stages| - 1];
      LineConditions(stages[..|stages| - 1]) + if st.LineFilter? then [CompileLine(st.lop, st.text)] else []
  }

  predicate KeepsStream(e: Engines, where_: seq<Sql>, ls: LabelSet) {
    forall i :: 0 <= i < |where_| ==> StreamTruth(e, where_[i], ls) == True
  }

  predicate KeepsRecord(e: Engines, where_: seq<Sql>, r: Record) {
    forall i :: 0 <= i < |where_| ==> RecordTruth(e, where_[i], r) == True
  }

  lemma KeepsMore(e: Engines, a: seq<Sql>, b: seq<Sql>, ls: LabelSet, r: Record)
    ensures KeepsStream(e, a + b, ls) <==> KeepsStream(e, a, ls) && KeepsStream(e, b, ls)
    ensures KeepsRecord(e, a + b, r) <==> KeepsRecord(e, a, r) && KeepsRecord(e, b, r)
  {
    forall i | 0 <= i < |b|
      ensures (a + b)[|a| + i] == b[i]
    {
    }
    forall i | 0 <= i < |a|
      ensures (a + b)[i] == a[i]
    {
    }
  }

  lemma KeepsOne(e: Engines, p: Sql, ls: LabelSet, r: Record)
    ensures KeepsStream(e, [p], ls) <==> StreamTruth(e, p, ls) == True
    ensures KeepsRecord(e, [p], r) <==> RecordTruth(e, p, r) == True
  {
    assert [p][0] == p;
  }

  /** For every selector list and label set: the tail accepts the stream iff the query finds it. */
  lemma {:induction false} StreamsAgree(e: Engines, q: Query, ms: seq<Selector>, ls: LabelSet)
    requires SelectorsRead(e, ms)
    ensures KeepsStream(e, StreamConditions(ms), ls) <==> AcceptsStream(e, q.(selectors := ms), ls)
    decreases |ms|
  {
    if ms != [] {
      var k := |ms| - 1;
      StreamsAgree(e, q, ms[..k], ls);
      if ms[k].name != "level" {
        SelectorAgrees(e, ms[k], ls);
      }
      KeepsOne(e, CompileSelector(ms[k]), ls, Record(0, []));
      KeepsMore(e, StreamConditions(ms[..k]), if ms[k].name == "level" then [] else [CompileSelector(ms[k])], ls, Record(0, []));
      assert ms == ms[..k] + [ms[k]];
    }
  }

  lemma {:induction false} LevelsAgree(e: Engines, ms: seq<Selector>, r: Record)
    requires SelectorsRead(e, ms)
    ensures KeepsRecord(e, LevelConditions(e, ms), r) <==> AcceptsLevels(e, ms, r)
    decreases |ms|
  {
    if ms != [] {
      var k := |ms| - 1;
      LevelsAgree(e, ms[..k], r);
      LevelAgreesIff(e, ms[k].op, WantedLevel(e, ms[k]));
      KeepsOne(e, CompareInt(ms[k].op, WantedLevel(e, ms[k])), LabelSet([], [], [], map[]), r);
      KeepsMore(e, LevelConditions(e, ms[..k]), if ms[k].name == "level" then [CompareInt(ms[k].op, WantedLevel(e, ms[k]))] else [],
                LabelSet([], [], [], map[]), r);
      assert ms == ms[..k] + [ms[k]];
      OneMoreLevel(e, ms[..k], ms[k], r);
    }
  }

  lemma {:induction false} LinesAgree(e: Engines, stages: seq<Stage>, r: Record)
    requires LinesRead(e, stages)
    ensures KeepsRecord(e, LineConditions(stages), r) <==> AcceptsLines(e, stages, r)
    decreases |stages|
  {
    if stages != [] {
      var k := |stages| - 1;
      LinesAgree(e, stages[..k], r);
      if stages[k].LineFilter? {
        LineAgrees(e, stages[k].lop, stages[k].text, r);
        KeepsOne(e, CompileLine(stages[k].lop, stages[k].text), LabelSet([], [], [], map[]), r);
      }
      KeepsMore(e, LineConditions(stages[..k]), if stages[k].LineFilter? then [CompileLine(stages[k].lop, stages[k].text)] else [],
                LabelSet([], [], [], map[]), r);
      assert stages == stages[..k] + [stages[k]];
      OneMoreLine(e, stages[..k], stages[k], r);
    }
  }

  function LogConditions(e: Engines, q: Query): seq<Sql> {
    LevelConditions(e, q.selectors) + LineConditions(q.stages)
  }

  /** For every query a tail supports whose regexes mean the same to both engines, every stream and every
      record: the tail shows the record iff the query would find it. */
  lemma TailShowsWhatTheQueryFinds(e: Engines, q: Query, ls: LabelSet, r: Record)
    requires Tailable(q) && SelectorsRead(e, q.selectors) && LinesRead(e, q.stages)
    ensures AcceptsStream(e, q, ls) <==> KeepsStream(e, StreamConditions(q.selectors), ls)
    ensures AcceptsRecord(e, q, r) <==> KeepsRecord(e, LogConditions(e, q), r)
  {
    StreamsAgree(e, q, q.selectors, ls);
    assert q.(selectors := q.selectors) == q;
    LevelsAgree(e, q.selectors, r);
    LinesAgree(e, q.stages, r);
    KeepsMore(e, LevelConditions(e, q.selectors), LineConditions(q.stages), ls, r);
  }

  /** The loops of Compile that write the conditions. */
  method Compile(e: Engines, q: Query) returns (streams: seq<Sql>, logs: seq<Sql>)
    requires Tailable(q)
    ensures streams == StreamConditions(q.selectors) && logs == LogConditions(e, q)
  {
    streams, logs := [], [];
    for i := 0 to |q.selectors|
      invariant streams == StreamConditions(q.selectors[..i]) && logs == LevelConditions(e, q.selectors[..i])
    {
      assert q.selectors[..i + 1][..i] == q.selectors[..i];
      var m := q.selectors[i];
      if m.name == "level" {
        logs := logs + [CompareInt(m.op, WantedLevel(e, m))];
      } else {
        streams := streams + [CompileSelector(m)];
      }
    }
    assert q.selectors[..|q.selectors|] == q.selectors;
    ghost var levels := logs;
    for i := 0 to |q.stages|
      invariant logs == levels + LineConditions(q.stages[..i])
    {
      assert q.stages[..i + 1][..i] == q.stages[..i];
      logs := logs + [CompileLine(q.stages[i].lop, q.stages[i].text)];
    }
    assert q.stages[..|q.stages|] == q.stages;
  }

  /** The predicates of a query, as functions. */
  datatype Evaluator = Evaluator(stream: seq<LabelSet -> bool>, record: seq<Record -> bool>)

  ghost predicate All<T(!new)>(ps: seq<T -> bool>, x: T) {
    forall i :: 0 <= i < |ps| ==> ps[i](x)
  }

  lemma AllMore<T(!new)>(ps: seq<T -> bool>, p: T -> bool, x: T)
    ensures All(ps + [p], x) <==> All(ps, x) && p(x)
  {
    assert (ps + [p])[|ps|] == p;
    forall i | 0 <= i < |ps|
      ensures (ps + [p])[i] == ps[i]
    {
    }
  }

  /** NewEvaluator: refuses what a tail cannot honor. */
  method NewEvaluator(e: Engines, q: Query) returns (ev: Option<Evaluator>)
    ensures ev.Some? <==> Tailable(q)
    ensures ev.None? <==> q.aggregates || exists i :: 0 <= i < |q.stages| && (q.stages[i].ParserStage? || q.stages[i].LabelFilter?)
    ensures ev.Some? ==> forall ls :: All(ev.value.stream, ls) <==> AcceptsStream(e, q, ls)
    ensures ev.Some? ==> forall r :: All(ev.value.record, r) <==> AcceptsRecord(e, q, r)
  {
    var stream: seq<LabelSet -> bool>, record: seq<Record -> bool> := [], [];
    for i := 0 to |q.selectors|
      invariant forall ls :: All(stream, ls) <==> AcceptsStream(e, Query(q.selectors[..i], [], false), ls)
      invariant forall r :: All(record, r) <==> AcceptsRecord(e, Query(q.selectors[..i], [], false), r)
    {
      var m := q.selectors[i];
      ghost var before := q.selectors[..i];
      assert q.selectors[..i + 1] == before + [m];
      forall ls: LabelSet, r: Record { OneMoreSelector(e, before, m, ls, r); }
      if m.name == "level" {
        var level := WantedLevel(e, m);
        var p := (r: Record) => LevelPred(m.op, level, r);
        forall r: Record { AllMore(record, p, r); }
        record := record + [p];
      } else {
        var p := (ls: LabelSet) => LabelPred(e, m, ls);
        forall ls: LabelSet { AllMore(stream, p, ls); }
        stream := stream + [p];
      }
    }
    assert q.selectors[..|q.selectors|] == q.selectors;
    for i := 0 to |q.stages|
      invariant forall j :: 0 <= j < i ==> q.stages[j].LineFilter?
      invariant forall r :: All(record, r) <==> AcceptsRecord(e, Query(q.selectors, q.stages[..i], false), r)
    {
      var st := q.stages[i];
      ghost var before := q.stages[..i];
      assert q.stages[..i + 1] == before + [st];
      if !st.LineFilter? {
        return None;
      }
      var p := (r: Record) => LinePred(e, st.lop, st.text, r);
      forall r: Record
        ensures All(record + [p], r) <==> All(record, r) && LinePred(e, st.lop, st.text, r)
        ensures AcceptsLines(e, before + [st], r) <==> AcceptsLines(e, before, r) && LinePred(e, st.lop, st.text, r)
      {
        AllMore(record, p, r);
        OneMoreLine(e, before, st, r);
      }
      record := record + [p];
    }
    assert q.stages[..|q.stages|] == q.stages;
    if q.aggregates {
      return None;
    }
    ev := Some(Evaluator(stream, record));
  }

  lemma OneMoreSelector(e: Engines, ms: seq<Selector>, m: Selector, ls: LabelSet, r: Record)
    ensures AcceptsStream(e, Query(ms + [m], [], false), ls)
       <==> AcceptsStream(e, Query(ms, [], false), ls) && (m.name == "level" || LabelPred(e, m, ls))
    ensures AcceptsRecord(e, Query(ms + [m], [], false), r)
       <==> AcceptsRecord(e, Query(ms, [], false), r) && (m.name != "level" || LevelPred(m.op, WantedLevel(e, m), r))
  {
    var more := ms + [m];
    assert more[|ms|] == m;
    assert forall i :: 0 <= i < |ms| ==> more[i] == ms[i];
    OneMoreLevel(e, ms, m, r);
  }

  /** MatchStream and MatchRecord. */
  method MatchAll<T(!new)>(ps: seq<T -> bool>, x: T) returns (ok: bool)
    ensures ok <==> All(ps, x)
  {
    for i := 0 to |ps|
      invariant forall j :: 0 <= j < i ==> ps[j](x)
    {
      if !ps[i](x) {
        return false;
      }
    }
    ok := true;
  }
}
