/** The bracket, string and comment scanner behind the TypeScript filters (`export.rs`). */
module Scanner {
  import opened Basics

  // ---------- white space ----------

  /** Unicode `White_Space`, which `str::trim` removes. */
  predicate IsSpace(c: char) {
    || '\t' <= c <= '\r' || c == ' ' || c == '\U{0085}' || c == '\U{00A0}' || c == '\U{1680}'
    || '\U{2000}' <= c <= '\U{200A}' || c == '\U{2028}' || c == '\U{2029}' || c == '\U{202F}'
    || c == '\U{205F}' || c == '\U{3000}'
  }

  predicate Blank(s: string) {
    forall i :: 0 <= i < |s| ==> IsSpace(s[i])
  }

  function TrimStart(s: string): string {
    if s != [] && IsSpace(s[0]) then TrimStart(s[1..]) else s
  }

  function TrimEnd(s: string): string {
    if s != [] && IsSpace(s[|s| - 1]) then TrimEnd(s[..|s| - 1]) else s
  }

  function Trim(s: string): string { TrimEnd(TrimStart(s)) }

  /** Not empty, and no white space at either end. */
  predicate Trimmed(s: string) {
    s != [] && !IsSpace(s[0]) && !IsSpace(s[|s| - 1])
  }

  lemma {:induction false} TrimStartSplits(s: string) returns (front: string)
    ensures s == front + TrimStart(s) && Blank(front)
    ensures TrimStart(s) != [] ==> !IsSpace(TrimStart(s)[0])
  {
    front := [];
    if s != [] && IsSpace(s[0]) {
      var f := TrimStartSplits(s[1..]);
      front := [s[0]] + f;
      assert s == [s[0]] + s[1..];
    }
  }

  lemma {:induction false} TrimEndSplits(s: string) returns (back: string)
    ensures s == TrimEnd(s) + back && Blank(back)
    ensures TrimEnd(s) != [] ==> !IsSpace(TrimEnd(s)[|TrimEnd(s)| - 1])
  {
    back := [];
    if s != [] && IsSpace(s[|s| - 1]) {
      var b := TrimEndSplits(s[..|s| - 1]);
      back := b + [s[|s| - 1]];
      assert s == s[..|s| - 1] + [s[|s| - 1]];
    }
  }

  /** A text is white space, its trimmed form, and white space. */
  lemma {:induction false} TrimSplits(s: string) returns (front: string, back: string)
    ensures s == front + Trim(s) + back && Blank(front) && Blank(back)
    ensures Trim(s) != [] ==> Trimmed(Trim(s))
  {
    front := TrimStartSplits(s);
    back := TrimEndSplits(TrimStart(s));
    if Trim(s) != [] {
      assert Trim(s)[0] == TrimStart(s)[0];
    }
  }

  lemma {:induction false} TrimStartBlank(front: string, s: string)
    requires Blank(front) && (s == [] || !IsSpace(s[0]))
    ensures TrimStart(front + s) == s
  {
    if front == [] {
      assert front + s == s;
    } else {
      TrimStartBlank(front[1..], s);
      assert (front + s)[1..] == front[1..] + s;
    }
  }

  lemma {:induction false} TrimEndBlank(s: string, back: string)
    requires Blank(back) && (s == [] || !IsSpace(s[|s| - 1]))
    ensures TrimEnd(s + back) == s
  {
    if back == [] {
      assert s + back == s;
    } else {
      var n := |back| - 1;
      TrimEndBlank(s, back[..n]);
      assert (s + back)[..|s + back| - 1] == s + back[..n];
    }
  }

  /** Trimming finds the middle again. */
  lemma {:induction false} TrimMiddle(front: string, s: string, back: string)
    requires Blank(front) && Blank(back) && Trimmed(s)
    ensures Trim(front + s + back) == s
  {
    assert front + s + back == front + (s + back);
    TrimStartBlank(front, s + back);
    TrimEndBlank(s, back);
  }

  // ---------- scanner states ----------

  datatype Scan = Scan(
    brace: nat,
    bracket: nat,
    paren: nat,
    angle: nat,
    delim: Option<char>,
    escape: bool,
    blockComment: bool,
    lineComment: bool)
  {
    predicate InString() { delim.Some? }

    predicate TopLevel() { brace == 0 && bracket == 0 && paren == 0 && angle == 0 }
  }

  const INITIAL: Scan := Scan(0, 0, 0, 0, None, false, false, false)

  function Down(depth: nat): nat { if depth > 0 then depth - 1 else 0 }

  function Observe(st: Scan, c: char): Scan {
    if st.delim.Some? then
      if st.escape then st.(escape := false)
      else if c == '\\' then st.(escape := true)
      else if c == st.delim.value then st.(delim := None)
      else st
    else
      match c
      case '"' => st.(delim := Some(c))
      case '\'' => st.(delim := Some(c))
      case '{' => st.(brace := st.brace + 1)
      case '}' => st.(brace := Down(st.brace))
      case '[' => st.(bracket := st.bracket + 1)
      case ']' => st.(bracket := Down(st.bracket))
      case '(' => st.(paren := st.paren + 1)
      case ')' => st.(paren := Down(st.paren))
      case '<' => st.(angle := st.angle + 1)
      case '>' => st.(angle := Down(st.angle))
      case _ => st
  }

  function Next(s: string): Option<char> {
    if |s| > 1 then Some(s[1]) else None
  }

  predicate InComment(st: Scan) { st.blockComment || st.lineComment }

  predicate CommentStart(st: Scan, c: char, next: Option<char>) {
    !InComment(st) && !st.InString() && c == '/' && (next == Some('*') || next == Some('/'))
  }

  /** How many characters the scanner takes in one step. */
  function Width(st: Scan, c: char, next: Option<char>): (n: nat)
    ensures 1 <= n <= 2 && (n == 2 ==> next.Some?)
  {
    if (st.blockComment && c == '*' && next == Some('/')) || CommentStart(st, c, next) then 2 else 1
  }

  function Advance(st: Scan, c: char, next: Option<char>): Scan {
    if st.blockComment then
      if c == '*' && next == Some('/') then st.(blockComment := false) else st
    else if st.lineComment then
      if c == '\n' then st.(lineComment := false) else st
    else if CommentStart(st, c, next) then
      if next == Some('*') then st.(blockComment := true) else st.(lineComment := true)
    else Observe(st, c)
  }

  /** A delimiter outside strings, comments and brackets. */
  predicate Cut(st: Scan, c: char, next: Option<char>, delims: set<char>) {
    !InComment(st) && !CommentStart(st, c, next) && !st.InString() && st.TopLevel() && c in delims
  }

  // ---------- splitting ----------

  function Emit(raw: string): seq<string> {
    if Trim(raw) == [] then [] else [Trim(raw)]
  }

  /** The pieces of `rest`, when `raw` was read since the last cut and the scanner is in state `st`. */
  function SplitFrom(rest: string, raw: string, st: Scan, delims: set<char>): seq<string>
    decreases |rest|
  {
    if rest == [] then Emit(raw)
    else if Cut(st, rest[0], Next(rest), delims) then
      Emit(raw) + SplitFrom(rest[1..], [], Observe(st, rest[0]), delims)
    else
      var n := Width(st, rest[0], Next(rest));
      SplitFrom(rest[n..], raw + rest[..n], Advance(st, rest[0], Next(rest)), delims)
  }

  function Split(input: string, delims: set<char>): seq<string> {
    SplitFrom(input, [], INITIAL, delims)
  }

  function Join(pieces: seq<string>, separator: string): string {
    if pieces == [] then []
    else if |pieces| == 1 then pieces[0]
    else pieces[0] + separator + Join(pieces[1..], separator)
  }

  function Keep(keep: string -> bool, pieces: seq<string>): seq<string> {
    if pieces == [] then []
    else (if keep(pieces[0]) then [pieces[0]] else []) + Keep(keep, pieces[1..])
  }

  // ---------- scanning a piece on its own ----------

  /** State after scanning `p` alone. */
  function EndState(p: string, st: Scan): Scan
    decreases |p|
  {
    if p == [] then st
    else EndState(p[Width(st, p[0], Next(p))..], Advance(st, p[0], Next(p)))
  }

  /** No cut falls inside `p`. */
  predicate Quiet(p: string, st: Scan, delims: set<char>)
    decreases |p|
  {
    p == [] ||
    (!Cut(st, p[0], Next(p), delims) && Quiet(p[Width(st, p[0], Next(p))..], Advance(st, p[0], Next(p)), delims))
  }

  /** `rest` does not complete a comment mark begun by what precedes it. */
  predicate Detached(rest: string) {
    rest == [] || (rest[0] != '/' && rest[0] != '*')
  }

  lemma {:induction false} NextOfConcat(p: string, rest: string, st: Scan, delims: set<char>)
    requires p != [] && Detached(rest)
    ensures Width(st, p[0], Next(p + rest)) == Width(st, p[0], Next(p)) <= |p|
    ensures Advance(st, p[0], Next(p + rest)) == Advance(st, p[0], Next(p))
    ensures Cut(st, p[0], Next(p + rest), delims) == Cut(st, p[0], Next(p), delims)
  {}

  /** Splitting reads a quiet piece without emitting anything. */
  lemma {:induction false} ReadPiece(p: string, rest: string, raw: string, st: Scan, delims: set<char>)
    requires Quiet(p, st, delims) && Detached(rest)
    ensures SplitFrom(p + rest, raw, st, delims) == SplitFrom(rest, raw + p, EndState(p, st), delims)
    decreases |p|
  {
    if p == [] {
      assert p + rest == rest && raw + p == raw;
    } else {
      NextOfConcat(p, rest, st, delims);
      var n := Width(st, p[0], Next(p));
      assert (p + rest)[n..] == p[n..] + rest && (p + rest)[..n] == p[..n] && (p + rest)[0] == p[0];
      ReadPiece(p[n..], rest, raw + p[..n], Advance(st, p[0], Next(p)), delims);
      assert raw + p[..n] + p[n..] == raw + p;
    }
  }

  lemma {:induction false} EndStateConcat(p: string, rest: string, st: Scan, delims: set<char>)
    requires Detached(rest)
    ensures EndState(p + rest, st) == EndState(rest, EndState(p, st))
    ensures Quiet(p + rest, st, delims) <==> Quiet(p, st, delims) && Quiet(rest, EndState(p, st), delims)
    decreases |p|
  {
    if p == [] {
      assert p + rest == rest;
    } else {
      NextOfConcat(p, rest, st, delims);
      var n := Width(st, p[0], Next(p));
      assert (p + rest)[n..] == p[n..] + rest && (p + rest)[0] == p[0];
      EndStateConcat(p[n..], rest, Advance(st, p[0], Next(p)), delims);
    }
  }
}

/** Filtering the pieces of a text and joining them again (`split_top_level_multi` and the filters built on it). */
module SplitJoin {
  import opened Basics
  import opened Scanner

  const IN_LINE: Scan := INITIAL.(lineComment := true)

  /** The delimiters the filters use. */
  predicate Plain(delims: set<char>) {
    forall d :: d in delims ==> d == '|' || d == ',' || d == ';'
  }

  /** A string is delimited by a quote, and an escape is only ever pending inside a string. */
  predicate Sound(st: Scan) {
    (st.escape ==> st.InString()) && (st.delim.Some? ==> st.delim.value == '"' || st.delim.value == '\'')
  }

  lemma {:induction false} AdvanceSound(st: Scan, c: char, next: Option<char>)
    requires Sound(st)
    ensures Sound(Advance(st, c, next))
  {}

  lemma {:induction false} EndStateSound(p: string, st: Scan)
    requires Sound(st)
    ensures Sound(EndState(p, st))
    decreases |p|
  {
    if p != [] {
      AdvanceSound(st, p[0], Next(p));
      EndStateSound(p[Width(st, p[0], Next(p))..], Advance(st, p[0], Next(p)));
    }
  }

  // ---------- the first cut ----------

  function FirstCut(rest: string, st: Scan, delims: set<char>): (r: Option<nat>)
    ensures r.Some? ==> r.value < |rest|
    decreases |rest|
  {
    if rest == [] then None
    else if Cut(st, rest[0], Next(rest), delims) then Some(0)
    else
      var n := Width(st, rest[0], Next(rest));
      match FirstCut(rest[n..], Advance(st, rest[0], Next(rest)), delims)
      case None => None
      case Some(k) => Some(k + n)
  }

  lemma {:induction false} Regroup(raw: string, rest: string, n: nat, k: nat)
    requires n + k <= |rest|
    ensures raw + rest[..n] + rest[n..] == raw + rest
    ensures raw + rest[..n] + rest[n..][..k] == raw + rest[..k + n]
    ensures n + k < |rest| ==> rest[n..][k + 1..] == rest[k + n + 1..]
  {}

  lemma {:induction false} SplitAtFirstCut(rest: string, raw: string, st: Scan, delims: set<char>)
    requires Plain(delims) && Sound(st)
    ensures SplitFrom(rest, raw, st, delims) ==
            match FirstCut(rest, st, delims)
            case None => Emit(raw + rest)
            case Some(m) => Emit(raw + rest[..m]) + Split(rest[m + 1..], delims)
    decreases |rest|
  {
    hide Emit, Trim, EndState, Quiet, Advance;
    if rest == [] {
      assert raw + rest == raw;
    } else if Cut(st, rest[0], Next(rest), delims) {
      assert raw + rest[..0] == raw;
      assert st == INITIAL;
    } else {
      var n := Width(st, rest[0], Next(rest));
      var st' := Advance(st, rest[0], Next(rest));
      AdvanceSound(st, rest[0], Next(rest));
      SplitAtFirstCut(rest[n..], raw + rest[..n], st', delims);
      assert SplitFrom(rest, raw, st, delims) == SplitFrom(rest[n..], raw + rest[..n], st', delims);
      var cut := FirstCut(rest[n..], st', delims);
      if cut.None? {
        Regroup(raw, rest, n, 0);
      } else {
        Regroup(raw, rest, n, cut.value);
      }
    }
  }

  /** The text before the first cut is quiet and leaves the scanner where it started. */
  lemma {:induction false} BeforeFirstCut(rest: string, st: Scan, delims: set<char>)
    requires Plain(delims) && Sound(st)
    ensures match FirstCut(rest, st, delims)
            case None => Quiet(rest, st, delims)
            case Some(m) => Quiet(rest[..m], st, delims) && EndState(rest[..m], st) == INITIAL
    decreases |rest|
  {
    hide Advance;
    if rest == [] {
    } else if Cut(st, rest[0], Next(rest), delims) {
      assert rest[..0] == [];
    } else {
      var n := Width(st, rest[0], Next(rest));
      var st' := Advance(st, rest[0], Next(rest));
      AdvanceSound(st, rest[0], Next(rest));
      BeforeFirstCut(rest[n..], st', delims);
      match FirstCut(rest[n..], st', delims) {
        case None =>
        case Some(k) =>
          var p, after := rest[..k + n], rest[k + n..];
          CutIsDelimiter(rest[n..], st', delims);
          assert p + after == rest && p[0] == rest[0] && after[0] == rest[n..][k];
          NextOfConcat(p, after, st, delims);
          assert p[n..] == rest[n..][..k];
      }
    }
  }

  lemma {:induction false} CutIsDelimiter(rest: string, st: Scan, delims: set<char>)
    requires FirstCut(rest, st, delims).Some?
    ensures rest[FirstCut(rest, st, delims).value] in delims
    decreases |rest|
  {
    if !Cut(st, rest[0], Next(rest), delims) {
      CutIsDelimiter(rest[Width(st, rest[0], Next(rest))..], Advance(st, rest[0], Next(rest)), delims);
    }
  }

  // ---------- white space around a piece ----------

  lemma {:induction false} BlankFromInitial(w: string, delims: set<char>)
    requires Blank(w) && Plain(delims)
    ensures Quiet(w, INITIAL, delims) && EndState(w, INITIAL) == INITIAL
  {
    if w != [] {
      BlankFromInitial(w[1..], delims);
    }
  }

  lemma {:induction false} BlankStep(st: Scan, c: char, next: Option<char>)
    requires IsSpace(c) && Sound(st)
    ensures Advance(st, c, next) == INITIAL || Advance(st, c, next) == IN_LINE ==> st == INITIAL || st == IN_LINE
  {
    if !InComment(st) && !st.InString() {
      assert Observe(st, c) == st;
    }
  }

  /** White space cannot leave a string, a bracket or a block comment. */
  lemma {:induction false} BlankToInitial(w: string, st: Scan)
    requires Blank(w) && Sound(st) && (EndState(w, st) == INITIAL || EndState(w, st) == IN_LINE)
    ensures st == INITIAL || st == IN_LINE
  {
    if w != [] {
      var st' := Advance(st, w[0], Next(w));
      assert IsSpace(w[0]) && Width(st, w[0], Next(w)) == 1;
      assert EndState(w, st) == EndState(w[1..], st');
      AdvanceSound(st, w[0], Next(w));
      BlankToInitial(w[1..], st');
      BlankStep(st, w[0], Next(w));
    }
  }

  lemma {:induction false} BlankDetached(w: string, rest: string)
    requires Blank(w) && (w == [] ==> Detached(rest))
    ensures Detached(w + rest)
  {}

  lemma {:induction false} SpaceStays(c: char, next: Option<char>, delims: set<char>)
    requires IsSpace(c) && Plain(delims)
    ensures Advance(INITIAL, c, next) == INITIAL && Width(INITIAL, c, next) == 1 && !Cut(INITIAL, c, next, delims)
  {}

  /** Leading white space is read in the initial state, whatever follows. */
  lemma {:induction false} SkipBlank(w: string, t: string, delims: set<char>)
    requires Blank(w) && Plain(delims)
    ensures EndState(w + t, INITIAL) == EndState(t, INITIAL)
    ensures Quiet(w + t, INITIAL, delims) <==> Quiet(t, INITIAL, delims)
  {
    hide Advance, Width, Cut;
    if w == [] {
      assert w + t == t;
    } else {
      assert (w + t)[0] == w[0] && (w + t)[1..] == w[1..] + t;
      SpaceStays(w[0], Next(w + t), delims);
      SkipBlank(w[1..], t, delims);
    }
  }

  // ---------- what the pieces of a text look like ----------

  /** Ends outside strings, brackets and comments. */
  predicate Closed(p: string) { EndState(p, INITIAL) == INITIAL }

  predicate ClosedOrInLine(p: string) { EndState(p, INITIAL) == INITIAL || EndState(p, INITIAL) == IN_LINE }

  predicate Piece(p: string, delims: set<char>) { Trimmed(p) && Quiet(p, INITIAL, delims) }

  /** Trimmed quiet pieces, of which all but the last end closed or inside a line comment. */
  predicate Pieces(s: seq<string>, delims: set<char>) {
    s == [] || (Piece(s[0], delims) && (|s| > 1 ==> ClosedOrInLine(s[0])) && Pieces(s[1..], delims))
  }

  lemma {:induction false} TrimmedQuiet(raw: string, delims: set<char>)
    requires Plain(delims) && Quiet(raw, INITIAL, delims) && Trim(raw) != []
    ensures Piece(Trim(raw), delims)
    ensures EndState(raw, INITIAL) == INITIAL ==> ClosedOrInLine(Trim(raw))
  {
    var front, back := TrimSplits(raw);
    var t := Trim(raw);
    assert raw == front + (t + back);
    SkipBlank(front, t + back, delims);
    BlankDetached(back, []);
    assert back + [] == back;
    EndStateConcat(t, back, INITIAL, delims);
    if EndState(raw, INITIAL) == INITIAL {
      EndStateSound(t, INITIAL);
      BlankToInitial(back, EndState(t, INITIAL));
    }
  }

  lemma {:induction false} SplitYieldsPieces(input: string, delims: set<char>)
    requires Plain(delims)
    ensures Pieces(Split(input, delims), delims)
    decreases |input|
  {
    SplitAtFirstCut(input, [], INITIAL, delims);
    BeforeFirstCut(input, INITIAL, delims);
    match FirstCut(input, INITIAL, delims) {
      case None =>
        assert [] + input == input;
        if Trim(input) != [] {
          TrimmedQuiet(input, delims);
        }
      case Some(m) =>
        assert [] + input[..m] == input[..m];
        SplitYieldsPieces(input[m + 1..], delims);
        if Trim(input[..m]) != [] {
          TrimmedQuiet(input[..m], delims);
          var tail := Split(input[m + 1..], delims);
          assert ([Trim(input[..m])] + tail)[1..] == tail;
        } else {
          assert [] + Split(input[m + 1..], delims) == Split(input[m + 1..], delims);
        }
    }
  }

  lemma {:induction false} KeepIsPieces(keep: string -> bool, s: seq<string>, delims: set<char>)
    requires Pieces(s, delims)
    ensures Pieces(Keep(keep, s), delims) && |Keep(keep, s)| <= |s|
  {
    if s != [] {
      KeepIsPieces(keep, s[1..], delims);
      if keep(s[0]) {
        assert Keep(keep, s)[1..] == Keep(keep, s[1..]);
      } else {
        assert Keep(keep, s) == Keep(keep, s[1..]);
      }
    }
  }

  lemma {:induction false} KeepTwice(keep: string -> bool, s: seq<string>)
    ensures Keep(keep, Keep(keep, s)) == Keep(keep, s)
  {
    if s != [] {
      KeepTwice(keep, s[1..]);
      if keep(s[0]) {
        assert Keep(keep, s)[1..] == Keep(keep, s[1..]);
      } else {
        assert Keep(keep, s) == Keep(keep, s[1..]);
      }
    }
  }

  // ---------- joining and splitting again ----------

  /** No piece but the last ends inside a line comment. */
  predicate AllButLastClosed(s: seq<string>) {
    |s| <= 1 || (Closed(s[0]) && AllButLastClosed(s[1..]))
  }

  function Separator(pre: string, d: char): string { pre + [d] + " " }

  lemma {:induction false} EmitMiddle(front: string, p: string, back: string)
    requires Blank(front) && Blank(back) && Trimmed(p)
    ensures Emit(front + p + back) == [p]
  {
    TrimMiddle(front, p, back);
  }

  lemma {:induction false} EmitBlank(w: string)
    requires Blank(w)
    ensures Emit(w) == []
  {
    TrimStartBlank(w, []);
    assert w + [] == w;
  }

  /** A separator read in the initial state ends the piece before it. */
  lemma {:induction false} ReadSeparator(raw: string, pre: string, d: char, rest: string, delims: set<char>)
    requires Plain(delims) && d in delims && Blank(pre)
    ensures SplitFrom(Separator(pre, d) + rest, raw, INITIAL, delims)
            == Emit(raw + pre) + SplitFrom(rest, " ", INITIAL, delims)
  {
    hide SplitFrom, Emit, EndState, Quiet;
    BlankFromInitial(pre, delims);
    var after := [d] + " " + rest;
    assert Separator(pre, d) + rest == pre + after;
    ReadPiece(pre, after, raw, INITIAL, delims);
    assert after[1..] == " " + rest;
    ReadDelimiter(after, raw + pre, delims);
    ReadSpace(rest, delims);
  }

  lemma {:induction false} ReadDelimiter(after: string, raw: string, delims: set<char>)
    requires Plain(delims) && after != [] && after[0] in delims
    ensures SplitFrom(after, raw, INITIAL, delims) == Emit(raw) + SplitFrom(after[1..], [], INITIAL, delims)
  {
    hide Emit;
    assert Cut(INITIAL, after[0], Next(after), delims);
  }

  lemma {:induction false} ReadSpace(rest: string, delims: set<char>)
    requires Plain(delims)
    ensures SplitFrom(" " + rest, [], INITIAL, delims) == SplitFrom(rest, " ", INITIAL, delims)
  {
    hide Emit;
    var spaced := " " + rest;
    assert spaced[0] == ' ' && spaced[1..] == rest && [] + spaced[..1] == " ";
  }

  lemma {:induction false} JoinStep(s: seq<string>, separator: string)
    requires |s| > 1
    ensures Join(s, separator) == s[0] + (separator + Join(s[1..], separator))
  {
    assert s[0] + separator + Join(s[1..], separator) == s[0] + (separator + Join(s[1..], separator));
  }

  /** Splitting what was joined returns the first closed piece and goes on with the others. */
  lemma {:induction false} SplitJoinStep(s: seq<string>, lead: string, pre: string, d: char, delims: set<char>)
    requires Plain(delims) && d in delims && Blank(pre) && Blank(lead)
    requires Pieces(s, delims) && |s| > 1 && Closed(s[0])
    ensures SplitFrom(Join(s, Separator(pre, d)), lead, INITIAL, delims)
            == [s[0]] + SplitFrom(Join(s[1..], Separator(pre, d)), " ", INITIAL, delims)
  {
    var separator := Separator(pre, d);
    var rest := Join(s[1..], separator);
    JoinStep(s, separator);
    assert separator[0] == if pre == [] then d else pre[0];
    assert (separator + rest)[0] == separator[0];
    ReadPiece(s[0], separator + rest, lead, INITIAL, delims);
    ReadSeparator(lead + s[0], pre, d, rest, delims);
    EmitMiddle(lead, s[0], pre);
  }

  lemma {:induction false} SplitOfJoin(s: seq<string>, lead: string, pre: string, d: char, delims: set<char>)
    requires Plain(delims) && d in delims && Blank(pre) && Blank(lead)
    requires Pieces(s, delims) && AllButLastClosed(s)
    ensures SplitFrom(Join(s, Separator(pre, d)), lead, INITIAL, delims) == s
    decreases |s|
  {
    hide Trim, EndState, Quiet;
    if s == [] {
      EmitBlank(lead);
    } else if |s| == 1 {
      ReadPiece(s[0], [], lead, INITIAL, delims);
      assert s[0] + [] == s[0];
      EmitMiddle(lead, s[0], []);
      assert lead + s[0] + [] == lead + s[0];
      assert s == [s[0]];
    } else {
      SplitJoinStep(s, lead, pre, d, delims);
      SplitOfJoin(s[1..], " ", pre, d, delims);
      assert s == [s[0]] + s[1..];
    }
  }

  /** Trimming never removes text that starts and ends with a visible character. */
  lemma {:induction false} TrimGrows(lead: string, y: string, x: string)
    requires Blank(lead) && Trimmed(y)
    ensures |Trim(lead + y + x)| >= |y|
  {
    var text := lead + y + x;
    var front, back := TrimSplits(text);
    assert text[|lead|] == y[0] && text[|lead| + |y| - 1] == y[|y| - 1];
    assert forall i :: 0 <= i < |front| ==> text[i] == front[i];
    assert |front| <= |lead|;
    var k := |front| + |Trim(text)|;
    assert forall i :: k <= i < |text| ==> text[i] == back[i - k];
    assert k >= |lead| + |y|;
  }

  lemma {:induction false} FirstPieceIsLong(rest: string, lead: string, y: string, st: Scan, delims: set<char>)
    requires Plain(delims) && Sound(st) && Blank(lead) && Trimmed(y)
    ensures SplitFrom(rest, lead + y, st, delims) != []
    ensures |SplitFrom(rest, lead + y, st, delims)[0]| >= |y|
  {
    SplitAtFirstCut(rest, lead + y, st, delims);
    match FirstCut(rest, st, delims) {
      case None => TrimGrows(lead, y, rest);
      case Some(m) => TrimGrows(lead, y, rest[..m]);
    }
  }

  /** Inside a line comment a separator is read as text. */
  lemma {:induction false} CommentSwallows(w: string, rest: string, raw: string, delims: set<char>)
    requires forall i :: 0 <= i < |w| ==> w[i] != '\n'
    ensures SplitFrom(w + rest, raw, IN_LINE, delims) == SplitFrom(rest, raw + w, IN_LINE, delims)
  {
    if w == [] {
      assert w + rest == rest && raw + w == raw;
    } else {
      assert (w + rest)[0] == w[0] && (w + rest)[1..] == w[1..] + rest && (w + rest)[..1] == [w[0]];
      CommentSwallows(w[1..], rest, raw + [w[0]], delims);
      assert raw + [w[0]] + w[1..] == raw + w;
    }
  }

  lemma {:induction false} SplitOfJoinFails(s: seq<string>, lead: string, pre: string, d: char, delims: set<char>)
    requires Plain(delims) && d in delims && Blank(lead) && (pre == "" || pre == " ")
    requires Pieces(s, delims) && !AllButLastClosed(s)
    ensures SplitFrom(Join(s, Separator(pre, d)), lead, INITIAL, delims) != s
    decreases |s|
  {
    hide Emit, Trim, SplitFrom, EndState, Quiet;
    if Closed(s[0]) {
      SplitJoinStep(s, lead, pre, d, delims);
      SplitOfJoinFails(s[1..], " ", pre, d, delims);
      var t := SplitFrom(Join(s[1..], Separator(pre, d)), " ", INITIAL, delims);
      assert ([s[0]] + t)[1..] == t;
    } else {
      var rest := Join(s[1..], Separator(pre, d));
      JoinStep(s, Separator(pre, d));
      var marked := pre + [d];
      assert Separator(pre, d) + rest == marked + (" " + rest);
      assert (marked + (" " + rest))[0] == marked[0];
      ReadPiece(s[0], marked + (" " + rest), lead, INITIAL, delims);
      CommentSwallows(marked, " " + rest, lead + s[0], delims);
      assert lead + s[0] + marked == lead + (s[0] + marked);
      FirstPieceIsLong(" " + rest, lead, s[0] + marked, IN_LINE, delims);
    }
  }

  // ---------- the filters ----------

  /** Split, keep some pieces, and join them. */
  function Filtered(input: string, keep: string -> bool, pre: string, d: char, delims: set<char>): string {
    Join(Keep(keep, Split(input, delims)), Separator(pre, d))
  }

  /**
   Splitting the joined pieces returns them, for any input and any filter, if
   and only if no kept piece but the last ends inside a line comment.
   */
  lemma {:induction false} RoundTrip(input: string, keep: string -> bool, pre: string, d: char, delims: set<char>)
    requires Plain(delims) && d in delims && (pre == "" || pre == " ")
    ensures var kept := Keep(keep, Split(input, delims));
            Split(Filtered(input, keep, pre, d, delims), delims) == kept <==> AllButLastClosed(kept)
  {
    SplitYieldsPieces(input, delims);
    KeepIsPieces(keep, Split(input, delims), delims);
    var kept := Keep(keep, Split(input, delims));
    if AllButLastClosed(kept) {
      SplitOfJoin(kept, [], pre, d, delims);
    } else {
      SplitOfJoinFails(kept, [], pre, d, delims);
    }
  }

  /** Filtering a second time changes nothing. */
  lemma {:induction false} FilterTwice(input: string, keep: string -> bool, pre: string, d: char, delims: set<char>)
    requires Plain(delims) && d in delims && (pre == "" || pre == " ")
    requires AllButLastClosed(Keep(keep, Split(input, delims)))
    ensures Filtered(Filtered(input, keep, pre, d, delims), keep, pre, d, delims)
            == Filtered(input, keep, pre, d, delims)
  {
    RoundTrip(input, keep, pre, d, delims);
    KeepTwice(keep, Split(input, delims));
  }

  // ---------- filtering a second time ----------

  /** The pieces as a second splitting finds them: a line comment takes in all that was joined after it. */
  function Merged(s: seq<string>, separator: string): seq<string> {
    if |s| <= 1 then s
    else if Closed(s[0]) then [s[0]] + Merged(s[1..], separator)
    else [Join(s, separator)]
  }

  /** No line break stands behind the first piece that ends in a line comment. */
  predicate NoBreakAfterComment(s: seq<string>, separator: string) {
    |s| <= 1 ||
    (if Closed(s[0]) then NoBreakAfterComment(s[1..], separator) else '\n' !in Join(s[1..], separator))
  }

  predicate AllKept(keep: string -> bool, s: seq<string>) {
    s == [] || (keep(s[0]) && AllKept(keep, s[1..]))
  }

  lemma {:induction false} JoinTrimmed(s: seq<string>, separator: string, delims: set<char>)
    requires s != [] && Pieces(s, delims)
    ensures Trimmed(Join(s, separator)) && Join(s, separator)[0] == s[0][0]
  {
    if |s| > 1 {
      JoinTrimmed(s[1..], separator, delims);
      JoinStep(s, separator);
      var rest := separator + Join(s[1..], separator);
      assert rest[|rest| - 1] == Join(s[1..], separator)[|Join(s[1..], separator)| - 1];
    }
  }

  /** From the first line comment on, splitting what was joined returns one piece. */
  lemma {:induction false} CommentTakesAll(s: seq<string>, lead: string, pre: string, d: char, delims: set<char>)
    requires Plain(delims) && d in delims && Blank(lead) && (pre == "" || pre == " ")
    requires Pieces(s, delims) && |s| > 1 && !Closed(s[0]) && '\n' !in Join(s[1..], Separator(pre, d))
    ensures SplitFrom(Join(s, Separator(pre, d)), lead, INITIAL, delims) == [Join(s, Separator(pre, d))]
  {
    hide Trim, EndState, Quiet, Pieces, Join;
    var whole := Join(s, Separator(pre, d));
    var rest := Separator(pre, d) + Join(s[1..], Separator(pre, d));
    JoinStep(s, Separator(pre, d));
    JoinTrimmed(s, Separator(pre, d), delims);
    FirstIsPiece(s, delims);
    assert rest[0] == if pre == [] then d else pre[0];
    ReadPiece(s[0], rest, lead, INITIAL, delims);
    assert rest + [] == rest;
    CommentSwallows(rest, [], lead + s[0], delims);
    assert lead + s[0] + rest == lead + whole + [];
    EmitMiddle(lead, whole, []);
  }

  lemma {:induction false} FirstIsPiece(s: seq<string>, delims: set<char>)
    requires |s| > 1 && Pieces(s, delims) && !Closed(s[0])
    ensures Trimmed(s[0]) && Quiet(s[0], INITIAL, delims) && EndState(s[0], INITIAL) == IN_LINE
  {
    hide EndState, Quiet;
  }

  lemma {:induction false} SplitOfJoinMerges(s: seq<string>, lead: string, pre: string, d: char, delims: set<char>)
    requires Plain(delims) && d in delims && Blank(lead) && (pre == "" || pre == " ")
    requires Pieces(s, delims) && NoBreakAfterComment(s, Separator(pre, d))
    ensures SplitFrom(Join(s, Separator(pre, d)), lead, INITIAL, delims) == Merged(s, Separator(pre, d))
    decreases |s|
  {
    hide Trim, EndState, Quiet, SplitFrom, Join;
    if |s| <= 1 {
      SplitOfJoin(s, lead, pre, d, delims);
    } else if Closed(s[0]) {
      SplitJoinStep(s, lead, pre, d, delims);
      SplitOfJoinMerges(s[1..], " ", pre, d, delims);
    } else {
      CommentTakesAll(s, lead, pre, d, delims);
    }
  }

  lemma {:induction false} KeptAllKept(keep: string -> bool, s: seq<string>)
    ensures AllKept(keep, Keep(keep, s))
  {
    if s != [] {
      KeptAllKept(keep, s[1..]);
      if keep(s[0]) {
        assert Keep(keep, s)[1..] == Keep(keep, s[1..]);
      } else {
        assert Keep(keep, s) == Keep(keep, s[1..]);
      }
    }
  }

  /** Pieces before `s` neither hide nor make up for what the filter takes from the text of `s`. */
  lemma {:induction false} KeepAfter(keep: string -> bool, p: string, s: seq<string>, t: seq<string>, separator: string)
    requires keep(p) && s != [] && t != [] && Join(s, separator) == Join(t, separator)
    ensures Join([p] + s, separator) == Join([p] + t, separator)
    ensures Keep(keep, s) == s ==> Keep(keep, [p] + s) == [p] + s
    ensures |Join(Keep(keep, s), separator)| < |Join(t, separator)|
            ==> |Join(Keep(keep, [p] + s), separator)| < |Join([p] + t, separator)|
  {
    assert ([p] + s)[1..] == s && ([p] + t)[1..] == t;
    var kept := Keep(keep, s);
    assert Keep(keep, [p] + s) == [p] + kept;
    assert ([p] + kept)[1..] == kept;
  }

  /** Keeping the merged pieces loses none, or loses the one that a comment merged and shortens the text. */
  lemma {:induction false} KeepMerged(keep: string -> bool, s: seq<string>, separator: string, delims: set<char>)
    requires s != [] && AllKept(keep, s) && Pieces(s, delims)
    ensures Merged(s, separator) != []
    ensures var m := Merged(s, separator);
            if keep(m[|m| - 1]) then Keep(keep, m) == m
            else |Join(Keep(keep, m), separator)| < |Join(s, separator)|
    ensures Join(Merged(s, separator), separator) == Join(s, separator)
    decreases |s|
  {
    hide EndState, Quiet, Pieces, Join;
    if |s| == 1 {
      KeepOne(keep, s);
    } else if Closed(s[0]) {
      RestIsPieces(s, delims);
      KeepMerged(keep, s[1..], separator, delims);
      KeepAfter(keep, s[0], Merged(s[1..], separator), s[1..], separator);
      assert s == [s[0]] + s[1..];
    } else {
      JoinTrimmed(s, separator, delims);
      KeepOne(keep, Merged(s, separator));
      JoinOne(Join(s, separator), separator);
    }
  }

  lemma {:induction false} RestIsPieces(s: seq<string>, delims: set<char>)
    requires s != [] && Pieces(s, delims)
    ensures Pieces(s[1..], delims)
  {}

  lemma {:induction false} KeepOne(keep: string -> bool, s: seq<string>)
    requires |s| == 1
    ensures Keep(keep, s) == if keep(s[0]) then s else []
  {
    assert s[1..] == [];
  }

  lemma {:induction false} JoinOne(p: string, separator: string)
    ensures Join([p], separator) == p && Join([], separator) == ""
  {}

  // ---------- texts that the filter leaves alone ----------

  /** The number of characters that are not white space. */
  function Visible(s: string): nat {
    if s == [] then 0 else (if IsSpace(s[0]) then 0 else 1) + Visible(s[1..])
  }

  function TotalVisible(s: seq<string>): nat {
    if s == [] then 0 else Visible(s[0]) + TotalVisible(s[1..])
  }

  lemma {:induction false} VisibleConcat(s: string, t: string)
    ensures Visible(s + t) == Visible(s) + Visible(t)
  {
    if s == [] {
      assert s + t == t;
    } else {
      assert (s + t)[1..] == s[1..] + t;
      VisibleConcat(s[1..], t);
    }
  }

  lemma {:induction false} BlankIsInvisible(w: string)
    requires Blank(w)
    ensures Visible(w) == 0
  {
    if w != [] {
      BlankIsInvisible(w[1..]);
    }
  }

  lemma {:induction false} TrimKeepsVisible(s: string)
    ensures Visible(Trim(s)) == Visible(s)
  {
    var front, back := TrimSplits(s);
    VisibleConcat(front, Trim(s));
    VisibleConcat(front + Trim(s), back);
    BlankIsInvisible(front);
    BlankIsInvisible(back);
  }

  lemma {:induction false} EmitKeepsVisible(raw: string)
    ensures TotalVisible(Emit(raw)) == Visible(raw) && |Emit(raw)| <= 1
  {
    TrimKeepsVisible(raw);
    assert [Trim(raw)][1..] == [];
  }

  lemma {:induction false} TotalConcat(s: seq<string>, t: seq<string>)
    ensures TotalVisible(s + t) == TotalVisible(s) + TotalVisible(t)
  {
    if s == [] {
      assert s + t == t;
    } else {
      assert (s + t)[1..] == s[1..] + t;
      TotalConcat(s[1..], t);
    }
  }

  lemma {:induction false} CutCounts(text: string, m: nat)
    requires m < |text| && !IsSpace(text[m])
    ensures Visible(text) == Visible(text[..m]) + 1 + Visible(text[m + 1..])
  {
    var rest := text[m + 1..];
    assert text == text[..m] + ([text[m]] + rest);
    VisibleConcat(text[..m], [text[m]] + rest);
    assert ([text[m]] + rest)[1..] == rest;
  }

  /** Between any two pieces a visible delimiter was cut out. */
  lemma {:induction false} SplitCounts(text: string, delims: set<char>)
    requires Plain(delims)
    ensures TotalVisible(Split(text, delims)) + |Split(text, delims)| <= Visible(text) + 1
    decreases |text|
  {
    hide Emit, SplitFrom, EndState, Quiet, Trim, Visible, TotalVisible, FirstCut;
    SplitAtFirstCut(text, [], INITIAL, delims);
    match FirstCut(text, INITIAL, delims) {
      case None =>
        assert [] + text == text;
        EmitKeepsVisible(text);
      case Some(m) =>
        CutIsDelimiter(text, INITIAL, delims);
        SplitCounts(text[m + 1..], delims);
        assert [] + text[..m] == text[..m];
        CutCounts(text, m);
        EmitKeepsVisible(text[..m]);
        TotalConcat(Emit(text[..m]), Split(text[m + 1..], delims));
    }
  }

  lemma {:induction false} JoinCounts(s: seq<string>, separator: string)
    requires s != [] && Visible(separator) == 1
    ensures Visible(Join(s, separator)) + 1 == TotalVisible(s) + |s|
  {
    if |s| == 1 {
      assert s[1..] == [];
    } else {
      JoinStep(s, separator);
      JoinCounts(s[1..], separator);
      VisibleConcat(s[0], separator + Join(s[1..], separator));
      VisibleConcat(separator, Join(s[1..], separator));
    }
  }

  lemma {:induction false} SeparatorCounts(pre: string, d: char)
    requires Blank(pre) && !IsSpace(d)
    ensures Visible(Separator(pre, d)) == 1
  {
    VisibleConcat(pre + [d], " ");
    VisibleConcat(pre, [d]);
    BlankIsInvisible(pre);
    BlankIsInvisible(" ");
    assert [d][1..] == [];
  }

  lemma {:induction false} KeepCounts(keep: string -> bool, s: seq<string>)
    ensures TotalVisible(Keep(keep, s)) <= TotalVisible(s)
    ensures if AllKept(keep, s) then Keep(keep, s) == s else |Keep(keep, s)| < |s|
  {
    if s != [] {
      KeepCounts(keep, s[1..]);
      var rest := Keep(keep, s[1..]);
      if keep(s[0]) {
        assert Keep(keep, s)[1..] == rest && s == [s[0]] + s[1..];
      } else {
        assert Keep(keep, s) == rest;
      }
    }
  }

  /**
   For every text: the filter leaves it alone if and only if joining its pieces
   gives the text back and the filter keeps every piece.
   */
  lemma {:induction false} FilterFixedIff(text: string, keep: string -> bool, pre: string, d: char, delims: set<char>)
    requires Plain(delims) && d in delims && Blank(pre)
    ensures Filtered(text, keep, pre, d, delims) == text <==>
            Join(Split(text, delims), Separator(pre, d)) == text && AllKept(keep, Split(text, delims))
  {
    hide SplitFrom;
    var pieces := Split(text, delims);
    var kept := Keep(keep, pieces);
    KeepCounts(keep, pieces);
    SplitCounts(text, delims);
    SeparatorCounts(pre, d);
    if kept != [] {
      JoinCounts(kept, Separator(pre, d));
    } else if text == [] {
      NothingSplits(delims);
    }
  }

  lemma {:induction false} NothingSplits(delims: set<char>)
    ensures Split([], delims) == []
  {}

  /** For every input: filtering a second time changes nothing if and only if the result is such a text. */
  lemma {:induction false} FilterTwiceIff(input: string, keep: string -> bool, pre: string, d: char, delims: set<char>)
    requires Plain(delims) && d in delims && Blank(pre)
    ensures var once := Filtered(input, keep, pre, d, delims);
            Filtered(once, keep, pre, d, delims) == once <==>
            Join(Split(once, delims), Separator(pre, d)) == once && AllKept(keep, Split(once, delims))
  {
    FilterFixedIff(Filtered(input, keep, pre, d, delims), keep, pre, d, delims);
  }

  /**
   When no line break stands behind the first line comment among the kept
   pieces, filtering a second time changes nothing if and only if the filter
   also keeps the last piece as the second splitting finds it.
   */
  lemma {:induction false} FilterTwiceMerged(
    input: string, keep: string -> bool, pre: string, d: char, delims: set<char>)
    requires Plain(delims) && d in delims && (pre == "" || pre == " ")
    requires NoBreakAfterComment(Keep(keep, Split(input, delims)), Separator(pre, d))
    ensures var merged := Merged(Keep(keep, Split(input, delims)), Separator(pre, d));
            Filtered(Filtered(input, keep, pre, d, delims), keep, pre, d, delims)
            == Filtered(input, keep, pre, d, delims)
            <==> merged == [] || keep(merged[|merged| - 1])
  {
    hide Merged, Pieces, Join, SplitFrom, NoBreakAfterComment;
    var kept := Keep(keep, Split(input, delims));
    SplitYieldsPieces(input, delims);
    KeepIsPieces(keep, Split(input, delims), delims);
    KeptAllKept(keep, Split(input, delims));
    SplitOfJoinMerges(kept, [], pre, d, delims);
    if kept == [] {
      NothingMerged(Separator(pre, d));
    } else {
      KeepMerged(keep, kept, Separator(pre, d), delims);
    }
  }

  lemma {:induction false} NothingMerged(separator: string)
    ensures Merged([], separator) == []
  {}

  // ---------- texts without line comments ----------

  /** Scanning `s` never enters a line comment. */
  predicate LineFree(s: string, st: Scan)
    decreases |s|
  {
    s == [] ||
    (!Advance(st, s[0], Next(s)).lineComment
     && LineFree(s[Width(st, s[0], Next(s))..], Advance(st, s[0], Next(s))))
  }

  lemma {:induction false} LineFreeEnd(s: string, st: Scan)
    requires LineFree(s, st) && !st.lineComment
    ensures !EndState(s, st).lineComment
    decreases |s|
  {
    if s != [] {
      LineFreeEnd(s[Width(st, s[0], Next(s))..], Advance(st, s[0], Next(s)));
    }
  }

  lemma {:induction false} LineFreePrefix(p: string, rest: string, st: Scan)
    requires LineFree(p + rest, st) && Detached(rest)
    ensures LineFree(p, st)
    decreases |p|
  {
    if p != [] {
      NextOfConcat(p, rest, st, {});
      var n := Width(st, p[0], Next(p));
      assert (p + rest)[n..] == p[n..] + rest && (p + rest)[0] == p[0];
      LineFreePrefix(p[n..], rest, Advance(st, p[0], Next(p)));
    }
  }

  lemma {:induction false} LineFreeAfterBlank(w: string, t: string)
    requires Blank(w) && LineFree(w + t, INITIAL)
    ensures LineFree(t, INITIAL)
  {
    hide Advance, Width;
    if w == [] {
      assert w + t == t;
    } else {
      assert (w + t)[0] == w[0] && (w + t)[1..] == w[1..] + t;
      SpaceStays(w[0], Next(w + t), {});
      LineFreeAfterBlank(w[1..], t);
    }
  }

  lemma {:induction false} LineFreeSuffix(p: string, rest: string, st: Scan)
    requires LineFree(p + rest, st) && Detached(rest)
    ensures LineFree(rest, EndState(p, st))
    decreases |p|
  {
    if p == [] {
      assert p + rest == rest;
    } else {
      NextOfConcat(p, rest, st, {});
      var n := Width(st, p[0], Next(p));
      assert (p + rest)[n..] == p[n..] + rest && (p + rest)[0] == p[0];
      LineFreeSuffix(p[n..], rest, Advance(st, p[0], Next(p)));
    }
  }

  lemma {:induction false} LineFreeAtCut(input: string, delims: set<char>)
    requires Plain(delims) && LineFree(input, INITIAL)
    ensures match FirstCut(input, INITIAL, delims)
            case None => true
            case Some(m) => LineFree(input[..m], INITIAL) && LineFree(input[m + 1..], INITIAL)
  {
    var cut := FirstCut(input, INITIAL, delims);
    if cut.Some? {
      var p, rest := input[..cut.value], input[cut.value..];
      assert input == p + rest;
      CutIsDelimiter(input, INITIAL, delims);
      BeforeFirstCut(input, INITIAL, delims);
      LineFreePrefix(p, rest, INITIAL);
      LineFreeSuffix(p, rest, INITIAL);
      assert rest[1..] == input[cut.value + 1..];
    }
  }

  lemma {:induction false} LineFreeClosed(raw: string, delims: set<char>)
    requires Plain(delims) && Quiet(raw, INITIAL, delims) && EndState(raw, INITIAL) == INITIAL
    requires LineFree(raw, INITIAL) && Trim(raw) != []
    ensures Closed(Trim(raw))
  {
    TrimmedQuiet(raw, delims);
    var front, back := TrimSplits(raw);
    assert raw == front + (Trim(raw) + back);
    LineFreeAfterBlank(front, Trim(raw) + back);
    BlankDetached(back, []);
    assert back + [] == back;
    LineFreePrefix(Trim(raw), back, INITIAL);
    LineFreeEnd(Trim(raw), INITIAL);
  }

  lemma {:induction false} LineFreeSplit(input: string, delims: set<char>)
    requires Plain(delims) && LineFree(input, INITIAL)
    ensures AllButLastClosed(Split(input, delims))
    decreases |input|
  {
    SplitAtFirstCut(input, [], INITIAL, delims);
    BeforeFirstCut(input, INITIAL, delims);
    LineFreeAtCut(input, delims);
    var cut := FirstCut(input, INITIAL, delims);
    if cut.Some? {
      var raw, tail := input[..cut.value], Split(input[cut.value + 1..], delims);
      assert [] + raw == raw;
      LineFreeSplit(input[cut.value + 1..], delims);
      if Trim(raw) != [] {
        LineFreeClosed(raw, delims);
        assert ([Trim(raw)] + tail)[1..] == tail;
      } else {
        assert [] + tail == tail;
      }
    }
  }

  lemma {:induction false} KeepClosed(keep: string -> bool, s: seq<string>)
    requires AllButLastClosed(s)
    ensures AllButLastClosed(Keep(keep, s)) && |Keep(keep, s)| <= |s|
  {
    if s != [] {
      if |s| == 1 {
        assert Keep(keep, s[1..]) == [];
      } else {
        KeepClosed(keep, s[1..]);
      }
      if keep(s[0]) {
        assert Keep(keep, s)[1..] == Keep(keep, s[1..]);
      } else {
        assert Keep(keep, s) == Keep(keep, s[1..]);
      }
    }
  }

  /** Without line comments the pieces survive joining and splitting, and filtering twice is filtering once. */
  lemma {:induction false} LineFreeRoundTrip(
    input: string, keep: string -> bool, pre: string, d: char, delims: set<char>)
    requires Plain(delims) && d in delims && (pre == "" || pre == " ") && LineFree(input, INITIAL)
    ensures Split(Filtered(input, keep, pre, d, delims), delims) == Keep(keep, Split(input, delims))
    ensures Filtered(Filtered(input, keep, pre, d, delims), keep, pre, d, delims)
            == Filtered(input, keep, pre, d, delims)
  {
    LineFreeSplit(input, delims);
    KeepClosed(keep, Split(input, delims));
    RoundTrip(input, keep, pre, d, delims);
    FilterTwice(input, keep, pre, d, delims);
  }

  lemma {:induction false} CommentExample()
    ensures Quiet("//\n", INITIAL, {'|'}) && EndState("//\n", INITIAL) == INITIAL
    ensures Piece("//", {'|'}) && EndState("//", INITIAL) == IN_LINE
    ensures Piece("a", {'|'})
  {
    assert "//\n"[2..] == "\n" && "\n"[1..] == [] && "//"[2..] == [] && "a"[1..] == [];
    assert Width(INITIAL, '/', Some('/')) == 2;
    assert Quiet("\n", IN_LINE, {'|'}) && EndState("\n", IN_LINE) == INITIAL;
  }

  lemma {:induction false} CommentExamplePieces()
    ensures Emit("//\n") == ["//"]
    ensures SplitFrom("a", " ", INITIAL, {'|'}) == ["a"]
  {
    CommentExample();
    EmitMiddle([], "//", "\n");
    assert [] + "//" + "\n" == "//\n";
    assert ["a"][1..] == [];
    SplitOfJoin(["a"], " ", "", '|', {'|'});
  }

  lemma {:induction false} CommentExampleSplits()
    ensures Split("//\n| a", {'|'}) == Emit("//\n") + SplitFrom("a", " ", INITIAL, {'|'})
  {
    var d := {'|'};
    var raw := "//\n";
    var marked := Separator("", '|') + "a";
    CommentExample();
    assert "//\n| a" == raw + marked;
    assert marked[0] == '|';
    ReadPiece(raw, marked, [], INITIAL, d);
    assert [] + raw == raw && raw + "" == raw;
    ReadSeparator(raw, "", '|', "a", d);
  }

  /** A line comment at the end of a piece swallows the next one, because trimming drops its newline. */
  lemma {:induction false} LineCommentMergesPieces()
    ensures var pieces := Split("//\n| a", {'|'});
            && pieces == ["//", "a"]
            && Split(Join(pieces, Separator(" ", '|')), {'|'}) != pieces
  {
    CommentExample();
    CommentExampleSplits();
    CommentExamplePieces();
    SplitYieldsPieces("//\n| a", {'|'});
    SplitOfJoinFails(["//", "a"], [], " ", '|', {'|'});
  }

  /** The same text, and a filter whose second application loses both pieces. */
  lemma {:induction false} FilterTwiceLoses()
    ensures var keep := (p: string) => p == "//" || p == "a";
            var once := Filtered("//\n| a", keep, " ", '|', {'|'});
            once == "// | a" && Filtered(once, keep, " ", '|', {'|'}) != once
  {
    hide SplitFrom, EndState, Quiet;
    var keep := (p: string) => p == "//" || p == "a";
    var pieces := ["//", "a"];
    CommentExample();
    CommentExampleSplits();
    CommentExamplePieces();
    assert pieces[1..] == ["a"] && ["a"][1..] == [];
    assert Keep(keep, ["a"]) == ["a"];
    assert Keep(keep, pieces) == pieces;
    assert Join(pieces, " | ") == "// | a";
    assert Separator(" ", '|') == " | ";
    assert Merged(pieces, " | ") == ["// | a"];
    FilterTwiceMerged("//\n| a", keep, " ", '|', {'|'});
  }
}

/** The scanner and the splitter as the program runs them. */
module ScannerMethods {
  import opened Basics
  import opened Scanner
  import opened SplitJoin

  class ScanState {
    var brace: nat
    var bracket: nat
    var paren: nat
    var angle: nat
    var stringDelim: Option<char>
    var escape: bool
    var blockComment: bool
    var lineComment: bool

    function View(): Scan
      reads this
    {
      Scan(brace, bracket, paren, angle, stringDelim, escape, blockComment, lineComment)
    }

    constructor ()
      ensures View() == INITIAL
    {
      brace, bracket, paren, angle := 0, 0, 0, 0;
      stringDelim, escape, blockComment, lineComment := None, false, false, false;
    }

    method Observe(c: char)
      modifies this
      ensures View() == Scanner.Observe(old(View()), c)
    {
      if stringDelim.Some? {
        if escape {
          escape := false;
        } else if c == '\\' {
          escape := true;
        } else if c == stringDelim.value {
          stringDelim := None;
        }
        return;
      }
      match c {
        case '"' => stringDelim := Some(c);
        case '\'' => stringDelim := Some(c);
        case '{' => brace := brace + 1;
        case '}' => brace := Down(brace);
        case '[' => bracket := bracket + 1;
        case ']' => bracket := Down(bracket);
        case '(' => paren := paren + 1;
        case ')' => paren := Down(paren);
        case '<' => angle := angle + 1;
        case '>' => angle := Down(angle);
        case _ =>
      }
    }

    method EnterComment(block: bool)
      modifies this
      ensures View() == if block then old(View()).(blockComment := true) else old(View()).(lineComment := true)
    {
      if block {
        blockComment := true;
      } else {
        lineComment := true;
      }
    }
  }

  lemma {:induction false} StepAt(input: string, start: nat, i: nat, st: Scan, delims: set<char>)
    requires start <= i < |input|
    ensures var next := if i + 1 < |input| then Some(input[i + 1]) else None;
            SplitFrom(input[i..], input[start..i], st, delims) ==
            if Cut(st, input[i], next, delims)
            then Emit(input[start..i])
                 + SplitFrom(input[i + 1..], input[i + 1..i + 1], Scanner.Observe(st, input[i]), delims)
            else var n := Width(st, input[i], next);
                 SplitFrom(input[i + n..], input[start..i + n], Advance(st, input[i], next), delims)
  {
    hide Emit, Trim, EndState, Quiet;
    var rest := input[i..];
    var next := if i + 1 < |input| then Some(input[i + 1]) else None;
    assert rest[0] == input[i] && Next(rest) == next;
    var n := Width(st, input[i], next);
    assert rest[1..] == input[i + 1..] && input[i + 1..i + 1] == [];
    assert rest[n..] == input[i + n..] && input[start..i] + rest[..n] == input[start..i + n];
  }

  /** What was cut so far, and what will be cut from position `i` on, are the pieces of the input. */
  ghost predicate OnTrack(parts: seq<string>, input: string, start: nat, i: nat, st: Scan, delims: set<char>)
    requires start <= i <= |input|
  {
    parts + SplitFrom(input[i..], input[start..i], st, delims) == Split(input, delims)
  }

  lemma {:induction false} MoveOn(parts: seq<string>, input: string, start: nat, i: nat, st: Scan, delims: set<char>)
    requires start <= i < |input| && OnTrack(parts, input, start, i, st, delims)
    ensures var next := if i + 1 < |input| then Some(input[i + 1]) else None;
            if Cut(st, input[i], next, delims)
            then OnTrack(parts + Emit(input[start..i]), input, i + 1, i + 1, Scanner.Observe(st, input[i]), delims)
            else i + Width(st, input[i], next) <= |input|
                 && OnTrack(parts, input, start, i + Width(st, input[i], next), Advance(st, input[i], next), delims)
  {
    hide Emit, Trim, EndState, Quiet;
    StepAt(input, start, i, st, delims);
    var tail := SplitFrom(input[i + 1..], input[i + 1..i + 1], Scanner.Observe(st, input[i]), delims);
    assert parts + (Emit(input[start..i]) + tail) == parts + Emit(input[start..i]) + tail;
  }

  lemma {:induction false} TrackStarts(input: string, delims: set<char>)
    ensures OnTrack([], input, 0, 0, INITIAL, delims)
  {
    assert input[0..] == input && input[0..0] == [];
  }

  lemma {:induction false} TrackEnds(parts: seq<string>, input: string, start: nat, st: Scan, delims: set<char>)
    requires start <= |input| && OnTrack(parts, input, start, |input|, st, delims)
    ensures Split(input, delims) == parts + Emit(input[start..])
  {
    assert input[|input|..] == [] && input[start..|input|] == input[start..];
  }

  /** One pass over the text, cutting at delimiters; the pieces are those that `Split` specifies. */
  method SplitTopLevelMulti(input: string, delims: set<char>) returns (parts: seq<string>)
    ensures parts == Split(input, delims)
  {
    hide OnTrack, Split, SplitFrom, Trim;
    var state := new ScanState();
    var start, i := 0, 0;
    parts := [];
    TrackStarts(input, delims);
    while i < |input|
      invariant 0 <= start <= i <= |input|
      invariant OnTrack(parts, input, start, i, state.View(), delims)
      decreases |input| - i
    {
      MoveOn(parts, input, start, i, state.View(), delims);
      var c := input[i];
      var next := if i + 1 < |input| then Some(input[i + 1]) else None;
      if state.blockComment {
        if c == '*' && next == Some('/') {
          state.blockComment := false;
          i := i + 1;
        }
        i := i + 1;
      } else if state.lineComment {
        if c == '\n' {
          state.lineComment := false;
        }
        i := i + 1;
      } else if state.stringDelim.None? && c == '/' && (next == Some('*') || next == Some('/')) {
        state.EnterComment(next == Some('*'));
        i := i + 2;
      } else {
        if state.stringDelim.None? && state.View().TopLevel() && c in delims {
          var part := Trim(input[start..i]);
          assert Emit(input[start..i]) == if part != [] then [part] else [];
          assert parts + [] == parts;
          if part != [] {
            parts := parts + [part];
          }
          start := i + 1;
        }
        state.Observe(c);
        i := i + 1;
      }
    }
    TrackEnds(parts, input, start, state.View(), delims);
    var tail := Trim(input[start..]);
    if tail != [] {
      parts := parts + [tail];
    }
  }

  lemma {:induction false} KeepAt(keep: string -> bool, s: seq<string>, i: nat)
    requires i < |s|
    ensures Keep(keep, s[i..]) == (if keep(s[i]) then [s[i]] else []) + Keep(keep, s[i + 1..])
  {
    assert s[i..][1..] == s[i + 1..];
  }

  /** The body of the filters: split, keep what passes, join. */
  method FilterPieces(
    input: string, keep: string -> bool, pre: string, d: char, delims: set<char>)
    returns (body: string)
    ensures body == Filtered(input, keep, pre, d, delims)
  {
    var parts := SplitTopLevelMulti(input, delims);
    var kept: seq<string> := [];
    assert parts[0..] == parts;
    for i := 0 to |parts|
      invariant kept + Keep(keep, parts[i..]) == Keep(keep, parts)
    {
      KeepAt(keep, parts, i);
      if keep(parts[i]) {
        kept := kept + [parts[i]];
      }
    }
    assert parts[|parts|..] == [] && kept + [] == kept;
    body := Join(kept, Separator(pre, d));
  }
}
