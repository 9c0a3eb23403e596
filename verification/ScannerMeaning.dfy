/**
 What the scanner makes of a text, told by its grammar: strings, comments and
 code characters, and which of the brackets among the latter are open.
 */
module ScannerMeaning {
  import opened Basics
  import BraceSpan
  import opened Scanner
  import opened SplitJoin

  datatype Token =
    | Code(c: char)
    | Quoted(quote: char, body: string)
    | Block(body: string)
    | Line(body: string)

  function Text(t: Token): (s: string)
    ensures s != []
  {
    match t
    case Code(c) => [c]
    case Quoted(quote, body) => [quote] + (body + [quote])
    case Block(body) => "/*" + (body + "*/")
    case Line(body) => "//" + (body + "\n")
  }

  /** The text of a string literal: a backslash takes the next character along, and no quote stands alone. */
  predicate Literal(body: string, quote: char) {
    if body == [] then true
    else if body[0] == '\\' then |body| > 1 && Literal(body[2..], quote)
    else body[0] != quote && Literal(body[1..], quote)
  }

  predicate WellFormed(t: Token) {
    match t
    case Code(c) => c != '"' && c != '\''
    case Quoted(quote, body) => (quote == '"' || quote == '\'') && Literal(body, quote)
    case Block(body) => forall i :: 0 <= i < |body| - 1 ==> !(body[i] == '*' && body[i + 1] == '/')
    case Line(body) => '\n' !in body
  }

  function Spelled(tokens: seq<Token>): string {
    if tokens == [] then [] else Text(tokens[0]) + Spelled(tokens[1..])
  }

  /** Each token reads as such where it stands: no slash begins a comment by accident. */
  predicate Proper(tokens: seq<Token>) {
    && (forall i :: 0 <= i < |tokens| ==> WellFormed(tokens[i]))
    && forall i :: 0 <= i < |tokens| - 1 ==> tokens[i] == Code('/') ==> Text(tokens[i + 1])[0] !in "/*"
  }

  /** The characters outside strings and comments. */
  function CodeOf(tokens: seq<Token>): string {
    if tokens == [] then []
    else (if tokens[0].Code? then [tokens[0].c] else []) + CodeOf(tokens[1..])
  }

  function Count(s: string, c: char): nat {
    if s == [] then 0 else Count(s[1..], c) + if s[0] == c then 1 else 0
  }

  /** How many more brackets are opened than closed. */
  ghost function Excess(code: string, open: char, close: char): int {
    Count(code, open) - Count(code, close)
  }

  /** How many brackets are open: closing ones without a partner do not count, so it is the most that any end has. */
  ghost predicate IsDepth(depth: nat, code: string, open: char, close: char) {
    && (exists j :: 0 <= j <= |code| && depth == Excess(code[j..], open, close))
    && forall j :: 0 <= j <= |code| ==> depth >= Excess(code[j..], open, close)
  }

  /** No bracket is left open: every end of the code closes as many as it opens. */
  ghost predicate NothingOpen(code: string, open: char, close: char) {
    forall j :: 0 <= j <= |code| ==> Excess(code[j..], open, close) <= 0
  }

  ghost predicate Balanced(code: string) {
    NothingOpen(code, '{', '}') && NothingOpen(code, '[', ']') && NothingOpen(code, '(', ')')
    && NothingOpen(code, '<', '>')
  }

  // ---------- depths ----------

  function ObserveAll(st: Scan, code: string): Scan {
    if code == [] then st else Observe(ObserveAll(st, code[..|code| - 1]), code[|code| - 1])
  }

  predicate InCode(st: Scan) {
    !InComment(st) && !st.InString() && !st.escape
  }

  predicate NoQuotes(code: string) {
    forall i :: 0 <= i < |code| ==> code[i] != '"' && code[i] != '\''
  }

  lemma {:induction false} CountLast(s: string, x: char, c: char)
    ensures Count(s + [x], c) == Count(s, c) + if x == c then 1 else 0
  {
    if s == [] {
      assert ([] + [x])[1..] == [];
    } else {
      CountLast(s[1..], x, c);
      assert (s + [x])[1..] == s[1..] + [x];
    }
  }

  lemma {:induction false} ExcessLast(code: string, x: char, open: char, close: char, j: nat)
    requires j <= |code|
    ensures
      Excess((code + [x])[j..], open, close) ==
      Excess(code[j..], open, close) + (if x == open then 1 else 0) - (if x == close then 1 else 0)
  {
    assert (code + [x])[j..] == code[j..] + [x];
    CountLast(code[j..], x, open);
    CountLast(code[j..], x, close);
  }

  /** One more character opens, closes, or does neither. */
  lemma {:induction false} DepthStep(depth: nat, code: string, x: char, open: char, close: char)
    requires IsDepth(depth, code, open, close) && open != close
    ensures IsDepth(if x == open then depth + 1 else if x == close then Down(depth) else depth, code + [x], open, close)
  {
    hide Count;
    var after := if x == open then depth + 1 else if x == close then Down(depth) else depth;
    forall j: nat | j <= |code|
      ensures Excess((code + [x])[j..], open, close) ==
              Excess(code[j..], open, close) + (if x == open then 1 else 0) - (if x == close then 1 else 0)
    {
      ExcessLast(code, x, open, close, j);
    }
    assert (code + [x])[|code| + 1..] == [];
    NothingExceeds(open, close);
    var j: nat :| j <= |code| && depth == Excess(code[j..], open, close);
    var k := if x == close && depth == 0 then |code| + 1 else j;
    assert after == Excess((code + [x])[k..], open, close);
  }

  lemma {:induction false} NothingExceeds(open: char, close: char)
    ensures Excess([], open, close) == 0
  {}

  /** The scanner counts the brackets that are open. */
  lemma {:induction false} DepthsCount(code: string)
    requires NoQuotes(code)
    ensures
      var st := ObserveAll(INITIAL, code);
      && InCode(st)
      && IsDepth(st.brace, code, '{', '}') && IsDepth(st.bracket, code, '[', ']')
      && IsDepth(st.paren, code, '(', ')') && IsDepth(st.angle, code, '<', '>')
  {
    hide IsDepth;
    if code == [] {
      NoDepth('{', '}');
      NoDepth('[', ']');
      NoDepth('(', ')');
      NoDepth('<', '>');
    } else {
      var rest, x := code[..|code| - 1], code[|code| - 1];
      DepthsCount(rest);
      assert code == rest + [x];
      var st := ObserveAll(INITIAL, rest);
      DepthStep(st.brace, rest, x, '{', '}');
      DepthStep(st.bracket, rest, x, '[', ']');
      DepthStep(st.paren, rest, x, '(', ')');
      DepthStep(st.angle, rest, x, '<', '>');
    }
  }

  lemma {:induction false} NoDepth(open: char, close: char)
    ensures IsDepth(0, [], open, close)
  {
    assert ""[0..] == "";
    NothingExceeds(open, close);
  }

  lemma {:induction false} ZeroDepth(depth: nat, code: string, open: char, close: char)
    requires IsDepth(depth, code, open, close)
    ensures depth == 0 <==> NothingOpen(code, open, close)
  {}

  lemma {:induction false} TopLevelIsBalanced(code: string)
    requires NoQuotes(code)
    ensures ObserveAll(INITIAL, code) == INITIAL <==> Balanced(code)
  {
    hide IsDepth, NothingOpen;
    DepthsCount(code);
    var st := ObserveAll(INITIAL, code);
    ZeroDepth(st.brace, code, '{', '}');
    ZeroDepth(st.bracket, code, '[', ']');
    ZeroDepth(st.paren, code, '(', ')');
    ZeroDepth(st.angle, code, '<', '>');
  }

  // ---------- reading tokens ----------

  lemma {:induction false} ObserveFirst(st: Scan, c: char, code: string)
    ensures ObserveAll(st, [c] + code) == ObserveAll(Observe(st, c), code)
  {
    if code == [] {
      assert [c] + code == [c] && [c][..0] == [];
      assert ObserveAll(st, [c][..0]) == st;
    } else {
      var n := |code| - 1;
      ObserveFirst(st, c, code[..n]);
      assert ([c] + code)[..n + 1] == [c] + code[..n];
    }
  }

  lemma {:induction false} ReadLiteral(body: string, s: string, st: Scan)
    requires st.delim.Some? && st.delim.value != '\\' && !st.escape && !InComment(st) && Literal(body, st.delim.value)
    ensures EndState(body + [st.delim.value] + s, st) == EndState(s, st.(delim := None))
  {
    var quote := st.delim.value;
    var text := body + [quote] + s;
    if body == [] {
      assert text[1..] == s;
    } else if body[0] == '\\' {
      ReadLiteral(body[2..], s, st);
      assert text[1..][1..] == body[2..] + [quote] + s && text[1..][0] == body[1];
    } else {
      ReadLiteral(body[1..], s, st);
      assert text[1..] == body[1..] + [quote] + s;
    }
  }

  lemma {:induction false} ReadBlock(body: string, s: string, st: Scan)
    requires st.blockComment && WellFormed(Block(body))
    ensures EndState(body + "*/" + s, st) == EndState(s, st.(blockComment := false))
  {
    var text := body + "*/" + s;
    if body == [] {
      assert text[2..] == s;
    } else {
      assert text[1..] == body[1..] + "*/" + s;
      assert |body| > 1 ==> !(body[0] == '*' && body[1] == '/');
      ReadBlock(body[1..], s, st);
    }
  }

  lemma {:induction false} ReadLine(body: string, s: string, st: Scan)
    requires st.lineComment && !st.blockComment && !st.InString() && WellFormed(Line(body))
    ensures EndState(body + "\n" + s, st) == EndState(s, st.(lineComment := false))
  {
    var text := body + "\n" + s;
    if body == [] {
      assert text[1..] == s;
    } else {
      assert text[1..] == body[1..] + "\n" + s;
      assert body[0] in body;
      ReadLine(body[1..], s, st);
    }
  }

  /** What a token does to the scanner. */
  function After(st: Scan, t: Token): Scan {
    if t.Code? then Observe(st, t.c) else st
  }

  lemma {:induction false} ReadQuoted(quote: char, body: string, s: string, st: Scan)
    requires InCode(st) && WellFormed(Quoted(quote, body))
    ensures EndState(Text(Quoted(quote, body)) + s, st) == EndState(s, st)
  {
    var text := Text(Quoted(quote, body)) + s;
    assert text[1..] == body + [quote] + s;
    ReadLiteral(body, s, st.(delim := Some(quote)));
    assert EndState(text, st) == EndState(text[1..], st.(delim := Some(quote)));
  }

  lemma {:induction false} ReadComment(mark: char, after: string, st: Scan)
    requires InCode(st) && mark in "/*"
    ensures
      EndState("/" + [mark] + after, st) ==
      EndState(after, if mark == '*' then st.(blockComment := true) else st.(lineComment := true))
  {
    var text := "/" + [mark] + after;
    assert text[2..] == after && text[0] == '/' && text[1] == mark;
  }

  lemma {:induction false} ReadBlockToken(body: string, s: string, st: Scan)
    requires InCode(st) && WellFormed(Block(body))
    ensures EndState(Text(Block(body)) + s, st) == EndState(s, st)
  {
    hide EndState;
    ReadComment('*', body + "*/" + s, st);
    ReadBlock(body, s, st.(blockComment := true));
    assert Text(Block(body)) + s == "/" + ['*'] + (body + "*/" + s);
  }

  lemma {:induction false} ReadLineToken(body: string, s: string, st: Scan)
    requires InCode(st) && WellFormed(Line(body))
    ensures EndState(Text(Line(body)) + s, st) == EndState(s, st)
  {
    hide EndState;
    ReadComment('/', body + "\n" + s, st);
    ReadLine(body, s, st.(lineComment := true));
    assert Text(Line(body)) + s == "/" + ['/'] + (body + "\n" + s);
  }

  lemma {:induction false} ReadCode(c: char, s: string, st: Scan)
    requires InCode(st) && WellFormed(Code(c)) && (c == '/' && s != [] ==> s[0] !in "/*")
    ensures EndState(Text(Code(c)) + s, st) == EndState(s, Observe(st, c)) && InCode(Observe(st, c))
  {
    assert ([c] + s)[1..] == s;
  }

  lemma {:induction false} ReadToken(t: Token, s: string, st: Scan)
    requires InCode(st) && WellFormed(t) && (t == Code('/') && s != [] ==> s[0] !in "/*")
    ensures EndState(Text(t) + s, st) == EndState(s, After(st, t)) && InCode(After(st, t))
  {
    hide EndState, Text, WellFormed, Observe;
    match t {
      case Code(c) => ReadCode(c, s, st);
      case Quoted(quote, body) => ReadQuoted(quote, body, s, st);
      case Block(body) => ReadBlockToken(body, s, st);
      case Line(body) => ReadLineToken(body, s, st);
    }
  }

  lemma {:induction false} ReadTokens(tokens: seq<Token>, st: Scan)
    requires InCode(st) && Proper(tokens)
    ensures EndState(Spelled(tokens), st) == ObserveAll(st, CodeOf(tokens))
    ensures NoQuotes(CodeOf(tokens))
  {
    if tokens != [] {
      var t, rest := tokens[0], tokens[1..];
      assert rest != [] ==> Spelled(rest)[0] == Text(tokens[1])[0];
      ReadToken(t, Spelled(rest), st);
      ReadTokens(rest, After(st, t));
      if t.Code? {
        ObserveFirst(st, t.c, CodeOf(rest));
      } else {
        assert [] + CodeOf(rest) == CodeOf(rest);
      }
    }
  }

  // ---------- finding tokens ----------

  lemma {:induction false} StringStep(p: string, st: Scan)
    requires st.delim.Some? && st.delim.value != '\\' && !st.escape && !InComment(st) && InCode(EndState(p, st))
    ensures p != []
    ensures p[0] == '\\' ==> |p| > 1 && EndState(p, st) == EndState(p[2..], st)
    ensures p[0] == st.delim.value ==> EndState(p, st) == EndState(p[1..], st.(delim := None))
    ensures p[0] != '\\' && p[0] != st.delim.value ==> EndState(p, st) == EndState(p[1..], st)
  {
    if p[0] == '\\' {
      assert EndState(p, st) == EndState(p[1..], st.(escape := true));
      assert |p| > 1 && p[1..][1..] == p[2..];
    }
  }

  lemma {:induction false} FindLiteral(p: string, st: Scan) returns (body: string, rest: string)
    requires st.delim.Some? && st.delim.value != '\\' && !st.escape && !InComment(st) && InCode(EndState(p, st))
    ensures p == body + [st.delim.value] + rest && Literal(body, st.delim.value)
    ensures EndState(rest, st.(delim := None)) == EndState(p, st)
    decreases |p|
  {
    hide EndState;
    StringStep(p, st);
    if p[0] == '\\' {
      body, rest := FindLiteral(p[2..], st);
      assert p == [p[0], p[1]] + p[2..];
      body := [p[0], p[1]] + body;
    } else if p[0] == st.delim.value {
      body, rest := [], p[1..];
    } else {
      body, rest := FindLiteral(p[1..], st);
      body := [p[0]] + body;
    }
  }

  lemma {:induction false} FindBlock(p: string, st: Scan) returns (body: string, rest: string)
    requires st.blockComment && InCode(EndState(p, st))
    ensures p == body + "*/" + rest && WellFormed(Block(body))
    ensures EndState(rest, st.(blockComment := false)) == EndState(p, st)
    decreases |p|
  {
    if p[0] == '*' && Next(p) == Some('/') {
      body, rest := [], p[2..];
    } else {
      body, rest := FindBlock(p[1..], st);
      body := [p[0]] + body;
      assert p == [p[0]] + p[1..];
      assert |body| > 1 ==> p[1] == body[1];
    }
  }

  lemma {:induction false} FindLine(p: string, st: Scan) returns (body: string, rest: string)
    requires st.lineComment && !st.blockComment && !st.InString() && InCode(EndState(p, st))
    ensures p == body + "\n" + rest && WellFormed(Line(body))
    ensures EndState(rest, st.(lineComment := false)) == EndState(p, st)
    decreases |p|
  {
    if p[0] == '\n' {
      body, rest := [], p[1..];
    } else {
      body, rest := FindLine(p[1..], st);
      body := [p[0]] + body;
      assert p == [p[0]] + p[1..];
    }
  }

  lemma {:induction false} FindComment(p: string, st: Scan) returns (t: Token, rest: string)
    requires p != [] && InCode(st) && InCode(EndState(p, st)) && CommentStart(st, p[0], Next(p))
    ensures p == Text(t) + rest && WellFormed(t) && !t.Code? && EndState(rest, st) == EndState(p, st)
  {
    var after, body := p[2..], [];
    assert p == [p[0], p[1]] + after;
    if p[1] == '*' {
      assert EndState(p, st) == EndState(after, st.(blockComment := true));
      hide EndState;
      body, rest := FindBlock(after, st.(blockComment := true));
      t := Block(body);
      assert Text(t) + rest == "/*" + (body + "*/" + rest);
    } else {
      assert EndState(p, st) == EndState(after, st.(lineComment := true));
      hide EndState;
      body, rest := FindLine(after, st.(lineComment := true));
      t := Line(body);
      assert Text(t) + rest == "//" + (body + "\n" + rest);
    }
  }

  /** A text after which the scanner is back in code begins with a token. */
  lemma {:induction false} FindToken(p: string, st: Scan) returns (t: Token, rest: string)
    requires p != [] && InCode(st) && InCode(EndState(p, st))
    ensures p == Text(t) + rest && WellFormed(t) && (t == Code('/') && rest != [] ==> rest[0] !in "/*")
    ensures InCode(After(st, t)) && EndState(rest, After(st, t)) == EndState(p, st)
  {
    var c := p[0];
    assert p == [c] + p[1..];
    if CommentStart(st, c, Next(p)) {
      t, rest := FindComment(p, st);
    } else {
      assert EndState(p, st) == EndState(p[1..], Observe(st, c));
      hide EndState;
      if c == '"' || c == '\'' {
        var body;
        body, rest := FindLiteral(p[1..], st.(delim := Some(c)));
        t := Quoted(c, body);
        assert Text(t) + rest == [c] + (body + [c] + rest);
      } else {
        t, rest := Code(c), p[1..];
      }
    }
  }

  lemma {:induction false} FindTokens(p: string, st: Scan) returns (tokens: seq<Token>)
    requires InCode(st) && InCode(EndState(p, st))
    ensures Proper(tokens) && Spelled(tokens) == p
    decreases |p|
  {
    if p == [] {
      tokens := [];
    } else {
      var t, rest := FindToken(p, st);
      var more := FindTokens(rest, After(st, t));
      tokens := [t] + more;
      assert tokens[1..] == more;
      assert more != [] ==> rest[0] == Text(more[0])[0];
    }
  }

  // ---------- what the splitter does ----------

  /** The text is spelled by tokens, and none of its brackets is left open. */
  ghost predicate Complete(p: string) {
    exists tokens :: Proper(tokens) && Spelled(tokens) == p && Balanced(CodeOf(tokens))
  }

  /** The scanner is back where it began exactly after a complete text. */
  lemma {:induction false} ClosedMeans(p: string)
    ensures Closed(p) <==> Complete(p)
  {
    if Closed(p) {
      var tokens := FindTokens(p, INITIAL);
      ReadTokens(tokens, INITIAL);
      TopLevelIsBalanced(CodeOf(tokens));
    }
    if tokens :| Proper(tokens) && Spelled(tokens) == p && Balanced(CodeOf(tokens)) {
      ReadTokens(tokens, INITIAL);
      TopLevelIsBalanced(CodeOf(tokens));
    }
  }

  /** A delimiter after a complete text. */
  ghost predicate CutAt(input: string, k: nat, delims: set<char>) {
    k < |input| && input[k] in delims && Complete(input[..k])
  }

  lemma {:induction false} CutOrQuiet(p: string, rest: string, st: Scan, delims: set<char>)
    requires Detached(rest)
    ensures
      var cut := FirstCut(p + rest, st, delims);
      if Quiet(p, st, delims) then
        cut == (match FirstCut(rest, EndState(p, st), delims) case None => None case Some(k) => Some(|p| + k))
      else cut.Some? && cut.value < |p|
    decreases |p|
  {
    hide Advance, Width, Cut, Observe;
    if p == [] {
      assert p + rest == rest;
    } else {
      NextOfConcat(p, rest, st, delims);
      var n := Width(st, p[0], Next(p));
      assert (p + rest)[n..] == p[n..] + rest && (p + rest)[0] == p[0];
      CutOrQuiet(p[n..], rest, Advance(st, p[0], Next(p)), delims);
    }
  }

  /** The first cut is the first delimiter after a complete text. */
  lemma {:induction false} FirstCutMeans(input: string, delims: set<char>)
    requires Plain(delims)
    ensures match FirstCut(input, INITIAL, delims)
            case Some(k) => CutAt(input, k, delims) && forall j: nat :: j < k ==> !CutAt(input, j, delims)
            case None => forall j: nat :: !CutAt(input, j, delims)
  {
    forall j: nat | CutAt(input, j, delims)
      ensures FirstCut(input, INITIAL, delims).Some? && FirstCut(input, INITIAL, delims).value <= j
    {
      CutIsFound(input, j, delims);
    }
    var cut := FirstCut(input, INITIAL, delims);
    if cut.Some? {
      BeforeFirstCut(input, INITIAL, delims);
      CutIsDelimiter(input, INITIAL, delims);
      ClosedMeans(input[..cut.value]);
    }
  }

  lemma {:induction false} CutIsFound(input: string, j: nat, delims: set<char>)
    requires Plain(delims) && CutAt(input, j, delims)
    ensures FirstCut(input, INITIAL, delims).Some? && FirstCut(input, INITIAL, delims).value <= j
  {
    var p, rest := input[..j], input[j..];
    assert input == p + rest && rest[0] == input[j];
    ClosedMeans(p);
    CutOrQuiet(p, rest, INITIAL, delims);
    assert Cut(INITIAL, rest[0], Next(rest), delims);
  }

  /** A raw piece is kept without the white space at its ends, unless it is nothing but white space. */
  lemma {:induction false} EmitMeans(raw: string, t: string)
    ensures Emit(raw) == [] <==> Blank(raw)
    ensures Emit(raw) == [t] <==>
      Trimmed(t) && exists front, back :: raw == front + t + back && Blank(front) && Blank(back)
  {
    var front, back := TrimSplits(raw);
    if Trim(raw) == [] {
      assert front + [] + back == raw;
    }
    if Trim(raw) != [] {
      assert raw[|front|] == Trim(raw)[0];
    }
    if Trimmed(t) {
      if f, b :| raw == f + t + b && Blank(f) && Blank(b) {
        TrimMiddle(f, t, b);
      }
    }
  }

  /** A text is split at its first cut, and what follows it is split on its own. */
  lemma {:induction false} SplitMeans(input: string, delims: set<char>, k: nat)
    requires Plain(delims)
    ensures CutAt(input, k, delims) && (forall j: nat :: j < k ==> !CutAt(input, j, delims)) ==>
      Split(input, delims) == Emit(input[..k]) + Split(input[k + 1..], delims)
    ensures (forall j: nat :: !CutAt(input, j, delims)) ==> Split(input, delims) == Emit(input)
  {
    hide Emit, CutAt, FirstCut, SplitFrom, Plain;
    FirstCutMeans(input, delims);
    SplitAtFirstCut(input, [], INITIAL, delims);
    assert [] + input == input;
    var cut := FirstCut(input, INITIAL, delims);
    if cut.Some? {
      assert [] + input[..cut.value] == input[..cut.value];
      if CutAt(input, k, delims) && forall j: nat :: j < k ==> !CutAt(input, j, delims) {
        assert cut.value == k;
      }
    }
  }

  /** White space by code point, as Unicode lists it. */
  lemma {:induction false} SpaceMeans(c: char)
    ensures IsSpace(c) <==>
      || c as int in {9, 10, 11, 12, 13, 32, 133, 160, 5760, 8232, 8233, 8239, 8287, 12288}
      || 8192 <= c as int <= 8202
  {}

  /** What is kept keeps its order and its copies: part by part, down to single pieces. */
  lemma {:induction false} KeepByParts(keep: string -> bool, some: seq<string>, more: seq<string>, p: string)
    ensures Keep(keep, some + more) == Keep(keep, some) + Keep(keep, more)
    ensures Keep(keep, [p]) == if keep(p) then [p] else []
    ensures Keep(keep, []) == []
  {
    assert [p][1..] == [];
    if some == [] {
      assert some + more == more;
    } else {
      assert (some + more)[1..] == some[1..] + more;
      KeepByParts(keep, some[1..], more, p);
    }
  }

  /** The separator stands between two pieces and nowhere else. */
  lemma {:induction false} JoinByParts(some: seq<string>, more: seq<string>, p: string, separator: string)
    ensures some != [] && more != [] ==>
      Join(some + more, separator) == Join(some, separator) + separator + Join(more, separator)
    ensures Join([p], separator) == p && Join([], separator) == []
  {
    if |some| > 1 && more != [] {
      assert (some + more)[1..] == some[1..] + more;
      JoinByParts(some[1..], more, p, separator);
    } else if |some| == 1 && more != [] {
      assert (some + more)[1..] == more;
    }
  }

  // ---------- the braces of a block ----------

  /** Where no comment mark can be half read, the scanner has arrived after what it read on its own. */
  lemma {:induction false} Arrives(input: string, j: nat, i: nat, st: Scan)
    requires j <= i <= |input| && BraceSpan.ScanAt(input, j) == Some(st) && Detached(input[i..])
    ensures BraceSpan.ScanAt(input, i) == Some(EndState(input[j..i], st))
    decreases i - j
  {
    hide Advance, Width;
    if j < i {
      var p, next := input[j..i], BraceSpan.NextAt(input, j);
      assert p + input[i..] == input[j..] && Next(input[j..]) == next;
      NextOfConcat(p, input[i..], st, {});
      var n := Width(st, input[j], next);
      assert BraceSpan.ScanAt(input, j + n) == Some(Advance(st, input[j], next)) by {
        if n == 2 {
          assert BraceSpan.ScanAt(input, j + 1).None?;
        }
      }
      assert p[n..] == input[j + n..i];
      Arrives(input, j + n, i, Advance(st, input[j], next));
    }
  }

  /** A block opens at a brace after a complete text. */
  lemma {:induction false} OpensMeans(input: string, i: nat)
    ensures BraceSpan.Opens(input, i) <==> i < |input| && input[i] == '{' && Complete(input[..i])
  {
    hide EndState, Complete, BraceSpan.ScanAt;
    if i < |input| && input[i] == '{' {
      StartsAtInitial(input);
      Arrives(input, 0, i, INITIAL);
      assert input[0..i] == input[..i];
      ClosedMeans(input[..i]);
      EndStateSound(input[..i], INITIAL);
    }
  }

  lemma {:induction false} StartsAtInitial(input: string)
    ensures BraceSpan.ScanAt(input, 0) == Some(INITIAL)
  {}

  /** A block closes at a brace that completes a text. */
  lemma {:induction false} ClosesMeans(input: string, i: nat)
    ensures BraceSpan.Closes(input, i) <==> i < |input| && input[i] == '}' && Complete(input[..i + 1])
  {
    if i < |input| && input[i] == '}' {
      var p := input[..i];
      StartsAtInitial(input);
      Arrives(input, 0, i, INITIAL);
      assert input[0..i] == p && input[..i + 1] == p + "}";
      EndStateConcat(p, "}", INITIAL, {});
      EndStateSound(p, INITIAL);
      ClosedMeans(input[..i + 1]);
      BraceStep(EndState(p, INITIAL));
    }
  }

  lemma {:induction false} BraceStep(st: Scan)
    requires Sound(st)
    ensures EndState("}", st) == INITIAL <==> !InComment(st) && !st.InString() && Observe(st, '}').TopLevel()
  {
    assert "}"[1..] == "";
  }
}
