/** The first top-level brace block of a TypeScript text (`export.rs`). */
module BraceSpan {
  import opened Basics
  import opened Scanner
  import opened ScannerMethods

  function NextAt(input: string, i: nat): Option<char> {
    if i + 1 < |input| then Some(input[i + 1]) else None
  }

  /** The scanner's state on arriving at a position; none inside a two-character comment mark. */
  function ScanAt(input: string, i: nat): Option<Scan>
    requires i <= |input|
  {
    if i == 0 then Some(INITIAL)
    else
      match ScanAt(input, i - 1)
      case Some(st) =>
        if Width(st, input[i - 1], NextAt(input, i - 1)) == 1
        then Some(Advance(st, input[i - 1], NextAt(input, i - 1))) else None
      case None =>
        if i == 1 then None
        else
          match ScanAt(input, i - 2)
          case Some(st) => Some(Advance(st, input[i - 2], NextAt(input, i - 2)))
          case None => None
  }

  /** A character read as code: outside comments and strings. */
  predicate Code(input: string, i: nat, c: char) {
    i < |input| && input[i] == c && ScanAt(input, i).Some? &&
    var st := ScanAt(input, i).value;
    !InComment(st) && !st.InString()
  }

  predicate Opens(input: string, i: nat) {
    Code(input, i, '{') && ScanAt(input, i).value.TopLevel()
  }

  predicate Closes(input: string, i: nat) {
    Code(input, i, '}') && Observe(ScanAt(input, i).value, '}').TopLevel()
  }

  /** `open` is the last opening before `end`, if there is one. */
  ghost predicate LastOpening(input: string, open: Option<nat>, end: nat) {
    match open
    case Some(o) => o < end && Opens(input, o) && forall k :: o < k < end ==> !Opens(input, k)
    case None => forall k :: 0 <= k < end ==> !Opens(input, k)
  }

  /** No closing before `end` comes after an opening. */
  ghost predicate Unclosed(input: string, end: nat) {
    forall o, c :: 0 <= o < c < end && Opens(input, o) ==> !Closes(input, c)
  }

  /** The scanner has arrived at `i` and found no block so far. */
  ghost predicate Scanning(input: string, i: nat, st: Scan, open: Option<nat>) {
    && i <= |input| && ScanAt(input, i) == Some(st) && st.delim != Some('}')
    && LastOpening(input, open, i) && Unclosed(input, i)
  }

  /** A step over something other than a code brace. */
  lemma {:induction false} StepOver(input: string, i: nat, st: Scan, open: Option<nat>)
    requires i < |input| && Scanning(input, i, st, open) && !Opens(input, i) && !Closes(input, i)
    ensures
      var n := Width(st, input[i], NextAt(input, i));
      i + n <= |input| && Scanning(input, i + n, Advance(st, input[i], NextAt(input, i)), open)
  {
    var n := Width(st, input[i], NextAt(input, i));
    if n == 2 {
      assert ScanAt(input, i + 1).None?;
      assert !Opens(input, i + 1) && !Closes(input, i + 1);
    }
  }

  lemma {:induction false} StepOpens(input: string, i: nat, st: Scan, open: Option<nat>)
    requires i < |input| && Scanning(input, i, st, open) && Opens(input, i)
    ensures Scanning(input, i + 1, Observe(st, '{'), Some(i))
  {}

  /** A closing without an opening before it is passed over. */
  lemma {:induction false} StepStray(input: string, i: nat, st: Scan)
    requires i < |input| && Scanning(input, i, st, None) && Closes(input, i)
    ensures Scanning(input, i + 1, Observe(st, '}'), None)
  {}

  /**
   `find_top_level_brace_span`: the first closing that has an opening before it, with the last such opening. There
   is none only if no closing comes after an opening.
   */
  method FindTopLevelBraceSpan(input: string) returns (span: Option<(nat, nat)>)
    ensures span.Some? ==>
      var (open, close) := span.value;
      && open < close < |input| && Closes(input, close)
      && LastOpening(input, Some(open), close) && Unclosed(input, close)
    ensures span.None? ==> Unclosed(input, |input|)
  {
    hide Unclosed, ScanAt, Observe;
    var state := new ScanState();
    var open: Option<nat> := None;
    var i := 0;
    ScanningStarts(input);
    while i < |input|
      invariant i <= |input| && Scanning(input, i, state.View(), open)
      decreases |input| - i
    {
      var c := input[i];
      var next := NextAt(input, i);
      if !Opens(input, i) && !Closes(input, i) {
        StepOver(input, i, state.View(), open);
      }
      if state.blockComment {
        if c == '*' && next == Some('/') {
          state.blockComment := false;
          i := i + 1;
        }
        i := i + 1;
      } else if state.lineComment {
        if c == '\n' {
          state.lineComment := false;
        }
        i := i + 1;
      } else if state.stringDelim.None? && c == '/' && (next == Some('*') || next == Some('/')) {
        state.EnterComment(next == Some('*'));
        i := i + 2;
      } else {
        if state.stringDelim.None? && c == '{' && state.View().TopLevel() {
          StepOpens(input, i, state.View(), open);
          open := Some(i);
        }
        StillInString(state.View());
        ghost var st := state.View();
        state.Observe(c);
        if state.stringDelim.None? && c == '}' && state.View().TopLevel() {
          if open.Some? {
            return Some((open.value, i));
          }
          StepStray(input, i, st);
        }
        i := i + 1;
      }
    }
    span := None;
  }

  lemma {:induction false} ScanningStarts(input: string)
    ensures Scanning(input, 0, INITIAL, None)
  {}

  /** A closing brace never ends a string. */
  lemma {:induction false} StillInString(st: Scan)
    requires st.delim != Some('}')
    ensures Observe(st, '}').InString() == st.InString()
  {}
}
