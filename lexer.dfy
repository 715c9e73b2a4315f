// lexer/lexer.go, with the token kinds of lexer/token.go and the keyword
// spellings of lexer/keywords.go: the Go front end's scanner over a slice of
// runes. Each step of the scanner is a method of the `Scanner` class; what a
// step does is specified by a pure function of the source and the old
// cursor state, and the lexical facts are lemmas about those functions.
module GoLexer {
  import opened Wrappers
  import Decimal
  import opened StringPool

  /** The token kinds of lexer/token.go:5-69, and `NONE` for the empty
      type of Go's zero `Token{}`, which Scan returns with every error. */
  datatype TokenType =
    | PLUS | MINUS | MUL | DIV | MOD
    | GREATERTHAN | GREATERTHANEQUAL | LESSTHAN | LESSTHANEQUAL | ASSIGN | NOTEQUAL | EQUALTO
    | COMMA | DOT | DOTDOT
    | QUESTIONMARK | IF | IS | IFNOT
    | WHILE | LOOP | UNTIL | FROM | TO
    | BREAK | CONTINUE
    | LOGICAND | LOGICOR | NOT
    | RETURN | PRINT | PUBLIC | IMPORT | EXTERN | STATIC
    | IDENT | NUMBER | LONG | STRING | FN | VAR_DECL
    | OPEN_PAREN | CLOSE_PAREN | RIGHT_ARROW | OPEN_BRACE | CLOSE_BRACE | SEMICOLON | COLON | TILDE | EOF
    | INT_TYPE | STRING_TYPE | VOID | ERROR
    | NONE

  /** The string value of each kind (TokenType is a Go string type). */
  function TypeName(t: TokenType): string
  {
    match t
    case PLUS => "PLUS" case MINUS => "MINUS" case MUL => "MUL" case DIV => "DIV" case MOD => "PERCENT"
    case GREATERTHAN => "GREATERTHAN" case GREATERTHANEQUAL => "GREATERTHANEQUAL"
    case LESSTHAN => "LESSTHAN" case LESSTHANEQUAL => "LESSTHANEQUAL" case ASSIGN => "ASSIGN"
    case NOTEQUAL => "NOTEQUAL" case EQUALTO => "EQUALTO"
    case COMMA => "COMMA" case DOT => "DOT" case DOTDOT => "DOTDOT"
    case QUESTIONMARK => "QUESTIONMARK" case IF => "IF" case IS => "IS" case IFNOT => "IFNOT"
    case WHILE => "WHILE" case LOOP => "LOOP" case UNTIL => "UNTIL" case FROM => "FROM" case TO => "TO"
    case BREAK => "BREAK" case CONTINUE => "CONTINUE"
    case LOGICAND => "LOGICAND" case LOGICOR => "LOGICOR" case NOT => "NOT"
    case RETURN => "RETURN" case PRINT => "PRINT" case PUBLIC => "PUBLIC" case IMPORT => "IMPORT"
    case EXTERN => "EXTERN" case STATIC => "STATIC"
    case IDENT => "IDENT" case NUMBER => "NUMBER" case LONG => "LONG" case STRING => "STRING"
    case FN => "FN" case VAR_DECL => "DECL"
    case OPEN_PAREN => "OPEN_PAREN" case CLOSE_PAREN => "CLOSE_PAREN" case RIGHT_ARROW => "RIGHT_ARROW"
    case OPEN_BRACE => "OPEN_BRACE" case CLOSE_BRACE => "CLOSE_BRACE" case SEMICOLON => "SEMICOLON"
    case COLON => "COLON" case TILDE => "TILDE" case EOF => "EOF"
    case INT_TYPE => "INT_TYPE" case STRING_TYPE => "STRING_TYPE" case VOID => "VOID" case ERROR => "ERROR"
    case NONE => ""
  }

  /** Span (lexer/token.go:78-81): the half-open range of rune indices. */
  datatype Span = Span(start: int, end: int)

  /** Token (lexer/token.go:71-76); a nil `Value` pointer is `None`. */
  datatype Token = Token(kind: TokenType, value: Option<string>, line: int, span: Span)

  /** Go's zero `Token{}`: what Scan returns with an error, and the token
      of a node built without one. */
  const ZeroToken := Token(NONE, None, 0, Span(0, 0))

  // ---------------------------------------------------------------------
  // Runes

  /** The rune at `i`, or 0 past the end: what `Current` holds when the
      cursor is at `i` (lexer/lexer.go:85-89). */
  function At(src: seq<int>, i: nat): int
  {
    if i < |src| then src[i] else 0
  }

  /** Go's conversion of one rune to text: an invalid code point becomes
      U+FFFD. */
  function RuneChar(r: int): char
  {
    if 0 <= r < 0xD800 || 0xE000 <= r < 0x11_0000 then r as char else '\U{FFFD}'
  }

  /** `string(runes)`, rune by rune. */
  function RunesToString(rs: seq<int>): (s: string)
    ensures |s| == |rs|
  {
    seq(|rs|, k requires 0 <= k < |rs| => RuneChar(rs[k]))
  }

  /** The code of a character, as a Go rune literal gives it. */
  function R(c: char): int { c as int }

  /** isDigit (lexer/lexer.go:53-55). */
  predicate IsDigit(c: int) { R('0') <= c <= R('9') }

  /** isAlpha (lexer/lexer.go:57-76): the Cyrillic ranges а-я and А-Я, the
      eight letters ё ү е ө Ё Ү Е Ө, and lower-case Latin only. */
  predicate IsAlpha(c: int)
  {
    || (R('а') <= c <= R('я')) || (R('А') <= c <= R('Я'))
    || c == R('ё') || c == R('ү') || c == R('е') || c == R('ө')
    || c == R('Ё') || c == R('Ү') || c == R('Е') || c == R('Ө')
    || (R('a') <= c <= R('z'))
  }

  /** The runes of the first loop of BuildIdent (lexer/lexer.go:189). */
  predicate IsWordRune(c: int) { IsAlpha(c) || c == R('_') }

  lemma AlphaExcludesUpperLatinAndDigits(c: int)
    requires R('A') <= c <= R('Z') || IsDigit(c) || c == R('_') || c == 0
    ensures !IsAlpha(c)
  {
  }

  /** The four runs the scanner consumes rune by rune. */
  datatype Run = Digits | Word | Comment | StringBody

  predicate InRun(k: Run, c: int)
  {
    match k
    case Digits => IsDigit(c)
    case Word => IsWordRune(c)
    case Comment => c != 10 && c != 0
    case StringBody => c != R('"') && c != 0
  }

  /** The end of the maximal run of kind `k` from `i`; no run continues
      past the end of the slice, where the current rune is 0. */
  function RunEnd(src: seq<int>, i: nat, k: Run): (e: nat)
    requires i <= |src|
    ensures i <= e <= |src|
    ensures !InRun(k, At(src, e))
    decreases |src| - i
  {
    if i < |src| && InRun(k, src[i]) then RunEnd(src, i + 1, k) else i
  }

  /** Every rune the run passes belongs to it. */
  lemma {:induction false} RunEndAll(src: seq<int>, i: nat, k: Run)
    requires i <= |src|
    ensures forall j :: i <= j < RunEnd(src, i, k) ==> InRun(k, src[j])
    decreases |src| - i
  {
    if i < |src| && InRun(k, src[i]) {
      RunEndAll(src, i + 1, k);
    }
  }

  /** The number of line feeds in `s`. */
  function Newlines(s: seq<int>): nat
  {
    if s == [] then 0 else Newlines(s[..|s| - 1]) + (if s[|s| - 1] == 10 then 1 else 0)
  }

  lemma {:induction false} NoNewlines(s: seq<int>)
    requires forall j :: 0 <= j < |s| ==> s[j] != 10
    ensures Newlines(s) == 0
  {
    if s != [] {
      NoNewlines(s[..|s| - 1]);
    }
  }

  lemma {:induction false} NewlinesAppend(a: seq<int>, b: seq<int>)
    ensures Newlines(a + b) == Newlines(a) + Newlines(b)
  {
    if b != [] {
      assert (a + b)[..|a + b| - 1] == a + b[..|b| - 1];
      NewlinesAppend(a, b[..|b| - 1]);
    } else {
      assert a + b == a;
    }
  }

  // ---------------------------------------------------------------------
  // The cursor state and the pure specification of each step

  /** The fields of the scanner other than the source; `Current` is always
      `At(source, cursor)`. */
  datatype LexState = LexState(cursor: nat, start: nat, line: nat, column: nat)

  predicate Fits(src: seq<int>, st: LexState) { st.start <= st.cursor <= |src| }

  /** BuildToken (lexer/lexer.go:96-102, lexer/token.go:83-90): the span
      runs from `Start` to `Cursor`, and only identifiers, numbers and
      strings carry their text. */
  function MakeToken(src: seq<int>, kind: TokenType, st: LexState): (t: Token)
    requires Fits(src, st)
    ensures t.kind == kind && t.line == st.line && t.span == Span(st.start, st.cursor)
    ensures t.value.Some? <==> kind == IDENT || kind == NUMBER || kind == STRING
    ensures t.value.Some? ==> t.value.value == RunesToString(src[st.start..st.cursor])
  {
    var value := if kind == IDENT || kind == NUMBER || kind == STRING
      then Some(RunesToString(src[st.start..st.cursor])) else None;
    Token(kind, value, st.line, Span(st.start, st.cursor))
  }

  /** The keyword table that ToKeyword tries (lexer/lexer.go:104-178), with
      the spellings of lexer/keywords.go:7-27. */
  const Keywords: seq<(string, TokenType)> := [
    ("64тоо", LONG), ("extern", EXTERN), ("импорт", IMPORT), ("тунх", PUBLIC),
    ("үргэлжлүүл", CONTINUE), ("зогс", BREAK), ("хүртэл", UNTIL), ("давтах", WHILE),
    ("давт", LOOP), ("-с", FROM), ("үгүй", IFNOT), ("бол", IS), ("хэрэв", IF),
    ("функц", FN), ("зарла", VAR_DECL), ("тоо", INT_TYPE), ("хоосон", VOID), ("буц", RETURN)]

  /** The comparisons of ToKeyword in their order, from the entry `i`
      on; the second test for the function keyword (lexer/lexer.go:158-160)
      can never be reached, so it has no entry. */
  function KeywordFrom(s: string, i: nat): Option<TokenType>
    decreases |Keywords| - i
  {
    if i >= |Keywords| then None
    else if Keywords[i].0 == s then Some(Keywords[i].1)
    else KeywordFrom(s, i + 1)
  }

  /** The kind of the keyword spelled `s`, if any. */
  function KeywordKind(s: string): Option<TokenType>
  {
    KeywordFrom(s, 0)
  }

  /** What is found is an entry from `i` on. */
  lemma {:induction false} KeywordFromListed(s: string, i: nat)
    ensures KeywordFrom(s, i).Some? ==>
      exists k :: i <= k < |Keywords| && Keywords[k] == (s, KeywordFrom(s, i).value)
    decreases |Keywords| - i
  {
    if i < |Keywords| && Keywords[i].0 != s {
      KeywordFromListed(s, i + 1);
    }
  }

  /** An entry whose spelling no entry between `i` and it has is found. */
  lemma {:induction false} KeywordFromFinds(k: nat, i: nat)
    requires i <= k < |Keywords| && forall j :: i <= j < k ==> Keywords[j].0 != Keywords[k].0
    ensures KeywordFrom(Keywords[k].0, i) == Some(Keywords[k].1)
    decreases k - i
  {
    if i < k {
      KeywordFromFinds(k, i + 1);
    }
  }

  /** No two entries share a spelling. */
  lemma KeywordsDistinct()
    ensures forall i, j :: 0 <= i < j < |Keywords| ==> Keywords[i].0 != Keywords[j].0
  {
  }

  /** Every spelling of the table gives its own kind, whatever its place
      in the order. */
  lemma KeywordKindTable(k: nat)
    requires k < |Keywords|
    ensures KeywordKind(Keywords[k].0) == Some(Keywords[k].1)
  {
    KeywordsDistinct();
    KeywordFromFinds(k, 0);
  }

  /** Only the spellings of the table are keywords, and no keyword is an
      identifier, a number or a string. */
  lemma KeywordKindOnlyTable(s: string)
    ensures KeywordKind(s).Some? ==>
      exists k :: 0 <= k < |Keywords| && Keywords[k] == (s, KeywordKind(s).value)
    ensures KeywordKind(s).Some? ==> KeywordKind(s).value !in {IDENT, NUMBER, STRING, EOF}
  {
    KeywordFromListed(s, 0);
  }

  /** ToKeyword (lexer/lexer.go:104-178): the lexeme from `Start` to
      `Cursor` is a keyword exactly when it equals a spelling, and the
      token then carries no text. */
  function KeywordToken(src: seq<int>, st: LexState): (r: Option<Token>)
    requires Fits(src, st)
    ensures r.Some? <==> KeywordKind(RunesToString(src[st.start..st.cursor])).Some?
    ensures r.Some? ==> r.value == MakeToken(src, KeywordKind(RunesToString(src[st.start..st.cursor])).value, st)
  {
    var s := RunesToString(src[st.start..st.cursor]);
    match KeywordKind(s)
    case Some(kind) => Some(MakeToken(src, kind, st))
    case None => None
  }

  /** One pass of the loop of Skip (lexer/lexer.go:219-250): a line feed
      counts a line and resets the column, a space or a tab is passed, and
      `//` opens a comment that is consumed up to the line feed or the end.
      `None` is the `break`. */
  function SkipStep(src: seq<int>, st: LexState): (r: Option<LexState>)
    requires Fits(src, st)
    ensures r.Some? ==> Fits(src, r.value) && r.value.start == st.start && st.cursor < r.value.cursor
  {
    var i := st.cursor;
    var c := At(src, i);
    if c == 10 then Some(st.(cursor := i + 1, line := st.line + 1, column := 0))
    else if c == 32 || c == 9 then Some(st.(cursor := i + 1, column := st.column + 1))
    else if c == R('/') && i + 1 < |src| && src[i + 1] == R('/') then
      var e := RunEnd(src, i + 2, Comment);
      Some(st.(cursor := e, column := st.column + (e - i)))
    else None
  }

  /** Skip: the loop run until it breaks. */
  function Skipped(src: seq<int>, st: LexState): (r: LexState)
    requires Fits(src, st)
    ensures Fits(src, r) && r.start == st.start && st.cursor <= r.cursor
    decreases |src| - st.cursor
  {
    match SkipStep(src, st)
    case None => st
    case Some(next) => Skipped(src, next)
  }

  /** A position where Skip stops: not a line feed, space or tab, and not
      the start of a comment. */
  predicate SkipStop(src: seq<int>, i: nat)
  {
    var c := At(src, i);
    c != 10 && c != 32 && c != 9 && !(c == R('/') && i + 1 < |src| && src[i + 1] == R('/'))
  }

  /** The line and column after passing the runes `a` to `b`: every line
      feed counts a line, and the column counts the runes since the last
      line feed, or grows by the runes passed when there was none. */
  ghost predicate Tracks(src: seq<int>, a: nat, b: nat, from: LexState, to: LexState)
    requires a <= b <= |src|
  {
    && to.line == from.line + Newlines(src[a..b])
    && (|| (Newlines(src[a..b]) == 0 && to.column == from.column + (b - a))
        || (to.column < b - a && src[b - to.column - 1] == 10 && Newlines(src[b - to.column..b]) == 0))
  }

  lemma TracksCompose(src: seq<int>, a: nat, b: nat, c: nat, sa: LexState, sb: LexState, sc: LexState)
    requires a <= b <= c <= |src|
    requires Tracks(src, a, b, sa, sb) && Tracks(src, b, c, sb, sc)
    ensures Tracks(src, a, c, sa, sc)
  {
    assert src[a..c] == src[a..b] + src[b..c];
    NewlinesAppend(src[a..b], src[b..c]);
    if Newlines(src[b..c]) == 0 && sc.column == sb.column + (c - b)
      && !(Newlines(src[a..b]) == 0 && sb.column == sa.column + (b - a))
    {
      var k := b - sb.column;
      assert src[k..c] == src[k..b] + src[b..c];
      NewlinesAppend(src[k..b], src[b..c]);
    }
  }

  /** Each pass of the loop keeps the line and column in step with the
      runes it consumes (comment text holds no line feed). */
  lemma SkipStepTracks(src: seq<int>, st: LexState)
    requires Fits(src, st) && SkipStep(src, st).Some?
    ensures Tracks(src, st.cursor, SkipStep(src, st).value.cursor, st, SkipStep(src, st).value)
  {
    var i := st.cursor;
    var n := SkipStep(src, st).value;
    if At(src, i) == 10 || At(src, i) == 32 || At(src, i) == 9 {
      assert src[i..i + 1] == [src[i]];
      assert [src[i]][..0] == [];
      assert src[i + 1..i + 1] == [];
    } else {
      RunEndAll(src, i + 2, Comment);
      NoNewlines(src[i..n.cursor]);
    }
  }

  /** Skip stops at the first rune that is not blank and does not open a
      comment, and the line and column keep track of what it passed. */
  lemma {:induction false} SkippedSpec(src: seq<int>, st: LexState)
    requires Fits(src, st)
    ensures SkipStop(src, Skipped(src, st).cursor)
    ensures Tracks(src, st.cursor, Skipped(src, st).cursor, st, Skipped(src, st))
    decreases |src| - st.cursor
  {
    match SkipStep(src, st)
    case None =>
      assert src[st.cursor..st.cursor] == [];
    case Some(n) =>
      SkipStepTracks(src, st);
      SkippedSpec(src, n);
      TracksCompose(src, st.cursor, n.cursor, Skipped(src, st).cursor, st, n, Skipped(src, st));
  }

  /** The state once the first rune of a lexeme at `st.cursor` has been
      taken by Next (lexer/lexer.go:293-294). */
  function Began(src: seq<int>, st: LexState): (r: LexState)
    requires Fits(src, st) && st.cursor < |src|
    ensures Fits(src, r) && r.start == st.cursor && r.cursor == st.cursor + 1
  {
    st.(start := st.cursor, cursor := st.cursor + 1, column := st.column + 1)
  }

  /** BuildNumber (lexer/lexer.go:180-187). */
  function NumberSpec(src: seq<int>, st: LexState): (Token, LexState)
    requires Fits(src, st)
  {
    var e := RunEnd(src, st.cursor, Digits);
    var s2 := st.(cursor := e, column := st.column + (e - st.cursor));
    (MakeToken(src, NUMBER, s2), s2)
  }

  /** Where the two loops of BuildIdent (lexer/lexer.go:189-195) stop:
      letters and underscores, then digits. */
  function IdentEnd(src: seq<int>, st: LexState): (s2: LexState)
    requires Fits(src, st)
    ensures Fits(src, s2)
  {
    var w := RunEnd(src, st.cursor, Word);
    var e := RunEnd(src, w, Digits);
    st.(cursor := e, column := st.column + (e - st.cursor))
  }

  /** The keyword test of BuildIdent (lexer/lexer.go:196-202) on the
      lexeme that ends at `s2`. */
  function IdentToken(src: seq<int>, s2: LexState): Token
    requires Fits(src, s2)
  {
    match KeywordToken(src, s2)
    case Some(t) => t
    case None => MakeToken(src, IDENT, s2)
  }

  /** BuildIdent (lexer/lexer.go:188-203). */
  function IdentSpec(src: seq<int>, st: LexState): (Token, LexState)
    requires Fits(src, st)
  {
    var s2 := IdentEnd(src, st);
    (IdentToken(src, s2), s2)
  }

  /** BuildString (lexer/lexer.go:251-285) as written: it takes one more
      rune with Next before it starts looking for the closing quote
      (lexer/lexer.go:253), although Scan has already taken the opening
      one, so the first rune of the body is never tested. */
  function StringSpec(src: seq<int>, st: LexState): (Result<Token>, LexState)
    requires Fits(src, st) && st.start < st.cursor
  {
    var q := if st.cursor < |src| then st.cursor + 1 else st.cursor;
    var cq := if st.cursor < |src| then st.column + 1 else st.column;
    StringFrom(src, st.(cursor := q, column := cq))
  }

  /** The loop of BuildString and what follows it, from the cursor state
      `st` in which the search for the closing quote begins. */
  function StringFrom(src: seq<int>, st: LexState): (Result<Token>, LexState)
    requires Fits(src, st) && st.start < st.cursor
  {
    var e := RunEnd(src, st.cursor, StringBody);
    var line := st.line + Newlines(src[st.cursor..e]);
    var col := st.column + (e - st.cursor);
    if At(src, e) == 0 then
      (Err("unterminated string at line " + Decimal.NatToString(line)), st.(cursor := e, line := line, column := col))
    else
      var value := RunesToString(src[st.start + 1..e]);
      var s2 := st.(cursor := e + 1, line := line, column := col + 1);
      (Ok(MakeToken(src, STRING, s2).(value := Some(value))), s2)
  }

  /** The switch of Scan (lexer/lexer.go:307-392) on the rune `c` just
      taken and the current rune `n`: the kind, and whether `n` is taken
      too. `None` is the error of lexer/lexer.go:349-365 and :394-399. */
  function OperatorKind(c: int, n: int): Option<(TokenType, bool)>
  {
    if c == R('+') then Some((PLUS, false))
    else if c == R('-') then (if n == R('>') then Some((RIGHT_ARROW, true)) else Some((MINUS, false)))
    else if c == R('*') then Some((MUL, false))
    else if c == R('/') then Some((DIV, false))
    else if c == R('%') then Some((MOD, false))
    else if c == R('(') then Some((OPEN_PAREN, false))
    else if c == R(')') then Some((CLOSE_PAREN, false))
    else if c == R('{') then Some((OPEN_BRACE, false))
    else if c == R('}') then Some((CLOSE_BRACE, false))
    else if c == R(':') then Some((COLON, false))
    else if c == R(';') then Some((SEMICOLON, false))
    else if c == R('~') then Some((TILDE, false))
    else if c == R('?') then Some((QUESTIONMARK, false))
    else if c == R('!') then (if n == R('=') then Some((NOTEQUAL, true)) else Some((NOT, false)))
    else if c == R('&') then (if n == R('&') then Some((LOGICAND, true)) else None)
    else if c == R('|') then (if n == R('|') then Some((LOGICOR, true)) else None)
    else if c == R('=') then (if n == R('=') then Some((EQUALTO, true)) else Some((ASSIGN, false)))
    else if c == R('>') then (if n == R('=') then Some((GREATERTHANEQUAL, true)) else Some((GREATERTHAN, false)))
    else if c == R('<') then (if n == R('=') then Some((LESSTHANEQUAL, true)) else Some((LESSTHAN, false)))
    else if c == R(',') then Some((COMMA, false))
    else if c == R('.') then (if n == R('.') then Some((DOTDOT, true)) else Some((DOT, false)))
    else None
  }

  /** The pairs that form one two-rune operator. */
  predicate TwoRuneOperator(c: int, n: int)
  {
    || (c == R('-') && n == R('>')) || (c == R('!') && n == R('='))
    || (c == R('&') && n == R('&')) || (c == R('|') && n == R('|'))
    || (c == R('=') && n == R('=')) || (c == R('>') && n == R('='))
    || (c == R('<') && n == R('=')) || (c == R('.') && n == R('.'))
  }

  /** Two-rune operators win over one-rune ones: the second rune is taken
      exactly for the eight pairs; a lone `&` or `|` is an error, and so is
      every rune outside the switch. */
  lemma OperatorKindSpec(c: int, n: int)
    ensures OperatorKind(c, n).Some? && OperatorKind(c, n).value.1 <==> TwoRuneOperator(c, n)
    ensures OperatorKind(c, n).None? <==>
      ((c == R('&') || c == R('|')) && n != c) || c !in OneRuneOperators
    ensures OperatorKind(c, n).Some? ==> OperatorKind(c, n).value.0 !in {IDENT, NUMBER, STRING, EOF}
  {
  }

  /** The runes the switch of Scan has a case for. */
  const OneRuneOperators: set<int> :=
    {R('+'), R('-'), R('*'), R('/'), R('%'), R('('), R(')'), R('{'), R('}'), R(':'), R(';'),
     R('~'), R('?'), R('!'), R('&'), R('|'), R('='), R('>'), R('<'), R(','), R('.')}

  /** The error text of lexer/lexer.go:349-353, :360-364 and :394-398. */
  function OperatorError(c: int, st: LexState): string
  {
    "not implemented: got [" + [RuneChar(c)] + "] and line [" + Decimal.NatToString(st.line)
      + "] where [" + Decimal.NatToString(st.column) + "]"
  }

  /** The operator cases of Scan, from the state after the rune `c`. */
  function OperatorSpec(src: seq<int>, st: LexState, c: int): (Result<Token>, LexState)
    requires Fits(src, st)
  {
    match OperatorKind(c, At(src, st.cursor))
    case None => (Err(OperatorError(c, st)), st)
    case Some((kind, two)) =>
      var s2 := if two && st.cursor < |src| then st.(cursor := st.cursor + 1, column := st.column + 1) else st;
      (Ok(MakeToken(src, kind, s2)), s2)
  }

  /** The lexeme that begins with the rune `c` just taken, in the state
      `st` that Began leaves (lexer/lexer.go:295-399): a quote opens a
      string, a letter an identifier, a digit a number, and everything else
      goes to the operator switch. */
  function LexemeSpec(src: seq<int>, st: LexState, c: int): (Result<Token>, LexState)
    requires Fits(src, st) && st.start < st.cursor
  {
    if c == R('"') then StringSpec(src, st)
    else if IsAlpha(c) then var (t, s2) := IdentSpec(src, st); (Ok(t), s2)
    else if IsDigit(c) then var (t, s2) := NumberSpec(src, st); (Ok(t), s2)
    else OperatorSpec(src, st, c)
  }

  /** Scan once blanks and comments are skipped: at a 0 rune the EOF
      token, which keeps the old `Start` (lexer/lexer.go:289-291), and
      otherwise the lexeme of the rune at the cursor. */
  function ScanFrom(src: seq<int>, s: LexState): (Result<Token>, LexState)
    requires Fits(src, s)
  {
    if At(src, s.cursor) == 0 then (Ok(MakeToken(src, EOF, s)), s)
    else LexemeSpec(src, Began(src, s), src[s.cursor])
  }

  /** Scan (lexer/lexer.go:287-400) as a function of the source and the
      old cursor state. */
  function ScanSpec(src: seq<int>, st: LexState): (Result<Token>, LexState)
    requires Fits(src, st)
  {
    ScanFrom(src, Skipped(src, st))
  }

  // ---------------------------------------------------------------------
  // Lexical facts about Scan

  /** Scan skips blanks and comments, then decides by the first rune: a 0
      rune is the end of input, whose EOF token keeps the old `Start`; a
      quote opens a string, a letter an identifier, a digit a number, and
      everything else goes to the operator switch. */
  lemma ScanDispatch(src: seq<int>, st: LexState)
    requires Fits(src, st)
    ensures var s := Skipped(src, st); var p := s.cursor;
      && (At(src, p) == 0 ==> ScanSpec(src, st) == (Ok(MakeToken(src, EOF, s)), s))
      && (At(src, p) != 0 ==> p < |src| && Began(src, s).start == p)
      && (At(src, p) != 0 && src[p] == R('"') ==> ScanSpec(src, st) == StringSpec(src, Began(src, s)))
      && (At(src, p) != 0 && IsAlpha(src[p]) ==>
            ScanSpec(src, st) == (Ok(IdentSpec(src, Began(src, s)).0), IdentSpec(src, Began(src, s)).1))
      && (At(src, p) != 0 && IsDigit(src[p]) ==>
            ScanSpec(src, st) == (Ok(NumberSpec(src, Began(src, s)).0), NumberSpec(src, Began(src, s)).1))
      && (At(src, p) != 0 && src[p] != R('"') && !IsAlpha(src[p]) && !IsDigit(src[p]) ==>
            ScanSpec(src, st) == OperatorSpec(src, Began(src, s), src[p]))
  {
    var p := Skipped(src, st).cursor;
    if At(src, p) != 0 && IsAlpha(src[p]) {
      AlphaExcludes(src[p]);
    }
  }

  lemma AlphaExcludes(c: int)
    requires IsAlpha(c)
    ensures c != R('"') && !IsDigit(c) && c !in OneRuneOperators
  {
  }

  /** A number is the maximal digit run from its first digit, and carries
      its text. */
  lemma NumberSpecFacts(src: seq<int>, st: LexState)
    requires Fits(src, st)
    ensures var (t, s) := NumberSpec(src, st);
      && t.kind == NUMBER && t.span == Span(st.start, s.cursor) && s.start == st.start && st.cursor <= s.cursor
      && (forall j :: st.cursor <= j < s.cursor ==> IsDigit(src[j])) && !IsDigit(At(src, s.cursor))
      && t.value == Some(RunesToString(src[st.start..s.cursor]))
  {
    RunEndAll(src, st.cursor, Digits);
  }

  /** An identifier is its first letter, a run of letters and underscores,
      then a run of digits; it is the keyword whose spelling it equals, and
      otherwise an identifier carrying its text. */
  lemma IdentSpecFacts(src: seq<int>, st: LexState)
    requires Fits(src, st)
    ensures var (t, s) := IdentSpec(src, st);
      var w := RunEnd(src, st.cursor, Word);
      var text := RunesToString(src[st.start..s.cursor]);
      && t.span == Span(st.start, s.cursor) && s.start == st.start && s.cursor == RunEnd(src, w, Digits)
      && (forall j :: st.cursor <= j < w ==> IsWordRune(src[j]))
      && (forall j :: w <= j < s.cursor ==> IsDigit(src[j]))
      && !IsDigit(At(src, s.cursor))
      && (KeywordKind(text).Some? ==> t.kind == KeywordKind(text).value && t.value.None?)
      && (KeywordKind(text).None? ==> t.kind == IDENT && t.value == Some(text))
  {
    var w := RunEnd(src, st.cursor, Word);
    RunEndAll(src, st.cursor, Word);
    RunEndAll(src, w, Digits);
    KeywordKindOnlyTable(RunesToString(src[st.start..IdentSpec(src, st).1.cursor]));
  }

  /** A string literal closes at the first quote from where the search
      begins (lexer/lexer.go:253-259): its span covers both quotes, its text
      is what lies between them, and every line feed the loop passes counts
      a line. Reaching a 0 rune first is an error. */
  lemma StringFromFacts(src: seq<int>, st: LexState)
    requires Fits(src, st) && st.start < st.cursor
    ensures var (r, s) := StringFrom(src, st);
      var e := RunEnd(src, st.cursor, StringBody);
      && (r.Err? <==> At(src, e) == 0) && !r.Panic?
      && s.line == st.line + Newlines(src[st.cursor..e])
      && (r.Ok? ==>
          && src[e] == R('"') && r.value.kind == STRING && r.value.line == s.line
          && r.value.span == Span(st.start, e + 1) && s.cursor == e + 1
          && r.value.value == Some(RunesToString(src[st.start + 1..e]))
          && (forall j :: st.cursor <= j < e ==> src[j] != R('"') && src[j] != 0))
  {
    RunEndAll(src, st.cursor, StringBody);
  }

  /** StringFrom once the loop has stopped at `e` with the line and column
      `line` and `col`. */
  lemma StringFromCases(src: seq<int>, st: LexState, body: LexState)
    requires Fits(src, st) && st.start < st.cursor
    requires body == st.(cursor := RunEnd(src, st.cursor, StringBody), line := body.line, column := body.column)
    requires body.line == st.line + Newlines(src[st.cursor..body.cursor])
    requires body.column == st.column + (body.cursor - st.cursor)
    ensures At(src, body.cursor) == 0 ==>
      StringFrom(src, st) == (Err("unterminated string at line " + Decimal.NatToString(body.line)), body)
    ensures At(src, body.cursor) != 0 ==>
      var s2 := body.(cursor := body.cursor + 1, column := body.column + 1);
      StringFrom(src, st) == (Ok(MakeToken(src, STRING, s2).(value := Some(RunesToString(src[st.start + 1..body.cursor])))), s2)
  {
  }

  /** As written the search begins one rune after the rune following the
      opening quote, or at the end when there is none. */
  lemma StringSpecSkipsFirst(src: seq<int>, st: LexState, from: LexState)
    requires Fits(src, st) && st.start < st.cursor
    requires from == if st.cursor < |src| then st.(cursor := st.cursor + 1, column := st.column + 1) else st
    ensures Fits(src, from) && from.start < from.cursor
    ensures StringSpec(src, st) == StringFrom(src, from)
  {
  }

  /** Every other rune is an operator of the switch or an error; the
      second rune is taken exactly for a two-rune operator. */
  lemma OperatorSpecFacts(src: seq<int>, st: LexState, c: int)
    requires Fits(src, st)
    ensures var (r, s) := OperatorSpec(src, st, c);
      var n := At(src, st.cursor);
      && (r.Err? <==> OperatorKind(c, n).None?) && !r.Panic?
      && (r.Ok? ==>
          && r.value.kind == OperatorKind(c, n).value.0 && r.value.value.None?
          && r.value.span == Span(st.start, s.cursor)
          && s.cursor == (if TwoRuneOperator(c, n) then st.cursor + 1 else st.cursor))
  {
    OperatorKindSpec(c, At(src, st.cursor));
  }

  /** The kinds no scan produces: those whose spelling cannot start an
      identifier ("64тоо" starts with a digit and "-с" with a minus) and
      those the scanner has no case for. */
  const NeverScanned: set<TokenType> := {LONG, FROM, TO, PRINT, STATIC, STRING_TYPE, ERROR, NONE}

  lemma IdentNeverGives(src: seq<int>, st: LexState)
    requires Fits(src, st) && st.start < st.cursor && IsAlpha(src[st.start])
    ensures IdentSpec(src, st).0.kind !in NeverScanned
  {
    var e := IdentSpec(src, st).1.cursor;
    var text := RunesToString(src[st.start..e]);
    IdentSpecFacts(src, st);
    assert text[0] == RuneChar(src[st.start]);
    KeywordInitials(text);
  }

  /** Of the keywords only "64тоо" starts with a digit and only "-с" with
      a minus. */
  lemma KeywordInitials(s: string)
    requires |s| > 0 && s[0] != '6' && s[0] != '-'
    ensures KeywordKind(s) != Some(LONG) && KeywordKind(s) != Some(FROM)
    ensures KeywordKind(s).Some? ==> KeywordKind(s).value !in NeverScanned
  {
    KeywordFromListed(s, 0);
    if KeywordKind(s).Some? {
      var k :| 0 <= k < |Keywords| && Keywords[k] == (s, KeywordKind(s).value);
      assert k != 0 && k != 9 by {
        assert Keywords[0].0[0] == '6' && Keywords[9].0[0] == '-';
      }
      KeywordKindsScanned(k);
    }
  }

  /** Apart from LONG and FROM, the table holds no kind of NeverScanned. */
  lemma KeywordKindsScanned(k: nat)
    requires k < |Keywords| && k != 0 && k != 9
    ensures Keywords[k].1 !in NeverScanned
  {
  }

  lemma OperatorNeverGives(src: seq<int>, st: LexState, c: int)
    requires Fits(src, st)
    ensures OperatorSpec(src, st, c).0.Ok? ==> OperatorSpec(src, st, c).0.value.kind !in NeverScanned
  {
  }

  /** No scan produces a kind of `NeverScanned`. */
  lemma ScanNeverGives(src: seq<int>, st: LexState)
    requires Fits(src, st)
    ensures ScanSpec(src, st).0.Ok? ==> ScanSpec(src, st).0.value.kind !in NeverScanned
  {
    var s := Skipped(src, st);
    if At(src, s.cursor) != 0 {
      LexemeNeverGives(src, Began(src, s), src[s.cursor]);
    }
  }

  /** The same for each branch on the first rune `c` of a lexeme. */
  lemma LexemeNeverGives(src: seq<int>, st: LexState, c: int)
    requires Fits(src, st) && st.start < st.cursor && c == src[st.start]
    ensures LexemeSpec(src, st, c).0.Ok? ==> LexemeSpec(src, st, c).0.value.kind !in NeverScanned
  {
    if c == R('"') {
      var from := if st.cursor < |src| then st.(cursor := st.cursor + 1, column := st.column + 1) else st;
      StringSpecSkipsFirst(src, st, from);
      StringFromFacts(src, from);
    } else if IsAlpha(c) {
      IdentNeverGives(src, st);
    } else if !IsDigit(c) {
      OperatorNeverGives(src, st, c);
    }
  }

  /** Every scan moves the cursor forward, and strictly unless it gives
      the EOF token; once the EOF token is given, every later scan gives it
      again from the same state. */
  lemma ScanAdvances(src: seq<int>, st: LexState)
    requires Fits(src, st)
    ensures var (r, s) := ScanSpec(src, st);
      && Fits(src, s) && st.cursor <= s.cursor
      && (!(r.Ok? && r.value.kind == EOF) ==> st.cursor < s.cursor)
      && (r.Ok? && r.value.kind == EOF ==> ScanSpec(src, s) == (r, s))
  {
    var s := Skipped(src, st);
    if At(src, s.cursor) != 0 {
      LexemeAdvances(src, Began(src, s), src[s.cursor]);
    } else {
      assert SkipStep(src, s).None?;
    }
  }

  /** The same for each branch on the first rune `c` of a lexeme: no
      lexeme is the EOF token, and none moves the cursor back. */
  lemma LexemeAdvances(src: seq<int>, st: LexState, c: int)
    requires Fits(src, st) && st.start < st.cursor
    ensures var (r, s) := LexemeSpec(src, st, c);
      && Fits(src, s) && st.cursor <= s.cursor && !(r.Ok? && r.value.kind == EOF)
  {
    if c == R('"') {
      StringAdvances(src, st);
    } else if IsAlpha(c) {
      IdentKindScanned(src, st);
    } else if !IsDigit(c) {
      OperatorKindSpec(c, At(src, st.cursor));
    }
  }

  lemma StringAdvances(src: seq<int>, st: LexState)
    requires Fits(src, st) && st.start < st.cursor
    ensures var (r, s) := StringSpec(src, st);
      && Fits(src, s) && st.cursor <= s.cursor && !(r.Ok? && r.value.kind == EOF)
  {
    var from := if st.cursor < |src| then st.(cursor := st.cursor + 1, column := st.column + 1) else st;
    StringSpecSkipsFirst(src, st, from);
  }

  lemma IdentKindScanned(src: seq<int>, st: LexState)
    requires Fits(src, st)
    ensures IdentSpec(src, st).0.kind != EOF
  {
    KeywordKindOnlyTable(RunesToString(src[st.start..IdentEnd(src, st).cursor]));
  }

  // ---------------------------------------------------------------------
  // The string literal the code evidently intends

  /** The search for the closing quote started right after the opening
      one, as the body is meant to be read. */
  function StringSpecIntended(src: seq<int>, st: LexState): (Result<Token>, LexState)
    requires Fits(src, st) && st.start < st.cursor
  {
    StringFrom(src, st)
  }

  /** With the search started after the opening quote, the text is
      exactly the runes between the two quotes, none of which is a quote,
      and every line feed among them counts a line. */
  lemma StringIntendedSpec(src: seq<int>, st: LexState)
    requires Fits(src, st) && st.cursor == st.start + 1 && src[st.start] == R('"')
    ensures var (r, s) := StringSpecIntended(src, st);
      var e := RunEnd(src, st.cursor, StringBody);
      && (r.Ok? <==> At(src, e) == R('"'))
      && (r.Ok? ==>
          && r.value.value == Some(RunesToString(src[st.start + 1..e]))
          && (forall j :: st.start < j < e ==> src[j] != R('"'))
          && r.value.span == Span(st.start, e + 1)
          && s.line == st.line + Newlines(src[st.start + 1..e]))
  {
    StringFromFacts(src, st);
  }

  /** As written, the empty literal `""` does not close: its closing quote
      is taken as the first body rune, and the search runs on to the end. */
  lemma EmptyStringAsWritten()
    ensures StringSpec([R('"'), R('"'), 0], LexState(1, 0, 1, 1)).0.Err?
  {
    var src := [R('"'), R('"'), 0];
    var from := LexState(2, 0, 1, 2);
    StringSpecSkipsFirst(src, LexState(1, 0, 1, 1), from);
    assert RunEnd(src, 2, StringBody) == 2;
    StringFromFacts(src, from);
  }

  /** The intended reading of `""` gives the empty string. */
  lemma EmptyStringIntended()
    ensures StringSpecIntended([R('"'), R('"'), 0], LexState(1, 0, 1, 1)).0 ==
      Ok(Token(STRING, Some(""), 1, Span(0, 2)))
  {
    var src := [R('"'), R('"'), 0];
    var st := LexState(1, 0, 1, 1);
    assert RunEnd(src, 1, StringBody) == 1;
    assert src[1..1] == [];
    assert Newlines(src[1..1]) == 0 && RunesToString(src[1..1]) == "";
    StringFromFacts(src, st);
    var (r, s) := StringFrom(src, st);
    assert r.Ok? && s.line == 1;
  }

  /** As written, a line feed right after the opening quote is not
      counted. */
  lemma FirstNewlineUncounted()
    ensures StringSpec([R('"'), 10, R('"'), 0], LexState(1, 0, 1, 1)).1.line == 1
    ensures StringSpecIntended([R('"'), 10, R('"'), 0], LexState(1, 0, 1, 1)).1.line == 2
  {
    var src := [R('"'), 10, R('"'), 0];
    StringSpecSkipsFirst(src, LexState(1, 0, 1, 1), LexState(2, 0, 1, 2));
    StringFromLine(src, LexState(2, 0, 1, 2), 2);
    StringFromLine(src, LexState(1, 0, 1, 1), 2);
    assert Newlines(src[1..2]) == 1 by { assert src[1..2][..0] == []; }
  }

  /** The line StringFrom ends on, given where its loop stops. */
  lemma StringFromLine(src: seq<int>, st: LexState, e: nat)
    requires Fits(src, st) && st.start < st.cursor && e == RunEnd(src, st.cursor, StringBody)
    ensures StringFrom(src, st).1.line == st.line + Newlines(src[st.cursor..e])
  {
  }

  // ---------------------------------------------------------------------
  // The scanner

  /** The map a pool holds after `v` is interned. */
  function Interned(m: map<string, nat>, count: nat, v: string): map<string, nat>
  {
    if v in m then m else m[v := count]
  }

  /** Scanner (lexer/lexer.go:10-27). `Current` is the rune at the cursor,
      or 0 once the cursor has passed the end. */
  class Scanner {
    var source: seq<int>
    var cursor: nat
    var start: nat
    var current: int
    var line: nat
    var column: nat

    ghost predicate Valid()
      reads this
    {
      start <= cursor <= |source| && current == At(source, cursor)
    }

    function State(): LexState
      reads this
    {
      LexState(cursor, start, line, column)
    }

    /** NewScanner (lexer/lexer.go:29-37). Go indexes `source[0]`, so an
        empty slice is refused. */
    constructor (source: seq<int>)
      requires |source| > 0
      ensures Valid()
      ensures this.source == source && cursor == 0 && start == 0 && current == source[0]
      ensures line == 1 && column == 0
    {
      this.source := source;
      cursor := 0;
      start := 0;
      current := source[0];
      line := 1;
      column := 0;
    }

    /** Peek (lexer/lexer.go:92-94): the rune at the cursor. */
    function Peek(): (c: int)
      reads this
      requires Valid()
      ensures c == At(source, cursor)
    {
      current
    }

    /** isAtEnd (lexer/lexer.go:205-210): the current rune is 0, which is
        true past the end and at any 0 rune inside the slice. */
    predicate IsAtEnd()
      reads this
      requires Valid()
      ensures IsAtEnd() <==> cursor == |source| || source[cursor] == 0
    {
      current == 0
    }

    /** Next (lexer/lexer.go:77-91): returns the current rune and moves
        past it; past the end it returns 0 and moves nothing. */
    method Next() returns (prev: int)
      requires Valid()
      modifies this
      ensures Valid() && source == old(source) && start == old(start) && line == old(line)
      ensures prev == old(current)
      ensures old(cursor) < |source| ==> cursor == old(cursor) + 1 && column == old(column) + 1
      ensures old(cursor) >= |source| ==> cursor == old(cursor) && column == old(column)
    {
      if cursor >= |source| {
        current := 0;
        return 0;
      }
      prev := source[cursor];
      cursor := cursor + 1;
      column := column + 1;
      if cursor < |source| {
        current := source[cursor];
      } else {
        current := 0;
      }
    }

    /** Skip (lexer/lexer.go:219-250). */
    method Skip()
      requires Valid()
      modifies this
      ensures Valid() && source == old(source)
      ensures State() == Skipped(source, old(State()))
    {
      ghost var target := Skipped(source, State());
      while true
        invariant Valid() && source == old(source) && start == old(start)
        invariant Skipped(source, State()) == target
        decreases |source| - cursor
      {
        ghost var prev := State();
        if current == 10 {
          var _ := Next();
          line := line + 1;
          column := 0;
          assert SkipStep(source, prev) == Some(State());
          continue;
        }
        if current == 32 || current == 9 {
          var _ := Next();
          assert SkipStep(source, prev) == Some(State());
          continue;
        }
        if current == R('/') && cursor + 1 < |source| && source[cursor + 1] == R('/') {
          SkipComment();
          assert SkipStep(source, prev) == Some(State());
          continue;
        }
        assert SkipStep(source, prev).None?;
        break;
      }
    }

    /** The comment branch of Skip (lexer/lexer.go:238-246): both slashes,
        then everything up to the line feed or the end. */
    method SkipComment()
      requires Valid() && cursor + 1 < |source| && source[cursor] == R('/') && source[cursor + 1] == R('/')
      modifies this
      ensures Valid() && source == old(source) && start == old(start) && line == old(line)
      ensures cursor == RunEnd(source, old(cursor) + 2, Comment)
      ensures column == old(column) + (cursor - old(cursor))
    {
      var _ := Next();
      var _ := Next();
      while current != 10 && current != 0
        invariant Valid() && source == old(source) && start == old(start) && line == old(line)
        invariant old(cursor) + 2 <= cursor
        invariant RunEnd(source, cursor, Comment) == RunEnd(source, old(cursor) + 2, Comment)
        invariant column == old(column) + (cursor - old(cursor))
        decreases |source| - cursor
      {
        var _ := Next();
      }
    }

    /** The loops of BuildNumber and BuildIdent (lexer/lexer.go:181-184,
        :189-195): Next while the current rune belongs to the run. */
    method ConsumeRun(k: Run)
      requires Valid()
      modifies this
      ensures Valid() && source == old(source) && start == old(start) && line == old(line)
      ensures cursor == RunEnd(source, old(cursor), k)
      ensures column == old(column) + (cursor - old(cursor))
    {
      while InRun(k, current)
        invariant Valid() && source == old(source) && start == old(start) && line == old(line)
        invariant old(cursor) <= cursor && RunEnd(source, cursor, k) == RunEnd(source, old(cursor), k)
        invariant column == old(column) + (cursor - old(cursor))
        decreases |source| - cursor
      {
        var _ := Next();
      }
    }

    /** BuildNumber (lexer/lexer.go:180-187); its error is always nil. */
    method BuildNumber() returns (t: Token)
      requires Valid()
      modifies this
      ensures Valid() && source == old(source)
      ensures (t, State()) == NumberSpec(source, old(State()))
    {
      ConsumeRun(Digits);
      t := MakeToken(source, NUMBER, State());
    }

    /** BuildIdent (lexer/lexer.go:188-203); its error is always nil. */
    method BuildIdent() returns (t: Token)
      requires Valid()
      modifies this
      ensures Valid() && source == old(source)
      ensures (t, State()) == IdentSpec(source, old(State()))
    {
      ConsumeRun(Word);
      ConsumeRun(Digits);
      assert State() == IdentEnd(source, old(State()));
      var keyword := KeywordToken(source, State());
      if keyword.Some? {
        return keyword.value;
      }
      t := MakeToken(source, IDENT, State());
    }

    /** The loop of BuildString (lexer/lexer.go:254-259): every line feed
        it passes counts a line. */
    method ConsumeStringBody()
      requires Valid()
      modifies this
      ensures Valid() && source == old(source) && start == old(start)
      ensures cursor == RunEnd(source, old(cursor), StringBody)
      ensures line == old(line) + Newlines(source[old(cursor)..cursor])
      ensures column == old(column) + (cursor - old(cursor))
    {
      while current != R('"') && current != 0
        invariant Valid() && source == old(source) && start == old(start)
        invariant old(cursor) <= cursor
        invariant RunEnd(source, cursor, StringBody) == RunEnd(source, old(cursor), StringBody)
        invariant line == old(line) + Newlines(source[old(cursor)..cursor])
        invariant column == old(column) + (cursor - old(cursor))
        decreases |source| - cursor
      {
        assert source[old(cursor)..cursor + 1][..cursor - old(cursor)] == source[old(cursor)..cursor];
        if current == 10 {
          line := line + 1;
        }
        var _ := Next();
      }
    }

    /** BuildString (lexer/lexer.go:251-285): the literal is read, and its
        text is interned in the string pool (lexer/lexer.go:278). */
    method BuildString(pool: StringPool) returns (r: Result<Token>)
      requires Valid() && start < cursor && pool.Valid()
      modifies this, pool
      ensures Valid() && source == old(source) && pool.Valid()
      ensures (r, State()) == StringSpec(source, old(State()))
      ensures r.Ok? ==> r.value.value.Some?
      ensures r.Ok? ==> pool.strings == Interned(old(pool.strings), old(pool.stringCount), r.value.value.value)
      ensures !r.Ok? ==> pool.strings == old(pool.strings) && pool.stringCount == old(pool.stringCount)
    {
      r := ReadString();
      if r.Ok? {
        var _ := pool.Intern(r.value.value.value);
      }
    }

    /** BuildString apart from the pool: the extra Next, the loop, the
        error at the end of input, and the closing quote. */
    method ReadString() returns (r: Result<Token>)
      requires Valid() && start < cursor
      modifies this
      ensures Valid() && source == old(source)
      ensures (r, State()) == StringSpec(source, old(State()))
      ensures r.Ok? ==> r.value.value.Some?
    {
      var _ := Next();
      StringSpecSkipsFirst(source, old(State()), State());
      r := ReadStringFrom();
    }

    /** The loop of BuildString and what follows it. */
    method ReadStringFrom() returns (r: Result<Token>)
      requires Valid() && start < cursor
      modifies this
      ensures Valid() && source == old(source)
      ensures (r, State()) == StringFrom(source, old(State()))
      ensures r.Ok? ==> r.value.value.Some?
    {
      var tokenStart := start;
      ConsumeStringBody();
      StringFromCases(source, old(State()), State());
      if current == 0 {
        return Err("unterminated string at line " + Decimal.NatToString(line));
      }
      var strValue := RunesToString(source[tokenStart + 1..cursor]);
      var _ := Next();
      start := tokenStart;
      var token := MakeToken(source, STRING, State());
      token := token.(value := Some(strValue));
      return Ok(token);
    }

    /** The operator switch of Scan (lexer/lexer.go:307-399). */
    method ScanOperatorRune(c: int) returns (r: Result<Token>)
      requires Valid()
      modifies this
      ensures Valid() && source == old(source)
      ensures (r, State()) == OperatorSpec(source, old(State()), c)
    {
      var op := OperatorKind(c, current);
      if op.None? {
        return Err(OperatorError(c, State()));
      }
      if op.value.1 {
        var _ := Next();
      }
      r := Ok(MakeToken(source, op.value.0, State()));
    }

    /** Scan (lexer/lexer.go:287-400). */
    method Scan(pool: StringPool) returns (r: Result<Token>)
      requires Valid() && pool.Valid()
      modifies this, pool
      ensures Valid() && source == old(source) && pool.Valid()
      ensures (r, State()) == ScanSpec(source, old(State()))
      ensures pool.strings == old(pool.strings) || (r.Ok? && r.value.kind == STRING)
    {
      Skip();
      r := ScanSkipped(pool);
    }

    /** Scan after its call to Skip (lexer/lexer.go:289-294). */
    method ScanSkipped(pool: StringPool) returns (r: Result<Token>)
      requires Valid() && pool.Valid()
      modifies this, pool
      ensures Valid() && source == old(source) && pool.Valid()
      ensures (r, State()) == ScanFrom(source, old(State()))
      ensures pool.strings == old(pool.strings) || (r.Ok? && r.value.kind == STRING)
    {
      if current == 0 {
        return Ok(MakeToken(source, EOF, State()));
      }
      start := cursor;
      var c := Next();
      assert State() == Began(source, old(State()));
      r := ScanLexeme(pool, c);
    }

    /** The branches of Scan on the rune `c` it has taken
        (lexer/lexer.go:295-399). */
    method ScanLexeme(pool: StringPool, c: int) returns (r: Result<Token>)
      requires Valid() && start < cursor && pool.Valid()
      modifies this, pool
      ensures Valid() && source == old(source) && pool.Valid()
      ensures (r, State()) == LexemeSpec(source, old(State()), c)
      ensures pool.strings == old(pool.strings) || (r.Ok? && r.value.kind == STRING)
    {
      if c == R('"') {
        r := BuildString(pool);
        return;
      }
      if IsAlpha(c) {
        var t := BuildIdent();
        return Ok(t);
      }
      if IsDigit(c) {
        var t := BuildNumber();
        return Ok(t);
      }
      r := ScanOperatorRune(c);
    }
  }
}
