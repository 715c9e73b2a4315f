// errors/errors.go: a compiler diagnostic with its source position, and
// its rendering as a header, the source line that holds the span, a caret
// pointer under the span, and the message. The same rendering, without the
// module name, is ParseError.Error of gov/parser/parse.go:20-53.
module Diagnostics {
  import opened Wrappers
  import opened GoLexer
  import Decimal

  /** CompilerError (errors/errors.go:12-18). */
  datatype CompilerError = CompilerError(message: string, line: int, span: Span, source: seq<int>, moduleName: string)

  /** New (errors/errors.go:21-29) stores every field as given. */
  function New(message: string, line: int, span: Span, source: seq<int>, moduleName: string): (e: CompilerError)
    ensures e.message == message && e.line == line && e.span == span
    ensures e.source == source && e.moduleName == moduleName
  {
    CompilerError(message, line, span, source, moduleName)
  }

  const LF: int := 10

  // ---------------------------------------------------------------------
  // findLineBoundaries (errors/errors.go:48-66)

  /** The loop of findLineBoundaries from index `i`, with `start` found so
      far: every line feed before the span moves `start` past it, and the
      first line feed at or after the span's end stops the loop as `end`.
      When the loop runs out, `end` is still 0. */
  function BoundsFrom(src: seq<int>, span: Span, i: nat, start: int): (int, int)
    requires i <= |src|
    decreases |src| - i
  {
    if i == |src| then (start, 0)
    else if src[i] == LF then
      var start' := if i < span.start then i + 1 else start;
      if i >= span.end then (start', i) else BoundsFrom(src, span, i + 1, start')
    else BoundsFrom(src, span, i + 1, start)
  }

  /** The pair findLineBoundaries returns: an `end` of 0 (no line feed
      found, or one found at index 0) becomes the length of the source. */
  function LineBounds(src: seq<int>, span: Span): (int, int)
  {
    var (s, e) := BoundsFrom(src, span, 0, 0);
    (s, if e == 0 then |src| else e)
  }

  method FindLineBoundaries(e: CompilerError) returns (start: int, end: int)
    ensures (start, end) == LineBounds(e.source, e.span)
  {
    start := 0;
    end := 0;
    var i := 0;
    while i < |e.source|
      invariant 0 <= i <= |e.source| && end == 0
      invariant BoundsFrom(e.source, e.span, i, start) == BoundsFrom(e.source, e.span, 0, 0)
    {
      if e.source[i] == LF {
        if i < e.span.start {
          start := i + 1;
        }
        if i >= e.span.end {
          end := i;
          break;
        }
      }
      i := i + 1;
    }
    if end == 0 {
      end := |e.source|;
    }
  }

  /** For a span that does not run backwards, the line starts one past the
      last line feed before the span (or at 0), and ends at the first line
      feed at or after the span's end (or at the end of the source) —
      except that a line feed found at index 0 is taken for "none". */
  lemma LineBoundsSpec(src: seq<int>, span: Span)
    requires 0 <= span.start <= span.end
    ensures var (s, e) := LineBounds(src, span);
      && 0 <= s <= span.start && s <= |src|
      && (s == 0 || src[s - 1] == LF)
      && (forall k :: s <= k < span.start && k < |src| ==> src[k] != LF)
      && e <= |src|
      && (e == |src| || (0 < e && span.end <= e && src[e] == LF))
      && ((forall k :: span.end <= k < e ==> src[k] != LF) || (span.end == 0 && src[0] == LF))
  {
    BoundsFromSpec(src, span, 0, 0);
  }

  lemma {:induction false} BoundsFromSpec(src: seq<int>, span: Span, i: nat, st: int)
    requires 0 <= span.start <= span.end && i <= |src|
    requires st == 0 || (0 < st <= i && st - 1 < span.start && src[st - 1] == LF)
    requires forall k :: st <= k < i && k < span.start ==> src[k] != LF
    requires forall k :: span.end <= k < i ==> src[k] != LF
    ensures var (s, e) := BoundsFrom(src, span, i, st);
      && (s == 0 || (0 < s <= |src| && s - 1 < span.start && src[s - 1] == LF))
      && (forall k :: s <= k < span.start && k < |src| ==> src[k] != LF)
      && ((e == 0 && forall k :: span.end <= k < |src| ==> src[k] != LF)
          || (span.end <= e < |src| && src[e] == LF && forall k :: span.end <= k < e ==> src[k] != LF))
    decreases |src| - i
  {
    if i < |src| {
      if src[i] == LF {
        var st' := if i < span.start then i + 1 else st;
        if i < span.end {
          BoundsFromSpec(src, span, i + 1, st');
        }
      } else {
        BoundsFromSpec(src, span, i + 1, st);
      }
    }
  }

  // ---------------------------------------------------------------------
  // createErrorPointer and Error (errors/errors.go:32-45, :69-72)

  /** strings.Repeat of one character. */
  function Repeat(c: char, n: nat): (s: string)
    ensures |s| == n && forall k :: 0 <= k < n ==> s[k] == c
  {
    if n == 0 then "" else [c] + Repeat(c, n - 1)
  }

  /** createErrorPointer: spaces up to the span, then one caret per rune
      of the span. strings.Repeat panics on a negative count. */
  function ErrorPointer(span: Span, lineStart: int): Result<string>
  {
    if span.start - lineStart < 0 || span.end - span.start < 0 then Panic("strings: negative Repeat count")
    else Ok(Repeat(' ', span.start - lineStart) + Repeat('^', span.end - span.start))
  }

  /** The pointer exists exactly for a span that starts on or after the
      line and does not run backwards; it is as long as the line up to the
      span's end, with carets exactly under the span. */
  lemma ErrorPointerShape(span: Span, lineStart: int)
    ensures ErrorPointer(span, lineStart).Ok? <==> lineStart <= span.start <= span.end
    ensures ErrorPointer(span, lineStart).Ok? ==>
      var p := ErrorPointer(span, lineStart).value;
      && |p| == span.end - lineStart
      && forall k :: 0 <= k < |p| ==> (p[k] == '^' <==> span.start - lineStart <= k) && (p[k] == ' ' || p[k] == '^')
  {
  }

  /** The four lines after the header line's text: the source line, the
      pointer, and the message. Slicing panics when the bounds cross. */
  function RenderWith(header: string, span: Span, source: seq<int>, message: string): Result<string>
  {
    var (s, e) := LineBounds(source, span);
    if !(0 <= s <= e <= |source|) then Panic("slice bounds out of range")
    else
      var pointer :- ErrorPointer(span, s);
      Ok(FourLines(header, RunesToString(source[s..e]), pointer, MessageLine(message)))
  }

  /** Four lines, each ended by a line feed. */
  function FourLines(a: string, b: string, c: string, d: string): string
  {
    a + "\n" + b + "\n" + c + "\n" + d + "\n"
  }

  function MessageLine(message: string): string
  {
    "Алдааны мессеж: " + message
  }

  /** The header of Error: the module in brackets and the line number. */
  function Header(e: CompilerError): string
  {
    "[" + e.moduleName + "] " + Decimal.IntToString(e.line) + "-р мөрөнд алдаа гарлаа:"
  }

  /** The text Error returns. */
  function Rendered(e: CompilerError): Result<string>
  {
    RenderWith(Header(e), e.span, e.source, e.message)
  }

  /** Error (errors/errors.go:32-45). */
  method ErrorText(e: CompilerError) returns (r: Result<string>)
    ensures r == Rendered(e)
  {
    var lineStart, lineEnd := FindLineBoundaries(e);
    if !(0 <= lineStart <= lineEnd <= |e.source|) {
      return Panic("slice bounds out of range");
    }
    var lineContent := RunesToString(e.source[lineStart..lineEnd]);
    var pointer := ErrorPointer(e.span, lineStart);
    if pointer.Panic? {
      return Panic(pointer.reason);
    }
    return Ok(FourLines(Header(e), lineContent, pointer.value, MessageLine(e.message)));
  }

  /** For a span inside the source that stays on one line, Error prints
      four lines, in order: the header, the whole source line that holds
      the span, the pointer with its carets under the span, and the
      message. None of the four holds a line feed of its own, unless the
      module name or the message brings one. */
  lemma ErrorFourLines(e: CompilerError)
    requires 0 <= e.span.start <= e.span.end <= |e.source|
    requires forall k :: e.span.start <= k < e.span.end ==> e.source[k] != LF
    requires !(e.span.end == 0 && 0 < |e.source| && e.source[0] == LF)
    ensures Rendered(e).Ok?
    ensures var (s, en) := LineBounds(e.source, e.span);
      && s <= e.span.start && e.span.end <= en
      && Rendered(e).value
         == FourLines(Header(e), RunesToString(e.source[s..en]), ErrorPointer(e.span, s).value, MessageLine(e.message))
      && '\n' !in RunesToString(e.source[s..en]) && '\n' !in ErrorPointer(e.span, s).value
      && ('\n' !in e.moduleName ==> '\n' !in Header(e))
  {
    var (s, en) := LineBounds(e.source, e.span);
    LineBoundsSpec(e.source, e.span);
    ErrorPointerShape(e.span, s);
    LineHasNoFeed(e, s, en);
    if '\n' !in e.moduleName {
      HeaderHasNoFeed(e);
    }
  }

  lemma LineHasNoFeed(e: CompilerError, s: int, en: int)
    requires 0 <= e.span.start <= e.span.end <= |e.source|
    requires forall k :: e.span.start <= k < e.span.end ==> e.source[k] != LF
    requires !(e.span.end == 0 && 0 < |e.source| && e.source[0] == LF)
    requires (s, en) == LineBounds(e.source, e.span)
    ensures 0 <= s <= e.span.start && e.span.end <= en <= |e.source|
    ensures '\n' !in RunesToString(e.source[s..en])
  {
    LineBoundsSpec(e.source, e.span);
    var content := RunesToString(e.source[s..en]);
    forall k | 0 <= k < |content|
      ensures content[k] != '\n'
    {
      assert e.source[s + k] != LF;
    }
  }

  lemma HeaderHasNoFeed(e: CompilerError)
    requires '\n' !in e.moduleName
    ensures '\n' !in Header(e)
  {
    Decimal.NatToStringRoundTrip(if e.line < 0 then -e.line else e.line);
  }

  // ---------------------------------------------------------------------
  // Semantic analysis messages (errors/errors.go:93-101), with the `%s`
  // verb filled in

  /** What stops a semantic pass: a CompilerError, another Go error value
      (from fmt.Errorf), or a panic. */
  datatype Cause =
    | Semantic(error: CompilerError)
    | Plain(message: string)
    | Crash(reason: string)

  /** The result of checking or resolving an expression, which changes no
      pass state. */
  datatype Attempt<T> = Success(value: T) | Failure(cause: Cause)

  /** Puts the already handled nodes `p` in front of the rest. */
  function PrependAttempt<T>(p: seq<T>, a: Attempt<seq<T>>): Attempt<seq<T>>
  {
    if a.Failure? then a else Success(p + a.value)
  }

  lemma PrependAttemptNothing<T>(a: Attempt<seq<T>>)
    ensures PrependAttempt([], a) == a
  {
    if a.Success? {
      assert [] + a.value == a.value;
    }
  }

  /** The module name the semantic passes report under. */
  const SemanticModule := "Семантик шинжилгээ"

  function DuplicateVariable(x: string): string { "хувьсагч '" + x + "' нь давхардсан байна" }
  function DuplicateFnDecl(x: string): string { "функц '" + x + "' нь давхардсан байна" }
  function InvalidAssignment(x: string): string
  {
    "хувьсагчид утга оноох үед зүүн талд хувьсагч байх ёстой, олдсон: '" + x + "'"
  }
  function FnDeclInsideFnDecl(x: string): string { "функц дотор функц үүсгэж болохгүй: '" + x + "'" }
  function UndeclaredVariable(x: string): string { "хувьсагч '" + x + "'-г зарлаагүй байна" }
  function NotDeclaredFnCall(x: string): string { "функц '" + x + "'-г зарлаагүй байна" }
  function UnknownExpression(x: string): string { "илэрхийллийн төрөл тодорхойгүй байна: '" + x + "'" }
}
