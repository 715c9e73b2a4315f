// gov/parser/parse.go: the recursive-descent parser of the Go front end,
// with precedence climbing for binary operators, reading the tokens of the
// lexer/lexer.go scanner through a two-token window (Current, PeekToken).
//
// What each method of the `Parser` class does is specified by a function of
// the token stream the scanner gives for the source and of the parser state
// before the call (`ExprSpec`, `StmtSpec`, ...); every such function returns
// the value and the state after it. A Go panic is a `Panicked` result, and
// the state it carries is the state at the panic. The grammar facts are
// lemmas about these functions, in module GoParserFacts.
module GoParser {
  import opened Wrappers
  import opened GoLexer
  import opened StringPool
  import opened ParseErrors
  import Decimal
  import Ast

  // ---------------------------------------------------------------------
  // The tree parse.go builds

  /** The expressions. `NoExpr` is a nil ASTExpression, which ParseFactor
      returns after an unknown token. */
  datatype Expr =
    | NoExpr
    | Var(ident: string)
    | Constant(token: Token, value: int)
    | Unary(unaryOp: TokenType, inner: Expr)
    | Binary(left: Expr, right: Expr, binOp: int)
    | Assignment(target: string, right: Expr)
    | Conditional(cond: Expr, thenExpr: Expr, elseExpr: Expr)

  /** The statements. A parse that fails returns a nil pointer of its own
      type (`FailedExpressionStmt`, `FailedIf`, `FailedReturn`), which is
      still a non-nil interface value; `NoStmt` is a nil interface, the
      else branch of an `if` that has none. */
  datatype Stmt =
    | NoStmt
    | ExpressionStmt(expression: Expr)
    | FailedExpressionStmt
    | IfStmt(cond: Expr, thenStmt: Stmt, elseStmt: Stmt)
    | FailedIf
    | ReturnStmt(token: Token, returnValue: Expr)
    | FailedReturn

  /** A declaration; `expr` is `NoExpr` when there is no initializer. */
  datatype Decl = Decl(ident: string, expr: Expr) | FailedDecl

  datatype BlockItem = DeclItem(decl: Decl) | StmtItem(stmt: Stmt)

  datatype FnDef = FnDef(token: Token, items: seq<BlockItem>)

  datatype Program = Program(fnDef: FnDef)

  /** ParseError (gov/parser/parse.go:13-18). */
  datatype ParseError = ParseError(message: string, line: int, span: Span, source: seq<int>)

  /** What ParseProgram returns: the program, or the first error. */
  datatype Outcome = Accepted(program: Program) | Rejected(first: ParseError)

  /** A parse function runs to its end or panics; none of them returns a
      Go error value. */
  datatype Parsed<T> = Done(value: T) | Panicked(reason: string)

  const NilDereference := "runtime error: invalid memory address or nil pointer dereference"

  // ---------------------------------------------------------------------
  // Precedences (gov/parser/parse.go:364-394) and operators

  const Lowest := 1
  const PrecAssign := 2
  const PrecConditional := 3
  const LogicOr := 4
  const LogicAnd := 5
  const Equals := 6
  const Compare := 7
  const Sum := 8
  const Product := 9

  /** The `precedences` table, with Lowest for a kind it lacks, as
      currPrecedence and peekPrecedence read it. */
  function Precedence(t: TokenType): int
  {
    match t
    case PLUS => Sum
    case MINUS => Sum
    case DIV => Product
    case MUL => Product
    case LESSTHAN => Compare
    case LESSTHANEQUAL => Compare
    case GREATERTHAN => Compare
    case GREATERTHANEQUAL => Compare
    case EQUALTO => Equals
    case NOTEQUAL => Equals
    case LOGICAND => LogicAnd
    case LOGICOR => LogicOr
    case QUESTIONMARK => PrecConditional
    case ASSIGN => PrecAssign
    case _ => Lowest
  }

  /** IsInfixOp (gov/parser/parse.go:353-362), on the kind of PeekToken. */
  predicate IsInfixOp(t: TokenType)
  {
    t == PLUS || t == MINUS || t == MUL || t == DIV
    || t == LESSTHAN || t == LESSTHANEQUAL || t == GREATERTHAN || t == GREATERTHANEQUAL
    || t == EQUALTO || t == NOTEQUAL || t == LOGICAND || t == LOGICOR
    || t == ASSIGN || t == QUESTIONMARK || t == COLON
  }

  /** ParseBinOp (gov/parser/parse.go:447-480): the operator code of the
      current kind, on the codes of parser/ast_expr.go; any other kind
      gives `A_PLUS` with an error message. */
  function BinOp(t: TokenType): (int, Option<string>)
  {
    match t
    case QUESTIONMARK => (Ast.A_QUESTIONMARK, None)
    case MINUS => (Ast.A_MINUS, None)
    case PLUS => (Ast.A_PLUS, None)
    case DIV => (Ast.A_DIV, None)
    case MUL => (Ast.A_MUL, None)
    case LOGICAND => (Ast.A_AND, None)
    case LOGICOR => (Ast.A_OR, None)
    case ASSIGN => (Ast.A_ASSIGN, None)
    case EQUALTO => (Ast.A_EQUALTO, None)
    case NOTEQUAL => (Ast.A_NOTEQUAL, None)
    case LESSTHAN => (Ast.A_LESSTHAN, None)
    case LESSTHANEQUAL => (Ast.A_LESSTHANEQUAL, None)
    case GREATERTHAN => (Ast.A_GREATERTHAN, None)
    case GREATERTHANEQUAL => (Ast.A_GREATERTHANEQUAL, None)
    case _ => (Ast.A_PLUS, Some(FormatUnknownBinOp(t)))
  }

  /** The levels climb from Lowest to Product, and every kind has one of
      them. */
  lemma PrecedenceLevels(t: TokenType)
    ensures Lowest < PrecAssign < PrecConditional < LogicOr < LogicAnd < Equals < Compare < Sum < Product
    ensures Lowest <= Precedence(t) <= Product
  {
  }

  /** A kind with a precedence above Lowest is exactly an infix operator
      other than the colon, so the loop of ParseExpr never leaves through
      its IsInfixOp test for a minimum precedence of Lowest or more. */
  lemma OperatorsHavePrecedence(t: TokenType)
    ensures Precedence(t) > Lowest <==> IsInfixOp(t) && t != COLON
  {
  }

  /** ParseBinOp reports no error exactly for the kinds with a precedence
      above Lowest, the ones ParseExpr hands it. */
  lemma BinOpDefined(t: TokenType)
    ensures BinOp(t).1.None? <==> Precedence(t) > Lowest
  {
  }

  /** `*` and `/` bind tightest, then `+` and `-`. */
  lemma TightestLevels(t: TokenType)
    ensures Precedence(t) == Product <==> t == MUL || t == DIV
    ensures Precedence(t) == Sum <==> t == PLUS || t == MINUS
  {
  }

  /** The code recorded for an operator prints, through ASTBinOp.String, as
      the text the user wrote; only `=` prints as "unknown", since String
      has no case for `A_ASSIGN`. */
  lemma BinOpPrints(t: TokenType)
    ensures Precedence(t) > Lowest && t != ASSIGN ==> Ast.BinOpString(BinOp(t).0) == TokenTranslation(t)
    ensures Ast.BinOpString(BinOp(ASSIGN).0) == "unknown"
  {
  }

  /** The kind an operator code was recorded for. */
  function CodeKind(code: int): TokenType
  {
    if code == Ast.A_QUESTIONMARK then QUESTIONMARK
    else if code == Ast.A_MINUS then MINUS
    else if code == Ast.A_PLUS then PLUS
    else if code == Ast.A_DIV then DIV
    else if code == Ast.A_MUL then MUL
    else if code == Ast.A_AND then LOGICAND
    else if code == Ast.A_OR then LOGICOR
    else if code == Ast.A_ASSIGN then ASSIGN
    else if code == Ast.A_EQUALTO then EQUALTO
    else if code == Ast.A_NOTEQUAL then NOTEQUAL
    else if code == Ast.A_LESSTHAN then LESSTHAN
    else if code == Ast.A_LESSTHANEQUAL then LESSTHANEQUAL
    else if code == Ast.A_GREATERTHAN then GREATERTHAN
    else GREATERTHANEQUAL
  }

  lemma CodeKindInverts(t: TokenType)
    ensures Precedence(t) > Lowest ==> CodeKind(BinOp(t).0) == t
  {
  }

  /** Distinct operators are recorded with distinct codes. */
  lemma BinOpInjective(t: TokenType, u: TokenType)
    requires Precedence(t) > Lowest && Precedence(u) > Lowest && t != u
    ensures BinOp(t).0 != BinOp(u).0
  {
    CodeKindInverts(t);
    CodeKindInverts(u);
  }

  // ---------------------------------------------------------------------
  // Literals: strconv.ParseInt(s, 0, 64) as ParseIntLit calls it

  const MaxInt64: int := 0x7FFF_FFFF_FFFF_FFFF

  predicate IsOctal(s: string) { forall k :: 0 <= k < |s| ==> '0' <= s[k] <= '7' }

  /** The value of a run of octal digits (an empty run is 0). */
  function OctalToNat(s: string): nat
    requires IsOctal(s)
  {
    if s == [] then 0 else OctalToNat(s[..|s| - 1]) * 8 + (s[|s| - 1] as int - '0' as int)
  }

  function Clamp(n: nat): int { if n > MaxInt64 then MaxInt64 else n }

  /** strconv.ParseInt(s, 0, 64) on a run of decimal digits, as the lexer
      builds NUMBER tokens, with the error dropped as ParseIntLit drops it:
      a leading `0` makes the rest octal, an `8` or `9` there is a syntax
      error whose value is 0, and a value past the int64 range gives the
      largest int64. */
  function ParseIntBase0(s: string): int
  {
    if s == [] || !Decimal.AllDigits(s) then 0
    else if s[0] == '0' && |s| > 1 then
      if IsOctal(s[1..]) then Clamp(OctalToNat(s[1..])) else 0
    else Clamp(Decimal.DigitsToNat(s))
  }

  /** The numeral Go prints for a value in the int64 range reads back as
      that value; a larger one reads back as the largest int64. */
  lemma ParseIntOfNumeral(n: nat)
    ensures ParseIntBase0(Decimal.NatToString(n)) == if n <= MaxInt64 then n else MaxInt64
  {
    Decimal.NatToStringRoundTrip(n);
    NumeralHasNoLeadingZero(n);
  }

  lemma {:induction false} NumeralHasNoLeadingZero(n: nat)
    ensures |Decimal.NatToString(n)| > 1 ==> Decimal.NatToString(n)[0] != '0'
  {
    if n >= 10 {
      NumeralHasNoLeadingZero(n / 10);
      Decimal.NatToStringRoundTrip(n / 10);
      assert Decimal.NatToString(n)[0] == Decimal.NatToString(n / 10)[0];
    }
  }

  /** A leading zero makes the literal octal, and an octal literal with an
      `8` or `9` reads as 0. */
  lemma LeadingZeroIsOctal()
    ensures ParseIntBase0("010") == 8
    ensures ParseIntBase0("0") == 0
    ensures ParseIntBase0("09") == 0
  {
    assert IsOctal("10") && OctalToNat("10") == 8 by {
      assert "10"[..1] == "1";
      assert "1"[..0] == "";
    }
    assert !IsOctal("9") by { assert "9"[0] == '9'; }
  }

  // ---------------------------------------------------------------------
  // The token stream

  /** What NextToken stores for a Scan result: the error is dropped and the
      zero token takes its place. */
  function TokenOf(r: Result<Token>): Token
  {
    if r.Ok? then r.value else ZeroToken
  }

  /** The tokens Scan gives from `st` up to and including the first EOF. */
  function TokensFrom(src: seq<int>, st: LexState): (toks: seq<Token>)
    requires Fits(src, st)
    ensures |toks| > 0 && toks[|toks| - 1].kind == EOF
    decreases |src| - st.cursor
  {
    ScanAdvances(src, st);
    var (r, s) := ScanSpec(src, st);
    if r.Ok? && r.value.kind == EOF then [r.value] else [TokenOf(r)] + TokensFrom(src, s)
  }

  /** The scanner state NewScanner starts from. */
  const Start := LexState(0, 0, 1, 0)

  /** The token stream of a source. */
  function Tokens(src: seq<int>): seq<Token>
  {
    TokensFrom(src, Start)
  }

  /** The `i`-th token of a stream; past its end the stream repeats its
      last token, as Scan repeats EOF. */
  function TokAt(toks: seq<Token>, i: nat): Token
    requires |toks| > 0
  {
    if i < |toks| then toks[i] else toks[|toks| - 1]
  }

  /** The scanner states of a stream: Scan from `states[k]` gives `toks[k]`
      and moves to `states[k + 1]`, and from the last state, after EOF, it
      gives that EOF again and stays; EOF comes last and only there. */
  ghost predicate Traces(src: seq<int>, toks: seq<Token>, states: seq<LexState>)
  {
    && |toks| > 0 && |states| == |toks| + 1
    && (forall k :: 0 <= k < |states| ==> Fits(src, states[k]))
    && (forall k :: 0 <= k <= |toks| ==> ScansAt(src, toks, states, k))
    && toks[|toks| - 1].kind == EOF
    && (forall k :: 0 <= k < |toks| - 1 ==> toks[k].kind != EOF)
  }

  /** Scan from `states[k]` gives the `k`-th token and the next state. */
  ghost predicate ScansAt(src: seq<int>, toks: seq<Token>, states: seq<LexState>, k: nat)
    requires |toks| > 0 && |states| == |toks| + 1 && k <= |toks|
  {
    Fits(src, states[k]) && TokenOf(ScanSpec(src, states[k]).0) == TokAt(toks, k)
    && ScanSpec(src, states[k]).1 == states[Clip(k + 1, |toks|)]
  }

  /** The index of the scanner state that follows the `i`-th token. */
  function Clip(i: nat, n: nat): nat { if i < n then i else n }

  /** A Scan from the state traced before the `i`-th token gives that
      token and the state traced after it. */
  lemma ScanTraced(src: seq<int>, toks: seq<Token>, states: seq<LexState>, i: nat, r: Result<Token>, st: LexState)
    requires Traces(src, toks, states) && Fits(src, states[Clip(i, |toks|)])
    requires (r, st) == ScanSpec(src, states[Clip(i, |toks|)])
    ensures TokenOf(r) == TokAt(toks, i) && st == states[Clip(i + 1, |toks|)]
  {
    var k := Clip(i, |toks|);
    assert ScansAt(src, toks, states, k);
    assert TokAt(toks, k) == TokAt(toks, i) && Clip(k + 1, |toks|) == Clip(i + 1, |toks|);
  }

  /** The states TokensFrom passes through, the last one twice over. */
  ghost function StatesFrom(src: seq<int>, st: LexState): seq<LexState>
    requires Fits(src, st)
    decreases |src| - st.cursor
  {
    ScanAdvances(src, st);
    var (r, s) := ScanSpec(src, st);
    if r.Ok? && r.value.kind == EOF then [st, s] else [st] + StatesFrom(src, s)
  }

  /** Every stream TokensFrom gives is traced by the states the scanner
      passes through, from the state it starts in. */
  lemma {:induction false} TokensTraced(src: seq<int>, st: LexState)
    requires Fits(src, st)
    ensures Traces(src, TokensFrom(src, st), StatesFrom(src, st)) && StatesFrom(src, st)[0] == st
    decreases |src| - st.cursor
  {
    ScanAdvances(src, st);
    var (r, s) := ScanSpec(src, st);
    if r.Ok? && r.value.kind == EOF {
      TraceOfEof(src, st);
    } else {
      TokensTraced(src, s);
      TraceCons(src, st, TokensFrom(src, s), StatesFrom(src, s));
    }
  }

  /** A scan that gives EOF and stays is a trace of one token. */
  lemma TraceOfEof(src: seq<int>, st: LexState)
    requires Fits(src, st)
    requires ScanSpec(src, st).0.Ok? && ScanSpec(src, st).0.value.kind == EOF
    ensures Traces(src, [ScanSpec(src, st).0.value], [st, ScanSpec(src, st).1])
  {
    ScanAdvances(src, st);
  }

  /** A scan that does not end the stream, put in front of the trace of
      the state it moves to, is a trace. */
  lemma TraceCons(src: seq<int>, st: LexState, toks: seq<Token>, states: seq<LexState>)
    requires Fits(src, st) && Traces(src, toks, states)
    requires !(ScanSpec(src, st).0.Ok? && ScanSpec(src, st).0.value.kind == EOF)
    requires states[0] == ScanSpec(src, st).1
    ensures Traces(src, [TokenOf(ScanSpec(src, st).0)] + toks, [st] + states)
  {
    var t := TokenOf(ScanSpec(src, st).0);
    var toks', states' := [t] + toks, [st] + states;
    assert t.kind != EOF;
    forall k | 0 <= k < |toks'| - 1
      ensures toks'[k].kind != EOF
    {
      if k > 0 { assert toks'[k] == toks[k - 1]; }
    }
    forall k | 0 <= k < |states'|
      ensures Fits(src, states'[k])
    {
      if k > 0 { assert states'[k] == states[k - 1]; }
    }
    forall k | 0 <= k <= |toks'|
      ensures ScansAt(src, toks', states', k)
    {
      if k > 0 {
        ConsScan(src, t, st, toks, states, k);
      } else {
        ConsScanHead(src, st, toks, states);
      }
    }
  }

  lemma ConsScanHead(src: seq<int>, st: LexState, toks: seq<Token>, states: seq<LexState>)
    requires Fits(src, st) && |toks| > 0 && |states| == |toks| + 1
    requires states[0] == ScanSpec(src, st).1
    ensures ScansAt(src, [TokenOf(ScanSpec(src, st).0)] + toks, [st] + states, 0)
  {
  }

  lemma ConsScan(src: seq<int>, t: Token, st: LexState, toks: seq<Token>, states: seq<LexState>, k: nat)
    requires |toks| > 0 && |states| == |toks| + 1 && 0 < k <= |toks| + 1
    requires ScansAt(src, toks, states, k - 1)
    ensures ScansAt(src, [t] + toks, [st] + states, k)
  {
    assert ([st] + states)[k] == states[k - 1];
    assert TokAt([t] + toks, k) == TokAt(toks, k - 1);
    assert ([st] + states)[Clip(k + 1, |toks| + 1)] == states[Clip(k, |toks|)];
  }

  /** The first token of a trace is the one scanned from its first state;
      the trace goes on exactly when that token is not EOF, and then the
      rest is a trace from the state the scan moves to. */
  lemma TraceHead(src: seq<int>, t: seq<Token>, s: seq<LexState>)
    requires Traces(src, t, s)
    ensures t[0] == TokenOf(ScanSpec(src, s[0]).0)
    ensures |t| > 1 <==> t[0].kind != EOF
    ensures |t| > 1 ==> s[1] == ScanSpec(src, s[0]).1 && Traces(src, t[1..], s[1..])
  {
    assert ScansAt(src, t, s, 0);
    if |t| > 1 {
      TraceTail(src, t, s);
    }
  }

  /** Two traces from the same state are the same stream: the trace
      determines the tokens. */
  lemma {:induction false} TracesUnique(src: seq<int>, t1: seq<Token>, s1: seq<LexState>, t2: seq<Token>, s2: seq<LexState>)
    requires Traces(src, t1, s1) && Traces(src, t2, s2) && s1[0] == s2[0]
    ensures t1 == t2
    decreases |t1|
  {
    TraceHead(src, t1, s1);
    TraceHead(src, t2, s2);
    if |t1| > 1 {
      TracesUnique(src, t1[1..], s1[1..], t2[1..], s2[1..]);
      assert t1 == [t1[0]] + t1[1..] && t2 == [t2[0]] + t2[1..];
    }
  }

  /** The trace of a source from NewScanner's state is its token stream. */
  lemma TracedIsTokens(src: seq<int>, toks: seq<Token>, states: seq<LexState>)
    requires Traces(src, toks, states) && states[0] == Start
    ensures toks == Tokens(src)
  {
    TokensTraced(src, Start);
    TracesUnique(src, toks, states, Tokens(src), StatesFrom(src, Start));
  }

  /** A trace without its first scan is a trace. */
  lemma TraceTail(src: seq<int>, toks: seq<Token>, states: seq<LexState>)
    requires Traces(src, toks, states) && |toks| > 1
    ensures Traces(src, toks[1..], states[1..])
  {
    var toks', states' := toks[1..], states[1..];
    forall k | 0 <= k <= |toks'|
      ensures ScansAt(src, toks', states', k)
    {
      DropScan(src, toks, states, k);
    }
    assert forall k :: 0 <= k < |toks'| - 1 ==> toks'[k] == toks[k + 1];
    assert forall k :: 0 <= k < |states'| ==> states'[k] == states[k + 1];
  }

  lemma DropScan(src: seq<int>, toks: seq<Token>, states: seq<LexState>, k: nat)
    requires |toks| > 1 && |states| == |toks| + 1 && k <= |toks| - 1
    requires ScansAt(src, toks, states, k + 1)
    ensures ScansAt(src, toks[1..], states[1..], k)
  {
    assert states[1..][k] == states[k + 1];
    assert TokAt(toks[1..], k) == TokAt(toks, k + 1);
    assert states[1..][Clip(k + 1, |toks| - 1)] == states[Clip(k + 2, |toks|)];
  }

  /** The trace of the stream of a whole source, from NewScanner's state. */
  ghost method TraceSource(src: seq<int>) returns (toks: seq<Token>, states: seq<LexState>)
    requires Fits(src, Start)
    ensures Traces(src, toks, states) && states[0] == Start
  {
    TokensTraced(src, Start);
    toks := Tokens(src);
    states := StatesFrom(src, Start);
  }

  // ---------------------------------------------------------------------
  // The parser state and the token window

  /** The source (for the errors) and its token stream. */
  datatype Input = Input(source: seq<int>, tokens: seq<Token>)

  /** A stream that ends in EOF, as every `Tokens(src)` does. */
  predicate Stream(inp: Input)
  {
    |inp.tokens| > 0 && inp.tokens[|inp.tokens| - 1].kind == EOF
  }

  /** The parser state: the index of Current in the stream, and the errors
      recorded so far. */
  datatype PState = PState(pos: nat, errors: seq<ParseError>)

  /** Current and PeekToken. */
  function Cur(inp: Input, ps: PState): Token
    requires Stream(inp)
  {
    TokAt(inp.tokens, ps.pos)
  }

  function Peek(inp: Input, ps: PState): Token
    requires Stream(inp)
  {
    TokAt(inp.tokens, ps.pos + 1)
  }

  /** The tokens not yet passed; no step of the parser raises it. */
  function Measure(inp: Input, ps: PState): nat
  {
    if ps.pos < |inp.tokens| then |inp.tokens| - ps.pos else 0
  }

  /** `b` is reachable from `a`: the measure has not grown, and errors
      were only added after the ones recorded before. */
  predicate Moves(inp: Input, a: PState, b: PState)
  {
    Measure(inp, b) <= Measure(inp, a) && a.errors <= b.errors
  }

  lemma MovesTrans(inp: Input, a: PState, b: PState, c: PState)
    requires Moves(inp, a, b) && Moves(inp, b, c)
    ensures Moves(inp, a, c)
  {
  }

  /** NextToken (gov/parser/parse.go:78-84): the window slides by one. It
      never raises the measure, and lowers it unless both tokens are EOF. */
  function NextSpec(inp: Input, ps: PState): (n: PState)
    requires Stream(inp)
    ensures Cur(inp, n) == Peek(inp, ps) && n.errors == ps.errors
    ensures Measure(inp, n) <= Measure(inp, ps) && Moves(inp, ps, n)
    ensures Cur(inp, ps).kind != EOF || Peek(inp, ps).kind != EOF ==> Measure(inp, n) < Measure(inp, ps)
  {
    ps.(pos := ps.pos + 1)
  }

  /** appendError (gov/parser/parse.go:107-114): an error at the position
      of the current token. */
  function WithError(inp: Input, ps: PState, message: string): (r: PState)
    requires Stream(inp)
    ensures r.pos == ps.pos && |r.errors| == |ps.errors| + 1 && Moves(inp, ps, r)
  {
    ps.(errors := ps.errors + [ParseError(message, Cur(inp, ps).line, Cur(inp, ps).span, inp.source)])
  }

  /** expect (gov/parser/parse.go:94-101), with peekError (:116-123). */
  function ExpectSpec(inp: Input, ps: PState, t: TokenType): (out: (bool, PState))
    requires Stream(inp)
    ensures Moves(inp, ps, out.1)
    ensures out.0 <==> Peek(inp, ps).kind == t
    ensures out.0 ==> Cur(inp, out.1).kind == t && out.1.errors == ps.errors
    ensures !out.0 ==> out.1.pos == ps.pos && |out.1.errors| == |ps.errors| + 1
    ensures out.0 && t != EOF ==> Measure(inp, out.1) < Measure(inp, ps)
  {
    if Peek(inp, ps).kind == t then (true, NextSpec(inp, ps))
    else (false, WithError(inp, ps, FormatExpectedNextToken(t)))
  }

  /** checkOptional (gov/parser/parse.go:86-92). */
  function CheckOptionalSpec(inp: Input, ps: PState, t: TokenType): (out: (bool, PState))
    requires Stream(inp)
    ensures Moves(inp, ps, out.1)
    ensures out.0 <==> Peek(inp, ps).kind == t
    ensures out.0 ==> Cur(inp, out.1).kind == t && out.1.errors == ps.errors
    ensures !out.0 ==> out.1 == ps
    ensures out.0 && t != EOF ==> Measure(inp, out.1) < Measure(inp, ps)
  {
    if Peek(inp, ps).kind == t then (true, NextSpec(inp, ps)) else (false, ps)
  }

  // ---------------------------------------------------------------------
  // Expressions (gov/parser/parse.go:337-351, :396-510)

  /** Where the loop of ParseExpr stops: at a semicolon, or before an
      operator that does not bind tighter than the minimum precedence, or
      before a token that is not an operator. */
  predicate Ends(inp: Input, ps: PState, minPrec: int)
    requires Stream(inp)
  {
    Cur(inp, ps).kind == SEMICOLON || Precedence(Peek(inp, ps).kind) <= minPrec || !IsInfixOp(Peek(inp, ps).kind)
  }

  /** ParseIdent (gov/parser/parse.go:501-504): reading a missing value
      panics. */
  function IdentExpr(t: Token): Parsed<Expr>
  {
    if t.value.None? then Panicked(NilDereference) else Done(Var(t.value.value))
  }

  /** ParseIntLit (gov/parser/parse.go:506-510). */
  function IntLitExpr(t: Token): Parsed<Expr>
  {
    if t.value.None? then Panicked(NilDereference) else Done(Constant(t, ParseIntBase0(t.value.value)))
  }

  /** ParseExpr (gov/parser/parse.go:396-445): a factor, then the loop. */
  function ExprSpec(inp: Input, ps: PState, minPrec: int): (out: (Parsed<Expr>, PState))
    requires Stream(inp)
    ensures Moves(inp, ps, out.1)
    ensures out.0.Done? ==> Ends(inp, out.1, minPrec)
    decreases Measure(inp, ps), 4
  {
    var (left, ps1) := FactorSpec(inp, ps);
    if left.Panicked? then (left, ps1) else ExprLoop(inp, ps1, minPrec, left.value)
  }

  /** The loop of ParseExpr from the left operand built so far: while the
      next operator binds tighter than `minPrec`, it takes the operator and
      its right operand. */
  function ExprLoop(inp: Input, ps: PState, minPrec: int, left: Expr): (out: (Parsed<Expr>, PState))
    requires Stream(inp)
    ensures Moves(inp, ps, out.1)
    ensures out.0.Done? ==> Ends(inp, out.1, minPrec)
    decreases Measure(inp, ps), 3
  {
    if Ends(inp, ps, minPrec) then (Done(left), ps)
    else
      var (next, ps1) := InfixSpec(inp, ps, left);
      if next.Panicked? then (next, ps1) else ExprLoop(inp, ps1, minPrec, next.value)
  }

  /** One turn of the loop: consume the operator and dispatch on its code. */
  function InfixSpec(inp: Input, ps: PState, left: Expr): (out: (Parsed<Expr>, PState))
    requires Stream(inp) && IsInfixOp(Peek(inp, ps).kind)
    ensures Moves(inp, ps, out.1) && Measure(inp, out.1) < Measure(inp, ps)
    decreases Measure(inp, ps), 2
  {
    var ps1 := NextSpec(inp, ps);
    var op := BinOp(Cur(inp, ps1).kind).0;
    var nextPrec := Precedence(Cur(inp, ps1).kind);
    if op == Ast.A_ASSIGN then AssignRest(inp, ps1, left, nextPrec)
    else if op == Ast.A_QUESTIONMARK then TernaryRest(inp, ps1, left, nextPrec)
    else BinaryRest(inp, ps1, left, op, nextPrec)
  }

  /** `=`: the right side at the operator's precedence, then the left side
      must be a variable. */
  function AssignRest(inp: Input, ps: PState, left: Expr, nextPrec: int): (out: (Parsed<Expr>, PState))
    requires Stream(inp) && Cur(inp, ps).kind != EOF
    ensures Moves(inp, ps, out.1)
    decreases Measure(inp, ps), 1
  {
    var (right, ps1) := ExprSpec(inp, NextSpec(inp, ps), nextPrec);
    if right.Panicked? then (right, ps1)
    else if !left.Var? then (Panicked("left side of assign must be var"), ps1)
    else (Done(Assignment(left.ident, right.value)), ps1)
  }

  /** `?`: the middle at Lowest, a colon that must follow, and the else
      side at the operator's precedence. */
  function TernaryRest(inp: Input, ps: PState, left: Expr, nextPrec: int): (out: (Parsed<Expr>, PState))
    requires Stream(inp) && Cur(inp, ps).kind != EOF
    ensures Moves(inp, ps, out.1)
    decreases Measure(inp, ps), 1
  {
    var (middle, ps1) := ExprSpec(inp, NextSpec(inp, ps), Lowest);
    if middle.Panicked? then (middle, ps1)
    else
      var (ok, ps2) := ExpectSpec(inp, ps1, COLON);
      if !ok then (Panicked("expected colon after middle expression in ternary"), ps2)
      else
        var (right, ps3) := ExprSpec(inp, NextSpec(inp, ps2), nextPrec);
        if right.Panicked? then (right, ps3)
        else (Done(Conditional(left, middle.value, right.value)), ps3)
  }

  /** Any other operator: the right operand at the operator's precedence. */
  function BinaryRest(inp: Input, ps: PState, left: Expr, op: int, nextPrec: int): (out: (Parsed<Expr>, PState))
    requires Stream(inp) && Cur(inp, ps).kind != EOF
    ensures Moves(inp, ps, out.1)
    decreases Measure(inp, ps), 1
  {
    var (right, ps1) := ExprSpec(inp, NextSpec(inp, ps), nextPrec);
    if right.Panicked? then (right, ps1) else (Done(Binary(left, right.value, op)), ps1)
  }

  /** One turn of the loop of ParseExpr, seen from the loop: the loop from
      before the operator is the turn's panic, or the loop from after it. */
  lemma ExprLoopStep(inp: Input, ps: PState, minPrec: int, left: Expr)
    requires Stream(inp) && !Ends(inp, ps, minPrec)
    ensures IsInfixOp(Peek(inp, ps).kind)
    ensures ExprLoop(inp, ps, minPrec, left)
      == var (next, ps1) := InfixSpec(inp, ps, left);
         if next.Panicked? then (next, ps1) else ExprLoop(inp, ps1, minPrec, next.value)
  {
  }

  /** ParseFactor (gov/parser/parse.go:337-351). */
  function FactorSpec(inp: Input, ps: PState): (out: (Parsed<Expr>, PState))
    requires Stream(inp)
    ensures Moves(inp, ps, out.1)
    decreases Measure(inp, ps), 3
  {
    var t := Cur(inp, ps);
    if t.kind == IDENT then (IdentExpr(t), ps)
    else if t.kind == NUMBER then (IntLitExpr(t), ps)
    else if t.kind == MINUS || t.kind == TILDE || t.kind == NOT then UnarySpec(inp, ps, t.kind)
    else if t.kind == OPEN_PAREN then GroupingSpec(inp, ps)
    else (Done(NoExpr), WithError(inp, ps, FormatUnknownExpression(t.kind)))
  }

  /** ParseUnary (gov/parser/parse.go:482-493): the operand is a whole
      expression parsed at Lowest. */
  function UnarySpec(inp: Input, ps: PState, op: TokenType): (out: (Parsed<Expr>, PState))
    requires Stream(inp) && Cur(inp, ps).kind != EOF
    ensures Moves(inp, ps, out.1)
    decreases Measure(inp, ps), 2
  {
    var (inner, ps1) := ExprSpec(inp, NextSpec(inp, ps), Lowest);
    if inner.Panicked? then (inner, ps1) else (Done(Unary(op, inner.value)), ps1)
  }

  /** ParseGrouping (gov/parser/parse.go:494-499): the closing parenthesis
      is expected, and its absence only recorded. */
  function GroupingSpec(inp: Input, ps: PState): (out: (Parsed<Expr>, PState))
    requires Stream(inp) && Cur(inp, ps).kind != EOF
    ensures Moves(inp, ps, out.1)
    decreases Measure(inp, ps), 2
  {
    var (inner, ps1) := ExprSpec(inp, NextSpec(inp, ps), Lowest);
    if inner.Panicked? then (inner, ps1) else (inner, ExpectSpec(inp, ps1, CLOSE_PAREN).1)
  }

  // ---------------------------------------------------------------------
  // Statements (gov/parser/parse.go:158-182, :272-334)

  /** ParseStmt (gov/parser/parse.go:158-167). */
  function StmtSpec(inp: Input, ps: PState): (out: (Parsed<Stmt>, PState))
    requires Stream(inp)
    ensures Moves(inp, ps, out.1)
    decreases Measure(inp, ps), 2
  {
    if Cur(inp, ps).kind == RETURN then ReturnSpec(inp, ps)
    else if Cur(inp, ps).kind == IF then IfSpec(inp, ps)
    else ExprStmtSpec(inp, ps)
  }

  /** ParseExpressionStmt (gov/parser/parse.go:169-182): a missing
      semicolon is recorded by expect alone. */
  function ExprStmtSpec(inp: Input, ps: PState): (out: (Parsed<Stmt>, PState))
    requires Stream(inp)
    ensures Moves(inp, ps, out.1)
  {
    var (e, ps1) := ExprSpec(inp, ps, Lowest);
    if e.Panicked? then (Panicked(e.reason), ps1)
    else
      var (ok, ps2) := ExpectSpec(inp, ps1, SEMICOLON);
      (Done(if ok then ExpressionStmt(e.value) else FailedExpressionStmt), ps2)
  }

  /** ParseReturn (gov/parser/parse.go:318-334). */
  function ReturnSpec(inp: Input, ps: PState): (out: (Parsed<Stmt>, PState))
    requires Stream(inp)
    ensures Moves(inp, ps, out.1)
  {
    var (value, ps1) := ExprSpec(inp, NextSpec(inp, ps), Lowest);
    if value.Panicked? then (Panicked(value.reason), ps1)
    else
      var (ok, ps2) := ExpectSpec(inp, ps1, SEMICOLON);
      if ok then (Done(ReturnStmt(Cur(inp, ps), value.value)), ps2)
      else (Done(FailedReturn), WithError(inp, ps2, ErrMissingSemicolon))
  }

  /** ParseIf (gov/parser/parse.go:272-316) up to the opening brace. */
  function IfSpec(inp: Input, ps: PState): (out: (Parsed<Stmt>, PState))
    requires Stream(inp)
    ensures Moves(inp, ps, out.1)
    decreases Measure(inp, ps), 1
  {
    var (cond, ps1) := ExprSpec(inp, NextSpec(inp, ps), Lowest);
    MovesTrans(inp, ps, NextSpec(inp, ps), ps1);
    if cond.Panicked? then (Panicked(cond.reason), ps1)
    else
      var (isOk, ps2) := ExpectSpec(inp, ps1, IS);
      MovesTrans(inp, ps, ps1, ps2);
      if !isOk then
        MovesTrans(inp, ps, ps2, WithError(inp, ps2, ErrMissingIs));
        (Done(FailedIf), WithError(inp, ps2, ErrMissingIs))
      else
        var (braceOk, ps3) := ExpectSpec(inp, ps2, OPEN_BRACE);
        MovesTrans(inp, ps, ps2, ps3);
        if !braceOk then
          MovesTrans(inp, ps, ps3, WithError(inp, ps3, ErrMissingBraceOpen));
          (Done(FailedIf), WithError(inp, ps3, ErrMissingBraceOpen))
        else IfThen(inp, ps3, cond.value)
  }

  /** The then branch, its closing brace, and the optional else. */
  function IfThen(inp: Input, ps: PState, cond: Expr): (out: (Parsed<Stmt>, PState))
    requires Stream(inp) && Cur(inp, ps).kind == OPEN_BRACE
    ensures Moves(inp, ps, out.1)
    decreases Measure(inp, ps), 1
  {
    var (thenStmt, ps1) := StmtSpec(inp, NextSpec(inp, ps));
    if thenStmt.Panicked? then (thenStmt, ps1)
    else
      var (closeOk, ps2) := ExpectSpec(inp, ps1, CLOSE_BRACE);
      if !closeOk then (Done(FailedIf), WithError(inp, ps2, ErrMissingBraceClose))
      else
        var (hasElse, ps3) := CheckOptionalSpec(inp, ps2, IFNOT);
        if !hasElse then (Done(IfStmt(cond, thenStmt.value, NoStmt)), ps3)
        else ElseSpec(inp, ps3, cond, thenStmt.value)
  }

  /** The else branch after `үгүй`: the next token (`бол`) is consumed
      without a check, then a braced statement. */
  function ElseSpec(inp: Input, ps: PState, cond: Expr, thenStmt: Stmt): (out: (Parsed<Stmt>, PState))
    requires Stream(inp) && Cur(inp, ps).kind == IFNOT
    ensures Moves(inp, ps, out.1)
    decreases Measure(inp, ps), 1
  {
    var (braceOk, ps1) := ExpectSpec(inp, NextSpec(inp, ps), OPEN_BRACE);
    if !braceOk then (Done(FailedIf), WithError(inp, ps1, ErrMissingBraceOpen))
    else ElseBody(inp, ps1, cond, thenStmt)
  }

  /** The braced else branch, from its opening brace. */
  function ElseBody(inp: Input, ps: PState, cond: Expr, thenStmt: Stmt): (out: (Parsed<Stmt>, PState))
    requires Stream(inp) && Cur(inp, ps).kind == OPEN_BRACE
    ensures Moves(inp, ps, out.1)
    decreases Measure(inp, ps), 0
  {
    var (elseStmt, ps1) := StmtSpec(inp, NextSpec(inp, ps));
    if elseStmt.Panicked? then (elseStmt, ps1)
    else
      var (closeOk, ps2) := ExpectSpec(inp, ps1, CLOSE_BRACE);
      if !closeOk then (Done(FailedIf), WithError(inp, ps2, ErrMissingBraceClose))
      else (Done(IfStmt(cond, thenStmt, elseStmt.value)), ps2)
  }

  // ---------------------------------------------------------------------
  // Declarations (gov/parser/parse.go:232-270)

  /** ParseDecl up to the optional type. A missing identifier is recorded
      but does not stop the parse. */
  function DeclSpec(inp: Input, ps: PState): (out: (Parsed<Decl>, PState))
    requires Stream(inp)
    ensures Moves(inp, ps, out.1)
  {
    var ps1 := NextSpec(inp, ps);
    var ps2 := if Cur(inp, ps1).value.None? then WithError(inp, ps1, ErrMissingIdentifier) else ps1;
    var (colon, ps3) := CheckOptionalSpec(inp, ps2, COLON);
    if !colon then DeclRest(inp, ps3, Cur(inp, ps2))
    else
      var (typeOk, ps4) := ExpectSpec(inp, ps3, INT_TYPE);
      if !typeOk then (Done(FailedDecl), WithError(inp, ps4, ErrMissingIntType))
      else DeclRest(inp, ps4, Cur(inp, ps2))
  }

  /** The rest of ParseDecl: the name is read from the identifier token
      (a panic when it has no value), then `;` or `= expr ;`. */
  function DeclRest(inp: Input, ps: PState, ident: Token): (out: (Parsed<Decl>, PState))
    requires Stream(inp)
    ensures Moves(inp, ps, out.1)
  {
    if ident.value.None? then (Panicked(NilDereference), ps)
    else
      var (assign, ps1) := CheckOptionalSpec(inp, ps, ASSIGN);
      if !assign then
        var (semiOk, ps2) := ExpectSpec(inp, ps1, SEMICOLON);
        if semiOk then (Done(Decl(ident.value.value, NoExpr)), ps2)
        else (Done(FailedDecl), WithError(inp, ps2, ErrMissingSemicolon))
      else
        var (e, ps2) := ExprSpec(inp, NextSpec(inp, ps1), Lowest);
        MovesTrans(inp, ps1, NextSpec(inp, ps1), ps2);
        MovesTrans(inp, ps, ps1, ps2);
        if e.Panicked? then (Panicked(e.reason), ps2)
        else
          var (semiOk, ps3) := ExpectSpec(inp, ps2, SEMICOLON);
          MovesTrans(inp, ps, ps2, ps3);
          if semiOk then (Done(Decl(ident.value.value, e.value)), ps3)
          else
            MovesTrans(inp, ps, ps3, WithError(inp, ps3, ErrMissingSemicolon));
            (Done(FailedDecl), WithError(inp, ps3, ErrMissingSemicolon))
  }

  // ---------------------------------------------------------------------
  // Blocks, functions, the program (gov/parser/parse.go:126-229)

  /** ParseBlockItem (gov/parser/parse.go:147-156). */
  function BlockItemSpec(inp: Input, ps: PState): (out: (Parsed<BlockItem>, PState))
    requires Stream(inp)
    ensures Moves(inp, ps, out.1)
  {
    if Cur(inp, ps).kind == VAR_DECL then
      var (d, ps1) := DeclSpec(inp, ps);
      (if d.Panicked? then Panicked(d.reason) else Done(DeclItem(d.value)), ps1)
    else
      var (s, ps1) := StmtSpec(inp, ps);
      (if s.Panicked? then Panicked(s.reason) else Done(StmtItem(s.value)), ps1)
  }

  /** After an item that started on a token other than EOF, the NextToken
      that follows it lowers the measure below where the item started. */
  lemma NextAfterItem(inp: Input, ps: PState, ps1: PState)
    requires Stream(inp) && Moves(inp, ps, ps1) && Cur(inp, ps).kind != EOF
    ensures Measure(inp, NextSpec(inp, ps1)) < Measure(inp, ps)
  {
  }

  /** The loop of ParseBlockItems with the items so far: every item is
      kept, a failed one too, and the loop stops at `}` or at EOF. */
  function BlockLoop(inp: Input, ps: PState, items: seq<BlockItem>): (out: (Parsed<seq<BlockItem>>, PState))
    requires Stream(inp)
    ensures Moves(inp, ps, out.1)
    ensures out.0.Done? ==> items <= out.0.value && (Cur(inp, out.1).kind == CLOSE_BRACE || Cur(inp, out.1).kind == EOF)
    decreases Measure(inp, ps)
  {
    if Cur(inp, ps).kind == CLOSE_BRACE || Cur(inp, ps).kind == EOF then (Done(items), ps)
    else
      var (item, ps1) := BlockItemSpec(inp, ps);
      if item.Panicked? then (Panicked(item.reason), ps1)
      else
        NextAfterItem(inp, ps, ps1);
        BlockLoop(inp, NextSpec(inp, ps1), items + [item.value])
  }

  /** ParseBlockItems (gov/parser/parse.go:215-229). */
  function BlockItemsSpec(inp: Input, ps: PState): (out: (Parsed<seq<BlockItem>>, PState))
    requires Stream(inp)
    ensures Moves(inp, ps, out.1)
  {
    BlockLoop(inp, NextSpec(inp, ps), [])
  }

  /** ParseFN (gov/parser/parse.go:185-212): the name, then `(`, `)`, `->`,
      `тоо` and `{` each expected in turn; the first one missing gives a
      nil definition. */
  function FnSpec(inp: Input, ps: PState): (out: (Parsed<Option<FnDef>>, PState))
    requires Stream(inp)
    ensures Moves(inp, ps, out.1)
    ensures out.0 == Done(None) ==> |out.1.errors| == |ps.errors| + 1
  {
    var ps1 := NextSpec(inp, ps);
    var (ok1, s1) := ExpectSpec(inp, ps1, OPEN_PAREN);
    if !ok1 then (Done(None), s1) else
    var (ok2, s2) := ExpectSpec(inp, s1, CLOSE_PAREN);
    if !ok2 then (Done(None), s2) else
    var (ok3, s3) := ExpectSpec(inp, s2, RIGHT_ARROW);
    if !ok3 then (Done(None), s3) else
    var (ok4, s4) := ExpectSpec(inp, s3, INT_TYPE);
    if !ok4 then (Done(None), s4) else
    var (ok5, s5) := ExpectSpec(inp, s4, OPEN_BRACE);
    if !ok5 then (Done(None), s5) else
    var (items, s6) := BlockItemsSpec(inp, s5);
    if items.Panicked? then (Panicked(items.reason), s6)
    else (Done(Some(FnDef(Cur(inp, ps1), items.value))), s6)
  }

  /** The loop of ParseProgram: one function per turn, each followed by a
      NextToken, until EOF; a function that parses replaces the one kept
      so far, a nil one leaves it. */
  function ProgramLoop(inp: Input, ps: PState, fnDef: FnDef): (out: (Parsed<FnDef>, PState))
    requires Stream(inp)
    ensures Moves(inp, ps, out.1)
    ensures out.0.Done? ==> Cur(inp, out.1).kind == EOF
    decreases Measure(inp, ps)
  {
    if Cur(inp, ps).kind == EOF then (Done(fnDef), ps)
    else
      var (d, ps1) := FnSpec(inp, ps);
      if d.Panicked? then (Panicked(d.reason), ps1)
      else
        NextAfterItem(inp, ps, ps1);
        ProgramLoop(inp, NextSpec(inp, ps1), if d.value.Some? then d.value.value else fnDef)
  }

  /** The errors on record when the loop of ParseProgram ends: the ones
      recorded before the call, then the ones the loop recorded. */
  function LoopErrors(inp: Input, ps: PState): (errs: seq<ParseError>)
    requires Stream(inp)
    ensures ps.errors <= errs
  {
    ProgramLoop(inp, ps, FnDef(ZeroToken, [])).1.errors
  }

  /** ParseProgram (gov/parser/parse.go:126-144): the program is rejected
      exactly when an error is on record once the loop ends, and then with
      the first one: the first recorded before the call if any, otherwise
      the first the loop recorded. The list is cleared, so it is empty
      afterwards whatever the outcome. */
  function ProgramSpec(inp: Input, ps: PState): (out: (Parsed<Outcome>, PState))
    requires Stream(inp)
    ensures out.0.Done? ==> out.1.errors == [] && Cur(inp, out.1).kind == EOF
    ensures out.0.Done? ==> (out.0.value.Rejected? <==> LoopErrors(inp, ps) != [])
    ensures out.0.Done? && out.0.value.Rejected? ==> out.0.value.first == LoopErrors(inp, ps)[0]
    ensures out.0.Done? && ps.errors != [] ==> out.0 == Done(Rejected(ps.errors[0]))
  {
    var (fnDef, ps1) := ProgramLoop(inp, ps, FnDef(ZeroToken, []));
    if fnDef.Panicked? then (Panicked(fnDef.reason), ps1)
    else if |ps1.errors| > 0 then (Done(Rejected(ps1.errors[0])), ps1.(errors := []))
    else (Done(Accepted(Program(fnDef.value))), ps1)
  }

  // ---------------------------------------------------------------------
  // The parser object (gov/parser/parse.go:55-123)

  /** `PeekToken, _ = scanner.Scan()` (gov/parser/parse.go:80): from the
      state traced before the `i`-th token, Scan gives that token and the
      scanner moves to the state traced after it. */
  method ScanDroppingError(scanner: Scanner, pool: StringPool, ghost source: seq<int>,
                           ghost toks: seq<Token>, ghost states: seq<LexState>, ghost i: nat) returns (t: Token)
    requires scanner.Valid() && pool.Valid() && scanner.source == source
    requires Traces(source, toks, states) && scanner.State() == states[Clip(i, |toks|)]
    modifies scanner, pool
    ensures scanner.Valid() && pool.Valid() && scanner.source == source
    ensures t == TokAt(toks, i) && scanner.State() == states[Clip(i + 1, |toks|)]
  {
    var r := scanner.Scan(pool);
    ScanTraced(source, toks, states, i, r, scanner.State());
    t := TokenOf(r);
  }

  /** Parser: the source, the scanner, the window of two tokens and the
      errors. The pool the scanner interns into is passed in. The ghost
      stream is every token the scanner will give, `states` the scanner
      states it passes through, and `pos` the index of Current in the
      stream; PeekToken is the next token, and the scanner is in the state
      that gives the one after. */
  class Parser {
    const source: seq<int>
    const scanner: Scanner
    const pool: StringPool
    ghost const toks: seq<Token>
    ghost const states: seq<LexState>
    var current: Token
    var peek: Token
    var errors: seq<ParseError>
    ghost var pos: nat

    ghost predicate Valid()
      reads this, scanner, pool
    {
      Sound() && Window()
    }

    /** The scanner, the pool and the traced stream, which the fields of
        the parser do not affect. */
    ghost predicate Sound()
      reads scanner, pool
    {
      && scanner.Valid() && pool.Valid() && scanner.source == source
      && Stream(In()) && Traces(source, toks, states)
    }

    /** The window of two tokens sits at `pos` in the stream. */
    ghost predicate Window()
      reads this, scanner, pool
      requires Sound()
    {
      && current == TokAt(toks, pos) && peek == TokAt(toks, pos + 1)
      && scanner.State() == states[Clip(pos + 2, |toks|)]
    }

    /** The source and its token stream. */
    ghost function In(): Input
    {
      Input(source, toks)
    }

    ghost function State(): PState
      reads this
    {
      PState(pos, errors)
    }

    /** NewParser (gov/parser/parse.go:63-72): two NextTokens from the
        zero window leave the first token as Current and the second as
        PeekToken, with no error. */
    constructor (source: seq<int>, pool: StringPool)
      requires |source| > 0 && pool.Valid()
      modifies pool
      ensures Valid() && this.source == source && this.pool == pool
      ensures Traces(source, toks, states) && states[0] == Start && State() == PState(0, [])
      ensures current == TokAt(toks, 0) && peek == TokAt(toks, 1)
    {
      var sc := new Scanner(source);
      ghost var t, st := TraceSource(source);
      var cur, next := ZeroToken, ZeroToken;
      cur := next;
      next := ScanDroppingError(sc, pool, source, t, st, 0);
      cur := next;
      next := ScanDroppingError(sc, pool, source, t, st, 1);
      this.source := source;
      this.pool := pool;
      scanner := sc;
      toks, states := t, st;
      current, peek := cur, next;
      errors := [];
      pos := 0;
    }

    /** NextToken (gov/parser/parse.go:78-84). */
    method NextToken()
      requires Valid()
      modifies this, scanner, pool
      ensures Valid() && State() == NextSpec(In(), old(State()))
    {
      current := peek;
      peek := ScanDroppingError(scanner, pool, source, toks, states, pos + 2);
      pos := pos + 1;
    }

    /** appendError (gov/parser/parse.go:107-114). */
    method AppendError(message: string)
      requires Valid()
      modifies this
      ensures Valid() && State() == WithError(In(), old(State()), message)
    {
      errors := errors + [ParseError(message, current.line, current.span, source)];
    }

    /** peekError (gov/parser/parse.go:116-123). */
    method PeekError(t: TokenType)
      requires Valid()
      modifies this
      ensures Valid() && State() == WithError(In(), old(State()), FormatExpectedNextToken(t))
    {
      errors := errors + [ParseError(FormatExpectedNextToken(t), current.line, current.span, source)];
    }

    /** expect (gov/parser/parse.go:94-101). */
    method Expect(t: TokenType) returns (ok: bool)
      requires Valid()
      modifies this, scanner, pool
      ensures Valid() && (ok, State()) == ExpectSpec(In(), old(State()), t)
    {
      if peek.kind == t {
        NextToken();
        return true;
      }
      PeekError(t);
      return false;
    }

    /** checkOptional (gov/parser/parse.go:86-92). */
    method CheckOptional(t: TokenType) returns (ok: bool)
      requires Valid()
      modifies this, scanner, pool
      ensures Valid() && (ok, State()) == CheckOptionalSpec(In(), old(State()), t)
    {
      if peek.kind == t {
        NextToken();
        return true;
      }
      return false;
    }

    // -------------------------------------------------------------------
    // Expressions

    /** ParseExpr (gov/parser/parse.go:396-445): a factor, then the loop. */
    method ParseExpr(minPrec: int) returns (r: Parsed<Expr>)
      requires Valid()
      modifies this, scanner, pool
      ensures Valid() && (r, State()) == ExprSpec(In(), old(State()), minPrec)
      decreases Measure(In(), State()), 4
    {
      var left := ParseFactor();
      if left.Panicked? {
        return left;
      }
      r := ParseOperators(minPrec, left.value);
    }

    /** The loop of ParseExpr (gov/parser/parse.go:399-444), from the left
        operand built so far. */
    method ParseOperators(minPrec: int, left: Expr) returns (r: Parsed<Expr>)
      requires Valid()
      modifies this, scanner, pool
      ensures Valid() && (r, State()) == ExprLoop(In(), old(State()), minPrec, left)
      decreases Measure(In(), State()), 3
    {
      ghost var s0 := State();
      var l := left;
      while current.kind != SEMICOLON && minPrec < Precedence(peek.kind)
        invariant Valid()
        invariant ExprLoop(In(), State(), minPrec, l) == ExprLoop(In(), s0, minPrec, left)
        decreases Measure(In(), State())
      {
        assert Cur(In(), State()) == current && Peek(In(), State()) == peek;
        if !IsInfixOp(peek.kind) {
          return Done(l);
        }
        ExprLoopStep(In(), State(), minPrec, l);
        var next := ParseInfix(l);
        if next.Panicked? {
          return next;
        }
        l := next.value;
      }
      return Done(l);
    }

    /** One turn of the loop of ParseExpr (gov/parser/parse.go:404-441):
        the operator is consumed and its code chooses the branch. */
    method ParseInfix(left: Expr) returns (r: Parsed<Expr>)
      requires Valid() && IsInfixOp(Peek(In(), State()).kind)
      modifies this, scanner, pool
      ensures Valid() && (r, State()) == InfixSpec(In(), old(State()), left)
      decreases Measure(In(), State()), 2
    {
      NextToken();
      var op := BinOp(current.kind).0;
      var nextPrec := Precedence(current.kind);
      if op == Ast.A_ASSIGN {
        r := ParseAssign(left, nextPrec);
      } else if op == Ast.A_QUESTIONMARK {
        r := ParseTernary(left, nextPrec);
      } else {
        r := ParseBinary(left, op, nextPrec);
      }
    }

    /** The `=` branch (gov/parser/parse.go:408-418). */
    method ParseAssign(left: Expr, nextPrec: int) returns (r: Parsed<Expr>)
      requires Valid() && Cur(In(), State()).kind != EOF
      modifies this, scanner, pool
      ensures Valid() && (r, State()) == AssignRest(In(), old(State()), left, nextPrec)
      decreases Measure(In(), State()), 1
    {
      NextToken();
      var right := ParseExpr(nextPrec);
      if right.Panicked? {
        return right;
      }
      if !left.Var? {
        return Panicked("left side of assign must be var");
      }
      return Done(Assignment(left.ident, right.value));
    }

    /** The `?` branch (gov/parser/parse.go:419-432). */
    method ParseTernary(left: Expr, nextPrec: int) returns (r: Parsed<Expr>)
      requires Valid() && Cur(In(), State()).kind != EOF
      modifies this, scanner, pool
      ensures Valid() && (r, State()) == TernaryRest(In(), old(State()), left, nextPrec)
      decreases Measure(In(), State()), 1
    {
      NextToken();
      var middle := ParseExpr(Lowest);
      if middle.Panicked? {
        return middle;
      }
      var ok := Expect(COLON);
      if !ok {
        return Panicked("expected colon after middle expression in ternary");
      }
      NextToken();
      var right := ParseExpr(nextPrec);
      if right.Panicked? {
        return right;
      }
      return Done(Conditional(left, middle.value, right.value));
    }

    /** Any other operator (gov/parser/parse.go:433-441). */
    method ParseBinary(left: Expr, op: int, nextPrec: int) returns (r: Parsed<Expr>)
      requires Valid() && Cur(In(), State()).kind != EOF
      modifies this, scanner, pool
      ensures Valid() && (r, State()) == BinaryRest(In(), old(State()), left, op, nextPrec)
      decreases Measure(In(), State()), 1
    {
      NextToken();
      var right := ParseExpr(nextPrec);
      if right.Panicked? {
        return right;
      }
      return Done(Binary(left, right.value, op));
    }

    /** ParseFactor (gov/parser/parse.go:337-351), with ParseIdent and
        ParseIntLit (:501-510) read off the current token. */
    method ParseFactor() returns (r: Parsed<Expr>)
      requires Valid()
      modifies this, scanner, pool
      ensures Valid() && (r, State()) == FactorSpec(In(), old(State()))
      decreases Measure(In(), State()), 3
    {
      var t := current;
      if t.kind == IDENT {
        r := IdentExpr(t);
      } else if t.kind == NUMBER {
        r := IntLitExpr(t);
      } else if t.kind == MINUS || t.kind == TILDE || t.kind == NOT {
        r := ParseUnary(t.kind);
      } else if t.kind == OPEN_PAREN {
        r := ParseGrouping();
      } else {
        AppendError(FormatUnknownExpression(t.kind));
        r := Done(NoExpr);
      }
    }

    /** ParseUnary (gov/parser/parse.go:482-493). */
    method ParseUnary(op: TokenType) returns (r: Parsed<Expr>)
      requires Valid() && Cur(In(), State()).kind != EOF
      modifies this, scanner, pool
      ensures Valid() && (r, State()) == UnarySpec(In(), old(State()), op)
      decreases Measure(In(), State()), 2
    {
      NextToken();
      var right := ParseExpr(Lowest);
      if right.Panicked? {
        return right;
      }
      return Done(Unary(op, right.value));
    }

    /** ParseGrouping (gov/parser/parse.go:494-499). */
    method ParseGrouping() returns (r: Parsed<Expr>)
      requires Valid() && Cur(In(), State()).kind != EOF
      modifies this, scanner, pool
      ensures Valid() && (r, State()) == GroupingSpec(In(), old(State()))
      decreases Measure(In(), State()), 2
    {
      NextToken();
      r := ParseExpr(Lowest);
      if r.Panicked? {
        return;
      }
      var _ := Expect(CLOSE_PAREN);
    }

    // -------------------------------------------------------------------
    // Statements

    /** ParseStmt (gov/parser/parse.go:158-167). */
    method ParseStmt() returns (r: Parsed<Stmt>)
      requires Valid()
      modifies this, scanner, pool
      ensures Valid() && (r, State()) == StmtSpec(In(), old(State()))
      decreases Measure(In(), State()), 2
    {
      if current.kind == RETURN {
        r := ParseReturn();
      } else if current.kind == IF {
        r := ParseIf();
      } else {
        r := ParseExpressionStmt();
      }
    }

    /** ParseExpressionStmt (gov/parser/parse.go:169-182). */
    method ParseExpressionStmt() returns (r: Parsed<Stmt>)
      requires Valid()
      modifies this, scanner, pool
      ensures Valid() && (r, State()) == ExprStmtSpec(In(), old(State()))
    {
      var e := ParseExpr(Lowest);
      if e.Panicked? {
        return Panicked(e.reason);
      }
      var ok := Expect(SEMICOLON);
      if !ok {
        return Done(FailedExpressionStmt);
      }
      return Done(ExpressionStmt(e.value));
    }

    /** ParseReturn (gov/parser/parse.go:318-334). */
    method ParseReturn() returns (r: Parsed<Stmt>)
      requires Valid()
      modifies this, scanner, pool
      ensures Valid() && (r, State()) == ReturnSpec(In(), old(State()))
    {
      var token := current;
      NextToken();
      var value := ParseExpr(Lowest);
      if value.Panicked? {
        return Panicked(value.reason);
      }
      var ok := Expect(SEMICOLON);
      if !ok {
        AppendError(ErrMissingSemicolon);
        return Done(FailedReturn);
      }
      return Done(ReturnStmt(token, value.value));
    }

    /** ParseIf (gov/parser/parse.go:272-286): the condition, `бол` and
        the opening brace. */
    method ParseIf() returns (r: Parsed<Stmt>)
      requires Valid()
      modifies this, scanner, pool
      ensures Valid() && (r, State()) == IfSpec(In(), old(State()))
      decreases Measure(In(), State()), 1
    {
      NextToken();
      var cond := ParseExpr(Lowest);
      if cond.Panicked? {
        return Panicked(cond.reason);
      }
      var ok := Expect(IS);
      if !ok {
        AppendError(ErrMissingIs);
        return Done(FailedIf);
      }
      ok := Expect(OPEN_BRACE);
      if !ok {
        AppendError(ErrMissingBraceOpen);
        return Done(FailedIf);
      }
      r := ParseThen(cond.value);
    }

    /** The rest of ParseIf (gov/parser/parse.go:287-315): the then
        branch, its closing brace, and the optional else. */
    method ParseThen(cond: Expr) returns (r: Parsed<Stmt>)
      requires Valid() && Cur(In(), State()).kind == OPEN_BRACE
      modifies this, scanner, pool
      ensures Valid() && (r, State()) == IfThen(In(), old(State()), cond)
      decreases Measure(In(), State()), 1
    {
      NextToken();
      var thenStmt := ParseStmt();
      if thenStmt.Panicked? {
        return thenStmt;
      }
      var ok := Expect(CLOSE_BRACE);
      if !ok {
        AppendError(ErrMissingBraceClose);
        return Done(FailedIf);
      }
      var hasElse := CheckOptional(IFNOT);
      if !hasElse {
        return Done(IfStmt(cond, thenStmt.value, NoStmt));
      }
      r := ParseElse(cond, thenStmt.value);
    }

    /** The else branch of ParseIf (gov/parser/parse.go:295-309). */
    method ParseElse(cond: Expr, thenStmt: Stmt) returns (r: Parsed<Stmt>)
      requires Valid() && Cur(In(), State()).kind == IFNOT
      modifies this, scanner, pool
      ensures Valid() && (r, State()) == ElseSpec(In(), old(State()), cond, thenStmt)
      decreases Measure(In(), State()), 1
    {
      NextToken();
      var ok := Expect(OPEN_BRACE);
      if !ok {
        AppendError(ErrMissingBraceOpen);
        return Done(FailedIf);
      }
      r := ParseElseBody(cond, thenStmt);
    }

    /** The braced else branch (gov/parser/parse.go:302-308). */
    method ParseElseBody(cond: Expr, thenStmt: Stmt) returns (r: Parsed<Stmt>)
      requires Valid() && Cur(In(), State()).kind == OPEN_BRACE
      modifies this, scanner, pool
      ensures Valid() && (r, State()) == ElseBody(In(), old(State()), cond, thenStmt)
      decreases Measure(In(), State()), 0
    {
      NextToken();
      var elseStmt := ParseStmt();
      if elseStmt.Panicked? {
        return elseStmt;
      }
      var ok := Expect(CLOSE_BRACE);
      if !ok {
        AppendError(ErrMissingBraceClose);
        return Done(FailedIf);
      }
      return Done(IfStmt(cond, thenStmt, elseStmt.value));
    }

    // -------------------------------------------------------------------
    // Declarations

    /** ParseDecl (gov/parser/parse.go:232-249): the name and the optional
        type. */
    method ParseDecl() returns (r: Parsed<Decl>)
      requires Valid()
      modifies this, scanner, pool
      ensures Valid() && (r, State()) == DeclSpec(In(), old(State()))
    {
      NextToken();
      if current.value.None? {
        AppendError(ErrMissingIdentifier);
      }
      var ident := current;
      var colon := CheckOptional(COLON);
      if colon {
        var ok := Expect(INT_TYPE);
        if !ok {
          AppendError(ErrMissingIntType);
          return Done(FailedDecl);
        }
      }
      r := ParseDeclRest(ident);
    }

    /** The rest of ParseDecl (gov/parser/parse.go:251-269). */
    method ParseDeclRest(ident: Token) returns (r: Parsed<Decl>)
      requires Valid()
      modifies this, scanner, pool
      ensures Valid() && (r, State()) == DeclRest(In(), old(State()), ident)
    {
      if ident.value.None? {
        return Panicked(NilDereference);
      }
      var assign := CheckOptional(ASSIGN);
      if !assign {
        var ok := Expect(SEMICOLON);
        if !ok {
          AppendError(ErrMissingSemicolon);
          return Done(FailedDecl);
        }
        return Done(Decl(ident.value.value, NoExpr));
      }
      NextToken();
      var e := ParseExpr(Lowest);
      if e.Panicked? {
        return Panicked(e.reason);
      }
      var ok := Expect(SEMICOLON);
      if !ok {
        AppendError(ErrMissingSemicolon);
        return Done(FailedDecl);
      }
      return Done(Decl(ident.value.value, e.value));
    }

    // -------------------------------------------------------------------
    // Blocks, functions, the program

    /** ParseBlockItem (gov/parser/parse.go:147-156). */
    method ParseBlockItem() returns (r: Parsed<BlockItem>)
      requires Valid()
      modifies this, scanner, pool
      ensures Valid() && (r, State()) == BlockItemSpec(In(), old(State()))
    {
      if current.kind == VAR_DECL {
        var d := ParseDecl();
        r := if d.Panicked? then Panicked(d.reason) else Done(DeclItem(d.value));
      } else {
        var st := ParseStmt();
        r := if st.Panicked? then Panicked(st.reason) else Done(StmtItem(st.value));
      }
    }

    /** ParseBlockItems (gov/parser/parse.go:215-229). */
    method ParseBlockItems() returns (r: Parsed<seq<BlockItem>>)
      requires Valid()
      modifies this, scanner, pool
      ensures Valid() && (r, State()) == BlockItemsSpec(In(), old(State()))
    {
      NextToken();
      ghost var s0 := State();
      var items: seq<BlockItem> := [];
      while current.kind != CLOSE_BRACE && current.kind != EOF
        invariant Valid() && BlockLoop(In(), State(), items) == BlockLoop(In(), s0, [])
        decreases Measure(In(), State())
      {
        ghost var s1 := State();
        var item := ParseBlockItem();
        if item.Panicked? {
          return Panicked(item.reason);
        }
        NextAfterItem(In(), s1, State());
        items := items + [item.value];
        NextToken();
      }
      return Done(items);
    }

    /** ParseFN (gov/parser/parse.go:185-212). */
    method ParseFn() returns (r: Parsed<Option<FnDef>>)
      requires Valid()
      modifies this, scanner, pool
      ensures Valid() && (r, State()) == FnSpec(In(), old(State()))
    {
      NextToken();
      var name := current;
      var ok := Expect(OPEN_PAREN);
      if !ok { return Done(None); }
      ok := Expect(CLOSE_PAREN);
      if !ok { return Done(None); }
      ok := Expect(RIGHT_ARROW);
      if !ok { return Done(None); }
      ok := Expect(INT_TYPE);
      if !ok { return Done(None); }
      ok := Expect(OPEN_BRACE);
      if !ok { return Done(None); }
      var items := ParseBlockItems();
      if items.Panicked? {
        return Panicked(items.reason);
      }
      return Done(Some(FnDef(name, items.value)));
    }

    /** ParseProgram (gov/parser/parse.go:126-144). */
    method ParseProgram() returns (r: Parsed<Outcome>)
      requires Valid()
      modifies this, scanner, pool
      ensures Valid() && (r, State()) == ProgramSpec(In(), old(State()))
    {
      ghost var s0 := State();
      var fnDef := FnDef(ZeroToken, []);
      while current.kind != EOF
        invariant Valid() && ProgramLoop(In(), State(), fnDef) == ProgramLoop(In(), s0, FnDef(ZeroToken, []))
        decreases Measure(In(), State())
      {
        ghost var s1 := State();
        var d := ParseFn();
        if d.Panicked? {
          return Panicked(d.reason);
        }
        NextAfterItem(In(), s1, State());
        if d.value.Some? {
          fnDef := d.value.value;
        }
        NextToken();
      }
      if |errors| > 0 {
        var first := errors[0];
        errors := [];
        return Done(Rejected(first));
      }
      return Done(Accepted(Program(fnDef)));
    }
  }
}
