// What the parser of gov/parser/parse.go builds for short token streams:
// precedence climbing for binary operators, the ternary and assignment
// branches of ParseExpr, the unary operand, unknown factors, ParseFN's
// header and ParseDecl without a name. Every lemma is about the functions
// of module GoParser, and so, through their contracts, about the methods
// of the Parser class.
module GoParserFacts {
  import opened Wrappers
  import opened GoLexer
  import opened ParseErrors
  import opened GoParser
  import Ast

  /** A token ParseFactor turns into a leaf without a panic. */
  predicate IsOperand(t: Token)
  {
    (t.kind == IDENT || t.kind == NUMBER) && t.value.Some?
  }

  /** The leaf ParseIdent or ParseIntLit builds for it. */
  function Operand(t: Token): Expr
    requires IsOperand(t)
  {
    if t.kind == IDENT then Var(t.value.value) else Constant(t, ParseIntBase0(t.value.value))
  }

  /** An operator that takes the generic branch of ParseExpr's loop. */
  predicate PlainOp(t: TokenType)
  {
    Precedence(t) > Lowest && t != ASSIGN && t != QUESTIONMARK
  }

  /** The token `k` places after Current. */
  function At(inp: Input, ps: PState, k: nat): Token
    requires Stream(inp)
  {
    TokAt(inp.tokens, ps.pos + k)
  }

  /** The state `k` NextTokens later. */
  function Skip(ps: PState, k: nat): PState
  {
    ps.(pos := ps.pos + k)
  }

  // ---------------------------------------------------------------------
  // Steps of the loop of ParseExpr

  lemma FactorOperand(inp: Input, ps: PState)
    requires Stream(inp) && IsOperand(Cur(inp, ps))
    ensures FactorSpec(inp, ps) == (Done(Operand(Cur(inp, ps))), ps)
  {
  }

  lemma LoopEnds(inp: Input, ps: PState, minPrec: int, left: Expr)
    requires Stream(inp) && Ends(inp, ps, minPrec)
    ensures ExprLoop(inp, ps, minPrec, left) == (Done(left), ps)
  {
  }

  /** An operand followed by an operator that does not bind tighter than
      the minimum is the whole expression. */
  lemma OperandAlone(inp: Input, ps: PState, minPrec: int)
    requires Stream(inp) && IsOperand(Cur(inp, ps)) && Precedence(Peek(inp, ps).kind) <= minPrec
    ensures ExprSpec(inp, ps, minPrec) == (Done(Operand(Cur(inp, ps))), ps)
  {
    FactorOperand(inp, ps);
    LoopEnds(inp, ps, minPrec, Operand(Cur(inp, ps)));
  }

  /** A generic operator that binds tighter than the minimum takes a
      right operand at its own level and becomes the new left operand. */
  lemma LoopTakesPlainOp(inp: Input, ps: PState, minPrec: int, left: Expr)
    requires Stream(inp) && Cur(inp, ps).kind != SEMICOLON
    requires PlainOp(Peek(inp, ps).kind) && minPrec < Precedence(Peek(inp, ps).kind)
    ensures ExprLoop(inp, ps, minPrec, left)
      == var (right, ps1) := ExprSpec(inp, Skip(ps, 2), Precedence(Peek(inp, ps).kind));
         if right.Panicked? then (right, ps1)
         else ExprLoop(inp, ps1, minPrec, Binary(left, right.value, BinOp(Peek(inp, ps).kind).0))
  {
    TraceBinaryCodes(Peek(inp, ps).kind);
    OperatorsHavePrecedence(Peek(inp, ps).kind);
    var t := Peek(inp, ps).kind;
    var ps1 := NextSpec(inp, ps);
    assert Cur(inp, ps1) == Peek(inp, ps);
    assert NextSpec(inp, ps1) == Skip(ps, 2);
    assert InfixSpec(inp, ps, left) == BinaryRest(inp, ps1, left, BinOp(t).0, Precedence(t));
  }

  /** `=` binding tighter than the minimum takes the assignment branch. */
  lemma LoopTakesAssign(inp: Input, ps: PState, minPrec: int, left: Expr)
    requires Stream(inp) && Cur(inp, ps).kind != SEMICOLON
    requires Peek(inp, ps).kind == ASSIGN && minPrec < PrecAssign
    ensures ExprLoop(inp, ps, minPrec, left)
      == var (next, ps1) := AssignRest(inp, Skip(ps, 1), left, PrecAssign);
         if next.Panicked? then (next, ps1) else ExprLoop(inp, ps1, minPrec, next.value)
  {
    var ps1 := NextSpec(inp, ps);
    assert Cur(inp, ps1) == Peek(inp, ps);
    assert InfixSpec(inp, ps, left) == AssignRest(inp, ps1, left, PrecAssign);
  }

  /** `?` binding tighter than the minimum takes the conditional branch. */
  lemma LoopTakesQuestion(inp: Input, ps: PState, minPrec: int, left: Expr)
    requires Stream(inp) && Cur(inp, ps).kind != SEMICOLON
    requires Peek(inp, ps).kind == QUESTIONMARK && minPrec < PrecConditional
    ensures ExprLoop(inp, ps, minPrec, left)
      == var (next, ps1) := TernaryRest(inp, Skip(ps, 1), left, PrecConditional);
         if next.Panicked? then (next, ps1) else ExprLoop(inp, ps1, minPrec, next.value)
  {
    var ps1 := NextSpec(inp, ps);
    assert Cur(inp, ps1) == Peek(inp, ps);
    assert InfixSpec(inp, ps, left) == TernaryRest(inp, ps1, left, PrecConditional);
  }

  /** The codes of the generic operators are neither `=` nor `?`. */
  lemma TraceBinaryCodes(t: TokenType)
    requires PlainOp(t)
    ensures BinOp(t).0 != Ast.A_ASSIGN && BinOp(t).0 != Ast.A_QUESTIONMARK
  {
    CodeKindInverts(t);
    assert CodeKind(Ast.A_ASSIGN) == ASSIGN && CodeKind(Ast.A_QUESTIONMARK) == QUESTIONMARK;
  }

  /** `a op b`, then a token that does not bind tighter than the minimum,
      is one binary node. */
  lemma PairParses(inp: Input, ps: PState, minPrec: int)
    requires Stream(inp)
    requires IsOperand(At(inp, ps, 0)) && PlainOp(At(inp, ps, 1).kind) && minPrec < Precedence(At(inp, ps, 1).kind)
    requires IsOperand(At(inp, ps, 2)) && Precedence(At(inp, ps, 3).kind) <= minPrec
    ensures ExprSpec(inp, ps, minPrec)
      == (Done(Binary(Operand(At(inp, ps, 0)), Operand(At(inp, ps, 2)), BinOp(At(inp, ps, 1).kind).0)), Skip(ps, 2))
  {
    var a := Operand(At(inp, ps, 0));
    var ps2 := Skip(ps, 2);
    assert Cur(inp, ps2) == At(inp, ps, 2) && Peek(inp, ps2) == At(inp, ps, 3);
    FactorOperand(inp, ps);
    LoopTakesPlainOp(inp, ps, minPrec, a);
    OperandAlone(inp, ps2, Precedence(At(inp, ps, 1).kind));
    LoopEnds(inp, ps2, minPrec, Binary(a, Operand(At(inp, ps, 2)), BinOp(At(inp, ps, 1).kind).0));
  }

  /** A unary operator parses its operand from the next token at Lowest. */
  lemma UnaryStep(inp: Input, ps: PState)
    requires Stream(inp) && Cur(inp, ps).kind in {MINUS, TILDE, NOT}
    ensures FactorSpec(inp, ps)
      == var (inner, ps1) := ExprSpec(inp, Skip(ps, 1), Lowest);
         if inner.Panicked? then (inner, ps1) else (Done(Unary(Cur(inp, ps).kind, inner.value)), ps1)
  {
    assert NextSpec(inp, ps) == Skip(ps, 1);
    assert FactorSpec(inp, ps) == UnarySpec(inp, ps, Cur(inp, ps).kind);
  }

  // ---------------------------------------------------------------------
  // Precedence and associativity

  /** `a op1 b op2 c`, followed by a token that is not an operator: when
      `op1` binds at least as tightly as `op2` the tree leans left (so a
      chain of one level is left-associative), otherwise `op2` takes `b`
      and `c` first. Parsing stops with `c` as Current and no error. */
  lemma {:induction false} PrecedenceClimbing(inp: Input, ps: PState)
    requires Stream(inp)
    requires IsOperand(At(inp, ps, 0)) && PlainOp(At(inp, ps, 1).kind) && IsOperand(At(inp, ps, 2))
    requires PlainOp(At(inp, ps, 3).kind) && IsOperand(At(inp, ps, 4)) && Precedence(At(inp, ps, 5).kind) == Lowest
    ensures var a, b, c := Operand(At(inp, ps, 0)), Operand(At(inp, ps, 2)), Operand(At(inp, ps, 4));
      var op1, op2 := At(inp, ps, 1).kind, At(inp, ps, 3).kind;
      ExprSpec(inp, ps, Lowest)
      == (Done(if Precedence(op1) >= Precedence(op2) then Binary(Binary(a, b, BinOp(op1).0), c, BinOp(op2).0)
               else Binary(a, Binary(b, c, BinOp(op2).0), BinOp(op1).0)),
          Skip(ps, 4))
  {
    if Precedence(At(inp, ps, 1).kind) >= Precedence(At(inp, ps, 3).kind) {
      LeansLeft(inp, ps);
    } else {
      LeansRight(inp, ps);
    }
  }

  lemma LeansLeft(inp: Input, ps: PState)
    requires Stream(inp)
    requires IsOperand(At(inp, ps, 0)) && PlainOp(At(inp, ps, 1).kind) && IsOperand(At(inp, ps, 2))
    requires PlainOp(At(inp, ps, 3).kind) && IsOperand(At(inp, ps, 4)) && Precedence(At(inp, ps, 5).kind) == Lowest
    requires Precedence(At(inp, ps, 1).kind) >= Precedence(At(inp, ps, 3).kind)
    ensures ExprSpec(inp, ps, Lowest)
      == (Done(Binary(Binary(Operand(At(inp, ps, 0)), Operand(At(inp, ps, 2)), BinOp(At(inp, ps, 1).kind).0),
                      Operand(At(inp, ps, 4)), BinOp(At(inp, ps, 3).kind).0)),
          Skip(ps, 4))
  {
    var a, b, c := Operand(At(inp, ps, 0)), Operand(At(inp, ps, 2)), Operand(At(inp, ps, 4));
    var op1, op2 := At(inp, ps, 1).kind, At(inp, ps, 3).kind;
    var ps2, ps4 := Skip(ps, 2), Skip(ps, 4);
    var ab := Binary(a, b, BinOp(op1).0);
    calc {
      ExprSpec(inp, ps, Lowest);
    == { FactorOperand(inp, ps); }
      ExprLoop(inp, ps, Lowest, a);
    == { LoopTakesPlainOp(inp, ps, Lowest, a);
         assert Cur(inp, ps2) == At(inp, ps, 2) && Peek(inp, ps2) == At(inp, ps, 3);
         OperandAlone(inp, ps2, Precedence(op1)); }
      ExprLoop(inp, ps2, Lowest, ab);
    == { LoopTakesPlainOp(inp, ps2, Lowest, ab);
         assert Cur(inp, ps4) == At(inp, ps, 4) && Peek(inp, ps4) == At(inp, ps, 5);
         assert Skip(ps2, 2) == ps4;
         OperandAlone(inp, ps4, Precedence(op2)); }
      ExprLoop(inp, ps4, Lowest, Binary(ab, c, BinOp(op2).0));
    == { assert Peek(inp, ps4) == At(inp, ps, 5);
         LoopEnds(inp, ps4, Lowest, Binary(ab, c, BinOp(op2).0)); }
      (Done(Binary(ab, c, BinOp(op2).0)), ps4);
    }
  }

  lemma LeansRight(inp: Input, ps: PState)
    requires Stream(inp)
    requires IsOperand(At(inp, ps, 0)) && PlainOp(At(inp, ps, 1).kind) && IsOperand(At(inp, ps, 2))
    requires PlainOp(At(inp, ps, 3).kind) && IsOperand(At(inp, ps, 4)) && Precedence(At(inp, ps, 5).kind) == Lowest
    requires Precedence(At(inp, ps, 1).kind) < Precedence(At(inp, ps, 3).kind)
    ensures ExprSpec(inp, ps, Lowest)
      == (Done(Binary(Operand(At(inp, ps, 0)),
                      Binary(Operand(At(inp, ps, 2)), Operand(At(inp, ps, 4)), BinOp(At(inp, ps, 3).kind).0),
                      BinOp(At(inp, ps, 1).kind).0)),
          Skip(ps, 4))
  {
    var a := Operand(At(inp, ps, 0));
    var bc := Binary(Operand(At(inp, ps, 2)), Operand(At(inp, ps, 4)), BinOp(At(inp, ps, 3).kind).0);
    var abc := Binary(a, bc, BinOp(At(inp, ps, 1).kind).0);
    FactorOperand(inp, ps);
    RightPairBinds(inp, ps, a);
    assert Peek(inp, Skip(ps, 4)) == At(inp, ps, 5);
    LoopEnds(inp, Skip(ps, 4), Lowest, abc);
  }

  /** After `a`, an operator followed by `b op2 c` with `op2` binding
      tighter takes all of `b op2 c` as its right operand. */
  lemma RightPairBinds(inp: Input, ps: PState, a: Expr)
    requires Stream(inp)
    requires IsOperand(At(inp, ps, 0)) && PlainOp(At(inp, ps, 1).kind) && IsOperand(At(inp, ps, 2))
    requires PlainOp(At(inp, ps, 3).kind) && IsOperand(At(inp, ps, 4)) && Precedence(At(inp, ps, 5).kind) == Lowest
    requires Precedence(At(inp, ps, 1).kind) < Precedence(At(inp, ps, 3).kind)
    ensures ExprLoop(inp, ps, Lowest, a)
      == ExprLoop(inp, Skip(ps, 4), Lowest,
                  Binary(a, Binary(Operand(At(inp, ps, 2)), Operand(At(inp, ps, 4)), BinOp(At(inp, ps, 3).kind).0),
                         BinOp(At(inp, ps, 1).kind).0))
  {
    var ps2 := Skip(ps, 2);
    LoopTakesPlainOp(inp, ps, Lowest, a);
    assert At(inp, ps2, 0) == At(inp, ps, 2) && At(inp, ps2, 1) == At(inp, ps, 3);
    assert At(inp, ps2, 2) == At(inp, ps, 4) && At(inp, ps2, 3) == At(inp, ps, 5);
    assert Skip(ps2, 2) == Skip(ps, 4);
    PairParses(inp, ps2, Precedence(At(inp, ps, 1).kind));
  }

  // ---------------------------------------------------------------------
  // The conditional

  /** `c ? a : b`, then a token that is not an operator, is a conditional
      of the three operands, and no error is recorded. */
  lemma {:induction false} TernaryParses(inp: Input, ps: PState)
    requires Stream(inp)
    requires IsOperand(At(inp, ps, 0)) && At(inp, ps, 1).kind == QUESTIONMARK && IsOperand(At(inp, ps, 2))
    requires At(inp, ps, 3).kind == COLON && IsOperand(At(inp, ps, 4)) && Precedence(At(inp, ps, 5).kind) == Lowest
    ensures ExprSpec(inp, ps, Lowest)
      == (Done(Conditional(Operand(At(inp, ps, 0)), Operand(At(inp, ps, 2)), Operand(At(inp, ps, 4)))), Skip(ps, 4))
  {
    var c, a, b := Operand(At(inp, ps, 0)), Operand(At(inp, ps, 2)), Operand(At(inp, ps, 4));
    var ps4 := Skip(ps, 4);
    assert Cur(inp, ps4) == At(inp, ps, 4) && Peek(inp, ps4) == At(inp, ps, 5);
    FactorOperand(inp, ps);
    LoopTakesQuestion(inp, ps, Lowest, c);
    TernaryRestParses(inp, ps, c);
    LoopEnds(inp, ps4, Lowest, Conditional(c, a, b));
  }

  /** The branch of `?` on `a : b`, then a token that is not an operator. */
  lemma TernaryRestParses(inp: Input, ps: PState, c: Expr)
    requires Stream(inp)
    requires At(inp, ps, 1).kind == QUESTIONMARK && IsOperand(At(inp, ps, 2))
    requires At(inp, ps, 3).kind == COLON && IsOperand(At(inp, ps, 4)) && Precedence(At(inp, ps, 5).kind) == Lowest
    ensures TernaryRest(inp, Skip(ps, 1), c, PrecConditional)
      == (Done(Conditional(c, Operand(At(inp, ps, 2)), Operand(At(inp, ps, 4)))), Skip(ps, 4))
  {
    var ps1, ps2, ps3 := Skip(ps, 1), Skip(ps, 2), Skip(ps, 3);
    assert At(inp, ps1, 0) == At(inp, ps, 1) && At(inp, ps1, 1) == At(inp, ps, 2) && At(inp, ps1, 2) == At(inp, ps, 3);
    assert At(inp, ps3, 1) == At(inp, ps, 4) && At(inp, ps3, 2) == At(inp, ps, 5);
    OperandAfter(inp, ps1, Lowest);
    assert Skip(ps1, 1) == ps2 && NextSpec(inp, ps2) == ps3;
    OperandAfter(inp, ps3, PrecConditional);
    TernaryGiven(inp, ps1, c, PrecConditional);
  }

  /** The middle parsed, the colon present and the else side parsed. */
  lemma TernaryGiven(inp: Input, ps: PState, left: Expr, nextPrec: int)
    requires Stream(inp) && Cur(inp, ps).kind != EOF
    requires var (middle, ps1) := ExprSpec(inp, NextSpec(inp, ps), Lowest);
      && middle.Done? && Peek(inp, ps1).kind == COLON
      && ExprSpec(inp, NextSpec(inp, NextSpec(inp, ps1)), nextPrec).0.Done?
    ensures var (middle, ps1) := ExprSpec(inp, NextSpec(inp, ps), Lowest);
      var (right, ps3) := ExprSpec(inp, NextSpec(inp, NextSpec(inp, ps1)), nextPrec);
      TernaryRest(inp, ps, left, nextPrec) == (Done(Conditional(left, middle.value, right.value)), ps3)
  {
  }

  /** `c ? a` followed by a token that is neither `:` nor an operator
      panics, after expect has recorded the missing colon. */
  lemma {:induction false} TernaryWithoutColonPanics(inp: Input, ps: PState)
    requires Stream(inp)
    requires IsOperand(At(inp, ps, 0)) && At(inp, ps, 1).kind == QUESTIONMARK && IsOperand(At(inp, ps, 2))
    requires At(inp, ps, 3).kind != COLON && Precedence(At(inp, ps, 3).kind) == Lowest
    ensures ExprSpec(inp, ps, Lowest).0 == Panicked("expected colon after middle expression in ternary")
    ensures |ExprSpec(inp, ps, Lowest).1.errors| == |ps.errors| + 1
  {
    var c := Operand(At(inp, ps, 0));
    var ps1 := Skip(ps, 1);
    assert Cur(inp, ps1) == At(inp, ps, 1);
    OperandThenLoop(inp, ps, Lowest);
    LoopTakesQuestion(inp, ps, Lowest, c);
    MiddleWithoutColon(inp, ps1, c);
  }

  /** An operand first: what follows is the loop from that operand. */
  lemma OperandThenLoop(inp: Input, ps: PState, minPrec: int)
    requires Stream(inp) && IsOperand(Cur(inp, ps))
    ensures ExprSpec(inp, ps, minPrec) == ExprLoop(inp, ps, minPrec, Operand(Cur(inp, ps)))
  {
    FactorOperand(inp, ps);
  }

  /** After `?`, a lone operand with no colon behind it. */
  lemma MiddleWithoutColon(inp: Input, ps: PState, left: Expr)
    requires Stream(inp) && Cur(inp, ps).kind == QUESTIONMARK && IsOperand(At(inp, ps, 1))
    requires At(inp, ps, 2).kind != COLON && Precedence(At(inp, ps, 2).kind) == Lowest
    ensures TernaryRest(inp, ps, left, PrecConditional).0 == Panicked("expected colon after middle expression in ternary")
    ensures |TernaryRest(inp, ps, left, PrecConditional).1.errors| == |ps.errors| + 1
  {
    var ps1 := Skip(ps, 1);
    OperandAfter(inp, ps, Lowest);
    MissingColon(inp, ps, left, PrecConditional, ps1);
  }

  /** A middle that parses, then no colon. */
  lemma MissingColon(inp: Input, ps: PState, left: Expr, nextPrec: int, ps1: PState)
    requires Stream(inp) && Cur(inp, ps).kind != EOF
    requires ExprSpec(inp, NextSpec(inp, ps), Lowest).0.Done? && ExprSpec(inp, NextSpec(inp, ps), Lowest).1 == ps1
    requires Peek(inp, ps1).kind != COLON
    ensures TernaryRest(inp, ps, left, nextPrec)
      == (Panicked("expected colon after middle expression in ternary"), ExpectSpec(inp, ps1, COLON).1)
  {
  }

  /** The operand right after the current token, followed by a token that
      binds no tighter than `minPrec`, is a whole expression. */
  lemma OperandAfter(inp: Input, ps: PState, minPrec: int)
    requires Stream(inp) && IsOperand(At(inp, ps, 1)) && Precedence(At(inp, ps, 2).kind) <= minPrec
    ensures NextSpec(inp, ps) == Skip(ps, 1) && Peek(inp, Skip(ps, 1)) == At(inp, ps, 2)
    ensures ExprSpec(inp, Skip(ps, 1), minPrec) == (Done(Operand(At(inp, ps, 1))), Skip(ps, 1))
  {
    var ps1 := Skip(ps, 1);
    assert Cur(inp, ps1) == At(inp, ps, 1) && Peek(inp, ps1) == At(inp, ps, 2);
    OperandAlone(inp, ps1, minPrec);
  }

  // ---------------------------------------------------------------------
  // Assignment

  /** `x = e`, then a token that is not an operator, assigns the operand
      to the variable. */
  lemma {:induction false} AssignParses(inp: Input, ps: PState)
    requires Stream(inp)
    requires IsOperand(At(inp, ps, 0)) && At(inp, ps, 0).kind == IDENT && At(inp, ps, 1).kind == ASSIGN
    requires IsOperand(At(inp, ps, 2)) && Precedence(At(inp, ps, 3).kind) == Lowest
    ensures ExprSpec(inp, ps, Lowest)
      == (Done(Assignment(At(inp, ps, 0).value.value, Operand(At(inp, ps, 2)))), Skip(ps, 2))
  {
    var ps2 := Skip(ps, 2);
    AssignStep(inp, ps);
    assert Peek(inp, ps2) == At(inp, ps, 3);
    LoopEnds(inp, ps2, Lowest, Assignment(At(inp, ps, 0).value.value, Operand(At(inp, ps, 2))));
  }

  /** A number on the left of `=` panics once the right side is parsed. */
  lemma {:induction false} AssignToConstantPanics(inp: Input, ps: PState)
    requires Stream(inp)
    requires IsOperand(At(inp, ps, 0)) && At(inp, ps, 0).kind == NUMBER && At(inp, ps, 1).kind == ASSIGN
    requires IsOperand(At(inp, ps, 2)) && Precedence(At(inp, ps, 3).kind) == Lowest
    ensures ExprSpec(inp, ps, Lowest) == (Panicked("left side of assign must be var"), Skip(ps, 2))
  {
    AssignStep(inp, ps);
  }

  /** After `=`, a lone operand: the left side decides the outcome. */
  lemma AssignOperand(inp: Input, ps: PState, left: Expr)
    requires Stream(inp) && Cur(inp, ps).kind == ASSIGN && IsOperand(At(inp, ps, 1))
    requires Precedence(At(inp, ps, 2).kind) <= PrecAssign
    ensures AssignRest(inp, ps, left, PrecAssign)
      == (if left.Var? then Done(Assignment(left.ident, Operand(At(inp, ps, 1))))
          else Panicked("left side of assign must be var"), Skip(ps, 1))
  {
    OperandAfter(inp, ps, PrecAssign);
    AssignGiven(inp, ps, left, PrecAssign);
  }

  /** The right side of `=` parsed, the left side decides. */
  lemma AssignGiven(inp: Input, ps: PState, left: Expr, nextPrec: int)
    requires Stream(inp) && Cur(inp, ps).kind != EOF
    requires ExprSpec(inp, NextSpec(inp, ps), nextPrec).0.Done?
    ensures var (right, ps1) := ExprSpec(inp, NextSpec(inp, ps), nextPrec);
      AssignRest(inp, ps, left, nextPrec)
      == (if left.Var? then Done(Assignment(left.ident, right.value)) else Panicked("left side of assign must be var"), ps1)
  {
  }

  /** `a = b = c` panics: the right side of the first `=` is parsed at the
      level of `=` itself, so it stops before the second `=`, which then
      finds an assignment, not a variable, on its left. */
  lemma {:induction false} ChainedAssignmentPanics(inp: Input, ps: PState)
    requires Stream(inp)
    requires IsOperand(At(inp, ps, 0)) && At(inp, ps, 0).kind == IDENT && At(inp, ps, 1).kind == ASSIGN
    requires IsOperand(At(inp, ps, 2)) && At(inp, ps, 3).kind == ASSIGN
    requires IsOperand(At(inp, ps, 4)) && Precedence(At(inp, ps, 5).kind) == Lowest
    ensures ExprSpec(inp, ps, Lowest) == (Panicked("left side of assign must be var"), Skip(ps, 4))
  {
    var ps2 := Skip(ps, 2);
    var x := Operand(At(inp, ps, 0));
    assert x.Var? && x.ident == At(inp, ps, 0).value.value;
    var left := Assignment(x.ident, Operand(At(inp, ps, 2)));
    AssignStep(inp, ps);
    assert ExprSpec(inp, ps, Lowest) == ExprLoop(inp, ps2, Lowest, left);
    assert At(inp, ps2, 0) == At(inp, ps, 2) && At(inp, ps2, 1) == At(inp, ps, 3);
    assert At(inp, ps2, 2) == At(inp, ps, 4) && At(inp, ps2, 3) == At(inp, ps, 5);
    assert Skip(ps2, 2) == Skip(ps, 4);
    AssignAfterAssignment(inp, ps2, left);
  }

  /** `x = e`: the loop goes on from the assignment, past `e`. */
  lemma AssignStep(inp: Input, ps: PState)
    requires Stream(inp)
    requires IsOperand(At(inp, ps, 0)) && At(inp, ps, 1).kind == ASSIGN
    requires IsOperand(At(inp, ps, 2)) && Precedence(At(inp, ps, 3).kind) <= PrecAssign
    ensures var x := Operand(At(inp, ps, 0));
      x.Var? ==> ExprSpec(inp, ps, Lowest) == ExprLoop(inp, Skip(ps, 2), Lowest, Assignment(x.ident, Operand(At(inp, ps, 2))))
    ensures !Operand(At(inp, ps, 0)).Var? ==> ExprSpec(inp, ps, Lowest) == (Panicked("left side of assign must be var"), Skip(ps, 2))
  {
    var x := Operand(At(inp, ps, 0));
    var ps1 := Skip(ps, 1);
    assert Cur(inp, ps1) == At(inp, ps, 1);
    assert At(inp, ps1, 1) == At(inp, ps, 2) && At(inp, ps1, 2) == At(inp, ps, 3) && Skip(ps1, 1) == Skip(ps, 2);
    OperandThenLoop(inp, ps, Lowest);
    LoopTakesAssign(inp, ps, Lowest, x);
    AssignOperand(inp, ps1, x);
  }

  /** A second `=` after an assignment panics, its right side parsed. */
  lemma AssignAfterAssignment(inp: Input, ps: PState, left: Expr)
    requires Stream(inp) && !left.Var?
    requires Cur(inp, ps).kind != SEMICOLON && At(inp, ps, 1).kind == ASSIGN
    requires IsOperand(At(inp, ps, 2)) && Precedence(At(inp, ps, 3).kind) <= PrecAssign
    ensures ExprLoop(inp, ps, Lowest, left) == (Panicked("left side of assign must be var"), Skip(ps, 2))
  {
    var ps1 := Skip(ps, 1);
    assert Cur(inp, ps1) == At(inp, ps, 1);
    assert At(inp, ps1, 1) == At(inp, ps, 2) && At(inp, ps1, 2) == At(inp, ps, 3) && Skip(ps1, 1) == Skip(ps, 2);
    LoopTakesAssign(inp, ps, Lowest, left);
    AssignOperand(inp, ps1, left);
  }

  // ---------------------------------------------------------------------
  // Unary operators and unknown factors

  /** The operand of `-`, `~` or `!` is a whole expression parsed at
      Lowest, so `-a op b` negates `a op b`, not `a`. */
  lemma {:induction false} UnaryTakesWholeOperand(inp: Input, ps: PState)
    requires Stream(inp)
    requires At(inp, ps, 0).kind in {MINUS, TILDE, NOT} && IsOperand(At(inp, ps, 1))
    requires PlainOp(At(inp, ps, 2).kind) && IsOperand(At(inp, ps, 3)) && Precedence(At(inp, ps, 4).kind) == Lowest
    ensures ExprSpec(inp, ps, Lowest)
      == (Done(Unary(At(inp, ps, 0).kind,
                     Binary(Operand(At(inp, ps, 1)), Operand(At(inp, ps, 3)), BinOp(At(inp, ps, 2).kind).0))),
          Skip(ps, 3))
  {
    var ab := Binary(Operand(At(inp, ps, 1)), Operand(At(inp, ps, 3)), BinOp(At(inp, ps, 2).kind).0);
    var ps1, ps3 := Skip(ps, 1), Skip(ps, 3);
    assert At(inp, ps1, 0) == At(inp, ps, 1) && At(inp, ps1, 1) == At(inp, ps, 2);
    assert At(inp, ps1, 2) == At(inp, ps, 3) && At(inp, ps1, 3) == At(inp, ps, 4);
    assert Skip(ps1, 2) == ps3;
    PairParses(inp, ps1, Lowest);
    assert ExprSpec(inp, ps1, Lowest) == (Done(ab), ps3);
    UnaryThenLoop(inp, ps, Done(ab), ps3);
    assert Peek(inp, ps3) == At(inp, ps, 4);
    LoopEnds(inp, ps3, Lowest, Unary(At(inp, ps, 0).kind, ab));
  }

  /** A unary operator whose operand parses to `inner`: what follows is the
      loop from the unary expression. */
  lemma UnaryThenLoop(inp: Input, ps: PState, inner: Parsed<Expr>, ps1: PState)
    requires Stream(inp) && Cur(inp, ps).kind in {MINUS, TILDE, NOT}
    requires ExprSpec(inp, Skip(ps, 1), Lowest) == (inner, ps1) && inner.Done?
    ensures ExprSpec(inp, ps, Lowest) == ExprLoop(inp, ps1, Lowest, Unary(Cur(inp, ps).kind, inner.value))
  {
    UnaryStep(inp, ps);
  }

  /** A token that cannot start a factor gives a nil expression and one
      error at that token, and nothing is consumed. */
  lemma UnknownFactorRecorded(inp: Input, ps: PState)
    requires Stream(inp)
    requires Cur(inp, ps).kind !in {IDENT, NUMBER, MINUS, TILDE, NOT, OPEN_PAREN}
    ensures FactorSpec(inp, ps).0 == Done(NoExpr)
    ensures FactorSpec(inp, ps).1.pos == ps.pos
    ensures FactorSpec(inp, ps).1.errors
      == ps.errors + [ParseError(FormatUnknownExpression(Cur(inp, ps).kind), Cur(inp, ps).line, Cur(inp, ps).span, inp.source)]
  {
  }

  // ---------------------------------------------------------------------
  // Function headers and declarations

  /** The header ParseFN expects after the name. */
  predicate HeaderOk(inp: Input, ps: PState)
    requires Stream(inp)
  {
    && At(inp, ps, 2).kind == OPEN_PAREN && At(inp, ps, 3).kind == CLOSE_PAREN
    && At(inp, ps, 4).kind == RIGHT_ARROW && At(inp, ps, 5).kind == INT_TYPE
    && At(inp, ps, 6).kind == OPEN_BRACE
  }

  /** ParseFN gives a nil definition when a piece of the header is
      missing, and then it records exactly one error, for the first piece
      missing (FnSpec's own contract). */
  lemma FnNilWhenHeaderBroken(inp: Input, ps: PState)
    requires Stream(inp) && !HeaderOk(inp, ps)
    ensures FnSpec(inp, ps).0 == Done(None)
  {
    HeaderPeeks(inp, ps);
  }

  /** A program whose first function has a broken header is rejected, with
      the error that header recorded, however the rest of the stream
      parses; a missing `(` after the name is reported as such, at the
      name. */
  lemma ProgramRejectsBrokenHeader(inp: Input, ps: PState)
    requires Stream(inp) && ps.errors == [] && Cur(inp, ps).kind != EOF && !HeaderOk(inp, ps)
    ensures |FnSpec(inp, ps).1.errors| == 1
    ensures ProgramSpec(inp, ps).0.Done? ==> ProgramSpec(inp, ps).0 == Done(Rejected(FnSpec(inp, ps).1.errors[0]))
    ensures At(inp, ps, 2).kind != OPEN_PAREN ==>
      FnSpec(inp, ps).1.errors[0] == ParseError(FormatExpectedNextToken(OPEN_PAREN), At(inp, ps, 1).line, At(inp, ps, 1).span, inp.source)
  {
    FnNilWhenHeaderBroken(inp, ps);
    if At(inp, ps, 2).kind != OPEN_PAREN {
      MissingParenError(inp, ps);
    }
    FirstErrorKept(inp, ps);
  }

  lemma MissingParenError(inp: Input, ps: PState)
    requires Stream(inp) && At(inp, ps, 2).kind != OPEN_PAREN
    ensures FnSpec(inp, ps).1.errors == ps.errors
      + [ParseError(FormatExpectedNextToken(OPEN_PAREN), At(inp, ps, 1).line, At(inp, ps, 1).span, inp.source)]
  {
    HeaderPeeks(inp, ps);
  }

  /** When the first function of the loop records an error on an empty
      list and gives no definition, that error stays first. */
  lemma FirstErrorKept(inp: Input, ps: PState)
    requires Stream(inp) && ps.errors == [] && Cur(inp, ps).kind != EOF
    requires FnSpec(inp, ps).0 == Done(None)
    ensures ProgramSpec(inp, ps).0.Done? ==> ProgramSpec(inp, ps).0 == Done(Rejected(FnSpec(inp, ps).1.errors[0]))
  {
    var ps1 := FnSpec(inp, ps).1;
    LoopSkipsNil(inp, ps);
    assert ps1.errors <= LoopErrors(inp, NextSpec(inp, ps1));
  }

  /** A nil function leaves the loop where the next one starts. */
  lemma LoopSkipsNil(inp: Input, ps: PState)
    requires Stream(inp) && Cur(inp, ps).kind != EOF
    requires FnSpec(inp, ps).0 == Done(None)
    ensures Measure(inp, NextSpec(inp, FnSpec(inp, ps).1)) < Measure(inp, ps)
    ensures LoopErrors(inp, ps) == LoopErrors(inp, NextSpec(inp, FnSpec(inp, ps).1))
  {
    NextAfterItem(inp, ps, FnSpec(inp, ps).1);
  }

  /** With the whole header present, ParseFN reaches its items: it gives a
      definition named by the token after `функц`, or the panic of an
      item. */
  lemma FnDefinedWhenHeaderOk(inp: Input, ps: PState)
    requires Stream(inp) && HeaderOk(inp, ps)
    ensures FnSpec(inp, ps).0.Done? ==> FnSpec(inp, ps).0.value == Some(FnDef(At(inp, ps, 1), FnSpec(inp, ps).0.value.value.items))
    ensures FnSpec(inp, ps).0 != Done(None)
  {
    HeaderPeeks(inp, ps);
  }

  lemma HeaderPeeks(inp: Input, ps: PState)
    requires Stream(inp)
    ensures Cur(inp, Skip(ps, 1)) == At(inp, ps, 1)
    ensures Peek(inp, Skip(ps, 1)) == At(inp, ps, 2) && Peek(inp, Skip(ps, 2)) == At(inp, ps, 3)
    ensures Peek(inp, Skip(ps, 3)) == At(inp, ps, 4) && Peek(inp, Skip(ps, 4)) == At(inp, ps, 5)
    ensures Peek(inp, Skip(ps, 5)) == At(inp, ps, 6)
  {
  }

  /** `зарла` followed by a token without a value records the missing
      identifier, and then panics reading the name, unless a `:` without
      `тоо` makes ParseDecl return first. */
  lemma DeclWithoutNamePanics(inp: Input, ps: PState)
    requires Stream(inp) && At(inp, ps, 1).value.None?
    ensures DeclSpec(inp, ps).0.Panicked? <==> !(At(inp, ps, 2).kind == COLON && At(inp, ps, 3).kind != INT_TYPE)
    ensures DeclSpec(inp, ps).0.Panicked? ==> DeclSpec(inp, ps).0.reason == NilDereference
    ensures |DeclSpec(inp, ps).1.errors| >= |ps.errors| + 1
  {
    assert Cur(inp, Skip(ps, 1)) == At(inp, ps, 1) && Peek(inp, Skip(ps, 1)) == At(inp, ps, 2);
    assert Peek(inp, Skip(ps, 2)) == At(inp, ps, 3);
  }
}
