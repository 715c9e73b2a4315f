// What the TACKY generator's code does, run on the reference semantics of
// TackyRun: short-circuit `&&` and `||`, and the four statement lowerings
// of tackygen/tack_gen.go whose code as written does not do what the
// statement says (an if-else runs both branches, a while loop's `break`
// jumps to a label that is never defined, a conditional loop drops its
// body, a range loop reads its start value before computing it), each
// beside the lowering as intended. The programs are small function bodies
// over integer constants `c`, lowered from a fresh generator state; their
// conditions range over every constant.
module TackyLowering {
  import opened Wrappers
  import opened GoLexer
  import opened MTypes
  import opened Ast
  import T = Tacky
  import R = TackyRun
  import opened Unique
  import opened TackyGen
  import Decimal

  const Z := ZeroToken
  const I32: Option<Type> := Some(Int32Type)
  const Start := Gen(0, 0, map[])

  /** An `int` literal; the 32-bit value it denotes; a TACKY constant. */
  function Num(v: int): Expr { ConstInt(Z, v, I32) }
  function W(v: int): int { TruncateToInt32(v) }
  function K(w: int): T.Val { T.Constant(Int32(w)) }

  lemma NumLowers(v: int, g: Gen)
    ensures ExprSpec(Num(v), g) == Emitted(K(W(v)), [], g)
  {
  }

  lemma SmallNumLowers(v: int, g: Gen)
    requires 0 <= v <= 5
    ensures ExprSpec(Num(v), g) == Emitted(K(v), [], g)
  {
  }

  /** No label the generator numbers under a prefix without `.` (all of
      its prefixes are such words) is `break.<id>` or `continue.<id>`, for
      any loop id: the first `.` of a numbered label follows its prefix. */
  lemma NumberedLabelNotNamed(p: string, k: nat, id: string)
    requires '.' !in p && p != "break" && p != "continue"
    ensures LabelName(p, k) != BreakName(id) && LabelName(p, k) != ContinueName(id)
  {
    FirstDot(p, Decimal.NatToString(k), "break", id);
    FirstDot(p, Decimal.NatToString(k), "continue", id);
  }

  /** Two texts `a.x` and `b.y` with no `.` in `a` or `b` are equal only
      when `a == b`. */
  lemma FirstDot(a: string, x: string, b: string, y: string)
    requires '.' !in a && '.' !in b
    ensures a + "." + x == b + "." + y ==> a == b
  {
    var s, t := a + "." + x, b + "." + y;
    if |a| < |b| {
      assert s[|a|] == '.' != b[|a|] == t[|a|];
    } else if |b| < |a| {
      assert t[|b|] == '.' != a[|b|] == s[|b|];
    } else if s == t {
      assert a == s[..|a|] && b == t[..|b|];
    }
  }

  // ---------------------------------------------------------------------
  // `return a && b` and `return a || b`

  function ReturnBlock(e: Expr): Block { Block([StmtItem(Return(Z, e))]) }

  function AndExpr(a: Expr, b: Expr): Expr { Binary(Z, b, a, A_AND, I32) }
  function OrExpr(a: Expr, b: Expr): Expr { Binary(Z, b, a, A_OR, I32) }
  function ShortExpr(or: bool, a: Expr, b: Expr): Expr { if or then OrExpr(a, b) else AndExpr(a, b) }

  /** The jump `||` (`or`) or `&&` takes on each operand, the label it
      jumps to, and the end label, when lowered from a fresh state. */
  function Skip(or: bool, v: T.Val): T.Instr
  {
    if or then T.JumpIfNotZero(v, SkipLabel(or)) else T.JumpIfZero(v, SkipLabel(or))
  }
  function SkipLabel(or: bool): string { if or then LabelName("or_true", 0) else LabelName("and_false", 0) }
  function EndLabel(or: bool): string { if or then LabelName("or_end", 1) else LabelName("and_end", 1) }

  /** What the result temporary gets when no jump is taken. */
  function Fallen(or: bool): int { if or then 0 else 1 }

  /** The code of `return a && b` (or `||`) over two constants. */
  function ShortCode(or: bool, a: int, b: int): seq<T.Instr>
  {
    var t := T.Var(TempName(0));
    [Skip(or, K(a)), Skip(or, K(b)), T.Copy(K(Fallen(or)), t), T.Jump(EndLabel(or)),
     T.Label(SkipLabel(or)), T.Copy(K(1 - Fallen(or)), t), T.Label(EndLabel(or)), T.Return(t)]
  }

  /** The code of `return a && 1 / 0` (or `||`). */
  function ShortDivCode(or: bool, a: int): seq<T.Instr>
  {
    var t, t1 := T.Var(TempName(0)), T.Var(TempName(1));
    [Skip(or, K(a)), T.Binary(T.Div, K(1), K(0), t1), Skip(or, t1), T.Copy(K(Fallen(or)), t), T.Jump(EndLabel(or)),
     T.Label(SkipLabel(or)), T.Copy(K(1 - Fallen(or)), t), T.Label(EndLabel(or)), T.Return(t)]
  }

  lemma ReturnLowers(e: Expr, g: Gen)
    requires ExprSpec(e, g).Emitted?
    ensures var r := ExprSpec(e, g);
      BlockSpec(AsWritten, ReturnBlock(e), g) == Unit(r.code + [T.Return(r.value)], r.gen)
  {
    var r := ExprSpec(e, g);
    var items := ReturnBlock(e).items;
    assert items[0] == StmtItem(Return(Z, e));
    assert ItemSpec(AsWritten, items[0], g) == Unit(r.code + [T.Return(r.value)], r.gen);
    assert ItemsSpec(AsWritten, items, 1, r.gen) == Unit([], r.gen);
    assert r.code + [T.Return(r.value)] + [] == r.code + [T.Return(r.value)];
  }

  /** The state in which `&&` and `||` lower their operands. */
  const ShortGen := Gen(1, 2, map[TempName(0) := Symbols.Entry(I32, false, 0)])

  /** `l && r` (or `||`) lowered from a fresh state, for a left operand
      with no code of its own. */
  lemma ShortShape(or: bool, left: Expr, lv: T.Val, right: Expr)
    requires ExprSpec(left, ShortGen) == Emitted(lv, [], ShortGen)
    requires ExprSpec(right, ShortGen).Emitted?
    ensures var rr := ExprSpec(right, ShortGen);
      var t := T.Var(TempName(0));
      ExprSpec(ShortExpr(or, left, right), Start)
      == Emitted(t, [Skip(or, lv)] + rr.code + [Skip(or, rr.value), T.Copy(K(Fallen(or)), t), T.Jump(EndLabel(or)),
                   T.Label(SkipLabel(or)), T.Copy(K(1 - Fallen(or)), t), T.Label(EndLabel(or))], rr.gen)
  {
    var e := ShortExpr(or, left, right);
    if or {
      assert ExprSpec(e, Start) == OrSpec(e, Start);
    } else {
      assert ExprSpec(e, Start) == AndSpec(e, Start);
    }
    assert [] + [Skip(or, lv)] == [Skip(or, lv)];
  }

  lemma ShortLowers(or: bool, a: int, b: int)
    ensures var r := BlockSpec(AsWritten, ReturnBlock(ShortExpr(or, Num(a), Num(b))), Start);
      r.Emitted? && r.code == ShortCode(or, W(a), W(b))
  {
    NumLowers(a, ShortGen);
    NumLowers(b, ShortGen);
    ShortShape(or, Num(a), K(W(a)), Num(b));
    ReturnLowers(ShortExpr(or, Num(a), Num(b)), Start);
  }

  /** `&&` gives 1 exactly when both operands are nonzero and `||` exactly
      when some operand is; otherwise 0. */
  lemma ShortComputes(or: bool, a: int, b: int)
    ensures R.Run(ShortCode(or, a, b), 0, map[], 10)
      == R.Ret(R.Bool(if or then a != 0 || b != 0 else a != 0 && b != 0))
  {
    var code := ShortCode(or, a, b);
    var t := TempName(0);
    LabelNameInjective("and_false", 0, "and_end", 1);
    LabelNameInjective("or_true", 0, "or_end", 1);
    var e0, e1, e2 := map[], map[t := 1 - Fallen(or)], map[t := Fallen(or)];
    assert R.Run(code, 7, e1, 5) == R.Ret(1 - Fallen(or));
    assert R.Run(code, 7, e2, 5) == R.Ret(Fallen(or));
    assert R.Run(code, 6, e1, 6) == R.Run(code, 7, e1, 5);
    assert R.Run(code, 5, e0, 7) == R.Run(code, 6, e1, 6);
    assert R.Run(code, 4, e0, 8) == R.Run(code, 5, e0, 7);
    if (a != 0) == or {
      assert R.Run(code, 0, e0, 10) == R.Run(code, 4, e0, 9);
      assert R.Run(code, 4, e0, 9) == R.Run(code, 5, e0, 8);
      assert R.Run(code, 5, e0, 8) == R.Run(code, 6, e1, 7);
      assert R.Run(code, 6, e1, 7) == R.Run(code, 7, e1, 6);
    } else if (b != 0) == or {
      assert R.Run(code, 0, e0, 10) == R.Run(code, 1, e0, 9);
      assert R.Run(code, 1, e0, 9) == R.Run(code, 4, e0, 8);
    } else {
      assert R.Run(code, 0, e0, 10) == R.Run(code, 1, e0, 9);
      assert R.Run(code, 1, e0, 9) == R.Run(code, 2, e0, 8);
      assert R.Run(code, 2, e0, 8) == R.Run(code, 3, e2, 7);
      assert R.Run(code, 3, e2, 7) == R.Run(code, 6, e2, 6);
      assert R.Run(code, 6, e2, 6) == R.Run(code, 7, e2, 5);
    }
  }

  /** `a && b` and `a || b` over two constants compute the logical
      operator on their 32-bit values. */
  lemma ShortOfConstants(or: bool, a: int, b: int)
    ensures var r := BlockSpec(AsWritten, ReturnBlock(ShortExpr(or, Num(a), Num(b))), Start);
      r.Emitted?
      && R.Run(r.code, 0, map[], 10) == R.Ret(R.Bool(if or then W(a) != 0 || W(b) != 0 else W(a) != 0 && W(b) != 0))
  {
    ShortLowers(or, a, b);
    ShortComputes(or, W(a), W(b));
  }

  /** `1 / 0`: its own code faults. */
  function DivByZero(): Expr { Binary(Z, Num(0), Num(1), A_DIV, I32) }

  lemma DivLowers()
    ensures var t1 := T.Var(TempName(1));
      ExprSpec(DivByZero(), ShortGen) == Emitted(t1, [T.Binary(T.Div, K(1), K(0), t1)], NewTemp(ShortGen, I32).1)
  {
    SmallNumLowers(1, ShortGen);
    SmallNumLowers(0, ShortGen);
    assert [] + [] + [T.Binary(T.Div, K(1), K(0), T.Var(TempName(1)))] == [T.Binary(T.Div, K(1), K(0), T.Var(TempName(1)))];
  }

  lemma ShortDivLowers(or: bool, a: int)
    ensures var r := BlockSpec(AsWritten, ReturnBlock(ShortExpr(or, Num(a), DivByZero())), Start);
      r.Emitted? && r.code == ShortDivCode(or, W(a))
  {
    var e := ShortExpr(or, Num(a), DivByZero());
    ShortDivExpr(or, a);
    ReturnLowers(e, Start);
    var r := ExprSpec(e, Start);
    assert r.code + [T.Return(r.value)] == ShortDivCode(or, W(a));
  }

  /** The expression part of `return a && 1 / 0`: all of its code but the
      final return, the result in the first temporary. */
  lemma ShortDivExpr(or: bool, a: int)
    ensures var r := ExprSpec(ShortExpr(or, Num(a), DivByZero()), Start);
      r.Emitted? && r.value == T.Var(TempName(0)) && r.code == ShortDivCode(or, W(a))[..8]
  {
    var t1 := T.Var(TempName(1));
    DivLowers();
    ShortAfterConstant(or, a, DivByZero(), t1, [T.Binary(T.Div, K(1), K(0), t1)], NewTemp(ShortGen, I32).1);
  }

  /** `a && r` (or `||`) for a constant `a` and a right operand of known
      code. */
  lemma ShortAfterConstant(or: bool, a: int, right: Expr, rv: T.Val, rcode: seq<T.Instr>, rg: Gen)
    requires ExprSpec(right, ShortGen) == Emitted(rv, rcode, rg)
    ensures var tv := T.Var(TempName(0));
      ExprSpec(ShortExpr(or, Num(a), right), Start)
      == Emitted(tv, [Skip(or, K(W(a)))] + rcode + [Skip(or, rv), T.Copy(K(Fallen(or)), tv), T.Jump(EndLabel(or)),
                   T.Label(SkipLabel(or)), T.Copy(K(1 - Fallen(or)), tv), T.Label(EndLabel(or))], rg)
  {
    NumLowers(a, ShortGen);
    ShortShape(or, Num(a), K(W(a)), right);
  }

  lemma ShortDivRuns(or: bool, a: int)
    ensures var h := R.Run(ShortDivCode(or, a), 0, map[], 10);
      if (a != 0) == or then h == R.Ret(R.Bool(or)) else h == R.Fault("division by zero")
  {
    if (a != 0) == or {
      ShortDivSkips(or, a);
    } else {
      ShortDivFaults(or, a);
    }
  }

  lemma ShortDivSkips(or: bool, a: int)
    requires (a != 0) == or
    ensures R.Run(ShortDivCode(or, a), 0, map[], 10) == R.Ret(R.Bool(or))
  {
    var code := ShortDivCode(or, a);
    LabelNameInjective("and_false", 0, "and_end", 1);
    LabelNameInjective("or_true", 0, "or_end", 1);
    assert R.Run(code, 0, map[], 10) == R.Run(code, 5, map[], 9);
    assert R.Run(code, 5, map[], 9) == R.Run(code, 7, map[TempName(0) := R.Bool(or)], 7);
  }

  lemma ShortDivFaults(or: bool, a: int)
    requires (a != 0) != or
    ensures R.Run(ShortDivCode(or, a), 0, map[], 10) == R.Fault("division by zero")
  {
    assert R.Run(ShortDivCode(or, a), 0, map[], 10) == R.Run(ShortDivCode(or, a), 1, map[], 9);
  }

  /** The right operand of `&&` runs only when the left one is nonzero, and
      that of `||` only when the left one is zero: with a right operand that
      divides by zero, the code faults exactly then. */
  lemma ShortCircuit(or: bool, a: int)
    ensures var r := BlockSpec(AsWritten, ReturnBlock(ShortExpr(or, Num(a), DivByZero())), Start);
      r.Emitted?
      && var h := R.Run(r.code, 0, map[], 10);
      if (W(a) != 0) == or then h == R.Ret(R.Bool(or)) else h == R.Fault("division by zero")
  {
    ShortDivLowers(or, a);
    ShortDivRuns(or, W(a));
  }

  // ---------------------------------------------------------------------
  // Statements followed by a return

  function Body(st: Stmt, result: Expr): Block { Block([StmtItem(st), StmtItem(Return(Z, result))]) }

  lemma BodyLowers(lw: Lowering, st: Stmt, result: Expr, g: Gen)
    requires StmtSpec(lw, st, g).Emitted? && ExprSpec(result, StmtSpec(lw, st, g).gen).Emitted?
    ensures var h := StmtSpec(lw, st, g);
      var r := ExprSpec(result, h.gen);
      BlockSpec(lw, Body(st, result), g) == Unit(h.code + (r.code + [T.Return(r.value)]), r.gen)
  {
    var h := StmtSpec(lw, st, g);
    var r := ExprSpec(result, h.gen);
    var items := Body(st, result).items;
    assert items[0] == StmtItem(st) && items[1] == StmtItem(Return(Z, result));
    assert ItemsSpec(lw, items, 2, r.gen) == Unit([], r.gen);
    assert result != NilExpr;
    assert ItemSpec(lw, items[1], h.gen) == Unit(r.code + [T.Return(r.value)], r.gen);
    assert r.code + [T.Return(r.value)] + [] == r.code + [T.Return(r.value)];
    assert ItemsSpec(lw, items, 1, h.gen) == Unit(r.code + [T.Return(r.value)], r.gen);
    assert ItemSpec(lw, items[0], g) == h;
    assert ItemsSpec(lw, items, 0, g) == Unit(h.code + (r.code + [T.Return(r.value)]), r.gen);
  }

  const X := Var(Z, "x", I32)

  function SetX(v: int): Stmt { ExpressionStmt(Assignment(Z, X, Num(v), I32)) }

  lemma SetXLowers(lw: Lowering, v: int, g: Gen)
    requires 0 <= v <= 5
    ensures StmtSpec(lw, SetX(v), g) == Unit([T.Copy(K(v), T.Var("x"))], g)
  {
    SmallNumLowers(v, g);
  }

  lemma VarLowers(x: string, g: Gen)
    ensures ExprSpec(Var(Z, x, I32), g) == Emitted(T.Var(x), [], g)
  {
  }

  // ---------------------------------------------------------------------
  // if c { x = 1 } else { x = 2 }; return x

  function IfElseStmt(c: int): Stmt { If(Z, Num(c), SetX(1), SetX(2)) }

  function IfElseCode(lw: Lowering, w: int): seq<T.Instr>
  {
    var x, elseL, endL := T.Var("x"), LabelName("else", 0), LabelName("", 1);
    if lw == AsWritten then
      [T.JumpIfZero(K(w), elseL), T.Copy(K(1), x), T.Label(elseL), T.Copy(K(2), x), T.Label(endL), T.Return(x)]
    else
      [T.JumpIfZero(K(w), elseL), T.Copy(K(1), x), T.Jump(endL), T.Label(elseL), T.Copy(K(2), x), T.Label(endL), T.Return(x)]
  }

  lemma IfElseLowers(lw: Lowering, c: int)
    ensures var r := BlockSpec(lw, Body(IfElseStmt(c), X), Start);
      r.Emitted? && r.code == IfElseCode(lw, W(c))
  {
    var g := Gen(0, 2, map[]);
    NumLowers(c, g);
    SetXLowers(lw, 1, g);
    SetXLowers(lw, 2, g);
    var x, elseL, endL := T.Var("x"), LabelName("else", 0), LabelName("", 1);
    var head := [] + [T.JumpIfZero(K(W(c)), elseL)] + [T.Copy(K(1), x)] + (if lw == AsWritten then [] else [T.Jump(endL)])
      + [T.Label(elseL)] + [T.Copy(K(2), x)] + [T.Label(endL)];
    assert IfElseSpec(lw, IfElseStmt(c), Start) == Unit(head, g);
    assert StmtSpec(lw, IfElseStmt(c), Start) == Unit(head, g);
    VarLowers("x", g);
    BodyLowers(lw, IfElseStmt(c), X, Start);
    assert head + ([] + [T.Return(x)]) == IfElseCode(lw, W(c));
  }

  lemma IfElseAsWrittenRuns(w: int)
    ensures R.Run(IfElseCode(AsWritten, w), 0, map[], 10) == R.Ret(2)
  {
    var code := IfElseCode(AsWritten, w);
    var e1, e2 := map["x" := 1], map["x" := 2];
    assert R.Run(code, 5, e2, 6) == R.Ret(2);
    assert R.Run(code, 4, e2, 7) == R.Run(code, 5, e2, 6);
    if w == 0 {
      assert R.Run(code, 0, map[], 10) == R.Run(code, 2, map[], 9);
      assert R.Run(code, 2, map[], 9) == R.Run(code, 3, map[], 8);
      assert R.Run(code, 3, map[], 8) == R.Run(code, 4, e2, 7);
    } else {
      assert R.Run(code, 0, map[], 10) == R.Run(code, 1, map[], 9);
      assert R.Run(code, 1, map[], 9) == R.Run(code, 2, e1, 8);
      assert R.Run(code, 2, e1, 8) == R.Run(code, 3, e1, 7);
      assert R.Run(code, 3, e1, 7) == R.Run(code, 4, e2, 6);
      assert R.Run(code, 4, e2, 6) == R.Run(code, 5, e2, 5);
    }
  }

  lemma IfElseIntendedRuns(w: int)
    ensures R.Run(IfElseCode(Intended, w), 0, map[], 10) == R.Ret(if w != 0 then 1 else 2)
  {
    var code := IfElseCode(Intended, w);
    LabelNameInjective("else", 0, "", 1);
    var e1, e2 := map["x" := 1], map["x" := 2];
    if w == 0 {
      assert R.Run(code, 0, map[], 10) == R.Run(code, 3, map[], 9);
      assert R.Run(code, 3, map[], 9) == R.Run(code, 4, map[], 8);
      assert R.Run(code, 4, map[], 8) == R.Run(code, 5, e2, 7);
      assert R.Run(code, 5, e2, 7) == R.Run(code, 6, e2, 6);
    } else {
      assert R.Run(code, 0, map[], 10) == R.Run(code, 1, map[], 9);
      assert R.Run(code, 1, map[], 9) == R.Run(code, 2, e1, 8);
      R.FindLabelFirst(code, LabelName("", 1), 0, 5);
      assert R.Run(code, 2, e1, 8) == R.Run(code, 5, e1, 7);
      assert R.Run(code, 5, e1, 7) == R.Run(code, 6, e1, 6);
    }
  }

  /** As written, both branches run whatever the condition, so the result
      is always the else branch's. */
  lemma IfElseRunsBothBranches(c: int)
    ensures var r := BlockSpec(AsWritten, Body(IfElseStmt(c), X), Start);
      r.Emitted? && R.Run(r.code, 0, map[], 10) == R.Ret(2)
  {
    IfElseLowers(AsWritten, c);
    IfElseAsWrittenRuns(W(c));
  }

  /** As intended, exactly one branch runs: the then branch when the
      condition is nonzero. */
  lemma IfElseRunsOneBranch(c: int)
    ensures var r := BlockSpec(Intended, Body(IfElseStmt(c), X), Start);
      r.Emitted? && R.Run(r.code, 0, map[], 10) == R.Ret(if W(c) != 0 then 1 else 2)
  {
    IfElseLowers(Intended, c);
    IfElseIntendedRuns(W(c));
  }

  // ---------------------------------------------------------------------
  // while c { break }; return 0

  function WhileStmt(c: int): Stmt { While(Z, Num(c), Block([StmtItem(Break(Z, "while.0"))]), "while.0") }

  function WhileCode(lw: Lowering, w: int): seq<T.Instr>
  {
    var startL := LabelName("while", 0);
    var contL := if lw == AsWritten then LabelName("while_continue", 1) else ContinueName("while.0");
    var breakL := if lw == AsWritten then LabelName("while_break", 2) else BreakName("while.0");
    [T.Label(startL), T.JumpIfZero(K(w), breakL), T.Jump(BreakName("while.0")),
     T.Label(contL), T.Jump(startL), T.Label(breakL), T.Return(K(0))]
  }

  lemma BreakBodyLowers(lw: Lowering, g: Gen)
    ensures BlockSpec(lw, Block([StmtItem(Break(Z, "while.0"))]), g) == Unit([T.Jump(BreakName("while.0"))], Bump(g))
  {
    var items := [StmtItem(Break(Z, "while.0"))];
    assert ItemSpec(lw, items[0], g) == Unit([T.Jump(BreakName("while.0"))], Bump(g));
    assert ItemsSpec(lw, items, 1, Bump(g)) == Unit([], Bump(g));
    assert [T.Jump(BreakName("while.0"))] + [] == [T.Jump(BreakName("while.0"))];
  }

  lemma WhileLowers(lw: Lowering, c: int)
    ensures var r := BlockSpec(lw, Body(WhileStmt(c), Num(0)), Start);
      r.Emitted? && r.code == WhileCode(lw, W(c))
  {
    var g := Gen(0, 3, map[]);
    NumLowers(c, g);
    BreakBodyLowers(lw, g);
    SmallNumLowers(0, Bump(g));
    var startL := LabelName("while", 0);
    var contL := if lw == AsWritten then LabelName("while_continue", 1) else ContinueName("while.0");
    var breakL := if lw == AsWritten then LabelName("while_break", 2) else BreakName("while.0");
    var head := [T.Label(startL)] + [] + [T.JumpIfZero(K(W(c)), breakL)] + [T.Jump(BreakName("while.0"))]
      + [T.Label(contL), T.Jump(startL), T.Label(breakL)];
    assert WhileSpec(lw, WhileStmt(c), Start) == Unit(head, Bump(g));
    assert StmtSpec(lw, WhileStmt(c), Start) == Unit(head, Bump(g));
    BodyLowers(lw, WhileStmt(c), Num(0), Start);
    assert head + ([] + [T.Return(K(0))]) == WhileCode(lw, W(c));
  }

  lemma WhileAsWrittenRuns(w: int)
    ensures R.Run(WhileCode(AsWritten, w), 0, map[], 10)
      == if w == 0 then R.Ret(0) else R.Fault("no label " + BreakName("while.0"))
  {
    if w == 0 {
      WhileAsWrittenExits(w);
    } else {
      WhileAsWrittenFaults(w);
    }
  }

  lemma WhileAsWrittenExits(w: int)
    requires w == 0
    ensures R.Run(WhileCode(AsWritten, w), 0, map[], 10) == R.Ret(0)
  {
    var code := WhileCode(AsWritten, w);
    LabelNameInjective("while", 0, "while_break", 2);
    LabelNameInjective("while_continue", 1, "while_break", 2);
    R.FindLabelFirst(code, LabelName("while_break", 2), 0, 5);
    assert R.Run(code, 0, map[], 10) == R.Run(code, 1, map[], 9);
    assert R.Run(code, 1, map[], 9) == R.Run(code, 5, map[], 8);
    assert R.Run(code, 5, map[], 8) == R.Run(code, 6, map[], 7);
  }

  lemma WhileAsWrittenFaults(w: int)
    requires w != 0
    ensures R.Run(WhileCode(AsWritten, w), 0, map[], 10) == R.Fault("no label " + BreakName("while.0"))
  {
    var code := WhileCode(AsWritten, w);
    NumberedLabelNotNamed("while", 0, "while.0");
    NumberedLabelNotNamed("while_continue", 1, "while.0");
    NumberedLabelNotNamed("while_break", 2, "while.0");
    assert R.FindLabel(code, BreakName("while.0"), 0).Fails?;
    assert R.Run(code, 0, map[], 10) == R.Run(code, 1, map[], 9);
    assert R.Run(code, 1, map[], 9) == R.Run(code, 2, map[], 8);
  }

  lemma WhileIntendedRuns(w: int)
    ensures R.Run(WhileCode(Intended, w), 0, map[], 10) == R.Ret(0)
  {
    var code := WhileCode(Intended, w);
    NumberedLabelNotNamed("while", 0, "while.0");
    R.FindLabelFirst(code, BreakName("while.0"), 0, 5);
    assert R.Run(code, 0, map[], 10) == R.Run(code, 1, map[], 9);
    assert R.Run(code, 5, map[], 8) == R.Run(code, 6, map[], 7);
    assert R.Run(code, 5, map[], 7) == R.Run(code, 6, map[], 6);
    if w == 0 {
      assert R.Run(code, 1, map[], 9) == R.Run(code, 5, map[], 8);
    } else {
      assert R.Run(code, 1, map[], 9) == R.Run(code, 2, map[], 8);
      assert R.Run(code, 2, map[], 8) == R.Run(code, 5, map[], 7);
    }
  }

  /** As written, `break` jumps to `break.w`, a label the loop never
      defines (its exit label is `while_break.2`): with a nonzero condition
      the code faults. */
  lemma WhileBreakMissesLabel(c: int)
    ensures var r := BlockSpec(AsWritten, Body(WhileStmt(c), Num(0)), Start);
      r.Emitted? && R.Run(r.code, 0, map[], 10) == if W(c) == 0 then R.Ret(0) else R.Fault("no label " + BreakName("while.0"))
  {
    WhileLowers(AsWritten, c);
    WhileAsWrittenRuns(W(c));
  }

  /** As intended, `break` leaves the loop whatever the condition. */
  lemma WhileBreakLeaves(c: int)
    ensures var r := BlockSpec(Intended, Body(WhileStmt(c), Num(0)), Start);
      r.Emitted? && R.Run(r.code, 0, map[], 10) == R.Ret(0)
  {
    WhileLowers(Intended, c);
    WhileIntendedRuns(W(c));
  }

  // ---------------------------------------------------------------------
  // loop c { return 5 }; return 0

  function CondLoopStmt(c: int): Stmt { Loop(Z, NilExpr, Num(c), Block([StmtItem(Return(Z, Num(5)))]), "loop.0") }

  function CondLoopCode(lw: Lowering, w: int): seq<T.Instr>
  {
    var startL := LabelName("loop", 0);
    if lw == AsWritten then
      [T.Label(startL), T.JumpIfZero(K(w), BreakName("loop.0")),
       T.Label(ContinueName("loop.0")), T.Jump(startL), T.Label(BreakName("loop.0")), T.Return(K(0))]
    else
      [T.Label(startL), T.JumpIfZero(K(w), BreakName("loop.0")), T.Return(K(5)),
       T.Label(ContinueName("loop.0")), T.Jump(startL), T.Label(BreakName("loop.0")), T.Return(K(0))]
  }

  lemma ReturnFiveLowers(lw: Lowering, g: Gen)
    ensures BlockSpec(lw, Block([StmtItem(Return(Z, Num(5)))]), g) == Unit([T.Return(K(5))], g)
  {
    SmallNumLowers(5, g);
    var items := [StmtItem(Return(Z, Num(5)))];
    assert ItemSpec(lw, items[0], g) == Unit([] + [T.Return(K(5))], g);
    assert ItemsSpec(lw, items, 1, g) == Unit([], g);
    assert [] + [T.Return(K(5))] + [] == [T.Return(K(5))];
  }

  lemma CondLoopLowers(lw: Lowering, c: int)
    ensures var r := BlockSpec(lw, Body(CondLoopStmt(c), Num(0)), Start);
      r.Emitted? && r.code == CondLoopCode(lw, W(c))
  {
    var g := Gen(0, 3, map[]);
    NumLowers(c, g);
    ReturnFiveLowers(lw, g);
    SmallNumLowers(0, g);
    var startL := LabelName("loop", 0);
    var body := if lw == AsWritten then [] else [T.Return(K(5))];
    var head := [T.Label(startL)] + [] + [T.JumpIfZero(K(W(c)), BreakName("loop.0"))] + body
      + [T.Label(ContinueName("loop.0")), T.Jump(startL), T.Label(BreakName("loop.0"))];
    assert CondLoopSpec(lw, CondLoopStmt(c), startL, g) == Unit(head, g);
    assert StmtSpec(lw, CondLoopStmt(c), Start) == Unit(head, g);
    BodyLowers(lw, CondLoopStmt(c), Num(0), Start);
    assert head + ([] + [T.Return(K(0))]) == CondLoopCode(lw, W(c));
  }

  /** As written, with a nonzero condition the loop spins without end: no
      amount of fuel brings the code to a return. */
  lemma {:induction false} CondLoopSpins(w: int, fuel: nat)
    requires w != 0
    ensures R.Run(CondLoopCode(AsWritten, w), 0, map[], fuel) == R.OutOfFuel
    decreases fuel
  {
    var code := CondLoopCode(AsWritten, w);
    if fuel > 0 {
      assert R.Run(code, 0, map[], fuel) == R.Run(code, 1, map[], fuel - 1);
      if fuel > 1 {
        assert R.Run(code, 1, map[], fuel - 1) == R.Run(code, 2, map[], fuel - 2);
        if fuel > 2 {
          assert R.Run(code, 2, map[], fuel - 2) == R.Run(code, 3, map[], fuel - 3);
          if fuel > 3 {
            R.FindLabelFirst(code, LabelName("loop", 0), 0, 0);
            assert R.Run(code, 3, map[], fuel - 3) == R.Run(code, 0, map[], fuel - 4);
            CondLoopSpins(w, fuel - 4);
          }
        }
      }
    }
  }

  lemma CondLoopAsWrittenRuns(w: int)
    requires w == 0
    ensures R.Run(CondLoopCode(AsWritten, w), 0, map[], 10) == R.Ret(0)
  {
    var code := CondLoopCode(AsWritten, w);
    NumberedLabelNotNamed("loop", 0, "loop.0");
    R.FindLabelFirst(code, BreakName("loop.0"), 0, 4);
    assert R.Run(code, 0, map[], 10) == R.Run(code, 1, map[], 9);
    assert R.Run(code, 1, map[], 9) == R.Run(code, 4, map[], 8);
    assert R.Run(code, 4, map[], 8) == R.Run(code, 5, map[], 7);
  }

  lemma CondLoopIntendedRuns(w: int)
    ensures R.Run(CondLoopCode(Intended, w), 0, map[], 10) == R.Ret(if w != 0 then 5 else 0)
  {
    var code := CondLoopCode(Intended, w);
    NumberedLabelNotNamed("loop", 0, "loop.0");
    assert R.Run(code, 0, map[], 10) == R.Run(code, 1, map[], 9);
    if w == 0 {
      R.FindLabelFirst(code, BreakName("loop.0"), 0, 5);
      assert R.Run(code, 1, map[], 9) == R.Run(code, 5, map[], 8);
      assert R.Run(code, 5, map[], 8) == R.Run(code, 6, map[], 7);
    } else {
      assert R.Run(code, 1, map[], 9) == R.Run(code, 2, map[], 8);
    }
  }

  /** As written the body is dropped: with a zero condition the loop is
      skipped, and with any other it never ends, where the body would
      return 5. */
  lemma CondLoopDropsBody(c: int)
    ensures var r := BlockSpec(AsWritten, Body(CondLoopStmt(c), Num(0)), Start);
      && r.Emitted?
      && (W(c) == 0 ==> R.Run(r.code, 0, map[], 10) == R.Ret(0))
      && (W(c) != 0 ==> forall fuel: nat :: R.Run(r.code, 0, map[], fuel) == R.OutOfFuel)
  {
    CondLoopLowers(AsWritten, c);
    if W(c) == 0 {
      CondLoopAsWrittenRuns(W(c));
    } else {
      forall fuel: nat ensures R.Run(CondLoopCode(AsWritten, W(c)), 0, map[], fuel) == R.OutOfFuel {
        CondLoopSpins(W(c), fuel);
      }
    }
  }

  /** As intended the body runs each time the condition holds. */
  lemma CondLoopRunsBody(c: int)
    ensures var r := BlockSpec(Intended, Body(CondLoopStmt(c), Num(0)), Start);
      r.Emitted? && R.Run(r.code, 0, map[], 10) == R.Ret(if W(c) != 0 then 5 else 0)
  {
    CondLoopLowers(Intended, c);
    CondLoopIntendedRuns(W(c));
  }

  // ---------------------------------------------------------------------
  // loop i = a + b .. n { }; return i

  const I := Var(Z, "i", I32)

  function RangeStmt(a: int, b: int, n: int): Stmt
  {
    Loop(Z, I, Range(Z, Binary(Z, Num(b), Num(a), A_PLUS, I32), Num(n), I32), Block([]), "loop.0")
  }

  function RangeCode(lw: Lowering, a: int, b: int, n: int): seq<T.Instr>
  {
    var i, t0, t1 := T.Var("i"), T.Var(TempName(0)), T.Var(TempName(1));
    var startL := LabelName("loop", 0);
    var sum := T.Binary(T.Add, K(a), K(b), t0);
    (if lw == AsWritten then [T.Copy(t0, i), sum] else [sum, T.Copy(t0, i)])
    + [T.Label(startL), T.Binary(T.LessThanEqual, i, K(n), t1), T.JumpIfZero(t1, BreakName("loop.0")),
       T.Label(ContinueName("loop.0")), T.Binary(T.Add, i, K(1), i), T.Jump(startL), T.Label(BreakName("loop.0")), T.Return(i)]
  }

  /** The state after the start value's code. */
  function RangeGen(): Gen
  {
    Gen(1, 3, map[TempName(0) := Symbols.Entry(I32, false, 0)])
  }

  lemma SumLowers(a: int, b: int)
    ensures var t0 := T.Var(TempName(0));
      ExprSpec(Binary(Z, Num(b), Num(a), A_PLUS, I32), Gen(0, 3, map[]))
      == Emitted(t0, [T.Binary(T.Add, K(W(a)), K(W(b)), t0)], RangeGen())
  {
    NumLowers(a, Gen(0, 3, map[]));
    NumLowers(b, Gen(0, 3, map[]));
    assert [] + [] + [T.Binary(T.Add, K(W(a)), K(W(b)), T.Var(TempName(0)))] == [T.Binary(T.Add, K(W(a)), K(W(b)), T.Var(TempName(0)))];
  }

  lemma RangeStmtLowers(lw: Lowering, a: int, b: int, n: int)
    ensures var r := StmtSpec(lw, RangeStmt(a, b, n), Start);
      var g := NewTemp(RangeGen(), I32).1;
      var code := RangeCode(lw, W(a), W(b), W(n));
      r == Unit(code[..|code| - 1], g)
  {
    var g := Gen(0, 3, map[]);
    SumLowers(a, b);
    NumLowers(n, RangeGen());
    VarLowers("i", RangeGen());
    var g2 := NewTemp(RangeGen(), I32).1;
    assert BlockSpec(lw, Block([]), g2) == Unit([], g2);
    var st := RangeStmt(a, b, n);
    var code := RangeCode(lw, W(a), W(b), W(n));
    var i, t0, t1 := T.Var("i"), T.Var(TempName(0)), T.Var(TempName(1));
    var startL := LabelName("loop", 0);
    var sum := T.Binary(T.Add, K(W(a)), K(W(b)), t0);
    var head :=
      if lw == AsWritten then [T.Copy(t0, i)] + [sum] + [T.Label(startL), T.Binary(T.LessThanEqual, i, K(W(n)), t1)] + [] + []
      else [sum] + [T.Copy(t0, i), T.Label(startL)] + [] + [] + [T.Binary(T.LessThanEqual, i, K(W(n)), t1)];
    var all := head + [T.JumpIfZero(t1, BreakName("loop.0"))] + []
      + [T.Label(ContinueName("loop.0")), T.Binary(T.Add, i, K(1), i), T.Jump(startL), T.Label(BreakName("loop.0"))];
    assert RangeLoopSpec(lw, st, startL, g) == Unit(all, g2);
    assert LoopSpec(lw, st, Start) == Unit(all, g2);
    assert all == code[..|code| - 1];
  }

  lemma RangeLowers(lw: Lowering, a: int, b: int, n: int)
    ensures var r := BlockSpec(lw, Body(RangeStmt(a, b, n), I), Start);
      r.Emitted? && r.code == RangeCode(lw, W(a), W(b), W(n))
  {
    RangeStmtLowers(lw, a, b, n);
    var g := NewTemp(RangeGen(), I32).1;
    VarLowers("i", g);
    BodyLowers(lw, RangeStmt(a, b, n), I, Start);
    var code := RangeCode(lw, W(a), W(b), W(n));
    assert code[..|code| - 1] + ([] + [T.Return(T.Var("i"))]) == code;
  }

  /** As written, the first instruction copies the start value's temporary
      into the loop variable before any code has set it. */
  lemma RangeReadsUnsetStart(a: int, b: int, n: int)
    ensures var r := BlockSpec(AsWritten, Body(RangeStmt(a, b, n), I), Start);
      r.Emitted? && R.Run(r.code, 0, map[], 10) == R.Fault("unset variable " + TempName(0))
  {
    RangeLowers(AsWritten, a, b, n);
  }

  lemma TempIsNotI(k: nat)
    ensures TempName(k) != "i"
  {
    Decimal.NatToStringRoundTrip(k);
    assert |TempName(k)| > 1;
  }

  /** The number of times the intended loop body runs from `v`. */
  function Rounds(v: int, n: int): nat { if v <= n then n + 1 - v else 0 }

  /** From the loop's start label with the loop variable at `v`, the code
      counts up to `n + 1`, or stops at once when `v` is already past `n`. */
  lemma {:induction false} RangeCounts(a: int, b: int, n: int, env: R.Env, fuel: nat)
    requires "i" in env && fuel >= 6 * Rounds(env["i"], n) + 5
    ensures var v := env["i"];
      R.Run(RangeCode(Intended, a, b, n), 2, env, fuel) == R.Ret(if v <= n then n + 1 else v)
    decreases Rounds(env["i"], n)
  {
    var code := RangeCode(Intended, a, b, n);
    var v := env["i"];
    var t1 := TempName(1);
    TempIsNotI(1);
    NumberedLabelNotNamed("loop", 0, "loop.0");
    var e1 := env[t1 := R.Bool(v <= n)];
    assert R.Run(code, 2, env, fuel) == R.Run(code, 3, env, fuel - 1);
    assert R.Run(code, 3, env, fuel - 1) == R.Run(code, 4, e1, fuel - 2);
    if v <= n {
      var e2 := e1["i" := v + 1];
      assert R.Run(code, 4, e1, fuel - 2) == R.Run(code, 5, e1, fuel - 3);
      assert R.Run(code, 5, e1, fuel - 3) == R.Run(code, 6, e1, fuel - 4);
      assert R.Run(code, 6, e1, fuel - 4) == R.Run(code, 7, e2, fuel - 5);
      R.FindLabelFirst(code, LabelName("loop", 0), 0, 2);
      assert R.Run(code, 7, e2, fuel - 5) == R.Run(code, 2, e2, fuel - 6);
      RangeCounts(a, b, n, e2, fuel - 6);
    } else {
      R.FindLabelFirst(code, BreakName("loop.0"), 0, 8);
      assert R.Run(code, 4, e1, fuel - 2) == R.Run(code, 8, e1, fuel - 3);
      assert R.Run(code, 8, e1, fuel - 3) == R.Run(code, 9, e1, fuel - 4);
    }
  }

  lemma RangeStartRuns(a: int, b: int, n: int, fuel: nat)
    requires fuel >= 6 * Rounds(a + b, n) + 7
    ensures var s := a + b;
      R.Run(RangeCode(Intended, a, b, n), 0, map[], fuel) == R.Ret(if s <= n then n + 1 else s)
  {
    var s := a + b;
    var code := RangeCode(Intended, a, b, n);
    var t0 := TempName(0);
    TempIsNotI(0);
    var e0 := map[t0 := s];
    var e := e0["i" := s];
    assert R.Run(code, 0, map[], fuel) == R.Run(code, 1, e0, fuel - 1);
    assert R.Run(code, 1, e0, fuel - 1) == R.Run(code, 2, e, fuel - 2);
    RangeCounts(a, b, n, e, fuel - 2);
  }

  /** As intended, the loop variable starts at `a + b` and the loop ends
      with it one past `n` (or at `a + b` when that is already past `n`),
      given fuel for every round. */
  lemma RangeCountsFromStart(a: int, b: int, n: int, fuel: nat)
    requires fuel >= 6 * Rounds(W(a) + W(b), W(n)) + 7
    ensures var r := BlockSpec(Intended, Body(RangeStmt(a, b, n), I), Start);
      var s := W(a) + W(b);
      r.Emitted? && R.Run(r.code, 0, map[], fuel) == R.Ret(if s <= W(n) then W(n) + 1 else s)
  {
    RangeLowers(Intended, a, b, n);
    RangeStartRuns(W(a), W(b), W(n), fuel);
  }
}
