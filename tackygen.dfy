// tackygen/tack_gen.go: the lowering of the checked syntax tree to TACKY
// three-address code. The generator numbers fresh temporaries
// `tmp.<TempCount>` and fresh labels `<prefix>.<LabelCount>`, registers every
// temporary in the symbol table, lowers `&&` and `||` with short-circuit
// jumps, and appends `Return 0` to a function whose body has no top-level
// return.
//
// The spec functions take the generator's state as a value (`Gen`) and give
// back the code, the value that holds the result, and the state after it;
// the class at the end has the source's fields and one method per Go
// function, each proved equal to its spec function. A Go panic is
// `Panicked`; the program stops there, so its state is not followed.
//
// The `Lowering` parameter of the statement functions selects the code as
// written or as evidently intended (see the finding lemmas at the end);
// expressions have one lowering.
module TackyGen {
  import opened Wrappers
  import opened GoLexer
  import opened MTypes
  import opened Ast
  import T = Tacky
  import opened Unique
  import Symbols
  import Decimal

  type Entries = map<string, Symbols.Entry>

  /** TempCount, LabelCount and the symbol table's entries. */
  datatype Gen = Gen(temps: nat, labels: nat, table: Entries)

  /** Lowered code: the value that holds the result, the instructions that
      compute it, and the state after them. */
  datatype Emitted<V> = Emitted(value: V, code: seq<T.Instr>, gen: Gen) | Panicked(reason: string)

  /** A lowered function or program and the state after it. */
  datatype Made<V> = Made(value: V, gen: Gen) | Crashed(reason: string)

  datatype Lowering = AsWritten | Intended

  // ---------------------------------------------------------------------
  // Fresh names (tack_gen.go:567-593)

  /** makeTemp: `tmp.<TempCount>`, registered as a variable of type `t`. */
  function NewTemp(g: Gen, t: Option<Type>): (T.Val, Gen)
  {
    var name := TempName(g.temps);
    (T.Var(name), Gen(g.temps + 1, g.labels, g.table[name := Symbols.Entry(t, false, 0)]))
  }

  /** makeLabel: `<prefix>.<LabelCount>`. */
  function NewLabel(g: Gen, prefix: string): (string, Gen)
  {
    (LabelName(prefix, g.labels), Gen(g.temps, g.labels + 1, g.table))
  }

  /** breakLabel and continueLabel name the label after the loop's id; both
      still advance LabelCount. */
  function BreakName(id: string): string { "break." + id }
  function ContinueName(id: string): string { "continue." + id }

  function Bump(g: Gen): Gen { Gen(g.temps, g.labels + 1, g.table) }

  // ---------------------------------------------------------------------
  // Operators (tack_gen.go:261-319)

  /** ToUnaryTackyOp. */
  function ToUnaryTackyOp(op: TokenType): (r: Result<T.UnaryOp>)
    ensures r.Ok? <==> op == MINUS || op == TILDE || op == NOT
    ensures r.Ok? ==> r.value != T.UnknownOp
    ensures !r.Ok? ==> r.Err?
  {
    if op == MINUS then Ok(T.Negate)
    else if op == TILDE then Ok(T.Complement)
    else if op == NOT then Ok(T.Not)
    else Err("annot convert token to tackyop")
  }

  /** ToTackyOp. `&&` and `||` have no TACKY operator: EmitExpr lowers
      them to jumps before it gets here. */
  function ToTackyOp(op: int): Result<T.BinaryOp>
  {
    if op == A_MOD then Ok(T.Modulo)
    else if op == A_PLUS then Ok(T.Add)
    else if op == A_MINUS then Ok(T.Sub)
    else if op == A_DIV then Ok(T.Div)
    else if op == A_MUL then Ok(T.Mul)
    else if op == A_EQUALTO then Ok(T.Equal)
    else if op == A_OR then Err("or is cannot converted to tacky")
    else if op == A_AND then Err("and is cannot converted to tacky")
    else if op == A_NOTEQUAL then Ok(T.NotEqual)
    else if op == A_LESSTHAN then Ok(T.LessThan)
    else if op == A_LESSTHANEQUAL then Ok(T.LessThanEqual)
    else if op == A_GREATERTHAN then Ok(T.GreaterThan)
    else if op == A_GREATERTHANEQUAL then Ok(T.GreaterThanEqual)
    else Err("cannot convert token to tackyop")
  }

  /** The codes ToTackyOp converts: the arithmetic and comparison
      operators, not `&&`, `||`, `?`, `..` or `=`. */
  predicate Arithmetic(op: int)
  {
    op == A_MOD || op == A_PLUS || op == A_MINUS || op == A_DIV || op == A_MUL
    || op == A_EQUALTO || op == A_NOTEQUAL || op == A_LESSTHAN || op == A_LESSTHANEQUAL
    || op == A_GREATERTHAN || op == A_GREATERTHANEQUAL
  }

  /** ToTackyOp succeeds exactly on the arithmetic codes, gives different
      operators for different codes, and refuses `&&` and `||` by name. */
  lemma ToTackyOpSpec(a: int, b: int)
    ensures ToTackyOp(a).Ok? <==> Arithmetic(a)
    ensures !ToTackyOp(a).Ok? ==> ToTackyOp(a).Err?
    ensures ToTackyOp(A_AND) == Err("and is cannot converted to tacky")
    ensures ToTackyOp(A_OR) == Err("or is cannot converted to tacky")
    ensures ToTackyOp(a).Ok? && ToTackyOp(b).Ok? && ToTackyOp(a) == ToTackyOp(b) ==> a == b
  {
  }

  // ---------------------------------------------------------------------
  // Expressions (tack_gen.go:321-538)

  /** EmitExpr. */
  function ExprSpec(e: Expr, g: Gen): Emitted<T.Val>
    decreases e, 1
  {
    match e
    case FnCall(_, f, args, typ) =>
      var (dst, g1) := NewTemp(g, typ);
      var a := ArgsSpec(args, 0, g1);
      if a.Panicked? then Panicked(a.reason)
      else Emitted(dst, a.code + [T.FnCall(f, a.value, dst)], a.gen)
    case Range(_, s, en, _) =>
      var s' := ExprSpec(s, g);
      if s'.Panicked? then s'
      else
        var en' := ExprSpec(en, s'.gen);
        if en'.Panicked? then en'
        else
          var (dst, g1) := NewTemp(en'.gen, Some(Int32Type));
          Emitted(dst, s'.code + en'.code + [T.Binary(T.Sub, en'.value, s'.value, dst), T.Binary(T.Add, dst, T.IntOne, dst)], g1)
    case Conditional(_, _, _, _, _) => ConditionalSpec(e, g)
    case Var(_, x, _) => Emitted(T.Var(x), [], g)
    case Assignment(_, l, r, _) =>
      if !l.Var? then Panicked("assignment left side must be var")
      else
        var r' := ExprSpec(r, g);
        if r'.Panicked? then r'
        else Emitted(T.Var(l.ident), r'.code + [T.Copy(r'.value, T.Var(l.ident))], r'.gen)
    case ConstInt(_, v, typ) =>
      if typ == Some(Int64Type) then Emitted(T.Constant(Int64(v)), [], g)
      else Emitted(T.Constant(Int32(TruncateToInt32(v))), [], g)
    case ConstLong(_, v, _) => Emitted(T.Constant(Int64(v)), [], g)
    case StringExpr(_, text, _) => Emitted(T.StringConstant(text), [], g)
    case Unary(_, inner, op, typ) =>
      var i' := ExprSpec(inner, g);
      if i'.Panicked? then i'
      else
        var (dst, g1) := NewTemp(i'.gen, typ);
        var o := ToUnaryTackyOp(op);
        if !o.Ok? then Panicked(o.msg)
        else Emitted(dst, i'.code + [T.Unary(o.value, i'.value, dst)], g1)
    case Binary(_, _, _, op, _) =>
      if op == A_AND then AndSpec(e, g)
      else if op == A_OR then OrSpec(e, g)
      else BinarySpec(e, g)
    case _ => Panicked("unimplemented expr")
  }

  /** The arguments of a call from index `i`: their values and their code,
      in order. */
  function ArgsSpec(args: seq<Expr>, i: nat, g: Gen): Emitted<seq<T.Val>>
    requires i <= |args|
    decreases args, |args| - i
  {
    if i == |args| then Emitted([], [], g)
    else
      var a := ExprSpec(args[i], g);
      if a.Panicked? then Panicked(a.reason)
      else
        var rest := ArgsSpec(args, i + 1, a.gen);
        if rest.Panicked? then rest
        else Emitted([a.value] + rest.value, a.code + rest.code, rest.gen)
  }

  /** The conditional case: the end and else labels and the result
      temporary are made first (tack_gen.go:437-457). */
  function ConditionalSpec(e: Expr, g: Gen): Emitted<T.Val>
    requires e.Conditional?
    decreases e, 0
  {
    var (endL, g1) := NewLabel(g, "conditional_end");
    var (elseL, g2) := NewLabel(g1, "conditional_else");
    var (dst, g3) := NewTemp(g2, e.typ);
    var c := ExprSpec(e.cond, g3);
    if c.Panicked? then c
    else
      var th := ExprSpec(e.thenExpr, c.gen);
      if th.Panicked? then th
      else
        var el := ExprSpec(e.elseExpr, th.gen);
        if el.Panicked? then el
        else Emitted(dst,
          c.code + [T.JumpIfZero(c.value, elseL)]
          + th.code + [T.Copy(th.value, dst), T.Jump(endL), T.Label(elseL)]
          + el.code + [T.Copy(el.value, dst), T.Label(endL)], el.gen)
  }

  /** EmitAndExpr (tack_gen.go:321-360). */
  function AndSpec(e: Expr, g: Gen): Emitted<T.Val>
    requires e.Binary?
    decreases e, 0
  {
    var (falseL, g1) := NewLabel(g, "and_false");
    var (endL, g2) := NewLabel(g1, "and_end");
    var (dst, g3) := NewTemp(g2, Some(Int32Type));
    var l := ExprSpec(e.left, g3);
    if l.Panicked? then l
    else
      var r := ExprSpec(e.right, l.gen);
      if r.Panicked? then r
      else Emitted(dst,
        l.code + [T.JumpIfZero(l.value, falseL)] + r.code
        + [T.JumpIfZero(r.value, falseL), T.Copy(T.IntOne, dst), T.Jump(endL),
           T.Label(falseL), T.Copy(T.IntZero, dst), T.Label(endL)], r.gen)
  }

  /** EmitOrExpr (tack_gen.go:362-401). */
  function OrSpec(e: Expr, g: Gen): Emitted<T.Val>
    requires e.Binary?
    decreases e, 0
  {
    var (trueL, g1) := NewLabel(g, "or_true");
    var (endL, g2) := NewLabel(g1, "or_end");
    var (dst, g3) := NewTemp(g2, Some(Int32Type));
    var l := ExprSpec(e.left, g3);
    if l.Panicked? then l
    else
      var r := ExprSpec(e.right, l.gen);
      if r.Panicked? then r
      else Emitted(dst,
        l.code + [T.JumpIfNotZero(l.value, trueL)] + r.code
        + [T.JumpIfNotZero(r.value, trueL), T.Copy(T.IntZero, dst), T.Jump(endL),
           T.Label(trueL), T.Copy(T.IntOne, dst), T.Label(endL)], r.gen)
  }

  /** Any other binary operator: the operator is converted first (a panic
      when it has no TACKY form), then left and right operands, then one
      instruction into a fresh temporary (tack_gen.go:515-533). */
  function BinarySpec(e: Expr, g: Gen): Emitted<T.Val>
    requires e.Binary?
    decreases e, 0
  {
    var o := ToTackyOp(e.op);
    if !o.Ok? then Panicked(o.msg)
    else
      var l := ExprSpec(e.left, g);
      if l.Panicked? then l
      else
        var r := ExprSpec(e.right, l.gen);
        if r.Panicked? then r
        else
          var (dst, g1) := NewTemp(r.gen, e.typ);
          Emitted(dst, l.code + r.code + [T.Binary(o.value, l.value, r.value, dst)], g1)
  }

  // ---------------------------------------------------------------------
  // Statements and blocks (tack_gen.go:64-259)

  function Unit(code: seq<T.Instr>, g: Gen): Emitted<()> { Emitted((), code, g) }

  /** EmitTackyStmt. */
  function StmtSpec(lw: Lowering, st: Stmt, g: Gen): Emitted<()>
    decreases st, 2
  {
    match st
    case While(_, _, _, _) => WhileSpec(lw, st, g)
    case Loop(_, _, _, _, _) => LoopSpec(lw, st, g)
    case Break(_, id) => Unit([T.Jump(BreakName(id))], Bump(g))
    case Continue(_, id) => Unit([T.Jump(ContinueName(id))], Bump(g))
    case Compound(b) => BlockSpec(lw, b, g)
    case If(_, _, _, _) => IfSpec(lw, st, g)
    case Return(_, v) =>
      if v == NilExpr then Unit([T.Return(T.IntZero)], g)
      else
        var v' := ExprSpec(v, g);
        if v'.Panicked? then Panicked(v'.reason) else Unit(v'.code + [T.Return(v'.value)], v'.gen)
    case ExpressionStmt(e) =>
      var e' := ExprSpec(e, g);
      if e'.Panicked? then Panicked(e'.reason) else Unit(e'.code, e'.gen)
    case NilStmt => Unit([], g)
  }

  /** The while case (tack_gen.go:105-127). As written its exit and
      continue labels are `while_break.<n>` and `while_continue.<n>`, which
      no `break` or `continue` jumps to; as intended they are the
      `break.<id>` and `continue.<id>` the loop's jumps name. */
  function WhileSpec(lw: Lowering, st: Stmt, g: Gen): Emitted<()>
    requires st.While?
    decreases st, 0
  {
    var (startL, g1) := NewLabel(g, "while");
    var (contL, g2) := if lw == AsWritten then NewLabel(g1, "while_continue") else (ContinueName(st.id), Bump(g1));
    var (breakL, g3) := if lw == AsWritten then NewLabel(g2, "while_break") else (BreakName(st.id), Bump(g2));
    var c := ExprSpec(st.cond, g3);
    if c.Panicked? then Panicked(c.reason)
    else
      var b := BlockSpec(lw, st.body, c.gen);
      if b.Panicked? then b
      else Unit([T.Label(startL)] + c.code + [T.JumpIfZero(c.value, breakL)] + b.code
                + [T.Label(contL), T.Jump(startL), T.Label(breakL)], b.gen)
  }

  /** The loop case (tack_gen.go:128-197): the start label, then the
      continue and break labels named after the loop's id. */
  function LoopSpec(lw: Lowering, st: Stmt, g: Gen): Emitted<()>
    requires st.Loop?
    decreases st, 1
  {
    var (startL, g1) := NewLabel(g, "loop");
    if st.expr.Range? then RangeLoopSpec(lw, st, startL, Bump(Bump(g1)))
    else CondLoopSpec(lw, st, startL, Bump(Bump(g1)))
  }

  /** A loop over a range (tack_gen.go:135-177). As written, the start
      value is copied into the loop variable before the code that computes
      it, and the bound is compared before the code that computes it. */
  function RangeLoopSpec(lw: Lowering, st: Stmt, startL: string, g: Gen): Emitted<()>
    requires st.Loop? && st.expr.Range?
    decreases st, 0
  {
    var s := ExprSpec(st.expr.start, g);
    if s.Panicked? then Panicked(s.reason)
    else if !st.loopVar.Var? then Panicked("Expected ASTVar for loop variable")
    else
      var x := T.Var(st.loopVar.ident);
      var en := ExprSpec(st.expr.end, s.gen);
      if en.Panicked? then Panicked(en.reason)
      else
        var lv := ExprSpec(st.loopVar, en.gen);
        if lv.Panicked? then Panicked(lv.reason)
        else
          var (tmp, g1) := NewTemp(lv.gen, st.loopVar.typ);
          var b := BlockSpec(lw, st.body, g1);
          if b.Panicked? then b
          else
            var head :=
              if lw == AsWritten then
                [T.Copy(s.value, x)] + s.code + [T.Label(startL), T.Binary(T.LessThanEqual, lv.value, en.value, tmp)]
                + lv.code + en.code
              else
                s.code + [T.Copy(s.value, x), T.Label(startL)] + lv.code + en.code
                + [T.Binary(T.LessThanEqual, lv.value, en.value, tmp)];
            Unit(head + [T.JumpIfZero(tmp, BreakName(st.id))] + b.code
                 + [T.Label(ContinueName(st.id)), T.Binary(T.Add, x, T.IntOne, x), T.Jump(startL),
                    T.Label(BreakName(st.id))], b.gen)
  }

  /** A loop under a condition (tack_gen.go:178-190). As written, the body
      is lowered, for its effect on the counters and the symbol table, but
      its code is dropped. */
  function CondLoopSpec(lw: Lowering, st: Stmt, startL: string, g: Gen): Emitted<()>
    requires st.Loop?
    decreases st, 0
  {
    var c := ExprSpec(st.expr, g);
    if c.Panicked? then Panicked(c.reason)
    else
      var b := BlockSpec(lw, st.body, c.gen);
      if b.Panicked? then b
      else
        var body := if lw == AsWritten then [] else b.code;
        Unit([T.Label(startL)] + c.code + [T.JumpIfZero(c.value, BreakName(st.id))] + body
             + [T.Label(ContinueName(st.id)), T.Jump(startL), T.Label(BreakName(st.id))], b.gen)
  }

  /** The if case (tack_gen.go:210-240). */
  function IfSpec(lw: Lowering, st: Stmt, g: Gen): Emitted<()>
    requires st.If?
    decreases st, 1
  {
    if st.elseStmt == NilStmt then IfThenSpec(lw, st, g) else IfElseSpec(lw, st, g)
  }

  /** Without an else branch: the condition, a jump to the end label when
      it is zero, the then branch, the end label. */
  function IfThenSpec(lw: Lowering, st: Stmt, g: Gen): Emitted<()>
    requires st.If?
    decreases st, 0
  {
    var (endL, g1) := NewLabel(g, "if_end");
    var c := ExprSpec(st.cond, g1);
    if c.Panicked? then Panicked(c.reason)
    else
      var th := StmtSpec(lw, st.thenStmt, c.gen);
      if th.Panicked? then th
      else Unit(c.code + [T.JumpIfZero(c.value, endL)] + th.code + [T.Label(endL)], th.gen)
  }

  /** With an else branch, the code as written runs on from the then
      branch into the else branch; as intended it jumps over it to the end
      label. */
  function IfElseSpec(lw: Lowering, st: Stmt, g: Gen): Emitted<()>
    requires st.If?
    decreases st, 0
  {
    var (elseL, g1) := NewLabel(g, "else");
    var (endL, g2) := NewLabel(g1, "");
    var c := ExprSpec(st.cond, g2);
    if c.Panicked? then Panicked(c.reason)
    else
      var th := StmtSpec(lw, st.thenStmt, c.gen);
      if th.Panicked? then th
      else
        var el := StmtSpec(lw, st.elseStmt, th.gen);
        if el.Panicked? then el
        else
          var skip := if lw == AsWritten then [] else [T.Jump(endL)];
          Unit(c.code + [T.JumpIfZero(c.value, elseL)] + th.code + skip + [T.Label(elseL)]
               + el.code + [T.Label(endL)], el.gen)
  }

  /** EmitTackyBlock. */
  function BlockSpec(lw: Lowering, b: Block, g: Gen): Emitted<()>
    decreases b, 1
  {
    ItemsSpec(lw, b.items, 0, g)
  }

  function ItemsSpec(lw: Lowering, items: seq<BlockItem>, i: nat, g: Gen): Emitted<()>
    requires i <= |items|
    decreases items, |items| - i
  {
    if i == |items| then Unit([], g)
    else
      var h := ItemSpec(lw, items[i], g);
      if h.Panicked? then h
      else
        var rest := ItemsSpec(lw, items, i + 1, h.gen);
        if rest.Panicked? then rest else Unit(h.code + rest.code, rest.gen)
  }

  /** EmitTackyBlockItem and EmitTackyLocalDecl (tack_gen.go:72-90). */
  function ItemSpec(lw: Lowering, item: BlockItem, g: Gen): Emitted<()>
    decreases item, 0
  {
    match item
    case StmtItem(st) => StmtSpec(lw, st, g)
    case DeclItem(d) =>
      if d.FnDecl? then Panicked("can't decl the fn in local")
      else if d.VarDecl? then VarDeclSpec(d, g)
      else Unit([], g)
    case NilItem => Unit([], g)
  }

  /** EmitVarDecl (tack_gen.go:92-101): an initialiser is computed and
      copied into the variable; without one there is no code. */
  function VarDeclSpec(d: Decl, g: Gen): Emitted<()>
    requires d.VarDecl?
  {
    if d.expr == NilExpr then Unit([], g)
    else
      var e := ExprSpec(d.expr, g);
      if e.Panicked? then Panicked(e.reason)
      else Unit(e.code + [T.Copy(e.value, T.Var(d.ident))], e.gen)
  }

  // ---------------------------------------------------------------------
  // Functions and the program (tack_gen.go:30-62, 540-555)

  /** isReturnExistsIn: some top-level item of the body is a return. */
  predicate ReturnExists(d: Decl)
    requires d.FnDecl?
  {
    d.body.Some? && exists i :: 0 <= i < |d.body.value.items| && ReturnItem(d.body.value.items[i])
  }

  predicate ReturnItem(item: BlockItem)
  {
    item.StmtItem? && item.stmt.Return?
  }

  /** EmitTackyParam, over the parameter list. */
  function ParamVals(ps: seq<Param>): (r: seq<T.Val>)
    ensures |r| == |ps|
  {
    if |ps| == 0 then [] else ParamVals(ps[..|ps| - 1]) + [T.Var(ps[|ps| - 1].ident)]
  }

  /** EmitTackyFn. */
  function FnSpec(d: Decl, g: Gen): Made<T.TackyFn>
    requires d.FnDecl?
  {
    var body := if d.body.Some? then BlockSpec(AsWritten, d.body.value, g) else Unit([], g);
    if body.Panicked? then Crashed(body.reason)
    else
      var code := if ReturnExists(d) then body.code else body.code + [T.Return(T.IntZero)];
      Made(T.TackyFn(d.ident, ParamVals(d.params), d.isExtern, d.isPublic, code), body.gen)
  }

  /** EmitTacky from declaration `i`: each function goes to the defined or
      the extern list by its extern flag; other declarations give nothing. */
  function ProgramSpec(decls: seq<Decl>, i: nat, g: Gen): Made<T.TackyProgram>
    requires i <= |decls|
    decreases |decls| - i
  {
    if i == |decls| then Made(T.TackyProgram([], []), g)
    else if decls[i].FnDecl? then
      var f := FnSpec(decls[i], g);
      if f.Crashed? then Crashed(f.reason)
      else
        var rest := ProgramSpec(decls, i + 1, f.gen);
        if rest.Crashed? then rest
        else if !decls[i].isExtern then Made(T.TackyProgram([f.value] + rest.value.fnDefs, rest.value.externDefs), rest.gen)
        else Made(T.TackyProgram(rest.value.fnDefs, [f.value] + rest.value.externDefs), rest.gen)
    else ProgramSpec(decls, i + 1, g)
  }

  // ---------------------------------------------------------------------
  // Folding the loops of the source over the spec functions

  /** Puts the values and code already emitted in front of the rest. */
  function JoinArgs(vs: seq<T.Val>, cs: seq<T.Instr>, r: Emitted<seq<T.Val>>): Emitted<seq<T.Val>>
  {
    if r.Panicked? then r else Emitted(vs + r.value, cs + r.code, r.gen)
  }

  function JoinCode(cs: seq<T.Instr>, r: Emitted<()>): Emitted<()>
  {
    if r.Panicked? then r else Unit(cs + r.code, r.gen)
  }

  function JoinProgram(defs: seq<T.TackyFn>, externs: seq<T.TackyFn>, r: Made<T.TackyProgram>): Made<T.TackyProgram>
  {
    if r.Crashed? then r
    else Made(T.TackyProgram(defs + r.value.fnDefs, externs + r.value.externDefs), r.gen)
  }

  lemma JoinNothing(a: Emitted<seq<T.Val>>, p: Made<T.TackyProgram>)
    ensures JoinArgs([], [], a) == a
    ensures JoinProgram([], [], p) == p
  {
    if a.Emitted? {
      assert [] + a.value == a.value && [] + a.code == a.code;
    }
    if p.Made? {
      assert [] + p.value.fnDefs == p.value.fnDefs && [] + p.value.externDefs == p.value.externDefs;
    }
  }

  lemma ArgsStep(args: seq<Expr>, i: nat, g: Gen, vs: seq<T.Val>, cs: seq<T.Instr>)
    requires i < |args| && ExprSpec(args[i], g).Emitted?
    ensures var a := ExprSpec(args[i], g);
      JoinArgs(vs, cs, ArgsSpec(args, i, g)) == JoinArgs(vs + [a.value], cs + a.code, ArgsSpec(args, i + 1, a.gen))
  {
    var a := ExprSpec(args[i], g);
    var rest := ArgsSpec(args, i + 1, a.gen);
    if rest.Emitted? {
      assert vs + ([a.value] + rest.value) == vs + [a.value] + rest.value;
      assert cs + (a.code + rest.code) == cs + a.code + rest.code;
    }
  }

  lemma ItemsStep(lw: Lowering, items: seq<BlockItem>, i: nat, g: Gen, cs: seq<T.Instr>)
    requires i < |items| && ItemSpec(lw, items[i], g).Emitted?
    ensures var h := ItemSpec(lw, items[i], g);
      JoinCode(cs, ItemsSpec(lw, items, i, g)) == JoinCode(cs + h.code, ItemsSpec(lw, items, i + 1, h.gen))
  {
    var h := ItemSpec(lw, items[i], g);
    var rest := ItemsSpec(lw, items, i + 1, h.gen);
    if rest.Emitted? {
      assert cs + (h.code + rest.code) == cs + h.code + rest.code;
    }
  }

  lemma ProgramStep(decls: seq<Decl>, i: nat, g: Gen, defs: seq<T.TackyFn>, externs: seq<T.TackyFn>)
    requires i < |decls| && decls[i].FnDecl? && FnSpec(decls[i], g).Made?
    ensures var f := FnSpec(decls[i], g);
      JoinProgram(defs, externs, ProgramSpec(decls, i, g))
      == if !decls[i].isExtern then JoinProgram(defs + [f.value], externs, ProgramSpec(decls, i + 1, f.gen))
         else JoinProgram(defs, externs + [f.value], ProgramSpec(decls, i + 1, f.gen))
  {
    var f := FnSpec(decls[i], g);
    var rest := ProgramSpec(decls, i + 1, f.gen);
    if rest.Made? {
      assert defs + ([f.value] + rest.value.fnDefs) == defs + [f.value] + rest.value.fnDefs;
      assert externs + ([f.value] + rest.value.externDefs) == externs + [f.value] + rest.value.externDefs;
    }
  }

  // ---------------------------------------------------------------------
  // The generator (tack_gen.go:14-28)

  class TackyGen {
    var tempCount: nat
    var labelCount: nat
    const symbolTable: Symbols.SymbolTable

    /** The counters and the symbol table, as a value. */
    function State(): Gen
      reads this, symbolTable
    {
      Gen(tempCount, labelCount, symbolTable.entries)
    }

    /** NewTackyGen: both counters start at 0 over the given table. */
    constructor (table: Symbols.SymbolTable)
      ensures symbolTable == table && State() == Gen(0, 0, table.entries)
    {
      tempCount := 0;
      labelCount := 0;
      symbolTable := table;
    }

    /** makeTemp (tack_gen.go:567-573). */
    method MakeTemp(t: Option<Type>) returns (v: T.Val)
      modifies this, symbolTable
      ensures (v, State()) == NewTemp(old(State()), t)
    {
      var name := "tmp." + Decimal.NatToString(tempCount);
      tempCount := tempCount + 1;
      var _ := symbolTable.AddVar(t, name);
      v := T.Var(name);
    }

    /** makeLabel (tack_gen.go:589-593). */
    method MakeLabel(prefix: string) returns (v: T.Val)
      modifies this
      ensures v.Var? && (v.name, State()) == NewLabel(old(State()), prefix)
    {
      var name := prefix + "." + Decimal.NatToString(labelCount);
      labelCount := labelCount + 1;
      v := T.Var(name);
    }

    /** continueLabel (tack_gen.go:575-580). */
    method ContinueLabel(id: string) returns (v: T.Val)
      modifies this
      ensures v == T.Var(ContinueName(id)) && State() == Bump(old(State()))
    {
      labelCount := labelCount + 1;
      v := T.Var("continue." + id);
    }

    /** breakLabel (tack_gen.go:582-587). */
    method BreakLabel(id: string) returns (v: T.Val)
      modifies this
      ensures v == T.Var(BreakName(id)) && State() == Bump(old(State()))
    {
      labelCount := labelCount + 1;
      v := T.Var("break." + id);
    }

    /** EmitTacky (tack_gen.go:30-45). */
    method EmitTacky(p: Program) returns (r: Made<T.TackyProgram>)
      modifies this, symbolTable
      ensures r == ProgramSpec(p.decls, 0, old(State()))
      ensures r.Made? ==> State() == r.gen
    {
      var defs: seq<T.TackyFn> := [];
      var externs: seq<T.TackyFn> := [];
      JoinNothing(Emitted([], [], State()), ProgramSpec(p.decls, 0, State()));
      var i := 0;
      while i < |p.decls|
        invariant 0 <= i <= |p.decls|
        invariant ProgramSpec(p.decls, 0, old(State())) == JoinProgram(defs, externs, ProgramSpec(p.decls, i, State()))
      {
        if p.decls[i].FnDecl? {
          ghost var g := State();
          var f := EmitTackyFn(p.decls[i]);
          if f.Crashed? {
            return Crashed(f.reason);
          }
          ProgramStep(p.decls, i, g, defs, externs);
          if !p.decls[i].isExtern {
            defs := defs + [f.value];
          } else {
            externs := externs + [f.value];
          }
        }
        i := i + 1;
      }
      assert defs + [] == defs && externs + [] == externs;
      return Made(T.TackyProgram(defs, externs), State());
    }

    /** EmitTackyFn (tack_gen.go:47-62). */
    method EmitTackyFn(d: Decl) returns (r: Made<T.TackyFn>)
      requires d.FnDecl?
      modifies this, symbolTable
      ensures r == FnSpec(d, old(State()))
      ensures r.Made? ==> State() == r.gen
    {
      var irs: seq<T.Instr> := [];
      if d.body.Some? {
        var b := EmitTackyBlock(d.body.value);
        if b.Panicked? {
          return Crashed(b.reason);
        }
        irs := b.code;
      }
      var hasReturn := IsReturnExistsIn(d);
      if !hasReturn {
        irs := irs + [T.Return(T.IntZero)];
      }
      var params := EmitParams(d.params);
      return Made(T.TackyFn(d.ident, params, d.isExtern, d.isPublic, irs), State());
    }

    /** The parameter loop of EmitTackyFn, with EmitTackyParam
        (tack_gen.go:57-60, 540-542). */
    static method EmitParams(ps: seq<Param>) returns (vals: seq<T.Val>)
      ensures vals == ParamVals(ps)
    {
      vals := [];
      var i := 0;
      while i < |ps|
        invariant 0 <= i <= |ps| && vals == ParamVals(ps[..i])
      {
        assert ps[..i + 1][..i] == ps[..i];
        vals := vals + [T.Var(ps[i].ident)];
        i := i + 1;
      }
      assert ps[..i] == ps;
    }

    /** isReturnExistsIn (tack_gen.go:544-555). */
    static method IsReturnExistsIn(d: Decl) returns (b: bool)
      requires d.FnDecl?
      ensures b <==> ReturnExists(d)
    {
      if d.body.None? {
        return false;
      }
      var items := d.body.value.items;
      var i := 0;
      while i < |items|
        invariant 0 <= i <= |items|
        invariant forall k :: 0 <= k < i ==> !ReturnItem(items[k])
      {
        if items[i].StmtItem? && items[i].stmt.Return? {
          return true;
        }
        i := i + 1;
      }
      return false;
    }

    /** EmitTackyBlock (tack_gen.go:64-70). */
    method EmitTackyBlock(b: Block) returns (r: Emitted<()>)
      modifies this, symbolTable
      ensures r == BlockSpec(AsWritten, b, old(State()))
      ensures r.Emitted? ==> State() == r.gen
      decreases b, 1
    {
      var irs: seq<T.Instr> := [];
      var i := 0;
      while i < |b.items|
        invariant 0 <= i <= |b.items|
        invariant BlockSpec(AsWritten, b, old(State())) == JoinCode(irs, ItemsSpec(AsWritten, b.items, i, State()))
      {
        ghost var g := State();
        var h := EmitTackyBlockItem(b.items[i]);
        if h.Panicked? {
          return h;
        }
        ItemsStep(AsWritten, b.items, i, g, irs);
        irs := irs + h.code;
        i := i + 1;
      }
      assert irs + [] == irs;
      return Unit(irs, State());
    }

    /** EmitTackyBlockItem and EmitTackyLocalDecl (tack_gen.go:72-90). */
    method EmitTackyBlockItem(item: BlockItem) returns (r: Emitted<()>)
      modifies this, symbolTable
      ensures r == ItemSpec(AsWritten, item, old(State()))
      ensures r.Emitted? ==> State() == r.gen
      decreases item, 0
    {
      match item
      case StmtItem(st) =>
        r := EmitTackyStmt(st);
      case DeclItem(d) =>
        if d.FnDecl? {
          r := Panicked("can't decl the fn in local");
        } else if d.VarDecl? {
          r := EmitVarDecl(d);
        } else {
          r := Unit([], State());
        }
      case NilItem =>
        r := Unit([], State());
    }

    /** EmitVarDecl (tack_gen.go:92-101). */
    method EmitVarDecl(d: Decl) returns (r: Emitted<()>)
      requires d.VarDecl?
      modifies this, symbolTable
      ensures r == VarDeclSpec(d, old(State()))
      ensures r.Emitted? ==> State() == r.gen
    {
      if d.expr == NilExpr {
        return Unit([], State());
      }
      var e := EmitExpr(d.expr);
      if e.Panicked? {
        return Panicked(e.reason);
      }
      return Unit(e.code + [T.Copy(e.value, T.Var(d.ident))], State());
    }

    /** EmitTackyStmt (tack_gen.go:103-259). */
    method EmitTackyStmt(st: Stmt) returns (r: Emitted<()>)
      modifies this, symbolTable
      ensures r == StmtSpec(AsWritten, st, old(State()))
      ensures r.Emitted? ==> State() == r.gen
      decreases st, 2
    {
      match st
      case While(_, _, _, _) =>
        r := EmitWhile(st);
      case Loop(_, _, _, _, _) =>
        r := EmitLoop(st);
      case Break(_, id) =>
        var l := BreakLabel(id);
        r := Unit([T.Jump(l.name)], State());
      case Continue(_, id) =>
        var l := ContinueLabel(id);
        r := Unit([T.Jump(l.name)], State());
      case Compound(b) =>
        r := EmitTackyBlock(b);
      case If(_, _, _, _) =>
        if st.elseStmt == NilStmt {
          r := EmitIfThen(st);
        } else {
          r := EmitIfElse(st);
        }
      case Return(_, v) =>
        if v == NilExpr {
          r := Unit([T.Return(T.IntZero)], State());
        } else {
          var v' := EmitExpr(v);
          if v'.Panicked? {
            r := Panicked(v'.reason);
          } else {
            r := Unit(v'.code + [T.Return(v'.value)], State());
          }
        }
      case ExpressionStmt(e) =>
        var e' := EmitExpr(e);
        if e'.Panicked? {
          r := Panicked(e'.reason);
        } else {
          r := Unit(e'.code, State());
        }
      case NilStmt =>
        r := Unit([], State());
    }

    method EmitWhile(st: Stmt) returns (r: Emitted<()>)
      requires st.While?
      modifies this, symbolTable
      ensures r == WhileSpec(AsWritten, st, old(State()))
      ensures r.Emitted? ==> State() == r.gen
      decreases st, 0
    {
      var startLabel := MakeLabel("while");
      var continueLabel := MakeLabel("while_continue");
      var breakLabel := MakeLabel("while_break");
      var c := EmitExpr(st.cond);
      if c.Panicked? {
        return Panicked(c.reason);
      }
      var b := EmitTackyBlock(st.body);
      if b.Panicked? {
        return b;
      }
      return Unit([T.Label(startLabel.name)] + c.code + [T.JumpIfZero(c.value, breakLabel.name)] + b.code
                  + [T.Label(continueLabel.name), T.Jump(startLabel.name), T.Label(breakLabel.name)], State());
    }

    method EmitLoop(st: Stmt) returns (r: Emitted<()>)
      requires st.Loop?
      modifies this, symbolTable
      ensures r == LoopSpec(AsWritten, st, old(State()))
      ensures r.Emitted? ==> State() == r.gen
      decreases st, 1
    {
      var startLabel := MakeLabel("loop");
      var _ := ContinueLabel(st.id);
      var _ := BreakLabel(st.id);
      if st.expr.Range? {
        r := EmitRangeLoop(st, startLabel.name);
      } else {
        r := EmitCondLoop(st, startLabel.name);
      }
    }

    method EmitRangeLoop(st: Stmt, startL: string) returns (r: Emitted<()>)
      requires st.Loop? && st.expr.Range?
      modifies this, symbolTable
      ensures r == RangeLoopSpec(AsWritten, st, startL, old(State()))
      ensures r.Emitted? ==> State() == r.gen
      decreases st, 0
    {
      var s := EmitExpr(st.expr.start);
      if s.Panicked? {
        return Panicked(s.reason);
      }
      if !st.loopVar.Var? {
        return Panicked("Expected ASTVar for loop variable");
      }
      var x := T.Var(st.loopVar.ident);
      var irs := [T.Copy(s.value, x)] + s.code + [T.Label(startL)];
      var en := EmitExpr(st.expr.end);
      if en.Panicked? {
        return Panicked(en.reason);
      }
      var lv := EmitExpr(st.loopVar);
      if lv.Panicked? {
        return Panicked(lv.reason);
      }
      var temp := MakeTemp(st.loopVar.typ);
      irs := irs + [T.Binary(T.LessThanEqual, lv.value, en.value, temp)] + lv.code + en.code
             + [T.JumpIfZero(temp, BreakName(st.id))];
      var b := EmitTackyBlock(st.body);
      if b.Panicked? {
        return b;
      }
      irs := irs + b.code + [T.Label(ContinueName(st.id)), T.Binary(T.Add, x, T.IntOne, x), T.Jump(startL),
                             T.Label(BreakName(st.id))];
      return Unit(irs, State());
    }

    method EmitCondLoop(st: Stmt, startL: string) returns (r: Emitted<()>)
      requires st.Loop?
      modifies this, symbolTable
      ensures r == CondLoopSpec(AsWritten, st, startL, old(State()))
      ensures r.Emitted? ==> State() == r.gen
      decreases st, 0
    {
      var c := EmitExpr(st.expr);
      if c.Panicked? {
        return Panicked(c.reason);
      }
      var b := EmitTackyBlock(st.body);
      if b.Panicked? {
        return b;
      }
      return Unit([T.Label(startL)] + c.code + [T.JumpIfZero(c.value, BreakName(st.id))]
                  + [T.Label(ContinueName(st.id)), T.Jump(startL), T.Label(BreakName(st.id))], State());
    }

    method EmitIfThen(st: Stmt) returns (r: Emitted<()>)
      requires st.If?
      modifies this, symbolTable
      ensures r == IfThenSpec(AsWritten, st, old(State()))
      ensures r.Emitted? ==> State() == r.gen
      decreases st, 0
    {
      var endLabel := MakeLabel("if_end");
      var c := EmitExpr(st.cond);
      if c.Panicked? {
        return Panicked(c.reason);
      }
      var th := EmitTackyStmt(st.thenStmt);
      if th.Panicked? {
        return th;
      }
      return Unit(c.code + [T.JumpIfZero(c.value, endLabel.name)] + th.code + [T.Label(endLabel.name)], State());
    }

    method EmitIfElse(st: Stmt) returns (r: Emitted<()>)
      requires st.If?
      modifies this, symbolTable
      ensures r == IfElseSpec(AsWritten, st, old(State()))
      ensures r.Emitted? ==> State() == r.gen
      decreases st, 0
    {
      var elseLabel := MakeLabel("else");
      var endLabel := MakeLabel("");
      var c := EmitExpr(st.cond);
      if c.Panicked? {
        return Panicked(c.reason);
      }
      var th := EmitTackyStmt(st.thenStmt);
      if th.Panicked? {
        return th;
      }
      var el := EmitTackyStmt(st.elseStmt);
      if el.Panicked? {
        return el;
      }
      assert c.code + [T.JumpIfZero(c.value, elseLabel.name)] + th.code + [] == c.code + [T.JumpIfZero(c.value, elseLabel.name)] + th.code;
      return Unit(c.code + [T.JumpIfZero(c.value, elseLabel.name)] + th.code + [T.Label(elseLabel.name)]
                  + el.code + [T.Label(endLabel.name)], State());
    }

    /** EmitExpr (tack_gen.go:403-538). */
    method EmitExpr(e: Expr) returns (r: Emitted<T.Val>)
      modifies this, symbolTable
      ensures r == ExprSpec(e, old(State()))
      ensures r.Emitted? ==> State() == r.gen
      decreases e, 1
    {
      match e
      case FnCall(_, _, _, _) =>
        r := EmitFnCall(e);
      case Range(_, _, _, _) =>
        r := EmitRange(e);
      case Conditional(_, _, _, _, _) =>
        r := EmitConditional(e);
      case Var(_, x, _) =>
        r := Emitted(T.Var(x), [], State());
      case Assignment(_, l, rhs, _) =>
        if !l.Var? {
          return Panicked("assignment left side must be var");
        }
        var rhs' := EmitExpr(rhs);
        if rhs'.Panicked? {
          return rhs';
        }
        r := Emitted(T.Var(l.ident), rhs'.code + [T.Copy(rhs'.value, T.Var(l.ident))], State());
      case ConstInt(_, v, typ) =>
        if typ == Some(Int64Type) {
          r := Emitted(T.Constant(Int64(v)), [], State());
        } else {
          r := Emitted(T.Constant(Int32(TruncateToInt32(v))), [], State());
        }
      case ConstLong(_, v, _) =>
        r := Emitted(T.Constant(Int64(v)), [], State());
      case StringExpr(_, text, _) =>
        r := Emitted(T.StringConstant(text), [], State());
      case Unary(_, _, _, _) =>
        r := EmitUnary(e);
      case Binary(_, _, _, op, _) =>
        if op == A_AND {
          r := EmitAndExpr(e);
        } else if op == A_OR {
          r := EmitOrExpr(e);
        } else {
          r := EmitBinary(e);
        }
      case _ =>
        r := Panicked("unimplemented expr");
    }

    method EmitFnCall(e: Expr) returns (r: Emitted<T.Val>)
      requires e.FnCall?
      modifies this, symbolTable
      ensures r == ExprSpec(e, old(State()))
      ensures r.Emitted? ==> State() == r.gen
      decreases e, 0
    {
      var dst := MakeTemp(e.typ);
      ghost var g1 := State();
      var args: seq<T.Val> := [];
      var irs: seq<T.Instr> := [];
      JoinNothing(ArgsSpec(e.args, 0, g1), Crashed(""));
      var i := 0;
      while i < |e.args|
        invariant 0 <= i <= |e.args|
        invariant ArgsSpec(e.args, 0, g1) == JoinArgs(args, irs, ArgsSpec(e.args, i, State()))
      {
        ghost var g := State();
        var a := EmitExpr(e.args[i]);
        if a.Panicked? {
          return Panicked(a.reason);
        }
        ArgsStep(e.args, i, g, args, irs);
        args := args + [a.value];
        irs := irs + a.code;
        i := i + 1;
      }
      assert args + [] == args && irs + [] == irs;
      return Emitted(dst, irs + [T.FnCall(e.ident, args, dst)], State());
    }

    method EmitRange(e: Expr) returns (r: Emitted<T.Val>)
      requires e.Range?
      modifies this, symbolTable
      ensures r == ExprSpec(e, old(State()))
      ensures r.Emitted? ==> State() == r.gen
      decreases e, 0
    {
      var s := EmitExpr(e.start);
      if s.Panicked? {
        return s;
      }
      var en := EmitExpr(e.end);
      if en.Panicked? {
        return en;
      }
      var dst := MakeTemp(Some(Int32Type));
      return Emitted(dst, s.code + en.code + [T.Binary(T.Sub, en.value, s.value, dst), T.Binary(T.Add, dst, T.IntOne, dst)], State());
    }

    method EmitConditional(e: Expr) returns (r: Emitted<T.Val>)
      requires e.Conditional?
      modifies this, symbolTable
      ensures r == ExprSpec(e, old(State()))
      ensures r.Emitted? ==> State() == r.gen
      decreases e, 0
    {
      var endLabel := MakeLabel("conditional_end");
      var elseLabel := MakeLabel("conditional_else");
      var dst := MakeTemp(e.typ);
      var c := EmitExpr(e.cond);
      if c.Panicked? {
        return c;
      }
      var th := EmitExpr(e.thenExpr);
      if th.Panicked? {
        return th;
      }
      var el := EmitExpr(e.elseExpr);
      if el.Panicked? {
        return el;
      }
      return Emitted(dst,
        c.code + [T.JumpIfZero(c.value, elseLabel.name)]
        + th.code + [T.Copy(th.value, dst), T.Jump(endLabel.name), T.Label(elseLabel.name)]
        + el.code + [T.Copy(el.value, dst), T.Label(endLabel.name)], State());
    }

    method EmitUnary(e: Expr) returns (r: Emitted<T.Val>)
      requires e.Unary?
      modifies this, symbolTable
      ensures r == ExprSpec(e, old(State()))
      ensures r.Emitted? ==> State() == r.gen
      decreases e, 0
    {
      var src := EmitExpr(e.inner);
      if src.Panicked? {
        return src;
      }
      var dst := MakeTemp(e.typ);
      var op := ToUnaryTackyOp(e.unaryOp);
      if !op.Ok? {
        return Panicked(op.msg);
      }
      return Emitted(dst, src.code + [T.Unary(op.value, src.value, dst)], State());
    }

    method EmitBinary(e: Expr) returns (r: Emitted<T.Val>)
      requires e.Binary? && e.op != A_AND && e.op != A_OR
      modifies this, symbolTable
      ensures r == ExprSpec(e, old(State()))
      ensures r.Emitted? ==> State() == r.gen
      decreases e, 0
    {
      var op := ToTackyOp(e.op);
      if !op.Ok? {
        return Panicked(op.msg);
      }
      var v1 := EmitExpr(e.left);
      if v1.Panicked? {
        return v1;
      }
      var v2 := EmitExpr(e.right);
      if v2.Panicked? {
        return v2;
      }
      var dst := MakeTemp(e.typ);
      return Emitted(dst, v1.code + v2.code + [T.Binary(op.value, v1.value, v2.value, dst)], State());
    }

    /** EmitAndExpr (tack_gen.go:321-360). */
    method EmitAndExpr(e: Expr) returns (r: Emitted<T.Val>)
      requires e.Binary? && e.op == A_AND
      modifies this, symbolTable
      ensures r == ExprSpec(e, old(State()))
      ensures r.Emitted? ==> State() == r.gen
      decreases e, 0
    {
      var falseLabel := MakeLabel("and_false");
      var endLabel := MakeLabel("and_end");
      var dst := MakeTemp(Some(Int32Type));
      var v1 := EmitExpr(e.left);
      if v1.Panicked? {
        return v1;
      }
      var v2 := EmitExpr(e.right);
      if v2.Panicked? {
        return v2;
      }
      return Emitted(dst,
        v1.code + [T.JumpIfZero(v1.value, falseLabel.name)] + v2.code
        + [T.JumpIfZero(v2.value, falseLabel.name), T.Copy(T.IntOne, dst), T.Jump(endLabel.name),
           T.Label(falseLabel.name), T.Copy(T.IntZero, dst), T.Label(endLabel.name)], State());
    }

    /** EmitOrExpr (tack_gen.go:362-401). */
    method EmitOrExpr(e: Expr) returns (r: Emitted<T.Val>)
      requires e.Binary? && e.op == A_OR
      modifies this, symbolTable
      ensures r == ExprSpec(e, old(State()))
      ensures r.Emitted? ==> State() == r.gen
      decreases e, 0
    {
      var trueLabel := MakeLabel("or_true");
      var endLabel := MakeLabel("or_end");
      var dst := MakeTemp(Some(Int32Type));
      var v1 := EmitExpr(e.left);
      if v1.Panicked? {
        return v1;
      }
      var v2 := EmitExpr(e.right);
      if v2.Panicked? {
        return v2;
      }
      return Emitted(dst,
        v1.code + [T.JumpIfNotZero(v1.value, trueLabel.name)] + v2.code
        + [T.JumpIfNotZero(v2.value, trueLabel.name), T.Copy(T.IntZero, dst), T.Jump(endLabel.name),
           T.Label(trueLabel.name), T.Copy(T.IntOne, dst), T.Label(endLabel.name)], State());
    }
  }
}
