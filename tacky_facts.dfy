// Facts about the TACKY lowering of tackygen/tack_gen.go that hold for every
// program: the generator's counters only grow, every temporary it makes is
// registered in the symbol table as a fresh local variable and nothing else
// in the table changes; every lowered function holds a `Return`; and the
// program's functions are split by their extern flag, in order.
module TackyFacts {
  import opened Wrappers
  import opened GoLexer
  import opened MTypes
  import opened Ast
  import T = Tacky
  import opened Unique
  import Symbols
  import opened TackyGen

  /** `x` is one of the temporaries numbered from `g`'s count up to `h`'s. */
  ghost predicate Fresh(x: string, g: Gen, h: Gen)
  {
    exists k :: g.temps <= k < h.temps && x == TempName(k)
  }

  /** What lowering may do to the generator's state from `g` to `h`: the
      counters do not go back, each temporary numbered in between is in the
      table as an undefined variable with no stack frame, nothing leaves the
      table, and every other entry is as it was. */
  ghost predicate Grows(g: Gen, h: Gen)
  {
    && g.temps <= h.temps && g.labels <= h.labels
    && (forall k :: g.temps <= k < h.temps ==>
          TempName(k) in h.table && !h.table[TempName(k)].isDefined && h.table[TempName(k)].stackFrameSize == 0)
    && (forall x :: x in g.table ==> x in h.table)
    && (forall x :: x in h.table && !Fresh(x, g, h) ==> x in g.table && h.table[x] == g.table[x])
  }

  lemma GrowsRefl(g: Gen)
    ensures Grows(g, g)
  {
  }

  lemma GrowsTrans(a: Gen, b: Gen, c: Gen)
    requires Grows(a, b) && Grows(b, c)
    ensures Grows(a, c)
  {
    forall k | a.temps <= k < b.temps
      ensures TempName(k) in c.table && c.table[TempName(k)] == b.table[TempName(k)]
    {
      if Fresh(TempName(k), b, c) {
        var j :| b.temps <= j < c.temps && TempName(k) == TempName(j);
        TempNameInjective(k, j);
      }
    }
  }

  /** makeTemp registers exactly the one new temporary. */
  lemma NewTempGrows(g: Gen, t: Option<Type>)
    ensures Grows(g, NewTemp(g, t).1)
  {
    var h := NewTemp(g, t).1;
    forall x | x in h.table && !Fresh(x, g, h)
      ensures x in g.table && h.table[x] == g.table[x]
    {
      assert x != TempName(g.temps);
    }
  }

  lemma BumpGrows(g: Gen)
    ensures Grows(g, Bump(g)) && Grows(g, NewLabel(g, "").1)
  {
    assert forall x :: !Fresh(x, g, Bump(g));
  }

  lemma NewLabelGrows(g: Gen, prefix: string)
    ensures Grows(g, NewLabel(g, prefix).1)
  {
    BumpGrows(g);
  }

  // ---------------------------------------------------------------------
  // Expressions

  lemma {:induction false} ExprGrows(e: Expr, g: Gen)
    ensures var r := ExprSpec(e, g); r.Emitted? ==> Grows(g, r.gen)
    decreases e, 1
  {
    GrowsRefl(g);
    match e
    case FnCall(_, f, args, typ) =>
      var g1 := NewTemp(g, typ).1;
      NewTempGrows(g, typ);
      ArgsGrows(args, 0, g1);
      var a := ArgsSpec(args, 0, g1);
      if a.Emitted? { GrowsTrans(g, g1, a.gen); }
    case Range(_, s, en, _) =>
      ExprGrows(s, g);
      var s' := ExprSpec(s, g);
      if s'.Emitted? {
        ExprGrows(en, s'.gen);
        var en' := ExprSpec(en, s'.gen);
        if en'.Emitted? {
          NewTempGrows(en'.gen, Some(Int32Type));
          GrowsTrans(g, s'.gen, en'.gen);
          GrowsTrans(g, en'.gen, NewTemp(en'.gen, Some(Int32Type)).1);
        }
      }
    case Conditional(_, _, _, _, _) => ConditionalGrows(e, g);
    case Assignment(_, l, r, _) =>
      if l.Var? { ExprGrows(r, g); }
    case Unary(_, inner, op, typ) =>
      ExprGrows(inner, g);
      var i' := ExprSpec(inner, g);
      if i'.Emitted? {
        NewTempGrows(i'.gen, typ);
        GrowsTrans(g, i'.gen, NewTemp(i'.gen, typ).1);
      }
    case Binary(_, _, _, op, _) =>
      if op == A_AND { AndGrows(e, g); }
      else if op == A_OR { OrGrows(e, g); }
      else { BinaryGrows(e, g); }
    case _ =>
  }

  lemma {:induction false} ArgsGrows(args: seq<Expr>, i: nat, g: Gen)
    requires i <= |args|
    ensures var r := ArgsSpec(args, i, g); r.Emitted? ==> Grows(g, r.gen)
    decreases args, |args| - i
  {
    if i == |args| {
      GrowsRefl(g);
    } else {
      ExprGrows(args[i], g);
      var a := ExprSpec(args[i], g);
      if a.Emitted? {
        ArgsGrows(args, i + 1, a.gen);
        var rest := ArgsSpec(args, i + 1, a.gen);
        if rest.Emitted? { GrowsTrans(g, a.gen, rest.gen); }
      }
    }
  }

  /** The three steps that make two labels and a temporary. */
  lemma PreludeGrows(g: Gen, p1: string, p2: string, t: Option<Type>)
    ensures var g2 := NewLabel(NewLabel(g, p1).1, p2).1;
      Grows(g, NewTemp(g2, t).1)
  {
    var g1 := NewLabel(g, p1).1;
    var g2 := NewLabel(g1, p2).1;
    NewLabelGrows(g, p1);
    NewLabelGrows(g1, p2);
    NewTempGrows(g2, t);
    GrowsTrans(g, g1, g2);
    GrowsTrans(g, g2, NewTemp(g2, t).1);
  }

  /** Two operands lowered one after the other from `g3`. */
  lemma PairGrows(g: Gen, g3: Gen, left: Expr, right: Expr)
    requires Grows(g, g3)
    requires ExprSpec(left, g3).Emitted? ==> Grows(g3, ExprSpec(left, g3).gen)
    requires var l := ExprSpec(left, g3);
      l.Emitted? && ExprSpec(right, l.gen).Emitted? ==> Grows(l.gen, ExprSpec(right, l.gen).gen)
    ensures var l := ExprSpec(left, g3);
      l.Emitted? ==> Grows(g, l.gen) && (ExprSpec(right, l.gen).Emitted? ==> Grows(g, ExprSpec(right, l.gen).gen))
  {
    var l := ExprSpec(left, g3);
    if l.Emitted? {
      GrowsTrans(g, g3, l.gen);
      var r := ExprSpec(right, l.gen);
      if r.Emitted? { GrowsTrans(g, l.gen, r.gen); }
    }
  }

  lemma {:induction false} ConditionalGrows(e: Expr, g: Gen)
    requires e.Conditional?
    ensures var r := ConditionalSpec(e, g); r.Emitted? ==> Grows(g, r.gen)
    decreases e, 0
  {
    var g3 := NewTemp(NewLabel(NewLabel(g, "conditional_end").1, "conditional_else").1, e.typ).1;
    PreludeGrows(g, "conditional_end", "conditional_else", e.typ);
    ExprGrows(e.cond, g3);
    var c := ExprSpec(e.cond, g3);
    if c.Emitted? {
      GrowsTrans(g, g3, c.gen);
      ExprGrows(e.thenExpr, c.gen);
      var th := ExprSpec(e.thenExpr, c.gen);
      if th.Emitted? {
        ExprGrows(e.elseExpr, th.gen);
        PairGrows(g, c.gen, e.thenExpr, e.elseExpr);
      }
    }
  }

  lemma {:induction false} AndGrows(e: Expr, g: Gen)
    requires e.Binary?
    ensures var r := AndSpec(e, g); r.Emitted? ==> Grows(g, r.gen)
    decreases e, 0
  {
    var g3 := NewTemp(NewLabel(NewLabel(g, "and_false").1, "and_end").1, Some(Int32Type)).1;
    PreludeGrows(g, "and_false", "and_end", Some(Int32Type));
    ExprGrows(e.left, g3);
    var l := ExprSpec(e.left, g3);
    if l.Emitted? { ExprGrows(e.right, l.gen); }
    PairGrows(g, g3, e.left, e.right);
  }

  lemma {:induction false} OrGrows(e: Expr, g: Gen)
    requires e.Binary?
    ensures var r := OrSpec(e, g); r.Emitted? ==> Grows(g, r.gen)
    decreases e, 0
  {
    var g3 := NewTemp(NewLabel(NewLabel(g, "or_true").1, "or_end").1, Some(Int32Type)).1;
    PreludeGrows(g, "or_true", "or_end", Some(Int32Type));
    ExprGrows(e.left, g3);
    var l := ExprSpec(e.left, g3);
    if l.Emitted? { ExprGrows(e.right, l.gen); }
    PairGrows(g, g3, e.left, e.right);
  }

  lemma {:induction false} BinaryGrows(e: Expr, g: Gen)
    requires e.Binary?
    ensures var r := BinarySpec(e, g); r.Emitted? ==> Grows(g, r.gen)
    decreases e, 0
  {
    GrowsRefl(g);
    ExprGrows(e.left, g);
    var l := ExprSpec(e.left, g);
    if l.Emitted? {
      ExprGrows(e.right, l.gen);
      PairGrows(g, g, e.left, e.right);
      var r := ExprSpec(e.right, l.gen);
      if r.Emitted? {
        NewTempGrows(r.gen, e.typ);
        GrowsTrans(g, r.gen, NewTemp(r.gen, e.typ).1);
      }
    }
  }

  // ---------------------------------------------------------------------
  // Statements

  lemma {:induction false} StmtGrows(lw: Lowering, st: Stmt, g: Gen)
    ensures var r := StmtSpec(lw, st, g); r.Emitted? ==> Grows(g, r.gen)
    decreases st, 2
  {
    GrowsRefl(g);
    match st
    case While(_, _, _, _) => WhileGrows(lw, st, g);
    case Loop(_, _, _, _, _) => LoopGrows(lw, st, g);
    case Break(_, _) => BumpGrows(g);
    case Continue(_, _) => BumpGrows(g);
    case Compound(b) => BlockGrows(lw, b, g);
    case If(_, _, _, _) => IfGrows(lw, st, g);
    case Return(_, v) => if v != NilExpr { ExprGrows(v, g); }
    case ExpressionStmt(e) => ExprGrows(e, g);
    case NilStmt =>
  }

  /** An expression, then a block, lowered after `g0`. */
  lemma ExprThenBlockGrows(lw: Lowering, g: Gen, g0: Gen, e: Expr, b: Block)
    requires Grows(g, g0)
    requires ExprSpec(e, g0).Emitted? ==> Grows(g0, ExprSpec(e, g0).gen)
    requires var c := ExprSpec(e, g0);
      c.Emitted? && BlockSpec(lw, b, c.gen).Emitted? ==> Grows(c.gen, BlockSpec(lw, b, c.gen).gen)
    ensures var c := ExprSpec(e, g0);
      c.Emitted? && BlockSpec(lw, b, c.gen).Emitted? ==> Grows(g, BlockSpec(lw, b, c.gen).gen)
  {
    var c := ExprSpec(e, g0);
    if c.Emitted? {
      GrowsTrans(g, g0, c.gen);
      var bl := BlockSpec(lw, b, c.gen);
      if bl.Emitted? { GrowsTrans(g, c.gen, bl.gen); }
    }
  }

  lemma {:induction false} WhileGrows(lw: Lowering, st: Stmt, g: Gen)
    requires st.While?
    ensures var r := WhileSpec(lw, st, g); r.Emitted? ==> Grows(g, r.gen)
    decreases st, 0
  {
    var g1 := NewLabel(g, "while").1;
    var g2 := if lw == AsWritten then NewLabel(g1, "while_continue").1 else Bump(g1);
    var g3 := if lw == AsWritten then NewLabel(g2, "while_break").1 else Bump(g2);
    NewLabelGrows(g, "while");
    NewLabelGrows(g1, "while_continue");
    NewLabelGrows(g2, "while_break");
    BumpGrows(g1);
    BumpGrows(g2);
    GrowsTrans(g, g1, g2);
    GrowsTrans(g, g2, g3);
    ExprGrows(st.cond, g3);
    var c := ExprSpec(st.cond, g3);
    if c.Emitted? { BlockGrows(lw, st.body, c.gen); }
    ExprThenBlockGrows(lw, g, g3, st.cond, st.body);
  }

  lemma {:induction false} LoopGrows(lw: Lowering, st: Stmt, g: Gen)
    requires st.Loop?
    ensures var r := LoopSpec(lw, st, g); r.Emitted? ==> Grows(g, r.gen)
    decreases st, 1
  {
    var g1 := NewLabel(g, "loop").1;
    var g3 := Bump(Bump(g1));
    NewLabelGrows(g, "loop");
    BumpGrows(g1);
    BumpGrows(Bump(g1));
    GrowsTrans(g, g1, Bump(g1));
    GrowsTrans(g, Bump(g1), g3);
    if st.expr.Range? {
      RangeLoopGrows(lw, st, LabelName("loop", g.labels), g3);
      var r := RangeLoopSpec(lw, st, LabelName("loop", g.labels), g3);
      if r.Emitted? { GrowsTrans(g, g3, r.gen); }
    } else {
      CondLoopGrows(lw, st, LabelName("loop", g.labels), g3);
      var r := CondLoopSpec(lw, st, LabelName("loop", g.labels), g3);
      if r.Emitted? { GrowsTrans(g, g3, r.gen); }
    }
  }

  lemma {:induction false} RangeLoopGrows(lw: Lowering, st: Stmt, startL: string, g: Gen)
    requires st.Loop? && st.expr.Range?
    ensures var r := RangeLoopSpec(lw, st, startL, g); r.Emitted? ==> Grows(g, r.gen)
    decreases st, 0
  {
    ExprGrows(st.expr.start, g);
    var s := ExprSpec(st.expr.start, g);
    if s.Emitted? && st.loopVar.Var? {
      ExprGrows(st.expr.end, s.gen);
      var en := ExprSpec(st.expr.end, s.gen);
      if en.Emitted? {
        GrowsTrans(g, s.gen, en.gen);
        ExprGrows(st.loopVar, en.gen);
        var lv := ExprSpec(st.loopVar, en.gen);
        if lv.Emitted? {
          GrowsTrans(g, en.gen, lv.gen);
          var g1 := NewTemp(lv.gen, st.loopVar.typ).1;
          NewTempGrows(lv.gen, st.loopVar.typ);
          GrowsTrans(g, lv.gen, g1);
          BlockGrows(lw, st.body, g1);
          var b := BlockSpec(lw, st.body, g1);
          if b.Emitted? { GrowsTrans(g, g1, b.gen); }
        }
      }
    }
  }

  lemma {:induction false} CondLoopGrows(lw: Lowering, st: Stmt, startL: string, g: Gen)
    requires st.Loop?
    ensures var r := CondLoopSpec(lw, st, startL, g); r.Emitted? ==> Grows(g, r.gen)
    decreases st, 0
  {
    GrowsRefl(g);
    ExprGrows(st.expr, g);
    var c := ExprSpec(st.expr, g);
    if c.Emitted? { BlockGrows(lw, st.body, c.gen); }
    ExprThenBlockGrows(lw, g, g, st.expr, st.body);
  }

  lemma {:induction false} IfGrows(lw: Lowering, st: Stmt, g: Gen)
    requires st.If?
    ensures var r := IfSpec(lw, st, g); r.Emitted? ==> Grows(g, r.gen)
    decreases st, 1
  {
    if st.elseStmt == NilStmt { IfThenGrows(lw, st, g); } else { IfElseGrows(lw, st, g); }
  }

  lemma {:induction false} IfThenGrows(lw: Lowering, st: Stmt, g: Gen)
    requires st.If?
    ensures var r := IfThenSpec(lw, st, g); r.Emitted? ==> Grows(g, r.gen)
    decreases st, 0
  {
    var g1 := NewLabel(g, "if_end").1;
    NewLabelGrows(g, "if_end");
    ExprGrows(st.cond, g1);
    var c := ExprSpec(st.cond, g1);
    if c.Emitted? {
      GrowsTrans(g, g1, c.gen);
      StmtGrows(lw, st.thenStmt, c.gen);
      var th := StmtSpec(lw, st.thenStmt, c.gen);
      if th.Emitted? { GrowsTrans(g, c.gen, th.gen); }
    }
  }

  lemma {:induction false} IfElseGrows(lw: Lowering, st: Stmt, g: Gen)
    requires st.If?
    ensures var r := IfElseSpec(lw, st, g); r.Emitted? ==> Grows(g, r.gen)
    decreases st, 0
  {
    var g1 := NewLabel(g, "else").1;
    var g2 := NewLabel(g1, "").1;
    NewLabelGrows(g, "else");
    NewLabelGrows(g1, "");
    GrowsTrans(g, g1, g2);
    ExprGrows(st.cond, g2);
    var c := ExprSpec(st.cond, g2);
    if c.Emitted? {
      GrowsTrans(g, g2, c.gen);
      StmtGrows(lw, st.thenStmt, c.gen);
      var th := StmtSpec(lw, st.thenStmt, c.gen);
      if th.Emitted? {
        GrowsTrans(g, c.gen, th.gen);
        StmtGrows(lw, st.elseStmt, th.gen);
        var el := StmtSpec(lw, st.elseStmt, th.gen);
        if el.Emitted? { GrowsTrans(g, th.gen, el.gen); }
      }
    }
  }

  lemma {:induction false} BlockGrows(lw: Lowering, b: Block, g: Gen)
    ensures var r := BlockSpec(lw, b, g); r.Emitted? ==> Grows(g, r.gen)
    decreases b, 1
  {
    ItemsGrows(lw, b.items, 0, g);
  }

  lemma {:induction false} ItemsGrows(lw: Lowering, items: seq<BlockItem>, i: nat, g: Gen)
    requires i <= |items|
    ensures var r := ItemsSpec(lw, items, i, g); r.Emitted? ==> Grows(g, r.gen)
    decreases items, |items| - i
  {
    if i == |items| {
      GrowsRefl(g);
    } else {
      ItemGrows(lw, items[i], g);
      var h := ItemSpec(lw, items[i], g);
      if h.Emitted? {
        ItemsGrows(lw, items, i + 1, h.gen);
        var rest := ItemsSpec(lw, items, i + 1, h.gen);
        if rest.Emitted? { GrowsTrans(g, h.gen, rest.gen); }
      }
    }
  }

  lemma {:induction false} ItemGrows(lw: Lowering, item: BlockItem, g: Gen)
    ensures var r := ItemSpec(lw, item, g); r.Emitted? ==> Grows(g, r.gen)
    decreases item, 0
  {
    GrowsRefl(g);
    match item
    case StmtItem(st) => StmtGrows(lw, st, g);
    case DeclItem(d) => if d.VarDecl? && d.expr != NilExpr { ExprGrows(d.expr, g); }
    case NilItem =>
  }

  // ---------------------------------------------------------------------
  // Functions and the program

  /** Some instruction of `code` is a `Return`. */
  ghost predicate HasReturn(code: seq<T.Instr>)
  {
    exists j :: 0 <= j < |code| && code[j].Return?
  }

  lemma ReturnAppended(a: seq<T.Instr>, b: seq<T.Instr>)
    requires HasReturn(a) || HasReturn(b)
    ensures HasReturn(a + b)
  {
    if HasReturn(a) {
      var j :| 0 <= j < |a| && a[j].Return?;
      assert (a + b)[j] == a[j];
    } else {
      var j :| 0 <= j < |b| && b[j].Return?;
      assert (a + b)[|a| + j] == b[j];
    }
  }

  /** A block whose item `k` is a return statement lowers to code holding a
      `Return`. */
  lemma {:induction false} ItemsReturn(items: seq<BlockItem>, i: nat, g: Gen, k: nat)
    requires i <= k < |items| && ReturnItem(items[k])
    ensures var r := ItemsSpec(AsWritten, items, i, g); r.Emitted? ==> HasReturn(r.code)
    decreases k - i
  {
    var h := ItemSpec(AsWritten, items[i], g);
    if h.Emitted? {
      var rest := ItemsSpec(AsWritten, items, i + 1, h.gen);
      if rest.Emitted? {
        if i == k {
          var v := items[k].stmt.returnValue;
          assert h == StmtSpec(AsWritten, items[k].stmt, g);
          assert h.code[|h.code| - 1].Return? by {
            if v != NilExpr {
              var v' := ExprSpec(v, g);
              assert v'.Emitted? && h.code == v'.code + [T.Return(v'.value)];
            }
          }
          ReturnAppended(h.code, rest.code);
        } else {
          ItemsReturn(items, i + 1, h.gen, k);
          ReturnAppended(h.code, rest.code);
        }
      }
    }
  }

  /** EmitTackyFn keeps the declaration's name, parameters and flags, and
      its code always holds a `Return`: the body's own when it has a
      top-level return, otherwise a `Return 0` appended at the end. */
  lemma FnLowered(d: Decl, g: Gen)
    requires d.FnDecl?
    ensures var f := FnSpec(d, g);
      f.Made? ==>
        && f.value.name == d.ident && f.value.params == ParamVals(d.params)
        && f.value.isExtern == d.isExtern && f.value.global == d.isPublic
        && HasReturn(f.value.instructions)
        && (!ReturnExists(d) ==> f.value.instructions[|f.value.instructions| - 1] == T.Return(T.IntZero))
        && Grows(g, f.gen)
  {
    var f := FnSpec(d, g);
    GrowsRefl(g);
    if d.body.Some? { BlockGrows(AsWritten, d.body.value, g); }
    if f.Made? {
      var code := f.value.instructions;
      if ReturnExists(d) {
        var k :| 0 <= k < |d.body.value.items| && ReturnItem(d.body.value.items[k]);
        ItemsReturn(d.body.value.items, 0, g, k);
      } else {
        assert code[|code| - 1].Return?;
      }
    }
  }

  /** The names of the function declarations from `i` whose extern flag is
      `ext`, in order. */
  function FnNames(decls: seq<Decl>, i: nat, ext: bool): seq<string>
    requires i <= |decls|
    decreases |decls| - i
  {
    if i == |decls| then []
    else if decls[i].FnDecl? && decls[i].isExtern == ext then [decls[i].ident] + FnNames(decls, i + 1, ext)
    else FnNames(decls, i + 1, ext)
  }

  function Names(fs: seq<T.TackyFn>): seq<string>
  {
    if |fs| == 0 then [] else [fs[0].name] + Names(fs[1..])
  }

  /** EmitTacky puts every defined function, in declaration order, in the
      list of definitions and every extern in the list of externs, and only
      those. */
  lemma {:induction false} ProgramSplit(decls: seq<Decl>, i: nat, g: Gen)
    requires i <= |decls|
    ensures var p := ProgramSpec(decls, i, g);
      p.Made? ==>
        && Names(p.value.fnDefs) == FnNames(decls, i, false)
        && Names(p.value.externDefs) == FnNames(decls, i, true)
        && (forall k :: 0 <= k < |p.value.fnDefs| ==> !p.value.fnDefs[k].isExtern)
        && (forall k :: 0 <= k < |p.value.externDefs| ==> p.value.externDefs[k].isExtern)
        && Grows(g, p.gen)
    decreases |decls| - i
  {
    if i == |decls| {
      GrowsRefl(g);
    } else if decls[i].FnDecl? {
      FnLowered(decls[i], g);
      var f := FnSpec(decls[i], g);
      if f.Made? {
        ProgramSplit(decls, i + 1, f.gen);
        var rest := ProgramSpec(decls, i + 1, f.gen);
        if rest.Made? {
          GrowsTrans(g, f.gen, rest.gen);
          if !decls[i].isExtern {
            assert ([f.value] + rest.value.fnDefs)[1..] == rest.value.fnDefs;
          } else {
            assert ([f.value] + rest.value.externDefs)[1..] == rest.value.externDefs;
          }
        }
      }
    } else {
      ProgramSplit(decls, i + 1, g);
    }
  }
}
