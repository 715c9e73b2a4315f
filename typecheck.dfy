// semantic_analysis/type_checker.go: the type checker. It registers every
// function and variable in the shared symbol table, gives constants, unary
// and binary expressions their types, and rejects calls of variables and uses
// of functions as variables.
//
// The checker works on the nodes in place and keeps the symbol table across
// declarations; the model threads the table's entries through every step.
// Checking a block checks only its first item, and the checked block keeps
// only that item. Check itself drops every error (see the as-written and
// intended versions at the end).
module TypeCheck {
  import opened Wrappers
  import opened GoLexer
  import opened MTypes
  import opened Ast
  import opened Diagnostics
  import Symbols

  type Entries = map<string, Symbols.Entry>

  /** The result of a step that may change the symbol table: the checked
      node or the error, and the table after it either way. */
  datatype Checked<T> = Done(value: T, table: Entries) | Failed(cause: Cause, table: Entries)

  /** createSemanticError (type_checker.go:24-26). */
  function TypeError(src: seq<int>, message: string, line: int, span: Span): Cause
  {
    Semantic(New(message, line, span, src, SemanticModule))
  }

  function ErrorAt(src: seq<int>, message: string, tok: Token): Cause
  {
    TypeError(src, message, tok.line, tok.span)
  }

  /** The type a function entry is registered with: an empty FnType. */
  const FnEntryType := FnType([], None)

  /** An entry whose type is a function type. */
  predicate IsFnEntry(e: Symbols.Entry)
  {
    e.typ.Some? && e.typ.value.FnType?
  }

  /** GetType of a node; every checked node has one. */
  function GetType(e: Expr): Option<Type>
    requires !e.NilExpr?
  {
    e.typ
  }

  /** getCommonType (type_checker.go:310-315): the first type when both
      are the same, and `long` otherwise. */
  function GetCommonType(t1: Option<Type>, t2: Option<Type>): Option<Type>
  {
    if t1 == t2 then t1 else Some(LongType)
  }

  /** The common type does not depend on the operands' order. */
  lemma CommonTypeSymmetric(t1: Option<Type>, t2: Option<Type>)
    ensures GetCommonType(t1, t2) == GetCommonType(t2, t1)
    ensures GetCommonType(t1, t2) == t1 || GetCommonType(t1, t2) == Some(LongType)
  {
  }

  // ---------------------------------------------------------------------
  // Expressions (type_checker.go:206-308)

  /** checkExpr. */
  function ExprSpec(src: seq<int>, e: Expr, t: Entries): (r: Attempt<Expr>)
    ensures r.Success? ==> !r.value.NilExpr?
    decreases e, 0
  {
    match e
    case Assignment(tok, l, rt, _) =>
      var l' := ExprSpec(src, l, t);
      if l'.Failure? then l'
      else
        var r' := ExprSpec(src, rt, t);
        if r'.Failure? then r' else Success(Assignment(tok, l'.value, r'.value, GetType(l'.value)))
    case Unary(tok, inner, op, _) =>
      var inner' := ExprSpec(src, inner, t);
      if inner'.Failure? then inner' else Success(Unary(tok, inner'.value, op, Some(IntType)))
    case Conditional(tok, c, th, el, _) =>
      var c' := ExprSpec(src, c, t);
      if c'.Failure? then c'
      else
        var th' := ExprSpec(src, th, t);
        if th'.Failure? then th'
        else
          var el' := ExprSpec(src, el, t);
          if el'.Failure? then el'
          else Success(Conditional(tok, c'.value, th'.value, el'.value, GetCommonType(GetType(th'.value), GetType(el'.value))))
    case ConstInt(tok, v, _) => Success(ConstInt(tok, v, Some(IntType)))
    case ConstLong(tok, v, _) => Success(ConstLong(tok, v, Some(LongType)))
    case Binary(tok, rt, l, op, _) =>
      var l' := ExprSpec(src, l, t);
      if l'.Failure? then l'
      else
        var r' := ExprSpec(src, rt, t);
        if r'.Failure? then r'
        else Success(Binary(tok, r'.value, l'.value, op, GetCommonType(GetType(l'.value), GetType(r'.value))))
    case Var(tok, x, _) =>
      if x !in t then Failure(Crash("nil pointer dereference"))
      else if IsFnEntry(t[x]) then Failure(ErrorAt(src, "%s-нь хувьсагч байна", tok))
      else Success(Var(tok, x, t[x].typ))
    case FnCall(tok, f, args, typ) =>
      if f !in t then Failure(ErrorAt(src, "функц %s-ийг дуудаж байна", tok))
      else if t[f].typ == Some(IntType) then Failure(ErrorAt(src, "хувьсагч %s-ийг дуудаж байна", tok))
      else if IsFnEntry(t[f]) then
        var a := ArgsSpec(src, args, 0, t);
        if a.Failure? then Failure(a.cause) else Success(FnCall(tok, f, a.value, typ))
      else Failure(ErrorAt(src, "функц %s-ийг өөр төрөлтэйгөөр дуудасан байна", tok))
    case _ => Failure(TypeError(src, "unreachable expr", 0, Span(0, 0)))
  }

  /** The arguments of a call from index `i`, in order. */
  function ArgsSpec(src: seq<int>, args: seq<Expr>, i: nat, t: Entries): Attempt<seq<Expr>>
    requires i <= |args|
    decreases args, |args| - i
  {
    if i == |args| then Success([])
    else
      var a := ExprSpec(src, args[i], t);
      if a.Failure? then Failure(a.cause) else PrependAttempt([a.value], ArgsSpec(src, args, i + 1, t))
  }

  /** The expressions checkExpr accepts: every variable is bound to a
      non-function entry, every called name to a function entry, and only
      the node kinds it knows occur. */
  predicate Checkable(e: Expr, t: Entries)
    decreases e, 0
  {
    match e
    case Assignment(_, l, r, _) => Checkable(l, t) && Checkable(r, t)
    case Unary(_, inner, _, _) => Checkable(inner, t)
    case Conditional(_, c, th, el, _) => Checkable(c, t) && Checkable(th, t) && Checkable(el, t)
    case ConstInt(_, _, _) => true
    case ConstLong(_, _, _) => true
    case Binary(_, r, l, _, _) => Checkable(l, t) && Checkable(r, t)
    case Var(_, x, _) => x in t && !IsFnEntry(t[x])
    case FnCall(_, f, args, _) => f in t && IsFnEntry(t[f]) && ArgsCheckable(args, 0, t)
    case _ => false
  }

  predicate ArgsCheckable(args: seq<Expr>, i: nat, t: Entries)
    requires i <= |args|
    decreases args, |args| - i
  {
    i == |args| || (Checkable(args[i], t) && ArgsCheckable(args, i + 1, t))
  }

  /** The type checkExpr gives an expression, computed from the input
      alone: constants and unary expressions have fixed types, a variable
      has its entry's type, an assignment its left side's, a
      conditional or binary expression the common type of its operands,
      and a call keeps the type it had. */
  function ExprType(e: Expr, t: Entries): Option<Type>
    decreases e
  {
    match e
    case Assignment(_, l, _, _) => ExprType(l, t)
    case Unary(_, _, _, _) => Some(IntType)
    case Conditional(_, _, th, el, _) => GetCommonType(ExprType(th, t), ExprType(el, t))
    case ConstInt(_, _, _) => Some(IntType)
    case ConstLong(_, _, _) => Some(LongType)
    case Binary(_, r, l, _, _) => GetCommonType(ExprType(l, t), ExprType(r, t))
    case Var(_, x, _) => if x in t then t[x].typ else None
    case FnCall(_, _, _, typ) => typ
    case _ => None
  }

  /** Checking succeeds exactly on the checkable expressions; it then
      gives the expression the type ExprType computes. */
  lemma {:induction false} ExprChecks(src: seq<int>, e: Expr, t: Entries)
    ensures ExprSpec(src, e, t).Success? <==> Checkable(e, t)
    ensures ExprSpec(src, e, t).Success? ==> GetType(ExprSpec(src, e, t).value) == ExprType(e, t)
    decreases e, 0
  {
    match e
    case Assignment(_, l, r, _) => ExprChecks(src, l, t); ExprChecks(src, r, t);
    case Unary(_, inner, _, _) => ExprChecks(src, inner, t);
    case Conditional(_, c, th, el, _) => ExprChecks(src, c, t); ExprChecks(src, th, t); ExprChecks(src, el, t);
    case Binary(_, r, l, _, _) => ExprChecks(src, l, t); ExprChecks(src, r, t);
    case FnCall(_, f, args, _) => ArgsCheck(src, args, 0, t);
    case _ =>
  }

  lemma {:induction false} ArgsCheck(src: seq<int>, args: seq<Expr>, i: nat, t: Entries)
    requires i <= |args|
    ensures ArgsSpec(src, args, i, t).Success? <==> ArgsCheckable(args, i, t)
    decreases args, |args| - i
  {
    if i < |args| {
      ExprChecks(src, args[i], t);
      ArgsCheck(src, args, i + 1, t);
    }
  }

  /** An expression with every `Type` field cleared. */
  function Untyped(e: Expr): Expr
    decreases e, 0
  {
    match e
    case Assignment(tok, l, r, _) => Assignment(tok, Untyped(l), Untyped(r), None)
    case Unary(tok, inner, op, _) => Unary(tok, Untyped(inner), op, None)
    case Conditional(tok, c, th, el, _) => Conditional(tok, Untyped(c), Untyped(th), Untyped(el), None)
    case ConstInt(tok, v, _) => ConstInt(tok, v, None)
    case ConstLong(tok, v, _) => ConstLong(tok, v, None)
    case Binary(tok, r, l, op, _) => Binary(tok, Untyped(r), Untyped(l), op, None)
    case Var(tok, x, _) => Var(tok, x, None)
    case FnCall(tok, f, args, _) => FnCall(tok, f, ArgsUntyped(args, 0), None)
    case _ => e
  }

  function ArgsUntyped(args: seq<Expr>, i: nat): seq<Expr>
    requires i <= |args|
    decreases args, |args| - i
  {
    if i == |args| then [] else [Untyped(args[i])] + ArgsUntyped(args, i + 1)
  }

  /** Checking changes types only: the checked expression is the input
      with its `Type` fields set. */
  lemma {:induction false} ExprKeepsShape(src: seq<int>, e: Expr, t: Entries)
    requires ExprSpec(src, e, t).Success?
    ensures Untyped(ExprSpec(src, e, t).value) == Untyped(e)
    decreases e, 0
  {
    match e
    case Assignment(_, l, r, _) => ExprKeepsShape(src, l, t); ExprKeepsShape(src, r, t);
    case Unary(_, inner, _, _) => ExprKeepsShape(src, inner, t);
    case Conditional(_, c, th, el, _) =>
      ExprKeepsShape(src, c, t); ExprKeepsShape(src, th, t); ExprKeepsShape(src, el, t);
    case Binary(_, r, l, _, _) => ExprKeepsShape(src, l, t); ExprKeepsShape(src, r, t);
    case FnCall(_, f, args, _) =>
      ArgsKeepShape(src, args, 0, t);
    case _ =>
  }

  lemma {:induction false} ArgsKeepShape(src: seq<int>, args: seq<Expr>, i: nat, t: Entries)
    requires i <= |args| && ArgsSpec(src, args, i, t).Success?
    ensures ArgsUntyped(ArgsSpec(src, args, i, t).value, 0) == ArgsUntyped(args, i)
    decreases args, |args| - i
  {
    if i < |args| {
      var a := ExprSpec(src, args[i], t);
      ExprKeepsShape(src, args[i], t);
      ArgsKeepShape(src, args, i + 1, t);
      var rest := ArgsSpec(src, args, i + 1, t).value;
      ArgsUntypedCons(a.value, rest);
    }
  }

  lemma ArgsUntypedCons(a: Expr, rest: seq<Expr>)
    ensures ArgsUntyped([a] + rest, 0) == [Untyped(a)] + ArgsUntyped(rest, 0)
  {
    ArgsUntypedShift([a] + rest, 1, rest, 0);
  }

  lemma {:induction false} ArgsUntypedShift(s: seq<Expr>, d: nat, r: seq<Expr>, e: nat)
    requires d <= |s| && e <= |r| && s[d..] == r[e..]
    ensures ArgsUntyped(s, d) == ArgsUntyped(r, e)
    decreases |s| - d
  {
    if d < |s| {
      assert s[d] == s[d..][0] == r[e..][0] == r[e];
      assert s[d + 1..] == s[d..][1..] == r[e..][1..] == r[e + 1..];
      ArgsUntypedShift(s, d + 1, r, e + 1);
    }
  }

  // ---------------------------------------------------------------------
  // Blocks, statements and declarations (type_checker.go:43-204)

  /** The entries after registering parameters `i..` as `int` variables. */
  function WithParams(t: Entries, ps: seq<Param>, i: nat): (r: Entries)
    requires i <= |ps|
    ensures forall x :: x in r <==> x in t || exists j :: i <= j < |ps| && ps[j].ident == x
    ensures forall j :: i <= j < |ps| ==> r[ps[j].ident] == Symbols.Entry(Some(IntType), false, 0)
    ensures forall x :: x in t && (forall j :: i <= j < |ps| ==> ps[j].ident != x) ==> r[x] == t[x]
    decreases |ps| - i
  {
    if i == |ps| then t
    else WithParams(t[ps[i].ident := Symbols.Entry(Some(IntType), false, 0)], ps, i + 1)
  }

  /** checkBlock: only the first item is checked, and the block it gives
      back holds only that item; an empty block gives nil. */
  function BlockSpec(src: seq<int>, b: Block, t: Entries): Checked<Option<Block>>
    decreases b, 0
  {
    if |b.items| == 0 then Done(None, t)
    else
      var item := b.items[0];
      match item
      case StmtItem(st) =>
        var r := StmtSpec(src, st, t);
        if r.Failed? then Failed(r.cause, r.table) else Done(Some(Block([StmtItem(r.value)])), r.table)
      case DeclItem(d) =>
        var r := DeclSpec(src, d, t);
        if r.Failed? then Failed(r.cause, r.table) else Done(Some(Block([DeclItem(r.value)])), r.table)
      case NilItem => Failed(TypeError(src, "unreachable block", 0, Span(0, 0)), t)
  }

  /** The block a loop or compound statement stores: `*block`, which
      panics when checkBlock gave nil. */
  function Stored(r: Checked<Option<Block>>): Checked<Block>
  {
    if r.Failed? then Failed(r.cause, r.table)
    else if r.value.None? then Failed(Crash("nil pointer dereference"), r.table)
    else Done(r.value.value, r.table)
  }

  /** checkStmt. */
  function StmtSpec(src: seq<int>, st: Stmt, t: Entries): Checked<Stmt>
    decreases st, 0
  {
    match st
    case While(tok, cond, body, id) =>
      var c := if cond != NilExpr then ExprSpec(src, cond, t) else Success(cond);
      if c.Failure? then Failed(c.cause, t)
      else
        var b := Stored(BlockSpec(src, body, t));
        if b.Failed? then Failed(b.cause, b.table) else Done(While(tok, c.value, b.value, id), b.table)
    case Break(_, _) => Done(st, t)
    case Continue(_, _) => Done(st, t)
    case Loop(tok, v, e, body, id) =>
      var v' := if v != NilExpr then ExprSpec(src, v, t) else Success(v);
      if v'.Failure? then Failed(v'.cause, t)
      else
        var e' := ExprSpec(src, e, t);
        if e'.Failure? then Failed(e'.cause, t)
        else
          var b := Stored(BlockSpec(src, body, t));
          if b.Failed? then Failed(b.cause, b.table) else Done(Loop(tok, v'.value, e'.value, b.value, id), b.table)
    case Compound(block) =>
      var b := Stored(BlockSpec(src, block, t));
      if b.Failed? then Failed(b.cause, b.table) else Done(Compound(b.value), b.table)
    case If(tok, c, th, el) =>
      var c' := ExprSpec(src, c, t);
      if c'.Failure? then Failed(c'.cause, t)
      else
        var th' := StmtSpec(src, th, t);
        if th'.Failed? then th'
        else if el == NilStmt then Done(If(tok, c'.value, th'.value, el), th'.table)
        else
          var el' := StmtSpec(src, el, th'.table);
          if el'.Failed? then el' else Done(If(tok, c'.value, th'.value, el'.value), el'.table)
    case ExpressionStmt(e) =>
      var e' := ExprSpec(src, e, t);
      if e'.Failure? then Failed(e'.cause, t) else Done(ExpressionStmt(e'.value), t)
    case Return(tok, v) =>
      if v == NilExpr then Done(st, t)
      else
        var v' := ExprSpec(src, v, t);
        if v'.Failure? then Failed(v'.cause, t) else Done(Return(tok, v'.value), t)
    case NilStmt => Failed(Plain("unknown statement type: <nil>"), t)
  }

  /** checkDecl: a variable is registered with its declared type (its
      initialiser is not looked at). */
  function DeclSpec(src: seq<int>, d: Decl, t: Entries): Checked<Decl>
    decreases d, 1
  {
    match d
    case VarDecl(_, x, vt, _, _) => Done(d, t[x := Symbols.Entry(vt, false, 0)])
    case FnDecl(_, _, _, _, _, _, _) => FnDeclSpec(src, d, t)
    case NilDecl => Failed(Plain("unknown declaration type: <nil>"), t)
    case Import(_, _, _) => Failed(Plain("unknown declaration type: *parser.ASTImport"), t)
  }

  /** checkFnDecl. A name bound to anything but a function is an error,
      and so is a second definition of a defined function; a new name is
      registered as a function, defined when this declaration has a body.
      A body is checked after its parameters are registered as `int`. */
  function FnDeclSpec(src: seq<int>, d: Decl, t: Entries): (r: Checked<Decl>)
    requires d.FnDecl?
    ensures d.ident in t && !IsFnEntry(t[d.ident]) ==>
      r == Failed(ErrorAt(src, "функц %s-ийг өөр төрөлтэйгөөр дахин зарласан байна", d.token), t)
    ensures d.ident in t && IsFnEntry(t[d.ident]) && t[d.ident].isDefined && d.body.Some? ==>
      r == Failed(ErrorAt(src, "функц '" + d.ident + "'-ийг дахин зарласан байна", d.token), t)
    ensures d.ident !in t && d.body.None? ==> r == Done(d, t[d.ident := Symbols.Entry(Some(FnEntryType), false, 0)])
    ensures d.ident in t && IsFnEntry(t[d.ident]) && d.body.None? ==> r == Done(d, t)
    decreases d, 0
  {
    var f := d.ident;
    var hasBody := d.body.Some?;
    if f in t && !IsFnEntry(t[f]) then
      Failed(ErrorAt(src, "функц %s-ийг өөр төрөлтэйгөөр дахин зарласан байна", d.token), t)
    else if f in t && t[f].isDefined && hasBody then
      Failed(ErrorAt(src, "функц '" + f + "'-ийг дахин зарласан байна", d.token), t)
    else
      var t1 := if f !in t then t[f := Symbols.Entry(Some(FnEntryType), hasBody, 0)] else t;
      if !hasBody then Done(d, t1)
      else
        var b := BlockSpec(src, d.body.value, WithParams(t1, d.params, 0));
        if b.Failed? then Failed(b.cause, b.table)
        else Done(FnDecl(d.token, f, d.isPublic, d.isExtern, d.params, d.returnType, b.value), b.table)
  }

  /** Checking a block looks at its first item only: whatever follows it
      changes neither the outcome nor the table. */
  lemma FirstItemOnly(src: seq<int>, x: BlockItem, rest: seq<BlockItem>, t: Entries)
    ensures BlockSpec(src, Block([x] + rest), t) == BlockSpec(src, Block([x]), t)
    ensures BlockSpec(src, Block([x]), t).Done? ==>
      BlockSpec(src, Block([x]), t).value.Some? && |BlockSpec(src, Block([x]), t).value.value.items| == 1
  {
    assert ([x] + rest)[0] == x;
  }

  // ---------------------------------------------------------------------
  // Check: as written, and as intended

  /** Puts the already checked declarations `p` in front of the rest. */
  function Prepend(p: seq<Decl>, o: Checked<seq<Decl>>): Checked<seq<Decl>>
  {
    match o
    case Done(rest, t) => Done(p + rest, t)
    case Failed(c, t) => Failed(c, t)
  }

  /** The loop of Check (type_checker.go:28-41) from declaration `i`, as
      written: a function that fails to check is replaced by nil and its
      error is dropped; only a panic stops the loop. */
  function DeclsSpec(src: seq<int>, ds: seq<Decl>, i: nat, t: Entries): Checked<seq<Decl>>
    requires i <= |ds|
    decreases |ds| - i
  {
    if i == |ds| then Done([], t)
    else if ds[i].FnDecl? then
      var r := FnDeclSpec(src, ds[i], t);
      if r.Failed? && r.cause.Crash? then Failed(r.cause, r.table)
      else Prepend([if r.Failed? then NilDecl else r.value], DeclsSpec(src, ds, i + 1, r.table))
    else Prepend([ds[i]], DeclsSpec(src, ds, i + 1, t))
  }

  function CheckSpec(src: seq<int>, p: Program, t: Entries): Checked<Program>
  {
    var r := DeclsSpec(src, p.decls, 0, t);
    if r.Failed? then Failed(r.cause, r.table) else Done(Program(r.value), r.table)
  }

  /** As written, Check never reports a type error: it fails only by a
      panic. */
  lemma {:induction false} CheckDropsErrors(src: seq<int>, ds: seq<Decl>, i: nat, t: Entries)
    requires i <= |ds|
    ensures DeclsSpec(src, ds, i, t).Failed? ==> DeclsSpec(src, ds, i, t).cause.Crash?
    decreases |ds| - i
  {
    if i < |ds| {
      var r := if ds[i].FnDecl? then FnDeclSpec(src, ds[i], t) else Done(ds[i], t);
      CheckDropsErrors(src, ds, i + 1, r.table);
    }
  }

  /** A function whose body calls an undeclared name. */
  function CallsUndeclared(tok: Token, f: string, g: string): Decl
  {
    FnDecl(tok, f, false, false, [], None, Some(Block([StmtItem(ExpressionStmt(FnCall(tok, g, [], None)))])))
  }

  /** As written, a program whose only function calls an undeclared name
      passes Check, with the function replaced by nil. */
  lemma UndeclaredCallPasses(src: seq<int>, tok: Token, f: string, g: string)
    requires f != g
    ensures CheckSpec(src, Program([CallsUndeclared(tok, f, g)]), map[]).Done?
    ensures CheckSpec(src, Program([CallsUndeclared(tok, f, g)]), map[]).value == Program([NilDecl])
  {
    var d := CallsUndeclared(tok, f, g);
    UndeclaredCallFails(src, tok, f, g);
    var r := FnDeclSpec(src, d, map[]);
    assert DeclsSpec(src, [d], 1, r.table) == Done([], r.table);
    assert [NilDecl] + [] == [NilDecl];
    assert DeclsSpec(src, [d], 0, map[]) == Done([NilDecl], r.table);
  }

  /** The loop of Check as evidently intended: the first error stops it
      and is returned. */
  function DeclsIntended(src: seq<int>, ds: seq<Decl>, i: nat, t: Entries): Checked<seq<Decl>>
    requires i <= |ds|
    decreases |ds| - i
  {
    if i == |ds| then Done([], t)
    else if ds[i].FnDecl? then
      var r := FnDeclSpec(src, ds[i], t);
      if r.Failed? then Failed(r.cause, r.table)
      else Prepend([r.value], DeclsIntended(src, ds, i + 1, r.table))
    else Prepend([ds[i]], DeclsIntended(src, ds, i + 1, t))
  }

  function CheckIntended(src: seq<int>, p: Program, t: Entries): Checked<Program>
  {
    var r := DeclsIntended(src, p.decls, 0, t);
    if r.Failed? then Failed(r.cause, r.table) else Done(Program(r.value), r.table)
  }

  /** The intended Check succeeds exactly when every function declaration
      checks, in order; it then agrees with the loop as written. */
  lemma {:induction false} IntendedReportsErrors(src: seq<int>, ds: seq<Decl>, i: nat, t: Entries)
    requires i <= |ds|
    ensures DeclsIntended(src, ds, i, t).Done? ==> DeclsSpec(src, ds, i, t) == DeclsIntended(src, ds, i, t)
    ensures DeclsIntended(src, ds, i, t).Done? <==> AllFunctionsCheck(src, ds, i, t)
    decreases |ds| - i
  {
    if i < |ds| {
      var r := if ds[i].FnDecl? then FnDeclSpec(src, ds[i], t) else Done(ds[i], t);
      IntendedReportsErrors(src, ds, i + 1, r.table);
    }
  }

  /** Every function declaration from `i` on checks in the table the
      declarations before it leave. */
  predicate AllFunctionsCheck(src: seq<int>, ds: seq<Decl>, i: nat, t: Entries)
    requires i <= |ds|
    decreases |ds| - i
  {
    i == |ds| ||
    (var r := if ds[i].FnDecl? then FnDeclSpec(src, ds[i], t) else Done(ds[i], t);
     r.Done? && AllFunctionsCheck(src, ds, i + 1, r.table))
  }

  /** With the intended loop, the program above fails with the checker's
      error for a call of an undeclared name. */
  lemma UndeclaredCallRejected(src: seq<int>, tok: Token, f: string, g: string)
    requires f != g
    ensures CheckIntended(src, Program([CallsUndeclared(tok, f, g)]), map[]).Failed?
    ensures CheckIntended(src, Program([CallsUndeclared(tok, f, g)]), map[]).cause
      == ErrorAt(src, "функц %s-ийг дуудаж байна", tok)
  {
    var d := CallsUndeclared(tok, f, g);
    UndeclaredCallFails(src, tok, f, g);
    assert DeclsIntended(src, [d], 0, map[]) == Failed(ErrorAt(src, "функц %s-ийг дуудаж байна", tok), FnDeclSpec(src, d, map[]).table);
  }

  /** The function above fails to check, with the error for a call of an
      undeclared name. */
  lemma UndeclaredCallFails(src: seq<int>, tok: Token, f: string, g: string)
    requires f != g
    ensures FnDeclSpec(src, CallsUndeclared(tok, f, g), map[]).Failed?
    ensures FnDeclSpec(src, CallsUndeclared(tok, f, g), map[]).cause == ErrorAt(src, "функц %s-ийг дуудаж байна", tok)
  {
    var t1 := map[f := Symbols.Entry(Some(FnEntryType), true, 0)];
    var call := FnCall(tok, g, [], None);
    var b := Block([StmtItem(ExpressionStmt(call))]);
    assert WithParams(t1, [], 0) == t1;
    assert g !in t1;
    assert ExprSpec(src, call, t1) == Failure(ErrorAt(src, "функц %s-ийг дуудаж байна", tok));
    assert StmtSpec(src, ExpressionStmt(call), t1) == Failed(ErrorAt(src, "функц %s-ийг дуудаж байна", tok), t1);
    assert b.items[0] == StmtItem(ExpressionStmt(call));
    assert BlockSpec(src, b, t1) == Failed(ErrorAt(src, "функц %s-ийг дуудаж байна", tok), t1);
  }

  /** A definition after a prototype leaves the entry undefined, so a
      further definition of the same function is not rejected. */
  lemma DefinitionAfterPrototypeStaysUndefined(src: seq<int>, tok: Token, f: string, t: Entries)
    requires f in t && t[f] == Symbols.Entry(Some(FnEntryType), false, 0)
    ensures var def := FnDecl(tok, f, false, false, [], None, Some(Block([])));
      && FnDeclSpec(src, def, t) == Done(FnDecl(tok, f, false, false, [], None, None), t)
      && FnDeclSpec(src, def, FnDeclSpec(src, def, t).table).Done?
  {
    assert WithParams(t, [], 0) == t;
  }

  // ---------------------------------------------------------------------
  // The checker, in the source's form

  class TypeChecker {
    const source: seq<int>
    const symbolTable: Symbols.SymbolTable

    /** NewTypeChecker (type_checker.go:20-22). */
    constructor (source: seq<int>, table: Symbols.SymbolTable)
      ensures this.source == source && symbolTable == table
    {
      this.source := source;
      symbolTable := table;
    }

    /** Check (type_checker.go:28-41): the loop over the declarations,
        which stores nil for a function that fails and returns no error. */
    method Check(p: Program) returns (r: Checked<Program>)
      modifies symbolTable
      ensures r == CheckSpec(source, p, old(symbolTable.entries)) && symbolTable.entries == r.table
    {
      ghost var t0 := symbolTable.entries;
      var decls := p.decls;
      var i := 0;
      assert Prepend([], DeclsSpec(source, p.decls, 0, t0)) == DeclsSpec(source, p.decls, 0, t0) by {
        var o := DeclsSpec(source, p.decls, 0, t0);
        if o.Done? {
          assert [] + o.value == o.value;
        }
      }
      while i < |p.decls|
        invariant i <= |p.decls| == |decls|
        invariant DeclsSpec(source, p.decls, 0, t0)
          == Prepend(decls[..i], DeclsSpec(source, p.decls, i, symbolTable.entries))
        decreases |p.decls| - i
      {
        ghost var t := symbolTable.entries;
        var d := p.decls[i];
        if d.FnDecl? {
          var fd := CheckFnDecl(d);
          if fd.Failed? && fd.cause.Crash? {
            return Failed(fd.cause, fd.table);
          }
          if fd.Failed? {
            d := NilDecl;
          } else {
            d := fd.value;
          }
        }
        DeclsStep(source, p.decls, i, t, decls[..i], d, symbolTable.entries);
        decls := decls[i := d];
        assert decls[..i + 1] == decls[..i] + [d];
        i := i + 1;
      }
      assert decls[..i] + [] == decls;
      return Done(Program(decls), symbolTable.entries);
    }

    /** checkFnDecl (type_checker.go:43-76). */
    method CheckFnDecl(d: Decl) returns (r: Checked<Decl>)
      requires d.FnDecl?
      modifies symbolTable
      ensures r == FnDeclSpec(source, d, old(symbolTable.entries)) && symbolTable.entries == r.table
      decreases d, 0
    {
      var hasBody := d.body.Some?;
      var prev := symbolTable.GetOptional(d.ident);
      if prev.Some? {
        if !IsFnEntry(prev.value) {
          return Failed(ErrorAt(source, "функц %s-ийг өөр төрөлтэйгөөр дахин зарласан байна", d.token), symbolTable.entries);
        }
        var alreadyDefined := prev.value.isDefined;
        if alreadyDefined && hasBody {
          return Failed(ErrorAt(source, "функц '" + d.ident + "'-ийг дахин зарласан байна", d.token), symbolTable.entries);
        }
      } else {
        var _ := symbolTable.AddFn(FnEntryType, d.ident, hasBody);
      }
      if !hasBody {
        return Done(d, symbolTable.entries);
      }
      ghost var t1 := symbolTable.entries;
      var i := 0;
      while i < |d.params|
        invariant i <= |d.params|
        invariant WithParams(t1, d.params, 0) == WithParams(symbolTable.entries, d.params, i)
        decreases |d.params| - i
      {
        var _ := symbolTable.AddVar(Some(IntType), d.params[i].ident);
        i := i + 1;
      }
      var b := CheckBlock(d.body.value);
      if b.Failed? {
        return Failed(b.cause, b.table);
      }
      return Done(FnDecl(d.token, d.ident, d.isPublic, d.isExtern, d.params, d.returnType, b.value), b.table);
    }

    /** checkBlock (type_checker.go:78-98). */
    method CheckBlock(b: Block) returns (r: Checked<Option<Block>>)
      modifies symbolTable
      ensures r == BlockSpec(source, b, old(symbolTable.entries)) && symbolTable.entries == r.table
      decreases b, 0
    {
      if |b.items| == 0 {
        return Done(None, symbolTable.entries);
      }
      var item := b.items[0];
      match item
      case StmtItem(st) =>
        var s := CheckStmt(st);
        if s.Failed? {
          return Failed(s.cause, s.table);
        }
        return Done(Some(Block([StmtItem(s.value)])), s.table);
      case DeclItem(d) =>
        var dd := CheckDecl(d);
        if dd.Failed? {
          return Failed(dd.cause, dd.table);
        }
        return Done(Some(Block([DeclItem(dd.value)])), dd.table);
      case NilItem =>
        return Failed(TypeError(source, "unreachable block", 0, Span(0, 0)), symbolTable.entries);
    }

    /** The body of a loop or compound statement: checkBlock, then `*block`. */
    method CheckBody(b: Block) returns (r: Checked<Block>)
      modifies symbolTable
      ensures r == Stored(BlockSpec(source, b, old(symbolTable.entries))) && symbolTable.entries == r.table
      decreases b, 1
    {
      var block := CheckBlock(b);
      if block.Failed? {
        return Failed(block.cause, block.table);
      }
      if block.value.None? {
        return Failed(Crash("nil pointer dereference"), block.table);
      }
      return Done(block.value.value, block.table);
    }

    /** checkStmt (type_checker.go:100-188). */
    method CheckStmt(st: Stmt) returns (r: Checked<Stmt>)
      modifies symbolTable
      ensures r == StmtSpec(source, st, old(symbolTable.entries)) && symbolTable.entries == r.table
      decreases st, 0
    {
      match st
      case While(tok, cond, body, id) =>
        var c := cond;
        if cond != NilExpr {
          var e := CheckExpr(cond);
          if e.Failure? {
            return Failed(e.cause, symbolTable.entries);
          }
          c := e.value;
        }
        var b := CheckBody(body);
        if b.Failed? {
          return Failed(b.cause, b.table);
        }
        return Done(While(tok, c, b.value, id), b.table);
      case Break(_, _) => return Done(st, symbolTable.entries);
      case Continue(_, _) => return Done(st, symbolTable.entries);
      case Loop(tok, v, e, body, id) =>
        var v' := v;
        if v != NilExpr {
          var dv := CheckExpr(v);
          if dv.Failure? {
            return Failed(dv.cause, symbolTable.entries);
          }
          v' := dv.value;
        }
        var e' := CheckExpr(e);
        if e'.Failure? {
          return Failed(e'.cause, symbolTable.entries);
        }
        var b := CheckBody(body);
        if b.Failed? {
          return Failed(b.cause, b.table);
        }
        return Done(Loop(tok, v', e'.value, b.value, id), b.table);
      case Compound(block) =>
        var b := CheckBody(block);
        if b.Failed? {
          return Failed(b.cause, b.table);
        }
        return Done(Compound(b.value), b.table);
      case If(tok, c, th, el) =>
        var c' := CheckExpr(c);
        if c'.Failure? {
          return Failed(c'.cause, symbolTable.entries);
        }
        var th' := CheckStmt(th);
        if th'.Failed? {
          return th';
        }
        var el' := el;
        if el != NilStmt {
          var e := CheckStmt(el);
          if e.Failed? {
            return e;
          }
          el' := e.value;
        }
        return Done(If(tok, c'.value, th'.value, el'), symbolTable.entries);
      case ExpressionStmt(e) =>
        var e' := CheckExpr(e);
        if e'.Failure? {
          return Failed(e'.cause, symbolTable.entries);
        }
        return Done(ExpressionStmt(e'.value), symbolTable.entries);
      case Return(tok, v) =>
        if v == NilExpr {
          return Done(st, symbolTable.entries);
        }
        var v' := CheckExpr(v);
        if v'.Failure? {
          return Failed(v'.cause, symbolTable.entries);
        }
        return Done(Return(tok, v'.value), symbolTable.entries);
      case NilStmt =>
        return Failed(Plain("unknown statement type: <nil>"), symbolTable.entries);
    }

    /** checkDecl (type_checker.go:190-204). */
    method CheckDecl(d: Decl) returns (r: Checked<Decl>)
      modifies symbolTable
      ensures r == DeclSpec(source, d, old(symbolTable.entries)) && symbolTable.entries == r.table
      decreases d, 1
    {
      match d
      case VarDecl(_, x, vt, _, _) =>
        var _ := symbolTable.AddVar(vt, x);
        return Done(d, symbolTable.entries);
      case FnDecl(_, _, _, _, _, _, _) =>
        r := CheckFnDecl(d);
      case NilDecl =>
        return Failed(Plain("unknown declaration type: <nil>"), symbolTable.entries);
      case Import(_, _, _) =>
        return Failed(Plain("unknown declaration type: *parser.ASTImport"), symbolTable.entries);
    }

    /** checkExpr (type_checker.go:206-308); it reads the table and
        changes nothing but the node. */
    method CheckExpr(e: Expr) returns (r: Attempt<Expr>)
      ensures r == ExprSpec(source, e, symbolTable.entries)
      decreases e, 1
    {
      match e
      case Assignment(tok, l, rt, _) =>
        var l' := CheckExpr(l);
        if l'.Failure? {
          return l';
        }
        var r' := CheckExpr(rt);
        if r'.Failure? {
          return r';
        }
        return Success(Assignment(tok, l'.value, r'.value, GetType(l'.value)));
      case Unary(tok, inner, op, _) =>
        var inner' := CheckExpr(inner);
        if inner'.Failure? {
          return inner';
        }
        return Success(Unary(tok, inner'.value, op, Some(IntType)));
      case Conditional(_, _, _, _, _) =>
        r := CheckConditional(e);
      case ConstInt(tok, v, _) => return Success(ConstInt(tok, v, Some(IntType)));
      case ConstLong(tok, v, _) => return Success(ConstLong(tok, v, Some(LongType)));
      case Binary(tok, rt, l, op, _) =>
        var l' := CheckExpr(l);
        if l'.Failure? {
          return l';
        }
        var r' := CheckExpr(rt);
        if r'.Failure? {
          return r';
        }
        return Success(Binary(tok, r'.value, l'.value, op, GetCommonType(GetType(l'.value), GetType(r'.value))));
      case Var(tok, x, _) =>
        var dVar := symbolTable.Get(x);
        if dVar.None? {
          return Failure(Crash("nil pointer dereference"));
        }
        if IsFnEntry(dVar.value) {
          return Failure(ErrorAt(source, "%s-нь хувьсагч байна", tok));
        }
        return Success(Var(tok, x, dVar.value.typ));
      case FnCall(_, _, _, _) =>
        r := CheckFnCall(e);
      case NilExpr => return Failure(TypeError(source, "unreachable expr", 0, Span(0, 0)));
      case StringExpr(_, _, _) => return Failure(TypeError(source, "unreachable expr", 0, Span(0, 0)));
      case Prefix(_, _, _, _) => return Failure(TypeError(source, "unreachable expr", 0, Span(0, 0)));
      case Range(_, _, _, _) => return Failure(TypeError(source, "unreachable expr", 0, Span(0, 0)));
      case Infix(_, _, _, _, _) => return Failure(TypeError(source, "unreachable expr", 0, Span(0, 0)));
    }

    /** The conditional case of checkExpr (type_checker.go:229-247). */
    method CheckConditional(e: Expr) returns (r: Attempt<Expr>)
      requires e.Conditional?
      ensures r == ExprSpec(source, e, symbolTable.entries)
      decreases e, 0
    {
      var c := CheckExpr(e.cond);
      if c.Failure? {
        return c;
      }
      var th := CheckExpr(e.thenExpr);
      if th.Failure? {
        return th;
      }
      var el := CheckExpr(e.elseExpr);
      if el.Failure? {
        return el;
      }
      var common := GetCommonType(GetType(th.value), GetType(el.value));
      return Success(Conditional(e.token, c.value, th.value, el.value, common));
    }

    /** The call case of checkExpr (type_checker.go:279-305): the
        arguments are checked and replaced in place. */
    method CheckFnCall(e: Expr) returns (r: Attempt<Expr>)
      requires e.FnCall?
      ensures r == ExprSpec(source, e, symbolTable.entries)
      decreases e, 0
    {
      var fn := symbolTable.Get(e.ident);
      if fn.None? {
        return Failure(ErrorAt(source, "функц %s-ийг дуудаж байна", e.token));
      }
      if fn.value.typ == Some(IntType) {
        return Failure(ErrorAt(source, "хувьсагч %s-ийг дуудаж байна", e.token));
      }
      if !IsFnEntry(fn.value) {
        return Failure(ErrorAt(source, "функц %s-ийг өөр төрөлтэйгөөр дуудасан байна", e.token));
      }
      var args := e.args;
      var i := 0;
      PrependAttemptNothing(ArgsSpec(source, e.args, 0, symbolTable.entries));
      while i < |e.args|
        invariant i <= |e.args| == |args|
        invariant ArgsSpec(source, e.args, 0, symbolTable.entries)
          == PrependAttempt(args[..i], ArgsSpec(source, e.args, i, symbolTable.entries))
        decreases |e.args| - i
      {
        var a := CheckExpr(e.args[i]);
        if a.Failure? {
          return Failure(a.cause);
        }
        ArgsStep(source, e.args, i, symbolTable.entries, args[..i]);
        args := args[i := a.value];
        assert args[..i + 1] == args[..i] + [a.value];
        i := i + 1;
      }
      assert args[..i] + [] == args;
      return Success(FnCall(e.token, e.ident, args, e.typ));
    }
  }

  /** One step of the argument loop, behind the arguments `done`. */
  lemma ArgsStep(src: seq<int>, args: seq<Expr>, i: nat, t: Entries, done: seq<Expr>)
    requires i < |args| && ExprSpec(src, args[i], t).Success?
    ensures PrependAttempt(done, ArgsSpec(src, args, i, t))
      == PrependAttempt(done + [ExprSpec(src, args[i], t).value], ArgsSpec(src, args, i + 1, t))
  {
    var rest := ArgsSpec(src, args, i + 1, t);
    if rest.Success? {
      assert done + ([ExprSpec(src, args[i], t).value] + rest.value)
        == (done + [ExprSpec(src, args[i], t).value]) + rest.value;
    }
  }

  /** One step of the loop of Check, behind the declarations `done`: `d`
      is what the loop stores and `t'` the table after it. */
  lemma DeclsStep(src: seq<int>, ds: seq<Decl>, i: nat, t: Entries, done: seq<Decl>, d: Decl, t': Entries)
    requires i < |ds|
    requires var r := if ds[i].FnDecl? then FnDeclSpec(src, ds[i], t) else Done(ds[i], t);
      !(r.Failed? && r.cause.Crash?) && t' == r.table && d == (if r.Failed? then NilDecl else r.value)
    ensures Prepend(done, DeclsSpec(src, ds, i, t)) == Prepend(done + [d], DeclsSpec(src, ds, i + 1, t'))
  {
    var rest := DeclsSpec(src, ds, i + 1, t');
    if rest.Done? {
      assert done + ([d] + rest.value) == (done + [d]) + rest.value;
    }
  }
}
