// semantic_analysis/resolve.go: the identifier resolution pass. Every
// local variable, parameter and loop variable gets a fresh name
// `<name>_<k>`, every use of a variable is replaced by the fresh name it
// is bound to, and undeclared or duplicate names are reported.
//
// The source keeps the bindings in a Go map that the calls mutate in
// place and share: the file-scope map is shared by all top-level
// declarations, a block's map by all its items and by the bodies of its
// `while` and loop statements. Only a compound statement and a function
// body work on a copy. The model threads the map through the calls as a
// value: every operation returns the map it leaves behind.
module Resolve {
  import opened Wrappers
  import opened GoLexer
  import opened Ast
  import Decimal
  import Diagnostics

  /** VarEntry (resolve.go:21-26). Its StorageClass field is never
      assigned by the pass, so it is always nil and is left out. */
  datatype VarEntry = VarEntry(uniqueName: string, fromCurrentScope: bool, hasLinkage: bool)

  type IdMap = map<string, VarEntry>

  /** The result of an operation that may bind names: the resolved node,
      the map it leaves behind and the temp counter after it. A failure
      still reports the counter, which the resolver keeps. */
  datatype Outcome<T> =
    | Done(value: T, ids: IdMap, counter: nat)
    | Failed(cause: Diagnostics.Cause, counter: nat)

  /** createSemanticError (resolve.go:331-333). */
  function Error(src: seq<int>, message: string, tok: Token): Diagnostics.Cause
  {
    Diagnostics.Semantic(Diagnostics.New(message, tok.line, tok.span, src, Diagnostics.SemanticModule))
  }

  const Unreachable := Diagnostics.Plain("unreachable point")

  // ---------------------------------------------------------------------
  // Fresh names and copied maps

  /** The name makeNamedTemporary returns when the counter reaches `k`
      (resolve.go:47-50). */
  function Temporary(name: string, k: nat): string
  {
    name + "_" + Decimal.NatToString(k)
  }

  /** A temporary determines both the name it was made from and the
      counter value, so a counter that only grows never repeats one. */
  lemma TemporaryInjective(n1: string, k1: nat, n2: string, k2: nat)
    ensures Temporary(n1, k1) == Temporary(n2, k2) <==> n1 == n2 && k1 == k2
  {
    if Temporary(n1, k1) == Temporary(n2, k2) {
      assert Temporary(n1, k1) == n1 + ['_'] + Decimal.NatToString(k1);
      assert Temporary(n2, k2) == n2 + ['_'] + Decimal.NatToString(k2);
      Decimal.SeparatedNameInjective(n1, k1, n2, k2, '_');
    }
  }

  /** A temporary is never the name it was made from. */
  lemma TemporaryIsNew(name: string, k: nat)
    ensures Temporary(name, k) != name
  {
    assert |Temporary(name, k)| > |name|;
  }

  /** copyIdMap (resolve.go:319-329): the same names bound to the same
      unique names and linkage, none of them from the current scope. */
  function Copied(m: IdMap): (c: IdMap)
    ensures c.Keys == m.Keys
    ensures forall x :: x in c ==>
      c[x].uniqueName == m[x].uniqueName && c[x].hasLinkage == m[x].hasLinkage && !c[x].fromCurrentScope
  {
    map x | x in m :: m[x].(fromCurrentScope := false)
  }

  /** Puts the already resolved nodes `p` in front of the rest. */
  function Prepend<T>(p: seq<T>, o: Outcome<seq<T>>): Outcome<seq<T>>
  {
    match o
    case Done(rest, ids, k) => Done(p + rest, ids, k)
    case Failed(c, k) => Failed(c, k)
  }

  lemma PrependNothing<T>(o: Outcome<seq<T>>)
    ensures Prepend([], o) == o
  {
    if o.Done? {
      assert [] + o.value == o.value;
    }
  }

  lemma SetThenTake<T>(s: seq<T>, i: nat, v: T)
    requires i < |s|
    ensures s[i := v][..i + 1] == s[..i] + [v]
  {
  }

  lemma PrependTwice<T>(p: seq<T>, q: seq<T>, o: Outcome<seq<T>>)
    ensures Prepend(p, Prepend(q, o)) == Prepend(p + q, o)
  {
    if o.Done? {
      assert p + (q + o.value) == (p + q) + o.value;
    }
  }

  // ---------------------------------------------------------------------
  // Expressions (resolve.go:368-505)

  /** The text of a node the pass does not know. The source formats the
      node pointer with `%s`; the model writes the node's Go type. */
  function GoTypeText(e: Expr): string
  {
    match e
    case StringExpr(_, _, _) => "*parser.ASTStringExpression"
    case Prefix(_, _, _, _) => "*parser.ASTPrefixExpression"
    case Infix(_, _, _, _, _) => "*parser.ASTInfixExpression"
    case _ => "*parser.ASTExpression"
  }

  /** ResolveExpr: a variable becomes a fresh node holding its unique
      name. Unary, binary and assignment nodes are rebuilt without their
      token and type; the other nodes keep theirs. */
  function ExprSpec(src: seq<int>, e: Expr, m: IdMap): Diagnostics.Attempt<Expr>
    decreases e, 0
  {
    match e
    case NilExpr => Diagnostics.Success(NilExpr)
    case FnCall(tok, f, args, t) =>
      if f !in m then Diagnostics.Failure(Error(src, Diagnostics.NotDeclaredFnCall(f), tok))
      else
        var a := ArgsSpec(src, args, 0, m);
        if a.Failure? then Diagnostics.Failure(a.cause) else Diagnostics.Success(FnCall(tok, f, a.value, t))
    case Range(tok, s, en, t) =>
      var s' := ExprSpec(src, s, m);
      if s'.Failure? then s'
      else
        var en' := ExprSpec(src, en, m);
        if en'.Failure? then en' else Diagnostics.Success(Range(tok, s'.value, en'.value, t))
    case Conditional(tok, c, th, el, t) =>
      var c' := ExprSpec(src, c, m);
      if c'.Failure? then c'
      else
        var th' := ExprSpec(src, th, m);
        if th'.Failure? then th'
        else
          var el' := ExprSpec(src, el, m);
          if el'.Failure? then el' else Diagnostics.Success(Conditional(tok, c'.value, th'.value, el'.value, t))
    case Assignment(tok, l, r, _) =>
      if !l.Var? then
        var lit := TokenLiteral(l);
        if lit.Ok? then Diagnostics.Failure(Error(src, Diagnostics.InvalidAssignment(lit.value), tok))
        else Diagnostics.Failure(Diagnostics.Crash("nil pointer dereference"))
      else
        var l' := ExprSpec(src, l, m);
        if l'.Failure? then l'
        else
          var r' := ExprSpec(src, r, m);
          if r'.Failure? then r' else Diagnostics.Success(Assignment(ZeroToken, l'.value, r'.value, None))
    case Var(tok, x, _) =>
      if x !in m then Diagnostics.Failure(Error(src, Diagnostics.UndeclaredVariable(x), tok))
      else Diagnostics.Success(Var(tok, m[x].uniqueName, None))
    case Unary(_, inner, op, _) =>
      var inner' := ExprSpec(src, inner, m);
      if inner'.Failure? then inner' else Diagnostics.Success(Unary(ZeroToken, inner'.value, op, None))
    case Binary(_, r, l, op, _) =>
      var l' := ExprSpec(src, l, m);
      if l'.Failure? then l'
      else
        var r' := ExprSpec(src, r, m);
        if r'.Failure? then r' else Diagnostics.Success(Binary(ZeroToken, r'.value, l'.value, op, None))
    case ConstInt(_, _, _) => Diagnostics.Success(e)
    case ConstLong(_, _, _) => Diagnostics.Success(e)
    case _ => Diagnostics.Failure(Error(src, Diagnostics.UnknownExpression(GoTypeText(e)), ZeroToken))
  }

  /** The arguments from index `i`, resolved left to right. */
  function ArgsSpec(src: seq<int>, args: seq<Expr>, i: nat, m: IdMap): Diagnostics.Attempt<seq<Expr>>
    requires i <= |args|
    decreases args, |args| - i
  {
    if i == |args| then Diagnostics.Success([])
    else
      var a := ExprSpec(src, args[i], m);
      if a.Failure? then Diagnostics.Failure(a.cause)
      else
        var rest := ArgsSpec(src, args, i + 1, m);
        if rest.Failure? then rest else Diagnostics.Success([a.value] + rest.value)
  }

  /** An expression the pass accepts in map `m`: every variable and every
      called function is bound, every assignment assigns to a variable,
      and no node is of a kind the pass does not know. */
  predicate Resolvable(e: Expr, m: IdMap)
    decreases e, 0
  {
    match e
    case NilExpr => true
    case FnCall(_, f, args, _) => f in m && ArgsResolvable(args, 0, m)
    case Range(_, s, en, _) => Resolvable(s, m) && Resolvable(en, m)
    case Conditional(_, c, th, el, _) => Resolvable(c, m) && Resolvable(th, m) && Resolvable(el, m)
    case Assignment(_, l, r, _) => l.Var? && l.ident in m && Resolvable(r, m)
    case Var(_, x, _) => x in m
    case Unary(_, inner, _, _) => Resolvable(inner, m)
    case Binary(_, r, l, _, _) => Resolvable(l, m) && Resolvable(r, m)
    case ConstInt(_, _, _) => true
    case ConstLong(_, _, _) => true
    case StringExpr(_, _, _) => false
    case Prefix(_, _, _, _) => false
    case Infix(_, _, _, _, _) => false
  }

  predicate ArgsResolvable(args: seq<Expr>, i: nat, m: IdMap)
    requires i <= |args|
    decreases args, |args| - i
  {
    i == |args| || (Resolvable(args[i], m) && ArgsResolvable(args, i + 1, m))
  }

  /** ResolveExpr fails exactly on the expressions that are not
      resolvable: an undeclared variable or function, an assignment to
      something other than a variable, or a node of an unknown kind. */
  lemma {:induction false} ExprSucceedsIff(src: seq<int>, e: Expr, m: IdMap)
    ensures ExprSpec(src, e, m).Success? <==> Resolvable(e, m)
    decreases e, 0
  {
    match e
    case NilExpr =>
    case FnCall(_, f, args, _) => ArgsSucceedIff(src, args, 0, m);
    case Range(_, s, en, _) => ExprSucceedsIff(src, s, m); ExprSucceedsIff(src, en, m);
    case Conditional(_, c, th, el, _) =>
      ExprSucceedsIff(src, c, m); ExprSucceedsIff(src, th, m); ExprSucceedsIff(src, el, m);
    case Assignment(_, l, r, _) =>
      if l.Var? {
        ExprSucceedsIff(src, l, m); ExprSucceedsIff(src, r, m);
      }
    case Var(_, _, _) =>
    case Unary(_, inner, _, _) => ExprSucceedsIff(src, inner, m);
    case Binary(_, r, l, _, _) => ExprSucceedsIff(src, l, m); ExprSucceedsIff(src, r, m);
    case ConstInt(_, _, _) =>
    case ConstLong(_, _, _) =>
    case StringExpr(_, _, _) =>
    case Prefix(_, _, _, _) =>
    case Infix(_, _, _, _, _) =>
  }

  lemma {:induction false} ArgsSucceedIff(src: seq<int>, args: seq<Expr>, i: nat, m: IdMap)
    requires i <= |args|
    ensures ArgsSpec(src, args, i, m).Success? <==> ArgsResolvable(args, i, m)
    ensures ArgsSpec(src, args, i, m).Success? ==> |ArgsSpec(src, args, i, m).value| == |args| - i
    decreases args, |args| - i
  {
    if i < |args| {
      ExprSucceedsIff(src, args[i], m);
      ArgsSucceedIff(src, args, i + 1, m);
    }
  }

  /** The variables an expression uses (the left side of an assignment
      included, the name of a called function not). */
  function VarsOf(e: Expr): set<string>
    decreases e, 0
  {
    match e
    case FnCall(_, _, args, _) => ArgsVars(args, 0)
    case Range(_, s, en, _) => VarsOf(s) + VarsOf(en)
    case Conditional(_, c, th, el, _) => VarsOf(c) + VarsOf(th) + VarsOf(el)
    case Assignment(_, l, r, _) => VarsOf(l) + VarsOf(r)
    case Var(_, x, _) => {x}
    case Unary(_, inner, _, _) => VarsOf(inner)
    case Binary(_, r, l, _, _) => VarsOf(l) + VarsOf(r)
    case _ => {}
  }

  function ArgsVars(args: seq<Expr>, i: nat): set<string>
    requires i <= |args|
    decreases args, |args| - i
  {
    if i == |args| then {} else VarsOf(args[i]) + ArgsVars(args, i + 1)
  }

  /** The unique names `m` binds the names of `s` to. */
  function Renamed(s: set<string>, m: IdMap): set<string>
  {
    set x | x in s && x in m :: m[x].uniqueName
  }

  lemma RenamedUnion(a: set<string>, b: set<string>, m: IdMap)
    ensures Renamed(a + b, m) == Renamed(a, m) + Renamed(b, m)
  {
  }

  /** A resolved expression uses exactly the unique names of the variables
      the original uses, every one of which is bound. */
  lemma {:induction false} ExprRenames(src: seq<int>, e: Expr, m: IdMap)
    requires ExprSpec(src, e, m).Success?
    ensures VarsOf(e) <= m.Keys
    ensures VarsOf(ExprSpec(src, e, m).value) == Renamed(VarsOf(e), m)
    decreases e, 0
  {
    match e
    case NilExpr =>
    case FnCall(_, f, args, _) => ArgsRename(src, args, 0, m);
    case Range(_, s, en, _) =>
      ExprRenames(src, s, m); ExprRenames(src, en, m);
      RenamedUnion(VarsOf(s), VarsOf(en), m);
    case Conditional(_, c, th, el, _) =>
      ExprRenames(src, c, m); ExprRenames(src, th, m); ExprRenames(src, el, m);
      RenamedUnion(VarsOf(c), VarsOf(th), m);
      RenamedUnion(VarsOf(c) + VarsOf(th), VarsOf(el), m);
    case Assignment(_, l, r, _) =>
      ExprRenames(src, l, m); ExprRenames(src, r, m);
      RenamedUnion(VarsOf(l), VarsOf(r), m);
    case Var(_, x, _) =>
      assert Renamed({x}, m) == {m[x].uniqueName};
    case Unary(_, inner, _, _) => ExprRenames(src, inner, m);
    case Binary(_, r, l, _, _) =>
      ExprRenames(src, l, m); ExprRenames(src, r, m);
      RenamedUnion(VarsOf(l), VarsOf(r), m);
    case ConstInt(_, _, _) =>
    case ConstLong(_, _, _) =>
  }

  lemma {:induction false} ArgsRename(src: seq<int>, args: seq<Expr>, i: nat, m: IdMap)
    requires i <= |args| && ArgsSpec(src, args, i, m).Success?
    ensures ArgsVars(args, i) <= m.Keys
    ensures ArgsVars(ArgsSpec(src, args, i, m).value, 0) == Renamed(ArgsVars(args, i), m)
    decreases args, |args| - i
  {
    if i < |args| {
      ExprRenames(src, args[i], m);
      ArgsRename(src, args, i + 1, m);
      var a := ExprSpec(src, args[i], m).value;
      var rest := ArgsSpec(src, args, i + 1, m).value;
      ArgsVarsCons(a, rest);
      RenamedUnion(VarsOf(args[i]), ArgsVars(args, i + 1), m);
    }
  }

  lemma ArgsVarsCons(a: Expr, rest: seq<Expr>)
    ensures ArgsVars([a] + rest, 0) == VarsOf(a) + ArgsVars(rest, 0)
  {
    ArgsVarsShift([a] + rest, 1, rest, 0);
  }

  lemma {:induction false} ArgsVarsShift(s: seq<Expr>, d: nat, t: seq<Expr>, e: nat)
    requires d <= |s| && e <= |t| && s[d..] == t[e..]
    ensures ArgsVars(s, d) == ArgsVars(t, e)
    decreases |s| - d
  {
    if d < |s| {
      assert s[d] == t[e];
      ArgsVarsShift(s, d + 1, t, e + 1);
    }
  }

  // ---------------------------------------------------------------------
  // Declarations in a block (resolve.go:159-190, 335-366)

  /** resolveLocalVarHelper: a name already bound in the current scope
      without linkage is a duplicate; otherwise the declaration gets a
      fresh name that shadows any earlier binding. */
  function LocalVarHelper(src: seq<int>, d: Decl, m: IdMap, k: nat): (r: Outcome<string>)
    requires d.VarDecl?
    ensures r.Failed? <==> d.ident in m && m[d.ident].fromCurrentScope && !m[d.ident].hasLinkage
    ensures r.Done? ==>
      r.counter == k + 1 && r.value == Temporary(d.ident, k + 1) && r.ids == m[d.ident := VarEntry(r.value, true, false)]
    ensures r.Failed? ==> r == Failed(Error(src, Diagnostics.DuplicateVariable(d.ident), d.token), k)
  {
    var x := d.ident;
    if x in m && m[x].fromCurrentScope && !m[x].hasLinkage then
      Failed(Error(src, Diagnostics.DuplicateVariable(x), d.token), k)
    else
      var u := Temporary(x, k + 1);
      Done(u, m[x := VarEntry(u, true, false)], k + 1)
  }

  /** ResolveLocalVarDecl: the declaration takes its fresh name, and
      its initialiser is resolved in the map that already binds it. */
  function LocalVarDeclSpec(src: seq<int>, d: Decl, m: IdMap, k: nat): Outcome<Decl>
    requires d.VarDecl?
  {
    var h := LocalVarHelper(src, d, m, k);
    if h.Failed? then Failed(h.cause, h.counter)
    else if d.expr == NilExpr then Done(VarDecl(d.token, h.value, d.varType, d.expr, d.storageClass), h.ids, h.counter)
    else
      var e := ExprSpec(src, d.expr, h.ids);
      if e.Failure? then Failed(e.cause, h.counter)
      else Done(VarDecl(d.token, h.value, d.varType, e.value, d.storageClass), h.ids, h.counter)
  }

  /** ResolveLocalDecl: a function declaration inside a body is an error. */
  function LocalDeclSpec(src: seq<int>, d: Decl, m: IdMap, k: nat): Outcome<Decl>
  {
    match d
    case FnDecl(tok, f, _, _, _, _, _) => Failed(Error(src, Diagnostics.FnDeclInsideFnDecl(f), tok), k)
    case VarDecl(_, _, _, _, _) => LocalVarDeclSpec(src, d, m, k)
    case _ => Failed(Unreachable, k)
  }

  // ---------------------------------------------------------------------
  // Blocks and statements (resolve.go:192-317)

  /** ResolveBlockItem. */
  function ItemSpec(src: seq<int>, item: BlockItem, m: IdMap, k: nat): Outcome<BlockItem>
    decreases item, 0
  {
    match item
    case StmtItem(st) =>
      var r := StmtSpec(src, st, m, k);
      if r.Failed? then Failed(r.cause, r.counter) else Done(StmtItem(r.value), r.ids, r.counter)
    case DeclItem(d) =>
      var r := LocalDeclSpec(src, d, m, k);
      if r.Failed? then Failed(r.cause, r.counter) else Done(DeclItem(r.value), r.ids, r.counter)
    case NilItem => Failed(Unreachable, k)
  }

  /** ResolveBlock from item `i`: every item sees the bindings of the
      items before it. */
  function ItemsSpec(src: seq<int>, items: seq<BlockItem>, i: nat, m: IdMap, k: nat): Outcome<seq<BlockItem>>
    requires i <= |items|
    decreases items, |items| - i
  {
    if i == |items| then Done([], m, k)
    else
      var r := ItemSpec(src, items[i], m, k);
      if r.Failed? then Failed(r.cause, r.counter)
      else Prepend([r.value], ItemsSpec(src, items, i + 1, r.ids, r.counter))
  }

  /** ResolveStmt. A `while` or loop body and both branches of an `if`
      share the enclosing map; a compound statement works on a copy and
      leaves the enclosing map as it was. */
  function StmtSpec(src: seq<int>, st: Stmt, m: IdMap, k: nat): Outcome<Stmt>
    decreases st, 0
  {
    match st
    case While(tok, cond, body, id) =>
      var c := if cond != NilExpr then ExprSpec(src, cond, m) else Diagnostics.Success(cond);
      if c.Failure? then Failed(c.cause, k)
      else
        var b := ItemsSpec(src, body.items, 0, m, k);
        if b.Failed? then Failed(b.cause, b.counter)
        else Done(While(tok, c.value, Block(b.value), id), b.ids, b.counter)
    case Loop(tok, v, e, body, id) =>
      var e' := ExprSpec(src, e, m);
      if e'.Failure? then Failed(e'.cause, k)
      else if v != NilExpr && !v.Var? then
        Failed(Error(src, "loop variable must be an identifier", tok), k)
      else
        var u := if v.Var? then Temporary(v.ident, k + 1) else "";
        var m1 := if v.Var? then m[v.ident := VarEntry(u, true, false)] else m;
        var k1 := if v.Var? then k + 1 else k;
        var v' := if v.Var? then Var(v.token, u, v.typ) else v;
        var b := ItemsSpec(src, body.items, 0, m1, k1);
        if b.Failed? then Failed(b.cause, b.counter)
        else Done(Loop(tok, v', e'.value, Block(b.value), id), b.ids, b.counter)
    case Compound(block) =>
      var b := ItemsSpec(src, block.items, 0, Copied(m), k);
      if b.Failed? then Failed(b.cause, b.counter)
      else Done(Compound(Block(b.value)), m, b.counter)
    case Return(tok, v) =>
      var v' := ExprSpec(src, v, m);
      if v'.Failure? then Failed(v'.cause, k) else Done(Return(tok, v'.value), m, k)
    case If(tok, c, th, el) =>
      var c' := ExprSpec(src, c, m);
      if c'.Failure? then Failed(c'.cause, k)
      else
        var th' := StmtSpec(src, th, m, k);
        if th'.Failed? then th'
        else
          var el' := StmtSpec(src, el, th'.ids, th'.counter);
          if el'.Failed? then el'
          else Done(If(tok, c'.value, th'.value, el'.value), el'.ids, el'.counter)
    case ExpressionStmt(e) =>
      var e' := ExprSpec(src, e, m);
      if e'.Failure? then Failed(e'.cause, k) else Done(ExpressionStmt(e'.value), m, k)
    case _ => Done(st, m, k)
  }

  // ---------------------------------------------------------------------
  // Top-level declarations (resolve.go:52-157)

  /** resolveParams from parameter `i`: a parameter whose name the map
      already holds, from any scope, is a duplicate; otherwise it gets a
      fresh name. */
  function ParamsSpec(src: seq<int>, ps: seq<Param>, i: nat, m: IdMap, k: nat): Outcome<seq<Param>>
    requires i <= |ps|
    decreases |ps| - i
  {
    if i == |ps| then Done([], m, k)
    else
      var p := ps[i];
      if p.ident in m then Failed(Error(src, Diagnostics.DuplicateVariable(p.ident), p.token), k)
      else
        var u := Temporary(p.ident, k + 1);
        Prepend([Param(p.token, u, p.typ)], ParamsSpec(src, ps, i + 1, m[p.ident := VarEntry(u, true, false)], k + 1))
  }

  /** A function declaration with its parameters and body replaced. */
  function WithBody(d: Decl, ps: seq<Param>, body: Option<Block>): Decl
    requires d.FnDecl?
  {
    FnDecl(d.token, d.ident, d.isPublic, d.isExtern, ps, d.returnType, body)
  }

  /** ResolveFnDecl. The function binds its own name, with linkage, in the
      file-scope map; its parameters and body are resolved in a copy of
      that map, which the call then drops. */
  function FnDeclSpec(src: seq<int>, d: Decl, m: IdMap, k: nat): (r: Outcome<Decl>)
    requires d.FnDecl?
    ensures (d.ident in m && m[d.ident].fromCurrentScope && !m[d.ident].hasLinkage)
      ==> r == Failed(Error(src, Diagnostics.DuplicateFnDecl(d.ident), d.token), k)
    ensures r.Done? ==>
      r.ids == m[d.ident := VarEntry(d.ident, true, true)] && r.value.FnDecl? && r.value.ident == d.ident
      && |r.value.params| == |d.params|
  {
    var f := d.ident;
    if f in m && m[f].fromCurrentScope && !m[f].hasLinkage then
      Failed(Error(src, Diagnostics.DuplicateFnDecl(f), d.token), k)
    else
      var m1 := m[f := VarEntry(f, true, true)];
      var ps := ParamsSpec(src, d.params, 0, Copied(m1), k);
      if ps.Failed? then Failed(ps.cause, ps.counter)
      else
        ParamsCount(src, d.params, 0, Copied(m1), k);
        if d.body.None? then Done(WithBody(d, ps.value, d.body), m1, ps.counter)
        else
          var b := ItemsSpec(src, d.body.value.items, 0, ps.ids, ps.counter);
          if b.Failed? then Failed(b.cause, b.counter)
          else Done(WithBody(d, ps.value, Some(Block(b.value))), m1, b.counter)
  }

  /** ResolveFileScopeVarDecl (as written): the name is bound to a fresh
      name, with linkage, but the declaration keeps its own name. */
  function FileScopeVarSpec(src: seq<int>, d: Decl, m: IdMap, k: nat): (r: Outcome<Decl>)
    requires d.VarDecl?
    ensures r.Failed? <==> d.ident in m && m[d.ident].fromCurrentScope
    ensures r.Done? ==>
      r.value == d && r.counter == k + 1 && r.ids == m[d.ident := VarEntry(Temporary(d.ident, k + 1), true, true)]
  {
    var x := d.ident;
    if x in m && m[x].fromCurrentScope then Failed(Error(src, Diagnostics.DuplicateVariable(x), d.token), k)
    else Done(d, m[x := VarEntry(Temporary(x, k + 1), true, true)], k + 1)
  }

  /** ResolveDecl: anything but a function or variable panics. */
  function DeclSpec(src: seq<int>, d: Decl, m: IdMap, k: nat): Outcome<Decl>
  {
    match d
    case FnDecl(_, _, _, _, _, _, _) => FnDeclSpec(src, d, m, k)
    case VarDecl(_, _, _, _, _) => FileScopeVarSpec(src, d, m, k)
    case _ => Failed(Diagnostics.Crash("unimplemented decl type on resolve"), k)
  }

  /** The loop of Resolve from declaration `i`: all declarations share one
      map, which starts empty. */
  function DeclsSpec(src: seq<int>, ds: seq<Decl>, i: nat, m: IdMap, k: nat): Outcome<seq<Decl>>
    requires i <= |ds|
    decreases |ds| - i
  {
    if i == |ds| then Done([], m, k)
    else
      var r := DeclSpec(src, ds[i], m, k);
      if r.Failed? then Failed(r.cause, r.counter)
      else Prepend([r.value], DeclsSpec(src, ds, i + 1, r.ids, r.counter))
  }

  /** Resolve. */
  function ResolveSpec(src: seq<int>, p: Program, k: nat): Outcome<Program>
  {
    Finish(DeclsSpec(src, p.decls, 0, map[], k))
  }

  /** The program made of the resolved declarations. */
  function Finish(r: Outcome<seq<Decl>>): Outcome<Program>
  {
    if r.Failed? then Failed(r.cause, r.counter) else Done(Program(r.value), r.ids, r.counter)
  }

  lemma {:induction false} ParamsCount(src: seq<int>, ps: seq<Param>, i: nat, m: IdMap, k: nat)
    requires i <= |ps|
    ensures ParamsSpec(src, ps, i, m, k).Done? ==> |ParamsSpec(src, ps, i, m, k).value| == |ps| - i
    decreases |ps| - i
  {
    if i < |ps| && ps[i].ident !in m {
      var u := Temporary(ps[i].ident, k + 1);
      ParamsCount(src, ps, i + 1, m[ps[i].ident := VarEntry(u, true, false)], k + 1);
    }
  }

  /** One step of the loop of Resolve, behind the declarations `done`
      already resolved. */
  lemma DeclsStep(src: seq<int>, ds: seq<Decl>, i: nat, m: IdMap, k: nat, done: seq<Decl>)
    requires i < |ds|
    ensures var r := DeclSpec(src, ds[i], m, k);
      && (r.Failed? ==> Prepend(done, DeclsSpec(src, ds, i, m, k)) == Failed(r.cause, r.counter))
      && (r.Done? ==> Prepend(done, DeclsSpec(src, ds, i, m, k))
                      == Prepend(done + [r.value], DeclsSpec(src, ds, i + 1, r.ids, r.counter)))
  {
    var r := DeclSpec(src, ds[i], m, k);
    if r.Done? {
      PrependTwice(done, [r.value], DeclsSpec(src, ds, i + 1, r.ids, r.counter));
    }
  }

  /** One round of Resolve's loop: with the first `i` declarations already
      replaced by their resolved forms, resolving the next one either fails
      the whole pass or extends the replaced prefix by one. */
  lemma DeclsLoopStep(src: seq<int>, ds: seq<Decl>, i: nat, m: IdMap, k: nat, decls: seq<Decl>,
                      whole: Outcome<seq<Decl>>, r: Outcome<Decl>)
    requires i < |ds| == |decls| && whole == Prepend(decls[..i], DeclsSpec(src, ds, i, m, k))
    requires r == DeclSpec(src, ds[i], m, k)
    ensures r.Failed? ==> whole == Failed(r.cause, r.counter)
    ensures r.Done? ==> whole == Prepend(decls[i := r.value][..i + 1], DeclsSpec(src, ds, i + 1, r.ids, r.counter))
  {
    DeclsStep(src, ds, i, m, k, decls[..i]);
    if r.Done? {
      SetThenTake(decls, i, r.value);
    }
  }

  lemma ArgsStep(src: seq<int>, args: seq<Expr>, i: nat, m: IdMap, done: seq<Expr>)
    requires i < |args| && ExprSpec(src, args[i], m).Success?
    ensures Diagnostics.PrependAttempt(done, ArgsSpec(src, args, i, m))
      == Diagnostics.PrependAttempt(done + [ExprSpec(src, args[i], m).value], ArgsSpec(src, args, i + 1, m))
  {
    var rest := ArgsSpec(src, args, i + 1, m);
    if rest.Success? {
      assert done + ([ExprSpec(src, args[i], m).value] + rest.value)
        == (done + [ExprSpec(src, args[i], m).value]) + rest.value;
    }
  }

  // ---------------------------------------------------------------------
  // Parameters

  /** No parameter name is bound in `m` and no two parameters from index
      `i` share a name. */
  predicate FreshParams(ps: seq<Param>, i: nat, m: IdMap)
    requires i <= |ps|
  {
    (forall j :: i <= j < |ps| ==> ps[j].ident !in m)
    && (forall j, l :: i <= j < l < |ps| ==> ps[j].ident != ps[l].ident)
  }

  /** resolveParams succeeds exactly when no parameter repeats a name the
      function's map already holds, from any scope, or an earlier
      parameter's name. */
  lemma {:induction false} ParamsAcceptIff(src: seq<int>, ps: seq<Param>, i: nat, m: IdMap, k: nat)
    requires i <= |ps|
    ensures ParamsSpec(src, ps, i, m, k).Done? <==> FreshParams(ps, i, m)
    decreases |ps| - i
  {
    if i < |ps| {
      var p := ps[i];
      if p.ident !in m {
        var u := Temporary(p.ident, k + 1);
        var m1 := m[p.ident := VarEntry(u, true, false)];
        ParamsAcceptIff(src, ps, i + 1, m1, k + 1);
        if FreshParams(ps, i, m) {
          assert FreshParams(ps, i + 1, m1);
        }
        if FreshParams(ps, i + 1, m1) {
          assert FreshParams(ps, i, m);
        }
      }
    }
  }

  /** On success, parameter `j` keeps its token and type and is renamed
      with counter value `k + j - i + 1`; the counter ends one past the
      last parameter's. */
  lemma {:induction false} ParamsRenamed(src: seq<int>, ps: seq<Param>, i: nat, m: IdMap, k: nat)
    requires i <= |ps| && ParamsSpec(src, ps, i, m, k).Done?
    ensures var r := ParamsSpec(src, ps, i, m, k);
      && r.counter == k + |ps| - i && |r.value| == |ps| - i
      && forall j :: i <= j < |ps| ==>
           r.value[j - i] == Param(ps[j].token, Temporary(ps[j].ident, k + j - i + 1), ps[j].typ)
    decreases |ps| - i
  {
    if i < |ps| {
      var p := ps[i];
      var u := Temporary(p.ident, k + 1);
      var m1 := m[p.ident := VarEntry(u, true, false)];
      ParamsRenamed(src, ps, i + 1, m1, k + 1);
      var rest := ParamsSpec(src, ps, i + 1, m1, k + 1);
      assert ParamsSpec(src, ps, i, m, k).value == [Param(p.token, u, p.typ)] + rest.value;
    }
  }

  /** A parameter named after its own function is a duplicate: the copy
      the parameters are resolved in already binds the function's name. */
  lemma ParamNamedAfterFunction(src: seq<int>, d: Decl, m: IdMap, k: nat)
    requires d.FnDecl? && |d.params| > 0 && d.params[0].ident == d.ident
    requires !(d.ident in m && m[d.ident].fromCurrentScope && !m[d.ident].hasLinkage)
    ensures FnDeclSpec(src, d, m, k) == Failed(Error(src, Diagnostics.DuplicateVariable(d.ident), d.params[0].token), k)
  {
    var c := Copied(m[d.ident := VarEntry(d.ident, true, true)]);
    assert d.ident in c;
  }

  // ---------------------------------------------------------------------
  // Scopes of blocks

  /** The declaration `зарла x` with no initialiser, as a block item. */
  function DeclareItem(tok: Token, x: string): BlockItem
  {
    DeclItem(VarDecl(tok, x, None, NilExpr, NoStorage))
  }

  /** The use `x;` as a block item. */
  function UseItem(tok: Token, x: string): BlockItem
  {
    StmtItem(ExpressionStmt(Var(tok, x, None)))
  }

  /** One declaration with no initialiser, in a scope where its name is
      free to take. */
  lemma DeclareStep(src: seq<int>, t: Token, x: string, m: IdMap, k: nat)
    requires !(x in m && m[x].fromCurrentScope && !m[x].hasLinkage)
    ensures ItemSpec(src, DeclareItem(t, x), m, k)
      == Done(DeclItem(VarDecl(t, Temporary(x, k + 1), None, NilExpr, NoStorage)), m[x := VarEntry(Temporary(x, k + 1), true, false)], k + 1)
  {
  }

  /** One use of a bound name. */
  lemma UseStep(src: seq<int>, t: Token, x: string, m: IdMap, k: nat)
    requires x in m
    ensures ItemSpec(src, UseItem(t, x), m, k) == Done(StmtItem(ExpressionStmt(Var(t, m[x].uniqueName, None))), m, k)
  {
  }

  /** A block of one item. */
  lemma SingleItem(src: seq<int>, it: BlockItem, m: IdMap, k: nat)
    ensures var r := ItemSpec(src, it, m, k);
      ItemsSpec(src, [it], 0, m, k) == if r.Failed? then Failed(r.cause, r.counter) else Done([r.value], r.ids, r.counter)
  {
    var items := [it];
    var r := ItemSpec(src, it, m, k);
    assert items[0] == it;
    if r.Done? {
      assert ItemsSpec(src, items, 1, r.ids, r.counter) == Done([], r.ids, r.counter);
      assert [r.value] + [] == [r.value];
    }
  }

  /** Declaring a name twice in one block is an error. */
  lemma RedeclarationInBlock(src: seq<int>, t1: Token, t2: Token, x: string, m: IdMap, k: nat)
    requires !(x in m && m[x].fromCurrentScope && !m[x].hasLinkage)
    ensures ItemsSpec(src, [DeclareItem(t1, x), DeclareItem(t2, x)], 0, m, k)
      == Failed(Error(src, Diagnostics.DuplicateVariable(x), t2), k + 1)
  {
    var items := [DeclareItem(t1, x), DeclareItem(t2, x)];
    var m1 := m[x := VarEntry(Temporary(x, k + 1), true, false)];
    DeclareStep(src, t1, x, m, k);
    assert ItemSpec(src, items[1], m1, k + 1) == Failed(Error(src, Diagnostics.DuplicateVariable(x), t2), k + 1);
  }

  /** A declaration inside a compound statement may shadow one of the
      enclosing block, and does not escape: after the compound statement,
      the name is bound to the outer declaration again. */
  lemma CompoundShadowsAndHides(src: seq<int>, t1: Token, t2: Token, t3: Token, x: string, m: IdMap, k: nat)
    requires !(x in m && m[x].fromCurrentScope && !m[x].hasLinkage)
    ensures var r := ItemsSpec(src, [DeclareItem(t1, x), StmtItem(Compound(Block([DeclareItem(t2, x)]))), UseItem(t3, x)], 0, m, k);
      && r.Done? && r.counter == k + 2
      && r.value == [DeclItem(VarDecl(t1, Temporary(x, k + 1), None, NilExpr, NoStorage)),
                     StmtItem(Compound(Block([DeclItem(VarDecl(t2, Temporary(x, k + 2), None, NilExpr, NoStorage))]))),
                     StmtItem(ExpressionStmt(Var(t3, Temporary(x, k + 1), None)))]
  {
    var items := [DeclareItem(t1, x), StmtItem(Compound(Block([DeclareItem(t2, x)]))), UseItem(t3, x)];
    var m1 := m[x := VarEntry(Temporary(x, k + 1), true, false)];
    var d1 := DeclItem(VarDecl(t1, Temporary(x, k + 1), None, NilExpr, NoStorage));
    var d2 := DeclItem(VarDecl(t2, Temporary(x, k + 2), None, NilExpr, NoStorage));
    var use := StmtItem(ExpressionStmt(Var(t3, Temporary(x, k + 1), None)));
    var c := Copied(m1);
    DeclareStep(src, t1, x, m, k);
    DeclareStep(src, t2, x, c, k + 1);
    SingleItem(src, DeclareItem(t2, x), c, k + 1);
    assert StmtSpec(src, Compound(Block([DeclareItem(t2, x)])), m1, k + 1) == Done(Compound(Block([d2])), m1, k + 2);
    UseStep(src, t3, x, m1, k + 2);
    assert items[2] == UseItem(t3, x);
    assert ItemsSpec(src, items, 3, m1, k + 2) == Done([], m1, k + 2);
    assert [use] + [] == [use];
    assert ItemsSpec(src, items, 2, m1, k + 2) == Done([use], m1, k + 2);
    assert ItemsSpec(src, items, 1, m1, k + 1) == Done([StmtItem(Compound(Block([d2])))] + [use], m1, k + 2);
  }

  /** A declaration in a compound statement is not visible after it. */
  lemma CompoundDeclarationDoesNotEscape(src: seq<int>, t1: Token, t2: Token, x: string, m: IdMap, k: nat)
    requires x !in m
    ensures ItemsSpec(src, [StmtItem(Compound(Block([DeclareItem(t1, x)]))), UseItem(t2, x)], 0, m, k)
      == Failed(Error(src, Diagnostics.UndeclaredVariable(x), t2), k + 1)
  {
    var items := [StmtItem(Compound(Block([DeclareItem(t1, x)]))), UseItem(t2, x)];
    var c := Copied(m);
    DeclareStep(src, t1, x, c, k);
    SingleItem(src, DeclareItem(t1, x), c, k);
    var d1 := DeclItem(VarDecl(t1, Temporary(x, k + 1), None, NilExpr, NoStorage));
    assert StmtSpec(src, Compound(Block([DeclareItem(t1, x)])), m, k) == Done(Compound(Block([d1])), m, k + 1);
    assert items[0] == StmtItem(Compound(Block([DeclareItem(t1, x)])));
    assert items[1] == UseItem(t2, x);
    assert ItemSpec(src, items[1], m, k + 1) == Failed(Error(src, Diagnostics.UndeclaredVariable(x), t2), k + 1);
    assert ItemsSpec(src, items, 1, m, k + 1) == Failed(Error(src, Diagnostics.UndeclaredVariable(x), t2), k + 1);
  }

  /** A `while` body shares the enclosing map, so a declaration in it is
      still bound after the loop. */
  lemma WhileDeclarationEscapes(src: seq<int>, t0: Token, t1: Token, t2: Token, x: string, id: string, m: IdMap, k: nat)
    requires x !in m
    ensures var r := ItemsSpec(src, [StmtItem(While(t0, NilExpr, Block([DeclareItem(t1, x)]), id)), UseItem(t2, x)], 0, m, k);
      r.Done? && |r.value| == 2 && r.value[1] == StmtItem(ExpressionStmt(Var(t2, Temporary(x, k + 1), None)))
  {
    var items := [StmtItem(While(t0, NilExpr, Block([DeclareItem(t1, x)]), id)), UseItem(t2, x)];
    var m1 := m[x := VarEntry(Temporary(x, k + 1), true, false)];
    var use := StmtItem(ExpressionStmt(Var(t2, Temporary(x, k + 1), None)));
    DeclareStep(src, t1, x, m, k);
    SingleItem(src, DeclareItem(t1, x), m, k);
    var d1 := DeclItem(VarDecl(t1, Temporary(x, k + 1), None, NilExpr, NoStorage));
    assert StmtSpec(src, While(t0, NilExpr, Block([DeclareItem(t1, x)]), id), m, k) == Done(While(t0, NilExpr, Block([d1]), id), m1, k + 1);
    assert items[0] == StmtItem(While(t0, NilExpr, Block([DeclareItem(t1, x)]), id));
    assert items[1] == UseItem(t2, x);
    assert [use] + [] == [use];
    UseStep(src, t2, x, m1, k + 1);
    assert ItemsSpec(src, items, 2, m1, k + 1) == Done([], m1, k + 1);
    assert ItemsSpec(src, items, 1, m1, k + 1) == Done([use], m1, k + 1);
  }

  // ---------------------------------------------------------------------
  // Top-level declarations

  /** A function body-less declaration with no parameters. */
  function Prototype(tok: Token, f: string): Decl
  {
    FnDecl(tok, f, false, false, [], None, None)
  }

  /** Every file-scope binding has linkage, so declaring a function twice
      passes the resolver (the type checker is the pass that objects). */
  lemma FunctionMayBeRedeclared(src: seq<int>, t1: Token, t2: Token, f: string, k: nat)
    ensures DeclsSpec(src, [Prototype(t1, f), Prototype(t2, f)], 0, map[], k)
      == Done([Prototype(t1, f), Prototype(t2, f)], map[f := VarEntry(f, true, true)], k)
  {
    var ds := [Prototype(t1, f), Prototype(t2, f)];
    var m1 := map[f := VarEntry(f, true, true)];
    assert FnDeclSpec(src, ds[0], map[], k) == Done(ds[0], m1, k);
    assert m1[f := VarEntry(f, true, true)] == m1;
    assert FnDeclSpec(src, ds[1], m1, k) == Done(ds[1], m1, k);
    assert DeclSpec(src, ds[1], m1, k) == Done(ds[1], m1, k);
    assert DeclsSpec(src, ds, 2, m1, k) == Done([], m1, k);
    assert [ds[1]] + [] == [ds[1]];
    assert DeclsSpec(src, ds, 1, m1, k) == Done([ds[1]], m1, k);
    assert DeclSpec(src, ds[0], map[], k) == Done(ds[0], m1, k);
    assert [ds[0]] + [ds[1]] == ds;
  }

  /** The file-scope map is never copied, so every entry in it is from
      the current scope: a variable reusing a function's name is rejected. */
  lemma GlobalAfterFunctionRejected(src: seq<int>, t1: Token, t2: Token, f: string, k: nat)
    ensures DeclsSpec(src, [Prototype(t1, f), VarDecl(t2, f, None, NilExpr, NoStorage)], 0, map[], k)
      == Failed(Error(src, Diagnostics.DuplicateVariable(f), t2), k)
  {
    var ds := [Prototype(t1, f), VarDecl(t2, f, None, NilExpr, NoStorage)];
    var m1 := map[f := VarEntry(f, true, true)];
    assert FnDeclSpec(src, ds[0], map[], k) == Done(ds[0], m1, k);
    assert DeclSpec(src, ds[1], m1, k) == Failed(Error(src, Diagnostics.DuplicateVariable(f), t2), k);
  }

  // ---------------------------------------------------------------------
  // The file-scope variable: as written, and as intended

  /** As written, a file-scope variable is bound to a fresh name that the
      declaration itself never takes, so every use of the variable names
      something that is not declared anywhere. */
  lemma GlobalUseMissesDeclaration(src: seq<int>, d: Decl, m: IdMap, k: nat, t: Token)
    requires d.VarDecl? && FileScopeVarSpec(src, d, m, k).Done?
    ensures var r := FileScopeVarSpec(src, d, m, k);
      && ExprSpec(src, Var(t, d.ident, None), r.ids).Success?
      && ExprSpec(src, Var(t, d.ident, None), r.ids).value.ident != r.value.ident
  {
    TemporaryIsNew(d.ident, k + 1);
  }

  /** ResolveFileScopeVarDecl as evidently intended: a name with linkage
      keeps its own name, as a function's does (resolve.go:132-136). */
  function FileScopeVarIntended(src: seq<int>, d: Decl, m: IdMap, k: nat): (r: Outcome<Decl>)
    requires d.VarDecl?
    ensures r.Failed? <==> d.ident in m && m[d.ident].fromCurrentScope
  {
    var x := d.ident;
    if x in m && m[x].fromCurrentScope then Failed(Error(src, Diagnostics.DuplicateVariable(x), d.token), k)
    else Done(d, m[x := VarEntry(x, true, true)], k)
  }

  /** With the intended definition, every use of a file-scope variable
      resolves to the declared name. */
  lemma GlobalUseFindsDeclaration(src: seq<int>, d: Decl, m: IdMap, k: nat, t: Token)
    requires d.VarDecl? && FileScopeVarIntended(src, d, m, k).Done?
    ensures var r := FileScopeVarIntended(src, d, m, k);
      ExprSpec(src, Var(t, d.ident, None), r.ids) == Diagnostics.Success(Var(t, r.value.ident, None))
  {
  }

  // ---------------------------------------------------------------------
  // The pass

  /** Resolver (resolve.go:31-45). The unique-name generator it is handed
      is never used by the pass and is left out. */
  class Resolver {
    var tempCounter: nat
    const source: seq<int>

    /** NewResolver: the counter starts at 0. */
    constructor (source: seq<int>)
      ensures this.source == source && tempCounter == 0
    {
      this.source := source;
      tempCounter := 0;
    }

    /** makeNamedTemporary (resolve.go:47-50): the counter advances first,
        and the name carries its new value. */
    method MakeNamedTemporary(name: string) returns (u: string)
      modifies this
      ensures tempCounter == old(tempCounter) + 1 && u == Temporary(name, tempCounter)
    {
      tempCounter := tempCounter + 1;
      u := name + "_" + Decimal.NatToString(tempCounter);
    }

    /** copyIdMap (resolve.go:319-329), one entry at a time. */
    method CopyIdMap(m: IdMap) returns (c: IdMap)
      ensures c == Copied(m)
    {
      c := map[];
      var rest := m.Keys;
      while rest != {}
        invariant rest <= m.Keys && c.Keys == m.Keys - rest
        invariant forall x :: x in c ==> c[x] == m[x].(fromCurrentScope := false)
        decreases rest
      {
        var x :| x in rest;
        var entry := m[x];
        entry := entry.(fromCurrentScope := false);
        c := c[x := entry];
        rest := rest - {x};
      }
    }

    /** resolveParams (resolve.go:52-78). */
    method ResolveParams(ps: seq<Param>, m: IdMap) returns (r: Outcome<seq<Param>>)
      modifies this
      ensures r == ParamsSpec(source, ps, 0, m, old(tempCounter)) && tempCounter == r.counter
    {
      ghost var k0 := tempCounter;
      var resolved: seq<Param> := [];
      var ids := m;
      var i := 0;
      PrependNothing(ParamsSpec(source, ps, 0, m, k0));
      while i < |ps|
        invariant i <= |ps|
        invariant ParamsSpec(source, ps, 0, m, k0) == Prepend(resolved, ParamsSpec(source, ps, i, ids, tempCounter))
        decreases |ps| - i
      {
        var p := ps[i];
        if p.ident in ids {
          return Failed(Error(source, Diagnostics.DuplicateVariable(p.ident), p.token), tempCounter);
        }
        var u := MakeNamedTemporary(p.ident);
        ids := ids[p.ident := VarEntry(u, true, false)];
        PrependTwice(resolved, [Param(p.token, u, p.typ)], ParamsSpec(source, ps, i + 1, ids, tempCounter));
        resolved := resolved + [Param(p.token, u, p.typ)];
        i := i + 1;
      }
      assert resolved + [] == resolved;
      return Done(resolved, ids, tempCounter);
    }

    /** Resolve (resolve.go:80-91): one map, starting empty, shared by all
        top-level declarations; the first failure stops the pass. */
    method Resolve(p: Program) returns (r: Outcome<Program>)
      modifies this
      ensures r == ResolveSpec(source, p, old(tempCounter)) && tempCounter == r.counter
    {
      var d := ResolveDecls(p.decls);
      if d.Failed? {
        return Failed(d.cause, d.counter);
      }
      return Done(Program(d.value), d.ids, d.counter);
    }

    /** The loop of Resolve (resolve.go:82-89): each declaration is
        resolved in the map the previous one left and written back in place. */
    method ResolveDecls(ds: seq<Decl>) returns (r: Outcome<seq<Decl>>)
      modifies this
      ensures r == DeclsSpec(source, ds, 0, map[], old(tempCounter)) && tempCounter == r.counter
    {
      ghost var whole := DeclsSpec(source, ds, 0, map[], tempCounter);
      var ids: IdMap := map[];
      var decls := ds;
      var i := 0;
      PrependNothing(whole);
      while i < |ds|
        invariant i <= |ds| == |decls|
        invariant whole == Prepend(decls[..i], DeclsSpec(source, ds, i, ids, tempCounter))
        decreases |ds| - i
      {
        ghost var k := tempCounter;
        var d := ResolveDecl(ds[i], ids);
        DeclsLoopStep(source, ds, i, ids, k, decls, whole, d);
        if d.Failed? {
          return Failed(d.cause, d.counter);
        }
        decls := decls[i := d.value];
        ids := d.ids;
        i := i + 1;
      }
      assert decls[..i] + [] == decls;
      return Done(decls, ids, tempCounter);
    }

    /** ResolveDecl (resolve.go:93-102). */
    method ResolveDecl(d: Decl, m: IdMap) returns (r: Outcome<Decl>)
      modifies this
      ensures r == DeclSpec(source, d, m, old(tempCounter)) && tempCounter == r.counter
    {
      match d
      case FnDecl(_, _, _, _, _, _, _) => r := ResolveFnDecl(d, m);
      case VarDecl(_, _, _, _, _) => r := ResolveFileScopeVarDecl(d, m);
      case _ => r := Failed(Diagnostics.Crash("unimplemented decl type on resolve"), tempCounter);
    }

    /** ResolveFileScopeVarDecl (resolve.go:104-122). */
    method ResolveFileScopeVarDecl(d: Decl, m: IdMap) returns (r: Outcome<Decl>)
      requires d.VarDecl?
      modifies this
      ensures r == FileScopeVarSpec(source, d, m, old(tempCounter)) && tempCounter == r.counter
    {
      if d.ident in m && m[d.ident].fromCurrentScope {
        return Failed(Error(source, Diagnostics.DuplicateVariable(d.ident), d.token), tempCounter);
      }
      var u := MakeNamedTemporary(d.ident);
      var ids := m[d.ident := VarEntry(u, true, true)];
      return Done(d, ids, tempCounter);
    }

    /** ResolveFnDecl (resolve.go:123-157). The map it leaves behind is the
        file-scope map with the function bound; the copy its parameters and
        body were resolved in is dropped by its caller. */
    method ResolveFnDecl(d: Decl, m: IdMap) returns (r: Outcome<Decl>)
      requires d.FnDecl?
      modifies this
      ensures r == FnDeclSpec(source, d, m, old(tempCounter)) && tempCounter == r.counter
    {
      if d.ident in m && m[d.ident].fromCurrentScope && !m[d.ident].hasLinkage {
        return Failed(Error(source, Diagnostics.DuplicateFnDecl(d.ident), d.token), tempCounter);
      }
      var outer := m[d.ident := VarEntry(d.ident, true, true)];
      var newMap := CopyIdMap(outer);
      var ps := ResolveParams(d.params, newMap);
      if ps.Failed? {
        return Failed(ps.cause, ps.counter);
      }
      if d.body.Some? {
        var b := ResolveBlock(d.body.value, ps.ids);
        if b.Failed? {
          return Failed(b.cause, b.counter);
        }
        return Done(WithBody(d, ps.value, Some(Block(b.value))), outer, tempCounter);
      }
      return Done(WithBody(d, ps.value, d.body), outer, tempCounter);
    }

    /** resolveLocalVarHelper (resolve.go:160-190). The binding an extern
        declaration gets is overwritten at once by the fresh one. */
    method ResolveLocalVarHelper(m: IdMap, d: Decl) returns (r: Outcome<string>)
      requires d.VarDecl?
      modifies this
      ensures r == LocalVarHelper(source, d, m, old(tempCounter)) && tempCounter == r.counter
    {
      var ids := m;
      if d.ident in ids && ids[d.ident].fromCurrentScope {
        if !ids[d.ident].hasLinkage {
          return Failed(Error(source, Diagnostics.DuplicateVariable(d.ident), d.token), tempCounter);
        }
      }
      if d.storageClass == Extern {
        ids := ids[d.ident := VarEntry(d.ident, true, false)];
      }
      var u := MakeNamedTemporary(d.ident);
      ids := ids[d.ident := VarEntry(u, true, false)];
      return Done(u, ids, tempCounter);
    }

    /** ResolveLocalDecl (resolve.go:335-348). */
    method ResolveLocalDecl(d: Decl, m: IdMap) returns (r: Outcome<Decl>)
      modifies this
      ensures r == LocalDeclSpec(source, d, m, old(tempCounter)) && tempCounter == r.counter
    {
      match d
      case FnDecl(tok, f, _, _, _, _, _) =>
        r := Failed(Error(source, Diagnostics.FnDeclInsideFnDecl(f), tok), tempCounter);
      case VarDecl(_, _, _, _, _) => r := ResolveLocalVarDecl(d, m);
      case _ => r := Failed(Unreachable, tempCounter);
    }

    /** ResolveLocalVarDecl (resolve.go:350-366). */
    method ResolveLocalVarDecl(d: Decl, m: IdMap) returns (r: Outcome<Decl>)
      requires d.VarDecl?
      modifies this
      ensures r == LocalVarDeclSpec(source, d, m, old(tempCounter)) && tempCounter == r.counter
    {
      var h := ResolveLocalVarHelper(m, d);
      if h.Failed? {
        return Failed(h.cause, h.counter);
      }
      var init := d.expr;
      if init != NilExpr {
        var e := ResolveExpr(init, h.ids);
        if e.Failure? {
          return Failed(e.cause, tempCounter);
        }
        init := e.value;
      }
      return Done(VarDecl(d.token, h.value, d.varType, init, d.storageClass), h.ids, tempCounter);
    }

    /** ResolveBlock (resolve.go:192-201): the items are resolved in order
        and replaced in place; all of them work on the same map. */
    method ResolveBlock(b: Block, m: IdMap) returns (r: Outcome<seq<BlockItem>>)
      modifies this
      ensures r == ItemsSpec(source, b.items, 0, m, old(tempCounter)) && tempCounter == r.counter
      decreases b, 0
    {
      ghost var k0 := tempCounter;
      var items := b.items;
      var ids := m;
      var i := 0;
      PrependNothing(ItemsSpec(source, b.items, 0, m, k0));
      while i < |b.items|
        invariant i <= |b.items| == |items|
        invariant ItemsSpec(source, b.items, 0, m, k0)
          == Prepend(items[..i], ItemsSpec(source, b.items, i, ids, tempCounter))
        decreases |b.items| - i
      {
        var it := ResolveBlockItem(b.items[i], ids);
        if it.Failed? {
          return Failed(it.cause, it.counter);
        }
        PrependTwice(items[..i], [it.value], ItemsSpec(source, b.items, i + 1, it.ids, tempCounter));
        items := items[i := it.value];
        assert items[..i + 1] == items[..i] + [it.value];
        ids := it.ids;
        i := i + 1;
      }
      assert items[..i] + [] == items;
      return Done(items, ids, tempCounter);
    }

    /** ResolveBlockItem (resolve.go:203-220). */
    method ResolveBlockItem(item: BlockItem, m: IdMap) returns (r: Outcome<BlockItem>)
      modifies this
      ensures r == ItemSpec(source, item, m, old(tempCounter)) && tempCounter == r.counter
      decreases item, 0
    {
      match item
      case StmtItem(st) =>
        var s := ResolveStmt(st, m);
        if s.Failed? {
          return Failed(s.cause, s.counter);
        }
        return Done(StmtItem(s.value), s.ids, s.counter);
      case DeclItem(d) =>
        var dd := ResolveLocalDecl(d, m);
        if dd.Failed? {
          return Failed(dd.cause, dd.counter);
        }
        return Done(DeclItem(dd.value), dd.ids, dd.counter);
      case NilItem =>
        return Failed(Unreachable, tempCounter);
    }

    /** ResolveStmt (resolve.go:222-317). */
    method ResolveStmt(st: Stmt, m: IdMap) returns (r: Outcome<Stmt>)
      modifies this
      ensures r == StmtSpec(source, st, m, old(tempCounter)) && tempCounter == r.counter
      decreases st, 0
    {
      match st
      case While(tok, cond, body, id) =>
        var c := cond;
        if cond != NilExpr {
          var e := ResolveExpr(cond, m);
          if e.Failure? {
            return Failed(e.cause, tempCounter);
          }
          c := e.value;
        }
        var b := ResolveBlock(body, m);
        if b.Failed? {
          return Failed(b.cause, b.counter);
        }
        return Done(While(tok, c, Block(b.value), id), b.ids, b.counter);
      case Loop(tok, v, e, body, id) =>
        var e' := ResolveExpr(e, m);
        if e'.Failure? {
          return Failed(e'.cause, tempCounter);
        }
        var ids := m;
        var v' := v;
        if v != NilExpr {
          if !v.Var? {
            return Failed(Error(source, "loop variable must be an identifier", tok), tempCounter);
          }
          var u := MakeNamedTemporary(v.ident);
          ids := ids[v.ident := VarEntry(u, true, false)];
          v' := Var(v.token, u, v.typ);
        }
        var b := ResolveBlock(body, ids);
        if b.Failed? {
          return Failed(b.cause, b.counter);
        }
        return Done(Loop(tok, v', e'.value, Block(b.value), id), b.ids, b.counter);
      case Compound(block) =>
        var newMap := CopyIdMap(m);
        var b := ResolveBlock(block, newMap);
        if b.Failed? {
          return Failed(b.cause, b.counter);
        }
        return Done(Compound(Block(b.value)), m, b.counter);
      case Return(tok, v) =>
        var v' := ResolveExpr(v, m);
        if v'.Failure? {
          return Failed(v'.cause, tempCounter);
        }
        return Done(Return(tok, v'.value), m, tempCounter);
      case If(tok, c, th, el) =>
        var c' := ResolveExpr(c, m);
        if c'.Failure? {
          return Failed(c'.cause, tempCounter);
        }
        var th' := ResolveStmt(th, m);
        if th'.Failed? {
          return th';
        }
        var el' := ResolveStmt(el, th'.ids);
        if el'.Failed? {
          return el';
        }
        return Done(If(tok, c'.value, th'.value, el'.value), el'.ids, el'.counter);
      case ExpressionStmt(e) =>
        var e' := ResolveExpr(e, m);
        if e'.Failure? {
          return Failed(e'.cause, tempCounter);
        }
        return Done(ExpressionStmt(e'.value), m, tempCounter);
      case NilStmt => return Done(st, m, tempCounter);
      case Break(_, _) => return Done(st, m, tempCounter);
      case Continue(_, _) => return Done(st, m, tempCounter);
    }

    /** The loop of ResolveExpr over a call's arguments
        (resolve.go:383-389): each is resolved and replaced in place. */
    method ResolveArgs(args: seq<Expr>, m: IdMap) returns (r: Diagnostics.Attempt<seq<Expr>>)
      ensures r == ArgsSpec(source, args, 0, m)
      decreases args, 0
    {
      var out := args;
      var i := 0;
      Diagnostics.PrependAttemptNothing(ArgsSpec(source, args, 0, m));
      while i < |args|
        invariant i <= |args| == |out|
        invariant ArgsSpec(source, args, 0, m) == Diagnostics.PrependAttempt(out[..i], ArgsSpec(source, args, i, m))
        decreases |args| - i
      {
        var a := ResolveExpr(args[i], m);
        if a.Failure? {
          return Diagnostics.Failure(a.cause);
        }
        ArgsStep(source, args, i, m, out[..i]);
        out := out[i := a.value];
        assert out[..i + 1] == out[..i] + [a.value];
        i := i + 1;
      }
      assert out[..i] + [] == out;
      return Diagnostics.Success(out);
    }

    /** ResolveExpr (resolve.go:368-505). The compound nodes are resolved
        by the methods below, one per case of the source's type switch. */
    method ResolveExpr(e: Expr, m: IdMap) returns (r: Diagnostics.Attempt<Expr>)
      ensures r == ExprSpec(source, e, m)
      decreases e, 2
    {
      match e
      case NilExpr => return Diagnostics.Success(NilExpr);
      case FnCall(tok, f, args, t) =>
        if f !in m {
          return Diagnostics.Failure(Error(source, Diagnostics.NotDeclaredFnCall(f), tok));
        }
        var out := ResolveArgs(args, m);
        if out.Failure? {
          return Diagnostics.Failure(out.cause);
        }
        return Diagnostics.Success(FnCall(tok, f, out.value, t));
      case Range(_, _, _, _) => r := ResolveRange(e, m);
      case Conditional(_, _, _, _, _) => r := ResolveConditional(e, m);
      case Assignment(_, _, _, _) => r := ResolveAssignment(e, m);
      case Var(tok, x, _) =>
        if x !in m {
          return Diagnostics.Failure(Error(source, Diagnostics.UndeclaredVariable(x), tok));
        }
        return Diagnostics.Success(Var(tok, m[x].uniqueName, None));
      case Unary(_, inner, op, _) =>
        var inner' := ResolveExpr(inner, m);
        if inner'.Failure? {
          return inner';
        }
        return Diagnostics.Success(Unary(ZeroToken, inner'.value, op, None));
      case Binary(_, _, _, _, _) => r := ResolveBinary(e, m);
      case ConstInt(_, _, _) => return Diagnostics.Success(e);
      case ConstLong(_, _, _) => return Diagnostics.Success(e);
      case StringExpr(_, _, _) => return Diagnostics.Failure(Error(source, Diagnostics.UnknownExpression(GoTypeText(e)), ZeroToken));
      case Prefix(_, _, _, _) => return Diagnostics.Failure(Error(source, Diagnostics.UnknownExpression(GoTypeText(e)), ZeroToken));
      case Infix(_, _, _, _, _) => return Diagnostics.Failure(Error(source, Diagnostics.UnknownExpression(GoTypeText(e)), ZeroToken));
    }

    method ResolveRange(e: Expr, m: IdMap) returns (r: Diagnostics.Attempt<Expr>)
      requires e.Range?
      ensures r == ExprSpec(source, e, m)
      decreases e, 1
    {
      var s' := ResolveExpr(e.start, m);
      if s'.Failure? {
        return s';
      }
      var en' := ResolveExpr(e.end, m);
      if en'.Failure? {
        return en';
      }
      return Diagnostics.Success(Range(e.token, s'.value, en'.value, e.typ));
    }

    method ResolveConditional(e: Expr, m: IdMap) returns (r: Diagnostics.Attempt<Expr>)
      requires e.Conditional?
      ensures r == ExprSpec(source, e, m)
      decreases e, 1
    {
      var c' := ResolveExpr(e.cond, m);
      if c'.Failure? {
        return c';
      }
      var th' := ResolveExpr(e.thenExpr, m);
      if th'.Failure? {
        return th';
      }
      var el' := ResolveExpr(e.elseExpr, m);
      if el'.Failure? {
        return el';
      }
      return Diagnostics.Success(Conditional(e.token, c'.value, th'.value, el'.value, e.typ));
    }

    /** The assignment case: the new node has no token and no type. */
    method ResolveAssignment(e: Expr, m: IdMap) returns (r: Diagnostics.Attempt<Expr>)
      requires e.Assignment?
      ensures r == ExprSpec(source, e, m)
      decreases e, 1
    {
      if !e.left.Var? {
        var lit := TokenLiteral(e.left);
        if lit.Panic? {
          return Diagnostics.Failure(Diagnostics.Crash("nil pointer dereference"));
        }
        return Diagnostics.Failure(Error(source, Diagnostics.InvalidAssignment(lit.value), e.token));
      }
      var l' := ResolveExpr(e.left, m);
      if l'.Failure? {
        return l';
      }
      var r' := ResolveExpr(e.right, m);
      if r'.Failure? {
        return r';
      }
      return Diagnostics.Success(Assignment(ZeroToken, l'.value, r'.value, None));
    }

    /** The binary case: left operand first; the new node has no token
        and no type. */
    method ResolveBinary(e: Expr, m: IdMap) returns (r: Diagnostics.Attempt<Expr>)
      requires e.Binary?
      ensures r == ExprSpec(source, e, m)
      decreases e, 1
    {
      var l' := ResolveExpr(e.left, m);
      if l'.Failure? {
        return l';
      }
      var r' := ResolveExpr(e.right, m);
      if r'.Failure? {
        return r';
      }
      return Diagnostics.Success(Binary(ZeroToken, r'.value, l'.value, e.op, None));
    }
  }
}
