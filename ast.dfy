// parser/ast.go, parser/ast_decl.go, parser/ast_loop.go and
// parser/ast_expr.go: the syntax tree the semantic passes and the TACKY
// generator work on, the binary operator codes with their text, and the
// expression printers. A nil interface or pointer is the `Nil…`
// constructor of its datatype; calling a printer on it panics.
module Ast {
  import opened Wrappers
  import opened MTypes
  import opened GoLexer
  import Decimal

  // ---------------------------------------------------------------------
  // Binary operators (parser/ast_expr.go:11-28, numbered by iota from 0)

  const A_PLUS: int := 0
  const A_MINUS: int := 1
  const A_QUESTIONMARK: int := 2
  const A_DOTDOT: int := 3
  const A_DIV: int := 4
  const A_MUL: int := 5
  const A_MOD: int := 6
  const A_ASSIGN: int := 7
  const A_AND: int := 8
  const A_OR: int := 9
  const A_EQUALTO: int := 10
  const A_NOTEQUAL: int := 11
  const A_LESSTHAN: int := 12
  const A_LESSTHANEQUAL: int := 13
  const A_GREATERTHAN: int := 14
  const A_GREATERTHANEQUAL: int := 15

  /** ASTBinOp.String (parser/ast_expr.go:34-69). There is no case for
      `A_ASSIGN`, which falls to the default with every other code. */
  function BinOpString(op: int): string
  {
    if op == A_MOD then "%"
    else if op == A_DOTDOT then ".."
    else if op == A_QUESTIONMARK then "?"
    else if op == A_PLUS then "+"
    else if op == A_MINUS then "-"
    else if op == A_DIV then "/"
    else if op == A_MUL then "*"
    else if op == A_AND then "&&"
    else if op == A_OR then "||"
    else if op == A_EQUALTO then "=="
    else if op == A_NOTEQUAL then "!="
    else if op == A_LESSTHAN then "<"
    else if op == A_LESSTHANEQUAL then "<="
    else if op == A_GREATERTHAN then ">"
    else if op == A_GREATERTHANEQUAL then ">="
    else "unknown"
  }

  /** The fifteen codes String has a case for: every code but `A_ASSIGN`. */
  predicate Named(op: int) { A_PLUS <= op <= A_GREATERTHANEQUAL && op != A_ASSIGN }

  /** A code gets a symbol of its own exactly when String has a case for
      it; the symbol is short, non-empty and holds no space. */
  lemma BinOpStringCases(op: int)
    ensures Named(op) <==> BinOpString(op) != "unknown"
    ensures Named(op) ==> 0 < |BinOpString(op)| <= 2 && ' ' !in BinOpString(op)
  {
  }

  /** The symbols of the named codes are pairwise distinct. */
  lemma BinOpStringInjective(a: int, b: int)
    requires Named(a) && Named(b) && BinOpString(a) == BinOpString(b)
    ensures a == b
  {
  }

  // ---------------------------------------------------------------------
  // The tree (parser/ast.go, ast_decl.go, ast_loop.go, ast_expr.go)

  /** The storage class of a file-scope variable (parser/ast.go). */
  datatype StorageClass = NoStorage | Static | Extern

  /** ASTExpression and its node kinds. `typ` is the `Type` field the type
      checker fills in (a nil interface is `None`). ASTBinary keeps Go's
      field order, right operand before left. */
  datatype Expr =
    | NilExpr
    | FnCall(token: Token, ident: string, args: seq<Expr>, typ: Option<Type>)
    | Conditional(token: Token, cond: Expr, thenExpr: Expr, elseExpr: Expr, typ: Option<Type>)
    | ConstInt(token: Token, value: int, typ: Option<Type>)
    | ConstLong(token: Token, value: int, typ: Option<Type>)
    | StringExpr(token: Token, text: string, typ: Option<Type>)
    | Prefix(token: Token, right: Expr, prefixOp: string, typ: Option<Type>)
    | Binary(token: Token, right: Expr, left: Expr, op: int, typ: Option<Type>)
    | Assignment(token: Token, left: Expr, right: Expr, typ: Option<Type>)
    | Range(token: Token, start: Expr, end: Expr, typ: Option<Type>)
    | Var(token: Token, ident: string, typ: Option<Type>)
    | Unary(token: Token, inner: Expr, unaryOp: TokenType, typ: Option<Type>)
    | Infix(token: Token, left: Expr, right: Expr, infixOp: string, typ: Option<Type>)

  /** A block and its items: a statement or a declaration. */
  datatype Block = Block(items: seq<BlockItem>)

  datatype BlockItem = StmtItem(stmt: Stmt) | DeclItem(decl: Decl) | NilItem

  /** The statements the passes switch on. `id` is the label the loop
      labelling pass writes. */
  datatype Stmt =
    | NilStmt
    | While(token: Token, cond: Expr, body: Block, id: string)
    | Loop(token: Token, loopVar: Expr, expr: Expr, body: Block, id: string)
    | Break(token: Token, id: string)
    | Continue(token: Token, id: string)
    | Compound(block: Block)
    | If(token: Token, cond: Expr, thenStmt: Stmt, elseStmt: Stmt)
    | ExpressionStmt(expression: Expr)
    | Return(token: Token, returnValue: Expr)

  /** Param (parser/ast_decl.go). */
  datatype Param = Param(token: Token, ident: string, typ: Option<Type>)

  /** The declarations: ASTFnDecl, ASTVarDecl, ASTImport. A function
      without a body (an extern declaration) has `body == None`. */
  datatype Decl =
    | NilDecl
    | FnDecl(token: Token, ident: string, isPublic: bool, isExtern: bool, params: seq<Param>,
             returnType: Option<Type>, body: Option<Block>)
    | VarDecl(token: Token, ident: string, varType: Option<Type>, expr: Expr, storageClass: StorageClass)
    | Import(token: Token, ident: string, subImports: seq<string>)

  datatype Program = Program(decls: seq<Decl>)

  /** TokenLiteral of the expression nodes (parser/ast_expr.go:89-319):
      a fixed word, the token's kind or the operator. Calling it on a nil
      expression panics. */
  function TokenLiteral(e: Expr): Result<string>
  {
    match e
    case NilExpr => Panic("nil pointer dereference")
    case FnCall(_, _, _, _) => Ok("CALL")
    case Conditional(_, _, _, _, _) => Ok("CONDITIONAL")
    case ConstInt(tok, _, _) => Ok(TypeName(tok.kind))
    case ConstLong(tok, _, _) => Ok(TypeName(tok.kind))
    case StringExpr(tok, _, _) => Ok(TypeName(tok.kind))
    case Prefix(tok, _, _, _) => Ok(TypeName(tok.kind))
    case Binary(_, _, _, op, _) => Ok(BinOpString(op))
    case Assignment(_, _, _, _) => Ok("VAR")
    case Range(_, _, _, _) => Ok("RANGE")
    case Var(_, _, _) => Ok("VAR")
    case Unary(_, _, op, _) => Ok(TypeName(op))
    case Infix(tok, _, _, _, _) => Ok(TypeName(tok.kind))
  }

  /** TokenLiteral panics exactly on a nil expression; a binary node
      gives its operator's symbol and a call, a conditional, a range and a
      variable their fixed words. */
  lemma TokenLiteralCases(e: Expr)
    ensures TokenLiteral(e).Panic? <==> e.NilExpr?
    ensures e.Binary? ==> TokenLiteral(e) == Ok(BinOpString(e.op))
    ensures e.FnCall? ==> TokenLiteral(e) == Ok("CALL")
    ensures e.Conditional? ==> TokenLiteral(e) == Ok("CONDITIONAL")
    ensures e.Range? ==> TokenLiteral(e) == Ok("RANGE")
    ensures e.Var? || e.Assignment? ==> TokenLiteral(e) == Ok("VAR")
  {
  }

  // ---------------------------------------------------------------------
  // Printing (parser/ast_expr.go)

  /** indent (parser/ast.go:87-89): two spaces per level. */
  function Indent(depth: nat): (s: string)
    ensures |s| == 2 * depth
    ensures forall k :: 0 <= k < |s| ==> s[k] == ' '
  {
    if depth == 0 then "" else "  " + Indent(depth - 1)
  }

  /** The PrintAST methods of the expression nodes. Each node prints its
      children with the depth it passes them; a nil child that the method
      does not test for panics. */
  function PrintExpr(e: Expr, depth: nat): Result<string>
    decreases e, 0
  {
    match e
    case NilExpr => Panic("nil pointer dereference")
    case FnCall(_, ident, args, _) =>
      var a :- PrintArgs(args, 0, depth + 1);
      Ok(Indent(depth) + ident + "(" + a + ")")
    case Conditional(_, c, t, f, _) =>
      var cs :- PrintExpr(c, depth + 1);
      var ts :- if t == NilExpr then Ok("") else PrintExpr(t, depth + 1);
      var fs :- if f == NilExpr then Ok("") else PrintExpr(f, depth + 1);
      Ok(Indent(depth) + "Ternary Expression:\n"
         + Indent(depth) + "├── If " + cs + " then:\n"
         + (if t == NilExpr then "" else Indent(depth) + "│   └── " + ts + "\n")
         + Indent(depth) + "└── Else:\n"
         + (if f == NilExpr then "" else Indent(depth) + "    └── " + fs + "\n"))
    case ConstInt(_, v, _) => Ok(Decimal.IntToString(v))
    case ConstLong(_, v, _) => Ok(Decimal.IntToString(v))
    case StringExpr(tok, text, _) =>
      Ok(Indent(depth) + "└─ String: " + (if tok.value.Some? then tok.value.value else text))
    case Prefix(_, r, op, _) =>
      var rs :- if r == NilExpr then Ok("") else PrintExpr(r, depth + 1);
      Ok(Indent(depth) + "Prefix Expression (" + op + "):\n" + Indent(depth) + "└─ "
         + (if r == NilExpr then "" else rs + "\n"))
    case Binary(_, r, l, op, _) =>
      var ls :- PrintExpr(l, depth);
      var rs :- PrintExpr(r, depth);
      Ok("(" + ls + " " + BinOpString(op) + " " + rs + ")")
    case Assignment(_, l, r, _) =>
      var ls :- PrintExpr(l, depth);
      var rs :- PrintExpr(r, depth);
      Ok(ls + " = " + rs)
    case Range(_, s, en, _) =>
      var ss :- PrintExpr(s, depth + 1);
      var es :- PrintExpr(en, depth + 1);
      Ok(Indent(depth) + "Range Expression:\n" + Indent(depth) + "├─ Start:\n" + ss + "\n"
         + Indent(depth) + "└─ End:\n" + es)
    case Var(_, ident, _) => Ok(Indent(depth) + ident)
    case Unary(_, inner, op, _) =>
      var ins :- PrintExpr(inner, depth);
      Ok(TypeName(op) + ins)
    case Infix(_, l, r, op, _) =>
      var ls :- if l == NilExpr then Ok("") else PrintExpr(l, depth + 1);
      var rs :- if r == NilExpr then Ok("") else PrintExpr(r, depth + 1);
      Ok(Indent(depth) + "Infix Expression (" + op + "):\n" + Indent(depth) + "├─ Left:\n"
         + (if l == NilExpr then "" else ls + "\n")
         + Indent(depth) + "└─ Right:\n"
         + (if r == NilExpr then "" else rs + "\n"))
  }

  /** The arguments from index `i` of a call, joined by ", ". */
  function PrintArgs(args: seq<Expr>, i: nat, depth: nat): Result<string>
    requires i <= |args|
    decreases args, |args| - i
  {
    if i == |args| then Ok("")
    else
      var a :- PrintExpr(args[i], depth);
      var rest :- PrintArgs(args, i + 1, depth);
      Ok(a + (if i < |args| - 1 then ", " else "") + rest)
  }

  /** A constant prints its decimal value at every depth, and the text
      reads back as that value. */
  lemma ConstIntPrints(tok: Token, v: int, t: Option<Type>, depth: nat)
    ensures PrintExpr(ConstInt(tok, v, t), depth).Ok?
    ensures var s := PrintExpr(ConstInt(tok, v, t), depth).value;
      && s == PrintExpr(ConstInt(tok, v, t), 0).value
      && (v >= 0 ==> Decimal.AllDigits(s) && Decimal.DigitsToNat(s) == v)
      && (v < 0 ==> |s| > 1 && s[0] == '-' && Decimal.AllDigits(s[1..]) && Decimal.DigitsToNat(s[1..]) == -v)
  {
    Decimal.NatToStringRoundTrip(if v < 0 then -v else v);
    if v < 0 {
      assert Decimal.IntToString(v)[1..] == Decimal.NatToString(-v);
    }
  }

  // ---------------------------------------------------------------------
  // The printed form of operator trees is unambiguous

  /** Trees of binary operators over integer constants: what the parser
      builds for an arithmetic expression. */
  datatype OpTree = Leaf(value: int) | Node(op: int, lhs: OpTree, rhs: OpTree)

  predicate NamedOps(t: OpTree)
  {
    match t
    case Leaf(_) => true
    case Node(op, l, r) => Named(op) && NamedOps(l) && NamedOps(r)
  }

  /** The AST of a tree, every node carrying the same token. */
  function TreeExpr(t: OpTree, tok: Token): Expr
  {
    match t
    case Leaf(v) => ConstInt(tok, v, None)
    case Node(op, l, r) => Binary(tok, TreeExpr(r, tok), TreeExpr(l, tok), op, None)
  }

  /** The fully parenthesised infix text of a tree. */
  function Printed(t: OpTree): string
  {
    match t
    case Leaf(v) => Decimal.IntToString(v)
    case Node(op, l, r) => "(" + Printed(l) + " " + BinOpString(op) + " " + Printed(r) + ")"
  }

  /** ASTBinary prints as "(L op R)" with both children at the caller's
      depth, and ASTConstInt as its value: an operator tree prints as its
      parenthesised infix text, whatever the depth. */
  lemma {:induction false} PrintTree(t: OpTree, tok: Token, depth: nat)
    ensures PrintExpr(TreeExpr(t, tok), depth) == Ok(Printed(t))
  {
    match t
    case Leaf(v) =>
    case Node(op, l, r) =>
      PrintTree(l, tok, depth);
      PrintTree(r, tok, depth);
  }

  /** Printing tells operator trees apart: two trees whose operators all
      have a symbol of their own print alike only when they are equal. */
  lemma PrintedInjective(t1: OpTree, t2: OpTree, tok: Token, depth: nat)
    requires NamedOps(t1) && NamedOps(t2)
    requires PrintExpr(TreeExpr(t1, tok), depth) == PrintExpr(TreeExpr(t2, tok), depth)
    ensures t1 == t2
  {
    PrintTree(t1, tok, depth);
    PrintTree(t2, tok, depth);
    assert Printed(t1) + "" == Printed(t2) + "";
    PrintedPrefix(t1, t2, "", "");
  }

  /** ASTAssignment prints as "L = R": an assignment of an operator tree
      to a variable prints the indented name, " = " and the tree's text. */
  lemma AssignmentPrints(tok: Token, x: string, t: OpTree, depth: nat)
    ensures PrintExpr(Assignment(tok, Var(tok, x, None), TreeExpr(t, tok), None), depth)
         == Ok(Indent(depth) + x + " = " + Printed(t))
  {
    PrintTree(t, tok, depth);
  }

  /** What may follow a printed tree inside a larger one. */
  predicate Stop(r: string) { r == [] || r[0] == ' ' || r[0] == ')' }

  /** A printed tree is never a proper prefix of another printed tree up
      to a stop character: reading from the left recovers the tree. */
  lemma {:induction false} PrintedPrefix(t1: OpTree, t2: OpTree, r1: string, r2: string)
    requires NamedOps(t1) && NamedOps(t2) && Stop(r1) && Stop(r2)
    requires Printed(t1) + r1 == Printed(t2) + r2
    ensures t1 == t2 && r1 == r2
    decreases t1
  {
    FirstChar(t1, r1);
    FirstChar(t2, r2);
    match (t1, t2)
    case (Leaf(a), Leaf(b)) =>
      NumeralPrefix(a, b, r1, r2);
    case (Node(o1, l1, q1), Node(o2, l2, q2)) =>
      var s1, s2 := BinOpString(o1), BinOpString(o2);
      var x1, x2 := Printed(q1) + (")" + r1), Printed(q2) + (")" + r2);
      NodeText(o1, l1, q1, r1);
      NodeText(o2, l2, q2, r2);
      DropHead('(', Printed(l1) + (" " + (s1 + [' '] + x1)), Printed(l2) + (" " + (s2 + [' '] + x2)));
      PrintedPrefix(l1, l2, " " + (s1 + [' '] + x1), " " + (s2 + [' '] + x2));
      DropHead(' ', s1 + [' '] + x1, s2 + [' '] + x2);
      BinOpStringCases(o1);
      BinOpStringCases(o2);
      SpaceSplit(s1, x1, s2, x2);
      BinOpStringInjective(o1, o2);
      PrintedPrefix(q1, q2, ")" + r1, ")" + r2);
      DropHead(')', r1, r2);
  }

  /** A tree's text is non-empty and opens with '(' exactly for a node. */
  lemma FirstChar(t: OpTree, r: string)
    ensures |Printed(t)| > 0 && (Printed(t) + r)[0] == Printed(t)[0]
    ensures Printed(t)[0] == '(' <==> t.Node?
  {
    if t.Leaf? {
      NumeralChars(t.value);
    }
  }

  lemma NodeText(o: int, l: OpTree, q: OpTree, r: string)
    ensures Printed(Node(o, l, q)) + r
         == "(" + (Printed(l) + (" " + (BinOpString(o) + [' '] + (Printed(q) + (")" + r)))))
  {
  }

  lemma DropHead(c: char, a: string, b: string)
    requires [c] + a == [c] + b
    ensures a == b
  {
    assert a == ([c] + a)[1..];
  }

  /** Words without spaces, each followed by a space, split uniquely. */
  lemma SpaceSplit(a: string, x: string, b: string, y: string)
    requires ' ' !in a && ' ' !in b
    requires a + [' '] + x == b + [' '] + y
    ensures a == b && x == y
  {
    var w := a + [' '] + x;
    FirstSpace(a, x);
    FirstSpace(b, y);
    assert |a| == |b|;
    assert a == w[..|a|] == b;
    assert x == w[|a| + 1..] == y;
  }

  /** The first space of `a + " " + x` is the one after `a`. */
  lemma FirstSpace(a: string, x: string)
    requires ' ' !in a
    ensures (a + [' '] + x)[|a|] == ' '
    ensures forall k :: 0 <= k < |a| ==> (a + [' '] + x)[k] != ' '
  {
  }

  /** Go's `%d`: an optional minus sign, then a non-empty digit run. */
  lemma NumeralChars(v: int)
    ensures var s := Decimal.IntToString(v);
      && |s| > 0 && (s[0] == '-' || Decimal.IsDigit(s[0]))
      && (forall k :: 1 <= k < |s| ==> Decimal.IsDigit(s[k]))
  {
    Decimal.NatToStringRoundTrip(if v < 0 then -v else v);
  }

  /** In a numeral followed by a stop character, the numeral's digits run
      from index 1 to its end, and the stop character is no digit. */
  lemma NumeralThenStop(v: int, r: string)
    requires Stop(r)
    ensures var s := Decimal.IntToString(v);
      && |s| > 0
      && (forall k :: 1 <= k < |s| ==> Decimal.IsDigit((s + r)[k]))
      && (|s| < |s + r| ==> !Decimal.IsDigit((s + r)[|s|]))
  {
    NumeralChars(v);
  }

  /** A numeral followed by a stop character determines the number. */
  lemma NumeralPrefix(a: int, b: int, r1: string, r2: string)
    requires Stop(r1) && Stop(r2)
    requires Decimal.IntToString(a) + r1 == Decimal.IntToString(b) + r2
    ensures a == b && r1 == r2
  {
    var sa, sb := Decimal.IntToString(a), Decimal.IntToString(b);
    var w := sa + r1;
    NumeralThenStop(a, r1);
    NumeralThenStop(b, r2);
    assert |sa| == |sb|;
    assert sa == w[..|sa|] == sb;
    Decimal.IntToStringInjective(a, b);
    assert r1 == w[|sa|..] == r2;
  }
}
