// interp.c: the recursive evaluator of the C front end's AST. Every path
// that C leaves undefined (a null dereference, a read of an uninitialised
// local, a signed overflow, falling off the end of a non-void function) is
// `None` here.
module CInterp {
  import opened Wrappers
  import opened CTree

  /** A 32-bit signed result, or `None` when the C operation overflows. */
  function CheckedInt(x: int): (r: Option<CInt>)
    ensures r.Some? <==> -0x8000_0000 <= x < 0x8000_0000
    ensures r.Some? ==> r.value == x
  {
    if -0x8000_0000 <= x < 0x8000_0000 then Some(x) else None
  }

  /** The three cases of the switch (interp.c:11-19) applied to two known
      operands; any other operator code has no case. */
  function Apply(op: CInt, a: CInt, b: CInt): Option<CInt>
  {
    if op == A_ADD then CheckedInt(a + b)
    else if op == A_SUBTRACT then CheckedInt(a - b)
    else if op == A_MULTIPLY then CheckedInt(a * b)
    else None
  }

  /** interpretAST (interp.c:2-20) as written. A child is evaluated only
      when its link is non-null (interp.c:6-9); a null link leaves the local
      uninitialised, and `intvalue` is never read. */
  function InterpretAst(n: Ast): Option<CInt>
  {
    match n
    case Null => None
    case Node(op, l, r, _) =>
      if l != Null && InterpretAst(l).None? then None
      else if r != Null && InterpretAst(r).None? then None
      else if op != A_ADD && op != A_SUBTRACT && op != A_MULTIPLY then None
      else if l == Null || r == Null then None
      else Apply(op, InterpretAst(l).value, InterpretAst(r).value)
  }

  /** No tree has a defined value: the leftmost node has a null left link,
      so it either has no case or adds an uninitialised local, and the
      failure propagates up through every left link. */
  lemma {:induction false} EveryTreeUndefined(n: Ast)
    ensures InterpretAst(n).None?
  {
    match n
    case Null =>
    case Node(_, l, _, _) =>
      if l != Null {
        EveryTreeUndefined(l);
      }
  }

  /** In particular a leaf built by mkastleaf has no value, whatever its
      `intvalue`. */
  lemma LeafUndefined(v: CInt)
    ensures InterpretAst(MkAstLeaf(v)).None?
  {
    EveryTreeUndefined(MkAstLeaf(v));
  }

  /** The leaf the code evidently intends: operator `A_INTLIT`, whose value
      is its `intvalue`. */
  function MkIntLeaf(v: CInt): Ast
  {
    MkAstNode(A_INTLIT, Null, Null, v)
  }

  /** The evaluator with the missing `A_INTLIT` case: a literal gives its
      value, and the three arithmetic cases need both children. Division
      still has no case. */
  function Evaluate(n: Ast): Option<CInt>
  {
    match n
    case Null => None
    case Node(op, l, r, v) =>
      if op == A_INTLIT then Some(v)
      else if l == Null || r == Null then None
      else
        match (Evaluate(l), Evaluate(r))
        case (Some(a), Some(b)) => Apply(op, a, b)
        case _ => None
  }

  /** Integer expressions over literals, addition, subtraction and
      multiplication, with their meaning in unbounded integers. */
  datatype Expr = Lit(v: CInt) | Add(a: Expr, b: Expr) | Sub(a: Expr, b: Expr) | Mul(a: Expr, b: Expr)

  function Denote(e: Expr): int
  {
    match e
    case Lit(v) => v
    case Add(a, b) => Denote(a) + Denote(b)
    case Sub(a, b) => Denote(a) - Denote(b)
    case Mul(a, b) => Denote(a) * Denote(b)
  }

  /** Every subexpression's value fits in a C `int`. */
  predicate Fits(e: Expr)
  {
    -0x8000_0000 <= Denote(e) < 0x8000_0000 &&
    match e
    case Lit(_) => true
    case Add(a, b) => Fits(a) && Fits(b)
    case Sub(a, b) => Fits(a) && Fits(b)
    case Mul(a, b) => Fits(a) && Fits(b)
  }

  /** The tree the parser would build with the corrected leaf. */
  function Build(e: Expr): Ast
  {
    match e
    case Lit(v) => MkIntLeaf(v)
    case Add(a, b) => MkAstNode(A_ADD, Build(a), Build(b), 0)
    case Sub(a, b) => MkAstNode(A_SUBTRACT, Build(a), Build(b), 0)
    case Mul(a, b) => MkAstNode(A_MULTIPLY, Build(a), Build(b), 0)
  }

  /** The corrected evaluator computes the meaning of every expression
      whose intermediate values fit, and reports overflow otherwise. */
  lemma {:induction false} EvaluateBuild(e: Expr)
    ensures Evaluate(Build(e)).Some? <==> Fits(e)
    ensures Fits(e) ==> Evaluate(Build(e)) == Some(Denote(e))
  {
    match e
    case Lit(_) =>
    case Add(a, b) => EvaluateBuild(a); EvaluateBuild(b);
    case Sub(a, b) => EvaluateBuild(a); EvaluateBuild(b);
    case Mul(a, b) => EvaluateBuild(a); EvaluateBuild(b);
  }

  /** The same trees have no value under the evaluator as written. */
  lemma BuildUndefinedAsWritten(e: Expr)
    ensures InterpretAst(Build(e)).None?
    ensures Fits(e) ==> Evaluate(Build(e)) == Some(Denote(e))
  {
    EveryTreeUndefined(Build(e));
    EvaluateBuild(e);
  }
}
