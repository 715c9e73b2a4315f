// defs.h and tree.c of the C front end: the operator codes and the AST node
// with its three constructors. A node is only ever filled in once, when it
// is allocated, so the tree is modelled as a value; a null link is `Null`.
module CTree {

  /** C's 32-bit `int`. */
  type CInt = x: int | -0x8000_0000 <= x < 0x8000_0000

  /** The enumeration of defs.h:1-8, numbered from 0 as C numbers it. */
  const A_ADD: CInt := 0
  const A_SUBTRACT: CInt := 1
  const A_MULTIPLY: CInt := 2
  const A_DIVIDE: CInt := 3
  const A_INTLIT: CInt := 4

  /** struct ASTnode (defs.h:10-16), or a null pointer. */
  datatype Ast = Null | Node(op: CInt, left: Ast, right: Ast, intvalue: CInt)

  /** mkastnode (tree.c:5-20): the fields are stored exactly as given, and
      since a failed allocation ends the process, the result is never
      null. */
  function MkAstNode(op: CInt, left: Ast, right: Ast, intvalue: CInt): (n: Ast)
    ensures n != Null
    ensures n.op == op && n.left == left && n.right == right && n.intvalue == intvalue
  {
    Node(op, left, right, intvalue)
  }

  /** mkastleaf (tree.c:23-25): both links null, the given value, and the
      operator code 0, which is `A_ADD`. */
  function MkAstLeaf(intvalue: CInt): (n: Ast)
    ensures n == MkAstNode(A_ADD, Null, Null, intvalue)
  {
    MkAstNode(0, Null, Null, intvalue)
  }

  /** mkastunary (tree.c:28-30): the given left link and a null right
      link. */
  function MkAstUnary(op: CInt, left: Ast, intvalue: CInt): (n: Ast)
    ensures n == MkAstNode(op, left, Null, intvalue)
  {
    MkAstNode(op, left, Null, intvalue)
  }

  /** A leaf carries no operator of its own: it cannot be told apart from
      an addition node with two null links. */
  lemma LeafIsAddition(v: CInt)
    ensures MkAstLeaf(v).op == A_ADD && MkAstLeaf(v).op != A_INTLIT
    ensures MkAstLeaf(v).left == Null && MkAstLeaf(v).right == Null && MkAstLeaf(v).intvalue == v
  {
  }
}
