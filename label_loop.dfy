// semantic_analysis/label_loop.go: the loop-labelling pass. Every `loop`
// and `while` takes a fresh label from the pass's own generator, and every
// `break` and `continue` takes the label of its innermost enclosing loop; a
// `break` or `continue` outside any loop is an error.
//
// The source writes the labels into the nodes in place. Statements are
// pointers there, so writing into a node or rebuilding it with the new
// label is the same; the model rebuilds.
module LabelLoop {
  import opened Wrappers
  import opened GoLexer
  import opened Ast
  import opened Unique
  import Diagnostics

  const OutsideBreak := "давталтаас гадуур зогсох үйлдэл орсон байна."
  const OutsideContinue := "давталтаас гадуур үргэлжлүүлэх үйлдэл орсон байна."

  /** What `%s` makes of a nil block item. */
  const NilText := "%!s(<nil>)"

  /** The outcome of labelling a node: the labelled node, or the error that
      stopped the pass; either way, the generator's label count after it. */
  datatype Labelled<T> = Done(value: T, count: nat) | Failed(error: Diagnostics.CompilerError, count: nat)

  /** createLoopError (label_loop.go:30-32). */
  function LoopError(src: seq<int>, message: string, line: int, span: Span): Diagnostics.CompilerError
  {
    Diagnostics.New(message, line, span, src, Diagnostics.SemanticModule)
  }

  // ---------------------------------------------------------------------
  // The pass, as functions of the label count

  /** LabelStmt (label_loop.go:91-147) under the label `cur`, with the
      generator's label count at `k`. */
  function StmtSpec(src: seq<int>, cur: string, st: Stmt, k: nat): Labelled<Stmt>
    decreases st, 0
  {
    match st
    case Continue(tok, _) =>
      if cur == "" then Failed(LoopError(src, OutsideContinue, tok.line, tok.span), k)
      else Done(Continue(tok, cur), k)
    case Break(tok, _) =>
      if cur == "" then Failed(LoopError(src, OutsideBreak, tok.line, tok.span), k)
      else Done(Break(tok, cur), k)
    case Loop(tok, v, e, body, _) =>
      var id := LabelName("loop", k);
      var b := ItemsSpec(src, id, body.items, 0, k + 1);
      if b.Failed? then Failed(b.error, b.count) else Done(Loop(tok, v, e, Block(b.value), id), b.count)
    case While(tok, c, body, _) =>
      var id := LabelName("while", k);
      var b := ItemsSpec(src, id, body.items, 0, k + 1);
      if b.Failed? then Failed(b.error, b.count) else Done(While(tok, c, Block(b.value), id), b.count)
    case Compound(block) =>
      var b := ItemsSpec(src, cur, block.items, 0, k);
      if b.Failed? then Failed(b.error, b.count) else Done(Compound(Block(b.value)), b.count)
    case If(tok, c, th, el) =>
      var th' := StmtSpec(src, cur, th, k);
      if th'.Failed? then th'
      else
        var el' := StmtSpec(src, cur, el, th'.count);
        if el'.Failed? then el' else Done(If(tok, c, th'.value, el'.value), el'.count)
    case _ => Done(st, k)
  }

  /** LabelBlockItem (label_loop.go:72-89): a declaration is left as it
      is, and a nil item is an error reported at line 1. */
  function ItemSpec(src: seq<int>, cur: string, item: BlockItem, k: nat): Labelled<BlockItem>
    decreases item, 0
  {
    match item
    case StmtItem(st) =>
      var r := StmtSpec(src, cur, st, k);
      if r.Failed? then Failed(r.error, r.count) else Done(StmtItem(r.value), r.count)
    case DeclItem(_) => Done(item, k)
    case NilItem => Failed(LoopError(src, Diagnostics.UnknownExpression(NilText), 1, Span(0, 0)), k)
  }

  /** Puts the already labelled nodes `p` in front of the rest. */
  function Prepend<T>(p: seq<T>, o: Labelled<seq<T>>): Labelled<seq<T>>
  {
    match o
    case Done(rest, k) => Done(p + rest, k)
    case Failed(e, k) => Failed(e, k)
  }

  lemma PrependNothing<T>(o: Labelled<seq<T>>)
    ensures Prepend([], o) == o
  {
    if o.Done? {
      assert [] + o.value == o.value;
    }
  }

  lemma PrependTwice<T>(p: seq<T>, q: seq<T>, o: Labelled<seq<T>>)
    ensures Prepend(p, Prepend(q, o)) == Prepend(p + q, o)
  {
    if o.Done? {
      assert p + (q + o.value) == (p + q) + o.value;
    }
  }

  /** LabelBlock (label_loop.go:62-70) from item `i`: the items in order,
      stopping at the first error. */
  function ItemsSpec(src: seq<int>, cur: string, items: seq<BlockItem>, i: nat, k: nat): Labelled<seq<BlockItem>>
    requires i <= |items|
    decreases items, |items| - i
  {
    if i == |items| then Done([], k)
    else
      var r := ItemSpec(src, cur, items[i], k);
      if r.Failed? then Failed(r.error, r.count)
      else Prepend([r.value], ItemsSpec(src, cur, items, i + 1, r.count))
  }

  /** LabelFnDecl (label_loop.go:50-60): a body is labelled under the empty
      label, so a jump in it outside any loop is an error. */
  function FnDeclSpec(src: seq<int>, d: Decl, k: nat): Labelled<Decl>
    requires d.FnDecl?
  {
    if d.body.None? then Done(d, k)
    else
      var b := ItemsSpec(src, "", d.body.value.items, 0, k);
      if b.Failed? then Failed(b.error, b.count)
      else Done(FnDecl(d.token, d.ident, d.isPublic, d.isExtern, d.params, d.returnType, Some(Block(b.value))), b.count)
  }

  /** The loop of LabelLoops (label_loop.go:34-48) from declaration `i`:
      only function declarations are visited. */
  function DeclsSpec(src: seq<int>, ds: seq<Decl>, i: nat, k: nat): Labelled<seq<Decl>>
    requires i <= |ds|
    decreases |ds| - i
  {
    if i == |ds| then Done([], k)
    else
      var r := if ds[i].FnDecl? then FnDeclSpec(src, ds[i], k) else Done(ds[i], k);
      if r.Failed? then Failed(r.error, r.count)
      else Prepend([r.value], DeclsSpec(src, ds, i + 1, r.count))
  }

  /** LabelLoops. */
  function LabelLoopsSpec(src: seq<int>, p: Program, k: nat): Labelled<Program>
  {
    var r := DeclsSpec(src, p.decls, 0, k);
    if r.Failed? then Failed(r.error, r.count) else Done(Program(r.value), r.count)
  }

  // ---------------------------------------------------------------------
  // When the pass succeeds

  /** No `break` or `continue` stands outside a loop unless `inLoop`, and
      no block item is nil. */
  predicate Labellable(inLoop: bool, st: Stmt)
    decreases st, 0
  {
    match st
    case Continue(_, _) => inLoop
    case Break(_, _) => inLoop
    case Loop(_, _, _, body, _) => ItemsLabellable(true, body.items, 0)
    case While(_, _, body, _) => ItemsLabellable(true, body.items, 0)
    case Compound(block) => ItemsLabellable(inLoop, block.items, 0)
    case If(_, _, th, el) => Labellable(inLoop, th) && Labellable(inLoop, el)
    case _ => true
  }

  predicate ItemLabellable(inLoop: bool, item: BlockItem)
    decreases item, 0
  {
    match item
    case StmtItem(st) => Labellable(inLoop, st)
    case DeclItem(_) => true
    case NilItem => false
  }

  predicate ItemsLabellable(inLoop: bool, items: seq<BlockItem>, i: nat)
    requires i <= |items|
    decreases items, |items| - i
  {
    i == |items| || (ItemLabellable(inLoop, items[i]) && ItemsLabellable(inLoop, items, i + 1))
  }

  /** Every label the generator issues is non-empty. */
  lemma LabelNameNonEmpty(prefix: string, k: nat)
    ensures LabelName(prefix, k) != ""
  {
    assert |LabelName(prefix, k)| >= 1;
  }

  /** Labelling fails exactly when a `break` or `continue` stands outside
      every loop, or a block item is nil; the label count never goes back. */
  lemma {:induction false} StmtSucceedsIff(src: seq<int>, cur: string, st: Stmt, k: nat)
    ensures StmtSpec(src, cur, st, k).Done? <==> Labellable(cur != "", st)
    ensures StmtSpec(src, cur, st, k).count >= k
    decreases st, 0
  {
    match st
    case Loop(_, _, _, body, _) =>
      LabelNameNonEmpty("loop", k);
      ItemsSucceedIff(src, LabelName("loop", k), body.items, 0, k + 1);
    case While(_, _, body, _) =>
      LabelNameNonEmpty("while", k);
      ItemsSucceedIff(src, LabelName("while", k), body.items, 0, k + 1);
    case Compound(block) =>
      ItemsSucceedIff(src, cur, block.items, 0, k);
    case If(_, _, th, el) =>
      StmtSucceedsIff(src, cur, th, k);
      var th' := StmtSpec(src, cur, th, k);
      if th'.Done? {
        StmtSucceedsIff(src, cur, el, th'.count);
      }
    case _ =>
  }

  lemma {:induction false} ItemSucceedsIff(src: seq<int>, cur: string, item: BlockItem, k: nat)
    ensures ItemSpec(src, cur, item, k).Done? <==> ItemLabellable(cur != "", item)
    ensures ItemSpec(src, cur, item, k).count >= k
    decreases item, 0
  {
    if item.StmtItem? {
      StmtSucceedsIff(src, cur, item.stmt, k);
    }
  }

  lemma {:induction false} ItemsSucceedIff(src: seq<int>, cur: string, items: seq<BlockItem>, i: nat, k: nat)
    requires i <= |items|
    ensures ItemsSpec(src, cur, items, i, k).Done? <==> ItemsLabellable(cur != "", items, i)
    ensures ItemsSpec(src, cur, items, i, k).count >= k
    decreases items, |items| - i
  {
    if i < |items| {
      ItemSucceedsIff(src, cur, items[i], k);
      var r := ItemSpec(src, cur, items[i], k);
      if r.Done? {
        ItemsSucceedIff(src, cur, items, i + 1, r.count);
      }
    }
  }

  /** The whole pass fails exactly when some function body holds a jump
      outside every loop or a nil item. */
  lemma {:induction false} DeclsSucceedIff(src: seq<int>, ds: seq<Decl>, i: nat, k: nat)
    requires i <= |ds|
    ensures DeclsSpec(src, ds, i, k).Done? <==>
      forall j :: i <= j < |ds| && ds[j].FnDecl? && ds[j].body.Some? ==> ItemsLabellable(false, ds[j].body.value.items, 0)
    decreases |ds| - i
  {
    if i < |ds| {
      var d := ds[i];
      if d.FnDecl? && d.body.Some? {
        ItemsSucceedIff(src, "", d.body.value.items, 0, k);
      }
      var r := if d.FnDecl? then FnDeclSpec(src, d, k) else Done(d, k);
      if r.Done? {
        DeclsSucceedIff(src, ds, i + 1, r.count);
      }
    }
  }

  // ---------------------------------------------------------------------
  // What the labels are

  /** Every `break` and `continue` carries `cur`, the label of its
      innermost enclosing loop, and every loop's own label is the one its
      body's jumps carry. */
  predicate JumpsCarry(cur: string, st: Stmt)
    decreases st, 0
  {
    match st
    case Continue(_, id) => id == cur
    case Break(_, id) => id == cur
    case Loop(_, _, _, body, id) => ItemsCarry(id, body.items, 0)
    case While(_, _, body, id) => ItemsCarry(id, body.items, 0)
    case Compound(block) => ItemsCarry(cur, block.items, 0)
    case If(_, _, th, el) => JumpsCarry(cur, th) && JumpsCarry(cur, el)
    case _ => true
  }

  predicate ItemCarries(cur: string, item: BlockItem)
    decreases item, 0
  {
    match item
    case StmtItem(st) => JumpsCarry(cur, st)
    case _ => true
  }

  predicate ItemsCarry(cur: string, items: seq<BlockItem>, i: nat)
    requires i <= |items|
    decreases items, |items| - i
  {
    i == |items| || (ItemCarries(cur, items[i]) && ItemsCarry(cur, items, i + 1))
  }

  /** A statement with every label erased. */
  function Unlabelled(st: Stmt): Stmt
    decreases st, 0
  {
    match st
    case Continue(tok, _) => Continue(tok, "")
    case Break(tok, _) => Break(tok, "")
    case Loop(tok, v, e, body, _) => Loop(tok, v, e, Block(ItemsUnlabelled(body.items, 0)), "")
    case While(tok, c, body, _) => While(tok, c, Block(ItemsUnlabelled(body.items, 0)), "")
    case Compound(block) => Compound(Block(ItemsUnlabelled(block.items, 0)))
    case If(tok, c, th, el) => If(tok, c, Unlabelled(th), Unlabelled(el))
    case _ => st
  }

  function ItemUnlabelled(item: BlockItem): BlockItem
    decreases item, 0
  {
    match item
    case StmtItem(st) => StmtItem(Unlabelled(st))
    case _ => item
  }

  function ItemsUnlabelled(items: seq<BlockItem>, i: nat): seq<BlockItem>
    requires i <= |items|
    decreases items, |items| - i
  {
    if i == |items| then [] else [ItemUnlabelled(items[i])] + ItemsUnlabelled(items, i + 1)
  }

  /** The labels of the loops and whiles, in the order the pass meets them:
      a loop before the loops in its body. */
  function LoopLabels(st: Stmt): seq<string>
    decreases st, 0
  {
    match st
    case Loop(_, _, _, body, id) => [id] + ItemsLoopLabels(body.items, 0)
    case While(_, _, body, id) => [id] + ItemsLoopLabels(body.items, 0)
    case Compound(block) => ItemsLoopLabels(block.items, 0)
    case If(_, _, th, el) => LoopLabels(th) + LoopLabels(el)
    case _ => []
  }

  function ItemLoopLabels(item: BlockItem): seq<string>
    decreases item, 0
  {
    match item
    case StmtItem(st) => LoopLabels(st)
    case _ => []
  }

  function ItemsLoopLabels(items: seq<BlockItem>, i: nat): seq<string>
    requires i <= |items|
    decreases items, |items| - i
  {
    if i == |items| then [] else ItemLoopLabels(items[i]) + ItemsLoopLabels(items, i + 1)
  }

  /** A label the pass issues at count `n`. */
  predicate IssuedAt(name: string, n: nat)
  {
    name == LabelName("loop", n) || name == LabelName("while", n)
  }

  /** The labels issued from count `k` on: label `j` was issued at `k + j`. */
  predicate IssuedFrom(labels: seq<string>, k: nat)
  {
    forall j :: 0 <= j < |labels| ==> IssuedAt(labels[j], k + j)
  }

  lemma IssuedFromAppend(a: seq<string>, b: seq<string>, k: nat)
    requires IssuedFrom(a, k) && IssuedFrom(b, k + |a|)
    ensures IssuedFrom(a + b, k)
  {
    forall j | 0 <= j < |a + b|
      ensures IssuedAt((a + b)[j], k + j)
    {
      if j < |a| {
        assert (a + b)[j] == a[j];
      } else {
        assert (a + b)[j] == b[j - |a|];
        assert IssuedAt(b[j - |a|], k + |a| + (j - |a|));
      }
    }
  }

  /** Labels issued from consecutive counts are pairwise distinct. */
  lemma IssuedDistinct(labels: seq<string>, k: nat)
    requires IssuedFrom(labels, k)
    ensures forall i, j :: 0 <= i < j < |labels| ==> labels[i] != labels[j]
  {
    forall i, j | 0 <= i < j < |labels|
      ensures labels[i] != labels[j]
    {
      assert IssuedAt(labels[i], k + i) && IssuedAt(labels[j], k + j);
      var p := if labels[i] == LabelName("loop", k + i) then "loop" else "while";
      var q := if labels[j] == LabelName("loop", k + j) then "loop" else "while";
      LabelNameInjective(p, k + i, q, k + j);
    }
  }

  /** On success the labelled statement differs from the input in its
      labels only; every jump carries the label of its innermost loop; and
      the loops' labels are "loop.N" and "while.N" with N running through
      the counts from `k`, one per loop, so no two are the same. */
  lemma {:induction false} StmtLabels(src: seq<int>, cur: string, st: Stmt, k: nat)
    requires StmtSpec(src, cur, st, k).Done?
    ensures var r := StmtSpec(src, cur, st, k);
      && Unlabelled(r.value) == Unlabelled(st)
      && JumpsCarry(cur, r.value)
      && r.count == k + |LoopLabels(r.value)|
      && IssuedFrom(LoopLabels(r.value), k)
    decreases st, 0
  {
    match st
    case Loop(tok, v, e, body, _) =>
      var id := LabelName("loop", k);
      ItemsLabels(src, id, body.items, 0, k + 1);
      var b := ItemsSpec(src, id, body.items, 0, k + 1);
      assert IssuedFrom([id], k);
      IssuedFromAppend([id], ItemsLoopLabels(b.value, 0), k);
    case While(tok, c, body, _) =>
      var id := LabelName("while", k);
      ItemsLabels(src, id, body.items, 0, k + 1);
      var b := ItemsSpec(src, id, body.items, 0, k + 1);
      assert IssuedFrom([id], k);
      IssuedFromAppend([id], ItemsLoopLabels(b.value, 0), k);
    case Compound(block) =>
      ItemsLabels(src, cur, block.items, 0, k);
    case If(tok, c, th, el) =>
      StmtLabels(src, cur, th, k);
      var th' := StmtSpec(src, cur, th, k);
      StmtLabels(src, cur, el, th'.count);
      var el' := StmtSpec(src, cur, el, th'.count);
      IssuedFromAppend(LoopLabels(th'.value), LoopLabels(el'.value), k);
    case _ =>
  }

  lemma {:induction false} ItemLabels(src: seq<int>, cur: string, item: BlockItem, k: nat)
    requires ItemSpec(src, cur, item, k).Done?
    ensures var r := ItemSpec(src, cur, item, k);
      && ItemUnlabelled(r.value) == ItemUnlabelled(item)
      && ItemCarries(cur, r.value)
      && r.count == k + |ItemLoopLabels(r.value)|
      && IssuedFrom(ItemLoopLabels(r.value), k)
    decreases item, 0
  {
    if item.StmtItem? {
      StmtLabels(src, cur, item.stmt, k);
    }
  }

  lemma {:induction false} ItemsLabels(src: seq<int>, cur: string, items: seq<BlockItem>, i: nat, k: nat)
    requires i <= |items| && ItemsSpec(src, cur, items, i, k).Done?
    ensures var r := ItemsSpec(src, cur, items, i, k);
      && ItemsUnlabelled(r.value, 0) == ItemsUnlabelled(items, i)
      && ItemsCarry(cur, r.value, 0)
      && r.count == k + |ItemsLoopLabels(r.value, 0)|
      && IssuedFrom(ItemsLoopLabels(r.value, 0), k)
    decreases items, |items| - i
  {
    if i < |items| {
      ItemLabels(src, cur, items[i], k);
      var h := ItemSpec(src, cur, items[i], k);
      ItemsLabels(src, cur, items, i + 1, h.count);
      var t := ItemsSpec(src, cur, items, i + 1, h.count);
      var out := [h.value] + t.value;
      ItemsShift(cur, h.value, t.value);
      IssuedFromAppend(ItemLoopLabels(h.value), ItemsLoopLabels(t.value, 0), k);
    }
  }

  /** The three folds over `[x] + rest` from index 0 split at its head. */
  lemma ItemsShift(cur: string, x: BlockItem, rest: seq<BlockItem>)
    ensures ItemsUnlabelled([x] + rest, 0) == [ItemUnlabelled(x)] + ItemsUnlabelled(rest, 0)
    ensures ItemsCarry(cur, [x] + rest, 0) <==> ItemCarries(cur, x) && ItemsCarry(cur, rest, 0)
    ensures ItemsLoopLabels([x] + rest, 0) == ItemLoopLabels(x) + ItemsLoopLabels(rest, 0)
  {
    ItemsFromOne(x, rest, 0);
  }

  lemma {:induction false} ItemsFromOne(x: BlockItem, rest: seq<BlockItem>, i: nat)
    requires i <= |rest|
    ensures ItemsUnlabelled([x] + rest, i + 1) == ItemsUnlabelled(rest, i)
    ensures forall cur :: ItemsCarry(cur, [x] + rest, i + 1) <==> ItemsCarry(cur, rest, i)
    ensures ItemsLoopLabels([x] + rest, i + 1) == ItemsLoopLabels(rest, i)
    decreases |rest| - i
  {
    assert ([x] + rest)[i + 1..] == rest[i..];
    if i < |rest| {
      assert ([x] + rest)[i + 1] == rest[i];
      ItemsFromOne(x, rest, i + 1);
    }
  }

  // ---------------------------------------------------------------------
  // The pass, in the source's form

  class LoopPass {
    const source: seq<int>
    const uniqueGen: UniqueGen
    var currentId: string

    /** NewLoopPass (label_loop.go:23-28): a fresh generator. */
    constructor (source: seq<int>)
      ensures this.source == source && fresh(uniqueGen)
      ensures uniqueGen.labelCount == 0 && uniqueGen.tempCount == 0 && currentId == ""
    {
      this.source := source;
      uniqueGen := new UniqueGen();
      currentId := "";
    }

    /** LabelLoops (label_loop.go:34-48): the function declarations are
        labelled and replaced in place, up to the first error. */
    method LabelLoops(p: Program) returns (r: Labelled<Program>)
      modifies uniqueGen
      ensures r == LabelLoopsSpec(source, p, old(uniqueGen.labelCount))
      ensures uniqueGen.labelCount == r.count && uniqueGen.tempCount == old(uniqueGen.tempCount)
    {
      ghost var k0 := uniqueGen.labelCount;
      var decls := p.decls;
      var i := 0;
      PrependNothing(DeclsSpec(source, p.decls, 0, k0));
      while i < |p.decls|
        invariant i <= |p.decls| == |decls| && uniqueGen.tempCount == old(uniqueGen.tempCount)
        invariant DeclsSpec(source, p.decls, 0, k0)
          == Prepend(decls[..i], DeclsSpec(source, p.decls, i, uniqueGen.labelCount))
        invariant decls[i..] == p.decls[i..]
        decreases |p.decls| - i
      {
        var d := p.decls[i];
        if d.FnDecl? {
          var fd := LabelFnDecl(d);
          if fd.Failed? {
            return Failed(fd.error, fd.count);
          }
          d := fd.value;
        }
        PrependTwice(decls[..i], [d], DeclsSpec(source, p.decls, i + 1, uniqueGen.labelCount));
        decls := decls[i := d];
        assert decls[..i + 1] == decls[..i] + [d];
        i := i + 1;
      }
      assert decls[..i] + [] == decls;
      return Done(Program(decls), uniqueGen.labelCount);
    }

    /** LabelFnDecl (label_loop.go:50-60). */
    method LabelFnDecl(d: Decl) returns (r: Labelled<Decl>)
      requires d.FnDecl?
      modifies uniqueGen
      ensures r == FnDeclSpec(source, d, old(uniqueGen.labelCount))
      ensures uniqueGen.labelCount == r.count && uniqueGen.tempCount == old(uniqueGen.tempCount)
    {
      if d.body.None? {
        return Done(d, uniqueGen.labelCount);
      }
      var b := LabelBlock("", d.body.value);
      if b.Failed? {
        return Failed(b.error, b.count);
      }
      return Done(FnDecl(d.token, d.ident, d.isPublic, d.isExtern, d.params, d.returnType, Some(Block(b.value))), b.count);
    }

    /** LabelBlock (label_loop.go:62-70): each item is labelled in place,
        up to the first error. */
    method LabelBlock(cur: string, b: Block) returns (r: Labelled<seq<BlockItem>>)
      modifies uniqueGen
      ensures r == ItemsSpec(source, cur, b.items, 0, old(uniqueGen.labelCount))
      ensures uniqueGen.labelCount == r.count && uniqueGen.tempCount == old(uniqueGen.tempCount)
      decreases b, 0
    {
      ghost var k0 := uniqueGen.labelCount;
      var items := b.items;
      var i := 0;
      PrependNothing(ItemsSpec(source, cur, b.items, 0, k0));
      while i < |b.items|
        invariant i <= |b.items| == |items| && uniqueGen.tempCount == old(uniqueGen.tempCount)
        invariant ItemsSpec(source, cur, b.items, 0, k0)
          == Prepend(items[..i], ItemsSpec(source, cur, b.items, i, uniqueGen.labelCount))
        decreases |b.items| - i
      {
        var it := LabelBlockItem(cur, b.items[i]);
        if it.Failed? {
          return Failed(it.error, it.count);
        }
        PrependTwice(items[..i], [it.value], ItemsSpec(source, cur, b.items, i + 1, uniqueGen.labelCount));
        items := items[i := it.value];
        assert items[..i + 1] == items[..i] + [it.value];
        i := i + 1;
      }
      assert items[..i] + [] == items;
      return Done(items, uniqueGen.labelCount);
    }

    /** LabelBlockItem (label_loop.go:72-89). */
    method LabelBlockItem(cur: string, item: BlockItem) returns (r: Labelled<BlockItem>)
      modifies uniqueGen
      ensures r == ItemSpec(source, cur, item, old(uniqueGen.labelCount))
      ensures uniqueGen.labelCount == r.count && uniqueGen.tempCount == old(uniqueGen.tempCount)
      decreases item, 0
    {
      match item
      case StmtItem(st) =>
        var s := LabelStmt(cur, st);
        if s.Failed? {
          return Failed(s.error, s.count);
        }
        return Done(StmtItem(s.value), s.count);
      case DeclItem(_) =>
        return Done(item, uniqueGen.labelCount);
      case NilItem =>
        return Failed(LoopError(source, Diagnostics.UnknownExpression(NilText), 1, Span(0, 0)), uniqueGen.labelCount);
    }

    /** LabelStmt (label_loop.go:91-147). A `loop` takes its label from
        the generator before its body is labelled, and records it after; a
        `while` records it before. */
    method LabelStmt(cur: string, st: Stmt) returns (r: Labelled<Stmt>)
      modifies uniqueGen
      ensures r == StmtSpec(source, cur, st, old(uniqueGen.labelCount))
      ensures uniqueGen.labelCount == r.count && uniqueGen.tempCount == old(uniqueGen.tempCount)
      decreases st, 0
    {
      match st
      case Continue(tok, _) =>
        if cur == "" {
          return Failed(LoopError(source, OutsideContinue, tok.line, tok.span), uniqueGen.labelCount);
        }
        return Done(Continue(tok, cur), uniqueGen.labelCount);
      case Break(tok, _) =>
        if cur == "" {
          return Failed(LoopError(source, OutsideBreak, tok.line, tok.span), uniqueGen.labelCount);
        }
        return Done(Break(tok, cur), uniqueGen.labelCount);
      case Loop(tok, v, e, body, _) =>
        var newId := uniqueGen.MakeLabel("loop");
        var b := LabelBlock(newId, body);
        if b.Failed? {
          return Failed(b.error, b.count);
        }
        return Done(Loop(tok, v, e, Block(b.value), newId), b.count);
      case While(tok, c, body, _) =>
        var newId := uniqueGen.MakeLabel("while");
        var b := LabelBlock(newId, body);
        if b.Failed? {
          return Failed(b.error, b.count);
        }
        return Done(While(tok, c, Block(b.value), newId), b.count);
      case Compound(block) =>
        var b := LabelBlock(cur, block);
        if b.Failed? {
          return Failed(b.error, b.count);
        }
        return Done(Compound(Block(b.value)), b.count);
      case If(tok, c, th, el) =>
        var th' := LabelStmt(cur, th);
        if th'.Failed? {
          return th';
        }
        var el' := LabelStmt(cur, el);
        if el'.Failed? {
          return el';
        }
        return Done(If(tok, c, th'.value, el'.value), el'.count);
      case NilStmt => return Done(st, uniqueGen.labelCount);
      case ExpressionStmt(_) => return Done(st, uniqueGen.labelCount);
      case Return(_, _) => return Done(st, uniqueGen.labelCount);
    }
  }
}
