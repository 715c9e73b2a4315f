// code_gen/fixup.go: rewrites instructions whose operand combination x86-64
// cannot encode (two memory operands, an immediate that does not fit in a
// sign-extended 32-bit field, an immediate divisor or comparison
// destination) through the scratch registers R10 and R11, and prepends the
// stack allocation to every function.
module FixUp {
  import opened Wrappers
  import opened MTypes
  import opened AsmAst
  import Symbols
  import Rounding

  /** isLarge (fixup.go:19-22). */
  function IsLarge(i: int): (b: bool)
    ensures b <==> !InInt32(i)
  {
    i > 0x7fffffff || i < -0x80000000
  }

  /** `v & 0xffffffff` on a two's-complement int64 (fixup.go:52). */
  function LowWord(v: int): (r: int)
    ensures 0 <= r < TWO32
    ensures (r - v) % TWO32 == 0
  {
    v % 0x1_0000_0000
  }

  /** FixUpInInstruction (fixup.go:24-310). `Panic` is the failed type
      assertion of fixup.go:152: an Add or Sub whose type is not QuadWord. */
  function FixUpInInstruction(instr: Instr): Result<seq<Instr>>
  {
    match instr
    case Mov(t, src, dst) =>
      if t == QuadWord && src.Imm? && IsLarge(src.value) then
        Ok([Mov(QuadWord, src, Reg(R10)), Mov(QuadWord, Reg(R10), dst)])
      else if t == LongWord && src.Imm? && IsLarge(src.value) then
        Ok([Mov(LongWord, Imm(LowWord(src.value)), dst)])
      else if src.Stack? && dst.Stack? then
        Ok([Mov(t, src, Reg(R10)), Mov(t, Reg(R10), dst)])
      else Ok([instr])
    case MovSx(src, dst) =>
      if src.Imm? then
        if dst.Stack? then
          Ok([Mov(LongWord, src, Reg(R10)), MovSx(Reg(R10), Reg(R11)), Mov(QuadWord, Reg(R11), dst)])
        else
          Ok([Mov(LongWord, src, Reg(R10)), MovSx(Reg(R10), dst)])
      else if dst.Stack? then
        Ok([MovSx(src, Reg(R11)), Mov(QuadWord, Reg(R11), dst)])
      else Ok([instr])
    case Idiv(t, src) =>
      if src.Imm? then Ok([Mov(t, src, Reg(R10)), Idiv(t, Reg(R10))]) else Ok([instr])
    case Binary(op, t, src, dst) =>
      if (op == Add || op == Sub) && t != QuadWord then
        Panic("interface conversion: asmtype.AsmType is not *asmtype.QuadWord")
      else if (op == Add || op == Sub) && src.Imm? && IsLarge(src.value) then
        Ok([Mov(QuadWord, src, Reg(R10)), Binary(op, QuadWord, Reg(R10), dst)])
      else if (op == Add || op == Sub) && src.Stack? && dst.Stack? then
        Ok([Mov(t, src, Reg(R10)), Binary(op, t, Reg(R10), dst)])
      else if op == Mult && dst.Stack? then
        Ok([Mov(t, dst, Reg(R11)), Binary(Mult, t, src, Reg(R11)), Mov(t, Reg(R11), dst)])
      else Ok([instr])
    case Cmp(t, src, dst) =>
      if src.Stack? && dst.Stack? then
        Ok([Mov(t, src, Reg(R10)), Cmp(t, Reg(R10), dst)])
      else if src.Imm? && dst.Imm? && t == QuadWord && IsLarge(src.value) then
        Ok([Mov(QuadWord, src, Reg(R10)), Mov(QuadWord, dst, Reg(R11)), Cmp(QuadWord, Reg(R10), Reg(R11))])
      else if src.Imm? && t == QuadWord && IsLarge(src.value) then
        Ok([Mov(QuadWord, src, Reg(R10)), Cmp(QuadWord, Reg(R10), dst)])
      else if dst.Imm? then
        Ok([Mov(t, dst, Reg(R11)), Cmp(t, src, Reg(R11))])
      else Ok([instr])
    case Push(o) =>
      if o.Imm? && IsLarge(o.value) then Ok([Mov(QuadWord, o, Reg(R10)), Push(Reg(R10))]) else Ok([instr])
    case _ => Ok([instr])
  }

  /** The operand combinations the fix-up pass leaves. This is what the
      code enforces, not the whole x86-64 encoding rule: a large immediate
      may stay as the source of `imul`, of a LongWord or untyped compare and
      of an untyped move (see LargeImmediatesKept). */
  predicate Legal(i: Instr)
  {
    match i
    case Mov(t, s, d) =>
      && !(s.Stack? && d.Stack?)
      && (t == QuadWord && s.Imm? && IsLarge(s.value) ==> d.Reg?)
    case Cmp(t, s, d) =>
      && !(s.Stack? && d.Stack?)
      && !d.Imm?
      && (t == QuadWord && s.Imm? ==> !IsLarge(s.value))
    case Binary(op, t, s, d) =>
      && (op == Add || op == Sub ==> t == QuadWord && !(s.Stack? && d.Stack?) && (s.Imm? ==> !IsLarge(s.value)))
      && (op == Mult ==> !d.Stack?)
    case Idiv(_, s) => !s.Imm?
    case MovSx(s, d) => !s.Imm? && !d.Stack?
    case Push(o) => !(o.Imm? && IsLarge(o.value))
    case _ => true
  }

  predicate AllLegal(s: seq<Instr>) { forall k :: 0 <= k < |s| ==> Legal(s[k]) }

  /** Every instruction the pass emits satisfies Legal: no memory-to-memory
      pair, no immediate divisor or comparison destination, and no large
      immediate in a quadword move to memory, a quadword compare, an add,
      a subtract or a push. */
  lemma FixUpIsLegal(instr: Instr)
    requires FixUpInInstruction(instr).Ok?
    ensures AllLegal(FixUpInInstruction(instr).value)
  {
  }

  /** The large immediates the pass lets through unchanged, although
      x86-64 has no 64-bit immediate form for them: the source of `imul`,
      of a LongWord or untyped compare, and of an untyped move to memory. */
  lemma LargeImmediatesKept()
    ensures var big := Imm(0x1_0000_0000);
      && IsLarge(big.value)
      && FixUpInInstruction(Binary(Mult, QuadWord, big, Reg(AX))) == Ok([Binary(Mult, QuadWord, big, Reg(AX))])
      && FixUpInInstruction(Cmp(LongWord, big, Reg(AX))) == Ok([Cmp(LongWord, big, Reg(AX))])
      && FixUpInInstruction(Cmp(NoType, big, Reg(AX))) == Ok([Cmp(NoType, big, Reg(AX))])
      && FixUpInInstruction(Mov(NoType, big, Stack(-8))) == Ok([Mov(NoType, big, Stack(-8))])
  {
  }

  /** An Add or Sub of any type but QuadWord panics: with the emitter's
      LongWord arithmetic every `int` addition reaches this panic. */
  lemma LongWordAddPanics(src: Operand, dst: Operand)
    ensures FixUpInInstruction(Binary(Add, LongWord, src, dst)).Panic?
    ensures FixUpInInstruction(Binary(Sub, NoType, src, dst)).Panic?
  {
  }

  /** A wide LongWord immediate keeps its low 32 bits. */
  lemma LongWordMoveKeepsLowBits(v: int, dst: Operand)
    requires IsLarge(v)
    ensures FixUpInInstruction(Mov(LongWord, Imm(v), dst)) == Ok([Mov(LongWord, Imm(v % TWO32), dst)])
  {
  }

  /** An instruction already legal and free of the cases the pass rewrites
      comes back alone and unchanged. */
  lemma LegalUnchanged(instr: Instr)
    requires Legal(instr)
    requires instr.Mov? ==> !(instr.src.Imm? && IsLarge(instr.src.value))
    requires instr.Binary? && (instr.binop == Add || instr.binop == Sub) ==> instr.typ == QuadWord
    ensures FixUpInInstruction(instr) == Ok([instr])
  {
  }

  /** The registers the pass adds are the scratch registers only. */
  lemma FixUpUsesScratchOnly(instr: Instr)
    requires FixUpInInstruction(instr).Ok?
    ensures forall k, r ::
      (0 <= k < |FixUpInInstruction(instr).value| && r in InstrRegs(FixUpInInstruction(instr).value[k]))
      ==> (r in InstrRegs(instr) || r == R10 || r == R11)
  {
  }

  /** The stack allocation of FixUpInFn (fixup.go:313-321). */
  function AllocStack(frameSize: int): Instr
  {
    Binary(Sub, QuadWord, Imm(Rounding.RoundAwayFromZero(16, frameSize)), Reg(SP))
  }

  /** The allocation is the least multiple of 16 covering the frame, so
      RSP stays 16-byte aligned as section 3.2.2 of the System V AMD64
      psABI requires. */
  lemma AllocStackAligned(frameSize: nat)
    ensures var a := AllocStack(frameSize).src.value;
      a % 16 == 0 && frameSize <= a < frameSize + 16
  {
    Rounding.RoundAwayFromZeroIsNextMultiple(16, frameSize);
  }

  /** The fixed instructions of a body, failing at the first panic. */
  function FixAll(irs: seq<Instr>): Result<seq<Instr>>
  {
    if irs == [] then Ok([])
    else
      var h := FixUpInInstruction(irs[0]);
      if !h.Ok? then h
      else
        var t := FixAll(irs[1..]);
        if !t.Ok? then t else Ok(h.value + t.value)
  }

  lemma {:induction false} FixAllLegal(irs: seq<Instr>)
    requires FixAll(irs).Ok?
    ensures AllLegal(FixAll(irs).value)
  {
    if irs != [] {
      FixUpIsLegal(irs[0]);
      FixAllLegal(irs[1..]);
      var h := FixUpInInstruction(irs[0]).value;
      var t := FixAll(irs[1..]).value;
      assert FixAll(irs).value == h + t;
      forall k | 0 <= k < |h + t| ensures Legal((h + t)[k]) {
        if k < |h| { assert (h + t)[k] == h[k]; } else { assert (h + t)[k] == t[k - |h|]; }
      }
    }
  }

  /** FixUpInFn (fixup.go:312-333) on the frame size it reads; `None` in
      the table is the nil entry the source dereferences. */
  function FixUpFn(fn: FnDef, entry: Option<Symbols.Entry>): Result<FnDef>
  {
    if entry.None? then Panic("nil pointer dereference")
    else
      var body := FixAll(fn.irs);
      if !body.Ok? then body.PropagateFailure()
      else Ok(FnDef(fn.ident, [AllocStack(entry.value.stackFrameSize)] + body.value))
  }

  /** A fixed function starts with the aligned allocation and is legal after it. */
  lemma FixUpFnShape(fn: FnDef, entry: Option<Symbols.Entry>)
    requires FixUpFn(fn, entry).Ok?
    ensures var r := FixUpFn(fn, entry).value;
      && r.ident == fn.ident
      && |r.irs| >= 1
      && r.irs[0] == AllocStack(entry.value.stackFrameSize)
      && AllLegal(r.irs[1..])
  {
    FixAllLegal(fn.irs);
    assert FixUpFn(fn, entry).value.irs[1..] == FixAll(fn.irs).value;
  }

  /** FixUpInFn (fixup.go:312-333): the allocation, then each instruction's
      fix-up in order. */
  method FixUpInFn(fn: FnDef, symbolTable: Symbols.SymbolTable) returns (r: Result<FnDef>)
    ensures r == FixUpFn(fn, symbolTable.Get(fn.ident))
  {
    var entry := symbolTable.Get(fn.ident);
    if entry.None? {
      return Panic("nil pointer dereference");
    }
    var fixedInstructions := [AllocStack(entry.value.stackFrameSize)];
    var i := 0;
    assert fn.irs[0..] == fn.irs;
    assert Prepend([], FixAll(fn.irs)) == FixAll(fn.irs) by {
      if FixAll(fn.irs).Ok? { assert [] + FixAll(fn.irs).value == FixAll(fn.irs).value; }
    }
    ghost var body := [];
    while i < |fn.irs|
      invariant 0 <= i <= |fn.irs|
      invariant fixedInstructions == [AllocStack(entry.value.stackFrameSize)] + body
      invariant FixAll(fn.irs) == Prepend(body, FixAll(fn.irs[i..]))
    {
      assert fn.irs[i..][1..] == fn.irs[i + 1..];
      var fixed := FixUpInInstruction(fn.irs[i]);
      if !fixed.Ok? {
        return fixed.PropagateFailure();
      }
      PrependStep(body, fixed.value, FixAll(fn.irs[i + 1..]));
      fixedInstructions := fixedInstructions + fixed.value;
      body := body + fixed.value;
      i := i + 1;
    }
    assert fn.irs[i..] == [];
    assert body + [] == body;
    return Ok(FnDef(fn.ident, fixedInstructions));
  }

  /** FixUpProgram (fixup.go:335-341) over the frame sizes in the table. */
  function FixUpFns(fns: seq<FnDef>, entries: map<string, Symbols.Entry>): Result<seq<FnDef>>
  {
    if fns == [] then Ok([])
    else
      var h := FixUpFn(fns[0], if fns[0].ident in entries then Some(entries[fns[0].ident]) else None);
      if !h.Ok? then h.PropagateFailure()
      else
        var t := FixUpFns(fns[1..], entries);
        if !t.Ok? then t else Ok([h.value] + t.value)
  }

  /** The pass keeps the functions, their names and their order. */
  lemma {:induction false} FixUpFnsKeepsNames(fns: seq<FnDef>, entries: map<string, Symbols.Entry>)
    requires FixUpFns(fns, entries).Ok?
    ensures |FixUpFns(fns, entries).value| == |fns|
    ensures forall k :: 0 <= k < |fns| ==> FixUpFns(fns, entries).value[k].ident == fns[k].ident
  {
    if fns != [] {
      FixUpFnsKeepsNames(fns[1..], entries);
      var t := FixUpFns(fns[1..], entries).value;
      forall k | 1 <= k < |fns| ensures FixUpFns(fns, entries).value[k].ident == fns[k].ident {
        assert FixUpFns(fns, entries).value[k] == t[k - 1];
        assert fns[1..][k - 1] == fns[k];
      }
    }
  }

  method FixUpProgram(program: Program, symbolTable: Symbols.SymbolTable) returns (r: Result<Program>)
    ensures FixUpFns(program.fnDefs, symbolTable.entries).Ok? ==>
      r == Ok(Program(FixUpFns(program.fnDefs, symbolTable.entries).value, program.externs))
    ensures !FixUpFns(program.fnDefs, symbolTable.entries).Ok? ==> !r.Ok?
  {
    var asmFnDefs: seq<FnDef> := [];
    var i := 0;
    assert program.fnDefs[0..] == program.fnDefs;
    assert FixUpFns(program.fnDefs, symbolTable.entries) == FnsPrefix([], FixUpFns(program.fnDefs, symbolTable.entries)) by {
      var x := FixUpFns(program.fnDefs, symbolTable.entries);
      if x.Ok? { assert [] + x.value == x.value; }
    }
    while i < |program.fnDefs|
      invariant 0 <= i <= |program.fnDefs|
      invariant FixUpFns(program.fnDefs, symbolTable.entries) == FnsPrefix(asmFnDefs, FixUpFns(program.fnDefs[i..], symbolTable.entries))
    {
      assert program.fnDefs[i..][1..] == program.fnDefs[i + 1..];
      var fixed := FixUpInFn(program.fnDefs[i], symbolTable);
      if !fixed.Ok? {
        return fixed.PropagateFailure();
      }
      var rest := FixUpFns(program.fnDefs[i + 1..], symbolTable.entries);
      if rest.Ok? {
        assert asmFnDefs + ([fixed.value] + rest.value) == (asmFnDefs + [fixed.value]) + rest.value;
      }
      asmFnDefs := asmFnDefs + [fixed.value];
      i := i + 1;
    }
    assert program.fnDefs[i..] == [];
    assert asmFnDefs + [] == asmFnDefs;
    return Ok(Program(asmFnDefs, program.externs));
  }

  function FnsPrefix(done: seq<FnDef>, r: Result<seq<FnDef>>): Result<seq<FnDef>>
  {
    if r.Ok? then Ok(done + r.value) else r
  }
}
