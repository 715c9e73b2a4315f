// code_gen/emitter.go: instruction selection from TACKY to the assembly AST,
// including argument passing after section 3.2.3 of the System V AMD64
// psABI (six integer arguments in DI, SI, DX, CX, R8, R9, the rest pushed
// right to left). The psABI also wants the stack 16-byte aligned at the
// call; the code releases an 8-byte padding after the call that it never
// reserves before it, so the stack is misaligned at a call with an odd
// number of stack arguments. `CallSequenceAligned` is the corrected call.
//
// The assembly type of each TACKY value is a parameter `typeOf`: the
// source's own `AsmType` (emitter.go:135-153) is not modelled.
module Emitter {
  import opened Wrappers
  import opened MTypes
  import Tacky
  import opened AsmAst

  /** The argument registers, in the order of NewAsmGen (emitter.go:30) and
      convertFnCall (emitter.go:218). */
  const ArgRegisters: seq<Register> := [DI, SI, DX, CX, R8, R9]

  /** The register names are pairwise distinct. */
  lemma RegisterNamesDistinct(a: Register, b: Register)
    ensures a.Name() == b.Name() <==> a == b
  {
  }

  function Min(a: nat, b: nat): nat { if a < b then a else b }

  /** GenASTVal (emitter.go:522-531): constants become immediates, variables
      pseudo-registers, and anything else the nil operand. */
  function GenASTVal(v: Tacky.Val): (o: Operand)
    ensures o.Imm? <==> v.Constant?
    ensures o.Pseudo? <==> v.Var?
    ensures o.Imm? ==> o.value == v.c.GetValue()
    ensures o.Pseudo? ==> o.ident == v.name
    ensures !o.Reg? && !o.Stack?
  {
    match v
    case Constant(c) => Imm(c.GetValue())
    case Var(n) => Pseudo(n)
    case StringConstant(_) => NilOperand
  }

  predicate IsRelational(op: Tacky.BinaryOp)
  {
    op in {Tacky.GreaterThan, Tacky.GreaterThanEqual, Tacky.LessThan,
           Tacky.LessThanEqual, Tacky.Equal, Tacky.NotEqual}
  }

  /** ConvOpToCond (emitter.go:396-414); `None` is the panic on a
      non-relational operator. */
  function ConvOpToCond(op: Tacky.BinaryOp): (r: Option<CondCode>)
    ensures r.Some? <==> IsRelational(op)
  {
    match op
    case GreaterThan => Some(G)
    case GreaterThanEqual => Some(GE)
    case LessThan => Some(L)
    case LessThanEqual => Some(LE)
    case Equal => Some(E)
    case NotEqual => Some(NE)
    case _ => None
  }

  /** Distinct relational operators get distinct condition codes, so each
      comparison keeps its meaning. */
  lemma ConvOpToCondInjective(a: Tacky.BinaryOp, b: Tacky.BinaryOp)
    requires ConvOpToCond(a).Some? && ConvOpToCond(a) == ConvOpToCond(b)
    ensures a == b
  {
  }

  /** GenASTBinaryOp (emitter.go:499-509). */
  function GenASTBinaryOp(op: Tacky.BinaryOp): (r: Option<BinaryOp>)
    ensures r.Some? <==> op in {Tacky.Add, Tacky.Sub, Tacky.Mul}
  {
    match op
    case Mul => Some(Mult)
    case Add => Some(AsmAst.Add)
    case Sub => Some(AsmAst.Sub)
    case _ => None
  }

  /** GenASTUnaryOp (emitter.go:511-520). */
  function GenASTUnaryOp(op: Tacky.UnaryOp): (r: Option<UnaryOp>)
    ensures r.Some? <==> op in {Tacky.Complement, Tacky.Negate}
  {
    match op
    case Complement => Some(AsmAst.Not)
    case Negate => Some(Neg)
    case _ => None
  }

  /** splitArgs (emitter.go:201-214): the first six arguments go to the
      register list and the rest to the stack list, both in order. */
  method SplitArgs(args: seq<Tacky.Val>) returns (registerArgs: seq<Tacky.Val>, stackArgs: seq<Tacky.Val>)
    ensures registerArgs == args[..Min(6, |args|)]
    ensures stackArgs == args[Min(6, |args|)..]
  {
    registerArgs, stackArgs := [], [];
    var i := 0;
    while i < |args|
      invariant 0 <= i <= |args|
      invariant registerArgs == args[..Min(6, i)]
      invariant stackArgs == args[Min(6, i)..i]
    {
      if |registerArgs| < 6 {
        registerArgs := registerArgs + [args[i]];
      } else {
        stackArgs := stackArgs + [args[i]];
      }
      i := i + 1;
    }
  }

  // ---------------------------------------------------------------------
  // Function calls

  /** The moves of register arguments into DI, SI, DX, CX, R8, R9; the
      moves carry no type (emitter.go:227-234). */
  function RegisterArgMoves(args: seq<Tacky.Val>): (r: seq<Instr>)
    requires |args| <= 6
    ensures |r| == |args|
    ensures forall k :: 0 <= k < |args| ==> r[k] == Mov(NoType, GenASTVal(args[k]), Reg(ArgRegisters[k]))
  {
    seq(|args|, k requires 0 <= k < |args| => Mov(NoType, GenASTVal(args[k]), Reg(ArgRegisters[k])))
  }

  /** One stack argument (emitter.go:242-260): immediates are pushed
      directly, registers emit nothing, anything else goes through AX. */
  function PushArg(o: Operand): seq<Instr>
  {
    match o
    case Reg(_) => []
    case Imm(_) => [Push(o)]
    case _ => [Mov(NoType, o, Reg(AX)), Push(Reg(AX))]
  }

  function PushArgs(args: seq<Tacky.Val>): seq<Instr>
  {
    if args == [] then [] else PushArg(GenASTVal(args[0])) + PushArgs(args[1..])
  }

  function Reverse<T>(s: seq<T>): (r: seq<T>)
    ensures |r| == |s|
  {
    if s == [] then [] else Reverse(s[1..]) + [s[0]]
  }

  lemma {:induction false} ReverseAt<T>(s: seq<T>, j: nat)
    requires j < |s|
    ensures Reverse(s)[j] == s[|s| - 1 - j]
  {
    if j < |s| - 1 {
      ReverseAt(s[1..], j);
    }
  }

  /** The padding `stackPadding`: 8 bytes iff an odd number of arguments
      goes on the stack (emitter.go:222-225). */
  function Padding(stackCount: nat): nat { if stackCount % 2 != 0 then 8 else 0 }

  /** The bytes released after the call: one 8-byte slot per stack argument
      plus the padding (emitter.go:268). */
  function BytesToRemove(stackCount: nat): nat { 8 * stackCount + Padding(stackCount) }

  /** The amount released is the pushed bytes rounded up to a multiple of
      16, and nothing without stack arguments. */
  lemma ReleaseRoundsUp(n: nat)
    ensures BytesToRemove(n) % 16 == 0
    ensures BytesToRemove(n) >= 8 * n && BytesToRemove(n) < 8 * n + 16
    ensures BytesToRemove(n) == 0 <==> n == 0
  {
  }

  /** The instruction sequence of convertFnCall (emitter.go:216-284). */
  function CallSequence(name: string, args: seq<Tacky.Val>, dst: Tacky.Val): seq<Instr>
  {
    var n := Min(6, |args|);
    var stackArgs := args[n..];
    var bytes := BytesToRemove(|stackArgs|);
    RegisterArgMoves(args[..n])
      + PushArgs(Reverse(stackArgs))
      + [Call(name)]
      + (if bytes != 0 then [DeallocateStack(bytes)] else [])
      + [Mov(NoType, Reg(AX), GenASTVal(dst))]
  }

  /** The call's shape: the first arguments go to the argument registers in
      order, then the call, and the result is taken from AX last. */
  lemma CallSequenceShape(name: string, args: seq<Tacky.Val>, dst: Tacky.Val)
    ensures var s := CallSequence(name, args, dst);
      && |s| >= Min(6, |args|) + 2
      && (forall k :: 0 <= k < Min(6, |args|) ==> s[k] == Mov(NoType, GenASTVal(args[k]), Reg(ArgRegisters[k])))
      && s[|s| - 1] == Mov(NoType, Reg(AX), GenASTVal(dst))
      && (|args| <= 6 ==> s[|args|] == Call(name) && |s| == |args| + 2)
  {
    var n := Min(6, |args|);
    if |args| <= 6 {
      assert args[n..] == [];
      assert Reverse(args[n..]) == [];
    }
  }

  // ---------------------------------------------------------------------
  // The stack pointer around a call

  /** How far an instruction moves the stack pointer, in bytes: a push
      lowers it by 8, and the writer emits `AllocateStack` as `subq` and
      `DeallocateStack` as `addq` on %rsp (x86x64.go:93-94, 137-138). */
  function RspEffect(i: Instr): int
  {
    match i
    case Push(_) => -8
    case AllocateStack(n) => -n
    case DeallocateStack(n) => n
    case _ => 0
  }

  /** The net movement of the stack pointer over a sequence. */
  function RspShift(s: seq<Instr>): int
  {
    if s == [] then 0 else RspEffect(s[0]) + RspShift(s[1..])
  }

  /** The movement of the stack pointer from the start of a sequence up to
      its first call: where the callee finds the stack. */
  function RspAtCall(s: seq<Instr>): int
  {
    if s == [] || s[0].Call? then 0 else RspEffect(s[0]) + RspAtCall(s[1..])
  }

  /** Code that neither calls nor moves the stack pointer. */
  predicate StackNeutral(s: seq<Instr>)
  {
    forall k :: 0 <= k < |s| ==> !s[k].Call? && RspEffect(s[k]) == 0
  }

  lemma {:induction false} RspShiftConcat(a: seq<Instr>, b: seq<Instr>)
    ensures RspShift(a + b) == RspShift(a) + RspShift(b)
  {
    if a != [] {
      assert (a + b)[1..] == a[1..] + b;
      RspShiftConcat(a[1..], b);
    } else {
      assert a + b == b;
    }
  }

  /** Code before the first call adds its movement to the call's. */
  lemma {:induction false} RspAtCallConcat(a: seq<Instr>, b: seq<Instr>)
    requires forall k :: 0 <= k < |a| ==> !a[k].Call?
    ensures RspAtCall(a + b) == RspShift(a) + RspAtCall(b)
  {
    if a != [] {
      assert (a + b)[0] == a[0];
      assert (a + b)[1..] == a[1..] + b;
      RspAtCallConcat(a[1..], b);
    } else {
      assert a + b == b;
    }
  }

  lemma {:induction false} NeutralShift(s: seq<Instr>)
    requires StackNeutral(s)
    ensures RspShift(s) == 0
  {
    if s != [] {
      assert RspEffect(s[0]) == 0;
      NeutralShift(s[1..]);
    }
  }

  /** Each stack argument is pushed exactly once, whatever its operand, so
      the pushes lower the stack pointer by 8 bytes per argument. */
  lemma {:induction false} PushArgsShift(args: seq<Tacky.Val>)
    ensures RspShift(PushArgs(args)) == -8 * |args|
    ensures forall k :: 0 <= k < |PushArgs(args)| ==> !PushArgs(args)[k].Call?
  {
    if args != [] {
      var h := PushArg(GenASTVal(args[0]));
      var o := GenASTVal(args[0]);
      assert RspShift(h) == -8 by {
        if o.Imm? {
          RspShiftConcat([Push(o)], []);
        } else {
          RspShiftConcat([Mov(NoType, o, Reg(AX))], [Push(Reg(AX))]);
          RspShiftConcat([Push(Reg(AX))], []);
          assert h == [Mov(NoType, o, Reg(AX))] + [Push(Reg(AX))];
        }
      }
      PushArgsShift(args[1..]);
      RspShiftConcat(h, PushArgs(args[1..]));
    }
  }

  /** The stack pointer at the call and after a call sequence, as written:
      it is lowered by 8 bytes per stack argument before the call, and the
      release afterwards adds the padding on top of those bytes. */
  lemma CallStackAsWritten(name: string, args: seq<Tacky.Val>, dst: Tacky.Val)
    ensures var m := |args| - Min(6, |args|);
      var s := CallSequence(name, args, dst);
      && RspAtCall(s) == -8 * m
      && RspShift(s) == Padding(m)
  {
    var n := Min(6, |args|);
    var stackArgs := args[n..];
    var bytes := BytesToRemove(|stackArgs|);
    var moves := RegisterArgMoves(args[..n]);
    var pushes := PushArgs(Reverse(stackArgs));
    var release: seq<Instr> := if bytes != 0 then [DeallocateStack(bytes)] else [];
    var fetch := [Mov(NoType, Reg(AX), GenASTVal(dst))];
    var tail := [Call(name)] + (release + fetch);
    assert CallSequence(name, args, dst) == moves + (pushes + tail);
    assert StackNeutral(moves);
    NeutralShift(moves);
    PushArgsShift(Reverse(stackArgs));
    RspAtCallConcat(moves, pushes + tail);
    RspAtCallConcat(pushes, tail);
    RspShiftConcat(moves, pushes + tail);
    RspShiftConcat(pushes, tail);
    assert RspShift(tail) == bytes by {
      RspShiftConcat([Call(name)], release + fetch);
      RspShiftConcat(release, fetch);
      RspShiftConcat(fetch, []);
      RspShiftConcat([Call(name)], []);
      if bytes != 0 { RspShiftConcat(release, []); }
    }
  }

  /** The discrepancy: with an odd number of stack arguments (seven
      arguments, say) the callee finds the stack 8 bytes off a multiple of
      16, and after the call the stack pointer sits 8 bytes above where it
      started, releasing padding that was never reserved. */
  lemma CallMisalignedAsWritten(name: string, args: seq<Tacky.Val>, dst: Tacky.Val)
    requires |args| > 6 && (|args| - 6) % 2 == 1
    ensures RspAtCall(CallSequence(name, args, dst)) % 16 == 8
    ensures RspShift(CallSequence(name, args, dst)) == 8
  {
    CallStackAsWritten(name, args, dst);
  }

  /** The call as the psABI evidently intends it: the padding is reserved
      before the arguments are pushed and released with them after the
      call. */
  function CallSequenceAligned(name: string, args: seq<Tacky.Val>, dst: Tacky.Val): seq<Instr>
  {
    var n := Min(6, |args|);
    var stackArgs := args[n..];
    var padding := Padding(|stackArgs|);
    (if padding != 0 then [AllocateStack(padding)] else []) + CallSequence(name, args, dst)
  }

  /** The corrected call keeps the stack 16-byte aligned at the call and
      leaves the stack pointer where it found it. */
  lemma CallAligned(name: string, args: seq<Tacky.Val>, dst: Tacky.Val)
    ensures RspAtCall(CallSequenceAligned(name, args, dst)) % 16 == 0
    ensures RspShift(CallSequenceAligned(name, args, dst)) == 0
  {
    var n := Min(6, |args|);
    var padding := Padding(|args[n..]|);
    var pad: seq<Instr> := if padding != 0 then [AllocateStack(padding)] else [];
    var rest := CallSequence(name, args, dst);
    assert RspShift(pad) == -(padding as int) by {
      if padding != 0 { RspShiftConcat(pad, []); }
    }
    CallStackAsWritten(name, args, dst);
    RspAtCallConcat(pad, rest);
    RspShiftConcat(pad, rest);
  }

  /** The two calls agree exactly when no padding is needed. */
  lemma AlignedAgreesIffEven(name: string, args: seq<Tacky.Val>, dst: Tacky.Val)
    ensures CallSequenceAligned(name, args, dst) == CallSequence(name, args, dst)
        <==> (|args| - Min(6, |args|)) % 2 == 0
  {
    var n := Min(6, |args|);
    var padding := Padding(|args[n..]|);
    var rest := CallSequence(name, args, dst);
    if padding != 0 {
      assert |CallSequenceAligned(name, args, dst)| == |rest| + 1;
    } else {
      assert CallSequenceAligned(name, args, dst) == [] + rest;
    }
  }

  /** With only constant stack arguments, they are pushed in reverse order:
      the last argument first (emitter.go:236-249). */
  lemma {:induction false} ConstantArgsPushedInReverse(args: seq<Tacky.Val>)
    requires forall k :: 0 <= k < |args| ==> args[k].Constant?
    ensures PushArgs(Reverse(args)) == seq(|args|, j requires 0 <= j < |args| => Push(Imm(args[|args| - 1 - j].c.GetValue())))
  {
    var expected := seq(|args|, j requires 0 <= j < |args| => Push(Imm(args[|args| - 1 - j].c.GetValue())));
    forall j | 0 <= j < |args| ensures Reverse(args)[j] == args[|args| - 1 - j] {
      ReverseAt(args, j);
    }
    ConstantPushes(Reverse(args));
  }

  lemma {:induction false} ConstantPushes(s: seq<Tacky.Val>)
    requires forall k :: 0 <= k < |s| ==> s[k].Constant?
    ensures PushArgs(s) == seq(|s|, j requires 0 <= j < |s| => Push(Imm(s[j].c.GetValue())))
  {
    if s != [] {
      ConstantPushes(s[1..]);
    }
  }

  /** The reversal of the stack arguments into a fresh array
      (emitter.go:236-240): slot `n - 1 - i` receives argument `i`. */
  method ReverseArgs(stackArgs: seq<Tacky.Val>) returns (reversed: seq<Tacky.Val>)
    ensures reversed == Reverse(stackArgs)
  {
    var reversedArgs := new Tacky.Val[|stackArgs|](_ => Tacky.IntZero);
    var i := 0;
    while i < |stackArgs|
      invariant 0 <= i <= |stackArgs|
      invariant forall j :: |stackArgs| - i <= j < |stackArgs| ==> reversedArgs[j] == stackArgs[|stackArgs| - 1 - j]
    {
      reversedArgs[|stackArgs| - 1 - i] := stackArgs[i];
      i := i + 1;
    }
    reversed := reversedArgs[..];
    forall j | 0 <= j < |stackArgs| ensures reversed[j] == Reverse(stackArgs)[j] {
      ReverseAt(stackArgs, j);
    }
  }

  lemma {:induction false} PushArgsSnoc(s: seq<Tacky.Val>, x: Tacky.Val)
    ensures PushArgs(s + [x]) == PushArgs(s) + PushArg(GenASTVal(x))
  {
    if s == [] {
      assert [] + [x] == [x];
      assert [x][1..] == [];
    } else {
      assert (s + [x])[1..] == s[1..] + [x];
      PushArgsSnoc(s[1..], x);
    }
  }

  /** The pushes of the reversed stack arguments (emitter.go:242-260). */
  method PushStackArgs(reversed: seq<Tacky.Val>) returns (pushes: seq<Instr>)
    ensures pushes == PushArgs(reversed)
  {
    pushes := [];
    var i := 0;
    while i < |reversed|
      invariant 0 <= i <= |reversed|
      invariant pushes == PushArgs(reversed[..i])
    {
      var asmArg := GenASTVal(reversed[i]);
      PushArgsSnoc(reversed[..i], reversed[i]);
      assert reversed[..i + 1] == reversed[..i] + [reversed[i]];
      ghost var before := pushes;
      if asmArg.Reg? {
      } else if asmArg.Imm? {
        pushes := pushes + [Push(asmArg)];
      } else {
        pushes := pushes + [Mov(NoType, asmArg, Reg(AX)), Push(Reg(AX))];
      }
      assert pushes == before + PushArg(asmArg);
      i := i + 1;
    }
    assert reversed[..i] == reversed;
  }

  /** The untyped moves of the register arguments (emitter.go:227-234). */
  method MoveRegisterArgs(registerArgs: seq<Tacky.Val>) returns (irs: seq<Instr>)
    requires |registerArgs| <= 6
    ensures irs == RegisterArgMoves(registerArgs)
  {
    irs := [];
    var i := 0;
    while i < |registerArgs|
      invariant 0 <= i <= |registerArgs|
      invariant irs == RegisterArgMoves(registerArgs[..i])
    {
      irs := irs + [Mov(NoType, GenASTVal(registerArgs[i]), Reg(ArgRegisters[i]))];
      i := i + 1;
    }
    assert registerArgs[..i] == registerArgs;
  }

  /** convertFnCall (emitter.go:216-284): the register moves, the stack
      arguments reversed and pushed, the call, the stack release and the
      fetch of the result. */
  method ConvertFnCall(name: string, args: seq<Tacky.Val>, dst: Tacky.Val) returns (irs: seq<Instr>)
    ensures irs == CallSequence(name, args, dst)
  {
    var registerArgs, stackArgs := SplitArgs(args);
    var stackPadding := 0;
    if |stackArgs| % 2 != 0 {
      stackPadding := 8;
    }
    irs := MoveRegisterArgs(registerArgs);
    var reversed := ReverseArgs(stackArgs);
    var pushes := PushStackArgs(reversed);
    irs := irs + pushes + [Call(name)];
    var bytesToRemove := 8 * |stackArgs| + stackPadding;
    if bytesToRemove != 0 {
      irs := irs + [DeallocateStack(bytesToRemove)];
    }
    irs := irs + [Mov(NoType, Reg(AX), GenASTVal(dst))];
  }

  // ---------------------------------------------------------------------
  // Instructions

  /** GenASTBinary (emitter.go:416-497). */
  function GenASTBinary(op: Tacky.BinaryOp, src1: Tacky.Val, src2: Tacky.Val, dst: Tacky.Val,
                        typeOf: Tacky.Val -> AsmType): Result<seq<Instr>>
  {
    var t1, tDst := typeOf(src1), typeOf(dst);
    if IsRelational(op) then
      Ok([Cmp(t1, GenASTVal(src2), GenASTVal(src1)),
          Mov(tDst, Imm(0), GenASTVal(dst)),
          SetCC(ConvOpToCond(op).value, GenASTVal(dst))])
    else if op == Tacky.Modulo then
      Ok([Mov(t1, GenASTVal(src1), Reg(AX)), Cdq(t1), Idiv(t1, GenASTVal(src2)),
          Mov(t1, Reg(DX), GenASTVal(dst))])
    else if op == Tacky.Div then
      Ok([Mov(t1, GenASTVal(src1), Reg(AX)), Cdq(t1), Idiv(t1, GenASTVal(src2)),
          Mov(t1, Reg(AX), GenASTVal(dst))])
    else if GenASTBinaryOp(op).None? then
      Panic("unimplemented tacky op on asm gen")
    else
      Ok([Mov(NoType, GenASTVal(src1), GenASTVal(dst)),
          Binary(GenASTBinaryOp(op).value, t1, GenASTVal(src2), GenASTVal(dst))])
  }

  /** GenASTInstr (emitter.go:299-394); `Panic` where the source panics. */
  function GenASTInstr(instr: Tacky.Instr, typeOf: Tacky.Val -> AsmType): Result<seq<Instr>>
  {
    match instr
    case FnCall(name, args, dst) => Ok(CallSequence(name, args, dst))
    case Jump(target) => Ok([Jmp(target)])
    case Label(id) => Ok([Label(id)])
    case Copy(src, dst) => Ok([Mov(typeOf(src), GenASTVal(src), GenASTVal(dst))])
    case JumpIfZero(v, id) => Ok([Cmp(typeOf(v), Imm(0), GenASTVal(v)), JmpCC(E, id)])
    case JumpIfNotZero(v, id) => Ok([Cmp(typeOf(v), Imm(0), GenASTVal(v)), JmpCC(NE, id)])
    case Return(v) => Ok([Mov(typeOf(v), GenASTVal(v), Reg(AX)), Ret])
    case Binary(op, s1, s2, d) => GenASTBinary(op, s1, s2, d, typeOf)
    case Unary(op, src, dst) =>
      if op == Tacky.Not then
        Ok([Cmp(typeOf(src), Imm(0), GenASTVal(src)),
            Mov(typeOf(dst), Imm(0), GenASTVal(dst)),
            SetCC(E, GenASTVal(dst))])
      else if GenASTUnaryOp(op).None? then
        Panic("unimplemented tacky op on asm gen")
      else
        Ok([Mov(typeOf(src), GenASTVal(src), GenASTVal(dst)),
            Unary(typeOf(src), GenASTUnaryOp(op).value, GenASTVal(dst))])
    case Truncate(_, _) => Panic("unimplemented tacky instruction on asm gen")
    case SignExtend(_, _) => Panic("unimplemented tacky instruction on asm gen")
  }

  /** A relational comparison compares the second source against the first
      and materialises the flag with SetCC; division takes the quotient from
      AX and modulo the remainder from DX. */
  lemma BinarySelection(op: Tacky.BinaryOp, s1: Tacky.Val, s2: Tacky.Val, d: Tacky.Val, typeOf: Tacky.Val -> AsmType)
    ensures IsRelational(op) ==>
      GenASTInstr(Tacky.Binary(op, s1, s2, d), typeOf) ==
        Ok([Cmp(typeOf(s1), GenASTVal(s2), GenASTVal(s1)), Mov(typeOf(d), Imm(0), GenASTVal(d)),
            SetCC(ConvOpToCond(op).value, GenASTVal(d))])
    ensures op in {Tacky.Div, Tacky.Modulo} ==>
      var r := GenASTInstr(Tacky.Binary(op, s1, s2, d), typeOf);
      r.Ok? && |r.value| == 4 && r.value[0].Mov? && r.value[0].dst == Reg(AX) && r.value[1].Cdq?
      && r.value[2] == Idiv(typeOf(s1), GenASTVal(s2))
      && r.value[3].src == Reg(if op == Tacky.Div then AX else DX)
    ensures GenASTInstr(Tacky.Binary(op, s1, s2, d), typeOf).Ok? <==>
      IsRelational(op) || op in {Tacky.Div, Tacky.Modulo, Tacky.Add, Tacky.Sub, Tacky.Mul}
  {
  }

  /** The registers instruction selection may name: R10, R11 (the fix-up
      pass's scratch registers), SP and AL are never among them. */
  predicate SelectionRegister(r: Register) { r in {AX, DX, DI, SI, CX, R8, R9} }

  predicate ScratchFree(s: seq<Instr>)
  {
    forall k, r :: 0 <= k < |s| && r in InstrRegs(s[k]) ==> SelectionRegister(r)
  }

  lemma {:induction false} PushArgsScratchFree(args: seq<Tacky.Val>)
    ensures ScratchFree(PushArgs(args))
  {
    if args != [] {
      PushArgsScratchFree(args[1..]);
      var h := PushArg(GenASTVal(args[0]));
      assert forall k :: 0 <= k < |h| ==> InstrRegs(h[k]) <= {AX};
      ScratchFreeConcat(h, PushArgs(args[1..]));
    }
  }

  lemma ScratchFreeConcat(a: seq<Instr>, b: seq<Instr>)
    requires ScratchFree(a) && ScratchFree(b)
    ensures ScratchFree(a + b)
  {
    forall k, r | 0 <= k < |a + b| && r in InstrRegs((a + b)[k]) ensures SelectionRegister(r) {
      if k < |a| { assert (a + b)[k] == a[k]; } else { assert (a + b)[k] == b[k - |a|]; }
    }
  }

  /** Instruction selection leaves R10 and R11 free for the fix-up pass and
      never names SP or AL. */
  lemma SelectionIsScratchFree(instr: Tacky.Instr, typeOf: Tacky.Val -> AsmType)
    requires GenASTInstr(instr, typeOf).Ok?
    ensures ScratchFree(GenASTInstr(instr, typeOf).value)
  {
    if instr.FnCall? {
      var args := instr.args;
      var n := Min(6, |args|);
      var moves := RegisterArgMoves(args[..n]);
      assert ScratchFree(moves);
      PushArgsScratchFree(Reverse(args[n..]));
      ScratchFreeConcat(moves, PushArgs(Reverse(args[n..])));
      var bytes := BytesToRemove(|args[n..]|);
      var tail := [Call(instr.fnName)] + (if bytes != 0 then [DeallocateStack(bytes)] else [])
        + [Mov(NoType, Reg(AX), GenASTVal(instr.dst))];
      assert ScratchFree(tail);
      ScratchFreeConcat(moves + PushArgs(Reverse(args[n..])), tail);
      assert CallSequence(instr.fnName, args, instr.dst) == moves + PushArgs(Reverse(args[n..])) + tail;
    }
  }

  /** The labels an assembly sequence defines, in order. */
  function AsmLabels(s: seq<Instr>): seq<string>
  {
    if s == [] then [] else (if s[0].Label? then [s[0].ident] else []) + AsmLabels(s[1..])
  }

  function TackyLabels(s: seq<Tacky.Instr>): seq<string>
  {
    if s == [] then [] else (if s[0].Label? then [s[0].ident] else []) + TackyLabels(s[1..])
  }

  lemma {:induction false} AsmLabelsConcat(a: seq<Instr>, b: seq<Instr>)
    ensures AsmLabels(a + b) == AsmLabels(a) + AsmLabels(b)
  {
    if a != [] {
      assert (a + b)[1..] == a[1..] + b;
      AsmLabelsConcat(a[1..], b);
    } else {
      assert a + b == b;
    }
  }

  lemma {:induction false} PushArgsHaveNoLabels(args: seq<Tacky.Val>)
    ensures AsmLabels(PushArgs(args)) == []
  {
    if args != [] {
      PushArgsHaveNoLabels(args[1..]);
      var h := PushArg(GenASTVal(args[0]));
      AsmLabelsConcat(h, PushArgs(args[1..]));
      if |h| == 2 { assert h[1..][1..] == []; }
      if |h| == 1 { assert h[1..] == []; }
    }
  }

  lemma {:induction false} NoLabelsIn(s: seq<Instr>)
    requires forall k :: 0 <= k < |s| ==> !s[k].Label?
    ensures AsmLabels(s) == []
  {
    if s != [] { NoLabelsIn(s[1..]); }
  }

  /** A TACKY label becomes exactly one assembly label with the same name,
      and no other instruction introduces a label. */
  lemma SelectionLabels(instr: Tacky.Instr, typeOf: Tacky.Val -> AsmType)
    requires GenASTInstr(instr, typeOf).Ok?
    ensures AsmLabels(GenASTInstr(instr, typeOf).value) == if instr.Label? then [instr.ident] else []
  {
    var out := GenASTInstr(instr, typeOf).value;
    if instr.FnCall? {
      CallSequenceHasNoLabels(instr.fnName, instr.args, instr.dst);
    } else if instr.Label? {
      assert out == [Label(instr.ident)];
      assert out[1..] == [];
    } else {
      NoLabelsIn(out);
    }
  }

  lemma CallSequenceHasNoLabels(name: string, args: seq<Tacky.Val>, dst: Tacky.Val)
    ensures AsmLabels(CallSequence(name, args, dst)) == []
  {
    var n := Min(6, |args|);
    var bytes := BytesToRemove(|args[n..]|);
    var a := RegisterArgMoves(args[..n]);
    var b := PushArgs(Reverse(args[n..]));
    var c: seq<Instr> := [Call(name)];
    var d: seq<Instr> := if bytes != 0 then [DeallocateStack(bytes)] else [];
    var e: seq<Instr> := [Mov(NoType, Reg(AX), GenASTVal(dst))];
    NoLabelsIn(a);
    PushArgsHaveNoLabels(Reverse(args[n..]));
    NoLabelsIn(c);
    NoLabelsIn(d);
    NoLabelsIn(e);
    AsmLabelsConcat(a, b);
    AsmLabelsConcat(a + b, c);
    AsmLabelsConcat(a + b + c, d);
    AsmLabelsConcat(a + b + c + d, e);
  }

  // ---------------------------------------------------------------------
  // Functions

  /** passInRegisters (emitter.go:155-175): the register list is searched
      for the register named like the parameter's own, which is always that
      register, and the parameter is copied out of it. */
  method PassInRegisters(paramIdx: nat, param: Tacky.Val, typeOf: Tacky.Val -> AsmType) returns (irs: seq<Instr>)
    requires paramIdx < |ArgRegisters|
    ensures irs == [Mov(typeOf(param), Reg(ArgRegisters[paramIdx]), GenASTVal(param))]
  {
    var passRegister: Option<Register> := None;
    var i := 0;
    while i < |ArgRegisters|
      invariant 0 <= i <= |ArgRegisters|
      invariant passRegister.None? && i <= paramIdx
    {
      if ArgRegisters[i].Name() == ArgRegisters[paramIdx].Name() {
        RegisterNamesDistinct(ArgRegisters[i], ArgRegisters[paramIdx]);
        passRegister := Some(ArgRegisters[i]);
        break;
      }
      i := i + 1;
    }
    assert passRegister == Some(ArgRegisters[paramIdx]);
    irs := [Mov(typeOf(param), Reg(passRegister.value), GenASTVal(param))];
  }

  /** passInStack (emitter.go:108-133) on one parameter: a variable goes
      through AX and is pushed; any other value emits nothing. */
  function PassInStack(param: Tacky.Val, typeOf: Tacky.Val -> AsmType): seq<Instr>
  {
    if param.Var? then [Mov(typeOf(param), GenASTVal(param), Reg(AX)), Push(Reg(AX))] else []
  }

  function RegisterParamMoves(params: seq<Tacky.Val>, typeOf: Tacky.Val -> AsmType): (r: seq<Instr>)
    requires |params| <= 6
    ensures |r| == |params|
    ensures forall k :: 0 <= k < |params| ==> r[k] == Mov(typeOf(params[k]), Reg(ArgRegisters[k]), GenASTVal(params[k]))
  {
    seq(|params|, k requires 0 <= k < |params| => Mov(typeOf(params[k]), Reg(ArgRegisters[k]), GenASTVal(params[k])))
  }

  function StackParamPushes(params: seq<Tacky.Val>, typeOf: Tacky.Val -> AsmType): seq<Instr>
  {
    if params == [] then [] else PassInStack(params[0], typeOf) + StackParamPushes(params[1..], typeOf)
  }

  lemma RegisterMovesSnoc(params: seq<Tacky.Val>, typeOf: Tacky.Val -> AsmType, i: nat)
    requires i < |params| <= 6
    ensures RegisterParamMoves(params[..i + 1], typeOf)
      == RegisterParamMoves(params[..i], typeOf) + [Mov(typeOf(params[i]), Reg(ArgRegisters[i]), GenASTVal(params[i]))]
  {
    var a := RegisterParamMoves(params[..i + 1], typeOf);
    var b := RegisterParamMoves(params[..i], typeOf) + [Mov(typeOf(params[i]), Reg(ArgRegisters[i]), GenASTVal(params[i]))];
    assert |a| == |b|;
    forall k | 0 <= k < |a| ensures a[k] == b[k] {
      assert params[..i + 1][k] == params[k];
    }
  }

  /** The prologue of passParams (emitter.go:177-199). */
  function ParamSequence(params: seq<Tacky.Val>, typeOf: Tacky.Val -> AsmType): seq<Instr>
  {
    var n := Min(6, |params|);
    RegisterParamMoves(params[..n], typeOf) + StackParamPushes(params[n..], typeOf)
  }

  /** The k-th of the first six parameters is copied from the k-th argument
      register, in order, before any other instruction. */
  lemma ParamRegistersInOrder(params: seq<Tacky.Val>, typeOf: Tacky.Val -> AsmType, k: nat)
    requires k < Min(6, |params|)
    ensures k < |ParamSequence(params, typeOf)|
    ensures ParamSequence(params, typeOf)[k] == Mov(typeOf(params[k]), Reg(ArgRegisters[k]), GenASTVal(params[k]))
  {
  }

  /** passParams (emitter.go:177-199). */
  method PassParams(params: seq<Tacky.Val>, typeOf: Tacky.Val -> AsmType) returns (ir: seq<Instr>)
    ensures ir == ParamSequence(params, typeOf)
  {
    ir := [];
    var registerParams, stackParams := SplitArgs(params);
    var i := 0;
    while i < |registerParams|
      invariant 0 <= i <= |registerParams|
      invariant ir == RegisterParamMoves(registerParams[..i], typeOf)
    {
      var moves := PassInRegisters(i, registerParams[i], typeOf);
      RegisterMovesSnoc(registerParams, typeOf, i);
      ir := ir + moves;
      i := i + 1;
    }
    assert registerParams[..i] == registerParams;
    i := 0;
    var pushes := [];
    while i < |stackParams|
      invariant 0 <= i <= |stackParams|
      invariant pushes + StackParamPushes(stackParams[i..], typeOf) == StackParamPushes(stackParams, typeOf)
    {
      assert stackParams[i..][1..] == stackParams[i + 1..];
      pushes := pushes + PassInStack(stackParams[i], typeOf);
      i := i + 1;
    }
    ir := ir + pushes;
  }

  /** The selected body of a function: each instruction's selection in
      order, failing at the first instruction that panics. */
  function SelectAll(instrs: seq<Tacky.Instr>, typeOf: Tacky.Val -> AsmType): Result<seq<Instr>>
  {
    if instrs == [] then Ok([])
    else
      var h := GenASTInstr(instrs[0], typeOf);
      if !h.Ok? then h
      else
        var t := SelectAll(instrs[1..], typeOf);
        if !t.Ok? then t else Ok(h.value + t.value)
  }

  /** Selection keeps exactly the TACKY labels, in order. */
  lemma {:induction false} SelectAllLabels(instrs: seq<Tacky.Instr>, typeOf: Tacky.Val -> AsmType)
    requires SelectAll(instrs, typeOf).Ok?
    ensures AsmLabels(SelectAll(instrs, typeOf).value) == TackyLabels(instrs)
  {
    if instrs != [] {
      SelectionLabels(instrs[0], typeOf);
      SelectAllLabels(instrs[1..], typeOf);
      AsmLabelsConcat(GenASTInstr(instrs[0], typeOf).value, SelectAll(instrs[1..], typeOf).value);
    }
  }

  /** GenASTFn (emitter.go:286-297): the parameter prologue, then the selected
      instructions in order. */
  method GenASTFn(fn: Tacky.TackyFn, typeOf: Tacky.Val -> AsmType) returns (r: Result<FnDef>)
    ensures SelectAll(fn.instructions, typeOf).Ok? ==>
      r == Ok(FnDef(fn.name, ParamSequence(fn.params, typeOf) + SelectAll(fn.instructions, typeOf).value))
    ensures !SelectAll(fn.instructions, typeOf).Ok? ==> r.Panic?
  {
    var irs := PassParams(fn.params, typeOf);
    var body := [];
    var i := 0;
    PrependEmpty(SelectAll(fn.instructions, typeOf));
    assert fn.instructions[0..] == fn.instructions;
    while i < |fn.instructions|
      invariant 0 <= i <= |fn.instructions|
      invariant SelectAll(fn.instructions, typeOf) == Prepend(body, SelectAll(fn.instructions[i..], typeOf))
    {
      assert fn.instructions[i..][1..] == fn.instructions[i + 1..];
      var sel := GenASTInstr(fn.instructions[i], typeOf);
      if !sel.Ok? {
        assert !sel.Err?;
        return Panic(sel.reason);
      }
      PrependStep(body, sel.value, SelectAll(fn.instructions[i + 1..], typeOf));
      body := body + sel.value;
      i := i + 1;
    }
    assert fn.instructions[i..] == [];
    assert body + [] == body;
    return Ok(FnDef(fn.name, irs + body));
  }

  /** GenASTExternFn (emitter.go:101-106). */
  function GenASTExternFn(fn: Tacky.TackyFn): (e: ExternFn)
    ensures e.name == fn.name
  {
    ExternFn(fn.name)
  }
}
