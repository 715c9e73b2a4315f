// code_gen/asm_ast.go and code_gen/asmtype/asmtype.go: the assembly AST the
// back end builds, and its textual debug renderings (`Op()` and `Ir()`).
// Rendering is partial: where the source panics (an unknown register, a
// method called on a nil operand) the rendering is `None`.
module AsmAst {
  import opened Wrappers
  import opened Decimal

  /** asmtype.AsmType; `NoType` is the nil interface value, which the
      emitter leaves in the moves it builds without a type. */
  datatype AsmType = LongWord | QuadWord | StringType | NoType

  datatype CondCode = E | NE | G | GE | L | LE
  {
    /** The string constants of asm_ast.go:12-19. */
    function Name(): string
    {
      match this
      case E => "e" case NE => "ne" case G => "g"
      case GE => "ge" case L => "l" case LE => "le"
    }
  }

  datatype BinaryOp = Add | Sub | Mult
  {
    /** asm_ast.go:23-27. */
    function Name(): string
    {
      match this case Add => "addl" case Sub => "subl" case Mult => "imull"
    }
  }

  datatype UnaryOp = Not | Neg
  {
    /** asm_ast.go:31-34. */
    function Name(): string { match this case Not => "notl" case Neg => "negl" }
  }

  datatype Register = AL | AX | CX | DX | DI | SI | R8 | R9 | R10 | R11 | SP
  {
    /** AsmRegister.String (asm_ast.go:39-55): the constant's own text. */
    function Name(): string
    {
      match this
      case AL => "al" case AX => "ax" case CX => "cx" case DX => "dx"
      case DI => "di" case SI => "si" case R8 => "r8" case R9 => "r9"
      case R10 => "r10" case R11 => "r11" case SP => "sp"
    }
  }

  /** Asm32 (asm_ast.go:77-102): the register's bare name, `%rsp` for the
      stack pointer, and a panic for any register the switch omits. */
  function Asm32(r: Register): (s: Option<string>)
  {
    match r
    case AX => Some("ax")
    case CX => Some("cx")
    case DX => Some("dx")
    case DI => Some("di")
    case SI => Some("si")
    case R8 => Some("r8")
    case R9 => Some("r9")
    case R10 => Some("r10")
    case R11 => Some("r11")
    case SP => Some("%rsp")
    case AL => None
  }

  /** `Asm32` is defined exactly off `AL`, agrees with the register's own
      name except for the stack pointer, and tells registers apart. */
  lemma Asm32Spec(r: Register, q: Register)
    ensures Asm32(r).None? <==> r == AL
    ensures r != AL && r != SP ==> Asm32(r) == Some(r.Name())
    ensures r == SP ==> Asm32(r) == Some("%rsp")
    ensures Asm32(r).Some? && Asm32(r) == Asm32(q) ==> r == q
  {
  }

  /** AsmOperand (asm_ast.go:57-118); `NilOperand` is the nil interface the
      emitter produces for a value it does not translate. */
  datatype Operand =
    | Imm(value: int)
    | Reg(reg: Register)
    | Pseudo(ident: string)
    | Stack(offset: int)
    | NilOperand

  /** The `Op()` methods (asm_ast.go:65-118). */
  function Op(o: Operand): (s: Option<string>)
  {
    match o
    case Imm(v) => Some("$" + IntToString(v))
    case Reg(r) => Asm32(r)
    case Pseudo(id) => Some(id)
    case Stack(v) => Some("(" + IntToString(v) + ")")
    case NilOperand => None
  }

  datatype Instr =
    | DeallocateStack(amount: int)
    | Push(op: Operand)
    | Call(ident: string)
    | Cmp(typ: AsmType, src: Operand, dst: Operand)
    | Jmp(ident: string)
    | JmpCC(cc: CondCode, ident: string)
    | SetCC(cc: CondCode, op: Operand)
    | Label(ident: string)
    | Binary(binop: BinaryOp, typ: AsmType, src: Operand, dst: Operand)
    | Idiv(typ: AsmType, src: Operand)
    | Cdq(typ: AsmType)
    | MovSx(src: Operand, dst: Operand)
    | MovZb(typ: AsmType, src: Operand, dst: Operand)
    | Mov(typ: AsmType, src: Operand, dst: Operand)
    | Unary(typ: AsmType, unop: UnaryOp, dst: Operand)
    | AllocateStack(amount: int)
    | Ret
    | StringLiteral(text: string)

  /** The registers an operand or an instruction names. */
  function OperandRegs(o: Operand): set<Register> { if o.Reg? then {o.reg} else {} }

  function InstrRegs(i: Instr): set<Register>
  {
    match i
    case Push(o) => OperandRegs(o)
    case Cmp(_, s, d) => OperandRegs(s) + OperandRegs(d)
    case SetCC(_, o) => OperandRegs(o)
    case Binary(_, _, s, d) => OperandRegs(s) + OperandRegs(d)
    case Idiv(_, s) => OperandRegs(s)
    case MovSx(s, d) => OperandRegs(s) + OperandRegs(d)
    case MovZb(_, s, d) => OperandRegs(s) + OperandRegs(d)
    case Mov(_, s, d) => OperandRegs(s) + OperandRegs(d)
    case Unary(_, _, d) => OperandRegs(d)
    case _ => {}
  }

  datatype ExternFn = ExternFn(name: string)
  datatype FnDef = FnDef(ident: string, irs: seq<Instr>)
  datatype Program = Program(fnDefs: seq<FnDef>, externs: seq<ExternFn>)

  /** The type tag the debug renderings append. */
  function TypeTag(t: AsmType): string
  {
    if t == QuadWord then "QuadType" else "LongType"
  }

  function Join2(a: Option<string>, b: Option<string>, f: (string, string) -> string): Option<string>
  {
    if a.Some? && b.Some? then Some(f(a.value, b.value)) else None
  }

  function Map1(a: Option<string>, f: string -> string): Option<string>
  {
    if a.Some? then Some(f(a.value)) else None
  }

  /** ExternFn.Ir (asm_ast.go:128-130). */
  function ExternIr(e: ExternFn): string { "extern " + e.name }

  /** The `Ir()` renderings of asm_ast.go:132-325. */
  function Ir(i: Instr): Option<string>
  {
    match i
    case DeallocateStack(v) => Some("addq $" + IntToString(v) + ", r10")
    case Push(o) => Map1(Op(o), s => "push " + s)
    case Call(id) => Some("call " + id)
    case Cmp(t, s, d) => Join2(Op(s), Op(d), (x, y) => "cmp " + x + ", " + y + ", " + TypeTag(t))
    case Jmp(id) => Some("jmp " + id)
    case JmpCC(cc, id) => Some("jmpcc" + cc.Name() + " " + id)
    case SetCC(cc, o) => Map1(Op(o), s => "setcc" + cc.Name() + " " + s)
    case Label(id) => Some("label " + id)
    case Binary(op, t, s, d) => Join2(Op(s), Op(d), (x, y) => op.Name() + " " + x + ", " + y + ", " + TypeTag(t))
    case Idiv(t, s) => Map1(Op(s), x => "idiv " + x + ", " + TypeTag(t))
    case Cdq(t) => Some("cdq " + TypeTag(t))
    case MovSx(s, d) => Join2(Op(s), Op(d), (x, y) => "movsx " + x + ", " + y)
    case MovZb(t, s, d) => Join2(Op(s), Op(d), (x, y) => "movzb " + x + ", " + y + ", " + TypeTag(t))
    case Mov(t, s, d) => Join2(Op(s), Op(d), (x, y) => "mov " + x + ", " + y + ", " + TypeTag(t))
    case Unary(t, op, d) => Map1(Op(d), x => op.Name() + " " + x + ", " + TypeTag(t))
    case AllocateStack(v) => Some("subq $" + IntToString(v) + ", r10")
    case Ret => Some("ret")
    case StringLiteral(v) => Some("# string literal: " + v)
  }

  predicate EndsWith(s: string, suffix: string)
  {
    |suffix| <= |s| && s[|s| - |suffix|..] == suffix
  }

  /** A typed mov, cmp or binary renders (when its operands render) with
      `QuadType` at the end exactly for a quad-word type and `LongType`
      otherwise; it fails exactly when an operand fails. */
  lemma TypedIrTag(i: Instr)
    requires i.Mov? || i.Cmp? || i.Binary?
    ensures Ir(i).Some? <==> Op(i.src).Some? && Op(i.dst).Some?
    ensures Ir(i).Some? ==> EndsWith(Ir(i).value, "QuadType") == (i.typ == QuadWord)
    ensures Ir(i).Some? ==> EndsWith(Ir(i).value, if i.typ == QuadWord then "QuadType" else "LongType")
  {
    if Ir(i).Some? {
      var s := Ir(i).value;
      var x, y := Op(i.src).value, Op(i.dst).value;
      var head := if i.Mov? then "mov " else if i.Cmp? then "cmp " else i.binop.Name() + " ";
      assert s == (head + x + ", " + y + ", ") + TypeTag(i.typ);
      SuffixOfConcat(head + x + ", " + y + ", ", TypeTag(i.typ));
      if i.typ != QuadWord {
        assert s[|s| - 8..] == "LongType";
        assert "LongType"[0] != "QuadType"[0];
      }
    }
  }

  lemma SuffixOfConcat(a: string, b: string)
    ensures (a + b)[|a + b| - |b|..] == b
  {
  }

  /** Conditional jumps and set instructions name their cond code right
      after the mnemonic. */
  lemma CondCodeIr(cc: CondCode, id: string, o: Operand)
    ensures Ir(JmpCC(cc, id)) == Some("jmpcc" + cc.Name() + " " + id)
    ensures Op(o).Some? ==> Ir(SetCC(cc, o)) == Some("setcc" + cc.Name() + " " + Op(o).value)
    ensures Op(o).None? ==> Ir(SetCC(cc, o)).None?
  {
  }

  /** Immediates and stack slots render their value in decimal, and the
      rendering recovers the value (so distinct operands of one kind
      render differently). */
  lemma OperandRenderings(a: int, b: int)
    ensures Op(Imm(a)) == Some("$" + IntToString(a))
    ensures Op(Stack(a)) == Some("(" + IntToString(a) + ")")
    ensures Op(Imm(a)) == Op(Imm(b)) ==> a == b
    ensures Op(Stack(a)) == Op(Stack(b)) ==> a == b
  {
    if Op(Imm(a)) == Op(Imm(b)) {
      assert IntToString(a) == ("$" + IntToString(a))[1..];
      IntToStringInjective(a, b);
    }
    if Op(Stack(a)) == Op(Stack(b)) {
      var sa, sb := "(" + IntToString(a) + ")", "(" + IntToString(b) + ")";
      assert IntToString(a) == sa[1..|sa| - 1];
      assert IntToString(b) == sb[1..|sb| - 1];
      IntToStringInjective(a, b);
    }
  }

  /** A list of instructions put in front of a result that may be an error. */
  function Prepend(prefix: seq<Instr>, r: Result<seq<Instr>>): Result<seq<Instr>>
  {
    if r.Ok? then Ok(prefix + r.value) else r
  }

  lemma PrependStep(body: seq<Instr>, h: seq<Instr>, t: Result<seq<Instr>>)
    ensures Prepend(body, Prepend(h, t)) == Prepend(body + h, t)
  {
    if t.Ok? { assert body + (h + t.value) == (body + h) + t.value; }
  }

  lemma PrependEmpty(r: Result<seq<Instr>>)
    ensures Prepend([], r) == r
  {
    if r.Ok? { assert [] + r.value == r.value; }
  }
}
