// code_gen/x86x64.go: writes the assembly AST as AT&T-syntax text, one line
// per Write call. The writer is a class whose field `lines` is everything
// written so far; the io.Writer behind it is not modelled.
module X86 {
  import opened Wrappers
  import opened Decimal
  import opened AsmAst

  /** util.OsType (util/osdetect.go:5-11); any other GOOS value is
      `OtherOs`. */
  datatype OsType = Linux | Darwin | Windows | OtherOs

  /** What `%v` prints for an asmtype.AsmType: a pointer to an empty
      struct prints as `&{}`, the nil interface as `<nil>`. */
  function TypeText(t: AsmType): string
  {
    if t == NoType then "<nil>" else "&{}"
  }

  /** GenType (x86x64.go:143-152); the panic carries the type's `%v` text. */
  function GenType(t: AsmType): (s: Result<string>)
    ensures s.Ok? <==> t == QuadWord || t == LongWord
    ensures s == Ok("q") <==> t == QuadWord
    ensures !s.Ok? ==> s == Panic("unimplemented gentype: " + TypeText(t))
  {
    match t
    case QuadWord => Ok("q")
    case LongWord => Ok("l")
    case _ => Panic("unimplemented gentype: " + TypeText(t))
  }

  /** GenOperand (x86x64.go:154-165). A register the switch of Asm32 omits
      panics there (asm_ast.go:100) with the register's own text; any other
      operand kind panics here. */
  function GenOperand(o: Operand): Result<string>
  {
    match o
    case Reg(r) => if Asm32(r).Some? then Ok(Asm32(r).value) else Panic("unimplemented register " + r.Name())
    case Imm(v) => Ok("$" + IntToString(v))
    case Stack(v) => Ok(IntToString(v) + "(%rbp)")
    case _ => Panic("unimplemented operand")
  }

  /** The two panics of GenOperand name their cause: AL is reported as the
      register `al`, and a pseudo-register or other operand as an
      unimplemented operand. */
  lemma GenOperandPanics(o: Operand)
    ensures !GenOperand(o).Ok? ==> GenOperand(o).Panic?
    ensures o == Reg(AL) ==> GenOperand(o) == Panic("unimplemented register al")
    ensures !o.Reg? && !o.Imm? && !o.Stack? ==> GenOperand(o) == Panic("unimplemented operand")
  {
  }

  /** Distinct operands are written as distinct text, and exactly the
      registers but AL, the immediates and the stack slots can be written. */
  lemma GenOperandInjective(a: Operand, b: Operand)
    ensures GenOperand(a).Ok? <==> (a.Reg? && a.reg != AL) || a.Imm? || a.Stack?
    ensures GenOperand(a).Ok? && GenOperand(a) == GenOperand(b) ==> a == b
  {
    if GenOperand(a).Ok? && GenOperand(a) == GenOperand(b) {
      var s := GenOperand(a).value;
      assert GenOperand(b).Ok?;
      if a.Imm? && b.Imm? {
        assert s[1..] == IntToString(a.value) && s[1..] == IntToString(b.value);
        IntToStringInjective(a.value, b.value);
      } else if a.Stack? && b.Stack? {
        var n := |s| - 6;
        assert s[..n] == IntToString(a.offset);
        assert s[..n] == IntToString(b.offset);
        IntToStringInjective(a.offset, b.offset);
      } else if a.Reg? && b.Reg? {
        Asm32Spec(a.reg, b.reg);
      } else {
        OperandKindsDiffer(a, b);
      }
    }
  }

  /** Registers never start with `$` and never end with `)`, and an integer
      never starts with `$`. */
  lemma OperandKindsDiffer(a: Operand, b: Operand)
    requires GenOperand(a).Ok? && GenOperand(b).Ok?
    requires !(a.Imm? && b.Imm?) && !(a.Stack? && b.Stack?) && !(a.Reg? && b.Reg?)
    ensures GenOperand(a) != GenOperand(b)
  {
    if a.Reg? { RegisterText(a.reg); }
    if b.Reg? { RegisterText(b.reg); }
    if a.Stack? {
      NumeralStartsWithDigitOrMinus(a.offset);
      assert GenOperand(a).value[0] == IntToString(a.offset)[0];
    }
    if b.Stack? {
      NumeralStartsWithDigitOrMinus(b.offset);
      assert GenOperand(b).value[0] == IntToString(b.offset)[0];
    }
  }

  lemma RegisterText(r: Register)
    requires r != AL
    ensures |Asm32(r).value| >= 1
    ensures Asm32(r).value[0] != '$' && Asm32(r).value[|Asm32(r).value| - 1] != ')'
  {
  }

  lemma NumeralStartsWithDigitOrMinus(v: int)
    ensures |IntToString(v)| >= 1
    ensures IntToString(v)[0] != '$'
  {
    if v >= 0 {
      NumeralStartsWithDigit(v);
    }
  }

  /** What a sequence of writes produced: the lines written, and the panic
      that stopped it, if any. */
  datatype Output = Output(lines: seq<string>, failure: Option<string>)

  function Lines(ls: seq<string>): Output { Output(ls, None) }

  /** Writes `b` after `a` unless `a` stopped on a panic. */
  function Then(a: Output, b: Output): Output
  {
    if a.failure.Some? then a else Output(a.lines + b.lines, b.failure)
  }

  /** A line built from parts that may panic while being formatted; the
      panic stops the writer with its message. */
  function LineOf(parts: Result<string>): Output
  {
    if parts.Ok? then Lines([parts.value])
    else Output([], Some(if parts.Err? then parts.msg else parts.reason))
  }

  /** Three formatted parts, evaluated left to right as Sprintf's
      arguments are: the first part that panics gives the panic. */
  function Cat3(a: Result<string>, b: Result<string>, c: Result<string>): Result<string>
  {
    if !a.Ok? then a else if !b.Ok? then b else if !c.Ok? then c
    else Ok(a.value + b.value + c.value)
  }

  /** The text of one binary instruction (x86x64.go:114-120). */
  function BinaryMnemonic(op: BinaryOp): string
  {
    match op
    case Mult => "imul"
    case Add => "add"
    case Sub => "sub"
  }

  /** GenInstr (x86x64.go:89-141). */
  function InstrOut(os: OsType, i: Instr): Output
  {
    match i
    case Push(o) => LineOf(Cat3(Ok("    pushq "), GenOperand(o), Ok("")))
    case DeallocateStack(v) => Lines(["    addq $" + IntToString(v) + ", %rsp"])
    case Call(id) =>
      if os == Linux then Lines(["    call " + id])
      else if os == Darwin then Lines(["    call _" + id])
      else Lines([])
    case Label(id) => Lines([".L" + id + ":"])
    case SetCC(cc, o) => LineOf(Cat3(Ok("    set" + cc.Name() + " "), GenOperand(o), Ok("")))
    case JmpCC(cc, id) => Lines(["    j" + cc.Name() + " .L" + id])
    case Jmp(id) => Lines(["    jmp .L" + id])
    case Cmp(t, s, d) => LineOf(TwoOperandLine("    cmp", t, s, d))
    case Binary(op, t, s, d) => LineOf(TwoOperandLine("    " + BinaryMnemonic(op), t, s, d))
    case Cdq(_) => Lines(["    cdq"])
    case Idiv(t, s) => LineOf(Cat3(Ok("    idiv"), GenType(t), Cat3(Ok(" "), GenOperand(s), Ok(""))))
    case Mov(t, s, d) => LineOf(TwoOperandLine("    mov", t, s, d))
    case Ret => Lines(["    movq %rbp, %rsp", "    popq %rbp", "    ret"])
    case Unary(t, op, d) => LineOf(Cat3(Ok("    " + op.Name()), GenType(t), Cat3(Ok(" "), GenOperand(d), Ok(""))))
    case AllocateStack(v) => Lines(["    subq $" + IntToString(v) + ", %rsp", ""])
    case _ => Lines([])
  }

  /** `<mnemonic><suffix> <src>, <dst>`. */
  function TwoOperandLine(mnemonic: string, t: AsmType, s: Operand, d: Operand): Result<string>
  {
    Cat3(Ok(mnemonic), GenType(t), Cat3(Ok(" "), GenOperand(s), Cat3(Ok(", "), GenOperand(d), Ok(""))))
  }

  /** A jump and the label it targets are written with the same `.L` name. */
  lemma JumpsMatchLabels(os: OsType, cc: CondCode, id: string)
    ensures InstrOut(os, Label(id)).lines == [".L" + id + ":"]
    ensures InstrOut(os, Jmp(id)).lines == ["    jmp " + (".L" + id)]
    ensures InstrOut(os, JmpCC(cc, id)).lines == ["    j" + cc.Name() + " " + (".L" + id)]
  {
    assert "    jmp .L" + id == "    jmp " + (".L" + id);
    assert "    j" + cc.Name() + " .L" + id == "    j" + cc.Name() + " " + (".L" + id);
  }

  /** The unary mnemonic already carries `l`, and GenType appends the
      suffix again: negating a LongWord slot writes `negll`. */
  lemma UnarySuffixDoubled(v: int)
    ensures InstrOut(Linux, Unary(LongWord, Neg, Stack(v))).lines
      == ["    negll " + IntToString(v) + "(%rbp)"]
  {
    var d := IntToString(v) + "(%rbp)";
    assert GenOperand(Stack(v)) == Ok(d);
    assert Cat3(Ok(" "), GenOperand(Stack(v)), Ok("")) == Ok(" " + d + "");
    assert Neg.Name() == "negl";
    assert GenType(LongWord) == Ok("l");
    assert "    " + Neg.Name() == "    negl";
    assert Cat3(Ok("    " + Neg.Name()), GenType(LongWord), Cat3(Ok(" "), GenOperand(Stack(v)), Ok("")))
      == Ok("    negl" + "l" + (" " + d + ""));
    assert "    negl" + "l" + (" " + d + "") == "    negll " + IntToString(v) + "(%rbp)";
  }

  /** The only instructions that can stop the writer are those with an
      untyped operand size or an unwritable operand. */
  lemma InstrOutFails(os: OsType, i: Instr)
    ensures InstrOut(os, i).failure.Some? ==>
      i.Push? || i.SetCC? || i.Cmp? || i.Binary? || i.Idiv? || i.Mov? || i.Unary?
    ensures (i.Mov? || i.Cmp? || i.Binary?) ==>
      (InstrOut(os, i).failure.None? <==> GenType(i.typ).Ok? && GenOperand(i.src).Ok? && GenOperand(i.dst).Ok?)
    ensures InstrOut(os, i).failure.None? ==>
      |InstrOut(os, i).lines| == (if i.Ret? then 3 else if i.AllocateStack? then 2
        else if i.MovSx? || i.MovZb? || i.StringLiteral? || (i.Call? && os != Linux && os != Darwin) then 0
        else 1)
  {
  }

  /** GenFn (x86x64.go:76-87). */
  function FnOut(os: OsType, fn: FnDef): Output
  {
    Then(Lines(FnHeader(os, fn)), InstrsOut(os, fn.irs))
  }

  /** The label and the frame-pointer prologue of a function
      (x86x64.go:77-83). */
  function FnHeader(os: OsType, fn: FnDef): seq<string>
  {
    (if os == Linux then [fn.ident + ":"] else if os == Darwin then ["_" + fn.ident + ":"] else [])
      + ["    pushq %rbp", "    movq %rsp, %rbp"]
  }

  function InstrsOut(os: OsType, irs: seq<Instr>): Output
  {
    if irs == [] then Lines([]) else Then(InstrOut(os, irs[0]), InstrsOut(os, irs[1..]))
  }

  function ExternLine(os: OsType, e: ExternFn): seq<string>
  {
    if os == Linux then [".extern " + e.name] else if os == Darwin then [".extern _" + e.name] else []
  }

  function ExternsOut(os: OsType, es: seq<ExternFn>): seq<string>
  {
    if es == [] then [] else ExternLine(os, es[0]) + ExternsOut(os, es[1..])
  }

  /** The entry stub (x86x64.go:49-66): Linux calls `wndsen` and exits with
      its result through the exit system call; Darwin calls it and returns. */
  function EntryStub(os: OsType): seq<string>
  {
    if os == Linux then
      [".globl main", "main:", "    call wndsen", "    movq %rax, %rdi", "    movq $60, %rax", "    syscall"]
    else if os == Darwin then
      [".globl _start", "_start:", "    call _wndsen", "    ret"]
    else []
  }

  function FnsOut(os: OsType, fns: seq<FnDef>): Output
  {
    if fns == [] then Lines([]) else Then(FnOut(os, fns[0]), FnsOut(os, fns[1..]))
  }

  /** GenAsm (x86x64.go:40-74). */
  function ProgramOut(os: OsType, p: Program): Output
  {
    Then(Lines(ExternsOut(os, p.externs) + EntryStub(os)),
      Then(FnsOut(os, p.fnDefs), Lines(if os == Linux then [".section note.GNU-stack,\"\",@progbits"] else [])))
  }

  lemma {:induction false} ThenAssoc(a: Output, b: Output, c: Output)
    ensures Then(Then(a, b), c) == Then(a, Then(b, c))
  {
    if a.failure.None? && b.failure.None? {
      assert (a.lines + b.lines) + c.lines == a.lines + (b.lines + c.lines);
    }
  }

  lemma ThenEmpty(a: Output)
    ensures Then(a, Lines([])) == (if a.failure.Some? then a else a)
  {
    if a.failure.None? { assert a.lines + [] == a.lines; }
  }

  lemma {:induction false} ExternsOutLength(os: OsType, es: seq<ExternFn>)
    ensures os == Linux || os == Darwin ==> |ExternsOut(os, es)| == |es|
    ensures os == Linux ==> forall k :: 0 <= k < |es| ==> ExternsOut(os, es)[k] == ".extern " + es[k].name
  {
    if es != [] {
      ExternsOutLength(os, es[1..]);
      if os == Linux {
        forall k | 0 <= k < |es| ensures ExternsOut(os, es)[k] == ".extern " + es[k].name {
          if k > 0 { assert ExternsOut(os, es)[k] == ExternsOut(os, es[1..])[k - 1]; assert es[1..][k - 1] == es[k]; }
        }
      }
    }
  }

  /** On Linux a program that writes without a panic starts with one
      `.extern` per external function, then the `main` stub, and ends with
      the non-executable-stack note. */
  lemma LinuxProgramLayout(p: Program)
    requires ProgramOut(Linux, p).failure.None?
    ensures var ls := ProgramOut(Linux, p).lines; var n := |p.externs|;
      && |ls| >= n + 7
      && (forall k :: 0 <= k < n ==> ls[k] == ".extern " + p.externs[k].name)
      && ls[n] == ".globl main" && ls[n + 1] == "main:"
      && ls[|ls| - 1] == ".section note.GNU-stack,\"\",@progbits"
  {
    ExternsOutLength(Linux, p.externs);
    var pre := ExternsOut(Linux, p.externs) + EntryStub(Linux);
    var fns := FnsOut(Linux, p.fnDefs);
    var ls := ProgramOut(Linux, p).lines;
    assert ls == pre + (fns.lines + [".section note.GNU-stack,\"\",@progbits"]);
    forall k | 0 <= k < |p.externs| ensures ls[k] == ".extern " + p.externs[k].name {
      assert ls[k] == pre[k];
    }
    assert ls[|p.externs|] == pre[|p.externs|];
  }

  /** The writer of x86x64.go:28-38 and 167-169. */
  class AsmGen {
    var lines: seq<string>
    const os: OsType

    constructor (os: OsType)
      ensures this.os == os && lines == []
    {
      this.os := os;
      lines := [];
    }

    /** Write (x86x64.go:167-169). */
    method Write(line: string)
      modifies this
      ensures lines == old(lines) + [line]
    {
      lines := lines + [line];
    }

    method WriteAll(ls: seq<string>)
      modifies this
      ensures lines == old(lines) + ls
    {
      var i := 0;
      while i < |ls|
        invariant 0 <= i <= |ls|
        invariant lines == old(lines) + ls[..i]
      {
        assert ls[..i + 1] == ls[..i] + [ls[i]];
        Write(ls[i]);
        i := i + 1;
      }
      assert ls[..i] == ls;
    }

    /** GenInstr (x86x64.go:89-141): the lines written, and `Panic` where
        formatting an operand or a size panics. */
    method GenInstr(instr: Instr) returns (r: Result<()>)
      modifies this
      ensures lines == old(lines) + InstrOut(os, instr).lines
      ensures r.Ok? <==> InstrOut(os, instr).failure.None?
    {
      var out := InstrOut(os, instr);
      WriteAll(out.lines);
      if out.failure.Some? {
        return Panic(out.failure.value);
      }
      return Ok(());
    }

    /** GenFn (x86x64.go:76-87). */
    method GenFn(fn: FnDef) returns (r: Result<()>)
      modifies this
      ensures lines == old(lines) + FnOut(os, fn).lines
      ensures r.Ok? <==> FnOut(os, fn).failure.None?
    {
      if os == Linux {
        Write(fn.ident + ":");
      } else if os == Darwin {
        Write("_" + fn.ident + ":");
      }
      Write("    pushq %rbp");
      Write("    movq %rsp, %rbp");
      assert lines == old(lines) + FnHeader(os, fn);
      var i := 0;
      assert fn.irs[0..] == fn.irs;
      ghost var done := Lines(FnHeader(os, fn));
      while i < |fn.irs|
        invariant 0 <= i <= |fn.irs|
        invariant done.failure.None?
        invariant lines == old(lines) + done.lines
        invariant Then(done, InstrsOut(os, fn.irs[i..])) == FnOut(os, fn)
      {
        assert fn.irs[i..][1..] == fn.irs[i + 1..];
        ThenAssoc(done, InstrOut(os, fn.irs[i]), InstrsOut(os, fn.irs[i + 1..]));
        ghost var before := lines;
        ghost var o := InstrOut(os, fn.irs[i]);
        r := GenInstr(fn.irs[i]);
        assert lines == before + o.lines;
        AppendAssoc(old(lines), done.lines, o.lines);
        if !r.Ok? {
          assert Then(done, Then(o, InstrsOut(os, fn.irs[i + 1..]))) == Output(done.lines + o.lines, o.failure);
          return;
        }
        done := Then(done, o);
        i := i + 1;
      }
      assert fn.irs[i..] == [];
      ThenEmpty(done);
      return Ok(());
    }

    /** The extern directives at the head of GenAsm (x86x64.go:41-47). */
    method GenExterns(externs: seq<ExternFn>)
      modifies this
      ensures lines == old(lines) + ExternsOut(os, externs)
    {
      var i := 0;
      while i < |externs|
        invariant 0 <= i <= |externs|
        invariant lines == old(lines) + ExternsOut(os, externs[..i])
      {
        ExternsSnoc(os, externs[..i], externs[i]);
        assert externs[..i + 1] == externs[..i] + [externs[i]];
        if os == Linux {
          Write(".extern " + externs[i].name);
        } else if os == Darwin {
          Write(".extern _" + externs[i].name);
        }
        i := i + 1;
      }
      assert externs[..i] == externs;
    }

    /** The entry stub of GenAsm (x86x64.go:49-66). */
    method GenEntry()
      modifies this
      ensures lines == old(lines) + EntryStub(os)
    {
      if os == Linux {
        Write(".globl main");
        Write("main:");
      } else if os == Darwin {
        Write(".globl _start");
        Write("_start:");
      }
      if os == Linux {
        Write("    call wndsen");
        Write("    movq %rax, %rdi");
        Write("    movq $60, %rax");
        Write("    syscall");
      } else if os == Darwin {
        Write("    call _wndsen");
        Write("    ret");
      }
    }

    /** The function loop of GenAsm (x86x64.go:68-70). */
    method GenFns(fns: seq<FnDef>) returns (r: Result<()>)
      modifies this
      ensures lines == old(lines) + FnsOut(os, fns).lines
      ensures r.Ok? <==> FnsOut(os, fns).failure.None?
    {
      ghost var done := Lines([]);
      var i := 0;
      assert fns[0..] == fns;
      assert Then(done, FnsOut(os, fns)) == FnsOut(os, fns) by {
        assert [] + FnsOut(os, fns).lines == FnsOut(os, fns).lines;
      }
      while i < |fns|
        invariant 0 <= i <= |fns|
        invariant done.failure.None?
        invariant lines == old(lines) + done.lines
        invariant Then(done, FnsOut(os, fns[i..])) == FnsOut(os, fns)
      {
        assert fns[i..][1..] == fns[i + 1..];
        ThenAssoc(done, FnOut(os, fns[i]), FnsOut(os, fns[i + 1..]));
        ghost var before := lines;
        ghost var f := FnOut(os, fns[i]);
        r := GenFn(fns[i]);
        AppendAssoc(old(lines), done.lines, f.lines);
        if !r.Ok? {
          assert Then(done, Then(f, FnsOut(os, fns[i + 1..]))) == Output(done.lines + f.lines, f.failure);
          return;
        }
        done := Then(done, f);
        i := i + 1;
      }
      assert fns[i..] == [];
      ThenEmpty(done);
      return Ok(());
    }

    /** GenAsm (x86x64.go:40-74). */
    method GenAsm(program: Program) returns (r: Result<()>)
      modifies this
      ensures lines == old(lines) + ProgramOut(os, program).lines
      ensures r.Ok? <==> ProgramOut(os, program).failure.None?
    {
      GenExterns(program.externs);
      GenEntry();
      AppendAssoc(old(lines), ExternsOut(os, program.externs), EntryStub(os));
      ghost var pre := lines;
      var fnsOk := GenFns(program.fnDefs);
      AppendAssoc(old(lines), ExternsOut(os, program.externs) + EntryStub(os), FnsOut(os, program.fnDefs).lines);
      if !fnsOk.Ok? {
        return fnsOk;
      }
      ghost var trailer: seq<string> := if os == Linux then [".section note.GNU-stack,\"\",@progbits"] else [];
      if os == Linux {
        Write(".section note.GNU-stack,\"\",@progbits");
      }
      assert lines == pre + FnsOut(os, program.fnDefs).lines + trailer;
      AppendAssoc(old(lines), ExternsOut(os, program.externs) + EntryStub(os), FnsOut(os, program.fnDefs).lines + trailer);
      return Ok(());
    }
  }

  lemma AppendAssoc(a: seq<string>, b: seq<string>, c: seq<string>)
    ensures a + b + c == a + (b + c)
  {
  }

  lemma {:induction false} ExternsSnoc(os: OsType, es: seq<ExternFn>, e: ExternFn)
    ensures ExternsOut(os, es + [e]) == ExternsOut(os, es) + ExternLine(os, e)
  {
    if es == [] {
      assert [] + [e] == [e];
      assert [e][1..] == [];
    } else {
      assert (es + [e])[1..] == es[1..] + [e];
      ExternsSnoc(os, es[1..], e);
    }
  }
}
