// code_gen/convert.go: the pass that transliterates symbol names (function
// names, call targets, labels and extern names) before the assembly text is
// written. The conversion itself lives in a package that is not part of this
// model, so every member takes it as the parameter `conv`.
module Convert {
  import opened AsmAst
  import Emitter

  /** TranslateInInstr (convert.go:13-24). */
  function TranslateInInstr(conv: string -> string, i: Instr): Instr
  {
    match i
    case Label(id) => Label(conv(id))
    case Call(id) => Call(conv(id))
    case _ => i
  }

  /** Only `Label` and `Call` change, and only in their identifier: the
      instruction kind and the registers it names are kept, and a
      conversion that fixes the name changes nothing. */
  lemma TranslateInInstrSpec(conv: string -> string, i: Instr)
    ensures TranslateInInstr(conv, i).Label? <==> i.Label?
    ensures TranslateInInstr(conv, i).Call? <==> i.Call?
    ensures (i.Label? || i.Call?) ==> TranslateInInstr(conv, i).ident == conv(i.ident)
    ensures !i.Label? && !i.Call? ==> TranslateInInstr(conv, i) == i
    ensures (i.Label? || i.Call?) && conv(i.ident) == i.ident ==> TranslateInInstr(conv, i) == i
    ensures InstrRegs(TranslateInInstr(conv, i)) == InstrRegs(i)
  {
  }

  /** The instruction list after the loop of TranslateInFn (convert.go:29-31). */
  function TranslateAll(conv: string -> string, irs: seq<Instr>): (r: seq<Instr>)
    ensures |r| == |irs|
    ensures forall k :: 0 <= k < |irs| ==> r[k] == TranslateInInstr(conv, irs[k])
  {
    seq(|irs|, k requires 0 <= k < |irs| => TranslateInInstr(conv, irs[k]))
  }

  function ConvertAll(conv: string -> string, names: seq<string>): seq<string>
  {
    if names == [] then [] else [conv(names[0])] + ConvertAll(conv, names[1..])
  }

  /** The targets of `jmp` and `j<cc>`, in order. */
  function JumpTargets(s: seq<Instr>): seq<string>
  {
    if s == [] then [] else (if s[0].Jmp? || s[0].JmpCC? then [s[0].ident] else []) + JumpTargets(s[1..])
  }

  /** Labels are renamed through `conv`, in order, while jump targets are
      left as they were. */
  lemma {:induction false} TranslateAllNames(conv: string -> string, irs: seq<Instr>)
    ensures Emitter.AsmLabels(TranslateAll(conv, irs)) == ConvertAll(conv, Emitter.AsmLabels(irs))
    ensures JumpTargets(TranslateAll(conv, irs)) == JumpTargets(irs)
  {
    if irs != [] {
      assert TranslateAll(conv, irs)[1..] == TranslateAll(conv, irs[1..]);
      TranslateAllNames(conv, irs[1..]);
      ConvertAllConcat(conv, if irs[0].Label? then [irs[0].ident] else [], Emitter.AsmLabels(irs[1..]));
    }
  }

  lemma {:induction false} ConvertAllConcat(conv: string -> string, a: seq<string>, b: seq<string>)
    ensures ConvertAll(conv, a + b) == ConvertAll(conv, a) + ConvertAll(conv, b)
  {
    if a != [] {
      assert (a + b)[1..] == a[1..] + b;
      ConvertAllConcat(conv, a[1..], b);
    } else {
      assert a + b == b;
    }
  }

  /** A jump and its label stay matched only when `conv` fixes the label's
      name: in `jmp x; x:` the jump keeps `x` while the label becomes
      `conv(x)`. */
  lemma JumpKeepsOldLabel(conv: string -> string, x: string)
    ensures var out := TranslateAll(conv, [Jmp(x), Label(x)]);
      JumpTargets(out) == [x] && (x in Emitter.AsmLabels(out) <==> conv(x) == x)
  {
    var out := TranslateAll(conv, [Jmp(x), Label(x)]);
    assert out == [Jmp(x), Label(conv(x))];
    assert out[1..] == [Label(conv(x))];
    assert out[1..][1..] == [];
    assert Emitter.AsmLabels(out[1..]) == [conv(x)] + Emitter.AsmLabels(out[1..][1..]);
    assert Emitter.AsmLabels(out) == [] + Emitter.AsmLabels(out[1..]);
    assert JumpTargets(out[1..]) == [];
  }

  /** The function record TranslateInFn returns (convert.go:26-34). */
  function TranslateFn(conv: string -> string, fn: FnDef): FnDef
  {
    FnDef(conv(fn.ident), TranslateAll(conv, fn.irs))
  }

  /** TranslateInFn (convert.go:26-34): the identifier is converted and the
      instructions are overwritten one by one, in place. */
  method TranslateInFn(conv: string -> string, fn: FnDef) returns (r: FnDef)
    ensures r.ident == conv(fn.ident)
    ensures |r.irs| == |fn.irs|
    ensures forall k :: 0 <= k < |fn.irs| ==> r.irs[k] == TranslateInInstr(conv, fn.irs[k])
    ensures r == TranslateFn(conv, fn)
  {
    var irs := fn.irs;
    var i := 0;
    while i < |irs|
      invariant 0 <= i <= |irs| == |fn.irs|
      invariant forall k :: 0 <= k < i ==> irs[k] == TranslateInInstr(conv, fn.irs[k])
      invariant forall k :: i <= k < |irs| ==> irs[k] == fn.irs[k]
    {
      irs := irs[i := TranslateInInstr(conv, irs[i])];
      i := i + 1;
    }
    r := FnDef(conv(fn.ident), irs);
  }

  /** TranslateProgram (convert.go:36-48): every function is translated, in
      order, and every extern name is converted in place. */
  method TranslateProgram(conv: string -> string, program: Program) returns (r: Program)
    ensures |r.fnDefs| == |program.fnDefs|
    ensures forall k :: 0 <= k < |program.fnDefs| ==> r.fnDefs[k] == TranslateFn(conv, program.fnDefs[k])
    ensures |r.externs| == |program.externs|
    ensures forall k :: 0 <= k < |program.externs| ==> r.externs[k] == ExternFn(conv(program.externs[k].name))
  {
    var fnDefs: seq<FnDef> := [];
    var i := 0;
    while i < |program.fnDefs|
      invariant 0 <= i <= |program.fnDefs|
      invariant |fnDefs| == i
      invariant forall k :: 0 <= k < i ==> fnDefs[k] == TranslateFn(conv, program.fnDefs[k])
    {
      var f := TranslateInFn(conv, program.fnDefs[i]);
      fnDefs := fnDefs + [f];
      i := i + 1;
    }
    var externs := program.externs;
    var j := 0;
    while j < |externs|
      invariant 0 <= j <= |externs| == |program.externs|
      invariant forall k :: 0 <= k < j ==> externs[k] == ExternFn(conv(program.externs[k].name))
      invariant forall k :: j <= k < |externs| ==> externs[k] == program.externs[k]
    {
      var translated := conv(externs[j].name);
      externs := externs[j := externs[j].(name := translated)];
      j := j + 1;
    }
    r := Program(fnDefs, externs);
  }
}
