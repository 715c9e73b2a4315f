// code_gen/pseudo.go: replaces every pseudo-register with a stack slot
// below the frame pointer, four bytes per name, and records each
// function's frame size in the front end's symbol table.
module Pseudo {
  import opened Wrappers
  import opened AsmAst
  import Symbols
  import Rounding

  /** ReplacementState (pseudo.go:10-13). The Go map is a reference; the
      model threads it through every result instead. */
  datatype ReplacementState = ReplacementState(currentOffset: int, offsetMap: map<string, int>)

  /** `m2` keeps every slot of `m1`. */
  predicate Extends(m1: map<string, int>, m2: map<string, int>)
  {
    forall x :: x in m1 ==> x in m2 && m2[x] == m1[x]
  }

  /** A well-formed frame: 4-byte slots between the current offset and -4,
      one distinct slot per name, and no slot not yet allocated. */
  predicate Good(st: ReplacementState)
  {
    && st.currentOffset <= 0
    && st.currentOffset % 4 == 0
    && (forall x :: x in st.offsetMap ==>
          st.currentOffset <= st.offsetMap[x] <= -4 && st.offsetMap[x] % 4 == 0)
    && (forall x, y :: x in st.offsetMap && y in st.offsetMap && x != y ==> st.offsetMap[x] != st.offsetMap[y])
    && 4 * |st.offsetMap| == -st.currentOffset
  }

  /** The state each function starts from when the map is fresh. */
  lemma InitialStateGood()
    ensures Good(ReplacementState(0, map[]))
  {
  }

  /** ReplaceOperand (pseudo.go:22-36): a known pseudo gets its slot; a new
      one gets the next slot four bytes lower; other operands pass. */
  function ReplaceOperand(o: Operand, st: ReplacementState): (r: (ReplacementState, Operand))
    ensures !r.1.Pseudo?
    ensures Extends(st.offsetMap, r.0.offsetMap)
    ensures o.Pseudo? ==> o.ident in r.0.offsetMap && r.1 == Stack(r.0.offsetMap[o.ident])
    ensures o.Pseudo? ==> r.0.offsetMap.Keys == st.offsetMap.Keys + {o.ident}
    ensures !o.Pseudo? ==> r == (st, o)
    ensures Good(st) ==> Good(r.0)
  {
    match o
    case Pseudo(id) =>
      if id in st.offsetMap then (st, Stack(st.offsetMap[id]))
      else
        var off := st.currentOffset - 4;
        NewSlotGood(st, id);
        (ReplacementState(off, st.offsetMap[id := off]), Stack(off))
    case _ => (st, o)
  }

  /** A new name takes the next slot down and keeps the frame well formed. */
  lemma NewSlotGood(st: ReplacementState, id: string)
    ensures var off := st.currentOffset - 4;
      Good(st) && id !in st.offsetMap ==> Good(ReplacementState(off, st.offsetMap[id := off]))
  {
    var off := st.currentOffset - 4;
    if Good(st) && id !in st.offsetMap {
      var m := st.offsetMap[id := off];
      assert |m| == |st.offsetMap| + 1;
      forall x | x in m
        ensures off <= m[x] <= -4 && m[x] % 4 == 0
      {
      }
    }
  }

  /** The slot a pseudo gets under a final assignment. */
  function Subst(o: Operand, m: map<string, int>): Operand
  {
    if o.Pseudo? && o.ident in m then Stack(m[o.ident]) else o
  }

  /** The instructions the pass rewrites; Push, MovSx, MovZb and the rest
      are kept as they are (pseudo.go:102-103). */
  function SubstInstr(i: Instr, m: map<string, int>): Instr
  {
    match i
    case SetCC(cc, o) => SetCC(cc, Subst(o, m))
    case Cmp(t, s, d) => Cmp(t, Subst(s, m), Subst(d, m))
    case Mov(t, s, d) => Mov(t, Subst(s, m), Subst(d, m))
    case Unary(t, op, d) => Unary(t, op, Subst(d, m))
    case Binary(op, t, s, d) => Binary(op, t, Subst(s, m), Subst(d, m))
    case Idiv(t, s) => Idiv(t, Subst(s, m))
    case _ => i
  }

  /** The pseudo names an instruction's rewritten operands mention. */
  function PseudoNames(o: Operand): set<string> { if o.Pseudo? then {o.ident} else {} }

  function InstrPseudos(i: Instr): set<string>
  {
    match i
    case SetCC(_, o) => PseudoNames(o)
    case Cmp(_, s, d) => PseudoNames(s) + PseudoNames(d)
    case Mov(_, s, d) => PseudoNames(s) + PseudoNames(d)
    case Unary(_, _, d) => PseudoNames(d)
    case Binary(_, _, s, d) => PseudoNames(s) + PseudoNames(d)
    case Idiv(_, s) => PseudoNames(s)
    case _ => {}
  }

  /** A source then a destination operand, as the two-operand cases of
      ReplacePseudosInInstruction do (pseudo.go:52-53). */
  function ReplacePair(s: Operand, d: Operand, st: ReplacementState): (r: (ReplacementState, Operand, Operand))
    ensures Extends(st.offsetMap, r.0.offsetMap)
    ensures r.0.offsetMap.Keys == st.offsetMap.Keys + PseudoNames(s) + PseudoNames(d)
    ensures r.1 == Subst(s, r.0.offsetMap) && r.2 == Subst(d, r.0.offsetMap)
    ensures Good(st) ==> Good(r.0)
  {
    var (s1, o1) := ReplaceOperand(s, st);
    var (s2, o2) := ReplaceOperand(d, s1);
    (s2, o1, o2)
  }

  /** ReplacePseudosInInstruction (pseudo.go:38-105): sources are replaced
      before destinations; AllocateStack panics. */
  function ReplaceInstr(i: Instr, st: ReplacementState): (r: Result<(ReplacementState, Instr)>)
    ensures r.Ok? <==> !i.AllocateStack?
  {
    match i
    case SetCC(cc, o) =>
      var r := ReplaceOperand(o, st);
      Ok((r.0, SetCC(cc, r.1)))
    case Cmp(t, s, d) =>
      var r := ReplacePair(s, d, st);
      Ok((r.0, Cmp(t, r.1, r.2)))
    case Mov(t, s, d) =>
      var r := ReplacePair(s, d, st);
      Ok((r.0, Mov(t, r.1, r.2)))
    case Unary(t, op, d) =>
      var r := ReplaceOperand(d, st);
      Ok((r.0, Unary(t, op, r.1)))
    case Binary(op, t, s, d) =>
      var r := ReplacePair(s, d, st);
      Ok((r.0, Binary(op, t, r.1, r.2)))
    case Idiv(t, s) =>
      var r := ReplaceOperand(s, st);
      Ok((r.0, Idiv(t, r.1)))
    case Cdq(t) => Ok((st, Cdq(t)))
    case AllocateStack(_) => Panic("you are not belong to us")
    case _ => Ok((st, i))
  }

  /** What the pass does to one instruction: it is rewritten with the slots
      of the state after it, and that state extends the earlier one by the
      names the instruction uses and keeps the frame well formed. */
  predicate FrameOk(i: Instr, st: ReplacementState)
  {
    var r := ReplaceInstr(i, st);
    r.Ok? ==>
      && Extends(st.offsetMap, r.value.0.offsetMap)
      && r.value.0.offsetMap.Keys == st.offsetMap.Keys + InstrPseudos(i)
      && r.value.1 == SubstInstr(i, r.value.0.offsetMap)
      && (Good(st) ==> Good(r.value.0))
  }

  lemma ReplaceInstrFrame(i: Instr, st: ReplacementState)
    ensures FrameOk(i, st)
  {
    match i
    case SetCC(cc, o) => SetCCFrame(cc, o, st);
    case Cmp(t, s, d) => CmpFrame(t, s, d, st);
    case Mov(t, s, d) => MovFrame(t, s, d, st);
    case Unary(t, op, d) => UnaryFrame(t, op, d, st);
    case Binary(op, t, s, d) => BinaryFrame(op, t, s, d, st);
    case Idiv(t, s) => IdivFrame(t, s, st);
    case _ => PassThroughFrame(i, st);
  }

  lemma PassThroughFrame(i: Instr, st: ReplacementState)
    requires !(i.SetCC? || i.Cmp? || i.Mov? || i.Unary? || i.Binary? || i.Idiv?)
    ensures FrameOk(i, st)
  {
    if !i.AllocateStack? {
      assert ReplaceInstr(i, st) == Ok((st, i));
      assert SubstInstr(i, st.offsetMap) == i;
      assert InstrPseudos(i) == {};
    }
  }

  lemma SetCCFrame(cc: CondCode, o: Operand, st: ReplacementState)
    ensures FrameOk(SetCC(cc, o), st)
  {
    var r := ReplaceOperand(o, st);
    OneFrame(SetCC(cc, o), st, r.0, SetCC(cc, r.1), o);
  }

  lemma CmpFrame(t: AsmType, s: Operand, d: Operand, st: ReplacementState)
    ensures FrameOk(Cmp(t, s, d), st)
  {
    var r := ReplacePair(s, d, st);
    PairFrame(Cmp(t, s, d), st, r.0, Cmp(t, r.1, r.2), s, d);
  }

  lemma MovFrame(t: AsmType, s: Operand, d: Operand, st: ReplacementState)
    ensures FrameOk(Mov(t, s, d), st)
  {
    var r := ReplacePair(s, d, st);
    var i := Mov(t, s, d);
    MovPair(t, s, d, st);
    assert InstrPseudos(i) == PseudoNames(s) + PseudoNames(d);
    assert Mov(t, r.1, r.2) == SubstInstr(i, r.0.offsetMap);
    PairFrame(i, st, r.0, Mov(t, r.1, r.2), s, d);
  }

  lemma UnaryFrame(t: AsmType, op: UnaryOp, d: Operand, st: ReplacementState)
    ensures FrameOk(Unary(t, op, d), st)
  {
    var r := ReplaceOperand(d, st);
    OneFrame(Unary(t, op, d), st, r.0, Unary(t, op, r.1), d);
  }

  lemma BinaryFrame(op: BinaryOp, t: AsmType, s: Operand, d: Operand, st: ReplacementState)
    ensures FrameOk(Binary(op, t, s, d), st)
  {
    var r := ReplacePair(s, d, st);
    PairFrame(Binary(op, t, s, d), st, r.0, Binary(op, t, r.1, r.2), s, d);
  }

  lemma IdivFrame(t: AsmType, s: Operand, st: ReplacementState)
    ensures FrameOk(Idiv(t, s), st)
  {
    var r := ReplaceOperand(s, st);
    OneFrame(Idiv(t, s), st, r.0, Idiv(t, r.1), s);
  }

  /** FrameOk of an instruction whose one operand `o` was replaced. */
  lemma OneFrame(i: Instr, st: ReplacementState, st1: ReplacementState, i1: Instr, o: Operand)
    requires ReplaceInstr(i, st) == Ok((st1, i1)) && ReplaceOperand(o, st).0 == st1
    requires InstrPseudos(i) == PseudoNames(o) && i1 == SubstInstr(i, st1.offsetMap)
    ensures FrameOk(i, st)
  {
  }

  /** FrameOk of an instruction whose source `s` and destination `d` were
      replaced. */
  lemma PairFrame(i: Instr, st: ReplacementState, st1: ReplacementState, i1: Instr, s: Operand, d: Operand)
    requires ReplaceInstr(i, st) == Ok((st1, i1)) && ReplacePair(s, d, st).0 == st1
    requires InstrPseudos(i) == PseudoNames(s) + PseudoNames(d) && i1 == SubstInstr(i, st1.offsetMap)
    ensures FrameOk(i, st)
  {
  }

  /** The pass over one instruction list, threading the state. */
  function ReplaceAll(irs: seq<Instr>, st: ReplacementState): Result<(ReplacementState, seq<Instr>)>
  {
    if irs == [] then Ok((st, []))
    else
      var h := ReplaceInstr(irs[0], st);
      if !h.Ok? then h.PropagateFailure()
      else
        var t := ReplaceAll(irs[1..], h.value.0);
        if !t.Ok? then t else Ok((t.value.0, [h.value.1] + t.value.1))
  }

  lemma SubstStable(i: Instr, m1: map<string, int>, m2: map<string, int>)
    requires Extends(m1, m2) && InstrPseudos(i) <= m1.Keys
    ensures SubstInstr(i, m1) == SubstInstr(i, m2)
  {
  }

  function AllPseudos(irs: seq<Instr>): set<string>
  {
    if irs == [] then {} else InstrPseudos(irs[0]) + AllPseudos(irs[1..])
  }

  /** The final state extends the incoming assignment by exactly the names
      used, and a well-formed frame stays well formed. */
  lemma {:induction false} ReplaceAllFrame(irs: seq<Instr>, st: ReplacementState)
    requires ReplaceAll(irs, st).Ok?
    ensures Extends(st.offsetMap, ReplaceAll(irs, st).value.0.offsetMap)
    ensures ReplaceAll(irs, st).value.0.offsetMap.Keys == st.offsetMap.Keys + AllPseudos(irs)
    ensures Good(st) ==> Good(ReplaceAll(irs, st).value.0)
  {
    if irs != [] {
      var h := ReplaceInstr(irs[0], st).value;
      ReplaceInstrFrame(irs[0], st);
      assert FrameOk(irs[0], st);
      ReplaceAllFrame(irs[1..], h.0);
    }
  }

  /** The pass is a substitution: every instruction is rewritten with one
      final assignment of slots. Together with ReplaceAllFrame and
      InitialStateGood: with a fresh map that assignment is injective and
      within the frame, so distinct pseudo-registers never share a slot. */
  lemma {:induction false} ReplaceAllIsSubstitution(irs: seq<Instr>, st: ReplacementState)
    requires ReplaceAll(irs, st).Ok?
    ensures |ReplaceAll(irs, st).value.1| == |irs|
    ensures forall k :: 0 <= k < |irs| ==>
      ReplaceAll(irs, st).value.1[k] == SubstInstr(irs[k], ReplaceAll(irs, st).value.0.offsetMap)
  {
    if irs != [] {
      var h := ReplaceInstr(irs[0], st).value;
      var tail := ReplaceAll(irs[1..], h.0).value;
      ReplaceAllIsSubstitution(irs[1..], h.0);
      ReplaceAllFrame(irs[1..], h.0);
      ReplaceInstrFrame(irs[0], st);
      var fin := tail.0.offsetMap;
      var out := ReplaceAll(irs, st).value.1;
      assert out == [h.1] + tail.1;
      SubstStable(irs[0], h.0.offsetMap, fin);
      forall k | 0 <= k < |irs| ensures out[k] == SubstInstr(irs[k], fin) {
        if k > 0 { assert out[k] == tail.1[k - 1]; assert irs[1..][k - 1] == irs[k]; }
      }
    }
  }

  /** No instruction the pass rewrites keeps a pseudo operand. */
  lemma NoPseudoAfterSubst(i: Instr, m: map<string, int>)
    requires InstrPseudos(i) <= m.Keys
    ensures InstrPseudos(SubstInstr(i, m)) == {}
  {
  }

  /** ReplacePseudosInFn (pseudo.go:107-114): each instruction is replaced
      in place, in order. */
  method ReplacePseudosInFn(fn: FnDef, st: ReplacementState) returns (r: Result<(ReplacementState, FnDef)>)
    ensures ReplaceAll(fn.irs, st).Ok? ==>
      r == Ok((ReplaceAll(fn.irs, st).value.0, FnDef(fn.ident, ReplaceAll(fn.irs, st).value.1)))
    ensures !ReplaceAll(fn.irs, st).Ok? ==> r == ReplaceAll(fn.irs, st).PropagateFailure()
  {
    var irs := fn.irs;
    var state := st;
    var i := 0;
    PrefixedEmpty(ReplaceAll(fn.irs, st));
    assert fn.irs[0..] == fn.irs;
    while i < |irs|
      invariant 0 <= i <= |irs| == |fn.irs|
      invariant irs[i..] == fn.irs[i..]
      invariant ReplaceAll(fn.irs, st) == Prefixed(irs[..i], ReplaceAll(fn.irs[i..], state))
    {
      assert fn.irs[i..][1..] == fn.irs[i + 1..];
      var h := ReplaceInstr(irs[i], state);
      if !h.Ok? {
        return h.PropagateFailure();
      }
      PrefixedStep(irs[..i], h.value.1, ReplaceAll(fn.irs[i + 1..], h.value.0));
      assert irs[i := h.value.1][..i + 1] == irs[..i] + [h.value.1];
      assert irs[i := h.value.1][i + 1..] == irs[i + 1..];
      irs := irs[i := h.value.1];
      state := h.value.0;
      i := i + 1;
    }
    assert fn.irs[i..] == [];
    assert irs[..i] == irs;
    assert irs + [] == irs;
    return Ok((state, FnDef(fn.ident, irs)));
  }

  function Prefixed(done: seq<Instr>, r: Result<(ReplacementState, seq<Instr>)>): Result<(ReplacementState, seq<Instr>)>
  {
    if r.Ok? then Ok((r.value.0, done + r.value.1)) else r
  }

  lemma PrefixedStep(done: seq<Instr>, x: Instr, r: Result<(ReplacementState, seq<Instr>)>)
    ensures Prefixed(done, if r.Ok? then Ok((r.value.0, [x] + r.value.1)) else r) == Prefixed(done + [x], r)
  {
    if r.Ok? { assert done + ([x] + r.value.1) == (done + [x]) + r.value.1; }
  }

  lemma PrefixedEmpty(r: Result<(ReplacementState, seq<Instr>)>)
    ensures Prefixed([], r) == r
  {
    if r.Ok? { assert [] + r.value.1 == r.value.1; }
  }

  /** The pass over a program: every function starts at offset 0 but all of
      them share one offset map (pseudo.go:117-126). The frame sizes it
      records are returned alongside, in function order. */
  function ReplaceFns(fns: seq<FnDef>, m: map<string, int>): Result<(seq<FnDef>, seq<(string, nat)>)>
  {
    if fns == [] then Ok(([], []))
    else
      var r := ReplaceAll(fns[0].irs, ReplacementState(0, m));
      if !r.Ok? then r.PropagateFailure()
      else
        var t := ReplaceFns(fns[1..], r.value.0.offsetMap);
        if !t.Ok? then t
        else Ok(([FnDef(fns[0].ident, r.value.1)] + t.value.0,
                 [(fns[0].ident, Rounding.Abs(r.value.0.currentOffset))] + t.value.1))
  }

  /** The symbol table after recording the frame sizes; `None` where a name
      is missing and the source dereferences nil. */
  function ApplyFrameSizes(entries: map<string, Symbols.Entry>, sizes: seq<(string, nat)>): Option<map<string, Symbols.Entry>>
  {
    if sizes == [] then Some(entries)
    else if sizes[0].0 !in entries then None
    else ApplyFrameSizes(entries[sizes[0].0 := entries[sizes[0].0].(stackFrameSize := sizes[0].1)], sizes[1..])
  }

  /** ReplacePseudosInProgram (pseudo.go:116-128). */
  method ReplacePseudosInProgram(program: Program, symbolTable: Symbols.SymbolTable) returns (r: Result<Program>)
    modifies symbolTable
    ensures var spec := ReplaceFns(program.fnDefs, map[]);
      spec.Ok? && ApplyFrameSizes(old(symbolTable.entries), spec.value.1).Some? ==>
        r == Ok(Program(spec.value.0, program.externs))
        && symbolTable.entries == ApplyFrameSizes(old(symbolTable.entries), spec.value.1).value
    ensures var spec := ReplaceFns(program.fnDefs, map[]);
      !(spec.Ok? && ApplyFrameSizes(old(symbolTable.entries), spec.value.1).Some?) ==> !r.Ok?
  {
    var sharedMap: map<string, int> := map[];
    var asmFnDefs: seq<FnDef> := [];
    ghost var sizes: seq<(string, nat)> := [];
    var i := 0;
    JoinedEmpty(ReplaceFns(program.fnDefs, map[]));
    assert program.fnDefs[0..] == program.fnDefs;
    while i < |program.fnDefs|
      invariant 0 <= i <= |program.fnDefs|
      invariant ReplaceFns(program.fnDefs, map[]) == Joined(asmFnDefs, sizes, ReplaceFns(program.fnDefs[i..], sharedMap))
      invariant ApplyFrameSizes(old(symbolTable.entries), sizes) == Some(symbolTable.entries)
    {
      var fn := program.fnDefs[i];
      assert program.fnDefs[i..][1..] == program.fnDefs[i + 1..];
      var res := ReplacePseudosInFn(fn, ReplacementState(0, sharedMap));
      if !res.Ok? {
        return res.PropagateFailure();
      }
      var (finalState, asmFnDef) := res.value;
      var bytes := Rounding.Abs(finalState.currentOffset);
      JoinedStep(asmFnDefs, sizes, asmFnDef, (fn.ident, bytes), ReplaceFns(program.fnDefs[i + 1..], finalState.offsetMap));
      ApplyFrameSizesSnoc(old(symbolTable.entries), sizes, (fn.ident, bytes));
      var recorded := symbolTable.SetBytesRequired(fn.ident, bytes);
      if !recorded.Ok? {
        ApplyFrameSizesPrefixNone(old(symbolTable.entries), sizes + [(fn.ident, bytes)],
          if ReplaceFns(program.fnDefs[i + 1..], finalState.offsetMap).Ok? then ReplaceFns(program.fnDefs[i + 1..], finalState.offsetMap).value.1 else []);
        return Panic(recorded.reason);
      }
      asmFnDefs := asmFnDefs + [asmFnDef];
      sizes := sizes + [(fn.ident, bytes)];
      sharedMap := finalState.offsetMap;
      i := i + 1;
    }
    assert program.fnDefs[i..] == [];
    assert asmFnDefs + [] == asmFnDefs && sizes + [] == sizes;
    return Ok(Program(asmFnDefs, program.externs));
  }

  function Joined(fns: seq<FnDef>, sizes: seq<(string, nat)>, r: Result<(seq<FnDef>, seq<(string, nat)>)>): Result<(seq<FnDef>, seq<(string, nat)>)>
  {
    if r.Ok? then Ok((fns + r.value.0, sizes + r.value.1)) else r
  }

  lemma JoinedEmpty(r: Result<(seq<FnDef>, seq<(string, nat)>)>)
    ensures Joined([], [], r) == r
  {
    if r.Ok? { assert [] + r.value.0 == r.value.0; assert [] + r.value.1 == r.value.1; }
  }

  lemma JoinedStep(fns: seq<FnDef>, sizes: seq<(string, nat)>, f: FnDef, z: (string, nat),
                   r: Result<(seq<FnDef>, seq<(string, nat)>)>)
    ensures Joined(fns, sizes, if r.Ok? then Ok(([f] + r.value.0, [z] + r.value.1)) else r)
         == Joined(fns + [f], sizes + [z], r)
  {
    if r.Ok? {
      assert fns + ([f] + r.value.0) == (fns + [f]) + r.value.0;
      assert sizes + ([z] + r.value.1) == (sizes + [z]) + r.value.1;
    }
  }

  lemma {:induction false} ApplyFrameSizesPrefixNone(entries: map<string, Symbols.Entry>, a: seq<(string, nat)>, b: seq<(string, nat)>)
    requires ApplyFrameSizes(entries, a).None?
    ensures ApplyFrameSizes(entries, a + b).None?
  {
    assert a != [];
    assert (a + b)[0] == a[0];
    if a[0].0 in entries {
      assert (a + b)[1..] == a[1..] + b;
      ApplyFrameSizesPrefixNone(entries[a[0].0 := entries[a[0].0].(stackFrameSize := a[0].1)], a[1..], b);
    }
  }

  lemma {:induction false} ApplyFrameSizesSnoc(entries: map<string, Symbols.Entry>, sizes: seq<(string, nat)>, z: (string, nat))
    ensures ApplyFrameSizes(entries, sizes + [z]) ==
      (var m := ApplyFrameSizes(entries, sizes);
       if m.None? then None
       else if z.0 !in m.value then None
       else Some(m.value[z.0 := m.value[z.0].(stackFrameSize := z.1)]))
  {
    if sizes == [] {
      assert sizes + [z] == [z];
      assert [z][1..] == [];
    } else {
      assert (sizes + [z])[1..] == sizes[1..] + [z];
      if sizes[0].0 in entries {
        ApplyFrameSizesSnoc(entries[sizes[0].0 := entries[sizes[0].0].(stackFrameSize := sizes[0].1)], sizes[1..], z);
      }
    }
  }

  /** Because the map is shared while the offset restarts at 0, a second
      function can give a name it has in common with the first function and
      one of its own names the same slot: here `b` and `d` both land at -8
      in `g`. */
  lemma SharedMapCollision()
    ensures var f := FnDef("f", [Mov(LongWord, Pseudo("a"), Pseudo("b"))]);
      var g := FnDef("g", [Mov(LongWord, Pseudo("c"), Pseudo("b")), Mov(LongWord, Pseudo("d"), Reg(AX))]);
      var r := ReplaceFns([f, g], map[]);
      && r.Ok?
      && r.value.0[1].irs == [Mov(LongWord, Stack(-4), Stack(-8)), Mov(LongWord, Stack(-8), Reg(AX))]
      && r.value.1 == [("f", 8), ("g", 8)]
  {
    var f := FnDef("f", [Mov(LongWord, Pseudo("a"), Pseudo("b"))]);
    var g := FnDef("g", [Mov(LongWord, Pseudo("c"), Pseudo("b")), Mov(LongWord, Pseudo("d"), Reg(AX))]);
    var m1 := map["a" := -4, "b" := -8];
    var gOut := [Mov(LongWord, Stack(-4), Stack(-8)), Mov(LongWord, Stack(-8), Reg(AX))];
    var gFin := ReplacementState(-8, m1["c" := -4]["d" := -8]);
    CollisionFirst();
    CollisionSecond();
    assert [f, g][1..] == [g];
    assert [g][1..] == [];
    assert ReplaceFns([], gFin.offsetMap) == Ok(([], []));
    assert Rounding.Abs(-8) == 8;
    assert ReplaceAll(g.irs, ReplacementState(0, m1)) == Ok((gFin, gOut));
    var gDef := FnDef("g", gOut);
    assert [gDef] + [] == [gDef];
    assert [("g", 8 as nat)] + [] == [("g", 8)];
    assert ReplaceFns([g], m1) == Ok(([gDef], [("g", 8)]));
    var fDef := FnDef("f", [Mov(LongWord, Stack(-4), Stack(-8))]);
    assert ReplaceAll(f.irs, ReplacementState(0, map[])) == Ok((ReplacementState(-8, m1), fDef.irs));
    assert [fDef] + [gDef] == [fDef, gDef];
    assert [("f", 8 as nat)] + [("g", 8 as nat)] == [("f", 8), ("g", 8)];
  }

  lemma CollisionFirst()
    ensures ReplaceAll([Mov(LongWord, Pseudo("a"), Pseudo("b"))], ReplacementState(0, map[]))
      == Ok((ReplacementState(-8, map["a" := -4, "b" := -8]), [Mov(LongWord, Stack(-4), Stack(-8))]))
  {
    var s0 := ReplacementState(0, map[]);
    var sa := ReplacementState(-4, map["a" := -4]);
    var sb := ReplacementState(-8, map["a" := -4, "b" := -8]);
    NewPseudo("a", s0);
    assert "b" !in sa.offsetMap;
    NewPseudo("b", sa);
    MovPair(LongWord, Pseudo("a"), Pseudo("b"), s0);
    ReplaceAllOne(Mov(LongWord, Pseudo("a"), Pseudo("b")), s0);
  }

  /** A name seen for the first time takes the next slot down. */
  lemma NewPseudo(id: string, st: ReplacementState)
    requires id !in st.offsetMap
    ensures ReplaceOperand(Pseudo(id), st)
      == (ReplacementState(st.currentOffset - 4, st.offsetMap[id := st.currentOffset - 4]), Stack(st.currentOffset - 4))
  {
  }

  /** A name seen before keeps its slot. */
  lemma KnownPseudo(id: string, st: ReplacementState)
    requires id in st.offsetMap
    ensures ReplaceOperand(Pseudo(id), st) == (st, Stack(st.offsetMap[id]))
  {
  }

  lemma MovPair(t: AsmType, s: Operand, d: Operand, st: ReplacementState)
    ensures var r := ReplacePair(s, d, st);
      ReplaceInstr(Mov(t, s, d), st) == Ok((r.0, Mov(t, r.1, r.2)))
  {
  }

  lemma ReplaceAllOne(i: Instr, st: ReplacementState)
    requires ReplaceInstr(i, st).Ok?
    ensures ReplaceAll([i], st) == Ok((ReplaceInstr(i, st).value.0, [ReplaceInstr(i, st).value.1]))
  {
    assert [i][1..] == [];
    assert [ReplaceInstr(i, st).value.1] + [] == [ReplaceInstr(i, st).value.1];
  }

  lemma CollisionSecond()
    ensures var m1 := map["a" := -4, "b" := -8];
      ReplaceAll([Mov(LongWord, Pseudo("c"), Pseudo("b")), Mov(LongWord, Pseudo("d"), Reg(AX))], ReplacementState(0, m1))
      == Ok((ReplacementState(-8, m1["c" := -4]["d" := -8]),
             [Mov(LongWord, Stack(-4), Stack(-8)), Mov(LongWord, Stack(-8), Reg(AX))]))
  {
    var m1 := map["a" := -4, "b" := -8];
    var irs := [Mov(LongWord, Pseudo("c"), Pseudo("b")), Mov(LongWord, Pseudo("d"), Reg(AX))];
    var g0 := ReplacementState(0, m1);
    var gc := ReplacementState(-4, m1["c" := -4]);
    var gd := ReplacementState(-8, m1["c" := -4]["d" := -8]);
    CollisionSecondFirstInstr();
    CollisionSecondTail();
    assert irs[1..] == [Mov(LongWord, Pseudo("d"), Reg(AX))];
    var o1 := Mov(LongWord, Stack(-4), Stack(-8));
    var o2 := Mov(LongWord, Stack(-8), Reg(AX));
    assert [o1] + [o2] == [o1, o2];
    assert ReplaceAll(irs, g0) == Ok((gd, [o1, o2]));
  }

  lemma CollisionSecondFirstInstr()
    ensures var m1 := map["a" := -4, "b" := -8];
      ReplaceInstr(Mov(LongWord, Pseudo("c"), Pseudo("b")), ReplacementState(0, m1))
      == Ok((ReplacementState(-4, m1["c" := -4]), Mov(LongWord, Stack(-4), Stack(-8))))
  {
    var m1 := map["a" := -4, "b" := -8];
    var g0 := ReplacementState(0, m1);
    var gc := ReplacementState(-4, m1["c" := -4]);
    assert "c" !in m1;
    NewPseudo("c", g0);
    KnownPseudo("b", gc);
    MovPair(LongWord, Pseudo("c"), Pseudo("b"), g0);
  }

  lemma CollisionSecondTail()
    ensures var m2 := map["a" := -4, "b" := -8]["c" := -4];
      ReplaceAll([Mov(LongWord, Pseudo("d"), Reg(AX))], ReplacementState(-4, m2))
      == Ok((ReplacementState(-8, m2["d" := -8]), [Mov(LongWord, Stack(-8), Reg(AX))]))
  {
    var m2 := map["a" := -4, "b" := -8]["c" := -4];
    var gc := ReplacementState(-4, m2);
    assert "d" !in m2;
    NewPseudo("d", gc);
    MovPair(LongWord, Pseudo("d"), Reg(AX), gc);
    ReplaceAllOne(Mov(LongWord, Pseudo("d"), Reg(AX)), gc);
  }
  /** The program pass as evidently intended: every function starts from an
      empty map of its own, so its slots depend on its own names only. */
  function ReplaceFnsFresh(fns: seq<FnDef>): Result<(seq<FnDef>, seq<(string, nat)>)>
  {
    if fns == [] then Ok(([], []))
    else
      var r := ReplaceAll(fns[0].irs, ReplacementState(0, map[]));
      if !r.Ok? then r.PropagateFailure()
      else
        var t := ReplaceFnsFresh(fns[1..]);
        if !t.Ok? then t
        else Ok(([FnDef(fns[0].ident, r.value.1)] + t.value.0,
                 [(fns[0].ident, Rounding.Abs(r.value.0.currentOffset))] + t.value.1))
  }

  /** A body rewritten from a fresh state gets a sound frame: each of its
      names has a slot of its own inside the frame, the frame holds four
      bytes per name, and every instruction is the original with its names
      replaced by their slots. */
  lemma FreshFrameSound(irs: seq<Instr>)
    requires ReplaceAll(irs, ReplacementState(0, map[])).Ok?
    ensures var r := ReplaceAll(irs, ReplacementState(0, map[])).value;
      && r.0.offsetMap.Keys == AllPseudos(irs)
      && (forall x, y :: x in r.0.offsetMap && y in r.0.offsetMap && x != y ==> r.0.offsetMap[x] != r.0.offsetMap[y])
      && (forall x :: x in r.0.offsetMap ==> r.0.currentOffset <= r.0.offsetMap[x] <= -4)
      && Rounding.Abs(r.0.currentOffset) == 4 * |AllPseudos(irs)|
      && |r.1| == |irs|
      && (forall k :: 0 <= k < |irs| ==> r.1[k] == SubstInstr(irs[k], r.0.offsetMap))
  {
    var s0 := ReplacementState(0, map[]);
    InitialStateGood();
    ReplaceAllFrame(irs, s0);
    ReplaceAllIsSubstitution(irs, s0);
    var st := ReplaceAll(irs, s0).value.0;
    assert st.offsetMap.Keys == AllPseudos(irs);
    assert |st.offsetMap| == |st.offsetMap.Keys|;
  }

  /** The intended pass keeps one function and one frame size per function. */
  lemma {:induction false} FreshLength(fns: seq<FnDef>)
    requires ReplaceFnsFresh(fns).Ok?
    ensures |ReplaceFnsFresh(fns).value.0| == |fns| && |ReplaceFnsFresh(fns).value.1| == |fns|
  {
    if fns != [] {
      FreshLength(fns[1..]);
    }
  }

  /** With the intended pass, function `k` is its own body rewritten from a
      fresh state and its frame size is four bytes per name it uses, whatever
      the other functions hold. */
  lemma {:induction false} FreshFunctionsSound(fns: seq<FnDef>, k: nat)
    requires ReplaceFnsFresh(fns).Ok? && k < |fns|
    ensures ReplaceAll(fns[k].irs, ReplacementState(0, map[])).Ok?
    ensures |ReplaceFnsFresh(fns).value.0| == |fns| && |ReplaceFnsFresh(fns).value.1| == |fns|
    ensures && ReplaceFnsFresh(fns).value.0[k] == FnDef(fns[k].ident, ReplaceAll(fns[k].irs, ReplacementState(0, map[])).value.1)
      && ReplaceFnsFresh(fns).value.1[k] == (fns[k].ident, 4 * |AllPseudos(fns[k].irs)|)
    decreases k
  {
    FreshLength(fns);
    if k == 0 {
      FreshFrameSound(fns[0].irs);
    } else {
      FreshFunctionsSound(fns[1..], k - 1);
      FreshLength(fns[1..]);
    }
  }
}
