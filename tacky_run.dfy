// A reference semantics for TACKY function bodies. The source has none (the
// code is only lowered further to assembly); it is given here so that what
// a lowering does can be stated as what its code computes. Values are
// mathematical integers, division truncates toward zero as in Go, and a
// call, a string constant or a truncation has no meaning here.
module TackyRun {
  import opened MTypes
  import opened Tacky

  type Env = map<string, int>

  /** How a run ends: a returned value, a fault (an unset variable, a
      division by zero, a jump to a label the code does not define, running
      off the end), or no end within the fuel given. */
  datatype Halt = Ret(value: int) | Fault(why: string) | OutOfFuel

  datatype Outcome = Next(pc: nat, env: Env) | Done(value: int) | Fails(why: string)

  function Eval(v: Val, env: Env): Outcome
  {
    match v
    case Constant(c) => Done(c.GetValue())
    case StringConstant(_) => Fails("string constant")
    case Var(x) => if x in env then Done(env[x]) else Fails("unset variable " + x)
  }

  /** Go's `/` and `%` on integers truncate toward zero. */
  function Quot(a: int, b: int): int
    requires b != 0
  {
    var q := (if a < 0 then -a else a) / (if b < 0 then -b else b);
    if (a < 0) == (b < 0) then q else -q
  }

  function Rem(a: int, b: int): int
    requires b != 0
  {
    a - b * Quot(a, b)
  }

  function Bool(b: bool): int { if b then 1 else 0 }

  function ApplyBinary(op: BinaryOp, a: int, b: int): Outcome
  {
    match op
    case Add => Done(a + b)
    case Sub => Done(a - b)
    case Mul => Done(a * b)
    case Div => if b == 0 then Fails("division by zero") else Done(Quot(a, b))
    case Modulo => if b == 0 then Fails("division by zero") else Done(Rem(a, b))
    case Equal => Done(Bool(a == b))
    case NotEqual => Done(Bool(a != b))
    case LessThan => Done(Bool(a < b))
    case LessThanEqual => Done(Bool(a <= b))
    case GreaterThan => Done(Bool(a > b))
    case GreaterThanEqual => Done(Bool(a >= b))
  }

  function ApplyUnary(op: UnaryOp, a: int): Outcome
  {
    match op
    case Negate => Done(-a)
    case Complement => Done(-a - 1)
    case Not => Done(Bool(a == 0))
    case UnknownOp => Fails("unknown unary operator")
  }

  /** The first index at or after `i` that holds `Label(l)`. */
  function FindLabel(code: seq<Instr>, l: string, i: nat): (r: Outcome)
    requires i <= |code|
    ensures r.Next? ==> i <= r.pc < |code| && code[r.pc] == Label(l)
    ensures r.Fails? <==> forall k :: i <= k < |code| ==> code[k] != Label(l)
    ensures r.Fails? ==> r.why == "no label " + l
    ensures !r.Done?
    decreases |code| - i
  {
    if i == |code| then Fails("no label " + l)
    else if code[i] == Label(l) then Next(i, map[])
    else FindLabel(code, l, i + 1)
  }

  /** FindLabel finds the first occurrence. */
  lemma {:induction false} FindLabelFirst(code: seq<Instr>, l: string, i: nat, k: nat)
    requires i <= k < |code| && code[k] == Label(l)
    requires forall j :: i <= j < k ==> code[j] != Label(l)
    ensures FindLabel(code, l, i) == Next(k, map[])
    decreases k - i
  {
    if i < k {
      FindLabelFirst(code, l, i + 1, k);
    }
  }

  function JumpTo(code: seq<Instr>, l: string, env: Env): Outcome
  {
    var f := FindLabel(code, l, 0);
    if f.Next? then Next(f.pc, env) else f
  }

  function Store(dst: Val, r: Outcome, env: Env, pc: nat): Outcome
  {
    if !r.Done? then r
    else if !dst.Var? then Fails("store to a constant")
    else Next(pc + 1, env[dst.name := r.value])
  }

  /** One instruction. */
  function Step(code: seq<Instr>, pc: nat, env: Env): Outcome
    requires pc < |code|
  {
    match code[pc]
    case Copy(src, dst) => Store(dst, Eval(src, env), env, pc)
    case Jump(l) => JumpTo(code, l, env)
    case JumpIfZero(c, l) =>
      var v := Eval(c, env);
      if !v.Done? then v else if v.value == 0 then JumpTo(code, l, env) else Next(pc + 1, env)
    case JumpIfNotZero(c, l) =>
      var v := Eval(c, env);
      if !v.Done? then v else if v.value != 0 then JumpTo(code, l, env) else Next(pc + 1, env)
    case Label(_) => Next(pc + 1, env)
    case Return(v) => Eval(v, env)
    case Binary(op, s1, s2, dst) =>
      var a := Eval(s1, env);
      var b := Eval(s2, env);
      if !a.Done? then a else if !b.Done? then b else Store(dst, ApplyBinary(op, a.value, b.value), env, pc)
    case Unary(op, s, dst) =>
      var a := Eval(s, env);
      if !a.Done? then a else Store(dst, ApplyUnary(op, a.value), env, pc)
    case Truncate(_, _) => Fails("truncate")
    case SignExtend(_, _) => Fails("sign extension")
    case FnCall(_, _, _) => Fails("call")
  }

  /** Runs at most `fuel` instructions from `pc`. */
  function Run(code: seq<Instr>, pc: nat, env: Env, fuel: nat): Halt
    decreases fuel
  {
    if fuel == 0 then OutOfFuel
    else if pc >= |code| then Fault("end of code")
    else
      match Step(code, pc, env)
      case Next(pc', env') => Run(code, pc', env', fuel - 1)
      case Done(v) => Ret(v)
      case Fails(why) => Fault(why)
  }

  /** A run that ends within some fuel ends the same way with more: the
      outcome of a program does not depend on how much fuel is given. */
  lemma {:induction false} RunMoreFuel(code: seq<Instr>, pc: nat, env: Env, fuel: nat, more: nat)
    requires Run(code, pc, env, fuel) != OutOfFuel && fuel <= more
    ensures Run(code, pc, env, more) == Run(code, pc, env, fuel)
    decreases fuel
  {
    if pc < |code| {
      var o := Step(code, pc, env);
      if o.Next? {
        RunMoreFuel(code, o.pc, o.env, fuel - 1, more - 1);
      }
    }
  }

  /** Two runs of the same code from the same start that both end agree. */
  lemma RunDeterminate(code: seq<Instr>, pc: nat, env: Env, f1: nat, f2: nat)
    requires Run(code, pc, env, f1) != OutOfFuel && Run(code, pc, env, f2) != OutOfFuel
    ensures Run(code, pc, env, f1) == Run(code, pc, env, f2)
  {
    if f1 <= f2 {
      RunMoreFuel(code, pc, env, f1, f2);
    } else {
      RunMoreFuel(code, pc, env, f2, f1);
    }
  }

  /** Truncating division: the quotient and remainder reconstruct the
      dividend, the remainder is smaller than the divisor and takes the
      dividend's sign. */
  lemma QuotRem(a: int, b: int)
    requires b != 0
    ensures a == b * Quot(a, b) + Rem(a, b)
    ensures (if Rem(a, b) < 0 then -Rem(a, b) else Rem(a, b)) < (if b < 0 then -b else b)
    ensures Rem(a, b) == 0 || (Rem(a, b) < 0 <==> a < 0)
  {
    var aa, bb := (if a < 0 then -a else a), (if b < 0 then -b else b);
    var q := aa / bb;
    assert aa == bb * q + aa % bb;
    if (a < 0) == (b < 0) {
      assert Quot(a, b) == q;
      if a < 0 {
        assert Rem(a, b) == a - b * q == -(aa - bb * q);
      } else {
        assert Rem(a, b) == aa - bb * q;
      }
    } else {
      assert Quot(a, b) == -q;
      if a < 0 {
        assert b * -q == -(bb * q);
        assert Rem(a, b) == -(aa - bb * q);
      } else {
        assert b * -q == bb * q;
        assert Rem(a, b) == aa - bb * q;
      }
    }
  }
}
