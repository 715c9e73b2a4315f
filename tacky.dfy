// tackygen/tacky.go: the TACKY three-address intermediate language. The
// print-only `Ir()` methods are not modelled.
module Tacky {
  import opened MTypes

  datatype BinaryOp =
    | Add | Sub | Mul | Div
    | Equal | NotEqual | LessThan | LessThanEqual | GreaterThan | GreaterThanEqual
    | Modulo

  datatype UnaryOp = Complement | Negate | Not | UnknownOp

  datatype Val = Constant(c: Const) | StringConstant(text: string) | Var(name: string)

  datatype Instr =
    | Truncate(src: Val, dst: Val)
    | SignExtend(src: Val, dst: Val)
    | Copy(src: Val, dst: Val)
    | Jump(target: string)
    | JumpIfZero(cond: Val, ident: string)
    | JumpIfNotZero(cond: Val, ident: string)
    | Label(ident: string)
    | Return(value: Val)
    | Binary(op: BinaryOp, src1: Val, src2: Val, dst: Val)
    | Unary(unop: UnaryOp, src: Val, dst: Val)
    | FnCall(fnName: string, args: seq<Val>, dst: Val)

  datatype TackyFn = TackyFn(name: string, params: seq<Val>, isExtern: bool, global: bool, instructions: seq<Instr>)

  datatype TackyProgram = TackyProgram(fnDefs: seq<TackyFn>, externDefs: seq<TackyFn>)

  /** mconstant.IntZero and IntOne (const.go:3-9). */
  const IntZero: Val := Constant(Int32(0))
  const IntOne: Val := Constant(Int32(1))
}
