// mtypes/types.go and mconstant/const.go: source-language types and
// typed integer constants.
module MTypes {
  import opened Wrappers

  /** The types the passes use. Only IntType and FnType are declared in
      mtypes/types.go; LongType, Int32Type and Int64Type are the further
      variants the type checker and TACKY generator refer to. A nil type
      is `None` wherever a type is optional. Type identity
      in the source is pointer identity; the model compares structurally. */
  datatype Type =
    | IntType
    | LongType
    | Int32Type
    | Int64Type
    | FnType(paramTypes: seq<Type>, retType: Option<Type>)
  {
    /** IsFn (types.go:12-14, 23-25). */
    predicate IsFn() { FnType? }
  }

  const TWO31: int := 0x8000_0000
  const TWO32: int := 0x1_0000_0000
  const TWO63: int := 0x8000_0000_0000_0000

  predicate InInt32(v: int) { -TWO31 <= v < TWO31 }
  predicate InInt64(v: int) { -TWO63 <= v < TWO63 }

  /** mconstant.Int32 / mconstant.Int64. */
  datatype Const = Int32(v32: int) | Int64(v64: int)
  {
    /** GetValue (const.go:21, 28): the payload widened to int64. */
    function GetValue(): int { if Int32? then v32 else v64 }
  }

  /** Go's `int32(x)` conversion of an int64: keeps the low 32 bits as a
      two's-complement value. */
  function TruncateToInt32(x: int): (r: int)
    ensures InInt32(r)
    ensures (r - x) % TWO32 == 0
    ensures InInt32(x) ==> r == x
  {
    var m := x % TWO32;
    if m < TWO31 then m else m - TWO32
  }
}
