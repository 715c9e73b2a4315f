// Shared result types. A Go `panic`, a C `exit(1)` or an undefined-behaviour
// path is an explicit `Panic`; an error value the source returns is `Err`.
module Wrappers {

  datatype Option<T> = None | Some(value: T)
  {
    predicate IsFailure() { None? }
    function PropagateFailure<U>(): Option<U> requires None? { None }
    function Extract(): T requires Some? { value }
  }

  datatype Result<T> = Ok(value: T) | Err(msg: string) | Panic(reason: string)
  {
    predicate IsFailure() { !Ok? }
    function PropagateFailure<U>(): Result<U>
      requires !Ok?
    {
      if Err? then Err(msg) else Panic(reason)
    }
    function Extract(): T requires Ok? { value }
  }
}
