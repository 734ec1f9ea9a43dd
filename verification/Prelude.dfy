/** Datatypes shared by every module. */
module Prelude {

  datatype Option<+T> = None | Some(value: T)

  /** Why an operation gave no value. `FreeVariable` is the interpreter's
      "eval variable"; `TooDeep` is the model's bound on nested calls, and
      `Failed` is every other error or panic of the source. */
  datatype Error = FreeVariable | TooDeep | Failed

  datatype Result<+T> = Ok(value: T) | Err(error: Error)

  /** Vectors of sub-expressions, so that recursion over them is structural. */
  datatype List<+T> = Nil | Cons(head: T, tail: List<T>)

  function Length<T>(xs: List<T>): nat {
    match xs
    case Nil => 0
    case Cons(_, rest) => 1 + Length(rest)
  }

  function Snoc<T>(xs: List<T>, x: T): (r: List<T>) {
    match xs
    case Nil => Cons(x, Nil)
    case Cons(y, rest) => Cons(y, Snoc(rest, x))
  }
}
