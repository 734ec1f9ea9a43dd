/** The core policy language: literals and locally nameless expressions
    (src/armour-lang/src/expressions.rs, src/armour-lang/src/literals.rs). */
module Syntax {
  import opened Prelude

  const TWO63: int := 0x8000_0000_0000_0000

  type i64 = x: int | -0x8000_0000_0000_0000 <= x < 0x8000_0000_0000_0000

  /** Release-build two's complement wrap-around. */
  function Wrap(x: int): (r: i64)
    ensures -TWO63 <= x < TWO63 ==> r == x
    ensures (r - x) % (2 * TWO63) == 0
  {
    (x + TWO63) % (2 * TWO63) - TWO63
  }

  /** `Other` is a data-plane literal the core treats as opaque (labels, IDs,
      requests, ...); `Control` is one that exists only on the control plane. */
  datatype Flat =
    | Bool(b: bool)
    | Int(i: i64)
    | Float(f: real)
    | Str(s: string)
    | Unit
    | Other(kind: string, text: string)
    | Control(kind: string, text: string)

  datatype Literal =
    | Flat(flat: Flat)
    | ListLit(items: seq<Literal>)
    | TupleLit(items: seq<Literal>)

  const UNIT: Literal := Flat(Unit)

  function BoolLit(b: bool): Literal { Flat(Bool(b)) }

  predicate IsBool(l: Literal) { l.Flat? && l.flat.Bool? }

  datatype Prefix = Negate | Not

  datatype Infix =
    | Equal | NotEqual | Plus | Minus | Divide | Multiply | Remainder
    | GreaterThanEqual | LessThanEqual | GreaterThan | LessThan
    | And | Or | Concat | ConcatStr | Module | In | Dot

  datatype BlockKind = ListBlock | TupleBlock | StmtBlock

  datatype IterOp = All | Any | Filter | FilterMap | ForEach | Fold | Map

  datatype Pattern = Regex(text: string) | LabelPattern(text: string)

  /** What an expression node does with its sub-expressions: one constructor for
      each constructor of the source's `Expr` that binds nothing by itself. The
      operations on terms treat all of them alike, so they share `Node`. */
  datatype Tag =
    | ReturnExpr                                    // [e]
    | PrefixExpr(pre: Prefix)                       // [e]
    | InfixExpr(op: Infix)                          // [left, right]
    | BlockExpr(kind: BlockKind)                    // statements or elements
    | Let(vs: seq<string>)                          // [right-hand side, closure]
    | Iter(iop: IterOp, vs: seq<string>, accName: Option<string>) // [list, closure] or [list, closure, accumulator]
    | IfExpr                                        // [condition, then] or [condition, then, else]
    | IfSomeMatchExpr                               // the same, `then` being a closure
    | IfMatchExpr(vs: seq<string>, pats: seq<Pattern>,
                  hasAlt: bool) // [then, scrutinees...] or [then, else, scrutinees...]
    | CallExpr(fn: string, isAsync: bool)           // arguments

  datatype Expr =
    | Var(id: string)
    | BVar(id: string, idx: nat)
    | Lit(lit: Literal)
    | Closure(id: string, body: Expr)
    | Node(tag: Tag, subs: List<Expr>)

  function One(a: Expr): List<Expr> { Cons(a, Nil) }

  function Two(a: Expr, b: Expr): List<Expr> { Cons(a, Cons(b, Nil)) }

  function Three(a: Expr, b: Expr, c: Expr): List<Expr> { Cons(a, Cons(b, Cons(c, Nil))) }

  function ReturnOf(e: Expr): Expr { Node(ReturnExpr, One(e)) }

  predicate IsReturn(e: Expr) { e.Node? && e.tag.ReturnExpr? }

  /** A literal, or a literal under `return`s: what evaluation yields. */
  predicate IsValue(e: Expr) {
    match e
    case Lit(_) => true
    case Node(ReturnExpr, Cons(x, Nil)) => IsValue(x)
    case _ => false
  }

  /** Termination measure: values are leaves, so that applying a closure to a
      value never makes an expression larger. */
  function Size(e: Expr): (n: nat)
    ensures n >= 1
  {
    match e
    case Closure(_, b) => 1 + Size(b)
    case Node(_, es) => if IsValue(e) then 1 else 1 + SizeList(es)
    case _ => 1
  }

  function SizeList(es: List<Expr>): nat {
    match es
    case Nil => 0
    case Cons(e, rest) => 1 + Size(e) + SizeList(rest)
  }
}
