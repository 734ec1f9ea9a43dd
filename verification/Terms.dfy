/** Index arithmetic of the core language
    (src/armour-lang/src/expressions.rs:420-798). */
module Terms {
  import opened Prelude
  import opened Syntax

  // ----- the source's operations -----

  /** The source's `is_free(u)`: index `u` does NOT occur. */
  predicate IsFree(e: Expr, u: nat) {
    match e
    case BVar(_, j) => j != u
    case Closure(_, b) => IsFree(b, u + 1)
    case Node(_, es) => IsFreeList(es, u)
    case _ => true
  }

  predicate IsFreeList(es: List<Expr>, u: nat) {
    es.Cons? ==> IsFree(es.head, u) && IsFreeList(es.tail, u)
  }

  /** Adds 1 (whatever `i` is) to every index at or above the cut-off `d`. */
  function Shift(e: Expr, i: nat, d: nat): Expr {
    if i == 0 then e else
    match e
    case BVar(x, j) => if j >= d then BVar(x, j + 1) else e
    case Closure(v, b) => Closure(v, Shift(b, i, d + 1))
    case Node(t, es) => Node(t, ShiftList(es, i, d))
    case _ => e
  }

  function ShiftList(es: List<Expr>, i: nat, d: nat): List<Expr> {
    match es
    case Nil => Nil
    case Cons(e, rest) => Cons(Shift(e, i, d), ShiftList(rest, i, d))
  }

  /** Replaces index `i` by `u`; with `down`, larger indices drop by one and `u`
      is shifted, otherwise `u` goes in as it is. */
  function Subst(e: Expr, i: nat, u: Expr, down: bool): Expr {
    match e
    case BVar(x, j) =>
      if j < i then e
      else if j == i then (if down then Shift(u, i, 0) else u)
      else BVar(x, if down then j - 1 else j)
    case Closure(v, b) => Closure(v, Subst(b, i + 1, u, down))
    case Node(t, es) => Node(t, SubstList(es, i, u, down))
    case _ => e
  }

  function SubstList(es: List<Expr>, i: nat, u: Expr, down: bool): List<Expr> {
    match es
    case Nil => Nil
    case Cons(e, rest) => Cons(Subst(e, i, u, down), SubstList(rest, i, u, down))
  }

  function Apply(e: Expr, u: Expr): Result<Expr> {
    if e.Closure? then Ok(Subst(e.body, 0, u, true)) else Err(Failed)
  }

  function PSubst(e: Expr, i: nat, u: Expr): Expr {
    if e.Closure? then Closure(e.id, PSubst(e.body, i, u)) else Subst(e, i, u, true)
  }

  /** Fixes the parameter bound by the `j`-th closure: drops that closure and
      substitutes for index `i` below all the remaining ones. */
  function PropagateSubst(e: Expr, i: nat, j: nat, u: Expr): Expr {
    if e.Closure? && j == 0 then PSubst(e.body, i, u)
    else if e.Closure? then Closure(e.id, PropagateSubst(e.body, i, j - 1, u))
    else PSubst(e, i, u)
  }

  /** The body below exactly `i` closures. `None` also stands for the
      subtraction overflow panic on a closure at depth 0. */
  function AtDepth(e: Expr, i: nat): Option<Expr> {
    if e.Closure? then (if i == 0 then None else AtDepth(e.body, i - 1))
    else if i == 0 then Some(e) else None
  }

  /** Turns the free variable `v` into index `i`. */
  function Abs(e: Expr, i: nat, v: string): Expr {
    match e
    case Var(x) => if x == v then BVar(x, i) else e
    case Closure(w, b) => Closure(w, Abs(b, i + 1, v))
    case Node(t, es) => Node(t, AbsList(es, i, v))
    case _ => e
  }

  function AbsList(es: List<Expr>, i: nat, v: string): List<Expr> {
    match es
    case Nil => Nil
    case Cons(e, rest) => Cons(Abs(e, i, v), AbsList(rest, i, v))
  }

  function ClosureExpr(e: Expr, v: string): Expr {
    if v == "_" then e else Closure(v, Abs(e, 0, v))
  }

  // ----- what the operations are meant to do -----

  /** Every index is bound below `n` enclosing closures. */
  predicate Closed(e: Expr, n: nat) {
    match e
    case BVar(_, j) => j < n
    case Closure(_, b) => Closed(b, n + 1)
    case Node(_, es) => ClosedList(es, n)
    case _ => true
  }

  predicate ClosedList(es: List<Expr>, n: nat) {
    es.Cons? ==> Closed(es.head, n) && ClosedList(es.tail, n)
  }

  /** Index `i` does not occur below two or more binders (counting from the
      binder of index 0). */
  predicate Shallow(e: Expr, i: nat) {
    match e
    case BVar(_, j) => i >= 2 ==> j != i
    case Closure(_, b) => Shallow(b, i + 1)
    case Node(_, es) => ShallowList(es, i)
    case _ => true
  }

  predicate ShallowList(es: List<Expr>, i: nat) {
    es.Cons? ==> Shallow(es.head, i) && ShallowList(es.tail, i)
  }

  /** Simultaneous substitution of closed expressions for the dangling indices
      `d, d+1, ...`: the reference meaning of opening a term. An index that `s`
      does not reach becomes a free variable, so the result is closed. */
  ghost function Inst(e: Expr, d: nat, s: seq<Expr>): Expr {
    match e
    case BVar(x, j) => if j < d then e else if j - d < |s| then s[j - d] else Var(x)
    case Closure(v, b) => Closure(v, Inst(b, d + 1, s))
    case Node(t, es) => Node(t, InstList(es, d, s))
    case _ => e
  }

  ghost function InstList(es: List<Expr>, d: nat, s: seq<Expr>): List<Expr> {
    match es
    case Nil => Nil
    case Cons(e, rest) => Cons(Inst(e, d, s), InstList(rest, d, s))
  }

  ghost predicate AllClosed(s: seq<Expr>) {
    forall k :: 0 <= k < |s| ==> Closed(s[k], 0)
  }
}
