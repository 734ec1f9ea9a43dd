/** What an expression may call, mention and leave open. */
module Scope {
  import opened Prelude
  import opened Syntax
  import opened Terms
  import opened TermLaws
  import opened Interpret

  // ----- data-plane literals -----

  predicate DpLit(l: Literal) {
    match l
    case Flat(f) => !f.Control?
    case ListLit(items) => forall i :: 0 <= i < |items| ==> DpLit(items[i])
    case TupleLit(items) => forall i :: 0 <= i < |items| ==> DpLit(items[i])
  }

  predicate LitOk(dp: bool, l: Literal) { dp ==> DpLit(l) }

  predicate LitsOk(dp: bool, ls: seq<Literal>) { forall i :: 0 <= i < |ls| ==> LitOk(dp, ls[i]) }

  /** Every call is to a function in `names` and, with `dp`, every literal is a
      data-plane literal. */
  ghost predicate Within(e: Expr, names: iset<string>, dp: bool) {
    match e
    case Lit(l) => LitOk(dp, l)
    case Closure(_, b) => Within(b, names, dp)
    case Node(t, es) => (t.CallExpr? ==> t.fn in names) && WithinList(es, names, dp)
    case _ => true
  }

  ghost predicate WithinList(es: List<Expr>, names: iset<string>, dp: bool) {
    es.Cons? ==> Within(es.head, names, dp) && WithinList(es.tail, names, dp)
  }

  /** No free variable, and every index bound below `n` enclosing closures. */
  predicate Scoped(e: Expr, n: nat) {
    match e
    case Var(_) => false
    case BVar(_, j) => j < n
    case Lit(_) => true
    case Closure(_, b) => Scoped(b, n + 1)
    case Node(_, es) => ScopedList(es, n)
  }

  predicate ScopedList(es: List<Expr>, n: nat) {
    es.Cons? ==> Scoped(es.head, n) && ScopedList(es.tail, n)
  }

  lemma {:induction false} ShiftWithin(e: Expr, i: nat, d: nat, names: iset<string>, dp: bool)
    requires Within(e, names, dp)
    ensures Within(Shift(e, i, d), names, dp)
  {
    match e
    case Closure(_, b) => ShiftWithin(b, i, d + 1, names, dp);
    case Node(_, es) => ShiftWithinList(es, i, d, names, dp);
    case _ =>
  }

  lemma {:induction false} ShiftWithinList(es: List<Expr>, i: nat, d: nat, names: iset<string>, dp: bool)
    requires WithinList(es, names, dp)
    ensures WithinList(ShiftList(es, i, d), names, dp)
  {
    if es.Cons? { ShiftWithin(es.head, i, d, names, dp); ShiftWithinList(es.tail, i, d, names, dp); }
  }

  lemma {:induction false} SubstWithin(e: Expr, i: nat, u: Expr, names: iset<string>, dp: bool)
    requires Within(e, names, dp) && Within(u, names, dp)
    ensures Within(Subst(e, i, u, true), names, dp)
  {
    match e
    case BVar(_, j) => if j == i { ShiftWithin(u, i, 0, names, dp); }
    case Closure(_, b) => SubstWithin(b, i + 1, u, names, dp);
    case Node(_, es) => SubstWithinList(es, i, u, names, dp);
    case _ =>
  }

  lemma {:induction false} SubstWithinList(es: List<Expr>, i: nat, u: Expr, names: iset<string>, dp: bool)
    requires WithinList(es, names, dp) && Within(u, names, dp)
    ensures WithinList(SubstList(es, i, u, true), names, dp)
  {
    if es.Cons? { SubstWithin(es.head, i, u, names, dp); SubstWithinList(es.tail, i, u, names, dp); }
  }

  lemma {:induction false} WithinMono(e: Expr, names: iset<string>, more: iset<string>, dp: bool)
    requires Within(e, names, dp) && names <= more
    ensures Within(e, more, dp)
  {
    match e
    case Closure(_, b) => WithinMono(b, names, more, dp);
    case Node(_, es) => WithinMonoList(es, names, more, dp);
    case _ =>
  }

  lemma {:induction false} WithinMonoList(es: List<Expr>, names: iset<string>, more: iset<string>, dp: bool)
    requires WithinList(es, names, dp) && names <= more
    ensures WithinList(es, more, dp)
  {
    if es.Cons? { WithinMono(es.head, names, more, dp); WithinMonoList(es.tail, names, more, dp); }
  }

  lemma {:induction false} WithinAll(e: Expr, names: iset<string>)
    requires forall f :: f in names
    ensures Within(e, names, false)
  {
    match e
    case Closure(_, b) => WithinAll(b, names);
    case Node(_, es) => WithinAllList(es, names);
    case _ =>
  }

  lemma {:induction false} WithinAllList(es: List<Expr>, names: iset<string>)
    requires forall f :: f in names
    ensures WithinList(es, names, false)
  {
    if es.Cons? { WithinAll(es.head, names); WithinAllList(es.tail, names); }
  }

  lemma {:induction false} ScopedClosed(e: Expr, n: nat)
    requires Scoped(e, n)
    ensures Closed(e, n)
  {
    match e
    case Closure(_, b) => ScopedClosed(b, n + 1);
    case Node(_, es) => ScopedClosedList(es, n);
    case _ =>
  }

  lemma {:induction false} ScopedClosedList(es: List<Expr>, n: nat)
    requires ScopedList(es, n)
    ensures ClosedList(es, n)
  {
    if es.Cons? { ScopedClosed(es.head, n); ScopedClosedList(es.tail, n); }
  }

  lemma {:induction false} ScopedMono(e: Expr, n: nat, m: nat)
    requires Scoped(e, n) && n <= m
    ensures Scoped(e, m)
  {
    match e
    case Closure(_, b) => ScopedMono(b, n + 1, m + 1);
    case Node(_, es) => ScopedMonoList(es, n, m);
    case _ =>
  }

  lemma {:induction false} ScopedMonoList(es: List<Expr>, n: nat, m: nat)
    requires ScopedList(es, n) && n <= m
    ensures ScopedList(es, m)
  {
    if es.Cons? { ScopedMono(es.head, n, m); ScopedMonoList(es.tail, n, m); }
  }

  lemma {:induction false} SubstScoped(e: Expr, n: nat, i: nat, u: Expr)
    requires Scoped(e, n + 1) && i <= n && Scoped(u, 0)
    ensures Scoped(Subst(e, i, u, true), n)
  {
    match e
    case BVar(_, j) => if j == i { ScopedClosed(u, 0); ShiftClosed(u, i, 0); ScopedMono(u, 0, n); }
    case Closure(_, b) => SubstScoped(b, n + 1, i + 1, u);
    case Node(_, es) => SubstScopedList(es, n, i, u);
    case _ =>
  }

  lemma {:induction false} SubstScopedList(es: List<Expr>, n: nat, i: nat, u: Expr)
    requires ScopedList(es, n + 1) && i <= n && Scoped(u, 0)
    ensures ScopedList(SubstList(es, i, u, true), n)
  {
    if es.Cons? { SubstScoped(es.head, n, i, u); SubstScopedList(es.tail, n, i, u); }
  }

  lemma ValueScoped(v: Expr, names: iset<string>)
    requires IsValue(v)
    ensures Scoped(v, 0) && Within(v, names, false)
  {
    if v.Node? {
      ValueScoped(v.subs.head, names);
      assert ScopedList(v.subs.tail, 0) && WithinList(v.subs.tail, names, false);
    }
  }
}
