/** What binding, applying and fixing parameters mean: named substitution,
    simultaneous substitution and partial application
    (src/armour-lang/src/expressions.rs:497-798). */
module TermProps {
  import opened Prelude
  import opened Syntax
  import opened Terms
  import opened TermLaws
  import opened Interpret

  // ----- named substitution -----

  /** Replaces free variables by expressions, all at once. */
  function Named(e: Expr, m: map<string, Expr>): Expr {
    match e
    case Var(x) => if x in m then m[x] else e
    case Closure(w, b) => Closure(w, Named(b, m))
    case Node(t, es) => Node(t, NamedList(es, m))
    case _ => e
  }

  function NamedList(es: List<Expr>, m: map<string, Expr>): List<Expr> {
    match es
    case Nil => Nil
    case Cons(e, rest) => Cons(Named(e, m), NamedList(rest, m))
  }

  /** Binding `v` and then substituting for the bound index is named
      substitution exactly on terms without dangling indices. */
  lemma {:induction false} AbsThenSubst(e: Expr, i: nat, v: string, u: Expr)
    requires Closed(u, 0)
    ensures Subst(Abs(e, i, v), i, u, true) == Named(e, map[v := u]) <==> Closed(e, i)
  {
    ShiftClosed(u, i, 0);
    match e
    case Closure(_, b) => AbsThenSubst(b, i + 1, v, u);
    case Node(_, es) => AbsThenSubstList(es, i, v, u);
    case _ =>
  }

  lemma {:induction false} AbsThenSubstList(es: List<Expr>, i: nat, v: string, u: Expr)
    requires Closed(u, 0)
    ensures SubstList(AbsList(es, i, v), i, u, true) == NamedList(es, map[v := u]) <==> ClosedList(es, i)
  {
    if es.Cons? { AbsThenSubst(es.head, i, v, u); AbsThenSubstList(es.tail, i, v, u); }
  }

  lemma BindThenApply(e: Expr, v: string, u: Expr)
    requires Closed(u, 0) && v != "_"
    ensures Apply(ClosureExpr(e, v), u) == Ok(Named(e, map[v := u])) <==> Closed(e, 0)
  {
    AbsThenSubst(e, 0, v, u);
  }

  // ----- several variables at once: `let (x, y) = ...` and iteration -----

  /** The closures of a `let` or an iteration, the first variable outermost. */
  function CloseAll(e: Expr, vs: seq<string>): Expr {
    if vs == [] then e else ClosureExpr(CloseAll(e, vs[1..]), vs[0])
  }

  /** Which literal each name stands for: the last one of a repeated name. */
  function Assigned(vs: seq<string>, lits: seq<Literal>): (m: map<string, Expr>)
    requires |vs| == |lits|
    ensures forall x :: x in m ==> x in vs && x != "_"
    ensures forall x :: x in vs && x != "_" ==> x in m
  {
    if vs == [] then map[]
    else
      var rest := Assigned(vs[1..], lits[1..]);
      if vs[0] == "_" || vs[0] in rest then rest else rest[vs[0] := Lit(lits[0])]
  }

  lemma LastWins(vs: seq<string>, lits: seq<Literal>, i: nat)
    requires |vs| == |lits| && i < |vs| && vs[i] != "_" && vs[i] !in vs[i + 1..]
    ensures Assigned(vs, lits)[vs[i]] == Lit(lits[i])
    decreases i
  {
    if i > 0 { LastWins(vs[1..], lits[1..], i - 1); }
  }

  lemma {:induction false} AbsClosed(e: Expr, n: nat, v: string)
    requires Closed(e, n)
    ensures Closed(Abs(e, n, v), n + 1)
  {
    match e
    case Closure(_, b) => AbsClosed(b, n + 1, v);
    case Node(_, es) => AbsClosedList(es, n, v);
    case _ =>
  }

  lemma {:induction false} AbsClosedList(es: List<Expr>, n: nat, v: string)
    requires ClosedList(es, n)
    ensures ClosedList(AbsList(es, n, v), n + 1)
  {
    if es.Cons? { AbsClosed(es.head, n, v); AbsClosedList(es.tail, n, v); }
  }

  lemma CloseAllClosed(e: Expr, vs: seq<string>)
    requires Closed(e, 0)
    ensures Closed(CloseAll(e, vs), 0)
  {
    if vs != [] {
      CloseAllClosed(e, vs[1..]);
      AbsClosed(CloseAll(e, vs[1..]), 0, vs[0]);
    }
  }

  /** Named substitution of a literal passes a binder of another name and stops
      at a binder of its own. */
  lemma {:induction false} NamedAbs(e: Expr, i: nat, w: string, v: string, l: Literal)
    ensures Named(Abs(e, i, w), map[v := Lit(l)]) == if v == w then Abs(e, i, w)
        else Abs(Named(e, map[v := Lit(l)]), i, w)
  {
    match e
    case Closure(_, b) => NamedAbs(b, i + 1, w, v, l);
    case Node(_, es) => NamedAbsList(es, i, w, v, l);
    case _ =>
  }

  lemma {:induction false} NamedAbsList(es: List<Expr>, i: nat, w: string, v: string, l: Literal)
    ensures NamedList(AbsList(es, i, w), map[v := Lit(l)])
         == if v == w then AbsList(es, i, w) else AbsList(NamedList(es, map[v := Lit(l)]), i, w)
  {
    if es.Cons? { NamedAbs(es.head, i, w, v, l); NamedAbsList(es.tail, i, w, v, l); }
  }

  lemma NamedCloseAll(e: Expr, vs: seq<string>, v: string, l: Literal)
    requires v != "_"
    ensures Named(CloseAll(e, vs), map[v := Lit(l)])
         == if v in vs then CloseAll(e, vs) else CloseAll(Named(e, map[v := Lit(l)]), vs)
  {
    if vs != [] {
      NamedCloseAll(e, vs[1..], v, l);
      NamedAbs(CloseAll(e, vs[1..]), 0, vs[0], v, l);
    }
  }

  lemma {:induction false} NamedTwice(e: Expr, v: string, l: Literal, m: map<string, Expr>)
    ensures Named(Named(e, map[v := Lit(l)]), m) == Named(e, m[v := Lit(l)])
  {
    match e
    case Closure(_, b) => NamedTwice(b, v, l, m);
    case Node(_, es) => NamedTwiceList(es, v, l, m);
    case _ =>
  }

  lemma {:induction false} NamedTwiceList(es: List<Expr>, v: string, l: Literal, m: map<string, Expr>)
    ensures NamedList(NamedList(es, map[v := Lit(l)]), m) == NamedList(es, m[v := Lit(l)])
  {
    if es.Cons? { NamedTwice(es.head, v, l, m); NamedTwiceList(es.tail, v, l, m); }
  }

  lemma {:induction false} NamedNothing(e: Expr)
    ensures Named(e, map[]) == e
  {
    match e
    case Closure(_, b) => NamedNothing(b);
    case Node(_, es) => NamedNothingList(es);
    case _ =>
  }

  lemma {:induction false} NamedNothingList(es: List<Expr>)
    ensures NamedList(es, map[]) == es
  {
    if es.Cons? { NamedNothing(es.head); NamedNothingList(es.tail); }
  }

  /** Opening the closures of several variables one after the other is
      simultaneous substitution, the last of several equal names winning. */
  lemma {:induction false} OpenedInOrder(e: Expr, vs: seq<string>, lits: seq<Literal>)
    requires Closed(e, 0) && |vs| == |lits|
    ensures ApplyAll(CloseAll(e, vs), Bound(vs, lits)) == Ok(Named(e, Assigned(vs, lits)))
    decreases |vs|
  {
    if vs == [] {
      NamedNothing(e);
    } else if vs[0] == "_" {
      OpenedInOrder(e, vs[1..], lits[1..]);
    } else {
      var v, l, rest := vs[0], lits[0], Assigned(vs[1..], lits[1..]);
      CloseAllClosed(e, vs[1..]);
      BindThenApply(CloseAll(e, vs[1..]), v, Lit(l));
      NamedCloseAll(e, vs[1..], v, l);
      assert v in vs[1..] <==> v in rest;
      if v in vs[1..] {
        OpenedInOrder(e, vs[1..], lits[1..]);
      } else {
        var e' := Named(e, map[v := Lit(l)]);
        NamedClosed(e, 0, v, l);
        OpenedInOrder(e', vs[1..], lits[1..]);
        NamedTwice(e, v, l, rest);
      }
    }
  }

  lemma {:induction false} NamedClosed(e: Expr, n: nat, v: string, l: Literal)
    requires Closed(e, n)
    ensures Closed(Named(e, map[v := Lit(l)]), n)
  {
    match e
    case Closure(_, b) => NamedClosed(b, n + 1, v, l);
    case Node(_, es) => NamedClosedList(es, n, v, l);
    case _ =>
  }

  lemma {:induction false} NamedClosedList(es: List<Expr>, n: nat, v: string, l: Literal)
    requires ClosedList(es, n)
    ensures ClosedList(NamedList(es, map[v := Lit(l)]), n)
  {
    if es.Cons? { NamedClosed(es.head, n, v, l); NamedClosedList(es.tail, n, v, l); }
  }

  /** The source's `let_expr`: the variables are bound from the last to the first. */
  method LetExpr(body: Expr, vs: seq<string>, rhs: Expr) returns (r: Expr)
    ensures r == if vs == ["_"] then Node(BlockExpr(StmtBlock), Two(rhs, body))
        else Node(Let(vs), Two(rhs, CloseAll(body, vs)))
  {
    if vs == ["_"] { return Node(BlockExpr(StmtBlock), Two(rhs, body)); }
    var c := body;
    var i := |vs|;
    while i > 0
      invariant 0 <= i <= |vs| && c == CloseAll(body, vs[i..])
    {
      i := i - 1;
      assert vs[i..][1..] == vs[i + 1..];
      c := ClosureExpr(c, vs[i]);
    }
    assert vs[0..] == vs;
    return Node(Let(vs), Two(rhs, c));
  }

  /** The source's `iter_expr`: an accumulator is bound outside the variables. */
  method IterExpr(body: Expr, op: IterOp, vs: seq<string>, over: Expr, acc: Option<(string, Expr)>) returns (r: Expr)
    ensures acc.None? ==> r == Node(Iter(op, vs, None), Two(over, CloseAll(body, vs)))
    ensures acc.Some? ==>
      r == Node(Iter(op, vs, Some(acc.value.0)), Three(over, CloseAll(body, [acc.value.0] + vs), acc.value.1))
  {
    var c := body;
    var i := |vs|;
    while i > 0
      invariant 0 <= i <= |vs| && c == CloseAll(body, vs[i..])
    {
      i := i - 1;
      assert vs[i..][1..] == vs[i + 1..];
      c := ClosureExpr(c, vs[i]);
    }
    assert vs[0..] == vs;
    match acc {
      case None => return Node(Iter(op, vs, None), Two(over, c));
      case Some(named) =>
        assert ([named.0] + vs)[1..] == vs;
        return Node(Iter(op, vs, Some(named.0)), Three(over, ClosureExpr(c, named.0), named.1));
    }
  }

  // ----- substitution laws -----

  /** Closed substitutions at different indices commute, the index adjusted. */
  lemma {:induction false} SubstCommutes(e: Expr, i: nat, u: Expr, j: nat, w: Expr)
    requires Closed(u, 0) && Closed(w, 0) && i <= j
    ensures Subst(Subst(e, i, u, true), j, w, true) == Subst(Subst(e, j + 1, w, true), i, u, true)
  {
    match e
    case BVar(_, n) =>
      ShiftClosed(u, i, 0);
      ShiftClosed(w, j, 0);
      ShiftClosed(w, j + 1, 0);
      ClosedMono(u, 0, j);
      ClosedMono(w, 0, i);
      SubstClosed(u, j, w, true);
      SubstClosed(w, i, u, true);
    case Closure(_, b) => SubstCommutes(b, i + 1, u, j + 1, w);
    case Node(_, es) => SubstCommutesList(es, i, u, j, w);
    case _ =>
  }

  lemma {:induction false} SubstCommutesList(es: List<Expr>, i: nat, u: Expr, j: nat, w: Expr)
    requires Closed(u, 0) && Closed(w, 0) && i <= j
    ensures SubstList(SubstList(es, i, u, true), j, w, true) == SubstList(SubstList(es, j + 1, w, true), i, u, true)
  {
    if es.Cons? { SubstCommutes(es.head, i, u, j, w); SubstCommutesList(es.tail, i, u, j, w); }
  }

  /** `is_free(i)` says exactly that what is substituted for index `i` is
      irrelevant (two different literals are enough to tell). */
  lemma {:induction false} FreeExactly(e: Expr, i: nat)
    ensures IsFree(e, i) <==> Subst(e, i, Lit(BoolLit(true)), true) == Subst(e, i, Lit(BoolLit(false)), true)
  {
    match e
    case Closure(_, b) => FreeExactly(b, i + 1);
    case Node(_, es) => FreeExactlyList(es, i);
    case _ =>
  }

  lemma {:induction false} FreeExactlyList(es: List<Expr>, i: nat)
    ensures IsFreeList(es, i)
        <==> SubstList(es, i, Lit(BoolLit(true)), true) == SubstList(es, i, Lit(BoolLit(false)), true)
  {
    if es.Cons? { FreeExactly(es.head, i); FreeExactlyList(es.tail, i); }
  }

  // ----- applying to several arguments; fixing one of them -----

  /** A function with parameters `vs`, the first outermost. */
  function Lambda(vs: seq<string>, body: Expr): Expr {
    if vs == [] then body else Closure(vs[0], Lambda(vs[1..], body))
  }

  function ToList(us: seq<Expr>): List<Expr> {
    if us == [] then Nil else Cons(us[0], ToList(us[1..]))
  }

  /** What the dangling indices of a body stand for: the last argument is index 0. */
  function Reversed(us: seq<Expr>): (r: seq<Expr>)
    ensures |r| == |us|
    ensures forall i :: 0 <= i < |us| ==> r[i] == us[|us| - 1 - i]
  {
    if us == [] then [] else Reversed(us[1..]) + [us[0]]
  }

  /** Substituting for one index before opening is opening with one more. */
  lemma {:induction false} SubstBelow(e: Expr, d: nat, j: nat, u: Expr, s: seq<Expr>)
    requires AllClosed(s) && Closed(u, 0) && j <= |s|
    ensures Inst(Subst(e, d + j, u, true), d, s) == Inst(e, d, s[..j] + [u] + s[j..])
  {
    match e
    case BVar(_, n) =>
      ShiftClosed(u, d + j, 0);
      ClosedMono(u, 0, d);
      InstClosed(u, d, s);
    case Closure(_, b) => SubstBelow(b, d + 1, j, u, s);
    case Node(_, es) => SubstBelowList(es, d, j, u, s);
    case _ =>
  }

  lemma {:induction false} SubstBelowList(es: List<Expr>, d: nat, j: nat, u: Expr, s: seq<Expr>)
    requires AllClosed(s) && Closed(u, 0) && j <= |s|
    ensures InstList(SubstList(es, d + j, u, true), d, s) == InstList(es, d, s[..j] + [u] + s[j..])
  {
    if es.Cons? { SubstBelow(es.head, d, j, u, s); SubstBelowList(es.tail, d, j, u, s); }
  }

  lemma SubstLambda(vs: seq<string>, body: Expr, i: nat, u: Expr)
    ensures Subst(Lambda(vs, body), i, u, true) == Lambda(vs, Subst(body, i + |vs|, u, true))
    decreases |vs|
  {
    if vs != [] { SubstLambda(vs[1..], body, i + 1, u); }
  }

  /** A full application opens the body with the arguments. */
  lemma {:induction false} ApplyLambda(vs: seq<string>, body: Expr, us: seq<Expr>)
    requires |us| == |vs| && AllClosed(us) && Closed(body, |vs|)
    ensures ApplyAll(Lambda(vs, body), ToList(us)) == Ok(Inst(body, 0, Reversed(us)))
    decreases |vs|
  {
    if vs == [] {
      InstClosed(body, 0, []);
      assert Reversed(us) == [];
    } else {
      hide Subst, Inst;
      var n, u := |vs| - 1, us[0];
      SubstLambda(vs[1..], body, 0, u);
      ClosedSubst(body, n, n, u);
      ApplyLambda(vs[1..], Subst(body, n, u, true), us[1..]);
      var s := Reversed(us[1..]);
      assert AllClosed(s);
      SubstBelow(body, 0, n, u, s);
      assert s[..n] + [u] + s[n..] == Reversed(us);
    }
  }

  lemma PSubstLambda(vs: seq<string>, body: Expr, i: nat, u: Expr)
    requires !body.Closure?
    ensures PSubst(Lambda(vs, body), i, u) == Lambda(vs, Subst(body, i, u, true))
    decreases |vs|
  {}

  /** Dropping the `k`-th parameter of a function and substituting for it. */
  lemma PropagateLambda(vs: seq<string>, body: Expr, i: nat, k: nat, u: Expr)
    requires !body.Closure? && k < |vs|
    ensures PropagateSubst(Lambda(vs, body), i, k, u) == Lambda(vs[..k] + vs[k + 1..], Subst(body, i, u, true))
    decreases |vs|
  {
    if k == 0 {
      PSubstLambda(vs[1..], body, i, u);
      assert vs[..0] + vs[1..] == vs[1..];
    } else {
      PropagateLambda(vs[1..], body, i, k - 1, u);
      assert (vs[..k] + vs[k + 1..])[1..] == vs[1..][..k - 1] + vs[1..][k..];
    }
  }

  /** Fixing a parameter is partial application, for every arity and position:
      `propagate_subst(n-1-k, k, u)` has one parameter less, and applied to the
      other arguments it is the original applied with `u` at position `k`. */
  lemma FixParameter(vs: seq<string>, body: Expr, k: nat, u: Expr, us: seq<Expr>)
    requires !body.Closure? && Closed(body, |vs|) && k < |vs| == |us| + 1
    requires Closed(u, 0) && AllClosed(us)
    ensures PropagateSubst(Lambda(vs, body), |us| - k, k, u)
        == Lambda(vs[..k] + vs[k + 1..], Subst(body, |us| - k, u, true))
    ensures ApplyAll(PropagateSubst(Lambda(vs, body), |us| - k, k, u), ToList(us))
         == ApplyAll(Lambda(vs, body), ToList(us[..k] + [u] + us[k..]))
  {
    hide Subst, Inst, Lambda, ApplyAll, PropagateSubst, Closed;
    var n, full := |us|, us[..k] + [u] + us[k..];
    PropagateLambda(vs, body, n - k, k, u);
    ClosedSubst(body, n, n - k, u);
    ApplyLambda(vs[..k] + vs[k + 1..], Subst(body, n - k, u, true), us);
    ApplyLambda(vs, body, full);
    var s := Reversed(us);
    SubstBelow(body, 0, n - k, u, s);
    assert s[..n - k] + [u] + s[n - k..] == Reversed(full);
  }
}
