/** Policies for which compiling needs no side condition: without `return`, without
    anything that binds a variable, without the three operators that simplification
    gets wrong, and with helper functions of the same kind of at most two parameters. */
module Straight {
  import opened Prelude
  import opened Syntax
  import opened Terms
  import opened TermLaws
  import opened Interpret
  import opened Shapes
  import opened Specialize
  import opened Safety
  import opened Compile
  import opened Inlining

  /** What such a policy is made of. */
  predicate StraightNode(env: Env, t: Tag, es: List<Expr>) {
    match t
    case PrefixExpr(_) => true
    case InfixExpr(op) => op != NotEqual && op != Minus && op != Divide
    case BlockExpr(_) => true
    case IfExpr => true
    case CallExpr(fn, _) =>
      if fn in env.code then Length(es) == |Params(env.code[fn])| <= 2
      else env.isBuiltin(fn) || NoUserCallsList(es, env.code.Keys)
    case _ => false
  }

  predicate Straight(env: Env, e: Expr) {
    match e
    case Closure(_, _) => false
    case Node(t, es) => StraightNode(env, t, es) && StraightList(env, es)
    case _ => true
  }

  predicate StraightList(env: Env, es: List<Expr>) {
    es.Cons? ==> Straight(env, es.head) && StraightList(env, es.tail)
  }

  /** So are the helpers. */
  ghost predicate StraightHelpers(env: Env) {
    forall f :: f in env.code && |Params(env.code[f])| <= 2 ==> Straight(env, Body(env.code[f]))
  }

  /** Straight, and no user function is called. */
  predicate Flat(env: Env, e: Expr) { Straight(env, e) && Gone(env, e) }

  predicate FlatList(env: Env, es: List<Expr>) { StraightList(env, es) && GoneList(env, es) }

  /** Builtins do not change from when a policy is compiled to when it is asked. */
  ghost predicate Steady(env: Env, now: Table) { forall fn, ls :: SameThen(env, now, fn, ls) }

  // ----- substitution -----

  lemma {:induction false} ShiftStraight(env: Env, e: Expr, i: nat, d: nat)
    requires Straight(env, e)
    ensures Straight(env, Shift(e, i, d))
  {
    match e
    case Node(t, es) =>
      ShiftStraightList(env, es, i, d);
      if t.CallExpr? && NoUserCallsList(es, env.code.Keys) { ShiftNoUserCallsList(es, i, d, env.code.Keys); }
    case _ =>
  }

  lemma {:induction false} ShiftStraightList(env: Env, es: List<Expr>, i: nat, d: nat)
    requires StraightList(env, es)
    ensures StraightList(env, ShiftList(es, i, d)) && Length(ShiftList(es, i, d)) == Length(es)
  {
    if es.Cons? { ShiftStraight(env, es.head, i, d); ShiftStraightList(env, es.tail, i, d); }
  }

  lemma {:induction false} SubstStraight(env: Env, e: Expr, i: nat, u: Expr)
    requires Straight(env, e) && Flat(env, u)
    ensures Straight(env, Subst(e, i, u, true))
  {
    match e
    case BVar(_, j) => if j == i { ShiftStraight(env, u, i, 0); }
    case Node(t, es) =>
      SubstStraightList(env, es, i, u);
      if t.CallExpr? && NoUserCallsList(es, env.code.Keys) { SubstNoUserCallsList(es, i, u, true, env.code.Keys); }
    case _ =>
  }

  lemma {:induction false} SubstStraightList(env: Env, es: List<Expr>, i: nat, u: Expr)
    requires StraightList(env, es) && Flat(env, u)
    ensures StraightList(env, SubstList(es, i, u, true)) && Length(SubstList(es, i, u, true)) == Length(es)
  {
    if es.Cons? { SubstStraight(env, es.head, i, u); SubstStraightList(env, es.tail, i, u); }
  }

  /** Without binders, an index is under at most the two of the parameters. */
  lemma {:induction false} StraightShallow(env: Env, e: Expr, i: nat)
    requires Straight(env, e)
    ensures i < 2 ==> Shallow(e, i)
    ensures Unbound(e, i)
  {
    match e
    case Node(_, es) => StraightShallowList(env, es, i);
    case _ =>
  }

  lemma {:induction false} StraightShallowList(env: Env, es: List<Expr>, i: nat)
    requires StraightList(env, es)
    ensures i < 2 ==> ShallowList(es, i)
    ensures UnboundList(es, i)
  {
    if es.Cons? { StraightShallow(env, es.head, i); StraightShallowList(env, es.tail, i); }
  }

  lemma FlatParts(env: Env, us: List<Expr>)
    requires FlatList(env, us)
    ensures us.Cons? ==> Flat(env, us.head) && FlatList(env, us.tail)
  {}

  /** A helper applied to all its arguments. */
  lemma AppliedStraight(env: Env, e: Expr, us: List<Expr>)
    requires |Params(e)| == Length(us) <= 2 && Straight(env, Body(e)) && FlatList(env, us)
    ensures InlineSafe(e, us) && (ApplyAll(e, us).Ok? ==> Straight(env, ApplyAll(e, us).value))
  {
    FlatParts(env, us);
    if us.Cons? && us.tail.Nil? {
      assert |Params(e.body)| == 0;
      LastStraight(env, e.id, e.body, us.head);
      assert us == One(us.head);
    } else if us.Cons? {
      var b, u, w := e.body.body, us.head, us.tail.head;
      FlatParts(env, us.tail);
      assert us.tail.tail.Nil? && us.tail == One(w);
      assert e.Closure? && e.body.Closure? && |Params(b)| == 0;
      assert Body(e) == Body(e.body) == Body(b) == b;
      StraightShallow(env, b, 1);
      SubstStraight(env, b, 1, u);
      var c := Closure(e.body.id, Subst(b, 1, u, true));
      assert Subst(e.body, 0, u, true) == c && Shallow(e.body, 0);
      LastStraight(env, c.id, c.body, w);
      assert InlineSafe(e, us) == InlineSafe(c, us.tail) && ApplyAll(e, us) == ApplyAll(c, us.tail);
    }
  }

  lemma LastStraight(env: Env, x: string, b: Expr, u: Expr)
    requires Straight(env, b) && Flat(env, u)
    ensures InlineSafe(Closure(x, b), One(u))
    ensures ApplyAll(Closure(x, b), One(u)).Ok? && Straight(env, ApplyAll(Closure(x, b), One(u)).value)
  {
    StraightShallow(env, b, 0);
    SubstStraight(env, b, 0, u);
    var e := Subst(b, 0, u, true);
    assert InlineSafe(e, Nil) && ApplyAll(e, Nil) == Ok(e);
  }

  // ----- flat residuals -----

  lemma {:induction false} FlatSettles(env: Env, e: Expr, n: nat)
    requires Flat(env, e)
    ensures ReturnFree(e) && TidyCalls(env.code, e, n)
  {
    match e
    case Node(_, es) => FlatSettlesList(env, es, n);
    case _ =>
  }

  lemma {:induction false} FlatSettlesList(env: Env, es: List<Expr>, n: nat)
    requires FlatList(env, es)
    ensures ReturnFreeList(es) && TidyCallsList(env.code, es, n)
  {
    if es.Cons? { FlatSettles(env, es.head, n); FlatSettlesList(env, es.tail, n); }
  }

  lemma {:induction false} NoFlatReturn(env: Env, ps: List<Part>)
    requires FlatList(env, Residuals(ps))
    ensures FirstReturn(Residuals(ps)).None? && SettledToReturn(env.code, ps)
  {
    if ps.Cons? {
      FlatSettles(env, ps.head.e, |env.code|);
      NoFlatReturn(env, ps.tail);
    }
  }

  predicate FlatPart(env: Env, r: Result<Part>) { r.Ok? ==> Flat(env, r.value.e) }

  lemma FlatNode(env: Env, tag: Tag, a: Expr, b: Expr, c: Expr)
    requires Flat(env, a) && Flat(env, b) && Flat(env, c) && !tag.CallExpr? && StraightNode(env, tag, Nil)
    ensures Flat(env, Node(tag, One(a))) && Flat(env, Node(tag, Two(a, b))) && Flat(env, Node(tag, Three(a, b, c)))
    ensures FlatList(env, One(a)) && FlatList(env, Two(a, b))
  {
    GoneNode(env, tag, a, b, c);
    assert StraightList(env, Nil);
    assert StraightList(env, One(c)) && StraightList(env, One(b)) && StraightList(env, One(a));
    assert StraightList(env, Two(b, c)) && StraightList(env, Two(a, b));
  }

  lemma StraightParts(env: Env, es: List<Expr>)
    requires StraightList(env, es)
    ensures es.Cons? ==>
      Straight(env, es.head) && StraightList(env, es.tail) && Straight(env, Node(BlockExpr(StmtBlock), es.tail))
    ensures es.Cons? && es.tail.Cons? ==> Straight(env, es.tail.head) && StraightList(env, es.tail.tail)
    ensures es.Cons? && es.tail.Cons? && es.tail.tail.Cons? ==> Straight(env, es.tail.tail.head)
  {}

  // ----- safe, with a flat residual -----

  /** Partial evaluation of such an expression is always safe, and what it leaves
      calls no user function. */
  lemma {:induction false} StraightIsSafe(env: Env, now: Table, e: Expr, so: bool, fuel: nat)
    requires StraightHelpers(env) && Steady(env, now) && Straight(env, e)
    ensures Safe(env, now, e, so, fuel) && FlatPart(env, PEval(env, e, so, fuel))
    decreases fuel, 0, 0
  {
    if fuel > 0 && e.Node? { SafeStraightNode(env, now, e.tag, e.subs, so, fuel - 1); }
  }

  lemma {:induction false} SafeStraightNode(env: Env, now: Table, tag: Tag, es: List<Expr>, so: bool, fuel: nat)
    requires StraightHelpers(env) && Steady(env, now) && Straight(env, Node(tag, es))
    ensures SafeNode(env, now, tag, es, so, fuel) && FlatPart(env, PEvalNode(env, tag, es, so, fuel))
    decreases fuel, 9, 0
  {
    StraightParts(env, es);
    match tag
    case PrefixExpr(p) => SafeStraightPrefix(env, now, p, es, so, fuel);
    case InfixExpr(op) => SafeStraightInfix(env, now, op, es, so, fuel);
    case BlockExpr(kind) =>
      if kind == StmtBlock { SafeStraightBlock(env, now, es, so, fuel); }
      else { SafeStraightGroup(env, now, kind, es, so, fuel); }
    case IfExpr => SafeStraightIf(env, now, es, so, fuel);
    case CallExpr(fn, isAsync) => SafeStraightCall(env, now, fn, isAsync, es, so, fuel);
  }

  lemma {:induction false} SafeStraightList(env: Env, now: Table, es: List<Expr>, so: bool, fuel: nat)
    requires StraightHelpers(env) && Steady(env, now) && StraightList(env, es)
    ensures SafeList(env, now, es, so, fuel)
    ensures var r := PEvalList(env, es, so, fuel);
      r.Ok? ==> FlatList(env, Residuals(r.value)) && Length(Residuals(r.value)) == Length(es)
    decreases fuel, 1, es
  {
    if es.Cons? { StraightIsSafe(env, now, es.head, so, fuel); SafeStraightList(env, now, es.tail, so, fuel); }
  }

  lemma {:induction false} SafeStraightPrefix(env: Env, now: Table, p: Prefix, es: List<Expr>, so: bool, fuel: nat)
    requires StraightHelpers(env) && Steady(env, now) && StraightList(env, es)
    ensures SafeList(env, now, es, so, fuel) && FlatPart(env, PEvalPrefix(env, p, es, so, fuel))
    decreases fuel, 5, 0
  {
    SafeStraightList(env, now, es, so, fuel);
    if es.Cons? {
      StraightIsSafe(env, now, es.head, so, fuel);
      var r := PEval(env, es.head, so, fuel);
      if r.Ok? { FlatNode(env, PrefixExpr(p), r.value.e, r.value.e, r.value.e); }
    }
  }

  lemma {:induction false} SafeStraightInfix(env: Env, now: Table, op: Infix, es: List<Expr>, so: bool, fuel: nat)
    requires StraightHelpers(env) && Steady(env, now) && StraightList(env, es) && StraightNode(env, InfixExpr(op), Nil)
    ensures SafeInfix(env, now, op, es, so, fuel) && FlatPart(env, PEvalInfix(env, op, es, so, fuel))
    decreases fuel, 5, 0
  {
    if es.Cons? && es.tail.Cons? {
      StraightIsSafe(env, now, es.head, so, fuel);
      StraightIsSafe(env, now, es.tail.head, so, fuel);
      var p, q := PEval(env, es.head, so, fuel), PEval(env, es.tail.head, so, fuel);
      if p.Ok? && q.Ok? {
        FlatSettles(env, p.value.e, |env.code|);
        FlatSettles(env, q.value.e, |env.code|);
        FlatInfix(env, op, p.value, q.value);
      }
    }
  }

  lemma FlatInfix(env: Env, op: Infix, p: Part, q: Part)
    requires Flat(env, p.e) && Flat(env, q.e) && StraightNode(env, InfixExpr(op), Nil)
    requires Settles(env.code, p.e) && Settles(env.code, q.e)
    ensures InfixSafe(env.code, op, p, q)
    ensures FlatPart(env, Simplify(op, p, q)) && FlatPart(env, InfixParts(op, p, q))
  {
    FlatNode(env, InfixExpr(op), p.e, q.e, q.e);
    Simplified(op, p, q);
    hide Simplify, Settles;
  }

  lemma {:induction false} SafeStraightBlock(env: Env, now: Table, es: List<Expr>, so: bool, fuel: nat)
    requires StraightHelpers(env) && Steady(env, now) && StraightList(env, es)
    ensures SafeBlock(env, now, es, so, fuel) && FlatPart(env, PEvalBlock(env, es, so, fuel))
    decreases fuel, 5, 0
  {
    if es.Cons? {
      StraightParts(env, es);
      var rest := Node(BlockExpr(StmtBlock), es.tail);
      StraightIsSafe(env, now, es.head, so, fuel);
      StraightIsSafe(env, now, rest, so, fuel);
      StraightIsSafe(env, now, rest, true, fuel);
      var p, q := PEval(env, es.head, so, fuel), PEval(env, rest, true, fuel);
      if p.Ok? && q.Ok? { FlatNode(env, BlockExpr(StmtBlock), p.value.e, q.value.e, q.value.e); }
    }
  }

  lemma {:induction false} SafeStraightGroup(env: Env, now: Table, kind: BlockKind, es: List<Expr>, so: bool, fuel: nat)
    requires StraightHelpers(env) && Steady(env, now) && StraightList(env, es)
    ensures SafeGroup(env, now, es, so, fuel) && FlatPart(env, PEvalGroup(env, kind, es, so, fuel))
    decreases fuel, 5, 0
  {
    SafeStraightList(env, now, es, so, fuel);
    var r := PEvalList(env, es, so, fuel);
    if r.Ok? { NoFlatReturn(env, r.value); }
  }

  lemma {:induction false} SafeStraightIf(env: Env, now: Table, es: List<Expr>, so: bool, fuel: nat)
    requires StraightHelpers(env) && Steady(env, now) && StraightList(env, es)
    ensures SafeIf(env, now, es, so, fuel) && FlatPart(env, PEvalIf(env, es, so, fuel))
    decreases fuel, 5, 0
  {
    if es.Cons? && es.tail.Cons? {
      StraightParts(env, es);
      StraightIsSafe(env, now, es.head, so, fuel);
      StraightIsSafe(env, now, es.tail.head, so, fuel);
      SafeStraightList(env, now, es.tail.tail, so, fuel);
      if es.tail.tail.Cons? { StraightIsSafe(env, now, es.tail.tail.head, so, fuel); }
      var p := PEval(env, es.head, so, fuel);
      if p.Ok? { FlatSettles(env, p.value.e, |env.code|); }
      hide PEval, Safe, Settles, Flat;
      FlatIf(env, es, so, fuel);
    }
  }

  lemma FlatIf(env: Env, es: List<Expr>, so: bool, fuel: nat)
    requires es.Cons? && es.tail.Cons?
    requires FlatPart(env, PEval(env, es.head, so, fuel)) && FlatPart(env, PEval(env, es.tail.head, so, fuel))
    requires es.tail.tail.Cons? ==> FlatPart(env, PEval(env, es.tail.tail.head, so, fuel))
    ensures FlatPart(env, PEvalIf(env, es, so, fuel))
  {
    hide PEval;
    var alt := es.tail.tail;
    var p, t := PEval(env, es.head, so, fuel), PEval(env, es.tail.head, so, fuel);
    assert Flat(env, Lit(UNIT)) && FlatPart(env, PEvalAlt(env, alt, so, fuel));
    if p.Ok? && t.Ok? {
      FlatNode(env, IfExpr, p.value.e, t.value.e, t.value.e);
      if alt.Cons? && PEval(env, alt.head, so, fuel).Ok? {
        FlatNode(env, IfExpr, p.value.e, t.value.e, PEval(env, alt.head, so, fuel).value.e);
      }
      assert FlatPart(env, PEvalBranches(env, p.value.e, t.value, alt, so, fuel));
    }
  }

  lemma {:induction false} SafeStraightCall(env: Env, now: Table, fn: string, isAsync: bool, args: List<Expr>, so: bool,
                                            fuel: nat)
    requires StraightHelpers(env) && Steady(env, now) && Straight(env, Node(CallExpr(fn, isAsync), args))
    ensures SafeCall(env, now, fn, args, so, fuel) && FlatPart(env, PEvalCall(env, fn, isAsync, args, so, fuel))
    decreases fuel, 5, 0
  {
    SafeStraightList(env, now, args, so, fuel);
    var r := PEvalList(env, args, so, fuel);
    if r.Ok? {
      NoFlatReturn(env, r.value);
      if fn in env.code {
        AppliedStraight(env, env.code[fn], Residuals(r.value));
        var x := ApplyAll(env.code[fn], Residuals(r.value));
        if x.Ok? { StraightIsSafe(env, now, x.value, so, fuel); }
        hide PEval, Safe, Straight, PEvalList;
        FlatInline(env, fn, r.value, so, fuel);
      } else {
        FlatForeign(env, fn, isAsync, args, r.value, so, fuel);
      }
    }
  }

  lemma FlatForeign(env: Env, fn: string, isAsync: bool, args: List<Expr>, ps: List<Part>, so: bool, fuel: nat)
    requires fn !in env.code && FlatList(env, Residuals(ps)) && FirstReturn(Residuals(ps)).None?
    requires Straight(env, Node(CallExpr(fn, isAsync), args)) && PEvalList(env, args, so, fuel) == Ok(ps)
    ensures FlatPart(env, PEvalCall(env, fn, isAsync, args, so, fuel))
  {
    hide PEvalList, PEval;
    assert Flat(env, Node(CallExpr(fn, isAsync), Residuals(ps)));
    assert FlatPart(env, PEvalForeign(env, fn, isAsync, args, Residuals(ps)));
  }

  lemma FlatInline(env: Env, fn: string, ps: List<Part>, so: bool, fuel: nat)
    requires fn in env.code
    requires var x := ApplyAll(env.code[fn], Residuals(ps)); x.Ok? ==> FlatPart(env, PEval(env, x.value, so, fuel))
    ensures FlatPart(env, PEvalInline(env, fn, ps, so, fuel))
    ensures var x := ApplyAll(env.code[fn], Residuals(ps));
      x.Ok? ==> InlinedSafe(env.code, PEval(env, x.value, so, fuel))
  {
    hide PEval;
    var x := ApplyAll(env.code[fn], Residuals(ps));
    if x.Ok? && PEval(env, x.value, so, fuel).Ok? {
      FlatSettles(env, PEval(env, x.value, so, fuel).value.e, |env.code|);
    }
  }

  // ----- end to end, without a condition on the specializer's run -----

  ghost predicate StraightPolicy(j: Job)
    requires j.fn in j.pol.env.code
  {
    StraightHelpers(j.pol.env) && Steady(j.pol.env, j.now) && Straight(j.pol.env, Body(j.pol.env.code[j.fn]))
  }

  lemma StraightIsTrusted(j: Job)
    requires WellFormed(j) && StraightPolicy(j)
    ensures Trusted(j)
  {
    var env := j.pol.env;
    PreparedOpens(j);
    SubstStraight(env, Body(env.code[j.fn]), if j.egress then 1 + |j.rest| else |j.rest|, Lit(j.own));
    StraightIsSafe(env, j.now, PreparedBody(j), false, j.fuel);
    var r := PEval(env, PreparedBody(j), false, j.fuel);
    if r.Ok? {
      StraightShallow(env, r.value.e, |j.rest|);
      assert !IsReturn(r.value.e) && StripReturn(r.value.e) == r.value.e;
    }
    hide PEval, Safe;
  }

  /** The compiled form of such a policy answers as the policy does, whatever it is
      asked. */
  lemma StraightPolicyAgrees(j: Job, k: nat, v: Expr)
    requires WellFormed(j) && StraightPolicy(j) && CompileFunction(j.pol, j.fn, j.egress, j.own, j.fuel).Ok?
    requires Eval(Then(j), CallOn(j.fn, GlobalArgs(j)), k) == Ok(v)
    ensures Eval(CompiledEnv(Then(j), j.fn, CompileFunction(j.pol, j.fn, j.egress, j.own, j.fuel).value.code),
                 CallOn(j.fn, j.rest), k) == Ok(v)
  {
    hide WellFormed, StraightPolicy, Trusted, CompileFunction;
    StraightIsTrusted(j);
    CompiledPolicyAgrees(j, k, v);
  }
}
