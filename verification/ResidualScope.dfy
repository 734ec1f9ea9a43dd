/** A safe partial evaluation leaves no index dangling that did not dangle before,
    and what it claims to know is a value (dropping a binder, which `Safe`
    excludes, would break both). */
module ResidualScope {
  import opened Prelude
  import opened Syntax
  import opened Terms
  import opened TermLaws
  import opened Interpret
  import opened Simulation
  import opened Specialize
  import opened Safety
  import opened Residual

  predicate Tight(r: Result<Part>, n: nat) { r.Ok? ==> Closed(r.value.e, n) && Honest(r.value) }

  /** What is claimed to be known is a value. */
  predicate Honest(p: Part) { p.known ==> IsValue(p.e) }

  predicate AllHonest(ps: List<Part>) { ps.Cons? ==> Honest(ps.head) && AllHonest(ps.tail) }

  lemma {:induction false} ShiftBound(e: Expr, n: nat, i: nat, d: nat)
    requires Closed(e, n)
    ensures Closed(Shift(e, i, d), n + 1)
  {
    ClosedMono(e, n, n + 1);
    match e
    case Closure(_, b) => ShiftBound(b, n + 1, i, d + 1);
    case Node(_, es) => ShiftBoundList(es, n, i, d);
    case _ =>
  }

  lemma {:induction false} ShiftBoundList(es: List<Expr>, n: nat, i: nat, d: nat)
    requires ClosedList(es, n)
    ensures ClosedList(ShiftList(es, i, d), n + 1)
  {
    ClosedMonoList(es, n, n + 1);
    if es.Cons? { ShiftBound(es.head, n, i, d); ShiftBoundList(es.tail, n, i, d); }
  }

  lemma {:induction false} SubstBound(e: Expr, d: nat, n: nat, u: Expr)
    requires Closed(e, d + n + 1) && Closed(u, n)
    ensures Closed(Subst(e, d, u, true), d + n)
  {
    match e
    case BVar(_, j) => if j == d && d > 0 { ShiftBound(u, n, d, 0); ClosedMono(Shift(u, d, 0), n + 1, d + n); }
    case Closure(_, b) => SubstBound(b, d + 1, n, u);
    case Node(_, es) => SubstBoundList(es, d, n, u);
    case _ =>
  }

  lemma {:induction false} SubstBoundList(es: List<Expr>, d: nat, n: nat, u: Expr)
    requires ClosedList(es, d + n + 1) && Closed(u, n)
    ensures ClosedList(SubstList(es, d, u, true), d + n)
  {
    if es.Cons? { SubstBound(es.head, d, n, u); SubstBoundList(es.tail, d, n, u); }
  }

  lemma ApplyBound(e: Expr, us: List<Expr>, n: nat)
    requires Closed(e, n) && ClosedList(us, n)
    ensures ApplyAll(e, us).Ok? ==> Closed(ApplyAll(e, us).value, n)
    decreases us
  {
    if us.Cons? && e.Closure? {
      SubstBound(e.body, 0, n, us.head);
      ApplyBound(Subst(e.body, 0, us.head, true), us.tail, n);
    }
  }

  lemma LitsBound(us: List<Expr>, n: nat)
    requires AllValues(us)
    ensures ClosedList(us, n)
  {
    if us.Cons? { ValueClosed(us.head); ClosedMono(us.head, 0, n); }
  }

  lemma ArgsBound(vs: seq<string>, l: Literal, n: nat)
    ensures LetArgs(vs, l).Some? ==> ClosedList(LetArgs(vs, l).value, n)
    ensures IterArgs(vs, l).Some? ==> ClosedList(IterArgs(vs, l).value, n)
  {
    if l.TupleLit? && |vs| == |l.items| { BoundValues(vs, l.items); LitsBound(Bound(vs, l.items), n); }
    if |vs| == 1 { BoundValues(vs, [l]); LitsBound(Bound(vs, [l]), n); }
  }

  lemma UnitsBound(m: nat, n: nat)
    ensures ClosedList(Units(m), n)
  {}

  lemma ReturnBound(es: List<Expr>, n: nat)
    requires ClosedList(es, n)
    ensures FirstReturn(es).Some? ==> Closed(FirstReturn(es).value, n)
  {}

  lemma KnownValues(ps: List<Part>)
    requires AllHonest(ps) && AllKnown(ps)
    ensures AllValues(Residuals(ps))
  {}

  lemma ClosedUnfolds(es: List<Expr>, n: nat)
    requires ClosedList(es, n)
    ensures es.Cons? ==> Closed(es.head, n) && ClosedList(es.tail, n)
    ensures es.Cons? && es.tail.Cons? ==> Closed(es.tail.head, n) && ClosedList(es.tail.tail, n)
    ensures es.Cons? && es.tail.Cons? && es.tail.tail.Cons? ==> Closed(es.tail.tail.head, n)
  {}

  lemma ClosedFew(a: Expr, b: Expr, c: Expr, n: nat)
    requires Closed(a, n)
    ensures ClosedList(One(a), n)
    ensures Closed(b, n) ==> ClosedList(Two(a, b), n)
    ensures Closed(b, n) && Closed(c, n) ==> ClosedList(Three(a, b, c), n)
  {}

  lemma {:induction false} TightResidual(env: Env, now: Table, e: Expr, n: nat, so: bool, fuel: nat)
    requires ClosedEnv(env) && Closed(e, n) && Safe(env, now, e, so, fuel)
    ensures Tight(PEval(env, e, so, fuel), n)
    decreases fuel, 0, 0
  {
    if fuel > 0 && e.Node? { TightNode(env, now, e.tag, e.subs, n, so, fuel - 1); }
  }

  lemma {:induction false} TightUnder(env: Env, now: Table, e: Expr, m: nat, n: nat, so: bool, fuel: nat)
    requires ClosedEnv(env) && Closed(e, n) && SafeUnder(env, now, e, m, so, fuel)
    ensures Tight(PEval(env, e, so, fuel), n)
    decreases fuel, 1, m
  {
    if m == 0 { TightResidual(env, now, e, n, so, fuel); }
    else if fuel > 0 { TightUnder(env, now, e.body, m - 1, n + 1, so, fuel - 1); }
  }

  lemma {:induction false} TightList(env: Env, now: Table, es: List<Expr>, n: nat, so: bool, fuel: nat)
    requires ClosedEnv(env) && ClosedList(es, n) && SafeList(env, now, es, so, fuel)
    ensures var r := PEvalList(env, es, so, fuel); r.Ok? ==> ClosedList(Residuals(r.value), n) && AllHonest(r.value)
    decreases fuel, 1, es
  {
    if es.Cons? { TightResidual(env, now, es.head, n, so, fuel); TightList(env, now, es.tail, n, so, fuel); }
  }

  lemma {:induction false} TightApplied(env: Env, now: Table, e: Expr, us: List<Expr>, n: nat, so: bool, fuel: nat)
    requires ClosedEnv(env) && Closed(e, n) && ClosedList(us, n) && SafeApplied(env, now, e, us, so, fuel)
    ensures Tight(PEvalApplied(env, e, us, so, fuel), n)
    decreases fuel, 2, 0
  {
    ApplyBound(e, us, n);
    if ApplyAll(e, us).Ok? { TightResidual(env, now, ApplyAll(e, us).value, n, so, fuel); }
  }

  lemma {:induction false} TightNode(env: Env, now: Table, tag: Tag, es: List<Expr>, n: nat, so: bool, fuel: nat)
    requires ClosedEnv(env) && ClosedList(es, n) && SafeNode(env, now, tag, es, so, fuel)
    ensures Tight(PEvalNode(env, tag, es, so, fuel), n)
    decreases fuel, 9, 0
  {
    match tag
    case ReturnExpr => if es.Cons? { TightResidual(env, now, es.head, n, so, fuel); }
    case PrefixExpr(_) => if es.Cons? { TightResidual(env, now, es.head, n, so, fuel); }
    case InfixExpr(op) => TightInfix(env, now, op, es, n, so, fuel);
    case BlockExpr(kind) =>
      if kind == StmtBlock {
        TightBlock(env, now, es, n, so, fuel);
      } else {
        TightGroup(env, now, kind, es, n, so, fuel);
      }
    case Let(vs) => TightLet(env, now, vs, es, n, so, fuel);
    case Iter(op, vs, acc) => TightIter(env, now, op, vs, acc, es, n, so, fuel);
    case IfExpr => TightIf(env, now, es, n, so, fuel);
    case IfSomeMatchExpr => TightIfSome(env, now, es, n, so, fuel);
    case IfMatchExpr(vs, pats, hasAlt) => TightIfMatch(env, now, vs, pats, hasAlt, es, n, so, fuel);
    case CallExpr(fn, isAsync) => TightCall(env, now, fn, isAsync, es, n, so, fuel);
  }

  lemma {:induction false} TightInfix(env: Env, now: Table, op: Infix, es: List<Expr>, n: nat, so: bool, fuel: nat)
    requires ClosedEnv(env) && ClosedList(es, n) && SafeInfix(env, now, op, es, so, fuel)
    ensures Tight(PEvalInfix(env, op, es, so, fuel), n)
    decreases fuel, 5, 0
  {
    hide InfixParts, Simplify, InfixSafe;
    if es.Cons? && es.tail.Cons? {
      ClosedUnfolds(es, n);
      TightResidual(env, now, es.head, n, so, fuel);
      TightResidual(env, now, es.tail.head, n, so, fuel);
      var p, q := PEval(env, es.head, so, fuel), PEval(env, es.tail.head, so, fuel);
      if p.Ok? && q.Ok? { TightSimplify(op, p.value, q.value, n); }
    }
  }

  lemma TightSimplify(op: Infix, p: Part, q: Part, n: nat)
    requires Closed(p.e, n) && Closed(q.e, n) && Honest(p) && Honest(q)
    ensures Tight(if p.known && q.known then InfixParts(op, p, q) else Simplify(op, p, q), n)
  {
    hide EvalInfix, Combined;
    CombinedChoice(op, p, q);
    ClosedFew(p.e, q.e, q.e, n);
  }

  lemma {:induction false} TightBlock(env: Env, now: Table, es: List<Expr>, n: nat, so: bool, fuel: nat)
    requires ClosedEnv(env) && ClosedList(es, n) && SafeBlock(env, now, es, so, fuel)
    ensures Tight(PEvalBlock(env, es, so, fuel), n)
    decreases fuel, 5, 0
  {
    if es.Cons? {
      TightResidual(env, now, es.head, n, so, fuel);
      var p := PEval(env, es.head, so, fuel);
      if p.Ok? && !IsReturn(p.value.e) && es.tail.Cons? {
        var rest, so' := Node(BlockExpr(StmtBlock), es.tail), if p.value.known then so else true;
        TightResidual(env, now, rest, n, so', fuel);
        var q := PEval(env, rest, so', fuel);
        if q.Ok? { ClosedFew(p.value.e, q.value.e, q.value.e, n); }
      }
    }
  }

  lemma {:induction false} TightGroup(env: Env, now: Table, kind: BlockKind, es: List<Expr>, n: nat, so: bool,
                                      fuel: nat)
    requires ClosedEnv(env) && ClosedList(es, n) && SafeGroup(env, now, es, so, fuel)
    ensures Tight(PEvalGroup(env, kind, es, so, fuel), n)
    decreases fuel, 5, 0
  {
    TightList(env, now, es, n, so, fuel);
    var r := PEvalList(env, es, so, fuel);
    if r.Ok? {
      ReturnBound(Residuals(r.value), n);
      if AllKnown(r.value) { KnownValues(r.value); }
    }
  }

  lemma {:induction false} TightLet(env: Env, now: Table, vs: seq<string>, es: List<Expr>, n: nat, so: bool, fuel: nat)
    requires ClosedEnv(env) && ClosedList(es, n) && SafeLet(env, now, vs, es, so, fuel)
    ensures Tight(PEvalLet(env, vs, es, so, fuel), n)
    decreases fuel, 5, 0
  {
    if es.Cons? && es.tail.Cons? && AtDepth(es.tail.head, |vs|).Some? {
      ClosedUnfolds(es, n);
      var body := es.tail.head;
      if AllFree(AtDepth(body, |vs|).value, |vs|) {
        UnitsBound(|vs|, n);
        TightApplied(env, now, body, Units(|vs|), n, so, fuel);
      } else {
        TightResidual(env, now, es.head, n, so, fuel);
        var p := PEval(env, es.head, so, fuel);
        if p.Ok? && !IsReturn(p.value.e) {
          if !p.value.known {
            TightUnder(env, now, body, |vs|, n, so, fuel);
            var q := PEval(env, body, so, fuel);
            if q.Ok? { ClosedFew(p.value.e, q.value.e, q.value.e, n); }
          } else if p.value.e.Lit? && LetArgs(vs, p.value.e.lit).Some? {
            ArgsBound(vs, p.value.e.lit, n);
            TightApplied(env, now, body, LetArgs(vs, p.value.e.lit).value, n, so, fuel);
          }
        }
      }
    }
  }

  lemma {:induction false} TightAlt(env: Env, now: Table, es: List<Expr>, n: nat, so: bool, fuel: nat)
    requires ClosedEnv(env) && ClosedList(es, n) && SafeList(env, now, es, so, fuel)
    ensures Tight(PEvalAlt(env, es, so, fuel), n)
    decreases fuel, 4, 0
  {
    if es.Cons? { TightResidual(env, now, es.head, n, so, fuel); }
  }

  lemma {:induction false} TightIf(env: Env, now: Table, es: List<Expr>, n: nat, so: bool, fuel: nat)
    requires ClosedEnv(env) && ClosedList(es, n) && SafeIf(env, now, es, so, fuel)
    ensures Tight(PEvalIf(env, es, so, fuel), n)
    decreases fuel, 5, 0
  {
    if es.Cons? && es.tail.Cons? {
      ClosedUnfolds(es, n);
      TightResidual(env, now, es.head, n, so, fuel);
      var p := PEval(env, es.head, so, fuel);
      if p.Ok? && !IsReturn(p.value.e) {
        if !p.value.known {
          TightResidual(env, now, es.tail.head, n, so, fuel);
          TightAlt(env, now, es.tail.tail, n, so, fuel);
          var t, a := PEval(env, es.tail.head, so, fuel), PEvalAlt(env, es.tail.tail, so, fuel);
          if t.Ok? && a.Ok? { ClosedFew(p.value.e, t.value.e, a.value.e, n); }
        } else if p.value.e.Lit? && IsBool(p.value.e.lit) {
          if p.value.e.lit.flat.b {
            TightResidual(env, now, es.tail.head, n, so, fuel);
          } else {
            TightAlt(env, now, es.tail.tail, n, so, fuel);
          }
        }
      }
    }
  }

  lemma {:induction false} TightIfSome(env: Env, now: Table, es: List<Expr>, n: nat, so: bool, fuel: nat)
    requires ClosedEnv(env) && ClosedList(es, n) && SafeIfSome(env, now, es, so, fuel)
    ensures Tight(PEvalIfSome(env, es, so, fuel), n)
    decreases fuel, 5, 0
  {
    if es.Cons? && es.tail.Cons? {
      ClosedUnfolds(es, n);
      TightResidual(env, now, es.head, n, so, fuel);
      var p := PEval(env, es.head, so, fuel);
      if p.Ok? && !IsReturn(p.value.e) {
        if !p.value.known {
          if es.tail.head.Closure? {
            TightResidual(env, now, es.tail.head.body, n + 1, so, fuel);
            TightAlt(env, now, es.tail.tail, n, so, fuel);
            var t, a := PEval(env, es.tail.head.body, so, fuel), PEvalAlt(env, es.tail.tail, so, fuel);
            if t.Ok? && a.Ok? { ClosedFew(p.value.e, Closure(es.tail.head.id, t.value.e), a.value.e, n); }
          }
        } else if p.value.e.Lit? && p.value.e.lit.TupleLit? {
          if |p.value.e.lit.items| == 1 {
            TightApplied(env, now, es.tail.head, One(Lit(p.value.e.lit.items[0])), n, so, fuel);
          }
          else { TightAlt(env, now, es.tail.tail, n, so, fuel); }
        }
      }
    }
  }

  lemma {:induction false} TightMatches(env: Env, now: Table, es: List<Expr>, pats: seq<Pattern>, n: nat, so: bool,
                                        fuel: nat)
    requires ClosedEnv(env) && ClosedList(es, n) && SafeList(env, now, es, so, fuel)
    ensures var r := PEvalMatches(env, es, pats, so, fuel);
      r.Ok? && MatchedReturn(r.value.1).Some? ==>
        Closed(MatchedReturn(r.value.1).value, n) && (r.value.0 ==> IsValue(MatchedReturn(r.value.1).value))
    decreases fuel, 1, es
  {
    if es.Cons? {
      TightResidual(env, now, es.head, n, so, fuel);
      if pats != [] { TightMatches(env, now, es.tail, pats[1..], n, so, fuel); }
    }
  }

  lemma {:induction false} TightIfMatch(env: Env, now: Table, vs: seq<string>, pats: seq<Pattern>, hasAlt: bool,
                                        es: List<Expr>, n: nat, so: bool, fuel: nat)
    requires ClosedEnv(env) && ClosedList(es, n) && SafeIfMatch(env, now, vs, pats, hasAlt, es, so, fuel)
    ensures Tight(PEvalIfMatch(env, vs, pats, hasAlt, es, so, fuel), n)
    decreases fuel, 5, 0
  {
    if es.Cons? && (hasAlt ==> es.tail.Cons?) {
      ClosedUnfolds(es, n);
      var scruts := if hasAlt then es.tail.tail else es.tail;
      TightMatches(env, now, scruts, pats, n, so, fuel);
      var r := PEvalMatches(env, scruts, pats, so, fuel);
      if r.Ok? && r.value.0 && MatchedReturn(r.value.1).None? {
        match Captures(r.value.1)
        case None => if hasAlt { TightResidual(env, now, es.tail.head, n, so, fuel); }
        case Some(caps) =>
          var us := CapturedArgs(vs, caps);
          if us.Some? {
            CapturedValues(vs, caps);
            LitsBound(us.value, n);
            TightApplied(env, now, es.head, us.value, n, so, fuel);
          }
      }
    }
  }

  lemma {:induction false} TightLoop(env: Env, now: Table, vs: seq<string>, lits: seq<Literal>, body: Expr,
                                     acc: Option<Part>, n: nat, so: bool, fuel: nat)
    requires ClosedEnv(env) && Closed(body, n) && (acc.Some? ==> Closed(acc.value.e, n) && Honest(acc.value))
    requires SafeLoop(env, now, vs, lits, body, acc, so, fuel)
    ensures var r := PIterLoop(env, vs, lits, body, acc, so, fuel);
      r.Ok? ==>
        && ClosedList(Residuals(r.value.0), n) && AllHonest(r.value.0)
        && (r.value.1.Some? ==> Closed(r.value.1.value.e, n) && Honest(r.value.1.value))
    decreases fuel, 3, |lits|
  {
    if lits != [] && IterArgs(vs, lits[0]).Some? {
      var us := if acc.Some? then Cons(acc.value.e, IterArgs(vs, lits[0]).value) else IterArgs(vs, lits[0]).value;
      ArgsBound(vs, lits[0], n);
      TightApplied(env, now, body, us, n, so, fuel);
      var p := PEvalApplied(env, body, us, so, fuel);
      if p.Ok? { TightLoop(env, now, vs, lits[1..], body, if acc.Some? then Some(p.value) else None, n, so, fuel); }
    }
  }

  lemma TightNodes(op: IterOp, vs: seq<string>, name: Option<string>, over: Expr, body: Expr, acc: Option<Expr>, n: nat)
    requires Closed(over, n) && Closed(body, n) && (acc.Some? ==> Closed(acc.value, n))
    ensures Closed(IterNode(op, vs, name, over, body, acc), n)
  {
    ClosedFew(over, body, if acc.Some? then acc.value else body, n);
  }

  lemma TightResult(op: IterOp, vs: seq<string>, name: Option<string>, lits: seq<Literal>, body: Expr, ps: List<Part>,
                    acc: Option<Part>, n: nat)
    requires Closed(body, n) && ClosedList(Residuals(ps), n) && AllHonest(ps)
    requires acc.Some? ==> Closed(acc.value.e, n) && Honest(acc.value)
    ensures Tight(PIterResult(op, vs, name, lits, body, ps, acc), n)
  {
    hide Collect, IterNode;
    ReturnBound(Residuals(ps), n);
    if AllKnown(ps) { KnownValues(ps); }
    TightNodes(op, vs, name, Lit(ListLit(lits)), body, PartExpr(acc), n);
  }

  lemma {:induction false} TightIter(env: Env, now: Table, op: IterOp, vs: seq<string>, name: Option<string>,
                                     es: List<Expr>, n: nat, so: bool, fuel: nat)
    requires ClosedEnv(env) && ClosedList(es, n) && SafeIter(env, now, op, vs, name, es, so, fuel)
    ensures Tight(PEvalIter(env, op, vs, name, es, so, fuel), n)
    decreases fuel, 5, 0
  {
    hide PIterResult, IterNode, SafeResults;
    if IterShape(name, es) {
      ClosedUnfolds(es, n);
      TightResidual(env, now, es.head, n, so, fuel);
      if name.Some? { TightResidual(env, now, es.tail.tail.head, n, so, fuel); }
      var p, acc := PEval(env, es.head, so, fuel), PEvalAcc(env, name, es, so, fuel);
      if p.Ok? && !IsReturn(p.value.e) && acc.Ok? {
        var e := es.tail.head;
        if !p.value.known {
          TightUnder(env, now, e, Opened(vs) + (if name.Some? then 1 else 0), n, so, fuel);
          var b := PEval(env, e, so, fuel);
          if b.Ok? { TightNodes(op, vs, name, p.value.e, b.value.e, PartExpr(acc.value), n); }
        } else if p.value.e.Lit? && p.value.e.lit.ListLit? {
          TightNodes(op, vs, name, p.value.e, e, PartExpr(acc.value), n);
          if acc.value.Some? ==> acc.value.value.known {
            TightLoop(env, now, vs, p.value.e.lit.items, e, acc.value, n, so, fuel);
            var r := PIterLoop(env, vs, p.value.e.lit.items, e, acc.value, so, fuel);
            if r.Ok? { TightResult(op, vs, name, p.value.e.lit.items, e, r.value.0, r.value.1, n); }
          }
        }
      }
    }
  }

  lemma StripBound(e: Expr, n: nat)
    requires Closed(e, n)
    ensures Closed(StripReturn(e), n) && (IsValue(e) ==> IsValue(StripReturn(e)))
  {}

  lemma TightInline(env: Env, fn: string, ps: List<Part>, n: nat, so: bool, fuel: nat)
    requires fn in env.code && Tight(PEvalApplied(env, env.code[fn], Residuals(ps), so, fuel), n)
    ensures Tight(PEvalInline(env, fn, ps, so, fuel), n)
  {
    var p := PEvalApplied(env, env.code[fn], Residuals(ps), so, fuel);
    if p.Ok? { StripBound(p.value.e, n); }
  }

  lemma {:induction false} TightCall(env: Env, now: Table, fn: string, isAsync: bool, args: List<Expr>, n: nat,
                                     so: bool, fuel: nat)
    requires ClosedEnv(env) && ClosedList(args, n) && SafeCall(env, now, fn, args, so, fuel)
    ensures Tight(PEvalCall(env, fn, isAsync, args, so, fuel), n)
    decreases fuel, 5, 0
  {
    TightList(env, now, args, n, so, fuel);
    var ps := PEvalList(env, args, so, fuel);
    if ps.Ok? {
      ReturnBound(Residuals(ps.value), n);
      if AllKnown(ps.value) { KnownValues(ps.value); }
      if FirstReturn(Residuals(ps.value)).None? && fn in env.code {
        ClosedMono(env.code[fn], 0, n);
        TightApplied(env, now, env.code[fn], Residuals(ps.value), n, so, fuel);
        TightInline(env, fn, ps.value, n, so, fuel);
      }
    }
  }

  // ----- whatever dangles -----

  function IndexBound(e: Expr): nat {
    match e
    case BVar(_, j) => j + 1
    case Closure(_, b) => IndexBound(b)
    case Node(_, es) => IndexBoundList(es)
    case _ => 0
  }

  function IndexBoundList(es: List<Expr>): nat {
    match es
    case Nil => 0
    case Cons(e, rest) => if IndexBound(e) >= IndexBoundList(rest) then IndexBound(e) else IndexBoundList(rest)
  }

  lemma {:induction false} BoundCloses(e: Expr, n: nat)
    requires n >= IndexBound(e)
    ensures Closed(e, n)
  {
    match e
    case Closure(_, b) => BoundCloses(b, n + 1);
    case Node(_, es) => BoundClosesList(es, n);
    case _ =>
  }

  lemma {:induction false} BoundClosesList(es: List<Expr>, n: nat)
    requires n >= IndexBoundList(es)
    ensures ClosedList(es, n)
  {
    if es.Cons? { BoundCloses(es.head, n); BoundClosesList(es.tail, n); }
  }

  /** A safe partial evaluation that claims to know its result has a value. */
  lemma KnownIsValue(env: Env, now: Table, e: Expr, so: bool, fuel: nat)
    requires ClosedEnv(env) && Safe(env, now, e, so, fuel) && PEval(env, e, so, fuel).Ok?
    ensures Honest(PEval(env, e, so, fuel).value)
  {
    BoundCloses(e, IndexBound(e));
    TightResidual(env, now, e, IndexBound(e), so, fuel);
  }
}
