/** The blocks that partial evaluation leaves: a residual is never a list or
    tuple block nor an empty block, so splicing it into the enclosing block
    (specialize.rs:223-229) is sound. */
module Residual {
  import opened Prelude
  import opened Syntax
  import opened Terms
  import opened Interpret
  import opened Specialize

  predicate Spliceable(e: Expr) {
    match e
    case Node(BlockExpr(kind), es) => kind == StmtBlock && es.Cons?
    case Node(ReturnExpr, Cons(x, Nil)) => Spliceable(x)
    case _ => true
  }

  predicate AllSpliceable(es: List<Expr>) {
    es.Cons? ==> Spliceable(es.head) && AllSpliceable(es.tail)
  }

  predicate MatchedSpliceable(ms: List<Matched>) {
    ms.Cons? ==> Spliceable(ms.head.value) && MatchedSpliceable(ms.tail)
  }

  predicate Leaves(r: Result<Part>) { r.Ok? ==> Spliceable(r.value.e) }

  lemma ReturnSpliceable(es: List<Expr>)
    requires AllSpliceable(es)
    ensures FirstReturn(es).Some? ==> Spliceable(FirstReturn(es).value)
  {}

  lemma {:induction false} SpliceableResidual(env: Env, e: Expr, so: bool, fuel: nat)
    ensures Leaves(PEval(env, e, so, fuel))
    decreases fuel, 0, 0
  {
    if fuel > 0 {
      if e.Closure? { SpliceableResidual(env, e.body, so, fuel - 1); }
      if e.Node? { ResidualNode(env, e.tag, e.subs, so, fuel - 1); }
    }
  }

  lemma {:induction false} ResidualList(env: Env, es: List<Expr>, so: bool, fuel: nat)
    ensures var r := PEvalList(env, es, so, fuel); r.Ok? ==> AllSpliceable(Residuals(r.value))
    decreases fuel, 1, es
  {
    if es.Cons? {
      SpliceableResidual(env, es.head, so, fuel);
      ResidualList(env, es.tail, so, fuel);
    }
  }

  lemma {:induction false} ResidualApplied(env: Env, e: Expr, us: List<Expr>, so: bool, fuel: nat)
    ensures Leaves(PEvalApplied(env, e, us, so, fuel))
    decreases fuel, 2, 0
  {
    if ApplyAll(e, us).Ok? { SpliceableResidual(env, ApplyAll(e, us).value, so, fuel); }
  }

  lemma {:induction false} ResidualNode(env: Env, tag: Tag, es: List<Expr>, so: bool, fuel: nat)
    ensures Leaves(PEvalNode(env, tag, es, so, fuel))
    decreases fuel, 9, 0
  {
    match tag
    case ReturnExpr => if es.Cons? { SpliceableResidual(env, es.head, so, fuel); }
    case PrefixExpr(_) => if es.Cons? { SpliceableResidual(env, es.head, so, fuel); }
    case InfixExpr(op) => ResidualInfix(env, op, es, so, fuel);
    case BlockExpr(kind) =>
      if kind == StmtBlock {
        ResidualBlock(env, es, so, fuel);
      } else {
        ResidualGroup(env, kind, es, so, fuel);
      }
    case Let(vs) => ResidualLet(env, vs, es, so, fuel);
    case Iter(op, vs, n) => ResidualIter(env, op, vs, n, es, so, fuel);
    case IfExpr => ResidualIf(env, es, so, fuel);
    case IfSomeMatchExpr => ResidualIfSome(env, es, so, fuel);
    case IfMatchExpr(vs, pats, hasAlt) => ResidualIfMatch(env, vs, pats, hasAlt, es, so, fuel);
    case CallExpr(fn, isAsync) => ResidualCall(env, fn, isAsync, es, so, fuel);
  }

  lemma CombinedChoice(op: Infix, p: Part, q: Part)
    ensures Combined(op, p, q).Some? ==> Combined(op, p, q).value == p || Combined(op, p, q).value == q
  {}

  lemma {:induction false} ResidualInfix(env: Env, op: Infix, es: List<Expr>, so: bool, fuel: nat)
    ensures Leaves(PEvalInfix(env, op, es, so, fuel))
    decreases fuel, 5, 0
  {
    hide EvalInfix, Combined;
    if es.Cons? && es.tail.Cons? {
      SpliceableResidual(env, es.head, so, fuel);
      SpliceableResidual(env, es.tail.head, so, fuel);
      var p, q := PEval(env, es.head, so, fuel), PEval(env, es.tail.head, so, fuel);
      if p.Ok? && q.Ok? { CombinedChoice(op, p.value, q.value); }
    }
  }

  lemma {:induction false} ResidualBlock(env: Env, es: List<Expr>, so: bool, fuel: nat)
    ensures Leaves(PEvalBlock(env, es, so, fuel))
    decreases fuel, 5, 0
  {
    if es.Cons? {
      SpliceableResidual(env, es.head, so, fuel);
      SpliceableResidual(env, Node(BlockExpr(StmtBlock), es.tail), so, fuel);
    }
  }

  lemma {:induction false} ResidualGroup(env: Env, kind: BlockKind, es: List<Expr>, so: bool, fuel: nat)
    ensures Leaves(PEvalGroup(env, kind, es, so, fuel))
    decreases fuel, 5, 0
  {
    ResidualList(env, es, so, fuel);
    var r := PEvalList(env, es, so, fuel);
    if r.Ok? { ReturnSpliceable(Residuals(r.value)); }
  }

  lemma {:induction false} ResidualLet(env: Env, vs: seq<string>, es: List<Expr>, so: bool, fuel: nat)
    ensures Leaves(PEvalLet(env, vs, es, so, fuel))
    decreases fuel, 5, 0
  {
    if es.Cons? && es.tail.Cons? {
      SpliceableResidual(env, es.head, so, fuel);
      ResidualApplied(env, es.tail.head, Units(|vs|), so, fuel);
      var p := PEval(env, es.head, so, fuel);
      if p.Ok? && p.value.e.Lit? && LetArgs(vs, p.value.e.lit).Some? {
        ResidualApplied(env, es.tail.head, LetArgs(vs, p.value.e.lit).value, so, fuel);
      }
    }
  }

  lemma {:induction false} ResidualAlt(env: Env, es: List<Expr>, so: bool, fuel: nat)
    ensures Leaves(PEvalAlt(env, es, so, fuel))
    decreases fuel, 4, 0
  {
    if es.Cons? { SpliceableResidual(env, es.head, so, fuel); }
  }

  lemma {:induction false} ResidualIf(env: Env, es: List<Expr>, so: bool, fuel: nat)
    ensures Leaves(PEvalIf(env, es, so, fuel))
    decreases fuel, 5, 0
  {
    if es.Cons? && es.tail.Cons? {
      SpliceableResidual(env, es.head, so, fuel);
      SpliceableResidual(env, es.tail.head, so, fuel);
      ResidualAlt(env, es.tail.tail, so, fuel);
    }
  }

  lemma {:induction false} ResidualIfSome(env: Env, es: List<Expr>, so: bool, fuel: nat)
    ensures Leaves(PEvalIfSome(env, es, so, fuel))
    decreases fuel, 5, 0
  {
    if es.Cons? && es.tail.Cons? {
      SpliceableResidual(env, es.head, so, fuel);
      ResidualAlt(env, es.tail.tail, so, fuel);
      if es.tail.tail.Cons? { SpliceableResidual(env, es.tail.tail.head, so, fuel); }
      var p := PEval(env, es.head, so, fuel);
      if p.Ok? && p.value.e.Lit? && p.value.e.lit.TupleLit? && |p.value.e.lit.items| == 1 {
        ResidualApplied(env, es.tail.head, One(Lit(p.value.e.lit.items[0])), so, fuel);
      }
    }
  }

  lemma {:induction false} ResidualMatches(env: Env, es: List<Expr>, pats: seq<Pattern>, so: bool, fuel: nat)
    ensures var r := PEvalMatches(env, es, pats, so, fuel);
      r.Ok? && MatchedReturn(r.value.1).Some? ==> Spliceable(MatchedReturn(r.value.1).value)
    decreases fuel, 1, es
  {
    if es.Cons? {
      SpliceableResidual(env, es.head, so, fuel);
      if pats != [] { ResidualMatches(env, es.tail, pats[1..], so, fuel); }
    }
  }

  lemma {:induction false} ResidualIfMatch(env: Env, vs: seq<string>, pats: seq<Pattern>, hasAlt: bool,
                                           es: List<Expr>, so: bool, fuel: nat)
    ensures Leaves(PEvalIfMatch(env, vs, pats, hasAlt, es, so, fuel))
    decreases fuel, 5, 0
  {
    if es.Cons? && (hasAlt ==> es.tail.Cons?) {
      var scruts := if hasAlt then es.tail.tail else es.tail;
      ResidualMatches(env, scruts, pats, so, fuel);
      if hasAlt { SpliceableResidual(env, es.tail.head, so, fuel); }
      var r := PEvalMatches(env, scruts, pats, so, fuel);
      if r.Ok? && Captures(r.value.1).Some? {
        var us := CapturedArgs(vs, Captures(r.value.1).value);
        if us.Some? { ResidualApplied(env, es.head, us.value, so, fuel); }
      }
    }
  }

  lemma {:induction false} ResidualLoop(env: Env, vs: seq<string>, lits: seq<Literal>, body: Expr, acc: Option<Part>,
                                        so: bool, fuel: nat)
    requires acc.Some? ==> Spliceable(acc.value.e)
    ensures var r := PIterLoop(env, vs, lits, body, acc, so, fuel);
      r.Ok? ==> AllSpliceable(Residuals(r.value.0)) && (r.value.1.Some? ==> Spliceable(r.value.1.value.e))
    decreases fuel, 3, |lits|
  {
    if lits != [] && IterArgs(vs, lits[0]).Some? {
      var us := if acc.Some? then Cons(acc.value.e, IterArgs(vs, lits[0]).value) else IterArgs(vs, lits[0]).value;
      ResidualApplied(env, body, us, so, fuel);
      var p := PEvalApplied(env, body, us, so, fuel);
      if p.Ok? { ResidualLoop(env, vs, lits[1..], body, if acc.Some? then Some(p.value) else None, so, fuel); }
    }
  }

  lemma {:induction false} ResidualIter(env: Env, op: IterOp, vs: seq<string>, n: Option<string>, es: List<Expr>,
                                        so: bool, fuel: nat)
    ensures Leaves(PEvalIter(env, op, vs, n, es, so, fuel))
    decreases fuel, 5, 0
  {
    hide PIterResult;
    if IterShape(n, es) {
      SpliceableResidual(env, es.head, so, fuel);
      if n.Some? { SpliceableResidual(env, es.tail.tail.head, so, fuel); }
      var p, acc := PEval(env, es.head, so, fuel), PEvalAcc(env, n, es, so, fuel);
      if p.Ok? && p.value.known && p.value.e.Lit? && p.value.e.lit.ListLit? && acc.Ok? {
        ResidualLoop(env, vs, p.value.e.lit.items, es.tail.head, acc.value, so, fuel);
        var r := PIterLoop(env, vs, p.value.e.lit.items, es.tail.head, acc.value, so, fuel);
        if r.Ok? { ResidualResult(op, vs, n, p.value.e.lit.items, es.tail.head, r.value.0, r.value.1); }
      }
    }
  }

  lemma ResidualResult(op: IterOp, vs: seq<string>, n: Option<string>, lits: seq<Literal>, body: Expr, ps: List<Part>,
                       acc: Option<Part>)
    requires AllSpliceable(Residuals(ps)) && (acc.Some? ==> Spliceable(acc.value.e))
    ensures Leaves(PIterResult(op, vs, n, lits, body, ps, acc))
  {
    hide Collect;
    ReturnSpliceable(Residuals(ps));
  }

  lemma StripSpliceable(e: Expr)
    requires Spliceable(e)
    ensures Spliceable(StripReturn(e))
  {}

  lemma {:induction false} ResidualInline(env: Env, fn: string, ps: List<Part>, so: bool, fuel: nat)
    requires fn in env.code
    ensures Leaves(PEvalInline(env, fn, ps, so, fuel))
    decreases fuel, 4, 0
  {
    var body := ApplyAll(env.code[fn], Residuals(ps));
    if body.Ok? {
      SpliceableResidual(env, body.value, so, fuel);
      var p := PEval(env, body.value, so, fuel);
      if p.Ok? { StripSpliceable(p.value.e); }
    }
  }

  lemma {:induction false} ResidualCall(env: Env, fn: string, isAsync: bool, args: List<Expr>, so: bool, fuel: nat)
    ensures Leaves(PEvalCall(env, fn, isAsync, args, so, fuel))
    decreases fuel, 5, 0
  {
    ResidualList(env, args, so, fuel);
    var ps := PEvalList(env, args, so, fuel);
    if ps.Ok? {
      ReturnSpliceable(Residuals(ps.value));
      if fn in env.code { ResidualInline(env, fn, ps.value, so, fuel); }
    }
  }
}
