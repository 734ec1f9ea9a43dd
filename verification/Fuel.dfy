/** The fuel of the partial evaluator: once there is enough, more changes nothing. */
module Fuel {
  import opened Prelude
  import opened Syntax
  import opened Terms
  import opened Interpret
  import opened Specialize

  /** The same, unless the first ran out of fuel. */
  predicate Extends<T(==)>(r: Result<T>, s: Result<T>) { r == Err(TooDeep) || r == s }

  /** A result or error that partial evaluation gives is the one it gives with more
      fuel. */
  lemma {:induction false} MoreFuel(env: Env, e: Expr, so: bool, n: nat, m: nat)
    requires n <= m
    ensures Extends(PEval(env, e, so, n), PEval(env, e, so, m))
    decreases n, 0, 0
  {
    if n > 0 {
      if e.Closure? { MoreFuel(env, e.body, so, n - 1, m - 1); }
      if e.Node? { MoreNode(env, e.tag, e.subs, so, n - 1, m - 1); }
    }
  }

  lemma {:induction false} MoreList(env: Env, es: List<Expr>, so: bool, n: nat, m: nat)
    requires n <= m
    ensures Extends(PEvalList(env, es, so, n), PEvalList(env, es, so, m))
    decreases n, 1, es
  {
    if es.Cons? { MoreFuel(env, es.head, so, n, m); MoreList(env, es.tail, so, n, m); }
  }

  lemma {:induction false} MoreNode(env: Env, tag: Tag, es: List<Expr>, so: bool, n: nat, m: nat)
    requires n <= m
    ensures Extends(PEvalNode(env, tag, es, so, n), PEvalNode(env, tag, es, so, m))
    decreases n, 9, 0
  {
    match tag
    case ReturnExpr => if es.Cons? { MoreFuel(env, es.head, so, n, m); }
    case PrefixExpr(_) => if es.Cons? { MoreFuel(env, es.head, so, n, m); }
    case InfixExpr(op) => MoreInfix(env, op, es, so, n, m);
    case BlockExpr(kind) => if kind == StmtBlock { MoreBlock(env, es, so, n, m); } else { MoreList(env, es, so, n, m); }
    case Let(vs) => MoreLet(env, vs, es, so, n, m);
    case Iter(op, vs, acc) => MoreIter(env, op, vs, acc, es, so, n, m);
    case IfExpr => MoreIf(env, es, so, n, m);
    case IfSomeMatchExpr => MoreIfSome(env, es, so, n, m);
    case IfMatchExpr(vs, pats, hasAlt) => MoreIfMatch(env, vs, pats, hasAlt, es, so, n, m);
    case CallExpr(fn, isAsync) => MoreCall(env, fn, isAsync, es, so, n, m);
  }

  lemma {:induction false} MoreInfix(env: Env, op: Infix, es: List<Expr>, so: bool, n: nat, m: nat)
    requires n <= m
    ensures Extends(PEvalInfix(env, op, es, so, n), PEvalInfix(env, op, es, so, m))
    decreases n, 5, 0
  {
    hide InfixParts, Simplify;
    if es.Cons? && es.tail.Cons? { MoreFuel(env, es.head, so, n, m); MoreFuel(env, es.tail.head, so, n, m); }
  }

  lemma {:induction false} MoreBlock(env: Env, es: List<Expr>, so: bool, n: nat, m: nat)
    requires n <= m
    ensures Extends(PEvalBlock(env, es, so, n), PEvalBlock(env, es, so, m))
    decreases n, 5, 0
  {
    if es.Cons? {
      MoreFuel(env, es.head, so, n, m);
      MoreFuel(env, Node(BlockExpr(StmtBlock), es.tail), so, n, m);
      MoreFuel(env, Node(BlockExpr(StmtBlock), es.tail), true, n, m);
    }
  }

  lemma {:induction false} MoreApplied(env: Env, e: Expr, us: List<Expr>, so: bool, n: nat, m: nat)
    requires n <= m
    ensures Extends(PEvalApplied(env, e, us, so, n), PEvalApplied(env, e, us, so, m))
    decreases n, 2, 0
  {
    if ApplyAll(e, us).Ok? { MoreFuel(env, ApplyAll(e, us).value, so, n, m); }
  }

  lemma {:induction false} MoreLet(env: Env, vs: seq<string>, es: List<Expr>, so: bool, n: nat, m: nat)
    requires n <= m
    ensures Extends(PEvalLet(env, vs, es, so, n), PEvalLet(env, vs, es, so, m))
    decreases n, 5, 0
  {
    if es.Cons? && es.tail.Cons? {
      var body := es.tail.head;
      MoreApplied(env, body, Units(|vs|), so, n, m);
      MoreFuel(env, es.head, so, n, m);
      MoreFuel(env, body, so, n, m);
      var p := PEval(env, es.head, so, n);
      if p.Ok? && p.value.e.Lit? && LetArgs(vs, p.value.e.lit).Some? {
        MoreApplied(env, body, LetArgs(vs, p.value.e.lit).value, so, n, m);
      }
    }
  }

  lemma {:induction false} MoreAlt(env: Env, alt: List<Expr>, so: bool, n: nat, m: nat)
    requires n <= m
    ensures Extends(PEvalAlt(env, alt, so, n), PEvalAlt(env, alt, so, m))
    decreases n, 4, 0
  {
    if alt.Cons? { MoreFuel(env, alt.head, so, n, m); }
  }

  lemma {:induction false} MoreIf(env: Env, es: List<Expr>, so: bool, n: nat, m: nat)
    requires n <= m
    ensures Extends(PEvalIf(env, es, so, n), PEvalIf(env, es, so, m))
    decreases n, 5, 0
  {
    if es.Cons? && es.tail.Cons? {
      MoreFuel(env, es.head, so, n, m);
      MoreFuel(env, es.tail.head, so, n, m);
      MoreAlt(env, es.tail.tail, so, n, m);
    }
  }

  lemma {:induction false} MoreIfSome(env: Env, es: List<Expr>, so: bool, n: nat, m: nat)
    requires n <= m
    ensures Extends(PEvalIfSome(env, es, so, n), PEvalIfSome(env, es, so, m))
    decreases n, 5, 0
  {
    if es.Cons? && es.tail.Cons? {
      MoreFuel(env, es.head, so, n, m);
      MoreAlt(env, es.tail.tail, so, n, m);
      if es.tail.head.Closure? { MoreFuel(env, es.tail.head.body, so, n, m); }
      var p := PEval(env, es.head, so, n);
      if p.Ok? && p.value.e.Lit? && p.value.e.lit.TupleLit? && |p.value.e.lit.items| == 1 {
        MoreApplied(env, es.tail.head, One(Lit(p.value.e.lit.items[0])), so, n, m);
      }
    }
  }

  lemma {:induction false} MoreMatches(env: Env, scruts: List<Expr>, pats: seq<Pattern>, so: bool, n: nat, m: nat)
    requires n <= m
    ensures Extends(PEvalMatches(env, scruts, pats, so, n), PEvalMatches(env, scruts, pats, so, m))
    decreases n, 1, scruts
  {
    if scruts.Cons? {
      MoreFuel(env, scruts.head, so, n, m);
      if pats != [] { MoreMatches(env, scruts.tail, pats[1..], so, n, m); }
    }
  }

  lemma {:induction false} MoreIfMatch(env: Env, vs: seq<string>, pats: seq<Pattern>, hasAlt: bool, es: List<Expr>,
                                       so: bool, n: nat, m: nat)
    requires n <= m
    ensures Extends(PEvalIfMatch(env, vs, pats, hasAlt, es, so, n), PEvalIfMatch(env, vs, pats, hasAlt, es, so, m))
    decreases n, 5, 0
  {
    if es.Cons? && (hasAlt ==> es.tail.Cons?) {
      var scruts := if hasAlt then es.tail.tail else es.tail;
      MoreMatches(env, scruts, pats, so, n, m);
      if hasAlt { MoreFuel(env, es.tail.head, so, n, m); }
      var r := PEvalMatches(env, scruts, pats, so, n);
      if r.Ok? && Captures(r.value.1).Some? && CapturedArgs(vs, Captures(r.value.1).value).Some? {
        MoreApplied(env, es.head, CapturedArgs(vs, Captures(r.value.1).value).value, so, n, m);
      }
    }
  }

  lemma {:induction false} MoreLoop(env: Env, vs: seq<string>, lits: seq<Literal>, body: Expr, acc: Option<Part>,
                                    so: bool, n: nat, m: nat)
    requires n <= m
    ensures Extends(PIterLoop(env, vs, lits, body, acc, so, n), PIterLoop(env, vs, lits, body, acc, so, m))
    decreases n, 3, |lits|
  {
    if lits != [] && IterArgs(vs, lits[0]).Some? {
      var us := IterArgs(vs, lits[0]).value;
      MoreApplied(env, body, if acc.Some? then Cons(acc.value.e, us) else us, so, n, m);
      var p := PEvalApplied(env, body, if acc.Some? then Cons(acc.value.e, us) else us, so, n);
      if p.Ok? { MoreLoop(env, vs, lits[1..], body, if acc.Some? then Some(p.value) else None, so, n, m); }
    }
  }

  lemma {:induction false} MoreIter(env: Env, op: IterOp, vs: seq<string>, name: Option<string>, es: List<Expr>,
                                    so: bool, n: nat, m: nat)
    requires n <= m
    ensures Extends(PEvalIter(env, op, vs, name, es, so, n), PEvalIter(env, op, vs, name, es, so, m))
    decreases n, 5, 0
  {
    hide PIterResult, IterNode;
    if IterShape(name, es) {
      MoreFuel(env, es.head, so, n, m);
      MoreFuel(env, es.tail.head, so, n, m);
      if name.Some? { MoreFuel(env, es.tail.tail.head, so, n, m); }
      var p, acc := PEval(env, es.head, so, n), PEvalAcc(env, name, es, so, n);
      if p.Ok? && p.value.e.Lit? && p.value.e.lit.ListLit? && acc.Ok? {
        MoreLoop(env, vs, p.value.e.lit.items, es.tail.head, acc.value, so, n, m);
      }
    }
  }

  lemma {:induction false} MoreCall(env: Env, fn: string, isAsync: bool, args: List<Expr>, so: bool, n: nat, m: nat)
    requires n <= m
    ensures Extends(PEvalCall(env, fn, isAsync, args, so, n), PEvalCall(env, fn, isAsync, args, so, m))
    decreases n, 5, 0
  {
    hide PEvalForeign;
    MoreList(env, args, so, n, m);
    var ps := PEvalList(env, args, so, n);
    if ps.Ok? && fn in env.code { MoreInline(env, fn, ps.value, so, n, m); }
  }

  lemma {:induction false} MoreInline(env: Env, fn: string, ps: List<Part>, so: bool, n: nat, m: nat)
    requires n <= m && fn in env.code
    ensures Extends(PEvalInline(env, fn, ps, so, n), PEvalInline(env, fn, ps, so, m))
    decreases n, 4, 0
  {
    var body := ApplyAll(env.code[fn], Residuals(ps));
    if body.Ok? { MoreFuel(env, body.value, so, n, m); }
  }
}
