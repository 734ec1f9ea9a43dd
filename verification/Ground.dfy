/** Specialization computes whatever can be computed: an expression that depends on
    no variable and calls nothing external is evaluated, not left over. */
module Ground {
  import opened Prelude
  import opened Syntax
  import opened Terms
  import opened TermLaws
  import opened Interpret
  import opened Scope
  import opened Simulation
  import opened Shapes
  import opened Specialize
  import opened Safety
  import opened ResidualScope
  import opened Soundness

  /** Declared functions and builtins: nothing that waits for the proxy. */
  ghost function Local(env: Env): iset<string> { iset f: string | f in env.code || env.isBuiltin(f) }

  ghost predicate Grounded(env: Env, e: Expr) { Scoped(e, 0) && Within(e, Local(env), false) }

  ghost predicate GroundedList(env: Env, es: List<Expr>) { ScopedList(es, 0) && WithinList(es, Local(env), false) }

  ghost predicate GroundProgram(env: Env) {
    ClosedEnv(env) && forall f :: f in env.code ==> Grounded(env, env.code[f])
  }

  /** What is known, if partial evaluation succeeds. */
  predicate Knows(r: Result<Part>) { r.Ok? ==> r.value.known }

  lemma {:induction false} AppliedGround(env: Env, e: Expr, us: List<Expr>)
    requires Grounded(env, e) && AllValues(us)
    ensures ApplyAll(e, us).Ok? ==> Grounded(env, ApplyAll(e, us).value)
    decreases us
  {
    if us.Cons? && e.Closure? {
      ValueScoped(us.head, Local(env));
      ScopedClosed(us.head, 0);
      SubstScoped(e.body, 0, 0, us.head);
      SubstWithin(e.body, 0, us.head, Local(env), false);
      AppliedGround(env, Subst(e.body, 0, us.head, true), us.tail);
    }
  }

  lemma GroundParts(env: Env, es: List<Expr>)
    requires GroundedList(env, es)
    ensures es.Cons? ==>
      Grounded(env, es.head) && GroundedList(env, es.tail) && Grounded(env, Node(BlockExpr(StmtBlock), es.tail))
    ensures es.Cons? && es.tail.Cons? ==> Grounded(env, es.tail.head) && GroundedList(env, es.tail.tail)
    ensures es.Cons? && es.tail.Cons? && es.tail.tail.Cons? ==> Grounded(env, es.tail.tail.head)
  {}

  lemma NodeGround(env: Env, tag: Tag, es: List<Expr>)
    requires Grounded(env, Node(tag, es))
    ensures GroundedList(env, es) && (tag.CallExpr? ==> tag.fn in env.code || env.isBuiltin(tag.fn))
  {}

  /** A ground expression whose partial evaluation is safe and succeeds is known. */
  lemma {:induction false} GroundIsKnown(env: Env, now: Table, e: Expr, fuel: nat)
    requires GroundProgram(env) && Grounded(env, e) && Safe(env, now, e, false, fuel)
    ensures Knows(PEval(env, e, false, fuel))
    decreases fuel, 0, 0
  {
    if fuel > 0 && e.Node? { KnownNode(env, now, e.tag, e.subs, fuel - 1); }
  }

  lemma {:induction false} KnownNode(env: Env, now: Table, tag: Tag, es: List<Expr>, fuel: nat)
    requires GroundProgram(env) && Grounded(env, Node(tag, es)) && SafeNode(env, now, tag, es, false, fuel)
    ensures Knows(PEvalNode(env, tag, es, false, fuel))
    decreases fuel, 9, 0
  {
    NodeGround(env, tag, es);
    GroundParts(env, es);
    match tag
    case ReturnExpr => if es.Cons? { GroundIsKnown(env, now, es.head, fuel); }
    case PrefixExpr(_) => if es.Cons? { GroundIsKnown(env, now, es.head, fuel); }
    case InfixExpr(_) =>
      if es.Cons? && es.tail.Cons? {
        GroundIsKnown(env, now, es.head, fuel);
        GroundIsKnown(env, now, es.tail.head, fuel);
      }
    case BlockExpr(kind) =>
      if kind == StmtBlock { KnownBlock(env, now, es, fuel); } else { KnownList(env, now, es, fuel); }
    case Let(vs) => if es.Cons? && es.tail.Cons? { KnownLet(env, now, vs, es, fuel); }
    case Iter(op, vs, n) => KnownIter(env, now, op, vs, n, es, fuel);
    case IfExpr => if es.Cons? && es.tail.Cons? { KnownIf(env, now, es, fuel); }
    case IfSomeMatchExpr => if es.Cons? && es.tail.Cons? { KnownIfSome(env, now, es, fuel); }
    case IfMatchExpr(vs, pats, hasAlt) =>
      if es.Cons? && (hasAlt ==> es.tail.Cons?) { KnownIfMatch(env, now, vs, pats, hasAlt, es, fuel); }
    case CallExpr(fn, isAsync) => KnownCall(env, now, fn, isAsync, es, fuel);
  }

  lemma {:induction false} KnownList(env: Env, now: Table, es: List<Expr>, fuel: nat)
    requires GroundProgram(env) && GroundedList(env, es) && SafeList(env, now, es, false, fuel)
    ensures PEvalList(env, es, false, fuel).Ok? ==>
      AllKnown(PEvalList(env, es, false, fuel).value) && AllValues(Residuals(PEvalList(env, es, false, fuel).value))
    decreases fuel, 1, es
  {
    GroundParts(env, es);
    if es.Cons? {
      GroundIsKnown(env, now, es.head, fuel);
      if PEval(env, es.head, false, fuel).Ok? { KnownIsValue(env, now, es.head, false, fuel); }
      KnownList(env, now, es.tail, fuel);
    }
  }

  lemma {:induction false} KnownApplied(env: Env, now: Table, e: Expr, us: List<Expr>, fuel: nat)
    requires GroundProgram(env) && Grounded(env, e) && AllValues(us) && SafeApplied(env, now, e, us, false, fuel)
    ensures Knows(PEvalApplied(env, e, us, false, fuel))
    decreases fuel, 2, 0
  {
    AppliedGround(env, e, us);
    if ApplyAll(e, us).Ok? { GroundIsKnown(env, now, ApplyAll(e, us).value, fuel); }
  }

  lemma {:induction false} KnownBlock(env: Env, now: Table, es: List<Expr>, fuel: nat)
    requires GroundProgram(env) && GroundedList(env, es) && SafeBlock(env, now, es, false, fuel)
    ensures Knows(PEvalBlock(env, es, false, fuel))
    decreases fuel, 5, 0
  {
    GroundParts(env, es);
    if es.Cons? {
      GroundIsKnown(env, now, es.head, fuel);
      var p := PEval(env, es.head, false, fuel);
      if p.Ok? && !IsReturn(p.value.e) && es.tail.Cons? {
        GroundIsKnown(env, now, Node(BlockExpr(StmtBlock), es.tail), fuel);
      }
    }
  }

  lemma {:induction false} KnownAlt(env: Env, now: Table, alt: List<Expr>, fuel: nat)
    requires GroundProgram(env) && GroundedList(env, alt) && SafeList(env, now, alt, false, fuel)
    ensures Knows(PEvalAlt(env, alt, false, fuel))
    decreases fuel, 4, 0
  {
    GroundParts(env, alt);
    if alt.Cons? { GroundIsKnown(env, now, alt.head, fuel); }
  }

  lemma {:induction false} KnownIf(env: Env, now: Table, es: List<Expr>, fuel: nat)
    requires GroundProgram(env) && GroundedList(env, es) && SafeIf(env, now, es, false, fuel)
    requires es.Cons? && es.tail.Cons?
    ensures Knows(PEvalIf(env, es, false, fuel))
    decreases fuel, 5, 0
  {
    GroundParts(env, es);
    GroundIsKnown(env, now, es.head, fuel);
    var p := PEval(env, es.head, false, fuel);
    if p.Ok? && p.value.e.Lit? && IsBool(p.value.e.lit) {
      if p.value.e.lit.flat.b { GroundIsKnown(env, now, es.tail.head, fuel); }
      else { KnownAlt(env, now, es.tail.tail, fuel); }
    }
  }

  lemma {:induction false} KnownIfSome(env: Env, now: Table, es: List<Expr>, fuel: nat)
    requires GroundProgram(env) && GroundedList(env, es) && SafeIfSome(env, now, es, false, fuel)
    requires es.Cons? && es.tail.Cons?
    ensures Knows(PEvalIfSome(env, es, false, fuel))
    decreases fuel, 5, 0
  {
    GroundParts(env, es);
    GroundIsKnown(env, now, es.head, fuel);
    var p := PEval(env, es.head, false, fuel);
    if p.Ok? && p.value.e.Lit? && p.value.e.lit.TupleLit? {
      if |p.value.e.lit.items| == 1 { KnownApplied(env, now, es.tail.head, One(Lit(p.value.e.lit.items[0])), fuel); }
      else { KnownAlt(env, now, es.tail.tail, fuel); }
    }
  }

  lemma {:induction false} KnownMatches(env: Env, now: Table, es: List<Expr>, pats: seq<Pattern>, fuel: nat)
    requires GroundProgram(env) && GroundedList(env, es) && SafeList(env, now, es, false, fuel)
    ensures var r := PEvalMatches(env, es, pats, false, fuel); r.Ok? ==> r.value.0
    decreases fuel, 1, es
  {
    GroundParts(env, es);
    if es.Cons? {
      GroundIsKnown(env, now, es.head, fuel);
      if pats != [] { KnownMatches(env, now, es.tail, pats[1..], fuel); }
    }
  }

  lemma {:induction false} KnownIfMatch(env: Env, now: Table, vs: seq<string>, pats: seq<Pattern>, hasAlt: bool,
                                        es: List<Expr>, fuel: nat)
    requires GroundProgram(env) && GroundedList(env, es) && es.Cons? && (hasAlt ==> es.tail.Cons?)
    requires SafeIfMatch(env, now, vs, pats, hasAlt, es, false, fuel)
    ensures Knows(PEvalIfMatch(env, vs, pats, hasAlt, es, false, fuel))
    decreases fuel, 5, 0
  {
    GroundParts(env, es);
    var scruts := if hasAlt then es.tail.tail else es.tail;
    KnownMatches(env, now, scruts, pats, fuel);
    var r := PEvalMatches(env, scruts, pats, false, fuel);
    if r.Ok? && MatchedReturn(r.value.1).None? {
      if Captures(r.value.1).Some? {
        var us := CapturedArgs(vs, Captures(r.value.1).value);
        CapturedValues(vs, Captures(r.value.1).value);
        if us.Some? { KnownApplied(env, now, es.head, us.value, fuel); }
      } else if hasAlt {
        GroundIsKnown(env, now, es.tail.head, fuel);
      }
    }
  }

  lemma UnitsValues(n: nat)
    ensures AllValues(Units(n))
  {}

  lemma {:induction false} KnownLet(env: Env, now: Table, vs: seq<string>, es: List<Expr>, fuel: nat)
    requires GroundProgram(env) && GroundedList(env, es) && SafeLet(env, now, vs, es, false, fuel)
    requires es.Cons? && es.tail.Cons?
    ensures Knows(PEvalLet(env, vs, es, false, fuel))
    decreases fuel, 5, 0
  {
    GroundParts(env, es);
    var rhs, body := es.head, es.tail.head;
    var b := AtDepth(body, |vs|);
    if b.Some? {
      if AllFree(b.value, |vs|) {
        UnitsValues(|vs|);
        KnownApplied(env, now, body, Units(|vs|), fuel);
      } else {
        GroundIsKnown(env, now, rhs, fuel);
        var p := PEval(env, rhs, false, fuel);
        if p.Ok? && p.value.e.Lit? && LetArgs(vs, p.value.e.lit).Some? {
          ArgsLits(vs, p.value.e.lit);
          LitListValues(LetArgs(vs, p.value.e.lit).value);
          KnownApplied(env, now, body, LetArgs(vs, p.value.e.lit).value, fuel);
        }
      }
    }
  }

  lemma {:induction false} KnownCall(env: Env, now: Table, fn: string, isAsync: bool, args: List<Expr>, fuel: nat)
    requires GroundProgram(env) && Grounded(env, Node(CallExpr(fn, isAsync), args))
    requires SafeCall(env, now, fn, args, false, fuel)
    ensures Knows(PEvalCall(env, fn, isAsync, args, false, fuel))
    decreases fuel, 5, 0
  {
    NodeGround(env, CallExpr(fn, isAsync), args);
    KnownList(env, now, args, fuel);
    var r := PEvalList(env, args, false, fuel);
    if r.Ok? && FirstReturn(Residuals(r.value)).None? && fn in env.code {
      KnownApplied(env, now, env.code[fn], Residuals(r.value), fuel);
      InlineKnown(env, fn, r.value, fuel);
    }
  }

  lemma InlineKnown(env: Env, fn: string, ps: List<Part>, fuel: nat)
    requires fn in env.code && AllKnown(ps) && Knows(PEvalApplied(env, env.code[fn], Residuals(ps), false, fuel))
    ensures Knows(PEvalInline(env, fn, ps, false, fuel))
  {}

  lemma {:induction false} KnownLoop(env: Env, now: Table, vs: seq<string>, lits: seq<Literal>, body: Expr,
                                     acc: Option<Part>, fuel: nat)
    requires GroundProgram(env) && Grounded(env, body) && SafeLoop(env, now, vs, lits, body, acc, false, fuel)
    requires acc.Some? ==> acc.value.known && IsValue(acc.value.e)
    ensures var r := PIterLoop(env, vs, lits, body, acc, false, fuel);
      r.Ok? ==> AllKnown(r.value.0) && (r.value.1.Some? ==> r.value.1.value.known)
    decreases fuel, 3, |lits|
  {
    if lits != [] && IterArgs(vs, lits[0]).Some? {
      ArgsLits(vs, lits[0]);
      LitListValues(IterArgs(vs, lits[0]).value);
      var us := AccArgs(PartExpr(acc), IterArgs(vs, lits[0]).value);
      KnownApplied(env, now, body, us, fuel);
      var p := PEvalApplied(env, body, us, false, fuel);
      if p.Ok? {
        KnownIsValue(env, now, ApplyAll(body, us).value, false, fuel);
        KnownLoop(env, now, vs, lits[1..], body, if acc.Some? then Some(p.value) else None, fuel);
      }
    }
  }

  lemma {:induction false} KnownIter(env: Env, now: Table, op: IterOp, vs: seq<string>, n: Option<string>,
                                     es: List<Expr>, fuel: nat)
    requires GroundProgram(env) && GroundedList(env, es) && SafeIter(env, now, op, vs, n, es, false, fuel)
    ensures Knows(PEvalIter(env, op, vs, n, es, false, fuel))
    decreases fuel, 5, 0
  {
    GroundParts(env, es);
    if IterShape(n, es) {
      GroundIsKnown(env, now, es.head, fuel);
      if n.Some? {
        GroundIsKnown(env, now, es.tail.tail.head, fuel);
        if PEval(env, es.tail.tail.head, false, fuel).Ok? { KnownIsValue(env, now, es.tail.tail.head, false, fuel); }
      }
      var p, acc := PEval(env, es.head, false, fuel), PEvalAcc(env, n, es, false, fuel);
      if p.Ok? && acc.Ok? && p.value.e.Lit? && p.value.e.lit.ListLit? {
        KnownLoop(env, now, vs, p.value.e.lit.items, es.tail.head, acc.value, fuel);
      }
    }
  }

  /** So it is the value: specializing a ground expression is evaluating it. */
  lemma GroundIsEvaluated(env: Env, now: Table, e: Expr, fuel: nat, k: nat, v: Expr)
    requires GroundProgram(env) && Grounded(env, e) && Safe(env, now, e, false, fuel)
    requires PEval(env, e, false, fuel).Ok? && Eval(env.(call := now), e, k) == Ok(v)
    ensures PEval(env, e, false, fuel) == Ok(Part(true, v))
  {
    GroundIsKnown(env, now, e, fuel);
    ScopedClosed(e, 0);
    InstClosed(e, 0, []);
    PEvalPreservesMeaning(env, now, e, false, fuel, [], k, v);
  }

  // ----- operands that decide or do not matter -----

  predicate Becomes(op: Infix, p: Part, q: Part, e: Expr) {
    Simplify(op, p, q).Ok? && Simplify(op, p, q).value.e == e
  }

  /** With a zero or a one on either side of something that is neither a literal nor a
      `return`, nothing is left of the operation, unless it is a quotient by zero. */
  lemma IntUnits(p: Part)
    requires !IsReturn(p.e) && !p.e.Lit?
    ensures var n, u := Part(true, Lit(Flat(Int(0)))), Part(true, Lit(Flat(Int(1))));
      && Becomes(Plus, p, n, p.e) && Becomes(Plus, n, p, p.e) && Becomes(Minus, p, n, p.e)
      && Becomes(Multiply, p, u, p.e) && Becomes(Multiply, u, p, p.e) && Becomes(Divide, p, u, p.e)
      && Becomes(Multiply, p, n, n.e) && Becomes(Multiply, n, p, n.e)
  {}

  lemma FloatUnits(p: Part)
    requires !IsReturn(p.e) && !p.e.Lit?
    ensures var n, u := Part(true, Lit(Flat(Float(0.0)))), Part(true, Lit(Flat(Float(1.0))));
      && Becomes(Plus, p, n, p.e) && Becomes(Plus, n, p, p.e) && Becomes(Minus, p, n, p.e)
      && Becomes(Multiply, p, u, p.e) && Becomes(Multiply, u, p, p.e) && Becomes(Divide, p, u, p.e)
      && Becomes(Multiply, p, n, n.e) && Becomes(Multiply, n, p, n.e)
  {}

  lemma BoolUnits(p: Part)
    requires !IsReturn(p.e)
    ensures var no, yes := Part(true, Lit(BoolLit(false))), Part(true, Lit(BoolLit(true)));
      && Becomes(And, p, yes, p.e) && Becomes(And, yes, p, p.e) && Becomes(Or, p, no, p.e) && Becomes(Or, no, p, p.e)
      && Becomes(And, p, no, no.e) && Becomes(And, no, p, no.e) && Becomes(Or, p, yes, yes.e)
      && Becomes(Or, yes, p, yes.e) && Becomes(Equal, p, p, yes.e)
  {}
}
