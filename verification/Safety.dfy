/** When partial evaluation can be trusted. Some rules of the specializer do not
    preserve meaning (module Unsound has a program for each). `Safe` replays a
    partial evaluation and says that the guard of none of them holds.

    `env` is the program with the builtins as they are when it is specialized,
    `now` the builtins as they are when the residual runs. */
module Safety {
  import opened Prelude
  import opened Syntax
  import opened Terms
  import opened Interpret
  import opened Shapes
  import opened Specialize

  // ----- guards -----

  predicate ShortCircuits(op: Infix) { op == And || op == Or }

  /** Not `x != y` on different residuals, `0 - y` or `1 / y`. */
  predicate RuleSafe(op: Infix, x: Expr, y: Expr) {
    && !(op == NotEqual && x != y)
    && !(op == Minus && x == Lit(Flat(Int(0))) && y != x)
    && !(op == Divide && x == Lit(Flat(Int(1))) && y != x)
  }

  /** An operand that the simplified form `r` does without cannot return; the
      right one may after a `return` on the left or when it need not run. */
  predicate NothingLost(code: map<string, Expr>, op: Infix, x: Expr, y: Expr, r: Expr) {
    || r == Node(InfixExpr(op), Two(x, y))
    || ((r == x || Settles(code, x)) && (r == y || Settles(code, y) || IsReturn(x) || ShortCircuits(op)))
  }

  /** A `return` on the right counts only when the left operand lets it run. */
  predicate ReturnRuns(op: Infix, x: Expr, y: Expr) {
    ShortCircuits(op) && IsReturn(y) ==> IsReturn(x) || x == Lit(BoolLit(op == And))
  }

  predicate InfixSafe(code: map<string, Expr>, op: Infix, p: Part, q: Part) {
    && ReturnRuns(op, p.e, q.e)
    && (!(p.known && q.known) && Simplify(op, p, q).Ok? ==>
          RuleSafe(op, p.e, q.e) && NothingLost(code, op, p.e, q.e, Simplify(op, p, q).value.e))
  }

  /** Nothing before the first `return` can return. */
  predicate SettledToReturn(code: map<string, Expr>, ps: List<Part>) {
    ps.Cons? && !IsReturn(ps.head.e) ==> Settles(code, ps.head.e) && SettledToReturn(code, ps.tail)
  }

  /** Every argument is closed or its parameter is not below two or more binders. */
  predicate InlineSafe(e: Expr, us: List<Expr>)
    decreases us
  {
    us.Cons? && e.Closure? ==>
      && (Closed(us.head, 0) || Shallow(e.body, 0))
      && InlineSafe(Subst(e.body, 0, us.head, true), us.tail)
  }

  /** An inlined body must not leave a `return` behind. */
  predicate InlinedSafe(code: map<string, Expr>, r: Result<Part>) {
    r.Ok? ==> r.value.known || IsReturn(r.value.e) || Settles(code, r.value.e)
  }

  /** A builtin that is run now and then must give the same then. */
  predicate SameThen(env: Env, now: Table, fn: string, ls: seq<Literal>) {
    env.isBuiltin(fn) && env.call(fn, ls).Some? && now(fn, ls).Some? ==> now(fn, ls) == env.call(fn, ls)
  }

  predicate BuiltinSafe(env: Env, now: Table, fn: string, ps: List<Part>, so: bool) {
    AllKnown(ps) && !so && Literals(Residuals(ps)).Some? ==> SameThen(env, now, fn, Literals(Residuals(ps)).value)
  }

  predicate SameResidual(p: Result<Part>, q: Result<Part>) {
    p.Ok? && q.Ok? && p.value.e == q.value.e
  }

  predicate SameOpened(t: Result<Part>, a: Result<Part>) {
    t.Ok? && a.Ok? && IsFree(t.value.e, 0) && Subst(t.value.e, 0, Lit(UNIT), true) == a.value.e
  }

  // ----- replaying partial evaluation -----

  /** A closure is no expression to evaluate: it only stands where a construct
      applies it. */
  predicate Safe(env: Env, now: Table, e: Expr, so: bool, fuel: nat)
    decreases fuel, 0, 0
  {
    !e.Closure? && (fuel > 0 && e.Node? ==> SafeNode(env, now, e.tag, e.subs, so, fuel - 1))
  }

  /** Below `n` closures, none of which loses its variable (partial evaluation
      would drop the closure). */
  predicate SafeUnder(env: Env, now: Table, e: Expr, n: nat, so: bool, fuel: nat)
    decreases fuel, 1, n
  {
    if n == 0 then Safe(env, now, e, so, fuel)
    else fuel > 0 ==>
      && e.Closure?
      && SafeUnder(env, now, e.body, n - 1, so, fuel - 1)
      && (PEval(env, e.body, so, fuel - 1).Ok? ==> !IsFree(PEval(env, e.body, so, fuel - 1).value.e, 0))
  }

  predicate SafeList(env: Env, now: Table, es: List<Expr>, so: bool, fuel: nat)
    decreases fuel, 1, es
  {
    es.Cons? ==> Safe(env, now, es.head, so, fuel) && SafeList(env, now, es.tail, so, fuel)
  }

  predicate SafeApplied(env: Env, now: Table, e: Expr, us: List<Expr>, so: bool, fuel: nat)
    decreases fuel, 2, 0
  {
    ApplyAll(e, us).Ok? ==> Safe(env, now, ApplyAll(e, us).value, so, fuel)
  }

  predicate SafeNode(env: Env, now: Table, tag: Tag, es: List<Expr>, so: bool, fuel: nat)
    decreases fuel, 9, 0
  {
    match tag
    case ReturnExpr => SafeList(env, now, es, so, fuel)
    case PrefixExpr(_) => SafeList(env, now, es, so, fuel)
    case InfixExpr(op) => SafeInfix(env, now, op, es, so, fuel)
    case BlockExpr(kind) =>
      if kind == StmtBlock then SafeBlock(env, now, es, so, fuel) else SafeGroup(env, now, es, so, fuel)
    case Let(vs) => SafeLet(env, now, vs, es, so, fuel)
    case Iter(op, vs, n) => SafeIter(env, now, op, vs, n, es, so, fuel)
    case IfExpr => SafeIf(env, now, es, so, fuel)
    case IfSomeMatchExpr => SafeIfSome(env, now, es, so, fuel)
    case IfMatchExpr(vs, pats, hasAlt) => SafeIfMatch(env, now, vs, pats, hasAlt, es, so, fuel)
    case CallExpr(fn, _) => SafeCall(env, now, fn, es, so, fuel)
  }

  predicate SafeInfix(env: Env, now: Table, op: Infix, es: List<Expr>, so: bool, fuel: nat)
    decreases fuel, 5, 0
  {
    es.Cons? && es.tail.Cons? ==>
      && Safe(env, now, es.head, so, fuel) && Safe(env, now, es.tail.head, so, fuel)
      && var p, q := PEval(env, es.head, so, fuel), PEval(env, es.tail.head, so, fuel);
         p.Ok? && q.Ok? ==> InfixSafe(env.code, op, p.value, q.value)
  }

  predicate SafeBlock(env: Env, now: Table, es: List<Expr>, so: bool, fuel: nat)
    decreases fuel, 5, 0
  {
    es.Cons? ==>
      && Safe(env, now, es.head, so, fuel)
      && var p := PEval(env, es.head, so, fuel);
         p.Ok? && !IsReturn(p.value.e) && es.tail.Cons? ==>
           Safe(env, now, Node(BlockExpr(StmtBlock), es.tail), if p.value.known then so else true, fuel)
  }

  predicate SafeGroup(env: Env, now: Table, es: List<Expr>, so: bool, fuel: nat)
    decreases fuel, 5, 0
  {
    && SafeList(env, now, es, so, fuel)
    && var ps := PEvalList(env, es, so, fuel);
       ps.Ok? && FirstReturn(Residuals(ps.value)).Some? ==> SettledToReturn(env.code, ps.value)
  }

  predicate SafeLet(env: Env, now: Table, vs: seq<string>, es: List<Expr>, so: bool, fuel: nat)
    decreases fuel, 5, 0
  {
    es.Cons? && es.tail.Cons? && AtDepth(es.tail.head, |vs|).Some? ==>
      var body := es.tail.head;
      if AllFree(AtDepth(body, |vs|).value, |vs|) then
        Settles(env.code, es.head) && SafeApplied(env, now, body, Units(|vs|), so, fuel)
      else
        && Safe(env, now, es.head, so, fuel)
        && var p := PEval(env, es.head, so, fuel);
           p.Ok? && !IsReturn(p.value.e) ==>
             if !p.value.known then SafeUnder(env, now, body, |vs|, so, fuel)
             else p.value.e.Lit? && LetArgs(vs, p.value.e.lit).Some? ==>
               SafeApplied(env, now, body, LetArgs(vs, p.value.e.lit).value, so, fuel)
  }

  predicate SafeIf(env: Env, now: Table, es: List<Expr>, so: bool, fuel: nat)
    decreases fuel, 5, 0
  {
    es.Cons? && es.tail.Cons? ==>
      && Safe(env, now, es.head, so, fuel)
      && var p := PEval(env, es.head, so, fuel);
         p.Ok? && !IsReturn(p.value.e) ==>
           if p.value.known then
             p.value.e.Lit? && IsBool(p.value.e.lit) ==>
               if p.value.e.lit.flat.b then Safe(env, now, es.tail.head, so, fuel)
               else SafeList(env, now, es.tail.tail, so, fuel)
           else
             && Safe(env, now, es.tail.head, so, fuel) && SafeList(env, now, es.tail.tail, so, fuel)
             && (es.tail.tail.Cons?
                 && SameResidual(PEval(env, es.tail.head, so, fuel), PEval(env, es.tail.tail.head, so, fuel))
                 ==> Settles(env.code, p.value.e))
  }

  predicate SafeIfSome(env: Env, now: Table, es: List<Expr>, so: bool, fuel: nat)
    decreases fuel, 5, 0
  {
    es.Cons? && es.tail.Cons? ==>
      && Safe(env, now, es.head, so, fuel)
      && var p := PEval(env, es.head, so, fuel);
         p.Ok? && !IsReturn(p.value.e) ==>
           if p.value.known then
             p.value.e.Lit? && p.value.e.lit.TupleLit? ==>
               if |p.value.e.lit.items| == 1
               then SafeApplied(env, now, es.tail.head, One(Lit(p.value.e.lit.items[0])), so, fuel)
               else SafeList(env, now, es.tail.tail, so, fuel)
           else es.tail.head.Closure? ==>
             && Safe(env, now, es.tail.head.body, so, fuel) && SafeList(env, now, es.tail.tail, so, fuel)
             && (es.tail.tail.Cons?
                 && SameOpened(PEval(env, es.tail.head.body, so, fuel), PEval(env, es.tail.tail.head, so, fuel))
                 ==> Settles(env.code, p.value.e))
  }

  predicate SafeIfMatch(env: Env, now: Table, vs: seq<string>, pats: seq<Pattern>, hasAlt: bool, es: List<Expr>,
                        so: bool, fuel: nat)
    decreases fuel, 5, 0
  {
    es.Cons? && (hasAlt ==> es.tail.Cons?) ==>
      var scruts := if hasAlt then es.tail.tail else es.tail;
      && SafeList(env, now, scruts, so, fuel)
      && var r := PEvalMatches(env, scruts, pats, so, fuel);
         r.Ok? && r.value.0 && MatchedReturn(r.value.1).None? ==>
           match Captures(r.value.1)
           case None => hasAlt ==> Safe(env, now, es.tail.head, so, fuel)
           case Some(caps) =>
             CapturedArgs(vs, caps).Some? ==> SafeApplied(env, now, es.head, CapturedArgs(vs, caps).value, so, fuel)
  }

  /** The number of closures an iteration opens. */
  function Opened(vs: seq<string>): nat {
    if vs == [] then 0 else (if vs[0] != "_" then 1 else 0) + Opened(vs[1..])
  }

  predicate SafeIter(env: Env, now: Table, op: IterOp, vs: seq<string>, n: Option<string>, es: List<Expr>,
                     so: bool, fuel: nat)
    decreases fuel, 5, 0
  {
    IterShape(n, es) ==>
      && Safe(env, now, es.head, so, fuel)
      && (n.Some? ==> op == Fold && Safe(env, now, es.tail.tail.head, so, fuel))
      && var p, acc := PEval(env, es.head, so, fuel), PEvalAcc(env, n, es, so, fuel);
         p.Ok? ==>
           if IsReturn(p.value.e) then p.value.known
           else if !p.value.known then
             && SafeUnder(env, now, es.tail.head, Opened(vs) + (if n.Some? then 1 else 0), so, fuel)
             && (n.Some? && acc.Ok? ==> Settles(env.code, es.tail.head) && Settles(env.code, acc.value.value.e))
           else p.value.e.Lit? && p.value.e.lit.ListLit? && acc.Ok? && (acc.value.Some? ==> acc.value.value.known) ==>
             && SafeLoop(env, now, vs, p.value.e.lit.items, es.tail.head, acc.value, so, fuel)
             && SafeResults(env.code, op, p.value.e.lit.items, n.Some?,
                            PIterLoop(env, vs, p.value.e.lit.items, es.tail.head, acc.value, so, fuel))
  }

  predicate SafeLoop(env: Env, now: Table, vs: seq<string>, lits: seq<Literal>, body: Expr, acc: Option<Part>,
                     so: bool, fuel: nat)
    decreases fuel, 3, |lits|
  {
    lits != [] && IterArgs(vs, lits[0]).Some? ==>
      var us := if acc.Some? then Cons(acc.value.e, IterArgs(vs, lits[0]).value) else IterArgs(vs, lits[0]).value;
      && InlineSafe(body, us)
      && SafeApplied(env, now, body, us, so, fuel)
      && var p := PEvalApplied(env, body, us, so, fuel);
         p.Ok? ==> SafeLoop(env, now, vs, lits[1..], body, if acc.Some? then Some(p.value) else None, so, fuel)
  }

  /** No `return` is overlooked, and the results the source collects (none) give
      what the real ones give. */
  predicate SafeResults(code: map<string, Expr>, op: IterOp, lits: seq<Literal>, hasAcc: bool,
                        r: Result<(List<Part>, Option<Part>)>)
  {
    r.Ok? ==>
      var rs := Residuals(r.value.0);
      && (hasAcc || FirstReturn(rs).Some? ==> SettledToReturn(code, r.value.0))
      && (!hasAcc && FirstReturn(rs).None? && AllKnown(r.value.0) && Literals(rs).Some? ==>
            Collect(op, lits, []) == Collect(op, lits, Literals(rs).value))
  }

  predicate SafeCall(env: Env, now: Table, fn: string, args: List<Expr>, so: bool, fuel: nat)
    decreases fuel, 5, 0
  {
    && SafeList(env, now, args, so, fuel)
    && var ps := PEvalList(env, args, so, fuel);
       ps.Ok? ==>
         if FirstReturn(Residuals(ps.value)).Some? then SettledToReturn(env.code, ps.value)
         else if fn !in env.code then BuiltinSafe(env, now, fn, ps.value, so)
         else
           && SettledToReturn(env.code, ps.value)
           && InlineSafe(env.code[fn], Residuals(ps.value))
           && SafeApplied(env, now, env.code[fn], Residuals(ps.value), so, fuel)
           && var r := ApplyAll(env.code[fn], Residuals(ps.value));
              r.Ok? ==> InlinedSafe(env.code, PEval(env, r.value, so, fuel))
  }
}
