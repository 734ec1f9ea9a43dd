/** User functions are always unfolded: when a compiled policy, which is one function,
    can still call another one. */
module Inlining {
  import opened Prelude
  import opened Syntax
  import opened Terms
  import opened Interpret
  import opened Specialize
  import opened Compile

  /** What partial evaluation may keep as it was written: iterations, `if match` and
      calls of external functions. */
  predicate Keeps(env: Env, tag: Tag) {
    match tag
    case Iter(_, _, _) => true
    case IfMatchExpr(_, _, _) => true
    case CallExpr(fn, _) => fn !in env.code && !env.isBuiltin(fn)
    case _ => false
  }

  /** No user function is called inside one of these. */
  predicate Direct(env: Env, e: Expr) {
    match e
    case Closure(_, b) => Direct(env, b)
    case Node(t, es) => DirectList(env, es) && (Keeps(env, t) ==> NoUserCallsList(es, env.code.Keys))
    case _ => true
  }

  predicate DirectList(env: Env, es: List<Expr>) {
    es.Cons? ==> Direct(env, es.head) && DirectList(env, es.tail)
  }

  ghost predicate DirectProgram(env: Env) { forall f :: f in env.code ==> Direct(env, env.code[f]) }

  predicate Gone(env: Env, e: Expr) { NoUserCalls(e, env.code.Keys) }

  predicate GoneList(env: Env, es: List<Expr>) { NoUserCallsList(es, env.code.Keys) }

  predicate GonePart(env: Env, r: Result<Part>) { r.Ok? ==> Gone(env, r.value.e) }

  // ----- what is kept -----

  lemma {:induction false} GoneIsDirect(env: Env, e: Expr)
    requires Gone(env, e)
    ensures Direct(env, e)
  {
    match e
    case Closure(_, b) => GoneIsDirect(env, b);
    case Node(_, es) => GoneIsDirectList(env, es);
    case _ =>
  }

  lemma {:induction false} GoneIsDirectList(env: Env, es: List<Expr>)
    requires GoneList(env, es)
    ensures DirectList(env, es)
  {
    if es.Cons? { GoneIsDirect(env, es.head); GoneIsDirectList(env, es.tail); }
  }

  lemma {:induction false} SubstDirect(env: Env, e: Expr, i: nat, u: Expr)
    requires Direct(env, e) && Gone(env, u)
    ensures Direct(env, Subst(e, i, u, true))
  {
    match e
    case BVar(_, j) => if j == i { ShiftNoUserCalls(u, i, 0, env.code.Keys); GoneIsDirect(env, Shift(u, i, 0)); }
    case Closure(_, b) => SubstDirect(env, b, i + 1, u);
    case Node(t, es) =>
      SubstDirectList(env, es, i, u);
      if Keeps(env, t) { SubstNoUserCallsList(es, i, u, true, env.code.Keys); }
    case _ =>
  }

  lemma {:induction false} SubstDirectList(env: Env, es: List<Expr>, i: nat, u: Expr)
    requires DirectList(env, es) && Gone(env, u)
    ensures DirectList(env, SubstList(es, i, u, true))
  {
    if es.Cons? { SubstDirect(env, es.head, i, u); SubstDirectList(env, es.tail, i, u); }
  }

  lemma {:induction false} AppliedDirect(env: Env, e: Expr, us: List<Expr>)
    requires Direct(env, e) && GoneList(env, us)
    ensures ApplyAll(e, us).Ok? ==> Direct(env, ApplyAll(e, us).value)
    decreases us
  {
    if us.Cons? && e.Closure? {
      SubstDirect(env, e.body, 0, us.head);
      AppliedDirect(env, Subst(e.body, 0, us.head, true), us.tail);
    }
  }

  lemma DirectParts(env: Env, es: List<Expr>)
    requires DirectList(env, es)
    ensures es.Cons? ==>
      Direct(env, es.head) && DirectList(env, es.tail) && Direct(env, Node(BlockExpr(StmtBlock), es.tail))
    ensures es.Cons? && es.tail.Cons? ==> Direct(env, es.tail.head) && DirectList(env, es.tail.tail)
    ensures es.Cons? && es.tail.Cons? && es.tail.tail.Cons? ==> Direct(env, es.tail.tail.head)
  {}

  lemma GoneParts(env: Env, es: List<Expr>)
    requires GoneList(env, es)
    ensures es.Cons? ==> Gone(env, es.head) && GoneList(env, es.tail)
    ensures es.Cons? && es.tail.Cons? ==> Gone(env, es.tail.head)
  {}

  /** Up to three sub-expressions make a node. */
  lemma GoneNode(env: Env, tag: Tag, a: Expr, b: Expr, c: Expr)
    requires Gone(env, a) && Gone(env, b) && Gone(env, c) && (tag.CallExpr? ==> tag.fn !in env.code)
    ensures GoneList(env, One(a)) && GoneList(env, Two(a, b)) && GoneList(env, Three(a, b, c))
    ensures Gone(env, Node(tag, One(a))) && Gone(env, Node(tag, Two(a, b))) && Gone(env, Node(tag, Three(a, b, c)))
  {
    assert GoneList(env, Nil);
    assert GoneList(env, One(c)) && GoneList(env, One(b)) && GoneList(env, One(a));
    assert GoneList(env, Two(b, c)) && GoneList(env, Two(a, b));
  }

  lemma {:induction false} GoneReturn(env: Env, es: List<Expr>)
    requires GoneList(env, es)
    ensures FirstReturn(es).Some? ==> Gone(env, FirstReturn(es).value)
  {
    if es.Cons? { GoneReturn(env, es.tail); }
  }

  lemma GoneLits(env: Env, us: List<Expr>)
    requires AllValues(us)
    ensures GoneList(env, us)
  {
    if us.Cons? { GoneValue(env, us.head); GoneLits(env, us.tail); }
  }

  lemma GoneValue(env: Env, v: Expr)
    requires IsValue(v)
    ensures Gone(env, v)
  {
    if v.Node? {
      GoneValue(env, v.subs.head);
      assert GoneList(env, v.subs.tail);
    }
  }

  // ----- nothing else is kept -----

  /** If every user call is outside what may be kept, no residual calls a user
      function. */
  lemma {:induction false} NoCallsLeft(env: Env, e: Expr, so: bool, fuel: nat)
    requires DirectProgram(env) && Direct(env, e)
    ensures GonePart(env, PEval(env, e, so, fuel))
    decreases fuel, 0, 0
  {
    if fuel > 0 {
      match e
      case Closure(_, b) => NoCallsLeft(env, b, so, fuel - 1);
      case Node(tag, es) => LeftNode(env, tag, es, so, fuel - 1);
      case _ =>
    }
  }

  lemma {:induction false} LeftList(env: Env, es: List<Expr>, so: bool, fuel: nat)
    requires DirectProgram(env) && DirectList(env, es)
    ensures var r := PEvalList(env, es, so, fuel); r.Ok? ==> GoneList(env, Residuals(r.value))
    decreases fuel, 1, es
  {
    if es.Cons? { NoCallsLeft(env, es.head, so, fuel); LeftList(env, es.tail, so, fuel); }
  }

  lemma {:induction false} LeftApplied(env: Env, e: Expr, us: List<Expr>, so: bool, fuel: nat)
    requires DirectProgram(env) && Direct(env, e) && GoneList(env, us)
    ensures GonePart(env, PEvalApplied(env, e, us, so, fuel))
    decreases fuel, 2, 0
  {
    AppliedDirect(env, e, us);
    if ApplyAll(e, us).Ok? { NoCallsLeft(env, ApplyAll(e, us).value, so, fuel); }
  }

  lemma {:induction false} LeftNode(env: Env, tag: Tag, es: List<Expr>, so: bool, fuel: nat)
    requires DirectProgram(env) && Direct(env, Node(tag, es))
    ensures GonePart(env, PEvalNode(env, tag, es, so, fuel))
    decreases fuel, 9, 0
  {
    DirectParts(env, es);
    match tag
    case ReturnExpr => if es.Cons? { LeftOne(env, tag, es, so, fuel); }
    case PrefixExpr(_) => if es.Cons? { LeftOne(env, tag, es, so, fuel); }
    case InfixExpr(op) => LeftInfix(env, op, es, so, fuel);
    case BlockExpr(kind) =>
      if kind == StmtBlock { LeftBlock(env, es, so, fuel); } else { LeftGroup(env, kind, es, so, fuel); }
    case Let(vs) => LeftLet(env, vs, es, so, fuel);
    case Iter(op, vs, n) => LeftIter(env, op, vs, n, es, so, fuel);
    case IfExpr => LeftIf(env, es, so, fuel);
    case IfSomeMatchExpr => LeftIfSome(env, es, so, fuel);
    case IfMatchExpr(vs, pats, hasAlt) => LeftIfMatch(env, vs, pats, hasAlt, es, so, fuel);
    case CallExpr(fn, isAsync) => LeftCall(env, fn, isAsync, es, so, fuel);
  }

  lemma {:induction false} LeftOne(env: Env, tag: Tag, es: List<Expr>, so: bool, fuel: nat)
    requires DirectProgram(env) && DirectList(env, es) && es.Cons? && (tag.ReturnExpr? || tag.PrefixExpr?)
    ensures GonePart(env, PEvalNode(env, tag, es, so, fuel))
    decreases fuel, 5, 0
  {
    NoCallsLeft(env, es.head, so, fuel);
    var r := PEval(env, es.head, so, fuel);
    if r.Ok? { GoneNode(env, tag, r.value.e, r.value.e, r.value.e); }
  }

  lemma {:induction false} LeftInfix(env: Env, op: Infix, es: List<Expr>, so: bool, fuel: nat)
    requires DirectProgram(env) && DirectList(env, es)
    ensures GonePart(env, PEvalInfix(env, op, es, so, fuel))
    decreases fuel, 5, 0
  {
    if es.Cons? && es.tail.Cons? {
      NoCallsLeft(env, es.head, so, fuel);
      NoCallsLeft(env, es.tail.head, so, fuel);
      var p, q := PEval(env, es.head, so, fuel), PEval(env, es.tail.head, so, fuel);
      if p.Ok? && q.Ok? {
        GoneNode(env, InfixExpr(op), p.value.e, q.value.e, q.value.e);
        Simplified(op, p.value, q.value);
        hide PEval, Simplify;
      }
    }
  }

  lemma Simplified(op: Infix, p: Part, q: Part)
    ensures Simplify(op, p, q).Ok? ==>
      var e := Simplify(op, p, q).value.e; e.Lit? || e == p.e || e == q.e || e == Node(InfixExpr(op), Two(p.e, q.e))
  {
    Ringed(OR_RING, op, p, q);
    Ringed(AND_RING, op, p, q);
    Ringed(INT_RING, op, p, q);
    Ringed(FLOAT_RING, op, p, q);
    hide RingSimplification;
  }

  lemma Ringed(ring: Ring, op: Infix, p: Part, q: Part)
    ensures var r := RingSimplification(ring, op, p, q); r.Some? ==> r.value == p || r.value == q
  {}

  lemma {:induction false} LeftBlock(env: Env, es: List<Expr>, so: bool, fuel: nat)
    requires DirectProgram(env) && DirectList(env, es)
    ensures GonePart(env, PEvalBlock(env, es, so, fuel))
    decreases fuel, 5, 0
  {
    if es.Cons? {
      DirectParts(env, es);
      NoCallsLeft(env, es.head, so, fuel);
      NoCallsLeft(env, Node(BlockExpr(StmtBlock), es.tail), so, fuel);
      NoCallsLeft(env, Node(BlockExpr(StmtBlock), es.tail), true, fuel);
      var p, q := PEval(env, es.head, so, fuel), PEval(env, Node(BlockExpr(StmtBlock), es.tail), true, fuel);
      if p.Ok? && q.Ok? { GoneNode(env, BlockExpr(StmtBlock), p.value.e, q.value.e, q.value.e); }
    }
  }

  lemma {:induction false} LeftGroup(env: Env, kind: BlockKind, es: List<Expr>, so: bool, fuel: nat)
    requires DirectProgram(env) && DirectList(env, es)
    ensures GonePart(env, PEvalGroup(env, kind, es, so, fuel))
    decreases fuel, 5, 0
  {
    LeftList(env, es, so, fuel);
    var r := PEvalList(env, es, so, fuel);
    if r.Ok? { GoneReturn(env, Residuals(r.value)); }
  }

  lemma {:induction false} LeftLet(env: Env, vs: seq<string>, es: List<Expr>, so: bool, fuel: nat)
    requires DirectProgram(env) && DirectList(env, es)
    ensures GonePart(env, PEvalLet(env, vs, es, so, fuel))
    decreases fuel, 5, 0
  {
    if es.Cons? && es.tail.Cons? {
      UnitsGone(env, |vs|);
      LeftApplied(env, es.tail.head, Units(|vs|), so, fuel);
      NoCallsLeft(env, es.head, so, fuel);
      NoCallsLeft(env, es.tail.head, so, fuel);
      var p, q := PEval(env, es.head, so, fuel), PEval(env, es.tail.head, so, fuel);
      if p.Ok? && q.Ok? { GoneNode(env, Let(vs), p.value.e, q.value.e, q.value.e); }
      if p.Ok? && p.value.e.Lit? && LetArgs(vs, p.value.e.lit).Some? {
        LetArgsGone(env, vs, p.value.e.lit);
        LeftApplied(env, es.tail.head, LetArgs(vs, p.value.e.lit).value, so, fuel);
      }
    }
  }

  lemma UnitsGone(env: Env, n: nat)
    ensures GoneList(env, Units(n))
  {}

  lemma LetArgsGone(env: Env, vs: seq<string>, l: Literal)
    ensures LetArgs(vs, l).Some? ==> GoneList(env, LetArgs(vs, l).value)
    ensures IterArgs(vs, l).Some? ==> GoneList(env, IterArgs(vs, l).value)
  {
    if l.TupleLit? && |vs| == |l.items| { BoundGone(env, vs, l.items); }
    if |vs| == 1 { BoundGone(env, vs, [l]); assert GoneList(env, Nil); }
  }

  lemma BoundGone(env: Env, vs: seq<string>, lits: seq<Literal>)
    requires |vs| == |lits|
    ensures GoneList(env, Bound(vs, lits))
  {
    BoundValues(vs, lits);
    GoneLits(env, Bound(vs, lits));
  }

  lemma {:induction false} LeftAlt(env: Env, alt: List<Expr>, so: bool, fuel: nat)
    requires DirectProgram(env) && DirectList(env, alt)
    ensures GonePart(env, PEvalAlt(env, alt, so, fuel))
    decreases fuel, 4, 0
  {
    if alt.Cons? { NoCallsLeft(env, alt.head, so, fuel); }
  }

  lemma {:induction false} LeftIf(env: Env, es: List<Expr>, so: bool, fuel: nat)
    requires DirectProgram(env) && DirectList(env, es)
    ensures GonePart(env, PEvalIf(env, es, so, fuel))
    decreases fuel, 5, 0
  {
    if es.Cons? && es.tail.Cons? {
      var alt := es.tail.tail;
      NoCallsLeft(env, es.head, so, fuel);
      NoCallsLeft(env, es.tail.head, so, fuel);
      LeftAlt(env, alt, so, fuel);
      var p, t := PEval(env, es.head, so, fuel), PEval(env, es.tail.head, so, fuel);
      if p.Ok? && t.Ok? {
        GoneNode(env, IfExpr, p.value.e, t.value.e, t.value.e);
        var a := PEvalAlt(env, alt, so, fuel);
        if a.Ok? { GoneNode(env, IfExpr, p.value.e, t.value.e, a.value.e); }
      }
    }
  }

  lemma {:induction false} LeftIfSome(env: Env, es: List<Expr>, so: bool, fuel: nat)
    requires DirectProgram(env) && DirectList(env, es)
    ensures GonePart(env, PEvalIfSome(env, es, so, fuel))
    decreases fuel, 5, 0
  {
    DirectParts(env, es);
    if es.Cons? && es.tail.Cons? {
      var body, alt := es.tail.head, es.tail.tail;
      NoCallsLeft(env, es.head, so, fuel);
      LeftAlt(env, alt, so, fuel);
      var p, a := PEval(env, es.head, so, fuel), PEvalAlt(env, alt, so, fuel);
      if p.Ok? && p.value.e.Lit? && p.value.e.lit.TupleLit? && |p.value.e.lit.items| == 1 {
        var u := Lit(p.value.e.lit.items[0]);
        GoneNode(env, IfExpr, u, u, u);
        LeftApplied(env, body, One(u), so, fuel);
      }
      if body.Closure? {
        assert Direct(env, body.body);
        NoCallsLeft(env, body.body, so, fuel);
        var t := PEval(env, body.body, so, fuel);
        if p.Ok? && t.Ok? {
          var c := Closure(body.id, t.value.e);
          GoneNode(env, IfSomeMatchExpr, p.value.e, c, if a.Ok? then a.value.e else c);
        }
      }
    }
  }

  lemma {:induction false} LeftMatches(env: Env, es: List<Expr>, pats: seq<Pattern>, so: bool, fuel: nat)
    requires DirectProgram(env) && DirectList(env, es)
    ensures var r := PEvalMatches(env, es, pats, so, fuel);
      r.Ok? && MatchedReturn(r.value.1).Some? ==> Gone(env, MatchedReturn(r.value.1).value)
    decreases fuel, 1, es
  {
    if es.Cons? {
      NoCallsLeft(env, es.head, so, fuel);
      if pats != [] { LeftMatches(env, es.tail, pats[1..], so, fuel); }
    }
  }

  lemma {:induction false} LeftIfMatch(env: Env, vs: seq<string>, pats: seq<Pattern>, hasAlt: bool, es: List<Expr>,
                                       so: bool, fuel: nat)
    requires DirectProgram(env) && DirectList(env, es) && GoneList(env, es)
    ensures GonePart(env, PEvalIfMatch(env, vs, pats, hasAlt, es, so, fuel))
    decreases fuel, 5, 0
  {
    if es.Cons? && (hasAlt ==> es.tail.Cons?) {
      DirectParts(env, es);
      var scruts := if hasAlt then es.tail.tail else es.tail;
      LeftMatches(env, scruts, pats, so, fuel);
      if hasAlt { NoCallsLeft(env, es.tail.head, so, fuel); }
      var r := PEvalMatches(env, scruts, pats, so, fuel);
      if r.Ok? && Captures(r.value.1).Some? {
        var us := CapturedArgs(vs, Captures(r.value.1).value);
        CapturedValues(vs, Captures(r.value.1).value);
        if us.Some? {
          GoneLits(env, us.value);
          LeftApplied(env, es.head, us.value, so, fuel);
        }
      }
    }
  }

  lemma {:induction false} LeftLoop(env: Env, vs: seq<string>, lits: seq<Literal>, body: Expr, acc: Option<Part>,
                                    so: bool, fuel: nat)
    requires DirectProgram(env) && Direct(env, body) && (acc.Some? ==> Gone(env, acc.value.e))
    ensures var r := PIterLoop(env, vs, lits, body, acc, so, fuel);
      r.Ok? ==> GoneList(env, Residuals(r.value.0)) && (r.value.1.Some? ==> Gone(env, r.value.1.value.e))
    decreases fuel, 3, |lits|
  {
    if lits != [] && IterArgs(vs, lits[0]).Some? {
      LetArgsGone(env, vs, lits[0]);
      var us := AccArgs(PartExpr(acc), IterArgs(vs, lits[0]).value);
      LeftApplied(env, body, us, so, fuel);
      var p := PEvalApplied(env, body, us, so, fuel);
      if p.Ok? { LeftLoop(env, vs, lits[1..], body, if acc.Some? then Some(p.value) else None, so, fuel); }
    }
  }

  lemma {:induction false} LeftIter(env: Env, op: IterOp, vs: seq<string>, n: Option<string>, es: List<Expr>, so: bool,
                                    fuel: nat)
    requires DirectProgram(env) && DirectList(env, es) && GoneList(env, es)
    ensures GonePart(env, PEvalIter(env, op, vs, n, es, so, fuel))
    decreases fuel, 5, 0
  {
    if IterShape(n, es) {
      DirectParts(env, es);
      GoneParts(env, es);
      NoCallsLeft(env, es.head, so, fuel);
      NoCallsLeft(env, es.tail.head, so, fuel);
      if n.Some? { NoCallsLeft(env, es.tail.tail.head, so, fuel); }
      var p, b, acc := PEval(env, es.head, so, fuel), PEval(env, es.tail.head, so, fuel),
        PEvalAcc(env, n, es, so, fuel);
      if p.Ok? && acc.Ok? {
        IterNodeGone(env, op, vs, n, p.value.e, es.tail.head, PartExpr(acc.value));
        if b.Ok? { IterNodeGone(env, op, vs, n, p.value.e, b.value.e, PartExpr(acc.value)); }
        if p.value.e.Lit? && p.value.e.lit.ListLit? {
          var lits := p.value.e.lit.items;
          LeftLoop(env, vs, lits, es.tail.head, acc.value, so, fuel);
          var r := PIterLoop(env, vs, lits, es.tail.head, acc.value, so, fuel);
          if r.Ok? { LeftResult(env, op, vs, n, lits, es.tail.head, r.value.0, r.value.1); }
        }
      }
    }
  }

  lemma IterNodeGone(env: Env, op: IterOp, vs: seq<string>, n: Option<string>, over: Expr, body: Expr,
                     acc: Option<Expr>)
    requires Gone(env, over) && Gone(env, body) && (acc.Some? ==> Gone(env, acc.value))
    ensures Gone(env, IterNode(op, vs, n, over, body, acc))
  {
    GoneNode(env, Iter(op, vs, n), over, body, if acc.Some? then acc.value else body);
  }

  lemma LeftResult(env: Env, op: IterOp, vs: seq<string>, n: Option<string>, lits: seq<Literal>, body: Expr,
                   ps: List<Part>, acc: Option<Part>)
    requires GoneList(env, Residuals(ps)) && Gone(env, body) && (acc.Some? ==> Gone(env, acc.value.e))
    ensures GonePart(env, PIterResult(op, vs, n, lits, body, ps, acc))
  {
    GoneReturn(env, Residuals(ps));
    IterNodeGone(env, op, vs, n, Lit(ListLit(lits)), body, PartExpr(acc));
  }

  lemma {:induction false} LeftCall(env: Env, fn: string, isAsync: bool, args: List<Expr>, so: bool, fuel: nat)
    requires DirectProgram(env) && Direct(env, Node(CallExpr(fn, isAsync), args))
    ensures GonePart(env, PEvalCall(env, fn, isAsync, args, so, fuel))
    decreases fuel, 5, 0
  {
    LeftList(env, args, so, fuel);
    var r := PEvalList(env, args, so, fuel);
    if r.Ok? {
      GoneReturn(env, Residuals(r.value));
      if fn in env.code {
        LeftApplied(env, env.code[fn], Residuals(r.value), so, fuel);
        InlinedGone(env, fn, r.value, so, fuel);
      }
    }
  }

  lemma InlinedGone(env: Env, fn: string, ps: List<Part>, so: bool, fuel: nat)
    requires fn in env.code && GonePart(env, PEvalApplied(env, env.code[fn], Residuals(ps), so, fuel))
    ensures GonePart(env, PEvalInline(env, fn, ps, so, fuel))
  {
    hide PEval;
    var r := PEvalApplied(env, env.code[fn], Residuals(ps), so, fuel);
    if r.Ok? && r.value.e.Node? { GoneParts(env, r.value.e.subs); }
  }

  // ----- what is compiled -----

  lemma {:induction false} FixedDirect(env: Env, e: Expr, i: nat, j: nat, l: Literal)
    requires Direct(env, e)
    ensures Direct(env, PropagateSubst(e, i, j, Lit(l))) && Direct(env, PSubst(e, i, Lit(l)))
    decreases e
  {
    if e.Closure? {
      FixedDirect(env, e.body, i, if j == 0 then 0 else j - 1, l);
    } else {
      SubstDirect(env, e, i, Lit(l));
    }
  }

  lemma {:induction false} UnderDirect(env: Env, e: Expr, n: nat)
    requires Direct(env, e)
    ensures AtDepth(e, n).Some? ==> Direct(env, AtDepth(e, n).value)
  {
    if e.Closure? && n > 0 { UnderDirect(env, e.body, n - 1); }
  }

  /** So the compiled function of such a program calls no user function. */
  lemma CompiledCallsNone(j: Job)
    requires j.fn in j.pol.env.code && DirectProgram(j.pol.env)
    ensures NoUserCalls(ResidualOf(j), j.pol.env.code.Keys)
  {
    var env, n := j.pol.env, 2 + |j.rest|;
    FixedDirect(env, env.code[j.fn], if j.egress then n - 1 else n - 2, if j.egress then 0 else 1, j.own);
    UnderDirect(env, PropagateSubst(env.code[j.fn], if j.egress then n - 1 else n - 2, if j.egress then 0 else 1,
                                    Lit(j.own)), n - 1);
    NoCallsLeft(env, PreparedBody(j), false, j.fuel);
    var r := PEval(env, PreparedBody(j), false, j.fuel);
    if r.Ok? && r.value.e.Node? { GoneParts(env, r.value.e.subs); }
  }
}
