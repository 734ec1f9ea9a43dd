/** One simulation argument behind four results about the interpreter: more
    call depth never changes a result, a closed expression may stand for its
    value, unreachable functions do not matter, and control-plane evaluation of
    data-plane code is data-plane evaluation. */
module Simulation {
  import opened Prelude
  import opened Syntax
  import opened Terms
  import opened TermLaws
  import opened Interpret
  import opened Scope

  /** Two environments that cannot be told apart by code that stays within
      `names` (and within data-plane literals, with `dp`). */
  datatype Sim = Sim(a: Env, b: Env, names: iset<string>, dp: bool)

  ghost predicate SameFunction(w: Sim, f: string) {
    && (f in w.a.code <==> f in w.b.code)
    && (f in w.a.code ==> w.a.code[f] == w.b.code[f] && Within(w.a.code[f], w.names, w.dp) && Closed(w.a.code[f], 0))
    && (f !in w.a.code ==> forall async, ls :: LitsOk(w.dp, ls) ==> SameForeign(w, f, async, ls))
  }

  ghost predicate SameForeign(w: Sim, f: string, async: bool, ls: seq<Literal>) {
    && ForeignCall(w.a, f, async, ls) == ForeignCall(w.b, f, async, ls)
    && (ForeignCall(w.a, f, async, ls).Ok? ==> Within(ForeignCall(w.a, f, async, ls).value, w.names, w.dp))
  }

  ghost predicate SameMatch(w: Sim, l: Literal, p: Pattern) {
    && w.a.matches(l, p) == w.b.matches(l, p)
    && (w.a.matches(l, p).Some? && w.a.matches(l, p).value.Some? ==> CapsOk(w.dp, w.a.matches(l, p).value.value))
  }

  predicate CapsOk(dp: bool, caps: map<string, Literal>) { forall v :: v in caps ==> LitOk(dp, caps[v]) }

  ghost predicate Agree(w: Sim) {
    && (forall f :: f in w.names ==> SameFunction(w, f))
    && (forall l, p :: LitOk(w.dp, l) ==> SameMatch(w, l, p))
  }

  /** Closed expressions and the values they evaluate to. */
  ghost predicate Related(w: Sim, s: seq<Expr>, t: seq<Expr>, m: nat) {
    && |s| == |t|
    && (forall i :: 0 <= i < |s| ==> IsValue(s[i]) && Within(s[i], w.names, w.dp) && Closed(t[i], 0)
                                     && Eval(w.b, t[i], m) == Ok(s[i]))
  }

  /** Equal results, unless the first ran out of call depth. */
  ghost predicate Same(w: Sim, r: Result<Expr>, r': Result<Expr>) {
    r != Err(TooDeep) ==> r' == r && (r.Ok? ==> Within(r.value, w.names, w.dp))
  }

  ghost predicate SameList(w: Sim, r: Result<List<Expr>>, r': Result<List<Expr>>) {
    r != Err(TooDeep) ==> r' == r && (r.Ok? ==> WithinList(r.value, w.names, w.dp))
  }

  lemma RelatedClosed(w: Sim, s: seq<Expr>, t: seq<Expr>, m: nat)
    requires Related(w, s, t, m)
    ensures AllClosed(s) && AllClosed(t)
  {
    forall i | 0 <= i < |s| ensures Closed(s[i], 0) { ValueClosed(s[i]); }
  }

  lemma RelatedCons(w: Sim, u: Expr, s: seq<Expr>, t: seq<Expr>, m: nat)
    requires Related(w, s, t, m) && IsValue(u) && Within(u, w.names, w.dp)
    ensures Related(w, [u] + s, [u] + t, m)
  {
    ValueClosed(u);
    EvalValue(w.b, u, m);
  }

  lemma EvalValue(env: Env, u: Expr, k: nat)
    requires IsValue(u)
    ensures Eval(env, u, k) == Ok(u)
  {}

  lemma InstShape(es: List<Expr>, s: seq<Expr>, t: seq<Expr>)
    ensures InstUnfolds(es, s) && InstUnfolds(es, t)
  {}

  ghost predicate InstUnfolds(es: List<Expr>, s: seq<Expr>) {
    var i := InstList(es, 0, s);
    && (es.Cons? <==> i.Cons?)
    && (es.Cons? ==>
      && i.head == Inst(es.head, 0, s) && i.tail == InstList(es.tail, 0, s)
      && (es.tail.Cons? <==> i.tail.Cons?)
      && (es.tail.Cons? ==>
        && i.tail.head == Inst(es.tail.head, 0, s) && i.tail.tail == InstList(es.tail.tail, 0, s)
        && (es.tail.tail.Cons? <==> i.tail.tail.Cons?)
        && (es.tail.tail.Cons? ==>
          && i.tail.tail.head == Inst(es.tail.tail.head, 0, s) && i.tail.tail.tail == InstList(es.tail.tail.tail, 0, s)
          && (es.tail.tail.tail.Cons? <==> i.tail.tail.tail.Cons?))))
  }

  // ----- the simulation, function by function -----

  lemma {:induction false} Simulate(w: Sim, e: Expr, s: seq<Expr>, t: seq<Expr>, k: nat, m: nat)
    requires Agree(w) && Related(w, s, t, m) && k <= m && Within(e, w.names, w.dp)
    ensures Same(w, Eval(w.a, Inst(e, 0, s), k), Eval(w.b, Inst(e, 0, t), m))
    decreases k, Size(Inst(e, 0, s)), e, 0
  {
    match e
    case BVar(_, j) => if j < |s| { EvalValue(w.a, s[j], k); }
    case Node(tag, es) =>
      if tag != ReturnExpr {
        SimNode(w, tag, es, s, t, k, m);
      } else {
        InstShape(es, s, t);
        if es.Cons? && es.tail.Nil? {
          ReturnSize(Inst(es.head, 0, s));
          assert Inst(e, 0, s) == ReturnOf(Inst(es.head, 0, s));
          Simulate(w, es.head, s, t, k, m);
        }
      }
    case _ =>
  }

  lemma {:induction false} SimNode(w: Sim, tag: Tag, es: List<Expr>, s: seq<Expr>, t: seq<Expr>, k: nat, m: nat)
    requires Agree(w) && Related(w, s, t, m) && k <= m && WithinList(es, w.names, w.dp)
    requires tag != ReturnExpr && (tag.CallExpr? ==> tag.fn in w.names)
    ensures Same(w, EvalNode(w.a, tag, InstList(es, 0, s), k), EvalNode(w.b, tag, InstList(es, 0, t), m))
    decreases k, SizeList(InstList(es, 0, s)), 9
  {
    match tag
    case PrefixExpr(p) => SimPrefix(w, p, es, s, t, k, m);
    case InfixExpr(op) => SimInfix(w, op, es, s, t, k, m);
    case BlockExpr(kind) =>
      if kind == StmtBlock {
        SimBlock(w, es, s, t, k, m);
      } else {
        SimGroup(w, kind, es, s, t, k, m);
      }
    case Let(vs) => SimLet(w, vs, es, s, t, k, m);
    case Iter(op, vs, n) => SimIterExpr(w, op, vs, n.Some?, es, s, t, k, m);
    case IfExpr => SimIf(w, es, s, t, k, m);
    case IfSomeMatchExpr => SimIfSome(w, es, s, t, k, m);
    case IfMatchExpr(vs, pats, hasAlt) => SimIfMatch(w, vs, pats, hasAlt, es, s, t, k, m);
    case CallExpr(fn, isAsync) => SimCallExpr(w, fn, isAsync, es, s, t, k, m);
  }

  lemma PrefixWithin(w: Sim, p: Prefix, v: Expr)
    requires IsValue(v) && Within(v, w.names, w.dp)
    ensures PrefixResult(p, v).Ok? ==> Within(PrefixResult(p, v).value, w.names, w.dp)
  {}

  lemma InfixWithin(w: Sim, op: Infix, v: Expr, u: Expr)
    requires IsValue(v) && Within(v, w.names, w.dp) && IsValue(u) && Within(u, w.names, w.dp)
    ensures InfixResult(op, v, u).Ok? ==> Within(InfixResult(op, v, u).value, w.names, w.dp)
  {}

  lemma ReturnWithin(rs: List<Expr>, names: iset<string>, dp: bool)
    requires WithinList(rs, names, dp)
    ensures FirstReturn(rs).Some? ==> Within(FirstReturn(rs).value, names, dp)
  {}

  lemma LiteralsWithin(rs: List<Expr>, names: iset<string>, dp: bool)
    requires WithinList(rs, names, dp)
    ensures Literals(rs).Some? ==> LitsOk(dp, Literals(rs).value)
  {}

  lemma BlockWithin(w: Sim, kind: BlockKind, rs: List<Expr>)
    requires WithinList(rs, w.names, w.dp)
    ensures BlockResult(kind, rs).Ok? ==> Within(BlockResult(kind, rs).value, w.names, w.dp)
  {
    ReturnWithin(rs, w.names, w.dp);
    LiteralsWithin(rs, w.names, w.dp);
  }

  lemma {:induction false} SimPrefix(w: Sim, p: Prefix, es: List<Expr>, s: seq<Expr>, t: seq<Expr>, k: nat, m: nat)
    requires Agree(w) && Related(w, s, t, m) && k <= m && WithinList(es, w.names, w.dp)
    ensures Same(w, EvalPrefixExpr(w.a, p, InstList(es, 0, s), k), EvalPrefixExpr(w.b, p, InstList(es, 0, t), m))
    decreases k, SizeList(InstList(es, 0, s)), 0
  {
    if es.Cons? && es.tail.Nil? {
      Simulate(w, es.head, s, t, k, m);
      var r := Eval(w.a, Inst(es.head, 0, s), k);
      if r.Ok? { PrefixWithin(w, p, r.value); }
    } else {
      InstShape(es, s, t);
    }
  }

  lemma {:induction false} SimInfix(w: Sim, op: Infix, es: List<Expr>, s: seq<Expr>, t: seq<Expr>, k: nat, m: nat)
    requires Agree(w) && Related(w, s, t, m) && k <= m && WithinList(es, w.names, w.dp)
    ensures Same(w, EvalInfixExpr(w.a, op, InstList(es, 0, s), k), EvalInfixExpr(w.b, op, InstList(es, 0, t), m))
    decreases k, SizeList(InstList(es, 0, s)), 1
  {
    InstShape(es, s, t);
    if es.Cons? && es.tail.Cons? && es.tail.tail.Nil? {
      ListSizes(InstList(es, 0, s));
      if op == And || op == Or {
        SimShort(w, op == Or, es.head, es.tail.head, s, t, k, m);
      } else {
        Simulate(w, es.head, s, t, k, m);
        Simulate(w, es.tail.head, s, t, k, m);
        var r, r' := Eval(w.a, Inst(es.head, 0, s), k), Eval(w.a, Inst(es.tail.head, 0, s), k);
        if r.Ok? && r'.Ok? { InfixWithin(w, op, r.value, r'.value); }
      }
    }
  }

  lemma {:induction false} SimShort(w: Sim, stop: bool, a: Expr, b: Expr, s: seq<Expr>, t: seq<Expr>, k: nat, m: nat)
    requires Agree(w) && Related(w, s, t, m) && k <= m && Within(a, w.names, w.dp) && Within(b, w.names, w.dp)
    ensures Same(w, EvalShort(w.a, stop, Inst(a, 0, s), Inst(b, 0, s), k),
                 EvalShort(w.b, stop, Inst(a, 0, t), Inst(b, 0, t), m))
    decreases k, Size(Inst(a, 0, s)) + Size(Inst(b, 0, s)), 2
  {
    Simulate(w, a, s, t, k, m);
    Simulate(w, b, s, t, k, m);
  }

  lemma {:induction false} SimGroup(w: Sim, kind: BlockKind, es: List<Expr>, s: seq<Expr>, t: seq<Expr>, k: nat, m: nat)
    requires Agree(w) && Related(w, s, t, m) && k <= m && WithinList(es, w.names, w.dp)
    ensures Same(w, EvalGroup(w.a, kind, InstList(es, 0, s), k), EvalGroup(w.b, kind, InstList(es, 0, t), m))
    decreases k, SizeList(InstList(es, 0, s)), 1
  {
    SimList(w, es, s, t, k, m);
    var r := EvalList(w.a, InstList(es, 0, s), k);
    if r.Ok? { BlockWithin(w, kind, r.value); }
  }

  lemma {:induction false} SimCallExpr(w: Sim, fn: string, isAsync: bool, es: List<Expr>, s: seq<Expr>, t: seq<Expr>,
                                       k: nat, m: nat)
    requires Agree(w) && Related(w, s, t, m) && k <= m && WithinList(es, w.names, w.dp) && fn in w.names
    ensures Same(w, EvalCallExpr(w.a, fn, isAsync, InstList(es, 0, s), k),
                 EvalCallExpr(w.b, fn, isAsync, InstList(es, 0, t), m))
    decreases k, SizeList(InstList(es, 0, s)), 1
  {
    SimList(w, es, s, t, k, m);
    var r := EvalList(w.a, InstList(es, 0, s), k);
    if r.Ok? { SimCall(w, fn, isAsync, r.value, k, m); }
  }

  lemma {:induction false} SimBlock(w: Sim, es: List<Expr>, s: seq<Expr>, t: seq<Expr>, k: nat, m: nat)
    requires Agree(w) && Related(w, s, t, m) && k <= m && WithinList(es, w.names, w.dp)
    ensures Same(w, EvalBlock(w.a, InstList(es, 0, s), k), EvalBlock(w.b, InstList(es, 0, t), m))
    decreases k, SizeList(InstList(es, 0, s)), 0
  {
    if es.Cons? {
      Simulate(w, es.head, s, t, k, m);
      SimBlock(w, es.tail, s, t, k, m);
    }
  }

  lemma {:induction false} SimList(w: Sim, es: List<Expr>, s: seq<Expr>, t: seq<Expr>, k: nat, m: nat)
    requires Agree(w) && Related(w, s, t, m) && k <= m && WithinList(es, w.names, w.dp)
    ensures SameList(w, EvalList(w.a, InstList(es, 0, s), k), EvalList(w.b, InstList(es, 0, t), m))
    decreases k, SizeList(InstList(es, 0, s)), 0
  {
    if es.Cons? {
      Simulate(w, es.head, s, t, k, m);
      SimList(w, es.tail, s, t, k, m);
    }
  }

  lemma {:induction false} SimAlt(w: Sim, es: List<Expr>, s: seq<Expr>, t: seq<Expr>, k: nat, m: nat)
    requires Agree(w) && Related(w, s, t, m) && k <= m && WithinList(es, w.names, w.dp)
    ensures Same(w, EvalAlt(w.a, InstList(es, 0, s), k), EvalAlt(w.b, InstList(es, 0, t), m))
    decreases k, SizeList(InstList(es, 0, s)), 0
  {
    if es.Cons? { Simulate(w, es.head, s, t, k, m); }
  }

  /** Opening one closure at a time turns application into instantiation. */
  lemma {:induction false} SimApplied(w: Sim, e: Expr, us: List<Expr>, s: seq<Expr>, t: seq<Expr>, k: nat, m: nat)
    requires Agree(w) && Related(w, s, t, m) && k <= m && Within(e, w.names, w.dp)
    requires AllValues(us) && WithinList(us, w.names, w.dp)
    ensures Same(w, EvalApplied(w.a, Inst(e, 0, s), Some(us), k), EvalApplied(w.b, Inst(e, 0, t), Some(us), m))
    decreases k, Size(Inst(e, 0, s)) + 1, 2, us
  {
    match us
    case Nil => Simulate(w, e, s, t, k, m);
    case Cons(u, rest) =>
      RelatedClosed(w, s, t, m);
      if e.Closure? {
        ValueClosed(u);
        SubstInst(e.body, 0, u, s);
        SubstInst(e.body, 0, u, t);
        SizeSubst(Inst(e.body, 1, s), 0, u, true);
        RelatedCons(w, u, s, t, m);
        SimApplied(w, e.body, rest, [u] + s, [u] + t, k, m);
      } else {
        // a variable stands for a value on one side, for an expression that has a value on the other
        assert !Inst(e, 0, s).Closure? && !Inst(e, 0, t).Closure?;
      }
  }

  lemma LetArgsWithin(w: Sim, vs: seq<string>, l: Literal)
    requires LitOk(w.dp, l)
    ensures LetArgs(vs, l).Some? ==> AllValues(LetArgs(vs, l).value) && WithinList(LetArgs(vs, l).value, w.names, w.dp)
  {
    if l.TupleLit? && |vs| == |l.items| { BoundWithin(w, vs, l.items); }
  }

  lemma IterArgsWithin(w: Sim, vs: seq<string>, l: Literal)
    requires LitOk(w.dp, l)
    ensures IterArgs(vs, l).Some?
        ==> AllValues(IterArgs(vs, l).value) && WithinList(IterArgs(vs, l).value, w.names, w.dp)
  {
    if l.TupleLit? && |vs| == |l.items| { BoundWithin(w, vs, l.items); }
    if |vs| == 1 { BoundWithin(w, vs, [l]); }
  }

  lemma BoundWithin(w: Sim, vs: seq<string>, lits: seq<Literal>)
    requires |vs| == |lits| && LitsOk(w.dp, lits)
    ensures AllValues(Bound(vs, lits)) && WithinList(Bound(vs, lits), w.names, w.dp)
  {}

  lemma {:induction false} SimLet(w: Sim, vs: seq<string>, es: List<Expr>, s: seq<Expr>, t: seq<Expr>, k: nat, m: nat)
    requires Agree(w) && Related(w, s, t, m) && k <= m && WithinList(es, w.names, w.dp)
    ensures Same(w, EvalLet(w.a, vs, InstList(es, 0, s), k), EvalLet(w.b, vs, InstList(es, 0, t), m))
    decreases k, SizeList(InstList(es, 0, s)), 0
  {
    InstShape(es, s, t);
    if es.Cons? && es.tail.Cons? && es.tail.tail.Nil? {
      ListSizes(InstList(es, 0, s));
      Simulate(w, es.head, s, t, k, m);
      var r := Eval(w.a, Inst(es.head, 0, s), k);
      if r.Ok? && !IsReturn(r.value) {
        LetArgsWithin(w, vs, r.value.lit);
        var us := LetArgs(vs, r.value.lit);
        if us.Some? { SimApplied(w, es.tail.head, us.value, s, t, k, m); }
      }
    }
  }

  lemma {:induction false} SimIf(w: Sim, es: List<Expr>, s: seq<Expr>, t: seq<Expr>, k: nat, m: nat)
    requires Agree(w) && Related(w, s, t, m) && k <= m && WithinList(es, w.names, w.dp)
    ensures Same(w, EvalIf(w.a, InstList(es, 0, s), k), EvalIf(w.b, InstList(es, 0, t), m))
    decreases k, SizeList(InstList(es, 0, s)), 0
  {
    InstShape(es, s, t);
    if es.Cons? && es.tail.Cons? {
      ListSizes(InstList(es, 0, s));
      Simulate(w, es.head, s, t, k, m);
      Simulate(w, es.tail.head, s, t, k, m);
      SimAlt(w, es.tail.tail, s, t, k, m);
    }
  }

  lemma {:induction false} SimIfSome(w: Sim, es: List<Expr>, s: seq<Expr>, t: seq<Expr>, k: nat, m: nat)
    requires Agree(w) && Related(w, s, t, m) && k <= m && WithinList(es, w.names, w.dp)
    ensures Same(w, EvalIfSome(w.a, InstList(es, 0, s), k), EvalIfSome(w.b, InstList(es, 0, t), m))
    decreases k, SizeList(InstList(es, 0, s)), 0
  {
    InstShape(es, s, t);
    if es.Cons? && es.tail.Cons? {
      ListSizes(InstList(es, 0, s));
      Simulate(w, es.head, s, t, k, m);
      SimAlt(w, es.tail.tail, s, t, k, m);
      var r := Eval(w.a, Inst(es.head, 0, s), k);
      if r.Ok? && r.value.Lit? && r.value.lit.TupleLit? && |r.value.lit.items| == 1 {
        SimApplied(w, es.tail.head, One(Lit(r.value.lit.items[0])), s, t, k, m);
      }
    }
  }

  lemma {:induction false} SimIterExpr(w: Sim, op: IterOp, vs: seq<string>, hasAcc: bool, es: List<Expr>,
                                       s: seq<Expr>, t: seq<Expr>, k: nat, m: nat)
    requires Agree(w) && Related(w, s, t, m) && k <= m && WithinList(es, w.names, w.dp)
    ensures Same(w, EvalIterExpr(w.a, op, vs, hasAcc, InstList(es, 0, s), k),
                 EvalIterExpr(w.b, op, vs, hasAcc, InstList(es, 0, t), m))
    decreases k, SizeList(InstList(es, 0, s)), 0
  {
    hide EvalIter, EvalInfix;
    InstShape(es, s, t);
    if es.Cons? && es.tail.Cons? {
      ListSizes(InstList(es, 0, s));
      Simulate(w, es.head, s, t, k, m);
      var r := Eval(w.a, Inst(es.head, 0, s), k);
      if r.Ok? && r.value.Lit? && r.value.lit.ListLit? {
        var lits := r.value.lit.items;
        if !hasAcc {
          if es.tail.tail.Nil? { SimIter(w, op, vs, lits, es.tail.head, None, s, t, k, m); }
        } else if es.tail.tail.Cons? && es.tail.tail.tail.Nil? {
          assert WithinList(es.tail.tail, w.names, w.dp);
          Simulate(w, es.tail.tail.head, s, t, k, m);
          var a := Eval(w.a, Inst(es.tail.tail.head, 0, s), k);
          if a.Ok? { SimIter(w, op, vs, lits, es.tail.head, Some(a.value), s, t, k, m); }
        }
      }
    }
  }

  lemma {:induction false} SimIter(w: Sim, op: IterOp, vs: seq<string>, lits: seq<Literal>, e: Expr, acc: Option<Expr>,
                                   s: seq<Expr>, t: seq<Expr>, k: nat, m: nat)
    requires Agree(w) && Related(w, s, t, m) && k <= m && Within(e, w.names, w.dp) && LitsOk(w.dp, lits)
    requires acc.Some? ==> IsValue(acc.value) && Within(acc.value, w.names, w.dp)
    ensures Same(w, EvalIter(w.a, op, vs, lits, Inst(e, 0, s), acc, k),
                 EvalIter(w.b, op, vs, lits, Inst(e, 0, t), acc, m))
    decreases k, Size(Inst(e, 0, s)) + 1, 9, 1
  {
    SimLoop(w, vs, lits, e, acc, s, t, k, m);
    var r := IterLoop(w.a, vs, lits, Inst(e, 0, s), acc, k);
    if r.Ok? { IterResultWithin(w, op, lits, r.value.0, r.value.1); }
  }

  ghost predicate SameLoop(w: Sim, r: Result<(List<Expr>, Option<Expr>)>, r': Result<(List<Expr>, Option<Expr>)>) {
    r != Err(TooDeep) ==>
      && r' == r
      && (r.Ok? ==> WithinList(r.value.0, w.names, w.dp))
      && (r.Ok? && r.value.1.Some? ==> Within(r.value.1.value, w.names, w.dp))
  }

  lemma {:induction false} SimLoop(w: Sim, vs: seq<string>, lits: seq<Literal>, e: Expr, acc: Option<Expr>,
                                   s: seq<Expr>, t: seq<Expr>, k: nat, m: nat)
    requires Agree(w) && Related(w, s, t, m) && k <= m && Within(e, w.names, w.dp) && LitsOk(w.dp, lits)
    requires acc.Some? ==> IsValue(acc.value) && Within(acc.value, w.names, w.dp)
    ensures SameLoop(w, IterLoop(w.a, vs, lits, Inst(e, 0, s), acc, k), IterLoop(w.b, vs, lits, Inst(e, 0, t), acc, m))
    decreases k, Size(Inst(e, 0, s)) + 1, 9, 0, |lits|
  {
    if lits != [] {
      IterArgsWithin(w, vs, lits[0]);
      var us := IterArgs(vs, lits[0]);
      if us.Some? {
        SimApplied(w, e, AccArgs(acc, us.value), s, t, k, m);
        var r := EvalApplied(w.a, Inst(e, 0, s), Some(AccArgs(acc, us.value)), k);
        if r.Ok? {
          SimLoop(w, vs, lits[1..], e, if acc.Some? then Some(r.value) else None, s, t, k, m);
        }
      }
    }
  }

  lemma KeptOk(dp: bool, lits: seq<Literal>, tests: seq<Literal>)
    requires LitsOk(dp, lits)
    ensures Kept(lits, tests).Some? ==> LitsOk(dp, Kept(lits, tests).value)
  {}

  lemma SomeItemsOk(dp: bool, ls: seq<Literal>)
    requires LitsOk(dp, ls)
    ensures LitsOk(dp, SomeItems(ls))
  {}

  lemma IterResultWithin(w: Sim, op: IterOp, lits: seq<Literal>, rs: List<Expr>, acc: Option<Expr>)
    requires WithinList(rs, w.names, w.dp) && LitsOk(w.dp, lits)
    requires acc.Some? ==> Within(acc.value, w.names, w.dp)
    ensures IterResult(op, lits, rs, acc).Ok? ==> Within(IterResult(op, lits, rs, acc).value, w.names, w.dp)
  {
    ReturnWithin(rs, w.names, w.dp);
    LiteralsWithin(rs, w.names, w.dp);
    if Literals(rs).Some? {
      KeptOk(w.dp, lits, Literals(rs).value);
      SomeItemsOk(w.dp, Literals(rs).value);
    }
  }

  ghost predicate MatchesWithin(w: Sim, ms: List<Matched>) {
    ms.Cons? ==>
      && Within(ms.head.value, w.names, w.dp)
      && (ms.head.captures.Some? ==> CapsOk(w.dp, ms.head.captures.value))
      && MatchesWithin(w, ms.tail)
  }

  lemma {:induction false} SimMatches(w: Sim, es: List<Expr>, pats: seq<Pattern>, s: seq<Expr>, t: seq<Expr>, k: nat,
                                      m: nat)
    requires Agree(w) && Related(w, s, t, m) && k <= m && WithinList(es, w.names, w.dp)
    ensures var r := EvalMatches(w.a, InstList(es, 0, s), pats, k);
      r != Err(TooDeep) ==> EvalMatches(w.b, InstList(es, 0, t), pats, m) == r && (r.Ok? ==> MatchesWithin(w, r.value))
    decreases k, SizeList(InstList(es, 0, s)), 0
  {
    if es.Cons? {
      Simulate(w, es.head, s, t, k, m);
      var r := Eval(w.a, Inst(es.head, 0, s), k);
      if r.Ok? && pats != [] {
        if r.value.Lit? { assert SameMatch(w, r.value.lit, pats[0]); }
        SimMatches(w, es.tail, pats[1..], s, t, k, m);
      }
    }
  }

  lemma CapturesOk(w: Sim, ms: List<Matched>)
    requires MatchesWithin(w, ms)
    ensures Captures(ms).Some? ==> CapsOk(w.dp, Captures(ms).value)
    ensures MatchedReturn(ms).Some? ==> Within(MatchedReturn(ms).value, w.names, w.dp)
  {}

  lemma CapturedArgsWithin(w: Sim, vs: seq<string>, caps: map<string, Literal>)
    requires CapsOk(w.dp, caps)
    ensures var us := CapturedArgs(vs, caps);
      us.Some? ==> AllValues(us.value) && WithinList(us.value, w.names, w.dp)
  {}

  lemma {:induction false} SimIfMatch(w: Sim, vs: seq<string>, pats: seq<Pattern>, hasAlt: bool, es: List<Expr>,
                                      s: seq<Expr>, t: seq<Expr>, k: nat, m: nat)
    requires Agree(w) && Related(w, s, t, m) && k <= m && WithinList(es, w.names, w.dp)
    ensures Same(w, EvalIfMatch(w.a, vs, pats, hasAlt, InstList(es, 0, s), k),
                 EvalIfMatch(w.b, vs, pats, hasAlt, InstList(es, 0, t), m))
    decreases k, SizeList(InstList(es, 0, s)), 8
  {
    InstShape(es, s, t);
    if es.Cons? && (hasAlt ==> es.tail.Cons?) {
      ListSizes(InstList(es, 0, s));
      var scruts := if hasAlt then es.tail.tail else es.tail;
      SimMatches(w, scruts, pats, s, t, k, m);
      var r := EvalMatches(w.a, InstList(scruts, 0, s), pats, k);
      if hasAlt { Simulate(w, es.tail.head, s, t, k, m); }
      if r.Ok? {
        CapturesOk(w, r.value);
        if Captures(r.value).Some? {
          CapturedArgsWithin(w, vs, Captures(r.value).value);
          var us := CapturedArgs(vs, Captures(r.value).value);
          if us.Some? { SimApplied(w, es.head, us.value, s, t, k, m); }
        }
      }
    }
  }

  lemma ApplyAllWithin(w: Sim, e: Expr, us: List<Expr>)
    requires Within(e, w.names, w.dp) && Closed(e, 0)
    requires AllValues(us) && WithinList(us, w.names, w.dp)
    ensures ApplyAll(e, us).Ok? ==> Within(ApplyAll(e, us).value, w.names, w.dp) && Closed(ApplyAll(e, us).value, 0)
    decreases us
  {
    if us.Cons? && e.Closure? {
      ValueClosed(us.head);
      ClosedSubst(e.body, 0, 0, us.head);
      SubstWithin(e.body, 0, us.head, w.names, w.dp);
      ApplyAllWithin(w, Subst(e.body, 0, us.head, true), us.tail);
    }
  }

  lemma StripWithin(v: Expr, names: iset<string>, dp: bool)
    requires Within(v, names, dp)
    ensures Within(StripReturn(v), names, dp)
  {
    if v.Node? && v.subs.Cons? { assert WithinList(v.subs, names, dp); }
  }

  lemma {:induction false} SimBody(w: Sim, e: Expr, k: nat, m: nat)
    requires Agree(w) && k <= m && Within(e, w.names, w.dp) && Closed(e, 0)
    ensures Same(w, Eval(w.a, e, k), Eval(w.b, e, m))
    decreases k, Size(e), e, 1
  {
    InstClosed(e, 0, []);
    Simulate(w, e, [], [], k, m);
  }

  lemma {:induction false} SimCall(w: Sim, fn: string, isAsync: bool, args: List<Expr>, k: nat, m: nat)
    requires Agree(w) && k <= m && AllValues(args) && WithinList(args, w.names, w.dp) && fn in w.names
    ensures Same(w, EvalCall(w.a, fn, isAsync, args, k), EvalCall(w.b, fn, isAsync, args, m))
    decreases k, 0, 0
  {
    assert SameFunction(w, fn);
    ReturnWithin(args, w.names, w.dp);
    if FirstReturn(args).None? {
      if fn in w.a.code {
        var body := ApplyAll(w.a.code[fn], args);
        assert body == ApplyAll(w.b.code[fn], args);
        if body.Ok? && k > 0 {
          ApplyAllWithin(w, w.a.code[fn], args);
          SimBody(w, body.value, k - 1, m - 1);
          var r := Eval(w.a, body.value, k - 1);
          if r.Ok? { StripWithin(r.value, w.names, w.dp); }
        }
      } else {
        LiteralsWithin(args, w.names, w.dp);
        if Literals(args).Some? {
          assert SameForeign(w, fn, isAsync, Literals(args).value);
        }
      }
    }
  }

  // ----- consequences -----

  ghost predicate ClosedEnv(env: Env) { forall f :: f in env.code ==> Closed(env.code[f], 0) }

  predicate AnyName(f: string) { true }

  ghost function Itself(env: Env): Sim { Sim(env, env, iset f: string | AnyName(f), false) }

  lemma ItselfAgrees(env: Env)
    requires ClosedEnv(env)
    ensures Agree(Itself(env))
  {
    var w := Itself(env);
    forall f | f in env.code ensures Within(env.code[f], w.names, false) { WithinAll(env.code[f], w.names); }
  }

  /** Closed expressions may stand for the values they evaluate to, and a larger
      bound on nested calls changes no result. */
  lemma ValueFor(env: Env, e: Expr, s: seq<Expr>, t: seq<Expr>, k: nat, m: nat)
    requires ClosedEnv(env) && k <= m && |s| == |t|
    requires forall i :: 0 <= i < |s| ==> IsValue(s[i]) && Closed(t[i], 0) && Eval(env, t[i], m) == Ok(s[i])
    ensures var r := Eval(env, Inst(e, 0, s), k); r != Err(TooDeep) ==> Eval(env, Inst(e, 0, t), m) == r
  {
    var w := Itself(env);
    ItselfAgrees(env);
    WithinAll(e, w.names);
    forall i | 0 <= i < |s| ensures Within(s[i], w.names, false) { WithinAll(s[i], w.names); }
    Simulate(w, e, s, t, k, m);
  }
}
