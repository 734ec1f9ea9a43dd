/** Exactly when the rules of the specializer that do not always preserve meaning
    do (module Failures has a program for each guard of `Safe`). */
module Unsound {
  import opened Prelude
  import opened Syntax
  import opened Terms
  import opened TermLaws
  import opened TermProps
  import opened Interpret
  import opened Simulation
  import opened Shapes
  import opened Specialize
  import opened Safety
  import opened Scope
  import opened Residual
  import opened Soundness
  import opened Compile
  import opened Elaborate
  import opened Steps

  // ----- algebraic simplification (specialize.rs:101-153) -----

  /** An operand about which everything or nothing is known. */
  predicate Atom(p: Part) { if p.known then p.e.Lit? else p.e.BVar? }

  predicate Comparable(p: Part) { p.e.Lit? ==> p.e.lit.Flat? }

  /** When the simplified form can be trusted: not `x != y` on two operands that
      could be the same flat value, not `0 - y`, not `1 / y`. */
  predicate RuleExact(op: Infix, p: Part, q: Part) {
    && !(op == NotEqual && p.e != q.e && Comparable(p) && Comparable(q))
    && !(op == Minus && p.e == Lit(Flat(Int(0))))
    && !(op == Divide && p.e == Lit(Flat(Int(1))))
  }

  /** For every value of the variables, when the operation has a value so has its
      simplified form. */
  ghost predicate Faithful(env: Env, op: Infix, p: Part, q: Part) {
    forall s: seq<Expr>, v :: (forall i :: 0 <= i < |s| ==> s[i].Lit?) ==> FaithfulOn(Run(env, env, s, 0), op, p, q, v)
  }

  ghost predicate FaithfulOn(c: Run, op: Infix, p: Part, q: Part, v: Expr) {
    Eval1(c, Node(InfixExpr(op), Two(p.e, q.e))) == Ok(v) && Simplify(op, p, q).Ok? ==>
      Eval1(c, Simplify(op, p, q).value.e) == Ok(v)
  }

  lemma AtomValue(c: Run, p: Part)
    requires Atom(p)
    ensures var r := Eval1(c, p.e);
      if p.e.Lit? then r == Ok(p.e) else if p.e.idx < |c.s| && c.s[p.e.idx].Lit? then r == Ok(c.s[p.e.idx]) else true
    ensures (forall i :: 0 <= i < |c.s| ==> c.s[i].Lit?) ==> Eval1(c, p.e).Ok? ==> Eval1(c, p.e).value.Lit?
  {}

  /** Simplifying `op` on two operands that are not both known is right for all
      values of the variables exactly under `RuleExact`. */
  lemma SimplifyExactly(env: Env, op: Infix, p: Part, q: Part)
    requires Atom(p) && Atom(q) && !(p.known && q.known) && ClosedEnv(env)
    ensures Faithful(env, op, p, q) <==> RuleExact(op, p, q)
  {
    hide Simplify, EvalInfix, Combined;
    if RuleExact(op, p, q) {
      forall s: seq<Expr>, v | forall i :: 0 <= i < |s| ==> s[i].Lit?
        ensures FaithfulOn(Run(env, env, s, 0), op, p, q, v)
      {
        if Eval1(Run(env, env, s, 0), Node(InfixExpr(op), Two(p.e, q.e))) == Ok(v) && Simplify(op, p, q).Ok? {
          ExactIsFaithful(Run(env, env, s, 0), op, p, q, v);
        }
      }
    } else {
      NotExact(env, op, p, q);
    }
  }

  lemma ExactIsFaithful(c: Run, op: Infix, p: Part, q: Part, v: Expr)
    requires Ready(c) && Atom(p) && Atom(q) && !(p.known && q.known) && RuleExact(op, p, q)
    requires Eval1(c, Node(InfixExpr(op), Two(p.e, q.e))) == Ok(v) && Simplify(op, p, q).Ok?
    ensures Eval1(c, Simplify(op, p, q).value.e) == Ok(v)
  {
    hide Simplify, EvalInfix, Combined, Inst, Eval;
    InfixNode(c, op, p.e, q.e);
    InfixRuns(c.env, op, Two(Inst(p.e, 0, c.s), Inst(q.e, 0, c.s)), c.k, v);
    AtomValue(c, p);
    AtomValue(c, q);
    var v1 := Eval1(c, p.e).value;
    if op == And || op == Or {
      ShortCase(c, op, p, q, v1, v);
    } else {
      var v2 := Eval1(c, q.e).value;
      if op == NotEqual && p.e != q.e { NeverCompared(v1, v2); }
      SimplifySound(c, op, p, q, v1, v2, v);
    }
  }

  lemma ShortCase(c: Run, op: Infix, p: Part, q: Part, v1: Expr, v: Expr)
    requires (op == And || op == Or) && Atom(p) && Atom(q) && !(p.known && q.known) && Simplify(op, p, q).Ok?
    requires Ready(c) && Eval1(c, p.e) == Ok(v1) && v1.Lit?
    requires EvalShort(c.env, op == Or, Inst(p.e, 0, c.s), Inst(q.e, 0, c.s), c.k) == Ok(v)
    ensures Eval1(c, Simplify(op, p, q).value.e) == Ok(v)
  {
    hide Simplify;
    AtomValue(c, p);
    AtomValue(c, q);
    ShortSound(c, op, p, q, v1, v);
  }

  /** Lists and tuples have no inequality. */
  lemma NeverCompared(v1: Expr, v2: Expr)
    requires v1.Lit? && v2.Lit? && InfixResult(NotEqual, v1, v2).Ok?
    ensures v1.lit.Flat? && v2.lit.Flat?
  {}

  function Copies(n: nat, e: Expr): (s: seq<Expr>)
    ensures |s| == n && forall i :: 0 <= i < n ==> s[i] == e
  {
    seq(n, _ => e)
  }

  /** The values that tell: equal ones, `0 - 1` and `1 / 2`. */
  function Telling(op: Infix, p: Part, q: Part): Literal {
    if op == Minus then Flat(Int(1)) else if op == Divide then Flat(Int(2))
    else if p.e.Lit? then p.e.lit else if q.e.Lit? then q.e.lit else UNIT
  }

  lemma NotExact(env: Env, op: Infix, p: Part, q: Part)
    requires Atom(p) && Atom(q) && !(p.known && q.known) && !RuleExact(op, p, q)
    ensures !Faithful(env, op, p, q)
  {
    hide Simplify, EvalInfix, InfixResult, Inst, Eval;
    var n := (if p.e.BVar? then p.e.idx + 1 else 0) + (if q.e.BVar? then q.e.idx + 1 else 0);
    var l := Lit(Telling(op, p, q));
    var c := Run(env, env, Copies(n, l), 0);
    AtomValue(c, p);
    AtomValue(c, q);
    InfixNode(c, op, p.e, q.e);
    var x, y := if p.known then p.e else l, if q.known then q.e else l;
    InfixGives(env, op, Inst(p.e, 0, c.s), Inst(q.e, 0, c.s), 0, x, y);
    ToldValue(op, p, q);
    ToldSimplified(op, p, q);
    AtomValue(c, Part(true, Lit(BoolLit(true))));
    assert !FaithfulOn(c, op, p, q, InfixResult(op, x, y).value);
  }

  /** What the operation gives on the telling values. */
  lemma ToldValue(op: Infix, p: Part, q: Part)
    requires Atom(p) && Atom(q) && !(p.known && q.known) && !RuleExact(op, p, q)
    ensures var l := Lit(Telling(op, p, q));
      InfixResult(op, if p.known then p.e else l, if q.known then q.e else l)
      == Ok(Lit(if op == NotEqual then BoolLit(false) else if op == Minus then Flat(Int(-1)) else Flat(Int(0))))
  {}

  lemma ToldSimplified(op: Infix, p: Part, q: Part)
    requires Atom(p) && Atom(q) && !(p.known && q.known) && !RuleExact(op, p, q)
    ensures Simplify(op, p, q).Ok?
    ensures Simplify(op, p, q).value.e == if op == NotEqual then Lit(BoolLit(true)) else q.e
  {}

  /** Where simplification gives up there is nothing to evaluate to: a quotient by
      zero has no value, unless its left operand returns. */
  lemma RejectedHasNoValue(c: Run, op: Infix, p: Part, q: Part, v: Expr)
    requires Simplify(op, p, q).Err? && Eval1(c, Node(InfixExpr(op), Two(p.e, q.e))) == Ok(v)
    ensures IsReturn(v)
  {
    hide Combined;
    InfixNode(c, op, p.e, q.e);
    InfixRuns(c.env, op, Two(Inst(p.e, 0, c.s), Inst(q.e, 0, c.s)), c.k, v);
  }

  // ----- iteration over a known list (specialize.rs:399-406) -----

  /** The results for which collecting none of them makes no difference. */
  predicate Harmless(op: IterOp, lits: seq<Literal>, rs: seq<Literal>) {
    match op
    case Map => rs == []
    case Filter => forall i :: 0 <= i < |rs| && i < |lits| ==> rs[i] == BoolLit(false)
    case FilterMap => forall i :: 0 <= i < |rs| ==> !(rs[i].TupleLit? && |rs[i].items| == 1)
    case All => forall i :: 0 <= i < |rs| ==> rs[i] == BoolLit(true)
    case Any => forall i :: 0 <= i < |rs| ==> rs[i] == BoolLit(false)
    case ForEach => true
    case Fold => true
  }

  lemma KeptNone(lits: seq<Literal>, rs: seq<Literal>)
    ensures Kept(lits, rs) == Some([]) <==> forall i :: 0 <= i < |rs| && i < |lits| ==> rs[i] == BoolLit(false)
  {
    if lits != [] && rs != [] {
      KeptNone(lits[1..], rs[1..]);
      assert forall i :: 0 < i < |rs| ==> rs[1..][i - 1] == rs[i];
    }
  }

  lemma AllTrueExactly(rs: seq<Literal>)
    ensures AllTrue(rs) == Some(true) <==> forall i :: 0 <= i < |rs| ==> rs[i] == BoolLit(true)
  {
    if rs != [] { AllTrueExactly(rs[1..]); assert forall i :: 0 < i < |rs| ==> rs[1..][i - 1] == rs[i]; }
  }

  lemma AnyTrueExactly(rs: seq<Literal>)
    ensures AnyTrue(rs) == Some(false) <==> forall i :: 0 <= i < |rs| ==> rs[i] == BoolLit(false)
  {
    if rs != [] { AnyTrueExactly(rs[1..]); assert forall i :: 0 < i < |rs| ==> rs[1..][i - 1] == rs[i]; }
  }

  lemma SomeItemsExactly(rs: seq<Literal>)
    ensures SomeItems(rs) == [] <==> forall i :: 0 <= i < |rs| ==> !(rs[i].TupleLit? && |rs[i].items| == 1)
  {
    if rs != [] { SomeItemsExactly(rs[1..]); assert forall i :: 0 < i < |rs| ==> rs[1..][i - 1] == rs[i]; }
  }

  /** Iteration over a known list comes out right exactly on harmless results:
      every other `map`, `filter`, `filter_map`, `all` or `any` whose results are
      known is specialized to a wrong value. */
  lemma StaticIterationExactly(op: IterOp, vs: seq<string>, lits: seq<Literal>, body: Expr, ps: List<Part>)
    requires op != Fold && AllKnown(ps) && LitList(Residuals(ps))
    ensures var rs := Residuals(ps);
      Literals(rs).Some?
        && (PIterResult(op, vs, None, lits, body, ps, None).Ok? && IterResult(op, lits, rs, None).Ok? ==>
        (PIterResult(op, vs, None, lits, body, ps, None).value.e == IterResult(op, lits, rs, None).value
         <==> Harmless(op, lits, Literals(rs).value)))
  {
    var rs := Residuals(ps);
    LitsOnly(rs);
    var ls := Literals(rs).value;
    KeptNone(lits, ls);
    AllTrueExactly(ls);
    AnyTrueExactly(ls);
    SomeItemsExactly(ls);
    assert Kept(lits, []) == Some([]);
  }

  lemma LitsOnly(rs: List<Expr>)
    requires LitList(rs)
    ensures FirstReturn(rs).None? && Literals(rs).Some?
  {}

  // ----- binders (specialize.rs:167-173, 272-279; expressions.rs:531-561) -----

  /** A `let` whose right-hand side is not known and some of whose binders partial
      evaluation dropped no longer binds anything: it has a value if and only if the
      right-hand side returns. */
  lemma DroppedBinder(env: Env, vs: seq<string>, rhs: Expr, body: Expr, k: nat)
    requires |Params(body)| < |vs| && forall i :: 0 <= i < |vs| ==> vs[i] != "_"
    ensures Eval(env, Node(Let(vs), Two(rhs, body)), k).Ok?
      <==> Eval(env, rhs, k).Ok? && IsReturn(Eval(env, rhs, k).value)
  {
    var r := Eval(env, rhs, k);
    assert EvalNode(env, Let(vs), Two(rhs, body), k) == EvalLet(env, vs, Two(rhs, body), k);
    if r.Ok? && !IsReturn(r.value) {
      var us := LetArgs(vs, r.value.lit);
      if us.Some? {
        ArgsLits(vs, r.value.lit);
        LitListValues(us.value);
        AllBound(vs, r.value.lit);
        OverApplied(body, us.value);
      }
      assert EvalApplied(env, body, us, k).Err?;
    }
  }

  lemma AllBound(vs: seq<string>, l: Literal)
    requires forall i :: 0 <= i < |vs| ==> vs[i] != "_"
    ensures LetArgs(vs, l).Some? ==> Length(LetArgs(vs, l).value) == |vs|
  {
    if l.TupleLit? && |vs| == |l.items| { AllBoundTo(vs, l.items); }
  }

  lemma AllBoundTo(vs: seq<string>, lits: seq<Literal>)
    requires |vs| == |lits| && forall i :: 0 <= i < |vs| ==> vs[i] != "_"
    ensures Length(Bound(vs, lits)) == |vs|
  {}

  /** Substituting a variable under `d` binders is right for different values of
      the dangling variables exactly when none of the occurrences is under two or
      more: `shift` adds one however deep it is. */
  lemma {:induction false} DeepSubstitution(e: Expr, d: nat, y: string, m: nat, s: seq<Expr>)
    requires m < |s| && (forall i :: 0 <= i < |s| ==> s[i].Lit?) && (forall i, j :: 0 <= i < j < |s| ==> s[i] != s[j])
    ensures Inst(Subst(e, d, BVar(y, m), true), d, s) == Inst(e, d, [s[m]] + s) <==> Shallow(e, d)
  {
    match e
    case BVar(_, j) =>
      if j == d && d >= 2 {
        assert Shift(BVar(y, m), d, 0) == BVar(y, m + 1);
        if m + 1 >= d { assert s[m + 1 - d] != s[m]; }
      }
    case Closure(_, b) => DeepSubstitution(b, d + 1, y, m, s);
    case Node(_, es) => DeepSubstitutionList(es, d, y, m, s);
    case _ =>
  }

  lemma {:induction false} DeepSubstitutionList(es: List<Expr>, d: nat, y: string, m: nat, s: seq<Expr>)
    requires m < |s| && (forall i :: 0 <= i < |s| ==> s[i].Lit?) && (forall i, j :: 0 <= i < j < |s| ==> s[i] != s[j])
    ensures InstList(SubstList(es, d, BVar(y, m), true), d, s) == InstList(es, d, [s[m]] + s) <==> ShallowList(es, d)
  {
    if es.Cons? { DeepSubstitution(es.head, d, y, m, s); DeepSubstitutionList(es.tail, d, y, m, s); }
  }

  /** A pattern `let (x, _) = ...` cannot be partially evaluated, known right-hand
      side or not: as many closures are expected as there are variables, but "_"
      has none. Every other pattern that fits is. */
  lemma UnderscoreExactly(env: Env, e: Expr, vs: seq<string>, rhs: Expr, l: Literal, so: bool, fuel: nat)
    requires !e.Closure? && LetArgs(vs, l).Some? && PEval(env, rhs, so, fuel) == Ok(Part(true, Lit(l)))
    ensures var body, r := CloseAll(e, vs), PEvalLet(env, vs, Two(rhs, CloseAll(e, vs)), so, fuel);
      && ((exists i :: 0 <= i < |vs| && vs[i] == "_") ==> r == Err(Failed))
      && ((forall i :: 0 <= i < |vs| ==> vs[i] != "_") ==>
           && AtDepth(body, |vs|).Some?
           && r == PEvalApplied(env, body,
                                if AllFree(AtDepth(body, |vs|).value, |vs|) then Units(|vs|)
                                  else LetArgs(vs, l).value, so, fuel))
  {
    DepthExactly(e, vs, |vs|);
  }

  lemma {:induction false} AbsClosure(e: Expr, i: nat, v: string)
    ensures |Params(Abs(e, i, v))| == |Params(e)|
  {
    if e.Closure? { AbsClosure(e.body, i + 1, v); }
  }

  lemma {:induction false} DepthIs(e: Expr, n: nat)
    ensures AtDepth(e, n).Some? <==> |Params(e)| == n
  {
    if e.Closure? && n > 0 { DepthIs(e.body, n - 1); }
  }

  lemma {:induction false} DepthExactly(e: Expr, vs: seq<string>, n: nat)
    requires !e.Closure? && n >= |vs|
    ensures |Params(CloseAll(e, vs))| <= |vs|
    ensures AtDepth(CloseAll(e, vs), n).Some? <==> n == |vs| && forall i :: 0 <= i < |vs| ==> vs[i] != "_"
    decreases |vs|
  {
    DepthIs(CloseAll(e, vs), n);
    if vs != [] {
      DepthExactly(e, vs[1..], |vs| - 1);
      DepthIs(CloseAll(e, vs[1..]), |vs| - 1);
      AbsClosure(CloseAll(e, vs[1..]), 0, vs[0]);
      assert forall i :: 0 < i < |vs| ==> vs[1..][i - 1] == vs[i];
    }
  }

  // ----- `return`s that are lost, early or misplaced -----

  /** An unused `let` whose right-hand side gives `w` and whose body gives `u`: its
      residual, the body alone, is right if and only if `w` is no `return`, unless
      the body gives the very same. */
  lemma UnusedLetExactly(c: Run, vs: seq<string>, rhs: Expr, body: Expr, so: bool, fuel: nat, w: Expr, u: Expr)
    requires Ready(c) && AtDepth(body, |vs|).Some? && AllFree(AtDepth(body, |vs|).value, |vs|)
    requires SafeApplied(c.ct, c.env.call, body, Units(|vs|), so, fuel)
    requires PEvalLet(c.ct, vs, Two(rhs, body), so, fuel).Ok? && Eval1(c, Node(Let(vs), Two(rhs, body))).Ok?
    requires Eval1(c, rhs) == Ok(w) && ApplyAll(body, Units(|vs|)).Ok?
    requires Eval1(c, ApplyAll(body, Units(|vs|)).value) == Ok(u)
    ensures Eval1(c, PEvalLet(c.ct, vs, Two(rhs, body), so, fuel).value.e) == Eval1(c, Node(Let(vs), Two(rhs, body)))
      <==> !IsReturn(w) || w == u
  {
    hide AllFree, AtDepth;
    var v := Eval1(c, Node(Let(vs), Two(rhs, body))).value;
    Inst2(Let(vs), rhs, body, c.s);
    NodeEval(c, Let(vs), Two(rhs, body));
    LetRuns(c.env, vs, Two(Inst(rhs, 0, c.s), Inst(body, 0, c.s)), c.k, v);
    Sound(c, ApplyAll(body, Units(|vs|)).value, so, fuel, u);
    if !IsReturn(w) {
      ArgsLits(vs, w.lit);
      UnusedBody(c, body, LetArgs(vs, w.lit).value, |vs|, v);
    }
  }

  /** `p && return l` and `p || return l`. */
  ghost predicate ShortFaithful(env: Env, op: Infix, p: Part, l: Literal) {
    forall s: seq<Expr>, v :: (forall i :: 0 <= i < |s| ==> s[i].Lit?)
      ==> ShortFaithfulOn(Run(env, env, s, 0), op, p, l, v)
  }

  ghost predicate ShortFaithfulOn(c: Run, op: Infix, p: Part, l: Literal, v: Expr) {
    var q := Part(true, ReturnOf(Lit(l)));
    Eval1(c, Node(InfixExpr(op), Two(p.e, q.e))) == Ok(v) && InfixPart(op, p, q).Ok? ==>
      Eval1(c, InfixPart(op, p, q).value.e) == Ok(v)
  }

  /** With a `return` on the right, `&&` and `||` are partially evaluated rightly for
      all values of the variables if and only if the left operand is known and does
      not stop evaluation. */
  lemma ReturnRunsExactly(env: Env, op: Infix, p: Part, l: Literal)
    requires ShortCircuits(op) && Atom(p)
    ensures ShortFaithful(env, op, p, l) <==> p.e.Lit? && p.e != Lit(BoolLit(op == Or))
  {
    hide Inst, Eval, InfixPart;
    var stop := Lit(BoolLit(op == Or));
    if p.e.Lit? && p.e != stop {
      forall s: seq<Expr>, v | forall i :: 0 <= i < |s| ==> s[i].Lit?
        ensures ShortFaithfulOn(Run(env, env, s, 0), op, p, l, v)
      {
        AtomValue(Run(env, env, s, 0), p);
        ReturnOnRight(Run(env, env, s, 0), op, p, l);
      }
    } else {
      var c := Run(env, env, if p.e.BVar? then Copies(p.e.idx + 1, stop) else [], 0);
      AtomValue(c, p);
      ReturnOnRight(c, op, p, l);
      assert !ShortFaithfulOn(c, op, p, l, stop);
    }
  }

  /** What `p && return l` gives, and that `return l` is all that is left of it. */
  lemma ReturnOnRight(c: Run, op: Infix, p: Part, l: Literal)
    requires ShortCircuits(op) && Atom(p)
    ensures var q := Part(true, ReturnOf(Lit(l)));
      && (InfixPart(op, p, q).Ok? && p.e != Lit(BoolLit(op == Or)) ==> InfixPart(op, p, q).value.e == q.e)
      && (p.e.BVar? || p.e == Lit(BoolLit(op == Or)) ==> InfixPart(op, p, q).Ok? && InfixPart(op, p, q).value.e == q.e)
      && Eval1(c, q.e) == Eval(c.env, q.e, c.k) == Ok(q.e)
      && Eval1(c, Node(InfixExpr(op), Two(p.e, q.e))) == EvalShort(c.env, op == Or, Inst(p.e, 0, c.s), q.e, c.k)
  {
    hide Eval, Inst;
    var q := Part(true, ReturnOf(Lit(l)));
    ValueClosed(q.e);
    InstClosed(q.e, 0, c.s);
    EvalValue(c.env, q.e, c.k);
    InfixNode(c, op, p.e, q.e);
    ReturnKept(op, p, q);
  }

  lemma ReturnKept(op: Infix, p: Part, q: Part)
    requires ShortCircuits(op) && Atom(p) && q.known && IsReturn(q.e)
    ensures InfixPart(op, p, q).Ok? && p.e != Lit(BoolLit(op == Or)) ==> InfixPart(op, p, q).value.e == q.e
    ensures p.e.BVar? || p.e == Lit(BoolLit(op == Or)) ==> InfixPart(op, p, q).Ok? && InfixPart(op, p, q).value.e == q.e
  {}

  /** `&&` and `||` with a residual `return` on the right, which gives `v2`, are right
      if and only if the left operand is all that is left of them, or lets the right
      one run, or is itself that very `return`. */
  lemma RightReturnExactly(c: Run, op: Infix, p: Part, q: Part, v1: Expr, v2: Expr, v: Expr)
    requires Ready(c) && ShortCircuits(op) && IsReturn(q.e) && InfixPart(op, p, q).Ok? && IsValue(v1)
    requires Agrees(c, p, v1) && Eval1(c, q.e) == Ok(v2)
    requires Eval1(c, Node(InfixExpr(op), Two(p.e, q.e))) == Ok(v)
    ensures var r := InfixPart(op, p, q).value.e;
      Eval1(c, r) == Ok(v) <==> r == p.e || v1 == Lit(BoolLit(op == And)) || v1 == v2
  {
    hide Eval, Inst;
    InfixNode(c, op, p.e, q.e);
    ValuesKnown(c, p, q, v1, v2);
    ReturnLeft(op, p, q);
    InfixRuns(c.env, op, Two(Inst(p.e, 0, c.s), Inst(q.e, 0, c.s)), c.k, v);
  }

  lemma ValuesKnown(c: Run, p: Part, q: Part, v1: Expr, v2: Expr)
    requires Eval1(c, p.e) == Ok(v1) && Eval1(c, q.e) == Ok(v2) && IsReturn(q.e)
    ensures IsReturn(v2) && (IsReturn(p.e) ==> IsReturn(v1)) && (p.e.Lit? ==> v1 == p.e)
  {
    NotReturn(c, p.e, v1);
    NotReturn(c, q.e, v2);
  }

  lemma ReturnLeft(op: Infix, p: Part, q: Part)
    requires ShortCircuits(op) && IsReturn(q.e) && InfixPart(op, p, q).Ok?
    ensures var r := InfixPart(op, p, q).value.e;
      r == q.e || (r == p.e && (IsReturn(p.e) || p.e == Lit(BoolLit(op == Or))))
  {}

  /** An inlined body that is specialized to `p`, not known, and evaluates to `w`:
      stripping one `return` of `p` is right if and only if `p` is that `return` or
      there is none to strip from `w`. */
  lemma InlinedExactly(c: Run, p: Part, w: Expr)
    requires Eval1(c, p.e) == Ok(w)
    ensures Eval1(c, StripReturn(p.e)) == Ok(StripReturn(w)) <==> IsReturn(p.e) || w.Lit?
  {
    if IsReturn(p.e) {
      InstShape(p.e.subs, c.s, c.s);
      assert Inst(p.e, 0, c.s) == Node(ReturnExpr, InstList(p.e.subs, 0, c.s));
    } else if w.Node? {
      assert w.subs.head < w;
    }
  }

  /** A compiled body that is specialized to `return x`, where x evaluates to `w`:
      the compiled function, with that `return` stripped, gives what the global one
      gives if and only if `w` is no further `return`. */
  lemma StrippedExactly(c: Run, x: Expr, w: Expr)
    requires Eval1(c, x) == Ok(w)
    ensures Evaluate(c.env, Inst(ReturnOf(x), 0, c.s), c.k) == Ok(w)
    ensures Evaluate(c.env, Inst(StripReturn(ReturnOf(x)), 0, c.s), c.k) == Ok(w) <==> w.Lit?
  {
    Inst1(ReturnExpr, x, c.s);
    if w.Node? { assert w.subs.head < w; }
  }

  // ----- operands, tests and arguments that are dropped -----

  /** Outside the three wrong rules, simplification is right if and only if no
      `return` that evaluation meets is in an operand that it drops. */
  lemma DroppedOperandExactly(c: Run, op: Infix, p: Part, q: Part, v1: Expr, v2: Expr, v: Expr)
    requires Ready(c) && !ShortCircuits(op) && !(p.known && q.known) && IsValue(v1) && IsValue(v2)
    requires Agrees(c, p, v1) && Agrees(c, q, v2) && InfixResult(op, v1, v2) == Ok(v)
    requires RuleSafe(op, p.e, q.e) && Simplify(op, p, q).Ok?
    ensures var r := Simplify(op, p, q).value.e;
      Eval1(c, r) == Ok(v) <==>
        if r == Node(InfixExpr(op), Two(p.e, q.e)) then true
        else if r == p.e then IsReturn(v1) || !IsReturn(v2)
        else if r == q.e then !IsReturn(v1) || v1 == v2
        else !IsReturn(v1)
  {
    hide Combined, EvalInfix;
    RebuiltSound(c, op, p, q, v1, v2, v);
    CombinedChoice(op, p, q);
    if v1.Lit? && v2.Lit? { SimplifyLits(c, op, p, q, v1, v2, v); }
  }

  /** The same for `&&` and `||`, when what is on the right is no `return`. */
  lemma DroppedShortExactly(c: Run, op: Infix, p: Part, q: Part, v1: Expr, v: Expr)
    requires Ready(c) && ShortCircuits(op) && !(p.known && q.known) && IsValue(v1) && !IsReturn(q.e)
    requires Agrees(c, p, v1) && ShortTaken(c, op, q, v1, v) && Simplify(op, p, q).Ok?
    ensures var r := Simplify(op, p, q).value.e;
      Eval1(c, r) == Ok(v) <==> r == Node(InfixExpr(op), Two(p.e, q.e)) || r == p.e || !IsReturn(v1)
  {
    hide Combined;
    ShortRebuilt(c, op, p.e, q, v1, v);
    NotRebuilt(op, p.e, q.e);
    CombinedChoice(op, p, q);
    RightDecides(op, p, q);
    NotReturn(c, p.e, v1);
    if Combined(op, p, q).Some? && (!IsReturn(v1) || Combined(op, p, q).value.e == p.e) {
      if op == And { AndRules(c, p, q, v1, v); } else { OrRules(c, p, q, v1, v); }
    }
  }

  /** The right operand alone is left when it decides or the left one does not. */
  lemma RightDecides(op: Infix, p: Part, q: Part)
    requires ShortCircuits(op) && !IsReturn(q.e)
    ensures var r := Combined(op, p, q); r.Some? && r.value.e != p.e ==> r.value.e == q.e && (p.e.Lit? || q.e.Lit?)
  {}

  /** Equal branches under a condition that is not known and gives `w`: the residual,
      one of them alone, gives `u` and is right if and only if `w` is no `return`,
      unless it is the one that the branch gives. */
  lemma EqualBranchesExactly(c: Run, cond: Expr, t: Expr, a: Expr, so: bool, fuel: nat, x: Part, w: Expr, u: Expr,
                             v: Expr)
    requires Ready(c) && Safe(c.ct, c.env.call, t, so, fuel) && Safe(c.ct, c.env.call, a, so, fuel)
    requires var p := PEval(c.ct, cond, so, fuel); p.Ok? && !p.value.known && !IsReturn(p.value.e)
    requires PEval(c.ct, t, so, fuel) == Ok(x) && SameResidual(Ok(x), PEval(c.ct, a, so, fuel))
    requires Eval1(c, cond) == Ok(w) && Eval1(c, x.e) == Ok(u) && Eval1(c, Node(IfExpr, Three(cond, t, a))) == Ok(v)
    ensures PEvalIf(c.ct, Three(cond, t, a), so, fuel) == Ok(x)
    ensures Eval1(c, x.e) == Ok(v) <==> !IsReturn(w) || w == u
  {
    Inst3(IfExpr, cond, t, a, c.s);
    NodeEval(c, IfExpr, Three(cond, t, a));
    IfRuns(c.env, Three(Inst(cond, 0, c.s), Inst(t, 0, c.s), Inst(a, 0, c.s)), c.k, v);
    if !IsReturn(w) {
      if w.lit.flat.b { Sound(c, t, so, fuel, v); } else { Sound(c, a, so, fuel, v); }
    }
  }

  /** The same for `if let Some(z) = scrut`, where the branch does not use z. */
  lemma EqualOpenedExactly(c: Run, scrut: Expr, z: string, b: Expr, a: Expr, so: bool, fuel: nat, y: Part, w: Expr,
                           u: Expr, v: Expr)
    requires Ready(c) && Safe(c.ct, c.env.call, b, so, fuel) && Safe(c.ct, c.env.call, a, so, fuel)
    requires var p := PEval(c.ct, scrut, so, fuel); p.Ok? && !p.value.known && !IsReturn(p.value.e)
    requires PEval(c.ct, a, so, fuel) == Ok(y) && SameOpened(PEval(c.ct, b, so, fuel), Ok(y))
    requires Eval1(c, scrut) == Ok(w) && Eval1(c, y.e) == Ok(u)
    requires Eval1(c, Node(IfSomeMatchExpr, Three(scrut, Closure(z, b), a))) == Ok(v)
    ensures PEvalIfSome(c.ct, Three(scrut, Closure(z, b), a), so, fuel) == Ok(y)
    ensures Eval1(c, y.e) == Ok(v) <==> !IsReturn(w) || w == u
  {
    hide Eval, EvalApplied, PEval, Safe, IsFree, Subst;
    var t := PEval(c.ct, b, so, fuel).value.e;
    Inst3(IfSomeMatchExpr, scrut, Closure(z, b), a, c.s);
    NodeEval(c, IfSomeMatchExpr, Three(scrut, Closure(z, b), a));
    IfSomeRuns(c.env, Three(Inst(scrut, 0, c.s), Inst(Closure(z, b), 0, c.s), Inst(a, 0, c.s)), c.k, v);
    if !IsReturn(w) {
      if |w.lit.items| == 1 {
        var l := Lit(w.lit.items[0]);
        AppliedOnce(c, z, b, l);
        Sound(Under(c, l), b, so, fuel, v);
        OpenedAlike(c, t, l, v);
      } else {
        Sound(c, a, so, fuel, v);
      }
    }
  }

  // ----- several results, the first `return` of which counts -----

  /** The value at the first residual `return`. */
  function AtReturn(ps: List<Part>, vs: List<Expr>): Option<Expr> {
    if ps.Nil? || vs.Nil? then None else if IsReturn(ps.head.e) then Some(vs.head) else AtReturn(ps.tail, vs.tail)
  }

  /** No `return` comes before the first residual one, or one that is the same. */
  predicate FirstIsRight(ps: List<Part>, vs: List<Expr>) {
    NoneBefore(ps, vs) || (FirstReturn(vs).Some? && FirstReturn(vs) == AtReturn(ps, vs))
  }

  /** The first residual `return` is right if and only if it is the first `return`
      among the values, or the same as that. */
  lemma {:induction false} FirstReturnExactly(c: Run, ps: List<Part>, vs: List<Expr>)
    requires AgreesToReturn(c, ps, vs)
    ensures var r := FirstReturn(Residuals(ps));
      && (r.None? && NoneBefore(ps, vs) ==> FirstReturn(vs).None?)
      && (!NoneBefore(ps, vs) ==> FirstReturn(vs).Some?)
      && (r.Some? ==>
            && FirstReturn(vs).Some? && AtReturn(ps, vs).Some? && Eval1(c, r.value) == Ok(AtReturn(ps, vs).value)
            && (Eval1(c, r.value) == Ok(FirstReturn(vs).value) <==> FirstIsRight(ps, vs)))
  {
    if ps.Cons? {
      NotReturn(c, ps.head.e, vs.head);
      if !IsReturn(ps.head.e) { FirstReturnExactly(c, ps.tail, vs.tail); }
    }
  }

  /** Lists and tuples. */
  lemma GroupExactly(c: Run, kind: BlockKind, es: List<Expr>, so: bool, fuel: nat, vs: List<Expr>, v: Expr)
    requires Ready(c) && kind != StmtBlock && SafeList(c.ct, c.env.call, es, so, fuel)
    requires PEvalGroup(c.ct, kind, es, so, fuel).Ok? && Eval1(c, Node(BlockExpr(kind), es)) == Ok(v)
    requires EvalList(c.env, InstList(es, 0, c.s), c.k) == Ok(vs)
    ensures var ps := PEvalList(c.ct, es, so, fuel).value;
      Eval1(c, PEvalGroup(c.ct, kind, es, so, fuel).value.e) == Ok(v)
      <==> FirstReturn(Residuals(ps)).None? || FirstIsRight(ps, vs)
  {
    var ps := PEvalList(c.ct, es, so, fuel).value;
    NodeEval(c, BlockExpr(kind), es);
    SoundList(c, es, so, fuel, vs);
    ResidualLits(c, ps, vs);
    AgreesSoFar(c, ps, vs);
    FirstReturnExactly(c, ps, vs);
  }

  /** Calls one of whose arguments is a residual `return`. */
  lemma ArgumentReturnExactly(c: Run, fn: string, async: bool, args: List<Expr>, so: bool, fuel: nat, vs: List<Expr>,
                              v: Expr)
    requires Ready(c) && SafeList(c.ct, c.env.call, args, so, fuel) && PEvalList(c.ct, args, so, fuel).Ok?
    requires FirstReturn(Residuals(PEvalList(c.ct, args, so, fuel).value)).Some?
    requires EvalList(c.env, InstList(args, 0, c.s), c.k) == Ok(vs)
    requires Eval1(c, Node(CallExpr(fn, async), args)) == Ok(v)
    ensures PEvalCall(c.ct, fn, async, args, so, fuel).Ok?
    ensures Eval1(c, PEvalCall(c.ct, fn, async, args, so, fuel).value.e) == Ok(v)
      <==> FirstIsRight(PEvalList(c.ct, args, so, fuel).value, vs)
  {
    var ps := PEvalList(c.ct, args, so, fuel).value;
    NodeEval(c, CallExpr(fn, async), args);
    SoundList(c, args, so, fuel, vs);
    AgreesSoFar(c, ps, vs);
    FirstReturnExactly(c, ps, vs);
    assert EvalCall(c.env, fn, async, vs, c.k) == Ok(v);
  }

  /** An inlined call without a residual `return` among its arguments, which gives
      `u`: right if and only if no argument returns, or the first that does gives
      that very `return`. */
  lemma ArgumentLostExactly(c: Run, fn: string, async: bool, args: List<Expr>, so: bool, fuel: nat, vs: List<Expr>,
                            v: Expr, u: Expr)
    requires Ready(c) && fn in c.ct.code && SafeList(c.ct, c.env.call, args, so, fuel)
    requires PEvalList(c.ct, args, so, fuel).Ok?
    requires FirstReturn(Residuals(PEvalList(c.ct, args, so, fuel).value)).None?
    requires InlinesSafely(c, fn, PEvalList(c.ct, args, so, fuel).value, so, fuel)
    requires EvalList(c.env, InstList(args, 0, c.s), c.k) == Ok(vs)
    requires Eval1(c, Node(CallExpr(fn, async), args)) == Ok(v) && PEvalCall(c.ct, fn, async, args, so, fuel).Ok?
    requires Eval1(c, PEvalCall(c.ct, fn, async, args, so, fuel).value.e) == Ok(u)
    ensures u == v <==> FirstReturn(vs).None? || FirstReturn(vs) == Some(u)
  {
    hide InlinesSafely;
    var ps := PEvalList(c.ct, args, so, fuel).value;
    NodeEval(c, CallExpr(fn, async), args);
    SoundList(c, args, so, fuel, vs);
    assert EvalCall(c.env, fn, async, vs, c.k) == Ok(v);
    if FirstReturn(vs).None? {
      ValuesAreLits(vs);
      CallRuns(c.env, fn, async, vs, c.k, v);
      SoundInline(c, fn, args, so, fuel, vs, v);
    }
  }

  lemma ValuesAreLits(vs: List<Expr>)
    requires AllValues(vs) && FirstReturn(vs).None?
    ensures LitList(vs)
  {}

  // ----- iterations -----

  /** An iteration over a known list, run and partially evaluated. */
  ghost predicate OverKnown(c: Run, over: Expr, lits: seq<Literal>, so: bool, fuel: nat) {
    PEval(c.ct, over, so, fuel) == Ok(Part(true, Lit(ListLit(lits)))) && Eval1(c, over) == Ok(Lit(ListLit(lits)))
  }

  lemma EachUnfolds(c: Run, op: IterOp, vs: seq<string>, over: Expr, body: Expr, lits: seq<Literal>, so: bool,
                    fuel: nat)
    requires OverKnown(c, over, lits, so, fuel)
    ensures var r := PIterLoop(c.ct, vs, lits, body, None, so, fuel);
      r.Ok? ==>
        PEvalIter(c.ct, op, vs, None, Two(over, body), so, fuel)
        == PIterResult(op, vs, None, lits, body, r.value.0, r.value.1)
    ensures Eval1(c, IterNode(op, vs, None, over, body, None))
         == EvalIter(c.env, op, vs, lits, Inst(body, 0, c.s), None, c.k)
  {
    hide PIterResult, IterResult;
    Inst2(Iter(op, vs, None), over, body, c.s);
    NodeEval(c, Iter(op, vs, None), Two(over, body));
  }

  /** Without an accumulator: the first residual `return` is right if and only if it
      is the first `return` among the results, or the same as that. */
  lemma LateReturnExactly(c: Run, op: IterOp, vs: seq<string>, over: Expr, body: Expr, lits: seq<Literal>, so: bool,
                          fuel: nat, ps: List<Part>, rs: List<Expr>, v: Expr)
    requires Ready(c) && OverKnown(c, over, lits, so, fuel)
    requires SafeLoop(c.ct, c.env.call, vs, lits, body, None, so, fuel)
    requires PIterLoop(c.ct, vs, lits, body, None, so, fuel) == Ok((ps, None)) && FirstReturn(Residuals(ps)).Some?
    requires IterLoop(c.env, vs, lits, Inst(body, 0, c.s), None, c.k) == Ok((rs, None))
    requires Eval1(c, IterNode(op, vs, None, over, body, None)) == Ok(v)
    ensures var r := PEvalIter(c.ct, op, vs, None, Two(over, body), so, fuel);
      r.Ok? && (Eval1(c, r.value.e) == Ok(v) <==> FirstIsRight(ps, rs))
  {
    EachUnfolds(c, op, vs, over, body, lits, so, fuel);
    SoundEach(c, vs, lits, body, so, fuel, (rs, None));
    AgreesSoFar(c, ps, rs);
    FirstReturnExactly(c, ps, rs);
  }

  lemma FoldUnrolls(c: Run, vs: seq<string>, n: string, over: Expr, body: Expr, init: Expr, lits: seq<Literal>,
                    so: bool, fuel: nat, acc: Part, a: Expr)
    requires OverKnown(c, over, lits, so, fuel) && PEval(c.ct, init, so, fuel) == Ok(acc) && acc.known
    requires Eval1(c, init) == Ok(a)
    ensures var r := PIterLoop(c.ct, vs, lits, body, Some(acc), so, fuel);
      r.Ok? ==>
        PEvalIter(c.ct, Fold, vs, Some(n), Three(over, body, init), so, fuel)
        == PIterResult(Fold, vs, Some(n), lits, body, r.value.0, r.value.1)
    ensures Eval1(c, IterNode(Fold, vs, Some(n), over, body, Some(init)))
         == EvalIter(c.env, Fold, vs, lits, Inst(body, 0, c.s), Some(a), c.k)
  {
    hide PIterResult, IterResult;
    assert PEvalAcc(c.ct, Some(n), Three(over, body, init), so, fuel) == Ok(Some(acc));
    Inst3(Iter(Fold, vs, Some(n)), over, body, init, c.s);
    NodeEval(c, Iter(Fold, vs, Some(n)), Three(over, body, init));
  }

  /** A fold over a known list whose residual gives `u`: right if and only if no
      result before the first residual `return` returns (no result at all, if there
      is none), or the first one that does gives that very `return`. */
  lemma OverlookedExactly(c: Run, vs: seq<string>, n: string, over: Expr, body: Expr, init: Expr, lits: seq<Literal>,
                          so: bool, fuel: nat, acc: Part, a: Expr, ps: List<Part>, last: Part, rs: List<Expr>,
                          final: Expr, u: Expr, v: Expr)
    requires Ready(c) && OverKnown(c, over, lits, so, fuel) && PEval(c.ct, init, so, fuel) == Ok(acc) && acc.known
    requires Agrees(c, acc, a) && Eval1(c, init) == Ok(a)
    requires SafeLoop(c.ct, c.env.call, vs, lits, body, Some(acc), so, fuel)
    requires PIterLoop(c.ct, vs, lits, body, Some(acc), so, fuel) == Ok((ps, Some(last)))
    requires IterLoop(c.env, vs, lits, Inst(body, 0, c.s), Some(a), c.k) == Ok((rs, Some(final)))
    requires Eval1(c, IterNode(Fold, vs, Some(n), over, body, Some(init))) == Ok(v)
    requires var r := PEvalIter(c.ct, Fold, vs, Some(n), Three(over, body, init), so, fuel);
      r.Ok? && Eval1(c, r.value.e) == Ok(u)
    ensures u == v <==> NoneBefore(ps, rs) || FirstReturn(rs) == Some(u)
  {
    hide SafeLoop, SettledToReturn;
    FoldUnrolls(c, vs, n, over, body, init, lits, so, fuel, acc, a);
    if NoneBefore(ps, rs) {
      SoundFold(c, vs, lits, body, acc, a, so, fuel, (rs, Some(final)));
      FirstReturnExactly(c, ps, rs);
    } else {
      SomeBefore(ps, rs);
    }
  }

  lemma SomeBefore(ps: List<Part>, vs: List<Expr>)
    requires !NoneBefore(ps, vs)
    ensures FirstReturn(vs).Some?
  {}

  // ----- iterations over a list that is not known -----

  /** An iteration over a list that is not known and gives `w`, whose body partial
      evaluation left with too few closures: right if and only if `w` is a `return`
      or has no elements. */
  lemma DroppedLoopExactly(c: Run, op: IterOp, vs: seq<string>, over: Expr, body: Expr, so: bool, fuel: nat, p: Part,
                           b: Part, w: Expr, v: Expr)
    requires Ready(c) && PEval(c.ct, over, so, fuel) == Ok(p) && !p.known && !IsReturn(p.e)
    requires Eval1(c, over) == Eval1(c, p.e) == Ok(w)
    requires PEval(c.ct, body, so, fuel) == Ok(b) && |Params(b.e)| < Opened(vs)
    requires Eval1(c, IterNode(op, vs, None, over, body, None)) == Ok(v)
    ensures var r := PEvalIter(c.ct, op, vs, None, Two(over, body), so, fuel);
      r.Ok? && (Eval1(c, r.value.e) == Ok(v) <==> IsReturn(w) || w.lit == ListLit([]))
  {
    UnknownUnfolds(c, op, vs, over, body, p, b, so, fuel);
    var r := IterNode(op, vs, None, p.e, b.e, None);
    if !IsReturn(w) {
      assert w.lit.ListLit?;
      assert Eval1(c, r) == EvalIter(c.env, op, vs, w.lit.items, Inst(b.e, 0, c.s), None, c.k);
      if w.lit.items != [] { ClosuresMissing(c, op, vs, w.lit.items, b.e, None); }
      else { NoElements(c, op, vs, body, b.e, None); }
    }
  }

  lemma UnknownUnfolds(c: Run, op: IterOp, vs: seq<string>, over: Expr, body: Expr, p: Part, b: Part, so: bool,
                       fuel: nat)
    requires PEval(c.ct, over, so, fuel) == Ok(p) && !p.known && !IsReturn(p.e) && PEval(c.ct, body, so, fuel) == Ok(b)
    ensures PEvalIter(c.ct, op, vs, None, Two(over, body), so, fuel)
         == Ok(Part(false, IterNode(op, vs, None, p.e, b.e, None)))
    ensures Eval1(c, IterNode(op, vs, None, over, body, None))
         == EvalIterExpr(c.env, op, vs, false, Two(Inst(over, 0, c.s), Inst(body, 0, c.s)), c.k)
    ensures Eval1(c, IterNode(op, vs, None, p.e, b.e, None))
         == EvalIterExpr(c.env, op, vs, false, Two(Inst(p.e, 0, c.s), Inst(b.e, 0, c.s)), c.k)
  {
    hide EvalIterExpr;
    Inst2(Iter(op, vs, None), over, body, c.s);
    Inst2(Iter(op, vs, None), p.e, b.e, c.s);
    NodeEval(c, Iter(op, vs, None), Two(over, body));
    NodeEval(c, Iter(op, vs, None), Two(p.e, b.e));
  }

  lemma NoElements(c: Run, op: IterOp, vs: seq<string>, e: Expr, b: Expr, acc: Option<Expr>)
    requires acc.Some? ==> IsValue(acc.value)
    ensures EvalIter(c.env, op, vs, [], Inst(e, 0, c.s), acc, c.k)
         == EvalIter(c.env, op, vs, [], Inst(b, 0, c.s), acc, c.k)
  {
    hide IterResult;
    assert IterLoop(c.env, vs, [], Inst(e, 0, c.s), acc, c.k) == IterLoop(c.env, vs, [], Inst(b, 0, c.s), acc, c.k);
  }

  lemma ClosuresMissing(c: Run, op: IterOp, vs: seq<string>, lits: seq<Literal>, e: Expr, acc: Option<Expr>)
    requires Ready(c) && (acc.Some? ==> IsValue(acc.value)) && lits != []
    requires |Params(e)| < Opened(vs) + (if acc.Some? then 1 else 0)
    ensures EvalIter(c.env, op, vs, lits, Inst(e, 0, c.s), acc, c.k).Err?
  {
    var us := IterArgs(vs, lits[0]);
    InstParams(e, 0, c.s);
    IterArgsLength(vs, lits[0]);
    if us.Some? {
      ArgsLits(vs, lits[0]);
      LitListValues(us.value);
      OverApplied(Inst(e, 0, c.s), AccArgs(acc, us.value));
      assert EvalApplied(c.env, Inst(e, 0, c.s), Some(AccArgs(acc, us.value)), c.k).Err?;
    }
    assert IterLoop(c.env, vs, lits, Inst(e, 0, c.s), acc, c.k).Err?;
  }

  /** The same for folds, whose first closure is that of the accumulator. */
  lemma DroppedFoldExactly(c: Run, vs: seq<string>, n: string, over: Expr, body: Expr, init: Expr, so: bool, fuel: nat,
                           p: Part, b: Part, acc: Part, w: Expr, a: Expr, v: Expr)
    requires Ready(c) && PEval(c.ct, over, so, fuel) == Ok(p) && !p.known && !IsReturn(p.e)
    requires Eval1(c, over) == Eval1(c, p.e) == Ok(w)
    requires PEval(c.ct, init, so, fuel) == Ok(acc) && Eval1(c, init) == Eval1(c, acc.e) == Ok(a)
    requires PEval(c.ct, body, so, fuel) == Ok(b) && |Params(b.e)| < Opened(vs) + 1
    requires Eval1(c, IterNode(Fold, vs, Some(n), over, body, Some(init))) == Ok(v)
    ensures var r := PEvalIter(c.ct, Fold, vs, Some(n), Three(over, body, init), so, fuel);
      r.Ok? && (Eval1(c, r.value.e) == Ok(v) <==> IsReturn(w) || w.lit == ListLit([]))
  {
    UnknownFold(c, vs, n, over, body, init, p, b, acc, so, fuel);
    if !IsReturn(w) {
      assert w.lit.ListLit?;
      if w.lit.items != [] { ClosuresMissing(c, Fold, vs, w.lit.items, b.e, Some(a)); }
      else { NoElements(c, Fold, vs, body, b.e, Some(a)); }
    }
  }

  lemma UnknownFold(c: Run, vs: seq<string>, n: string, over: Expr, body: Expr, init: Expr, p: Part, b: Part,
                    acc: Part, so: bool, fuel: nat)
    requires PEval(c.ct, over, so, fuel) == Ok(p) && !p.known && !IsReturn(p.e) && PEval(c.ct, body, so, fuel) == Ok(b)
    requires PEval(c.ct, init, so, fuel) == Ok(acc)
    ensures PEvalIter(c.ct, Fold, vs, Some(n), Three(over, body, init), so, fuel)
         == Ok(Part(false, IterNode(Fold, vs, Some(n), p.e, b.e, Some(acc.e))))
    ensures Eval1(c, IterNode(Fold, vs, Some(n), over, body, Some(init)))
         == EvalIterExpr(c.env, Fold, vs, true, Three(Inst(over, 0, c.s), Inst(body, 0, c.s), Inst(init, 0, c.s)), c.k)
    ensures Eval1(c, IterNode(Fold, vs, Some(n), p.e, b.e, Some(acc.e)))
         == EvalIterExpr(c.env, Fold, vs, true, Three(Inst(p.e, 0, c.s), Inst(b.e, 0, c.s), Inst(acc.e, 0, c.s)), c.k)
  {
    hide EvalIterExpr;
    assert PEvalAcc(c.ct, Some(n), Three(over, body, init), so, fuel) == Ok(Some(acc));
    Inst3(Iter(Fold, vs, Some(n)), over, body, init, c.s);
    Inst3(Iter(Fold, vs, Some(n)), p.e, b.e, acc.e, c.s);
    NodeEval(c, Iter(Fold, vs, Some(n)), Three(over, body, init));
    NodeEval(c, Iter(Fold, vs, Some(n)), Three(p.e, b.e, acc.e));
  }

  /** A fold over a list that is not known, with its closures left, is right if what
      it starts from and all results but the last are literals. (Not only then: see
      `Failures.ReturnHarmless`.) */
  lemma UnknownFoldRight(c: Run, vs: seq<string>, n: string, over: Expr, body: Expr, init: Expr, so: bool, fuel: nat,
                         p: Part, b: Part, acc: Part, w: Expr, a: Expr, r: (List<Expr>, Option<Expr>), v: Expr)
    requires Ready(c) && PEval(c.ct, over, so, fuel) == Ok(p) && !p.known && !IsReturn(p.e)
    requires Eval1(c, over) == Eval1(c, p.e) == Ok(w) && w.Lit? && w.lit.ListLit?
    requires PEval(c.ct, init, so, fuel) == Ok(acc) && Eval1(c, init) == Eval1(c, acc.e) == Ok(a)
    requires PEval(c.ct, body, so, fuel) == Ok(b) && SafeUnder(c.ct, c.env.call, body, Opened(vs) + 1, so, fuel)
    requires IterLoop(c.env, vs, w.lit.items, Inst(body, 0, c.s), Some(a), c.k) == Ok(r)
    requires Eval1(c, IterNode(Fold, vs, Some(n), over, body, Some(init))) == Ok(v)
    requires a.Lit? && LitsButLast(r.0)
    ensures var q := PEvalIter(c.ct, Fold, vs, Some(n), Three(over, body, init), so, fuel);
      q.Ok? && Eval1(c, q.value.e) == Ok(v)
  {
    hide IterResult, SafeUnder, PEval, Eval, Inst, IterLoop, EvalIterExpr, PEvalIter, Settles;
    UnknownFold(c, vs, n, over, body, init, p, b, acc, so, fuel);
    SoundLoopUnder(c, vs, w.lit.items, body, Some(a), so, fuel, r);
    FoldValue(c.env, vs, Inst(over, 0, c.s), Inst(body, 0, c.s), Inst(init, 0, c.s), c.k, w.lit.items, a, r);
    FoldValue(c.env, vs, Inst(p.e, 0, c.s), Inst(b.e, 0, c.s), Inst(acc.e, 0, c.s), c.k, w.lit.items, a, r);
  }

  lemma FoldValue(env: Env, vs: seq<string>, over: Expr, body: Expr, init: Expr, k: nat, lits: seq<Literal>, a: Expr,
                  r: (List<Expr>, Option<Expr>))
    requires Eval(env, over, k) == Ok(Lit(ListLit(lits))) && Eval(env, init, k) == Ok(a) && IsValue(a)
    requires IterLoop(env, vs, lits, body, Some(a), k) == Ok(r)
    ensures EvalIterExpr(env, Fold, vs, true, Three(over, body, init), k) == IterResult(Fold, lits, r.0, r.1)
  {
    hide IterResult, Eval, IterLoop;
  }

  // ----- builtins that change -----

  /** A call of a builtin with known arguments is run when it is specialized; its
      residual is right if and only if the builtin then still gives the same. */
  lemma FrozenBuiltinExactly(c: Run, fn: string, ls: seq<Literal>, fuel: nat)
    requires Ready(c) && fn !in c.ct.code && c.ct.isBuiltin(fn) && fuel > 1
    requires c.ct.call(fn, ls).Some? && c.env.call(fn, ls).Some?
    ensures PEval(c.ct, CallOn(fn, ls), false, fuel) == Ok(Part(true, Lit(c.ct.call(fn, ls).value)))
    ensures Eval1(c, Lit(c.ct.call(fn, ls).value)) == Eval1(c, CallOn(fn, ls)) <==> SameThen(c.ct, c.env.call, fn, ls)
  {
    hide PEval;
    var args := ToList(Lits(ls));
    LitsCalled(c.env, Lits(ls), ls, c.k);
    LitsKept(c.ct, Lits(ls), ls, fuel - 1);
    ToListAt(Lits(ls));
    LitsClosed(Lits(ls));
    CallCloses(fn, Lits(ls));
    InstClosed(CallOn(fn, ls), 0, c.s);
    CallUnfolds(c.ct, fn, args, fuel);
    assert EvalNode(c.env, CallExpr(fn, false), args, c.k) == EvalCallExpr(c.env, fn, false, args, c.k);
    assert EvalCallExpr(c.env, fn, false, args, c.k) == EvalCall(c.env, fn, false, args, c.k);
    assert EvalCall(c.env, fn, false, args, c.k) == ForeignCall(c.env, fn, false, ls);
    assert Eval1(c, CallOn(fn, ls)) == Ok(Lit(c.env.call(fn, ls).value));
  }

  lemma CallUnfolds(env: Env, fn: string, args: List<Expr>, fuel: nat)
    requires fuel > 0
    ensures PEval(env, Node(CallExpr(fn, false), args), false, fuel) == PEvalCall(env, fn, false, args, false, fuel - 1)
  {
    assert PEvalNode(env, CallExpr(fn, false), args, false, fuel - 1)
      == PEvalCall(env, fn, false, args, false, fuel - 1);
  }

  lemma CallCloses(fn: string, us: seq<Expr>)
    requires AllClosed(us)
    ensures ClosedList(ToList(us), 0)
  {
    if us != [] { CallCloses(fn, us[1..]); }
  }

  lemma LitsCalled(env: Env, us: seq<Expr>, ls: seq<Literal>, k: nat)
    requires |us| == |ls| && forall i :: 0 <= i < |us| ==> us[i] == Lit(ls[i])
    ensures EvalList(env, ToList(us), k) == Ok(ToList(us)) && Literals(ToList(us)) == Some(ls)
    decreases |us|
  {
    if us != [] {
      LitsCalled(env, us[1..], ls[1..], k);
      assert [ls[0]] + ls[1..] == ls;
    }
  }

  lemma LitsKept(env: Env, us: seq<Expr>, ls: seq<Literal>, n: nat)
    requires n > 0 && |us| == |ls| && forall i :: 0 <= i < |us| ==> us[i] == Lit(ls[i])
    ensures var r := PEvalList(env, ToList(us), false, n);
      r.Ok? && Residuals(r.value) == ToList(us) && AllKnown(r.value)
    decreases |us|
  {
    if us != [] { LitsKept(env, us[1..], ls[1..], n); LitGives(env, ls[0], 0, n); }
  }

  const CLOCK: string := "System::getCurrentTime"

  const LIMIT: i64 := 1893456000

  /** `fn allow_tcp_connection(from, to, c) { System::getCurrentTime() < 1893456000 }` */
  const TIME_POLICY: SDecl :=
    SDecl("allow_tcp_connection", ["from", "to", "c"], Do(SInfix(LessThan, SCall(CLOCK, Nil, false), TInt(LIMIT))))

  function TimeTest(): Expr { Infixed(LessThan, Call(CLOCK, Nil), N(LIMIT)) }

  lemma TimePolicyText()
    ensures ElabDecl(TIME_POLICY) == Ok(Lambda(["from", "to", "c"], TimeTest()))
  {
    assert ElabList(Nil, Names(["from", "to", "c"])) == Ok(Nil);
    assert Elab(SCall(CLOCK, Nil, false), Names(["from", "to", "c"])) == Ok(Call(CLOCK, Nil));
    assert ElabBlock(TIME_POLICY.body, Names(["from", "to", "c"])) == Ok(TimeTest());
    hide Elab, ElabBlock, ElabDecl;
    Binds(TIME_POLICY, TimeTest());
    TimeTestCloses();
  }

  lemma TimeTestCloses()
    ensures Closed(TimeTest(), 0) && forall i: nat, v :: Abs(TimeTest(), i, v) == TimeTest()
  {
    assert ClosedList(Nil, 0) && ClosedList(One(N(LIMIT)), 0);
    forall i: nat, v ensures Abs(TimeTest(), i, v) == TimeTest() {
      assert AbsList(Nil, i, v) == Nil;
      Parts2(InfixExpr(LessThan), Call(CLOCK, Nil), N(LIMIT), i, [], N(0), v);
    }
  }

  lemma TimeTestRuns(env: Env, time: i64, k: nat)
    requires CLOCK !in env.code && env.isBuiltin(CLOCK) && env.call(CLOCK, []) == Some(L(time))
    ensures Eval(env, TimeTest(), k) == Ok(T(time < LIMIT))
  {
    hide Eval;
    LitGives(env, L(LIMIT), k, 1);
    ClockRuns(env, time, k);
    InfixGives(env, LessThan, Call(CLOCK, Nil), N(LIMIT), k, N(time), N(LIMIT));
  }

  lemma ClockRuns(env: Env, time: i64, k: nat)
    requires CLOCK !in env.code && env.isBuiltin(CLOCK) && env.call(CLOCK, []) == Some(L(time))
    ensures Eval(env, Call(CLOCK, Nil), k) == Ok(N(time))
  {
    assert EvalList(env, Nil, k) == Ok(Nil) && FirstReturn(Nil).None? && Literals(Nil) == Some([]);
    assert EvalCall(env, CLOCK, false, Nil, k) == ForeignCall(env, CLOCK, false, []);
    assert EvalNode(env, CallExpr(CLOCK, false), Nil, k) == EvalCallExpr(env, CLOCK, false, Nil, k);
  }

  lemma TimeTestLeaves(env: Env, time: i64, n: nat)
    requires CLOCK !in env.code && env.isBuiltin(CLOCK) && env.call(CLOCK, []) == Some(L(time)) && n > 2
    ensures PEval(env, TimeTest(), false, n) == Ok(Part(true, T(time < LIMIT)))
  {
    hide PEval;
    assert PEvalList(env, Nil, false, n - 2) == Ok(Nil) && Residuals(Nil) == Nil && Literals(Nil) == Some([]);
    CallUnfolds(env, CLOCK, Nil, n - 1);
    LitGives(env, L(LIMIT), 0, n - 1);
    InfixLeaves(env, LessThan, Call(CLOCK, Nil), N(LIMIT), Part(true, N(time)), Part(true, N(LIMIT)), n);
  }

  /** A policy that the specializer freezes: compiled before the limit it allows
      every connection for ever, compiled after it none. It agrees with the global
      policy if and only if both times are on one side of the limit. */
  lemma TimePolicyExactly(j: Job, before: i64, after: i64, k: nat)
    requires j.fn == TCP_CONNECTION && WellFormed(j) && CheckHeader(j.pol, j.fn).Ok? && j.fuel > 2 && k > 0
    requires ElabDecl(TIME_POLICY) == Ok(j.pol.env.code[j.fn])
    requires CLOCK !in j.pol.env.code && j.pol.env.isBuiltin(CLOCK)
    requires j.pol.env.call(CLOCK, []) == Some(L(before)) && j.now(CLOCK, []) == Some(L(after))
    ensures CompileFunction(j.pol, j.fn, j.egress, j.own, j.fuel).Ok?
    ensures var c := CompileFunction(j.pol, j.fn, j.egress, j.own, j.fuel).value;
      && Eval(CompiledEnv(Then(j), j.fn, c.code), CallOn(j.fn, j.rest), k) == Ok(T(before < LIMIT))
      && Eval(Then(j), CallOn(j.fn, GlobalArgs(j)), k) == Ok(T(after < LIMIT))
      && (Eval(CompiledEnv(Then(j), j.fn, c.code), CallOn(j.fn, j.rest), k)
          == Eval(Then(j), CallOn(j.fn, GlobalArgs(j)), k)
          <==> ((before < LIMIT) == (after < LIMIT)))
  {
    hide Eval, PEval, ElabDecl, TimeTest, Inst, Subst;
    TimePolicyText();
    TimeTestCloses();
    TimePolicyCompiles(j, before);
    var vs := ["from", "to", "c"];
    NotClosure();
    LambdaParams(vs, TimeTest());
    CallOpens(Then(j), j.fn, GlobalArgs(j), k);
    InstClosed(TimeTest(), 0, Reversed(Lits(GlobalArgs(j))));
    TimeTestRuns(Then(j), after, k - 1);
    var code := Lambda(["con"], T(before < LIMIT));
    LambdaParams(["con"], T(before < LIMIT));
    LambdaClosed(["con"], T(before < LIMIT), 0);
    CallOpens(CompiledEnv(Then(j), j.fn, code), j.fn, j.rest, k);
    InstClosed(T(before < LIMIT), 0, Reversed(Lits(j.rest)));
    LitGives(CompiledEnv(Then(j), j.fn, code), BoolLit(before < LIMIT), k - 1, 1);
  }

  lemma NotClosure()
    ensures !TimeTest().Closure?
  {}

  lemma TimePolicyCompiles(j: Job, before: i64)
    requires j.fn == TCP_CONNECTION && WellFormed(j) && CheckHeader(j.pol, j.fn).Ok? && j.fuel > 2
    requires j.pol.env.code[j.fn] == Lambda(["from", "to", "c"], TimeTest())
    requires CLOCK !in j.pol.env.code && j.pol.env.isBuiltin(CLOCK) && j.pol.env.call(CLOCK, []) == Some(L(before))
    ensures CompileFunction(j.pol, j.fn, j.egress, j.own, j.fuel).Ok?
    ensures CompileFunction(j.pol, j.fn, j.egress, j.own, j.fuel).value.code == Lambda(["con"], T(before < LIMIT))
  {
    hide PEval, TimeTest, Lambda, PropagateSubst;
    var vs, own := ["from", "to", "c"], Lit(j.own);
    var k, i := if j.egress then 0 else 1, if j.egress then 2 else 1;
    TimeTestCloses();
    NotClosure();
    PropagateLambda(vs, TimeTest(), i, k, own);
    ClosedMono(TimeTest(), 0, i);
    SubstClosed(TimeTest(), i, own, true);
    AtDepthLambda(vs[..k] + vs[k + 1..], TimeTest());
    TimeTestLeaves(j.pol.env, before, j.fuel);
    assert PEvaluate(j.pol.env, TimeTest(), false, j.fuel) == Ok(Part(true, T(before < LIMIT)));
    assert Prepared(j.pol.env.code[j.fn], 3, j.egress, j.own) == Some(TimeTest());
    WrappedIs(j.fn, j.egress, T(before < LIMIT), Lits(j.rest));
  }
}
