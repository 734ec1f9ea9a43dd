/** A call of a user function can be left in a residual, where it has no value: a
    policy that shows why compiling is trusted only without such calls. */
module LeftCall {
  import opened Prelude
  import opened Syntax
  import opened Terms
  import opened TermLaws
  import opened TermProps
  import opened Interpret
  import opened Safety
  import opened Shapes
  import opened Specialize
  import opened Soundness
  import opened Compile
  import opened Elaborate
  import opened Steps
  import opened Failures

  // ----- a call that is left -----

  const NUMBER: string := "Connection::number"

  /** `fn g(c) { c.number() == 1 }` */
  const FIRST_ONLY: SDecl :=
    SDecl("g", ["c"], Do(SInfix(Equal, SCall(NUMBER, Cons(SIdent("c"), Nil), false), TInt(1))))

  /** `fn allow_tcp_connection(from, to, c) { any x in [1] { g(c) } }`: the result is
      not known, so the iteration stays as it is, with its call of g. */
  const LEFT_CALL: SDecl :=
    SDecl("allow_tcp_connection", ["from", "to", "c"],
          Do(SIter(Any, ["x"], TList1(1), Do(SCall("g", Cons(SIdent("c"), Nil), false)), None)))

  function IsFirst(c: Expr): Expr { Equals(Call(NUMBER, One(c)), N(1)) }

  /** `c` is as it is below the binder. */
  function AnyFirst(over: Expr, c: Expr): Expr {
    IterNode(Any, ["x"], None, over, Closure("x", Call("g", One(c))), None)
  }

  lemma CallOneText(f: string, x: Name, ctxt: set<string>)
    requires x in ctxt
    ensures Elab(SCall(f, Cons(SIdent(x), Nil), false), ctxt) == Ok(Call(f, One(Var(x))))
  {
    assert ElabList(Nil, ctxt) == Ok(Nil);
    assert Elab(SIdent(x), ctxt) == Ok(Var(x));
  }

  lemma FirstOnlyText()
    ensures ElabDecl(FIRST_ONLY) == Ok(Closure("c", IsFirst(BVar("c", 0))))
  {
    hide Elab, ElabBlock, ElabDecl, Abs;
    TextLeaves();
    CallOneText(NUMBER, "c", Names(["c"]));
    InfixText(Equal, SCall(NUMBER, Cons(SIdent("c"), Nil), false), TInt(1), Names(["c"]), Call(NUMBER, One(Var("c"))),
              N(1));
    Binds(FIRST_ONLY, IsFirst(Var("c")));
    AbsLeaves();
    Parts1(CallExpr(NUMBER, false), Var("c"), 0, [], N(0), "c");
    Parts2(InfixExpr(Equal), Call(NUMBER, One(Var("c"))), N(1), 0, [], N(0), "c");
    LambdaOne("c", IsFirst(BVar("c", 0)));
  }

  lemma AnyFirstParts(over: Expr, c: Expr, i: nat, s: seq<Expr>, u: Expr, v: string)
    ensures Inst(AnyFirst(over, c), i, s) == AnyFirst(Inst(over, i, s), Inst(c, i + 1, s))
    ensures Subst(AnyFirst(over, c), i, u, true) == AnyFirst(Subst(over, i, u, true), Subst(c, i + 1, u, true))
    ensures Abs(AnyFirst(over, c), i, v) == AnyFirst(Abs(over, i, v), Abs(c, i + 1, v))
  {
    hide Inst, Subst, Abs;
    Parts1(CallExpr("g", false), c, i + 1, s, u, v);
    ClosureParts("x", Call("g", One(c)), i, s, u, v);
    Parts2(Iter(Any, ["x"], None), over, Closure("x", Call("g", One(c))), i, s, u, v);
  }

  lemma List1Parts(i: nat, s: seq<Expr>, u: Expr, v: string)
    ensures Inst(List1(1), i, s) == Subst(List1(1), i, u, true) == Abs(List1(1), i, v) == List1(1)
  {
    Parts1(BlockExpr(ListBlock), N(1), i, s, u, v);
  }

  lemma LeftCallText()
    ensures ElabDecl(LEFT_CALL) == Ok(Lambda(["from", "to", "c"], AnyFirst(List1(1), BVar("c", 1))))
  {
    hide Elab, ElabBlock, ElabDecl, Abs, List1, TList1, AnyFirst;
    AnyFirstText();
    AnyFirstBinds();
    Binds(LEFT_CALL, AnyFirst(List1(1), Var("c")));
  }

  lemma AnyFirstText()
    ensures ElabBlock(LEFT_CALL.body, Names(["from", "to", "c"])) == Ok(AnyFirst(List1(1), Var("c")))
  {
    hide Elab, ElabBlock, Abs, List1, TList1;
    var ctxt, over := Names(["from", "to", "c"]), List1(1);
    TextLeaves();
    List1Text(ctxt);
    CallOneText("g", "c", ctxt + Names(["x"]));
    IterText(Any, "x", TList1(1), Do(SCall("g", Cons(SIdent("c"), Nil), false)), ctxt, over, Call("g", One(Var("c"))));
    AbsLeaves();
    Parts1(CallExpr("g", false), Var("c"), 0, [], N(0), "x");
  }

  lemma AnyFirstBinds()
    ensures var e, e' := AnyFirst(List1(1), Var("c")), AnyFirst(List1(1), BVar("c", 1));
      Abs(e, 0, "c") == e' && Abs(e', 1, "to") == e' && Abs(e', 2, "from") == e'
  {
    hide Abs, List1, AnyFirst;
    AbsLeaves();
    List1Parts(0, [], N(0), "c");
    List1Parts(1, [], N(0), "to");
    List1Parts(2, [], N(0), "from");
    AnyFirstParts(List1(1), Var("c"), 0, [], N(0), "c");
    AnyFirstParts(List1(1), BVar("c", 1), 1, [], N(0), "to");
    AnyFirstParts(List1(1), BVar("c", 1), 2, [], N(0), "from");
  }

  lemma List1Text(ctxt: set<string>)
    ensures Elab(TList1(1), ctxt) == Ok(List1(1))
  {
    assert ElabList(Nil, ctxt) == Ok(Nil);
  }

  /** `g` and the builtin it needs. */
  ghost predicate HasFirst(env: Env) {
    "g" in env.code && ElabDecl(FIRST_ONLY) == Ok(env.code["g"]) && NUMBER !in env.code && env.isBuiltin(NUMBER)
  }

  lemma IsFirstApplied(c: Expr)
    requires c.Lit? || c == BVar("c", 0)
    ensures ApplyAll(Closure("c", IsFirst(BVar("c", 0))), One(c)) == Ok(IsFirst(c))
  {
    hide Subst;
    assert Subst(BVar("c", 0), 0, c, true) == c && Subst(N(1), 0, c, true) == N(1) by { SubstHere(c); }
    Parts1(CallExpr(NUMBER, false), BVar("c", 0), 0, [], c, "");
    Parts2(InfixExpr(Equal), Call(NUMBER, One(BVar("c", 0))), N(1), 0, [], c, "");
    assert ApplyAll(IsFirst(c), Nil) == Ok(IsFirst(c));
  }

  lemma SubstHere(c: Expr)
    ensures Subst(BVar("c", 0), 0, c, true) == c && Subst(N(1), 0, c, true) == N(1)
    ensures c.Lit? ==> Subst(c, 0, N(1), true) == c
    ensures Subst(BVar("c", 1), 0, N(1), true) == BVar("c", 0)
  {}

  /** One step of the iteration. */
  lemma LoopApplied(c: Expr, c': Expr)
    requires if c'.Lit? then c == c' else c == BVar("c", 1) && c' == BVar("c", 0)
    ensures ApplyAll(Closure("x", Call("g", One(c))), One(N(1))) == Ok(Call("g", One(c')))
  {
    SubstHere(c');
    hide Subst;
    Parts1(CallExpr("g", false), c, 0, [], N(1), "");
    assert ApplyAll(Call("g", One(c')), Nil) == Ok(Call("g", One(c')));
  }

  lemma OneStays(e: Expr)
    requires !IsReturn(e)
    ensures FirstReturn(One(e)).None?
  {
    assert FirstReturn(Nil).None?;
  }

  lemma TestStays(call: Expr)
    requires call.Node? && call.tag.CallExpr?
    ensures InfixPart(Equal, Part(false, call), Part(true, N(1))) == Ok(Part(false, Equals(call, N(1))))
  {}

  lemma IsFirstLeaves(env: Env, n: nat)
    requires HasFirst(env) && n > 2
    ensures PEval(env, IsFirst(BVar("c", 0)), false, n) == Ok(Part(false, IsFirst(BVar("c", 0))))
  {
    hide PEval, Simplify;
    var c, call := BVar("c", 0), Call(NUMBER, One(BVar("c", 0)));
    TestStays(call);
    VarLeaves(env, c, n - 2);
    PartsTwo(Part(false, c), Part(false, c));
    CallLeaves(env, NUMBER, One(c), n - 1);
    OneStays(c);
    LitGives(env, L(1), 0, n - 1);
    InfixLeaves(env, Equal, call, N(1), Part(false, call), Part(true, N(1)), n);
  }

  lemma List1Known(env: Env, k: nat, n: nat)
    requires n > 1
    ensures Eval(env, List1(1), k) == Ok(Lit(ListLit([L(1)])))
        && PEval(env, List1(1), false, n) == Ok(Part(true, Lit(ListLit([L(1)]))))
  {
    Listed(env, L(1), L(1), k, n);
  }

  /** `g(c)` with c not known. */
  lemma CalledLeaves(env: Env)
    requires HasFirst(env)
    ensures PEval(env, Call("g", One(BVar("c", 0))), false, 23) == Ok(Part(false, IsFirst(BVar("c", 0))))
  {
    hide PEval, ApplyAll, ElabDecl, IsFirst;
    var c, p := BVar("c", 0), Part(false, IsFirst(BVar("c", 0)));
    FirstOnlyText();
    VarLeaves(env, c, 22);
    IsFirstApplied(c);
    IsFirstLeaves(env, 22);
    PartsTwo(Part(false, c), Part(false, c));
    OneStays(c);
    TestIsNode(c);
    CallInlined(env, "g", One(c), Cons(Part(false, c), Nil), p.e, p, 23);
  }

  lemma TestIsNode(c: Expr)
    ensures !IsReturn(IsFirst(c)) && StripReturn(IsFirst(c)) == IsFirst(c)
  {}

  lemma LeftCallResidual(env: Env)
    requires HasFirst(env)
    ensures PEval(env, AnyFirst(List1(1), BVar("c", 1)), false, FUEL)
         == Ok(Part(false, AnyFirst(Lit(ListLit([L(1)])), BVar("c", 1))))
  {
    hide PEval, PEvalApplied, ApplyAll, List1, IsFirst, HasFirst;
    var c, c1, p := BVar("c", 0), BVar("c", 1), Part(false, IsFirst(BVar("c", 0)));
    var loop := Closure("x", Call("g", One(c1)));
    List1Known(env, 0, 23);
    CalledLeaves(env);
    LoopApplied(c1, c);
    AppliedGives(env, loop, One(N(1)), Call("g", One(c)), 0, 23);
    LoopLeaves(env, "x", L(1), L(1), loop, None, p, p, 23);
    PartsTwo(p, p);
    TestIsNode(c);
    OneStays(p.e);
    IterLeaves(env, Any, "x", None, List1(1), loop, None, None, [L(1)], Cons(p, Nil), None, FUEL);
  }

  /** `g(c)` on a connection with the number i. */
  lemma CalledGives(env: Env, c: Literal, i: i64)
    requires HasFirst(env) && env.call(NUMBER, [c]) == Some(L(i))
    ensures Eval(env, Call("g", One(Lit(c))), DEPTH) == Ok(T(i == 1))
  {
    hide Eval, ApplyAll, ElabDecl, InfixResult;
    FirstOnlyText();
    IsFirstApplied(Lit(c));
    NumberGives(env, c, i, DEPTH - 1);
    LitGives(env, L(1), DEPTH - 1, 1);
    InfixGives(env, Equal, Call(NUMBER, One(Lit(c))), N(1), DEPTH - 1, N(i), N(1));
    SameNumber(i);
    assert LitList(One(Lit(c)));
    CallGives(env, "g", One(Lit(c)), IsFirst(Lit(c)), T(i == 1));
  }

  lemma SameNumber(i: i64)
    ensures InfixResult(Equal, N(i), N(1)) == Ok(T(i == 1))
  {}

  lemma LeftCallGives(env: Env, c: Literal, i: i64)
    requires HasFirst(env) && env.call(NUMBER, [c]) == Some(L(i))
    ensures Eval(env, AnyFirst(List1(1), Lit(c)), DEPTH) == Ok(T(i == 1))
  {
    hide Eval, EvalApplied, ApplyAll, List1, IterResult, HasFirst;
    var loop, v := Closure("x", Call("g", One(Lit(c)))), T(i == 1);
    List1Known(env, DEPTH, 2);
    CalledGives(env, c, i);
    LoopApplied(Lit(c), Lit(c));
    AppliedGives(env, loop, One(N(1)), Call("g", One(Lit(c))), DEPTH, 1);
    LoopGives(env, "x", L(1), L(1), loop, None, v, v, DEPTH);
    IterGives(env, Any, "x", None, List1(1), loop, None, None, [L(1)], One(v), None, DEPTH);
    AnyOfOne(i == 1);
  }

  lemma AnyOfOne(b: bool)
    ensures IterResult(Any, [L(1)], One(T(b)), None) == Ok(T(b))
  {
    var l := BoolLit(b);
    OneStays(T(b));
    assert Literals(Nil) == Some([]) && [l] + [] == [l] && [l][1..] == [];
    assert Literals(One(T(b))) == Some([l]);
    assert AnyTrue([]) == Some(false) && AnyTrue([l]) == Some(b);
  }

  lemma NumberGives(env: Env, c: Literal, i: i64, k: nat)
    requires NUMBER !in env.code && env.isBuiltin(NUMBER) && env.call(NUMBER, [c]) == Some(L(i))
    ensures Eval(env, Call(NUMBER, One(Lit(c))), k) == Ok(N(i))
  {
    LitsRun(env, One(Lit(c)), k);
    assert Literals(Nil) == Some([]) && [c] + [] == [c];
    assert Literals(One(Lit(c))) == Some([c]);
    CallRunsFirst(env, NUMBER, One(Lit(c)), k);
    hide Eval;
  }

  lemma LeftCallFails(env: Env, fn: string, code: Expr, c: Literal, k: nat)
    requires "g" != fn && !env.isBuiltin("g") && !env.isExternal("g")
    ensures Eval(CompiledEnv(env, fn, code), AnyFirst(Lit(ListLit([L(1)])), Lit(c)), k).Err?
  {
    hide Eval, EvalApplied, ApplyAll;
    var one, loop, call := CompiledEnv(env, fn, code), Closure("x", Call("g", One(Lit(c)))), Call("g", One(Lit(c)));
    UserCallIsGone(env, fn, code, "g", false, One(Lit(c)), k);
    NoReturnLeft(one, One(Lit(c)), k);
    LitGives(one, ListLit([L(1)]), k, 1);
    LoopApplied(Lit(c), Lit(c));
    AppliedGives(one, loop, One(N(1)), call, k, 1);
    assert [L(1)] + [] == [L(1)];
    LoopFails(one, Any, "x", None, Lit(ListLit([L(1)])), loop, None, None, L(1), [], N(0), k);
  }

  lemma NoReturnLeft(env: Env, args: List<Expr>, k: nat)
    requires LitList(args) && "g" !in env.code
    ensures var r := Eval(env, Call("g", args), k); r.Ok? ==> r.value.Lit?
  {
    LitsRun(env, args, k);
    CallRunsFirst(env, "g", args, k);
    hide Eval;
  }

  // ----- its partial evaluation is safe -----

  lemma NodeSafe(env: Env, now: Table, t: Tag, es: List<Expr>, n: nat)
    requires n > 0
    ensures Safe(env, now, Node(t, es), false, n) <==> SafeNode(env, now, t, es, false, n - 1)
  {
    hide SafeNode;
  }

  lemma LeavesSafe(env: Env, now: Table, e: Expr, n: nat)
    requires e.Lit? || e.BVar?
    ensures Safe(env, now, e, false, n) && SafeList(env, now, One(e), false, n)
  {
    assert SafeList(env, now, Nil, false, n);
  }

  lemma NumberSafe(env: Env, now: Table, n: nat)
    requires HasFirst(env) && n > 1
    ensures Safe(env, now, Call(NUMBER, One(BVar("c", 0))), false, n)
  {
    hide PEval, Safe, ElabDecl;
    var c := BVar("c", 0);
    LeavesSafe(env, now, c, n - 1);
    VarLeaves(env, c, n - 1);
    PartsTwo(Part(false, c), Part(false, c));
    OneStays(c);
    NodeSafe(env, now, CallExpr(NUMBER, false), One(c), n);
    assert SafeCall(env, now, NUMBER, One(c), false, n - 1);
  }

  lemma IsFirstSafe(env: Env, now: Table, n: nat)
    requires HasFirst(env) && n > 3
    ensures Safe(env, now, IsFirst(BVar("c", 0)), false, n)
  {
    hide PEval, Safe, ElabDecl, InfixSafe;
    var c, call := BVar("c", 0), Call(NUMBER, One(BVar("c", 0)));
    NumberSafe(env, now, n - 1);
    NumberLeaves(env, n - 1);
    LeavesSafe(env, now, N(1), n - 1);
    LitGives(env, L(1), 0, n - 1);
    TestSafe(env.code, call);
    NodeSafe(env, now, InfixExpr(Equal), Two(call, N(1)), n);
    assert SafeInfix(env, now, Equal, Two(call, N(1)), false, n - 1);
  }

  lemma NumberLeaves(env: Env, n: nat)
    requires HasFirst(env) && n > 1
    ensures var call := Call(NUMBER, One(BVar("c", 0))); PEval(env, call, false, n) == Ok(Part(false, call))
  {
    hide PEval, ElabDecl;
    var c := BVar("c", 0);
    VarLeaves(env, c, n - 1);
    PartsTwo(Part(false, c), Part(false, c));
    OneStays(c);
    CallLeaves(env, NUMBER, One(c), n);
  }

  lemma TestSafe(code: map<string, Expr>, call: Expr)
    requires call.Node? && call.tag.CallExpr?
    ensures InfixSafe(code, Equal, Part(false, call), Part(true, N(1)))
  {
    TestStays(call);
    hide Simplify;
  }

  /** The test does not return, and its argument goes below no binder. */
  lemma TestSettles(code: map<string, Expr>)
    requires NUMBER !in code
    ensures var c := BVar("c", 0); Settles(code, IsFirst(c)) && Settles(code, c) && Shallow(IsFirst(c), 0)
  {
    var n := |code|;
    var c, call := BVar("c", 0), Call(NUMBER, One(BVar("c", 0)));
    assert ReturnFreeList(Nil) && TidyCallsList(code, Nil, n) && ShallowList(Nil, 0);
    assert ReturnFreeList(One(c)) && TidyCallsList(code, One(c), n) && ShallowList(One(c), 0);
    assert ReturnFreeList(One(N(1))) && TidyCallsList(code, One(N(1)), n) && ShallowList(One(N(1)), 0);
    assert ReturnFree(call) && TidyCalls(code, call, n) && Shallow(call, 0);
  }

  lemma CalledSafe(env: Env, now: Table)
    requires HasFirst(env)
    ensures Safe(env, now, Call("g", One(BVar("c", 0))), false, 23)
  {
    hide PEval, Safe, ElabDecl, ApplyAll, Settles, IsFirst, Shallow;
    var c, p, f := BVar("c", 0), Part(false, BVar("c", 0)), env.code["g"];
    FirstOnlyText();
    LeavesSafe(env, now, c, 22);
    VarLeaves(env, c, 22);
    PartsTwo(p, p);
    OneStays(c);
    TestSettles(env.code);
    IsFirstApplied(c);
    IsFirstLeaves(env, 22);
    IsFirstSafe(env, now, 22);
    assert SettledToReturn(env.code, Nil) && SettledToReturn(env.code, Cons(p, Nil));
    InlinedOnce(f, c);
    NodeSafe(env, now, CallExpr("g", false), One(c), 23);
    assert SafeCall(env, now, "g", One(c), false, 22);
  }

  lemma InlinedOnce(f: Expr, u: Expr)
    requires f.Closure? && (Closed(u, 0) || Shallow(f.body, 0))
    ensures InlineSafe(f, One(u))
  {
    hide Subst, Shallow;
    assert InlineSafe(Subst(f.body, 0, u, true), Nil);
  }

  lemma List1Safe(env: Env, now: Table)
    ensures Safe(env, now, List1(1), false, 23)
  {
    hide PEval, Safe;
    LeavesSafe(env, now, N(1), 22);
    LitGives(env, L(1), 0, 22);
    assert PEvalList(env, Nil, false, 22) == Ok(Nil) && PEvalList(env, One(N(1)), false, 22).Ok?;
    PartsTwo(Part(true, N(1)), Part(true, N(1)));
    OneStays(N(1));
    NodeSafe(env, now, BlockExpr(ListBlock), One(N(1)), 23);
    assert SafeGroup(env, now, One(N(1)), false, 22);
  }

  lemma LoopSafe(env: Env, now: Table)
    requires HasFirst(env)
    ensures var loop, p := Closure("x", Call("g", One(BVar("c", 1)))), Part(false, IsFirst(BVar("c", 0)));
      && SafeLoop(env, now, ["x"], [L(1)], loop, None, false, 23)
      && PIterLoop(env, ["x"], [L(1)], loop, None, false, 23) == Ok((Cons(p, Nil), None))
  {
    hide PEval, Safe, ApplyAll, HasFirst, IsFirst, PEvalApplied, Closed;
    var c, loop, p := BVar("c", 0), Closure("x", Call("g", One(BVar("c", 1)))), Part(false, IsFirst(BVar("c", 0)));
    LoopApplied(BVar("c", 1), c);
    CalledLeaves(env);
    CalledSafe(env, now);
    AppliedGives(env, loop, One(N(1)), Call("g", One(c)), 0, 23);
    LoopLeaves(env, "x", L(1), L(1), loop, None, p, p, 23);
    ElementArgs("x", L(1));
    LitClosed(L(1));
    InlinedOnce(loop, N(1));
    assert [L(1)][1..] == [] && SafeLoop(env, now, ["x"], [], loop, None, false, 23);
  }

  lemma LeftCallSafe(env: Env, now: Table)
    requires HasFirst(env)
    ensures Safe(env, now, AnyFirst(List1(1), BVar("c", 1)), false, FUEL)
  {
    hide PEval, Safe, HasFirst, IsFirst, List1, SafeLoop, PIterLoop;
    var loop, p := Closure("x", Call("g", One(BVar("c", 1)))), Part(false, IsFirst(BVar("c", 0)));
    List1Safe(env, now);
    List1Known(env, 0, 23);
    LoopSafe(env, now);
    PartsTwo(p, p);
    TestIsNode(BVar("c", 0));
    OneStays(p.e);
    NodeSafe(env, now, Iter(Any, ["x"], None), Two(List1(1), loop), FUEL);
    assert SafeIter(env, now, Any, ["x"], None, Two(List1(1), loop), false, 23);
  }

  // ----- and its compiled policy has no value -----

  /** The policy as it is prepared, and what is left of it. */
  function LeftBody(): Expr { AnyFirst(List1(1), BVar("c", 1)) }

  function LeftKept(): Expr { AnyFirst(Lit(ListLit([L(1)])), BVar("c", 1)) }

  lemma LeftCloses(own: Expr, i: nat, u: Expr)
    requires i > 0
    ensures !LeftBody().Closure? && Subst(LeftBody(), i, own, true) == LeftBody()
    ensures !LeftKept().Closure? && StripReturn(LeftKept()) == LeftKept() && !IsReturn(LeftKept())
    ensures Closed(LeftKept(), 1) && Subst(LeftKept(), 1, u, false) == LeftKept() && Unbound(LeftKept(), 1)
  {
    AnyFirstParts(List1(1), BVar("c", 1), i, [], own, "");
    List1Parts(i, [], own, "");
    KeptCloses();
    SubstClosed(LeftKept(), 1, u, false);
  }

  lemma KeptCloses()
    ensures Closed(LeftKept(), 1) && Unbound(LeftKept(), 1)
  {
    var c, call := BVar("c", 1), Call("g", One(BVar("c", 1)));
    assert ClosedList(Nil, 2) && ClosedList(One(c), 2) && Closed(call, 2);
    assert ClosedList(Nil, 1) && ClosedList(One(Closure("x", call)), 1);
    assert IsFreeList(Nil, 2) && IsFreeList(One(c), 2) && IsFree(call, 2);
    assert UnboundList(Nil, 1) && UnboundList(One(Closure("x", call)), 1);
  }

  lemma LeftOpens(s: seq<Expr>)
    requires s != []
    ensures Inst(LeftBody(), 0, s) == AnyFirst(List1(1), s[0])
    ensures Inst(LeftKept(), 0, s) == AnyFirst(Lit(ListLit([L(1)])), s[0])
  {
    hide Inst;
    InstLeaves(s);
    List1Parts(0, s, N(0), "");
    AnyFirstParts(List1(1), BVar("c", 1), 0, s, N(0), "");
    AnyFirstParts(Lit(ListLit([L(1)])), BVar("c", 1), 0, s, N(0), "");
  }

  lemma LeftCallCompiles(j: Job)
    requires j.fn == TCP_CONNECTION && WellFormed(j) && CheckHeader(j.pol, j.fn).Ok? && j.fuel == FUEL
    requires j.pol.env.code[j.fn] == Lambda(["from", "to", "c"], LeftBody()) && HasFirst(j.pol.env)
    ensures PreparedBody(j) == LeftBody() && PEval(j.pol.env, LeftBody(), false, FUEL) == Ok(Part(false, LeftKept()))
    ensures CompileFunction(j.pol, j.fn, j.egress, j.own, j.fuel).Ok?
    ensures CompileFunction(j.pol, j.fn, j.egress, j.own, j.fuel).value.code == Lambda(["con"], LeftKept())
  {
    hide PEval, LeftBody, LeftKept, Lambda, PropagateSubst, HasFirst, Getter;
    var vs, own := ["from", "to", "c"], Lit(j.own);
    var k, i := if j.egress then 0 else 1, if j.egress then 2 else 1;
    LeftCloses(own, i, OpenCall(Getter(j.fn, j.egress), "conn", Lits(j.rest)));
    PropagateLambda(vs, LeftBody(), i, k, own);
    AtDepthLambda(vs[..k] + vs[k + 1..], LeftBody());
    LeftResidual(j.pol.env);
    assert Prepared(j.pol.env.code[j.fn], 3, j.egress, j.own) == Some(LeftBody());
    assert PEvaluate(j.pol.env, LeftBody(), false, j.fuel) == Ok(Part(false, LeftKept()));
    WrappedIs(j.fn, j.egress, LeftKept(), Lits(j.rest));
  }

  lemma LeftResidual(env: Env)
    requires HasFirst(env)
    ensures PEval(env, LeftBody(), false, FUEL) == Ok(Part(false, LeftKept()))
  {
    LeftCallResidual(env);
  }

  /** Compiling is trusted but for the call of g, which is left; the compiled policy
      then never has a value, where the global one has. */
  lemma LeftCallLost(j: Job, i: i64)
    requires j.fn == TCP_CONNECTION && WellFormed(j) && CheckHeader(j.pol, j.fn).Ok? && j.fuel == FUEL
    requires ElabDecl(LEFT_CALL) == Ok(j.pol.env.code[j.fn]) && HasFirst(j.pol.env)
    requires !j.pol.env.isBuiltin("g") && !j.pol.env.isExternal("g") && j.now(NUMBER, [j.rest[0]]) == Some(L(i))
    ensures Safe(j.pol.env, j.now, PreparedBody(j), false, FUEL)
        && StripSafe(j.pol.env.code, PEval(j.pol.env, PreparedBody(j), false, FUEL))
    ensures var p := PEvaluate(j.pol.env, PreparedBody(j), false, FUEL);
      p.Ok? && Unbound(p.value.e, |j.rest|) && !NoUserCalls(p.value.e, j.pol.env.code.Keys)
    ensures var c := CompileFunction(j.pol, j.fn, j.egress, j.own, j.fuel);
      && c.Ok? && Eval(CompiledEnv(Then(j), j.fn, c.value.code), CallOn(j.fn, j.rest), DEPTH + 1).Err?
      && Eval(Then(j), CallOn(j.fn, GlobalArgs(j)), DEPTH + 1) == Ok(T(i == 1))
  {
    hide Eval, PEval, ElabDecl, Safe, Inst, LeftBody, LeftKept, CompileFunction, PreparedBody;
    LeftCallText();
    LeftIs();
    LeftCallCompiles(j);
    LeftSafe(j);
    LeftCloses(Lit(j.own), 1, Lit(j.own));
    LeftCompiled(j);
    LeftGlobal(j, i);
  }

  lemma LeftIs()
    ensures LeftBody() == AnyFirst(List1(1), BVar("c", 1))
  {}

  lemma LeftSafe(j: Job)
    requires HasFirst(j.pol.env)
    ensures Safe(j.pol.env, j.now, LeftBody(), false, FUEL)
    ensures !NoUserCalls(LeftKept(), j.pol.env.code.Keys)
  {
    LeftCallSafe(j.pol.env, j.now);
    var code := j.pol.env.code.Keys;
    var call := Call("g", One(BVar("c", 1)));
    assert !NoUserCalls(call, code) && !NoUserCalls(Closure("x", call), code);
    assert !NoUserCallsList(One(Closure("x", call)), code);
  }

  lemma LeftCompiled(j: Job)
    requires j.fn == TCP_CONNECTION && |j.rest| == 1 && !j.pol.env.isBuiltin("g") && !j.pol.env.isExternal("g")
    ensures var one := CompiledEnv(Then(j), j.fn, Lambda(["con"], LeftKept()));
      Eval(one, CallOn(j.fn, j.rest), DEPTH + 1).Err?
  {
    hide Eval, Inst, LeftKept;
    var code, s := Lambda(["con"], LeftKept()), Reversed(Lits(j.rest));
    LeftCloses(Lit(j.own), 1, Lit(j.own));
    LambdaParams(["con"], LeftKept());
    LambdaClosed(["con"], LeftKept(), 0);
    CallOpens(CompiledEnv(Then(j), j.fn, code), j.fn, j.rest, DEPTH + 1);
    LeftOpens(s);
    LeftCallFails(Then(j), j.fn, code, j.rest[0], DEPTH);
  }

  lemma StillHas(j: Job)
    requires HasFirst(j.pol.env)
    ensures HasFirst(Then(j))
  {}

  lemma LeftGlobal(j: Job, i: i64)
    requires j.fn == TCP_CONNECTION && WellFormed(j) && HasFirst(j.pol.env)
    requires j.pol.env.code[j.fn] == Lambda(["from", "to", "c"], LeftBody())
    requires j.now(NUMBER, [j.rest[0]]) == Some(L(i))
    ensures Eval(Then(j), CallOn(j.fn, GlobalArgs(j)), DEPTH + 1) == Ok(T(i == 1))
  {
    hide Eval, Inst, LeftBody, Lambda, HasFirst, Params, Closed;
    var vs, s := ["from", "to", "c"], Reversed(Lits(GlobalArgs(j)));
    LeftCloses(Lit(j.own), 1, Lit(j.own));
    LambdaParams(vs, LeftBody());
    CallOpens(Then(j), j.fn, GlobalArgs(j), DEPTH + 1);
    LeftOpens(s);
    assert s[0] == Lit(j.rest[0]);
    StillHas(j);
    LeftCallGives(Then(j), j.rest[0], i);
  }
}
