/** For each guard of `Safe` an input that needs it: mostly a text that elaborates,
    whose function has a value that its residual does not have. `OpenReturnClaimed`
    is about the flag of a residual that is right; the last two guards have core
    terms to which no text elaborates. Module Unsound has the three algebraic rules
    and the builtins that change. */
module Failures {
  import opened Prelude
  import opened Syntax
  import opened Terms
  import opened TermLaws
  import opened TermProps
  import opened Interpret
  import opened Safety
  import opened Shapes
  import opened Specialize
  import opened Simulation
  import opened Soundness
  import opened Compile
  import opened Elaborate
  import opened Steps

  /** On these arguments the function has a value that its residual does not have. */
  ghost predicate Misled(env: Env, d: SDecl, args: seq<Literal>) {
    && ElabDecl(d).Ok? && Params(ElabDecl(d).value) == d.params && |args| == |d.params|
    && var body, s := Body(ElabDecl(d).value), Reversed(Lits(args));
       && Evaluate(env, Inst(body, 0, s), DEPTH).Ok? && PEval(env, body, false, FUEL).Ok?
       && Evaluate(env, Inst(PEval(env, body, false, FUEL).value.e, 0, s), DEPTH)
          != Evaluate(env, Inst(body, 0, s), DEPTH)
  }

  /** The text elaborates to `body`, which is specialized to `q`; opened with the
      arguments they evaluate to different things. */
  lemma Shown(env: Env, d: SDecl, body: Expr, q: Part, args: seq<Literal>, s: seq<Expr>, source: Expr, residual: Expr)
    requires ElabDecl(d) == Ok(Lambda(d.params, body)) && !body.Closure? && PEval(env, body, false, FUEL) == Ok(q)
    requires |args| == |d.params| && s == Reversed(Lits(args))
    requires Inst(body, 0, s) == source && Inst(q.e, 0, s) == residual
    requires Evaluate(env, source, DEPTH).Ok? && Evaluate(env, residual, DEPTH) != Evaluate(env, source, DEPTH)
    ensures Misled(env, d, args)
  {
    hide Eval, PEval, ElabDecl;
    LambdaParams(d.params, body);
  }

  lemma Arguments(l: Literal, m: Literal, n: Literal)
    ensures Reversed(Lits([])) == []
    ensures Reversed(Lits([l])) == [Lit(l)]
    ensures Reversed(Lits([l, m])) == [Lit(m), Lit(l)]
    ensures Reversed(Lits([l, m, n])) == [Lit(n), Lit(m), Lit(l)]
  {
    assert Lits([l])[1..] == [];
    assert Lits([l, m])[1..] == [Lit(m)] && Lits([l, m])[1..][1..] == [];
    assert Lits([l, m, n])[1..] == [Lit(m), Lit(n)] && Lits([l, m, n])[1..][1..] == [Lit(n)];
  }

  // ----- operands -----

  /** `fn f(b) { (if b { return 1 } else { 2 }) * 0 }` is specialized to 0. */
  const LEFT_DROPPED: SDecl :=
    SDecl("f", ["b"], Do(SInfix(Multiply, TReturnIf(SIdent("b"), TInt(1), TInt(2)), TInt(0))))

  lemma DroppedSimplified()
    ensures var p, q := Part(false, ReturnIfKept(BVar("b", 0), N(1), N(2))), Part(true, N(0));
      Simplify(Multiply, p, q) == Ok(q) && Simplify(Multiply, q, p) == Ok(q)
  {}

  function LeftDroppedBody(b: Expr): Expr {
    Infixed(Multiply, ReturnIf(b, N(1), N(2)), N(0))
  }

  lemma LeftDroppedText()
    ensures ElabDecl(LEFT_DROPPED) == Ok(Lambda(LEFT_DROPPED.params, LeftDroppedBody(BVar("b", 0))))
  {
    assert ElabBlock(LEFT_DROPPED.body, Names(["b"])) == Ok(LeftDroppedBody(Var("b")));
    Binds(LEFT_DROPPED, LeftDroppedBody(Var("b")));
    assert Abs(LeftDroppedBody(Var("b")), 0, "b") == LeftDroppedBody(BVar("b", 0));
  }

  lemma LeftDroppedResidual(env: Env)
    ensures PEval(env, LeftDroppedBody(BVar("b", 0)), false, FUEL) == Ok(Part(true, N(0)))
  {
    DroppedSimplified();
    hide Simplify, ReturnIf;
    ReturnIfResidual(env, BVar("b", 0), N(1), N(2), false, 23);
  }

  lemma LeftDroppedRuns(env: Env)
    ensures Eval(env, LeftDroppedBody(Lit(BoolLit(true))), DEPTH) == Ok(ReturnOf(N(1)))
        && Eval(env, N(0), DEPTH) == Ok(N(0))
  {
    hide ReturnIf;
    ReturnIfRuns(env, N(1), N(2), DEPTH);
  }

  lemma LeftDropped(env: Env)
    ensures Misled(env, LEFT_DROPPED, [BoolLit(true)])
  {
    hide PEval, Eval, ElabDecl;
    Arguments(BoolLit(true), UNIT, UNIT);
    LeftDroppedText();
    LeftDroppedResidual(env);
    LeftDroppedRuns(env);
    hide ReturnIf;
    ReturnIfOpens(BVar("b", 0), N(1), N(2), 0, [T(true)]);
    Shown(env, LEFT_DROPPED, LeftDroppedBody(BVar("b", 0)), Part(true, N(0)), [BoolLit(true)],
          [Lit(BoolLit(true))], LeftDroppedBody(Lit(BoolLit(true))), N(0));
  }

  /** `fn f(b) { 0 * (if b { return 1 } else { 2 }) }` is specialized to 0. */
  const RIGHT_DROPPED: SDecl :=
    SDecl("f", ["b"], Do(SInfix(Multiply, TInt(0), TReturnIf(SIdent("b"), TInt(1), TInt(2)))))

  function RightDroppedBody(b: Expr): Expr {
    Infixed(Multiply, N(0), ReturnIf(b, N(1), N(2)))
  }

  lemma RightDroppedText()
    ensures ElabDecl(RIGHT_DROPPED) == Ok(Lambda(RIGHT_DROPPED.params, RightDroppedBody(BVar("b", 0))))
  {
    assert ElabBlock(RIGHT_DROPPED.body, Names(["b"])) == Ok(RightDroppedBody(Var("b")));
    Binds(RIGHT_DROPPED, RightDroppedBody(Var("b")));
    assert Abs(RightDroppedBody(Var("b")), 0, "b") == RightDroppedBody(BVar("b", 0));
  }

  lemma RightDroppedResidual(env: Env)
    ensures PEval(env, RightDroppedBody(BVar("b", 0)), false, FUEL) == Ok(Part(true, N(0)))
  {
    DroppedSimplified();
    hide Simplify, ReturnIf;
    ReturnIfResidual(env, BVar("b", 0), N(1), N(2), false, 23);
  }

  lemma RightDroppedRuns(env: Env)
    ensures Eval(env, RightDroppedBody(Lit(BoolLit(true))), DEPTH) == Ok(ReturnOf(N(1)))
        && Eval(env, N(0), DEPTH) == Ok(N(0))
  {
    hide ReturnIf;
    ReturnIfRuns(env, N(1), N(2), DEPTH);
  }

  lemma RightDropped(env: Env)
    ensures Misled(env, RIGHT_DROPPED, [BoolLit(true)])
  {
    hide PEval, Eval, ElabDecl;
    Arguments(BoolLit(true), UNIT, UNIT);
    RightDroppedText();
    RightDroppedResidual(env);
    RightDroppedRuns(env);
    hide ReturnIf;
    ReturnIfOpens(BVar("b", 0), N(1), N(2), 0, [T(true)]);
    Shown(env, RIGHT_DROPPED, RightDroppedBody(BVar("b", 0)), Part(true, N(0)), [BoolLit(true)],
          [Lit(BoolLit(true))], RightDroppedBody(Lit(BoolLit(true))), N(0));
  }

  /** `fn f() { true || if true { return false } else { true } }` is specialized to
      `return false`; evaluation stops at the first `true`. */
  const NEVER_RUN: SDecl :=
    SDecl("f", [], Do(SInfix(Or, TBool(true), TReturnIf(TBool(true), TBool(false), TBool(true)))))

  function NeverRunBody(): Expr {
    Infixed(Or, T(true), ReturnIf(T(true), T(false), T(true)))
  }

  lemma NeverRunText()
    ensures ElabDecl(NEVER_RUN) == Ok(Lambda(NEVER_RUN.params, NeverRunBody()))
  {
    assert ElabBlock(NEVER_RUN.body, Names([])) == Ok(NeverRunBody());
    Binds(NEVER_RUN, NeverRunBody());
  }

  lemma NeverRunResidual(env: Env)
    ensures PEval(env, NeverRunBody(), false, FUEL) == Ok(Part(true, ReturnOf(T(false))))
  {
    hide Simplify, ReturnIf;
    ReturnIfResidual(env, T(true), T(false), T(true), false, 23);
  }

  lemma NeverRunRuns(env: Env)
    ensures Eval(env, NeverRunBody(), DEPTH) == Ok(T(true))
        && Eval(env, ReturnOf(T(false)), DEPTH) == Ok(ReturnOf(T(false)))
  {}

  lemma NeverRun(env: Env)
    ensures Misled(env, NEVER_RUN, [])
  {
    hide PEval, Eval, ElabDecl;
    Arguments(UNIT, UNIT, UNIT);
    NeverRunText();
    NeverRunResidual(env);
    NeverRunRuns(env);
    hide ReturnIf;
    ReturnIfOpens(T(true), T(false), T(true), 0, []);
    Shown(env, NEVER_RUN, NeverRunBody(), Part(true, ReturnOf(T(false))), [], [], NeverRunBody(), ReturnOf(T(false)));
  }

  // ----- several results -----

  /** The block `{ e; 5 }` as text and elaborated. */
  function TThen(e: SExpr): List<SStmt> { Cons(SDo(e, true), Do(TInt(5))) }

  function ThenFive(e: Expr): Expr { Node(BlockExpr(StmtBlock), Two(e, N(5))) }

  lemma ThenText(e: SExpr, ctxt: set<string>, e': Expr)
    requires Elab(e, ctxt) == Ok(e')
    ensures ElabBlock(TThen(e), ctxt) == Ok(ThenFive(e'))
  {
    TextLeaves();
    hide Elab;
  }

  /** A `return` before the semicolon is all that is left, and all that is run. */
  lemma ThenReturns(env: Env, e: Expr, p: Part, v: Expr, k: nat, n: nat)
    ensures n > 0 && PEval(env, e, false, n - 1) == Ok(p) && IsReturn(p.e) ==>
      PEval(env, ThenFive(e), false, n) == Ok(p)
    ensures Eval(env, e, k) == Ok(v) && IsReturn(v) ==> Eval(env, ThenFive(e), k) == Ok(v)
  {
    ThenUnfolds(env, e, k, n);
    hide Eval, PEval;
  }

  lemma ThenUnfolds(env: Env, e: Expr, k: nat, n: nat)
    ensures Eval(env, ThenFive(e), k) == EvalBlock(env, Two(e, N(5)), k)
    ensures n > 0 ==> PEval(env, ThenFive(e), false, n) == PEvalBlock(env, Two(e, N(5)), false, n - 1)
  {
    assert EvalNode(env, BlockExpr(StmtBlock), Two(e, N(5)), k) == EvalBlock(env, Two(e, N(5)), k);
    if n > 0 {
      assert PEvalNode(env, BlockExpr(StmtBlock), Two(e, N(5)), false, n - 1)
          == PEvalBlock(env, Two(e, N(5)), false, n - 1);
    }
  }

  lemma ThenParts(e: Expr, i: nat, s: seq<Expr>, v: string)
    ensures Inst(ThenFive(e), i, s) == ThenFive(Inst(e, i, s)) && Abs(ThenFive(e), i, v) == ThenFive(Abs(e, i, v))
  {
    Parts2(BlockExpr(StmtBlock), e, N(5), i, s, N(0), v);
  }

  /** `fn f(b) { (if b { return 1 } else { 2 }, if true { return 3 } else { 4 }); 5 }`
      is specialized to `return 3`. */
  const TUPLE_RETURN: SDecl :=
    SDecl("f", ["b"],
          TThen(TPair(TReturnIf(SIdent("b"), TInt(1), TInt(2)), TReturnIf(TBool(true), TInt(3), TInt(4)))))

  function TPair(a: SExpr, b: SExpr): SExpr { SGroup(TupleBlock, Cons(a, Cons(b, Nil))) }

  function Pair(a: Expr, b: Expr): Expr { Node(BlockExpr(TupleBlock), Two(a, b)) }

  function TupleReturned(b: Expr): Expr { Pair(ReturnIf(b, N(1), N(2)), ReturnIf(T(true), N(3), N(4))) }

  lemma PairText(a: SExpr, b: SExpr, ctxt: set<string>, a': Expr, b': Expr)
    requires Elab(a, ctxt) == Ok(a') && Elab(b, ctxt) == Ok(b')
    ensures Elab(TPair(a, b), ctxt) == Ok(Pair(a', b'))
  {
    assert ElabList(Nil, ctxt) == Ok(Nil);
    assert ElabList(Cons(b, Nil), ctxt) == Ok(One(b'));
  }

  lemma TupleReturnText()
    ensures ElabDecl(TUPLE_RETURN) == Ok(Lambda(TUPLE_RETURN.params, ThenFive(TupleReturned(BVar("b", 0)))))
  {
    hide Elab, ElabBlock, ElabDecl, Abs, TReturnIf, ReturnIf, TPair, TThen, ThenFive;
    var ctxt, p, q := Names(["b"]), TReturnIf(SIdent("b"), TInt(1), TInt(2)), TReturnIf(TBool(true), TInt(3), TInt(4));
    TextLeaves();
    ReturnIfText(SIdent("b"), 1, TInt(2), ctxt, Var("b"), N(2));
    ReturnIfText(TBool(true), 3, TInt(4), ctxt, T(true), N(4));
    PairText(p, q, ctxt, ReturnIf(Var("b"), N(1), N(2)), ReturnIf(T(true), N(3), N(4)));
    ThenText(TPair(p, q), ctxt, TupleReturned(Var("b")));
    Binds(TUPLE_RETURN, ThenFive(TupleReturned(Var("b"))));
    ThenParts(TupleReturned(Var("b")), 0, [], "b");
    ReturnArgsBind();
    Parts2(BlockExpr(TupleBlock), ReturnIf(Var("b"), N(1), N(2)), ReturnIf(T(true), N(3), N(4)), 0, [], N(0), "b");
  }

  lemma TwoLeave(env: Env, a: Expr, b: Expr, p: Part, q: Part, n: nat)
    requires PEval(env, a, false, n) == Ok(p) && PEval(env, b, false, n) == Ok(q)
    ensures PEvalList(env, Two(a, b), false, n) == Ok(Cons(p, Cons(q, Nil)))
  {
    hide PEval;
    assert PEvalList(env, Nil, false, n) == Ok(Nil);
    assert PEvalList(env, One(b), false, n) == Ok(Cons(q, Nil));
  }

  lemma TwoGive(env: Env, a: Expr, b: Expr, v: Expr, w: Expr, k: nat)
    requires Eval(env, a, k) == Ok(v) && Eval(env, b, k) == Ok(w)
    ensures EvalList(env, Two(a, b), k) == Ok(Two(v, w))
  {
    hide Eval;
    assert EvalList(env, Nil, k) == Ok(Nil);
    assert EvalList(env, One(b), k) == Ok(One(w));
  }

  lemma PairUnfolds(env: Env, a: Expr, b: Expr, k: nat, n: nat)
    ensures Eval(env, Pair(a, b), k) == EvalGroup(env, TupleBlock, Two(a, b), k)
    ensures n > 0 ==> PEval(env, Pair(a, b), false, n) == PEvalGroup(env, TupleBlock, Two(a, b), false, n - 1)
  {
    assert EvalNode(env, BlockExpr(TupleBlock), Two(a, b), k) == EvalGroup(env, TupleBlock, Two(a, b), k);
    if n > 0 {
      assert PEvalNode(env, BlockExpr(TupleBlock), Two(a, b), false, n - 1)
          == PEvalGroup(env, TupleBlock, Two(a, b), false, n - 1);
    }
  }

  /** The first `return` of two. */
  lemma FirstOfTwo(a: Expr, b: Expr)
    ensures IsReturn(a) ==> FirstReturn(Two(a, b)) == Some(a) && BlockResult(TupleBlock, Two(a, b)) == Ok(a)
    ensures !IsReturn(a) && IsReturn(b) ==>
      FirstReturn(Two(a, b)) == Some(b) && BlockResult(TupleBlock, Two(a, b)) == Ok(b)
  {
    assert IsReturn(b) ==> FirstReturn(One(b)) == Some(b);
  }

  lemma TupleReturnResidual(env: Env)
    ensures PEval(env, ThenFive(TupleReturned(BVar("b", 0))), false, FUEL) == Ok(Part(false, ReturnOf(N(3))))
  {
    hide PEval, ReturnIf, ThenFive, BlockResult;
    var a, b, p, q := ReturnIf(BVar("b", 0), N(1), N(2)), ReturnIf(T(true), N(3), N(4)),
      Part(false, ReturnIfKept(BVar("b", 0), N(1), N(2))), Part(true, ReturnOf(N(3)));
    ReturnIfResidual(env, BVar("b", 0), N(1), N(2), false, 22);
    ReturnIfResidual(env, T(true), N(3), N(4), false, 22);
    TwoLeave(env, a, b, p, q, 22);
    PartsTwo(p, q);
    FirstOfTwo(p.e, q.e);
    PairUnfolds(env, a, b, DEPTH, 23);
    ThenReturns(env, Pair(a, b), Part(false, ReturnOf(N(3))), N(0), DEPTH, FUEL);
  }

  lemma TupleReturnRuns(env: Env)
    ensures Eval(env, ThenFive(TupleReturned(T(true))), DEPTH) == Ok(ReturnOf(N(1)))
        && Eval(env, ReturnOf(N(3)), DEPTH) == Ok(ReturnOf(N(3)))
  {
    hide Eval, ReturnIf, ThenFive, BlockResult;
    var a, b, v, w := ReturnIf(T(true), N(1), N(2)), ReturnIf(T(true), N(3), N(4)), ReturnOf(N(1)), ReturnOf(N(3));
    ReturnIfRuns(env, N(1), N(2), DEPTH);
    ReturnIfRuns(env, N(3), N(4), DEPTH);
    EvalValue(env, w, DEPTH);
    TwoGive(env, a, b, v, w, DEPTH);
    FirstOfTwo(v, w);
    PairUnfolds(env, a, b, DEPTH, 1);
    ThenReturns(env, Pair(a, b), Part(true, N(0)), v, DEPTH, FUEL);
  }

  lemma TupleReturnOpens()
    ensures var e := ThenFive(TupleReturned(BVar("b", 0)));
      !e.Closure? && Inst(e, 0, [T(true)]) == ThenFive(TupleReturned(T(true)))
    ensures Inst(ReturnOf(N(3)), 0, [T(true)]) == ReturnOf(N(3))
  {
    hide Inst, ReturnIf;
    var s, a, b := [T(true)], ReturnIf(BVar("b", 0), N(1), N(2)), ReturnIf(T(true), N(3), N(4));
    InstLeaves(s);
    ReturnIfOpens(BVar("b", 0), N(1), N(2), 0, s);
    ReturnIfOpens(T(true), N(3), N(4), 0, s);
    Parts2(BlockExpr(TupleBlock), a, b, 0, s, N(0), "b");
    Parts1(ReturnExpr, N(3), 0, s, N(0), "b");
    ThenParts(TupleReturned(BVar("b", 0)), 0, s, "b");
  }

  lemma TupleReturn(env: Env)
    ensures Misled(env, TUPLE_RETURN, [BoolLit(true)])
  {
    hide PEval, Eval, ElabDecl, Inst, ThenFive, TupleReturned;
    Arguments(BoolLit(true), UNIT, UNIT);
    TupleReturnText();
    TupleReturnResidual(env);
    TupleReturnRuns(env);
    TupleReturnOpens();
    Shown(env, TUPLE_RETURN, ThenFive(TupleReturned(BVar("b", 0))), Part(false, ReturnOf(N(3))), [BoolLit(true)],
          [T(true)], ThenFive(TupleReturned(T(true))), ReturnOf(N(3)));
  }

  // ----- conditionals and bindings -----

  /** `fn f() { let x = if true { return 1 } else { 2 }; 2 }` is specialized to 2. */
  const UNUSED_LET: SDecl :=
    SDecl("f", [], Cons(SLet(["x"], TReturnIf(TBool(true), TInt(1), TInt(2))), Do(TInt(2))))

  function UnusedLetBody(): Expr {
    Node(Let(["x"]), Two(ReturnIf(T(true), N(1), N(2)), Closure("x", N(2))))
  }

  lemma UnusedLetText()
    ensures ElabDecl(UNUSED_LET) == Ok(Lambda(UNUSED_LET.params, UnusedLetBody()))
  {
    assert ElabBlock(UNUSED_LET.body, Names([])) == Ok(UnusedLetBody());
    Binds(UNUSED_LET, UnusedLetBody());
  }

  lemma UnusedLetResidual(env: Env)
    ensures PEval(env, UnusedLetBody(), false, FUEL) == Ok(Part(true, N(2)))
  {}

  lemma UnusedLetRuns(env: Env)
    ensures Eval(env, UnusedLetBody(), DEPTH) == Ok(ReturnOf(N(1))) && Eval(env, N(2), DEPTH) == Ok(N(2))
  {}

  lemma UnusedLet(env: Env)
    ensures Misled(env, UNUSED_LET, [])
  {
    hide PEval, Eval, ElabDecl;
    Arguments(UNIT, UNIT, UNIT);
    UnusedLetText();
    UnusedLetResidual(env);
    UnusedLetRuns(env);
    hide ReturnIf;
    ReturnIfOpens(T(true), N(1), N(2), 0, []);
    Shown(env, UNUSED_LET, UnusedLetBody(), Part(true, N(2)), [], [], UnusedLetBody(), N(2));
  }

  /** `fn f(b) { if (if b { return 1 } else { true }) { 2 } else { 2 } }` is specialized
      to 2. */
  const TEST_DROPPED: SDecl :=
    SDecl("f", ["b"], Do(SIf(TReturnIf(SIdent("b"), TInt(1), TBool(true)), Do(TInt(2)), Some(Do(TInt(2))))))

  function TestDroppedBody(b: Expr): Expr {
    Node(IfExpr, Three(ReturnIf(b, N(1), T(true)), N(2), N(2)))
  }

  lemma TestDroppedText()
    ensures ElabDecl(TEST_DROPPED) == Ok(Lambda(TEST_DROPPED.params, TestDroppedBody(BVar("b", 0))))
  {
    assert ElabBlock(TEST_DROPPED.body, Names(["b"])) == Ok(TestDroppedBody(Var("b")));
    Binds(TEST_DROPPED, TestDroppedBody(Var("b")));
    assert Abs(TestDroppedBody(Var("b")), 0, "b") == TestDroppedBody(BVar("b", 0));
  }

  lemma TestDroppedResidual(env: Env)
    ensures PEval(env, TestDroppedBody(BVar("b", 0)), false, FUEL) == Ok(Part(true, N(2)))
  {
    hide Simplify, ReturnIf;
    ReturnIfResidual(env, BVar("b", 0), N(1), T(true), false, 23);
  }

  lemma TestDroppedRuns(env: Env)
    ensures Eval(env, TestDroppedBody(Lit(BoolLit(true))), DEPTH) == Ok(ReturnOf(N(1)))
        && Eval(env, N(2), DEPTH) == Ok(N(2))
  {}

  lemma TestDropped(env: Env)
    ensures Misled(env, TEST_DROPPED, [BoolLit(true)])
  {
    hide PEval, Eval, ElabDecl;
    Arguments(BoolLit(true), UNIT, UNIT);
    TestDroppedText();
    TestDroppedResidual(env);
    TestDroppedRuns(env);
    hide ReturnIf;
    ReturnIfOpens(BVar("b", 0), N(1), T(true), 0, [T(true)]);
    Shown(env, TEST_DROPPED, TestDroppedBody(BVar("b", 0)), Part(true, N(2)), [BoolLit(true)],
          [Lit(BoolLit(true))], TestDroppedBody(Lit(BoolLit(true))), N(2));
  }

  /** `fn f(b, y) { if let Some(x) = (if b { return 1 } else { y }) { 2 } else { 2 } }`
      is specialized to 2. */
  const SOME_TEST_DROPPED: SDecl :=
    SDecl("f", ["b", "y"],
          Do(SIfSome("x", TReturnIf(SIdent("b"), TInt(1), SIdent("y")), Do(TInt(2)), Some(Do(TInt(2))))))

  function SomeTestDroppedBody(b: Expr, y: Expr): Expr {
    Node(IfSomeMatchExpr, Three(ReturnIf(b, N(1), y), Closure("x", N(2)), N(2)))
  }

  lemma SomeTestDroppedElab()
    ensures ElabBlock(SOME_TEST_DROPPED.body, Names(["b", "y"])) == Ok(SomeTestDroppedBody(Var("b"), Var("y")))
  {}

  lemma SomeTestDroppedText()
    ensures ElabDecl(SOME_TEST_DROPPED)
        == Ok(Lambda(SOME_TEST_DROPPED.params, SomeTestDroppedBody(BVar("b", 1), BVar("y", 0))))
  {
    hide ElabBlock, Elab, ElabDecl;
    SomeTestDroppedElab();
    Binds(SOME_TEST_DROPPED, SomeTestDroppedBody(Var("b"), Var("y")));
    assert Abs(SomeTestDroppedBody(Var("b"), Var("y")), 0, "y") == SomeTestDroppedBody(Var("b"), BVar("y", 0));
    assert Abs(SomeTestDroppedBody(Var("b"), BVar("y", 0)), 1, "b") == SomeTestDroppedBody(BVar("b", 1), BVar("y", 0));
  }

  lemma SomeTestDroppedResidual(env: Env)
    ensures PEval(env, SomeTestDroppedBody(BVar("b", 1), BVar("y", 0)), false, FUEL) == Ok(Part(true, N(2)))
  {
    hide Simplify, ReturnIf;
    ReturnIfResidual(env, BVar("b", 1), N(1), BVar("y", 0), false, 23);
  }

  const NO_VALUE: Literal := TupleLit([])

  lemma SomeTestDroppedRuns(env: Env)
    ensures Eval(env, SomeTestDroppedBody(Lit(BoolLit(true)), Lit(NO_VALUE)), DEPTH) == Ok(ReturnOf(N(1)))
        && Eval(env, N(2), DEPTH) == Ok(N(2))
  {}

  lemma SomeTestDropped(env: Env)
    ensures Misled(env, SOME_TEST_DROPPED, [BoolLit(true), NO_VALUE])
  {
    hide PEval, Eval, ElabDecl;
    Arguments(BoolLit(true), NO_VALUE, UNIT);
    SomeTestDroppedText();
    SomeTestDroppedResidual(env);
    SomeTestDroppedRuns(env);
    hide ReturnIf;
    var s := [Lit(NO_VALUE), T(true)];
    ReturnIfOpens(BVar("b", 1), N(1), BVar("y", 0), 0, s);
    Inst3(IfSomeMatchExpr, ReturnIf(BVar("b", 1), N(1), BVar("y", 0)), Closure("x", N(2)), N(2), s);
    Shown(env, SOME_TEST_DROPPED, SomeTestDroppedBody(BVar("b", 1), BVar("y", 0)), Part(true, N(2)),
          [BoolLit(true), NO_VALUE], s, SomeTestDroppedBody(T(true), Lit(NO_VALUE)), N(2));
  }

  /** `fn f(x) { let y = x; if true { 1 } else { y } }` is specialized to a `let` without
      its closure. */
  const LET_BINDER_DROPPED: SDecl :=
    SDecl("f", ["x"], Cons(SLet(["y"], SIdent("x")), Do(SIf(TBool(true), Do(TInt(1)), Some(Do(SIdent("y")))))))

  function LetBinderDroppedBody(x: Expr): Expr {
    Node(Let(["y"]), Two(x, Closure("y", Node(IfExpr, Three(T(true), N(1), BVar("y", 0))))))
  }

  lemma LetBinderDroppedElab()
    ensures ElabBlock(LET_BINDER_DROPPED.body, Names(["x"])) == Ok(LetBinderDroppedBody(Var("x")))
  {
    var pick, inner := TPick(TBool(true), Do(TInt(1)), Do(SIdent("y"))), Names(["x"]) + Names(["y"]);
    LetUnfolds("y", SIdent("x"), Do(pick), Names(["x"]));
    TextLeaves();
    hide Elab, ElabBlock;
    assert "x" in Names(["x"]) && "y" in inner;
    PickText(TBool(true), Do(TInt(1)), Do(SIdent("y")), inner, T(true), N(1), Var("y"));
    CloseTwo(Pick(T(true), N(1), Var("y")), "x", "y");
    Parts3(IfExpr, T(true), N(1), Var("y"), 0, [], N(1), "y");
    AbsLeaves();
  }

  lemma LetBinderDroppedText()
    ensures ElabDecl(LET_BINDER_DROPPED) == Ok(Lambda(LET_BINDER_DROPPED.params, LetBinderDroppedBody(BVar("x", 0))))
  {
    hide ElabBlock, Elab, ElabDecl;
    LetBinderDroppedElab();
    Binds(LET_BINDER_DROPPED, LetBinderDroppedBody(Var("x")));
    assert Abs(LetBinderDroppedBody(Var("x")), 0, "x") == LetBinderDroppedBody(BVar("x", 0));
  }

  lemma LetBinderDroppedResidual(env: Env)
    ensures PEval(env, LetBinderDroppedBody(BVar("x", 0)), false, FUEL)
        == Ok(Part(false, Node(Let(["y"]), Two(BVar("x", 0), N(1)))))
  {}

  lemma LetBinderDroppedRuns(env: Env, x: Expr)
    requires x == Lit(L(5))
    ensures Eval(env, LetBinderDroppedBody(x), DEPTH) == Ok(N(1))
        && Eval(env, Node(Let(["y"]), Two(x, N(1))), DEPTH).Err?
  {}

  lemma LetBinderDropped(env: Env)
    ensures Misled(env, LET_BINDER_DROPPED, [L(5)])
  {
    hide PEval, Eval, ElabDecl;
    var x := Lit(L(5));
    Arguments(L(5), UNIT, UNIT);
    LetBinderDroppedText();
    LetBinderDroppedResidual(env);
    LetBinderDroppedRuns(env, x);
    var kept := Node(IfExpr, Three(T(true), N(1), BVar("y", 0)));
    InstClosed(Closure("y", kept), 0, [x]);
    Inst2(Let(["y"]), BVar("x", 0), Closure("y", kept), [x]);
    Inst2(Let(["y"]), BVar("x", 0), N(1), [x]);
    Shown(env, LET_BINDER_DROPPED, LetBinderDroppedBody(BVar("x", 0)),
          Part(false, Node(Let(["y"]), Two(BVar("x", 0), N(1)))), [L(5)], [x],
          LetBinderDroppedBody(x), Node(Let(["y"]), Two(x, N(1))));
  }

  // ----- calls -----

  /** With `fn f(a) { 5 }`, `fn g(b) { f(if b { return 1 } else { 2 }) }` is specialized
      to 5. */
  const ARGUMENT_LOST: SDecl :=
    SDecl("g", ["b"], Do(SCall("f", Cons(TReturnIf(SIdent("b"), TInt(1), TInt(2)), Nil), false)))

  const FIVE: SDecl := SDecl("f", ["a"], Do(TInt(5)))

  lemma FiveText()
    ensures ElabDecl(FIVE) == Ok(Closure("a", N(5)))
  {}

  function ArgumentLostBody(b: Expr): Expr {
    Call("f", One(ReturnIf(b, N(1), N(2))))
  }

  lemma ArgumentLostText()
    ensures ElabDecl(ARGUMENT_LOST) == Ok(Lambda(ARGUMENT_LOST.params, ArgumentLostBody(BVar("b", 0))))
  {
    assert ElabBlock(ARGUMENT_LOST.body, Names(["b"])) == Ok(ArgumentLostBody(Var("b")));
    Binds(ARGUMENT_LOST, ArgumentLostBody(Var("b")));
    assert Abs(ArgumentLostBody(Var("b")), 0, "b") == ArgumentLostBody(BVar("b", 0));
  }

  lemma ArgumentLostResidual(env: Env)
    requires "f" in env.code && ElabDecl(FIVE) == Ok(env.code["f"])
    ensures PEval(env, ArgumentLostBody(BVar("b", 0)), false, FUEL) == Ok(Part(false, N(5)))
  {
    var ps := Cons(Part(false, ReturnIfKept(BVar("b", 0), N(1), N(2))), Nil);
    FiveText();
    ReturnIfResidual(env, BVar("b", 0), N(1), N(2), false, 23);
    hide ReturnIf;
    assert PEvalList(env, One(ReturnIf(BVar("b", 0), N(1), N(2))), false, 23) == Ok(ps);
    assert Residuals(ps) == One(ReturnIfKept(BVar("b", 0), N(1), N(2)));
    hide PEvalList;
    CallInlined(env, "f", One(ReturnIf(BVar("b", 0), N(1), N(2))), ps, N(5), Part(true, N(5)), FUEL);
  }

  lemma ArgumentLostRuns(env: Env)
    requires "f" in env.code && ElabDecl(FIVE) == Ok(env.code["f"])
    ensures Eval(env, ArgumentLostBody(Lit(BoolLit(true))), DEPTH) == Ok(ReturnOf(N(1)))
        && Eval(env, N(5), DEPTH) == Ok(N(5))
  {
    hide ReturnIf;
    ReturnIfRuns(env, N(1), N(2), DEPTH);
    var args := One(ReturnIf(T(true), N(1), N(2)));
    assert EvalList(env, args, DEPTH) == Ok(One(ReturnOf(N(1))));
    assert EvalNode(env, CallExpr("f", false), args, DEPTH) == EvalCallExpr(env, "f", false, args, DEPTH);
  }

  lemma ArgumentLost(env: Env)
    requires "f" in env.code && ElabDecl(FIVE) == Ok(env.code["f"])
    ensures Misled(env, ARGUMENT_LOST, [BoolLit(true)])
  {
    hide PEval, Eval, ElabDecl;
    Arguments(BoolLit(true), UNIT, UNIT);
    ArgumentLostText();
    ArgumentLostResidual(env);
    ArgumentLostRuns(env);
    hide ReturnIf;
    ReturnIfOpens(BVar("b", 0), N(1), N(2), 0, [T(true)]);
    Shown(env, ARGUMENT_LOST, ArgumentLostBody(BVar("b", 0)), Part(false, N(5)), [BoolLit(true)],
          [Lit(BoolLit(true))], ArgumentLostBody(Lit(BoolLit(true))), N(5));
  }

  /** `fn g(b) { f(if b { return 1 } else { 2 }, if true { return 3 } else { 4 }) }` is
      specialized to `return 3`. */
  const ARGUMENT_RETURN: SDecl :=
    SDecl("g", ["b"], Do(SCall("f", Cons(TReturnIf(SIdent("b"), TInt(1), TInt(2)),
                                         Cons(TReturnIf(TBool(true), TInt(3), TInt(4)), Nil)), false)))

  function ReturnArgs(b: Expr): List<Expr> { Two(ReturnIf(b, N(1), N(2)), ReturnIf(T(true), N(3), N(4))) }

  lemma ArgumentReturnText()
    ensures ElabDecl(ARGUMENT_RETURN) == Ok(Lambda(ARGUMENT_RETURN.params, Call("f", ReturnArgs(BVar("b", 0)))))
  {
    hide Elab, ElabBlock, ElabDecl, TReturnIf, ReturnIf;
    var ctxt, p, q := Names(["b"]), TReturnIf(SIdent("b"), TInt(1), TInt(2)), TReturnIf(TBool(true), TInt(3), TInt(4));
    TextLeaves();
    ReturnIfText(SIdent("b"), 1, TInt(2), ctxt, Var("b"), N(2));
    ReturnIfText(TBool(true), 3, TInt(4), ctxt, T(true), N(4));
    CallText("f", p, q, ctxt, ReturnIf(Var("b"), N(1), N(2)), ReturnIf(T(true), N(3), N(4)));
    Binds(ARGUMENT_RETURN, Call("f", ReturnArgs(Var("b"))));
    ReturnArgsBind();
    Parts2(CallExpr("f", false), ReturnIf(Var("b"), N(1), N(2)), ReturnIf(T(true), N(3), N(4)), 0, [], N(0), "b");
  }

  lemma CallText(f: string, a: SExpr, b: SExpr, ctxt: set<string>, a': Expr, b': Expr)
    requires Elab(a, ctxt) == Ok(a') && Elab(b, ctxt) == Ok(b')
    ensures Elab(SCall(f, Cons(a, Cons(b, Nil)), false), ctxt) == Ok(Call(f, Two(a', b')))
  {
    assert ElabList(Nil, ctxt) == Ok(Nil);
    assert ElabList(Cons(b, Nil), ctxt) == Ok(One(b'));
  }

  lemma ReturnArgsBind()
    ensures Abs(ReturnIf(Var("b"), N(1), N(2)), 0, "b") == ReturnIf(BVar("b", 0), N(1), N(2))
    ensures Abs(ReturnIf(T(true), N(3), N(4)), 0, "b") == ReturnIf(T(true), N(3), N(4))
  {}

  lemma ArgumentReturnResidual(env: Env)
    ensures PEval(env, Call("f", ReturnArgs(BVar("b", 0))), false, FUEL) == Ok(Part(false, ReturnOf(N(3))))
  {
    hide PEval, ReturnIf;
    var args, p, q := ReturnArgs(BVar("b", 0)), Part(false, ReturnIfKept(BVar("b", 0), N(1), N(2))),
      Part(true, ReturnOf(N(3)));
    ReturnIfResidual(env, BVar("b", 0), N(1), N(2), false, 23);
    ReturnIfResidual(env, T(true), N(3), N(4), false, 23);
    TwoLeave(env, args.head, args.tail.head, p, q, 23);
    PartsTwo(p, q);
    FirstOfTwo(p.e, q.e);
    CallLeaves(env, "f", args, FUEL);
  }

  lemma CallLeaves(env: Env, f: string, args: List<Expr>, n: nat)
    requires n > 0
    ensures PEval(env, Call(f, args), false, n) == PEvalCall(env, f, false, args, false, n - 1)
  {
    assert PEvalNode(env, CallExpr(f, false), args, false, n - 1) == PEvalCall(env, f, false, args, false, n - 1);
  }

  lemma ArgumentReturnRuns(env: Env)
    ensures Eval(env, Call("f", ReturnArgs(T(true))), DEPTH) == Ok(ReturnOf(N(1)))
        && Eval(env, ReturnOf(N(3)), DEPTH) == Ok(ReturnOf(N(3)))
  {
    hide Eval, ReturnIf;
    var args, v, w := ReturnArgs(T(true)), ReturnOf(N(1)), ReturnOf(N(3));
    ReturnIfRuns(env, N(1), N(2), DEPTH);
    ReturnIfRuns(env, N(3), N(4), DEPTH);
    EvalValue(env, w, DEPTH);
    TwoGive(env, args.head, args.tail.head, v, w, DEPTH);
    FirstOfTwo(v, w);
    CallRunsFirst(env, "f", args, DEPTH);
  }

  lemma CallRunsFirst(env: Env, f: string, args: List<Expr>, k: nat)
    ensures Eval(env, Call(f, args), k) == EvalCallExpr(env, f, false, args, k)
  {
    assert EvalNode(env, CallExpr(f, false), args, k) == EvalCallExpr(env, f, false, args, k);
  }

  lemma ArgumentReturnOpens()
    ensures Inst(Call("f", ReturnArgs(BVar("b", 0))), 0, [T(true)]) == Call("f", ReturnArgs(T(true)))
    ensures Inst(ReturnOf(N(3)), 0, [T(true)]) == ReturnOf(N(3))
  {
    hide Inst, ReturnIf;
    var s, a, b := [T(true)], ReturnIf(BVar("b", 0), N(1), N(2)), ReturnIf(T(true), N(3), N(4));
    InstLeaves(s);
    ReturnIfOpens(BVar("b", 0), N(1), N(2), 0, s);
    ReturnIfOpens(T(true), N(3), N(4), 0, s);
    Parts2(CallExpr("f", false), a, b, 0, s, N(0), "b");
    Parts1(ReturnExpr, N(3), 0, s, N(0), "b");
  }

  lemma ArgumentReturn(env: Env)
    ensures Misled(env, ARGUMENT_RETURN, [BoolLit(true)])
  {
    hide PEval, Eval, ElabDecl, Inst, ReturnArgs;
    Arguments(BoolLit(true), UNIT, UNIT);
    ArgumentReturnText();
    ArgumentReturnResidual(env);
    ArgumentReturnRuns(env);
    ArgumentReturnOpens();
    Shown(env, ARGUMENT_RETURN, Call("f", ReturnArgs(BVar("b", 0))), Part(false, ReturnOf(N(3))), [BoolLit(true)],
          [T(true)], Call("f", ReturnArgs(T(true))), ReturnOf(N(3)));
  }

  /** `fn g() { let x = f(); 2 }` is specialized to 2. If calls of f return, that is
      wrong; f does not even need a `return` that is not in the operand of another one
      or in a fold. */
  const UNUSED_CALL: SDecl := SDecl("g", [], Cons(SLet(["x"], SCall("f", Nil, false)), Do(TInt(2))))

  function UnusedCall(): Expr { Node(Let(["x"]), Two(Call("f", Nil), Closure("x", N(2)))) }

  lemma UnusedCallText()
    ensures ElabDecl(UNUSED_CALL) == Ok(UnusedCall())
  {}

  lemma UnusedCallResidual(env: Env)
    ensures PEval(env, UnusedCall(), false, FUEL) == Ok(Part(true, N(2)))
  {
    var es := Two(Call("f", Nil), Closure("x", N(2)));
    LitGives(env, L(2), 0, 23);
    assert PEvalNode(env, Let(["x"]), es, false, 23) == PEvalLet(env, ["x"], es, false, 23);
    hide PEval;
    assert AtDepth(Closure("x", N(2)), 1) == Some(N(2)) && AllFree(N(2), 0) && AllFree(N(2), 1);
    assert Units(0) == Nil && Units(1) == One(Lit(UNIT));
    assert ApplyAll(Closure("x", N(2)), One(Lit(UNIT))) == Ok(N(2));
  }

  lemma UnusedCallMisled(env: Env)
    requires Eval(env, Call("f", Nil), DEPTH) == Ok(ReturnOf(N(1)))
    ensures Misled(env, UNUSED_CALL, [])
  {
    var es := Two(Call("f", Nil), Closure("x", N(2)));
    assert EvalNode(env, Let(["x"]), es, DEPTH) == EvalLet(env, ["x"], es, DEPTH);
    LitGives(env, L(2), DEPTH, 1);
    hide PEval, Eval, ElabDecl;
    Arguments(UNIT, UNIT, UNIT);
    UnusedCallText();
    UnusedCallResidual(env);
    assert InstList(Nil, 0, []) == Nil;
    Inst2(Let(["x"]), Call("f", Nil), Closure("x", N(2)), []);
    Shown(env, UNUSED_CALL, UnusedCall(), Part(true, N(2)), [], [], UnusedCall(), N(2));
  }

  /** `fn f() { return if true { return 1 } else { 2 } }` */
  const RETURNS_TWICE: SDecl := SDecl("f", [], Ret(TReturnIf(TBool(true), TInt(1), TInt(2))))

  function ReturnsTwice(): Expr { Node(BlockExpr(StmtBlock), One(ReturnOf(ReturnIf(T(true), N(1), N(2))))) }

  lemma ReturnsTwiceText()
    ensures ElabDecl(RETURNS_TWICE) == Ok(ReturnsTwice())
  {}

  lemma ReturnsTwiceRuns(env: Env, k: nat)
    ensures Eval(env, ReturnsTwice(), k) == Ok(ReturnOf(ReturnOf(N(1))))
  {
    var e := ReturnOf(ReturnIf(T(true), N(1), N(2)));
    ReturnIfRuns(env, N(1), N(2), k);
    hide ReturnIf;
    assert Eval(env, e, k) == Ok(ReturnOf(ReturnOf(N(1))));
    assert EvalBlock(env, One(e), k) == Eval(env, e, k);
    assert EvalNode(env, BlockExpr(StmtBlock), One(e), k) == EvalBlock(env, One(e), k);
  }

  lemma NestedReturn(env: Env)
    requires "f" in env.code && ElabDecl(RETURNS_TWICE) == Ok(env.code["f"])
    ensures Misled(env, UNUSED_CALL, [])
  {
    hide Eval, ElabDecl, ReturnsTwice;
    ReturnsTwiceText();
    ReturnsTwiceRuns(env, DEPTH - 1);
    CallGives(env, "f", Nil, ReturnsTwice(), ReturnOf(ReturnOf(N(1))));
    UnusedCallMisled(env);
  }

  /** `fn f() { fold x in [1] { return acc } where acc = (if true { return 1 } else { 0 }) }` */
  const RETURNS_START: SDecl :=
    SDecl("f", [],
          Do(SIter(Fold, ["x"], TList1(1), Ret(SIdent("acc")),
                   Some(("acc", TReturnIf(TBool(true), TInt(1), TInt(0)))))))

  function ReturnBlock(e: Expr): Expr { Node(BlockExpr(StmtBlock), One(ReturnOf(e))) }

  function ReturnsStart(): Expr {
    IterNode(Fold, ["x"], Some("acc"), List1(1), Closure("acc", Closure("x", ReturnBlock(BVar("acc", 1)))),
             Some(ReturnIf(T(true), N(1), N(0))))
  }

  lemma ReturnsStartText()
    ensures ElabDecl(RETURNS_START) == Ok(ReturnsStart())
  {
    var ctxt, start := {} + Names(["x"]) + {"acc"}, TReturnIf(TBool(true), TInt(1), TInt(0));
    assert Names([]) == {};
    assert ElabBlock(Ret(SIdent("acc")), ctxt) == Ok(ReturnBlock(Var("acc")));
    assert Elab(start, {}) == Ok(ReturnIf(T(true), N(1), N(0)));
    FoldText("x", "acc", TList1(1), start, Ret(SIdent("acc")), {}, List1(1), ReturnIf(T(true), N(1), N(0)),
             ReturnBlock(Var("acc")));
    assert Abs(Abs(ReturnBlock(Var("acc")), 0, "x"), 1, "acc") == ReturnBlock(BVar("acc", 1));
    Binds(RETURNS_START, ReturnsStart());
  }

  lemma ReturnsStartRuns(env: Env, k: nat)
    ensures Eval(env, ReturnsStart(), k) == Ok(ReturnOf(ReturnOf(N(1))))
  {
    hide Eval, EvalApplied, ApplyAll, ReturnIf;
    var r, body := ReturnOf(N(1)), Closure("acc", Closure("x", ReturnBlock(BVar("acc", 1))));
    Listed(env, L(1), L(1), k, 2);
    ReturnIfRuns(env, N(1), N(0), k);
    assert Subst(ReturnBlock(BVar("acc", 1)), 1, r, true) == ReturnBlock(r)
      && Subst(ReturnBlock(r), 0, N(1), true) == ReturnBlock(r);
    FoldApplied("acc", "x", ReturnBlock(BVar("acc", 1)), r, N(1), ReturnBlock(r), ReturnBlock(r));
    AppliedGives(env, body, Two(r, N(1)), ReturnBlock(r), k, 1);
    ReturnBlockRuns(env, r, k);
    LoopGives(env, "x", L(1), L(1), body, Some(r), ReturnOf(r), r, k);
    IterGives(env, Fold, "x", Some("acc"), List1(1), body, Some(ReturnIf(T(true), N(1), N(0))), Some(r), [L(1)],
              One(ReturnOf(r)), Some(ReturnOf(r)), k);
  }

  lemma ReturnBlockRuns(env: Env, v: Expr, k: nat)
    requires IsValue(v)
    ensures Eval(env, ReturnBlock(v), k) == Ok(ReturnOf(v))
  {
    EvalValue(env, ReturnOf(v), k);
    assert EvalBlock(env, One(ReturnOf(v)), k) == Ok(ReturnOf(v));
    assert EvalNode(env, BlockExpr(StmtBlock), One(ReturnOf(v)), k) == EvalBlock(env, One(ReturnOf(v)), k);
  }

  lemma NestedStart(env: Env)
    requires "f" in env.code && ElabDecl(RETURNS_START) == Ok(env.code["f"])
    ensures Misled(env, UNUSED_CALL, [])
  {
    hide Eval, ElabDecl, ReturnsStart;
    ReturnsStartText();
    ReturnsStartRuns(env, DEPTH - 1);
    CallGives(env, "f", Nil, ReturnsStart(), ReturnOf(ReturnOf(N(1))));
    UnusedCallMisled(env);
  }

  /** With `fn f(a) { if a { return 1 }; 2 }`, `fn g(b) { f(b) + 1 }` is specialized to
      `{ if b { return 1 }; 2 } + 1`. */
  const INLINED_RETURN: SDecl :=
    SDecl("g", ["b"], Do(SInfix(Plus, SCall("f", Cons(SIdent("b"), Nil), false), TInt(1))))

  const MAY_RETURN: SDecl := SDecl("f", ["a"], Cons(SDo(SIf(SIdent("a"), Ret(TInt(1)), None), true), Do(TInt(2))))

  function MayReturn(a: Expr): Expr {
    Node(BlockExpr(StmtBlock), Two(Node(IfExpr, Two(a, Node(BlockExpr(StmtBlock), One(ReturnOf(N(1)))))), N(2)))
  }

  function MayReturnKept(a: Expr): Expr {
    Node(BlockExpr(StmtBlock), Two(Node(IfExpr, Two(a, ReturnOf(N(1)))), N(2)))
  }

  lemma MayReturnText()
    ensures ElabDecl(MAY_RETURN) == Ok(Closure("a", MayReturn(BVar("a", 0))))
  {}

  lemma MayReturnApplied(u: Expr)
    requires u == T(true) || u == BVar("b", 0)
    ensures ApplyAll(Closure("a", MayReturn(BVar("a", 0))), One(u)) == Ok(MayReturn(u))
  {
    assert Subst(MayReturn(BVar("a", 0)), 0, T(true), true) == MayReturn(T(true));
    assert Subst(MayReturn(BVar("a", 0)), 0, BVar("b", 0), true) == MayReturn(BVar("b", 0));
  }

  lemma MayReturnOpens(s: seq<Expr>)
    requires s == [T(true)]
    ensures Inst(MayReturnKept(BVar("b", 0)), 0, s) == MayReturnKept(T(true))
  {
    InstClosed(ReturnOf(N(1)), 0, s);
    Inst2(IfExpr, BVar("b", 0), ReturnOf(N(1)), s);
    Inst2(BlockExpr(StmtBlock), Node(IfExpr, Two(BVar("b", 0), ReturnOf(N(1)))), N(2), s);
  }

  lemma InlinedSum()
    ensures var e := MayReturnKept(BVar("b", 0));
      Simplify(Plus, Part(false, e), Part(true, N(1))) == Ok(Part(false, Infixed(Plus, e, N(1)))) && !IsReturn(e)
        && StripReturn(e) == e
  {}

  lemma MayReturnRuns(env: Env)
    ensures Eval(env, MayReturn(T(true)), DEPTH - 1) == Ok(ReturnOf(N(1)))
    ensures Eval(env, MayReturnKept(T(true)), DEPTH) == Ok(ReturnOf(N(1)))
  {}

  lemma MayReturnResidual(env: Env)
    ensures PEval(env, MayReturn(BVar("b", 0)), false, 22) == Ok(Part(false, MayReturnKept(BVar("b", 0))))
  {
    var block := Node(BlockExpr(StmtBlock), One(ReturnOf(N(1))));
    var test := Node(IfExpr, Two(BVar("b", 0), ReturnOf(N(1))));
    assert PEval(env, Node(IfExpr, Two(BVar("b", 0), block)), false, 21) == Ok(Part(false, test));
    assert PEval(env, Node(BlockExpr(StmtBlock), One(N(2))), true, 21) == Ok(Part(true, N(2)));
  }

  function InlinedReturnBody(b: Expr): Expr {
    Infixed(Plus, Call("f", One(b)), N(1))
  }

  lemma InlinedReturnText()
    ensures ElabDecl(INLINED_RETURN) == Ok(Lambda(INLINED_RETURN.params, InlinedReturnBody(BVar("b", 0))))
  {
    assert ElabBlock(INLINED_RETURN.body, Names(["b"])) == Ok(InlinedReturnBody(Var("b")));
    Binds(INLINED_RETURN, InlinedReturnBody(Var("b")));
    assert Abs(InlinedReturnBody(Var("b")), 0, "b") == InlinedReturnBody(BVar("b", 0));
  }

  lemma InlinedReturnResidual(env: Env)
    requires "f" in env.code && ElabDecl(MAY_RETURN) == Ok(env.code["f"])
    ensures PEval(env, InlinedReturnBody(BVar("b", 0)), false, FUEL)
        == Ok(Part(false, Infixed(Plus, MayReturnKept(BVar("b", 0)), N(1))))
  {
    hide PEval, PEvalCall, ElabDecl, MayReturn, MayReturnKept, Simplify, ApplyAll;
    var b, ps := BVar("b", 0), Cons(Part(false, BVar("b", 0)), Nil);
    MayReturnText();
    MayReturnApplied(b);
    MayReturnResidual(env);
    VarLeaves(env, b, 22);
    PartsTwo(ps.head, ps.head);
    CallInlined(env, "f", One(b), ps, MayReturn(b), Part(false, MayReturnKept(b)), 23);
    LitGives(env, L(1), 0, 23);
    InlinedSum();
    InfixLeaves(env, Plus, Call("f", One(b)), N(1), Part(false, MayReturnKept(b)), Part(true, N(1)), 24);
  }

  lemma InlinedReturnRuns(env: Env)
    requires "f" in env.code && ElabDecl(MAY_RETURN) == Ok(env.code["f"])
    ensures Eval(env, InlinedReturnBody(Lit(BoolLit(true))), DEPTH) == Ok(N(2))
        && Eval(env, Infixed(Plus, MayReturnKept(T(true)), N(1)), DEPTH) == Ok(ReturnOf(N(1)))
  {
    hide Eval, ElabDecl, ApplyAll, MayReturn, MayReturnKept;
    MayReturnText();
    MayReturnApplied(T(true));
    MayReturnRuns(env);
    CallGives(env, "f", One(T(true)), MayReturn(T(true)), ReturnOf(N(1)));
    LitGives(env, L(1), DEPTH, 1);
    InfixGives(env, Plus, Call("f", One(T(true))), N(1), DEPTH, N(1), N(1));
    InfixGives(env, Plus, MayReturnKept(T(true)), N(1), DEPTH, ReturnOf(N(1)), N(1));
  }

  lemma InlinedReturn(env: Env)
    requires "f" in env.code && ElabDecl(MAY_RETURN) == Ok(env.code["f"])
    ensures Misled(env, INLINED_RETURN, [BoolLit(true)])
  {
    hide PEval, Eval, ElabDecl;
    Arguments(BoolLit(true), UNIT, UNIT);
    InlinedReturnText();
    InlinedReturnResidual(env);
    InlinedReturnRuns(env);
    var b, s := BVar("b", 0), [T(true)];
    Inst1(CallExpr("f", false), b, s);
    Inst2(InfixExpr(Plus), Call("f", One(b)), N(1), s);
    MayReturnOpens(s);
    Inst2(InfixExpr(Plus), MayReturnKept(b), N(1), s);
    hide MayReturnKept;
    Shown(env, INLINED_RETURN, InlinedReturnBody(BVar("b", 0)),
          Part(false, Infixed(Plus, MayReturnKept(BVar("b", 0)), N(1))), [BoolLit(true)], [Lit(BoolLit(true))],
          InlinedReturnBody(Lit(BoolLit(true))), Infixed(Plus, MayReturnKept(T(true)), N(1)));
  }

  /** With `fn f(a, b, c) { a }`, `fn g(x, y, z) { f(x, y, z) }` is specialized to y: x
      goes below two binders. */
  const DEEP_ARGUMENT: SDecl :=
    SDecl("g", ["x", "y", "z"], Do(SCall("f", Cons(SIdent("x"), Cons(SIdent("y"), Cons(SIdent("z"), Nil))), false)))

  const FIRST: SDecl := SDecl("f", ["a", "b", "c"], Do(SIdent("a")))

  function FirstCode(): Expr { Closure("a", Closure("b", Closure("c", BVar("a", 2)))) }

  lemma FirstText()
    ensures ElabDecl(FIRST) == Ok(FirstCode())
  {
    Binds(FIRST, Var("a"));
    assert Lambda(["a", "b", "c"], BVar("a", 2)) == FirstCode();
  }

  lemma FirstApplied()
    ensures ApplyAll(FirstCode(), Three(N(1), N(2), N(3))) == Ok(N(1))
    ensures ApplyAll(FirstCode(), Three(BVar("x", 2), BVar("y", 1), BVar("z", 0))) == Ok(BVar("x", 1))
  {}

  function DeepArgumentBody(x: Expr, y: Expr, z: Expr): Expr {
    Call("f", Three(x, y, z))
  }

  lemma DeepArgumentElab()
    ensures ElabBlock(DEEP_ARGUMENT.body, Names(["x", "y", "z"])) == Ok(DeepArgumentBody(Var("x"), Var("y"), Var("z")))
  {}

  lemma DeepArgumentText()
    ensures ElabDecl(DEEP_ARGUMENT)
        == Ok(Lambda(DEEP_ARGUMENT.params, DeepArgumentBody(BVar("x", 2), BVar("y", 1), BVar("z", 0))))
  {
    hide ElabBlock, Elab, ElabDecl;
    DeepArgumentElab();
    Binds(DEEP_ARGUMENT, DeepArgumentBody(Var("x"), Var("y"), Var("z")));
    assert Abs(DeepArgumentBody(Var("x"), Var("y"), Var("z")), 0, "z")
      == DeepArgumentBody(Var("x"), Var("y"), BVar("z", 0));
    assert Abs(DeepArgumentBody(Var("x"), Var("y"), BVar("z", 0)), 1, "y")
      == DeepArgumentBody(Var("x"), BVar("y", 1), BVar("z", 0));
    assert Abs(DeepArgumentBody(Var("x"), BVar("y", 1), BVar("z", 0)), 2, "x")
      == DeepArgumentBody(BVar("x", 2), BVar("y", 1), BVar("z", 0));
  }

  lemma DeepArgumentResidual(env: Env)
    requires "f" in env.code && ElabDecl(FIRST) == Ok(env.code["f"])
    ensures PEval(env, DeepArgumentBody(BVar("x", 2), BVar("y", 1), BVar("z", 0)), false, FUEL)
        == Ok(Part(false, BVar("x", 1)))
  {
    var x, y, z := BVar("x", 2), BVar("y", 1), BVar("z", 0);
    var ps := Cons(Part(false, x), Cons(Part(false, y), Cons(Part(false, z), Nil)));
    FirstText();
    FirstApplied();
    hide ElabDecl, ApplyAll;
    assert PEvalList(env, Three(x, y, z), false, 23) == Ok(ps);
    assert Residuals(ps) == Three(x, y, z);
    CallInlined(env, "f", Three(x, y, z), ps, BVar("x", 1), Part(false, BVar("x", 1)), FUEL);
  }

  lemma DeepArgumentRuns(env: Env)
    requires "f" in env.code && ElabDecl(FIRST) == Ok(env.code["f"])
    ensures Eval(env, DeepArgumentBody(Lit(L(1)), Lit(L(2)), Lit(L(3))), DEPTH) == Ok(N(1))
        && Eval(env, N(2), DEPTH) == Ok(N(2))
  {
    FirstText();
    FirstApplied();
    hide ElabDecl, ApplyAll;
    CallGives(env, "f", Three(N(1), N(2), N(3)), N(1), N(1));
  }

  lemma DeepArgument(env: Env)
    requires "f" in env.code && ElabDecl(FIRST) == Ok(env.code["f"])
    ensures Misled(env, DEEP_ARGUMENT, [L(1), L(2), L(3)])
  {
    hide PEval, Eval, ElabDecl;
    Arguments(L(1), L(2), L(3));
    DeepArgumentText();
    DeepArgumentResidual(env);
    DeepArgumentRuns(env);
    Inst3(CallExpr("f", false), BVar("x", 2), BVar("y", 1), BVar("z", 0), [N(3), N(2), N(1)]);
    Shown(env, DEEP_ARGUMENT, DeepArgumentBody(BVar("x", 2), BVar("y", 1), BVar("z", 0)),
          Part(false, BVar("x", 1)), [L(1), L(2), L(3)], [Lit(L(3)), Lit(L(2)), Lit(L(1))],
          DeepArgumentBody(Lit(L(1)), Lit(L(2)), Lit(L(3))), N(2));
  }

  // ----- iterations -----

  /** `fn f() { map x in [1] { x } }` is specialized to the empty list. */
  const RESULTS_DROPPED: SDecl :=
    SDecl("f", [], Do(SIter(Map, ["x"], TList1(1), Do(SIdent("x")), None)))

  function ResultsDroppedBody(): Expr {
    IterNode(Map, ["x"], None, List1(1), Closure("x", BVar("x", 0)), None)
  }

  lemma ResultsDroppedText()
    ensures ElabDecl(RESULTS_DROPPED) == Ok(Lambda(RESULTS_DROPPED.params, ResultsDroppedBody()))
  {
    assert ElabBlock(RESULTS_DROPPED.body, Names([])) == Ok(ResultsDroppedBody());
    Binds(RESULTS_DROPPED, ResultsDroppedBody());
  }

  lemma ResultsDroppedResidual(env: Env)
    ensures PEval(env, ResultsDroppedBody(), false, FUEL) == Ok(Part(true, Lit(ListLit([]))))
  {
    hide PEval, PEvalApplied;
    var body, p := Closure("x", BVar("x", 0)), Part(true, N(1));
    Listed(env, L(1), L(2), 0, 23);
    LitGives(env, L(1), 0, 23);
    AppliedGives(env, body, One(N(1)), N(1), 0, 23);
    LoopLeaves(env, "x", L(1), L(2), body, None, p, p, 23);
    IterLeaves(env, Map, "x", None, List1(1), body, None, None, [L(1)], Cons(p, Nil), None, FUEL);
    assert Residuals(Cons(p, Nil)) == One(N(1)) && AllKnown(Cons(p, Nil));
  }

  lemma ResultsDroppedRuns(env: Env)
    ensures Eval(env, ResultsDroppedBody(), DEPTH) == Ok(Lit(ListLit([L(1)])))
        && Eval(env, Lit(ListLit([])), DEPTH) == Ok(Lit(ListLit([])))
  {
    hide Eval, EvalApplied, IterResult;
    var body := Closure("x", BVar("x", 0));
    Listed(env, L(1), L(2), DEPTH, 2);
    LitGives(env, L(1), DEPTH, 1);
    LitGives(env, ListLit([]), DEPTH, 1);
    AppliedGives(env, body, One(N(1)), N(1), DEPTH, 1);
    LoopGives(env, "x", L(1), L(2), body, None, N(1), N(1), DEPTH);
    IterGives(env, Map, "x", None, List1(1), body, None, None, [L(1)], One(N(1)), None, DEPTH);
    OneResult(1, None);
  }

  lemma ResultsDropped(env: Env)
    ensures Misled(env, RESULTS_DROPPED, [])
  {
    hide PEval, Eval, ElabDecl;
    Arguments(UNIT, UNIT, UNIT);
    ResultsDroppedText();
    ResultsDroppedResidual(env);
    ResultsDroppedRuns(env);
    InstClosed(ResultsDroppedBody(), 0, []);
    Shown(env, RESULTS_DROPPED, ResultsDroppedBody(), Part(true, Lit(ListLit([]))), [], [],
          ResultsDroppedBody(), Lit(ListLit([])));
  }

  function TBools(): SExpr { SGroup(ListBlock, Cons(TBool(true), Cons(TBool(false), Nil))) }

  function Bools(): Expr { Node(BlockExpr(ListBlock), Two(T(true), T(false))) }

  const BOOLS: seq<Literal> := [BoolLit(true), BoolLit(false)]

  lemma BoolsListed(env: Env, k: nat, n: nat)
    requires n > 1
    ensures Eval(env, Bools(), k) == Ok(Lit(ListLit(BOOLS)))
        && PEval(env, Bools(), false, n) == Ok(Part(true, Lit(ListLit(BOOLS))))
  {
    Listed(env, BoolLit(true), BoolLit(false), k, n);
  }

  /** `fn f(b) { fold x in [true, false] { if x { if b { return 1 } else { 2 } } else { 7 } } where acc = 0 }`
      is specialized to 7. */
  const RETURN_OVERLOOKED: SDecl :=
    SDecl("f", ["b"], Do(SIter(Fold, ["x"], TBools(),
      Do(TPick(SIdent("x"), Do(TReturnIf(SIdent("b"), TInt(1), TInt(2))), Do(TInt(7)))), Some(("acc", TInt(0))))))

  function OverlookedStep(x: Expr, b: Expr): Expr { Pick(x, ReturnIf(b, N(1), N(2)), N(7)) }

  function OverlookedLoop(b: Expr): Expr { Closure("acc", Closure("x", OverlookedStep(BVar("x", 0), b))) }

  function OverlookedBody(b: Expr): Expr {
    IterNode(Fold, ["x"], Some("acc"), Bools(), OverlookedLoop(b), Some(N(0)))
  }

  lemma OverlookedElab()
    ensures ElabBlock(RETURN_OVERLOOKED.body, Names(["b"])) == Ok(OverlookedBody(Var("b")))
  {
    hide Elab, ElabBlock, TReturnIf, ReturnIf, TPick, Pick, TBools, Bools, CloseAll;
    var ctxt, inner := Names(["b"]) + Names(["x"]) + {"acc"}, TReturnIf(SIdent("b"), TInt(1), TInt(2));
    TextLeaves();
    ReturnIfText(SIdent("b"), 1, TInt(2), ctxt, Var("b"), N(2));
    PickText(SIdent("x"), Do(inner), Do(TInt(7)), ctxt, Var("x"), ReturnIf(Var("b"), N(1), N(2)), N(7));
    BoolsText(Names(["b"]));
    OverlookedBinds();
    var step := Do(TPick(SIdent("x"), Do(inner), Do(TInt(7))));
    FoldText("x", "acc", TBools(), TInt(0), step, Names(["b"]), Bools(), N(0), OverlookedStep(Var("x"), Var("b")));
  }

  lemma BoolsText(ctxt: set<string>)
    ensures Elab(TBools(), ctxt) == Ok(Bools())
  {
    assert ElabList(Nil, ctxt) == Ok(Nil);
    assert ElabList(Cons(TBool(false), Nil), ctxt) == Ok(One(T(false)));
  }

  lemma OverlookedBinds()
    ensures Abs(Abs(OverlookedStep(Var("x"), Var("b")), 0, "x"), 1, "acc") == OverlookedStep(BVar("x", 0), Var("b"))
  {
    assert Abs(OverlookedStep(Var("x"), Var("b")), 0, "x") == OverlookedStep(BVar("x", 0), Var("b"));
  }

  lemma OverlookedText()
    ensures ElabDecl(RETURN_OVERLOOKED) == Ok(Closure("b", OverlookedBody(BVar("b", 2))))
  {
    hide ElabBlock, Elab, ElabDecl, OverlookedStep, Bools;
    OverlookedElab();
    Binds(RETURN_OVERLOOKED, OverlookedBody(Var("b")));
    OverlookedClosed();
    BoolsBind();
    hide Abs;
    var step := OverlookedStep(BVar("x", 0), Var("b"));
    ClosureParts("x", step, 1, [], N(0), "b");
    ClosureParts("acc", Closure("x", step), 0, [], N(0), "b");
    Parts3(Iter(Fold, ["x"], Some("acc")), Bools(), OverlookedLoop(Var("b")), N(0), 0, [], N(0), "b");
    assert Lambda(["b"], OverlookedBody(BVar("b", 2))) == Closure("b", OverlookedBody(BVar("b", 2)));
  }

  lemma OverlookedClosed()
    ensures Abs(OverlookedStep(BVar("x", 0), Var("b")), 2, "b") == OverlookedStep(BVar("x", 0), BVar("b", 2))
    ensures Abs(N(0), 0, "b") == N(0)
  {}

  lemma OverlookedApplied(acc: Expr, x: bool, b: Expr)
    requires b == T(true) || b == BVar("b", 2)
    ensures ApplyAll(OverlookedLoop(b), Two(acc, T(x))) == Ok(OverlookedStep(T(x), if b.BVar? then BVar("b", 0) else b))
  {
    var c, d := if b.BVar? then BVar("b", 1) else b, if b.BVar? then BVar("b", 0) else b;
    ReturnIfSubst(b, N(1), N(2), 1, acc);
    ReturnIfSubst(c, N(1), N(2), 0, T(x));
    hide ReturnIf;
    Parts3(IfExpr, BVar("x", 0), ReturnIf(b, N(1), N(2)), N(7), 1, [], acc, "b");
    Parts3(IfExpr, BVar("x", 0), ReturnIf(c, N(1), N(2)), N(7), 0, [], T(x), "b");
    FoldApplied("acc", "x", OverlookedStep(BVar("x", 0), b), acc, T(x), OverlookedStep(BVar("x", 0), c),
                OverlookedStep(T(x), d));
  }

  lemma OverlookedResidual(env: Env)
    ensures PEval(env, OverlookedBody(BVar("b", 2)), false, FUEL) == Ok(Part(true, N(7)))
  {
    hide PEval, PEvalApplied, ApplyAll, Pick, ReturnIf, OverlookedLoop, Bools;
    var b, loop, p, q := BVar("b", 0), OverlookedLoop(BVar("b", 2)),
      Part(false, ReturnIfKept(BVar("b", 0), N(1), N(2))), Part(true, N(7));
    BoolsListed(env, 0, 23);
    OverlookedApplied(N(0), true, BVar("b", 2));
    OverlookedApplied(p.e, false, BVar("b", 2));
    AppliedGives(env, loop, Two(N(0), T(true)), OverlookedStep(T(true), b), 0, 23);
    AppliedGives(env, loop, Two(p.e, T(false)), OverlookedStep(T(false), b), 0, 23);
    ReturnIfResidual(env, b, N(1), N(2), false, 22);
    PickLeaves(env, b, ReturnIf(b, N(1), N(2)), N(7), 23);
    LitGives(env, L(0), 0, 23);
    LitGives(env, L(7), 0, 22);
    PartsTwo(p, q);
    LoopLeaves(env, "x", BoolLit(true), BoolLit(false), loop, Some(Part(true, N(0))), p, q, 23);
    IterLeaves(env, Fold, "x", Some("acc"), Bools(), loop, Some(N(0)), Some(Part(true, N(0))), BOOLS,
               Cons(p, Cons(q, Nil)), Some(q), FUEL);
  }

  lemma OverlookedRuns(env: Env)
    ensures Eval(env, OverlookedBody(T(true)), DEPTH) == Ok(ReturnOf(N(1))) && Eval(env, N(7), DEPTH) == Ok(N(7))
  {
    hide Eval, EvalApplied, ApplyAll, Pick, ReturnIf, OverlookedLoop, Bools;
    var loop, r := OverlookedLoop(T(true)), ReturnOf(N(1));
    BoolsListed(env, DEPTH, 2);
    OverlookedApplied(N(0), true, T(true));
    OverlookedApplied(r, false, T(true));
    AppliedGives(env, loop, Two(N(0), T(true)), OverlookedStep(T(true), T(true)), DEPTH, 1);
    AppliedGives(env, loop, Two(r, T(false)), OverlookedStep(T(false), T(true)), DEPTH, 1);
    ReturnIfRuns(env, N(1), N(2), DEPTH);
    PickGives(env, ReturnIf(T(true), N(1), N(2)), N(7), DEPTH);
    LitGives(env, L(0), DEPTH, 1);
    LitGives(env, L(7), DEPTH, 1);
    LoopGives(env, "x", BoolLit(true), BoolLit(false), loop, Some(N(0)), r, N(7), DEPTH);
    IterGives(env, Fold, "x", Some("acc"), Bools(), loop, Some(N(0)), Some(N(0)), BOOLS, Two(r, N(7)), Some(N(7)),
              DEPTH);
  }

  lemma ReturnOverlooked(env: Env)
    ensures Misled(env, RETURN_OVERLOOKED, [BoolLit(true)])
  {
    hide PEval, Eval, ElabDecl;
    Arguments(BoolLit(true), UNIT, UNIT);
    OverlookedText();
    OverlookedResidual(env);
    OverlookedRuns(env);
    OverlookedOpens();
    Shown(env, RETURN_OVERLOOKED, OverlookedBody(BVar("b", 2)), Part(true, N(7)), [BoolLit(true)], [Lit(BoolLit(true))],
          OverlookedBody(T(true)), N(7));
  }

  lemma OverlookedOpens()
    ensures Inst(OverlookedBody(BVar("b", 2)), 0, [T(true)]) == OverlookedBody(T(true))
  {
    var s, step := [T(true)], OverlookedStep(BVar("x", 0), BVar("b", 2));
    ReturnIfOpens(BVar("b", 2), N(1), N(2), 2, s);
    InstLeaves(s);
    BoolsBind();
    hide Inst, ReturnIf, Bools;
    Parts3(IfExpr, BVar("x", 0), ReturnIf(BVar("b", 2), N(1), N(2)), N(7), 2, s, N(0), "b");
    ClosureParts("x", step, 1, s, N(0), "b");
    ClosureParts("acc", Closure("x", step), 0, s, N(0), "b");
    IterOpens(Fold, "x", Some("acc"), Bools(), OverlookedLoop(BVar("b", 2)), Some(N(0)), s);
  }

  /** `fn f(b) { map x in [true, false] { if x { if b { return 1 } else { 2 } } else { return 3 } }; 5 }`
      is specialized to `return 3`. */
  const LATE_RETURN: SDecl :=
    SDecl("f", ["b"], TThen(SIter(Map, ["x"], TBools(),
      Do(TPick(SIdent("x"), Do(TReturnIf(SIdent("b"), TInt(1), TInt(2))), Ret(TInt(3)))), None)))

  function LateStep(x: Expr, b: Expr): Expr { Pick(x, ReturnIf(b, N(1), N(2)), RetBlock(3)) }

  function LateBody(b: Expr): Expr {
    IterNode(Map, ["x"], None, Bools(), Closure("x", LateStep(BVar("x", 0), b)), None)
  }

  lemma LateText()
    ensures ElabDecl(LATE_RETURN) == Ok(Closure("b", ThenFive(LateBody(BVar("b", 1)))))
  {
    hide Elab, ElabBlock, ElabDecl, TReturnIf, ReturnIf, TPick, LateStep, TBools, Bools, RetBlock, TThen, ThenFive;
    var ctxt, inner := Names(["b"]) + Names(["x"]), TReturnIf(SIdent("b"), TInt(1), TInt(2));
    var step := TPick(SIdent("x"), Do(inner), Ret(TInt(3)));
    TextLeaves();
    ReturnIfText(SIdent("b"), 1, TInt(2), ctxt, Var("b"), N(2));
    RetBlockText(3, ctxt);
    LateStepText(inner, ctxt);
    BoolsText(Names(["b"]));
    LateBinds();
    IterText(Map, "x", TBools(), Do(step), Names(["b"]), Bools(), LateStep(Var("x"), Var("b")));
    ThenText(SIter(Map, ["x"], TBools(), Do(step), None), Names(["b"]), LateBody(Var("b")));
    Binds(LATE_RETURN, ThenFive(LateBody(Var("b"))));
    ThenParts(LateBody(Var("b")), 0, [], "b");
    Parts2(Iter(Map, ["x"], None), Bools(), Closure("x", LateStep(BVar("x", 0), Var("b"))), 0, [], N(0), "b");
    ClosureParts("x", LateStep(BVar("x", 0), Var("b")), 0, [], N(0), "b");
    LambdaOne("b", ThenFive(LateBody(BVar("b", 1))));
  }

  lemma LateStepText(inner: SExpr, ctxt: set<string>)
    requires {"b", "x"} <= ctxt && Elab(inner, ctxt) == Ok(ReturnIf(Var("b"), N(1), N(2)))
    ensures Elab(TPick(SIdent("x"), Do(inner), Ret(TInt(3))), ctxt) == Ok(LateStep(Var("x"), Var("b")))
  {
    hide Elab, ElabBlock, TPick, ReturnIf, RetBlock;
    TextLeaves();
    RetBlockText(3, ctxt);
    PickText(SIdent("x"), Do(inner), Ret(TInt(3)), ctxt, Var("x"), ReturnIf(Var("b"), N(1), N(2)), RetBlock(3));
  }

  lemma LateBinds()
    ensures Abs(LateStep(Var("x"), Var("b")), 0, "x") == LateStep(BVar("x", 0), Var("b"))
    ensures Abs(LateStep(BVar("x", 0), Var("b")), 1, "b") == LateStep(BVar("x", 0), BVar("b", 1))
    ensures Abs(Bools(), 0, "b") == Bools()
  {
    RetBlockParts(3, 0, [], N(0), "x");
    RetBlockParts(3, 1, [], N(0), "b");
    ReturnIfBinds();
    hide RetBlock, ReturnIf;
    Parts3(IfExpr, Var("x"), ReturnIf(Var("b"), N(1), N(2)), RetBlock(3), 0, [], N(0), "x");
    Parts3(IfExpr, BVar("x", 0), ReturnIf(Var("b"), N(1), N(2)), RetBlock(3), 1, [], N(0), "b");
    Parts2(BlockExpr(ListBlock), T(true), T(false), 0, [], N(0), "b");
  }

  lemma ReturnIfBinds()
    ensures Abs(ReturnIf(Var("b"), N(1), N(2)), 0, "x") == ReturnIf(Var("b"), N(1), N(2))
    ensures Abs(ReturnIf(Var("b"), N(1), N(2)), 1, "b") == ReturnIf(BVar("b", 1), N(1), N(2))
  {}

  lemma LateApplied(x: bool, b: Expr)
    requires b == T(true) || b == BVar("b", 1)
    ensures ApplyAll(Closure("x", LateStep(BVar("x", 0), b)), One(T(x)))
         == Ok(LateStep(T(x), if b.BVar? then BVar("b", 0) else b))
  {
    var d := if b.BVar? then BVar("b", 0) else b;
    ReturnIfSubst(b, N(1), N(2), 0, T(x));
    RetBlockParts(3, 0, [], T(x), "x");
    SubstLeaves(T(x));
    hide ReturnIf, RetBlock, Subst;
    Parts3(IfExpr, BVar("x", 0), ReturnIf(b, N(1), N(2)), RetBlock(3), 0, [], T(x), "b");
    assert ApplyAll(LateStep(T(x), d), Nil) == Ok(LateStep(T(x), d));
  }

  lemma LateResidual(env: Env)
    ensures PEval(env, LateBody(BVar("b", 1)), false, FUEL - 1) == Ok(Part(false, ReturnOf(N(3))))
  {
    hide PEval, PEvalApplied, ApplyAll, Pick, ReturnIf, RetBlock, Bools;
    var b, loop, p, q := BVar("b", 0), Closure("x", LateStep(BVar("x", 0), BVar("b", 1))),
      Part(false, ReturnIfKept(BVar("b", 0), N(1), N(2))), Part(true, ReturnOf(N(3)));
    BoolsListed(env, 0, 22);
    LateApplied(true, BVar("b", 1));
    LateApplied(false, BVar("b", 1));
    AppliedGives(env, loop, One(T(true)), LateStep(T(true), b), 0, 22);
    AppliedGives(env, loop, One(T(false)), LateStep(T(false), b), 0, 22);
    ReturnIfResidual(env, b, N(1), N(2), false, 21);
    RetBlockRuns(env, 3, 0, 21);
    PickLeaves(env, b, ReturnIf(b, N(1), N(2)), RetBlock(3), 22);
    PartsTwo(p, q);
    LoopLeaves(env, "x", BoolLit(true), BoolLit(false), loop, None, p, q, 22);
    IterLeaves(env, Map, "x", None, Bools(), loop, None, None, BOOLS, Cons(p, Cons(q, Nil)), None, FUEL - 1);
    assert FirstReturn(Two(p.e, q.e)) == Some(q.e);
  }

  lemma LateRuns(env: Env)
    ensures Eval(env, LateBody(T(true)), DEPTH) == Ok(ReturnOf(N(1)))
        && Eval(env, ReturnOf(N(3)), DEPTH) == Ok(ReturnOf(N(3)))
  {
    hide Eval, EvalApplied, ApplyAll, Pick, ReturnIf, RetBlock, Bools;
    var loop, r, w := Closure("x", LateStep(BVar("x", 0), T(true))), ReturnOf(N(1)), ReturnOf(N(3));
    BoolsListed(env, DEPTH, 2);
    LateApplied(true, T(true));
    LateApplied(false, T(true));
    AppliedGives(env, loop, One(T(true)), LateStep(T(true), T(true)), DEPTH, 1);
    AppliedGives(env, loop, One(T(false)), LateStep(T(false), T(true)), DEPTH, 1);
    ReturnIfRuns(env, N(1), N(2), DEPTH);
    RetBlockRuns(env, 3, DEPTH, 4);
    EvalValue(env, w, DEPTH);
    PickGives(env, ReturnIf(T(true), N(1), N(2)), RetBlock(3), DEPTH);
    LoopGives(env, "x", BoolLit(true), BoolLit(false), loop, None, r, w, DEPTH);
    IterGives(env, Map, "x", None, Bools(), loop, None, None, BOOLS, Two(r, w), None, DEPTH);
  }

  lemma LateReturn(env: Env)
    ensures Misled(env, LATE_RETURN, [BoolLit(true)])
  {
    hide PEval, Eval, ElabDecl, LateBody, Inst;
    var s, r := [T(true)], ReturnOf(N(3));
    Arguments(BoolLit(true), UNIT, UNIT);
    LateText();
    LateResidual(env);
    LateRuns(env);
    LateOpens();
    ThenReturns(env, LateBody(BVar("b", 1)), Part(false, r), r, DEPTH, FUEL);
    ThenReturns(env, LateBody(T(true)), Part(false, r), ReturnOf(N(1)), DEPTH, FUEL);
    ThenParts(LateBody(BVar("b", 1)), 0, s, "b");
    LambdaOne("b", ThenFive(LateBody(BVar("b", 1))));
    Shown(env, LATE_RETURN, ThenFive(LateBody(BVar("b", 1))), Part(false, r), [BoolLit(true)], s,
          ThenFive(LateBody(T(true))), r);
  }

  lemma LateOpens()
    ensures Inst(LateBody(BVar("b", 1)), 0, [T(true)]) == LateBody(T(true))
    ensures Inst(ReturnOf(N(3)), 0, [T(true)]) == ReturnOf(N(3))
  {
    var s, step := [T(true)], LateStep(BVar("x", 0), BVar("b", 1));
    ReturnIfOpens(BVar("b", 1), N(1), N(2), 1, s);
    RetBlockParts(3, 1, s, N(0), "x");
    InstLeaves(s);
    hide Inst, ReturnIf, RetBlock;
    Parts3(IfExpr, BVar("x", 0), ReturnIf(BVar("b", 1), N(1), N(2)), RetBlock(3), 1, s, N(0), "b");
    ClosureParts("x", step, 0, s, N(0), "b");
    Parts2(BlockExpr(ListBlock), T(true), T(false), 0, s, N(0), "b");
    Parts1(ReturnExpr, N(3), 0, s, N(0), "b");
    IterOpens(Map, "x", None, Bools(), Closure("x", step), None, s);
  }

  /** `fn f(b) { fold x in [true, false] { if x { b } else { let y = b; acc == y } } where acc = false }`:
      b, the first result, goes below the binders of x and y and turns into x. */
  const DEEP_ACCUMULATOR: SDecl :=
    SDecl("f", ["b"], Do(SIter(Fold, ["x"], TBools(), Do(TPick(SIdent("x"), Do(SIdent("b")), TSame())),
                               Some(("acc", TBool(false))))))

  function TSame(): List<SStmt> {
    Cons(SLet(["y"], SIdent("b")), Do(SInfix(Equal, SIdent("acc"), SIdent("y"))))
  }

  /** The `let`; `acc` is the accumulator as it is below its binder. */
  function Same(b: Expr, acc: Expr): Expr { Node(Let(["y"]), Two(b, Closure("y", Equals(acc, BVar("y", 0))))) }

  function DeepStep(x: Expr, b: Expr, acc: Expr): Expr { Pick(x, b, Same(b, acc)) }

  function DeepLoop(b: Expr): Expr { Closure("acc", Closure("x", DeepStep(BVar("x", 0), b, BVar("acc", 2)))) }

  function DeepBody(b: Expr): Expr { IterNode(Fold, ["x"], Some("acc"), Bools(), DeepLoop(b), Some(T(false))) }

  lemma SameText(ctxt: set<string>)
    requires "acc" in ctxt && "b" in ctxt
    ensures ElabBlock(TSame(), ctxt) == Ok(Same(Var("b"), Var("acc")))
  {
    var e, more := SInfix(Equal, SIdent("acc"), SIdent("y")), ctxt + Names(["y"]);
    TextLeaves();
    LetUnfolds("y", SIdent("b"), Do(e), ctxt);
    hide Elab, ElabBlock, Abs;
    InfixText(Equal, SIdent("acc"), SIdent("y"), more, Var("acc"), Var("y"));
    AbsLeaves();
    Parts2(InfixExpr(Equal), Var("acc"), Var("y"), 0, [], N(0), "y");
    CloseTwo(Equals(Var("acc"), Var("y")), "y", "y");
  }

  lemma DeepParts(x: Expr, b: Expr, acc: Expr, i: nat, s: seq<Expr>, u: Expr, v: string)
    ensures Inst(Same(b, acc), i, s) == Same(Inst(b, i, s), Inst(acc, i + 1, s))
    ensures Inst(DeepStep(x, b, acc), i, s) == DeepStep(Inst(x, i, s), Inst(b, i, s), Inst(acc, i + 1, s))
    ensures Subst(DeepStep(x, b, acc), i, u, true)
         == DeepStep(Subst(x, i, u, true), Subst(b, i, u, true), Subst(acc, i + 1, u, true))
    ensures Abs(DeepStep(x, b, acc), i, v) == DeepStep(Abs(x, i, v), Abs(b, i, v), Abs(acc, i + 1, v))
  {
    hide Inst, Subst, Abs;
    var y := BVar("y", 0);
    BelowBinder("y", i, s, u, v);
    Parts2(InfixExpr(Equal), acc, y, i + 1, s, u, v);
    ClosureParts("y", Equals(acc, y), i, s, u, v);
    Parts2(Let(["y"]), b, Closure("y", Equals(acc, y)), i, s, u, v);
    Parts3(IfExpr, x, b, Same(b, acc), i, s, u, v);
  }

  lemma BelowBinder(y: string, i: nat, s: seq<Expr>, u: Expr, v: string)
    ensures Inst(BVar(y, 0), i + 1, s) == Subst(BVar(y, 0), i + 1, u, true) == Abs(BVar(y, 0), i + 1, v) == BVar(y, 0)
  {}

  lemma DeepBinds()
    ensures var step := DeepStep(Var("x"), Var("b"), Var("acc"));
      Closure("acc", Closure("x", Abs(Abs(step, 0, "x"), 1, "acc"))) == DeepLoop(Var("b"))
    ensures Abs(DeepBody(Var("b")), 0, "b") == DeepBody(BVar("b", 2))
  {
    hide Abs, AbsList, DeepStep, Bools, DeepLoop;
    BoolsBind();
    DeepStepBinds();
    AbsLeaves();
    Parts3(Iter(Fold, ["x"], Some("acc")), Bools(), DeepLoop(Var("b")), T(false), 0, [], N(0), "b");
  }

  lemma DeepStepBinds()
    ensures var step := DeepStep(Var("x"), Var("b"), Var("acc"));
      Closure("acc", Closure("x", Abs(Abs(step, 0, "x"), 1, "acc"))) == DeepLoop(Var("b"))
    ensures Abs(DeepLoop(Var("b")), 0, "b") == DeepLoop(BVar("b", 2))
  {
    hide Abs, AbsList, DeepStep;
    AbsLeaves();
    DeepParts(Var("x"), Var("b"), Var("acc"), 0, [], N(0), "x");
    DeepParts(BVar("x", 0), Var("b"), Var("acc"), 1, [], N(0), "acc");
    DeepParts(BVar("x", 0), Var("b"), BVar("acc", 2), 2, [], N(0), "b");
    var step := DeepStep(BVar("x", 0), Var("b"), BVar("acc", 2));
    ClosureParts("x", step, 1, [], N(0), "b");
    ClosureParts("acc", Closure("x", step), 0, [], N(0), "b");
  }

  lemma BoolsBind()
    ensures Abs(Bools(), 0, "b") == Bools() && forall s :: Inst(Bools(), 0, s) == Bools()
  {
    forall s ensures Inst(Bools(), 0, s) == Bools() {
      Parts2(BlockExpr(ListBlock), T(true), T(false), 0, s, N(0), "b");
    }
  }

  lemma DeepText()
    ensures ElabDecl(DEEP_ACCUMULATOR) == Ok(Closure("b", DeepBody(BVar("b", 2))))
  {
    var ctxt, step := Names(["b"]) + Names(["x"]) + {"acc"}, Do(TPick(SIdent("x"), Do(SIdent("b")), TSame()));
    hide Elab, ElabBlock, ElabDecl, Same, TSame, Pick, TPick, DeepLoop, TBools, Bools;
    SameText(ctxt);
    TextLeaves();
    PickText(SIdent("x"), Do(SIdent("b")), TSame(), ctxt, Var("x"), Var("b"), Same(Var("b"), Var("acc")));
    BoolsText(Names(["b"]));
    FoldText("x", "acc", TBools(), TBool(false), step, Names(["b"]), Bools(), T(false),
             DeepStep(Var("x"), Var("b"), Var("acc")));
    DeepBinds();
    Binds(DEEP_ACCUMULATOR, DeepBody(Var("b")));
    assert Lambda(["b"], DeepBody(BVar("b", 2))) == Closure("b", DeepBody(BVar("b", 2)));
  }

  /** What becomes of b: the second time it is the accumulator. */
  lemma DeepApplied(x: bool, v: bool)
    ensures ApplyAll(DeepLoop(T(true)), Two(T(v), T(x))) == Ok(DeepStep(T(x), T(true), T(v)))
    ensures ApplyAll(DeepLoop(BVar("b", 2)), Two(T(v), T(x))) == Ok(DeepStep(T(x), BVar("b", 0), T(v)))
    ensures ApplyAll(DeepLoop(BVar("b", 2)), Two(BVar("b", 0), T(x))) == Ok(DeepStep(T(x), BVar("b", 0), T(x)))
  {
    hide Subst, ApplyAll, DeepLoop, DeepStep;
    var b2, b1, b0 := BVar("b", 2), BVar("b", 1), BVar("b", 0);
    SubstLeaves(T(v));
    SubstLeaves(T(x));
    Sunk();
    DeepGives(T(true), T(v), x, T(true), T(v));
    DeepGives(b2, T(v), x, b1, T(v));
    DeepGives(b2, b0, x, b1, b1);
  }

  /** One level up for x, but not for y. */
  lemma Sunk()
    ensures var u := BVar("b", 0);
      && Subst(BVar("x", 0), 1, u, true) == BVar("x", 0)
      && Subst(BVar("b", 2), 1, u, true) == Subst(BVar("acc", 2), 2, u, true) == BVar("b", 1)
  {}

  lemma DeepGives(b: Expr, u: Expr, x: bool, b': Expr, acc: Expr)
    requires Subst(b, 1, u, true) == b' && Subst(BVar("acc", 2), 2, u, true) == acc
    requires Subst(BVar("x", 0), 1, u, true) == BVar("x", 0)
    ensures ApplyAll(DeepLoop(b), Two(u, T(x)))
         == Ok(DeepStep(T(x), Subst(b', 0, T(x), true), Subst(acc, 1, T(x), true)))
  {
    hide Subst, ApplyAll, DeepStep;
    var x0, a2 := BVar("x", 0), BVar("acc", 2);
    SubstLeaves(T(x));
    DeepParts(x0, b, a2, 1, [], u, "");
    DeepParts(x0, b', acc, 0, [], T(x), "");
    FoldApplied("acc", "x", DeepStep(x0, b, a2), u, T(x), DeepStep(x0, b', acc),
                DeepStep(T(x), Subst(b', 0, T(x), true), Subst(acc, 1, T(x), true)));
  }

  lemma SameLeaves(env: Env, v: bool, n: nat)
    requires n > 3
    ensures PEval(env, Same(BVar("b", 0), T(v)), false, n) == Ok(Part(false, Same(BVar("b", 0), T(v))))
  {
    hide PEval, Simplify, IsFree, AllFree, AtDepth;
    var b, y, test := BVar("b", 0), BVar("y", 0), Equals(T(v), BVar("y", 0));
    TestUses(v);
    LetLeaves(env, Two(b, Closure("y", test)), n);
    VarLeaves(env, b, n - 1);
    VarLeaves(env, y, n - 3);
    LitGives(env, BoolLit(v), 0, n - 3);
    InfixLeaves(env, Equal, T(v), y, Part(true, T(v)), Part(false, y), n - 2);
    ClosureLeaves(env, "y", test, Part(false, test), n - 1);
  }

  lemma TestUses(v: bool)
    ensures var test := Equals(T(v), BVar("y", 0));
      && Simplify(Equal, Part(true, T(v)), Part(false, BVar("y", 0))) == Ok(Part(false, test))
      && !IsFree(test, 0) && !AllFree(test, 1) && AtDepth(Closure("y", test), 1) == Some(test)
  {}

  lemma LetLeaves(env: Env, es: List<Expr>, n: nat)
    requires n > 0
    ensures PEval(env, Node(Let(["y"]), es), false, n) == PEvalLet(env, ["y"], es, false, n - 1)
  {
    assert PEvalNode(env, Let(["y"]), es, false, n - 1) == PEvalLet(env, ["y"], es, false, n - 1);
  }

  lemma SameRuns(env: Env, v: bool, k: nat)
    ensures Eval(env, Same(T(true), T(v)), k) == Ok(T(v))
  {
    hide Eval, EvalApplied, InfixResult, ApplyAll;
    var f, us, test := Closure("y", Equals(T(v), BVar("y", 0))), One(T(true)), Equals(T(v), T(true));
    LitGives(env, BoolLit(true), k, 1);
    LitGives(env, BoolLit(v), k, 1);
    SameApplied(v);
    LetGives(env, "y", BoolLit(true), f, k);
    AppliedGives(env, f, us, test, k, 1);
    InfixGives(env, Equal, T(v), T(true), k, T(v), T(true));
  }

  lemma SameApplied(v: bool)
    ensures ApplyAll(Closure("y", Equals(T(v), BVar("y", 0))), One(T(true))) == Ok(Equals(T(v), T(true)))
    ensures InfixResult(Equal, T(v), T(true)) == Ok(T(v))
  {
    SubstLeaves(T(true));
    Parts2(InfixExpr(Equal), T(v), BVar("y", 0), 0, [], T(true), "");
    assert ApplyAll(Equals(T(v), T(true)), Nil) == Ok(Equals(T(v), T(true)));
    hide Subst;
  }

  lemma LetGives(env: Env, y: string, l: Literal, f: Expr, k: nat)
    ensures Eval(env, Node(Let([y]), Two(Lit(l), f)), k) == EvalApplied(env, f, Some(One(Lit(l))), k)
  {
    LetRunsFirst(env, y, Two(Lit(l), f), k);
    hide Eval, EvalApplied;
    LitGives(env, l, k, 1);
    assert LetArgs([y], l) == Some(One(Lit(l)));
    assert EvalLet(env, [y], Two(Lit(l), f), k) == EvalApplied(env, f, LetArgs([y], l), k);
  }

  lemma LetRunsFirst(env: Env, y: string, es: List<Expr>, k: nat)
    ensures Eval(env, Node(Let([y]), es), k) == EvalLet(env, [y], es, k)
  {
    assert EvalNode(env, Let([y]), es, k) == EvalLet(env, [y], es, k);
  }

  lemma DeepResidual(env: Env)
    ensures PEval(env, DeepBody(BVar("b", 2)), false, FUEL) == Ok(Part(false, Same(BVar("b", 0), T(false))))
  {
    hide PEval, PEvalApplied, ApplyAll, Pick, Same, DeepLoop, Bools;
    var b, loop := BVar("b", 0), DeepLoop(BVar("b", 2));
    var p, q := Part(false, b), Part(false, Same(b, T(false)));
    BoolsListed(env, 0, 23);
    DeepApplied(true, false);
    DeepApplied(false, false);
    AppliedGives(env, loop, Two(T(false), T(true)), DeepStep(T(true), b, T(false)), 0, 23);
    AppliedGives(env, loop, Two(b, T(false)), DeepStep(T(false), b, T(false)), 0, 23);
    PickLeaves(env, b, b, Same(b, T(false)), 23);
    VarLeaves(env, b, 22);
    SameLeaves(env, false, 22);
    LitGives(env, BoolLit(false), 0, 23);
    PartsTwo(p, q);
    LoopLeaves(env, "x", BoolLit(true), BoolLit(false), loop, Some(Part(true, T(false))), p, q, 23);
    IterLeaves(env, Fold, "x", Some("acc"), Bools(), loop, Some(T(false)), Some(Part(true, T(false))), BOOLS,
               Cons(p, Cons(q, Nil)), Some(q), FUEL);
    SameReturns(b, T(false));
  }

  lemma SameReturns(b: Expr, acc: Expr)
    requires b.BVar?
    ensures FirstReturn(Two(b, Same(b, acc))).None?
  {
    assert FirstReturn(Nil).None? && FirstReturn(One(Same(b, acc))).None?;
  }

  lemma DeepRuns(env: Env)
    ensures Eval(env, DeepBody(T(true)), DEPTH) == Ok(T(true))
        && Eval(env, Same(T(true), T(false)), DEPTH) == Ok(T(false))
  {
    hide Eval, EvalApplied, ApplyAll, Pick, Same, DeepLoop, Bools;
    var loop, b := DeepLoop(T(true)), T(true);
    BoolsListed(env, DEPTH, 2);
    DeepApplied(true, false);
    DeepApplied(false, true);
    AppliedGives(env, loop, Two(T(false), T(true)), DeepStep(T(true), b, T(false)), DEPTH, 1);
    AppliedGives(env, loop, Two(b, T(false)), DeepStep(T(false), b, b), DEPTH, 1);
    PickGives(env, b, Same(b, T(false)), DEPTH);
    PickGives(env, b, Same(b, b), DEPTH);
    SameRuns(env, true, DEPTH);
    SameRuns(env, false, DEPTH);
    LitGives(env, BoolLit(true), DEPTH, 1);
    LitGives(env, BoolLit(false), DEPTH, 1);
    LoopGives(env, "x", BoolLit(true), BoolLit(false), loop, Some(T(false)), b, b, DEPTH);
    IterGives(env, Fold, "x", Some("acc"), Bools(), loop, Some(T(false)), Some(T(false)), BOOLS, Two(b, b), Some(b),
              DEPTH);
  }

  lemma DeepAccumulator(env: Env)
    ensures Misled(env, DEEP_ACCUMULATOR, [BoolLit(true)])
  {
    hide PEval, Eval, ElabDecl, DeepLoop, Inst, DeepStep;
    var s, x0, a2 := [T(true)], BVar("x", 0), BVar("acc", 2);
    Arguments(BoolLit(true), UNIT, UNIT);
    DeepText();
    DeepResidual(env);
    DeepRuns(env);
    InstLeaves(s);
    BoolsBind();
    DeepLoopOpens(s);
    IterOpens(Fold, "x", Some("acc"), Bools(), DeepLoop(BVar("b", 2)), Some(T(false)), s);
    DeepParts(x0, BVar("b", 0), T(false), 0, s, N(0), "");
    assert Lambda(["b"], DeepBody(BVar("b", 2))) == Closure("b", DeepBody(BVar("b", 2)));
    Shown(env, DEEP_ACCUMULATOR, DeepBody(BVar("b", 2)), Part(false, Same(BVar("b", 0), T(false))), [BoolLit(true)], s,
          DeepBody(T(true)), Same(T(true), T(false)));
  }

  lemma DeepLoopOpens(s: seq<Expr>)
    requires s == [T(true)]
    ensures Inst(DeepLoop(BVar("b", 2)), 0, s) == DeepLoop(T(true))
  {
    hide Inst, InstList, DeepStep;
    InstLeaves(s);
    var step := DeepStep(BVar("x", 0), BVar("b", 2), BVar("acc", 2));
    DeepParts(BVar("x", 0), BVar("b", 2), BVar("acc", 2), 2, s, N(0), "");
    ClosureParts("x", step, 1, s, N(0), "");
    ClosureParts("acc", Closure("x", step), 0, s, N(0), "");
  }

  /** `fn f(l) { map y in l { if true { 1 } else { y } } }` is specialized to an
      iteration without its closure. */
  const LOOP_BINDER_DROPPED: SDecl :=
    SDecl("f", ["l"], Do(SIter(Map, ["y"], SIdent("l"), Do(TPick(TBool(true), Do(TInt(1)), Do(SIdent("y")))), None)))

  function BinderLoop(): Expr { Closure("y", Pick(T(true), N(1), BVar("y", 0))) }

  function BinderBody(l: Expr): Expr { IterNode(Map, ["y"], None, l, BinderLoop(), None) }

  lemma BinderText()
    ensures ElabDecl(LOOP_BINDER_DROPPED) == Ok(Closure("l", BinderBody(BVar("l", 0))))
  {
    var step := Do(TPick(TBool(true), Do(TInt(1)), Do(SIdent("y"))));
    assert ElabBlock(step, Names(["l"]) + Names(["y"])) == Ok(Pick(T(true), N(1), Var("y")));
    IterText(Map, "y", SIdent("l"), step, Names(["l"]), Var("l"), Pick(T(true), N(1), Var("y")));
    Binds(LOOP_BINDER_DROPPED, BinderBody(Var("l")));
    assert Abs(Pick(T(true), N(1), Var("y")), 0, "y") == Pick(T(true), N(1), BVar("y", 0));
    assert Abs(BinderBody(Var("l")), 0, "l") == BinderBody(BVar("l", 0));
  }

  lemma BinderResidual(env: Env)
    ensures PEval(env, BinderBody(BVar("l", 0)), false, FUEL)
         == Ok(Part(false, IterNode(Map, ["y"], None, BVar("l", 0), N(1), None)))
  {
    PickLeaves(env, T(true), N(1), BVar("y", 0), 22);
    LitGives(env, L(1), 0, 21);
    assert PEval(env, BinderLoop(), false, 23) == Ok(Part(true, N(1)));
    hide PEval;
    IterStays(env, Map, "y", None, BVar("l", 0), BinderLoop(), None, None, Part(true, N(1)), FUEL);
  }

  lemma BinderRuns(env: Env)
    ensures var over := Lit(ListLit([L(5)]));
      Eval(env, BinderBody(over), DEPTH).Ok? && Eval(env, IterNode(Map, ["y"], None, over, N(1), None), DEPTH).Err?
  {
    hide Eval, EvalApplied, Pick;
    var over := Lit(ListLit([L(5)]));
    LitGives(env, ListLit([L(5)]), DEPTH, 1);
    LitGives(env, L(1), DEPTH, 1);
    BinderApplied(env);
    PickGives(env, N(1), N(5), DEPTH);
    LoopGives(env, "y", L(5), L(5), BinderLoop(), None, N(1), N(1), DEPTH);
    IterGives(env, Map, "y", None, over, BinderLoop(), None, None, [L(5)], One(N(1)), None, DEPTH);
    assert Literals(One(N(1))) == Some([L(1)] + []);
    assert [L(5)] + [] == [L(5)];
    LoopFails(env, Map, "y", None, over, N(1), None, None, L(5), [], N(1), DEPTH);
  }

  lemma BinderApplied(env: Env)
    ensures EvalApplied(env, BinderLoop(), Some(One(N(5))), DEPTH) == Eval(env, Pick(T(true), N(1), N(5)), DEPTH)
    ensures EvalApplied(env, N(1), Some(One(N(5))), DEPTH).Err?
  {
    hide Eval;
    assert Subst(Pick(T(true), N(1), BVar("y", 0)), 0, N(5), true) == Pick(T(true), N(1), N(5));
  }

  lemma LoopBinderDropped(env: Env)
    ensures Misled(env, LOOP_BINDER_DROPPED, [ListLit([L(5)])])
  {
    hide PEval, Eval, ElabDecl;
    var l, over := BVar("l", 0), Lit(ListLit([L(5)]));
    Arguments(ListLit([L(5)]), UNIT, UNIT);
    BinderText();
    BinderResidual(env);
    BinderRuns(env);
    InstClosed(BinderLoop(), 0, [over]);
    IterOpens(Map, "y", None, l, BinderLoop(), None, [over]);
    IterOpens(Map, "y", None, l, N(1), None, [over]);
    Shown(env, LOOP_BINDER_DROPPED, BinderBody(l), Part(false, IterNode(Map, ["y"], None, l, N(1), None)),
          [ListLit([L(5)])],
          [over], BinderBody(over), IterNode(Map, ["y"], None, over, N(1), None));
  }

  /** `fn f(x) { foreach y in (if true { return x } else { [1] }) { y } }` is
      specialized to `return x`, claimed to be known. */
  const OPEN_RETURN: SDecl :=
    SDecl("f", ["x"],
          Do(SIter(ForEach, ["y"], TPick(TBool(true), Ret(SIdent("x")), Do(TList1(1))), Do(SIdent("y")), None)))

  function OpenReturnBody(x: Expr): Expr {
    IterNode(ForEach, ["y"], None, Pick(T(true), ReturnBlock(x), List1(1)), Closure("y", BVar("y", 0)), None)
  }

  lemma OpenReturnClaimed(env: Env)
    ensures ElabDecl(OPEN_RETURN) == Ok(Closure("x", OpenReturnBody(BVar("x", 0))))
    ensures PEval(env, OpenReturnBody(BVar("x", 0)), false, FUEL) == Ok(Part(true, ReturnOf(BVar("x", 0))))
  {
    OpenReturnText();
    OpenReturnResidual(env);
  }

  lemma OpenReturnText()
    ensures ElabDecl(OPEN_RETURN) == Ok(Closure("x", OpenReturnBody(BVar("x", 0))))
  {
    hide Elab, ElabBlock, ElabDecl, Pick, TPick, ReturnBlock, List1, TList1;
    var over, over' := TPick(TBool(true), Ret(SIdent("x")), Do(TList1(1))),
                       Pick(T(true), ReturnBlock(Var("x")), List1(1));
    TextLeaves();
    OpenReturnPieces();
    PickText(TBool(true), Ret(SIdent("x")), Do(TList1(1)), Names(["x"]), T(true), ReturnBlock(Var("x")), List1(1));
    AbsLeaves();
    IterText(ForEach, "y", over, Do(SIdent("y")), Names(["x"]), over', Var("y"));
    assert OpenReturnBody(Var("x")) == IterNode(ForEach, ["y"], None, over', Closure("y", BVar("y", 0)), None);
    Binds(OPEN_RETURN, OpenReturnBody(Var("x")));
    OpenReturnBinds();
    assert Lambda(["x"], OpenReturnBody(BVar("x", 0))) == Closure("x", OpenReturnBody(BVar("x", 0)));
  }

  lemma OpenReturnPieces()
    ensures ElabBlock(Ret(SIdent("x")), Names(["x"])) == Ok(ReturnBlock(Var("x")))
    ensures Elab(TList1(1), Names(["x"])) == Ok(List1(1))
  {
    assert ElabList(Nil, Names(["x"])) == Ok(Nil);
  }

  lemma OpenReturnBinds()
    ensures Abs(OpenReturnBody(Var("x")), 0, "x") == OpenReturnBody(BVar("x", 0))
  {}

  lemma OpenReturnResidual(env: Env)
    ensures PEval(env, OpenReturnBody(BVar("x", 0)), false, FUEL) == Ok(Part(true, ReturnOf(BVar("x", 0))))
  {
    hide PEval, Pick, ReturnBlock;
    var x := BVar("x", 0);
    var es := Two(Pick(T(true), ReturnBlock(x), List1(1)), Closure("y", BVar("y", 0)));
    ReturnBlockLeaves(env, x, 22);
    PickLeaves(env, T(true), ReturnBlock(x), List1(1), 23);
    OpenReturnUnfolds(env, es);
  }

  lemma OpenReturnUnfolds(env: Env, es: List<Expr>)
    ensures PEval(env, Node(Iter(ForEach, ["y"], None), es), false, FUEL)
        == PEvalIter(env, ForEach, ["y"], None, es, false, 23)
  {
    assert PEvalNode(env, Iter(ForEach, ["y"], None), es, false, 23)
      == PEvalIter(env, ForEach, ["y"], None, es, false, 23);
  }

  lemma ReturnBlockLeaves(env: Env, x: Expr, n: nat)
    requires x.BVar? && n > 2
    ensures PEval(env, ReturnBlock(x), false, n) == Ok(Part(false, ReturnOf(x)))
  {
    VarLeaves(env, x, n - 2);
    assert PEvalReturn(env, One(x), false, n - 2) == Ok(Part(false, ReturnOf(x)));
    assert PEvalNode(env, ReturnExpr, One(x), false, n - 2) == Ok(Part(false, ReturnOf(x)));
    assert PEval(env, ReturnOf(x), false, n - 1) == Ok(Part(false, ReturnOf(x)));
    assert PEvalNode(env, BlockExpr(StmtBlock), One(ReturnOf(x)), false, n - 1)
      == PEvalBlock(env, One(ReturnOf(x)), false, n - 1);
  }

  /** `fn f(l, z) { fold x in l { if x { return 9 } else { let y = acc; 1 % z + acc } } where acc = 0 }`:
      the accumulator after a `return` is that `return`, which the `let` passes on;
      without the `let`, the remainder by zero is an error. */
  const BODY_RETURNS: SDecl :=
    SDecl("f", ["l", "z"],
          Do(SIter(Fold, ["x"], SIdent("l"), Do(TPick(SIdent("x"), Ret(TInt(9)), TRest())), Some(("acc", TInt(0))))))

  function TRest(): List<SStmt> {
    Cons(SLet(["y"], SIdent("acc")), Do(SInfix(Plus, SInfix(Remainder, TInt(1), SIdent("z")), SIdent("acc"))))
  }

  function Sum(z: Expr, acc: Expr): Expr { Infixed(Plus, Infixed(Remainder, N(1), z), acc) }

  /** The `let`; the last two are the variables as they are below its binder. */
  function Rest(acc: Expr, z: Expr, acc': Expr): Expr { Node(Let(["y"]), Two(acc, Closure("y", Sum(z, acc')))) }

  function BodyLoop(z: Expr): Expr {
    Closure("acc", Closure("x", Pick(BVar("x", 0), RetBlock(9), Rest(BVar("acc", 1), z, BVar("acc", 2)))))
  }

  function BodyReturns(l: Expr, z: Expr): Expr { IterNode(Fold, ["x"], Some("acc"), l, BodyLoop(z), Some(N(0))) }

  function KeptLoop(z: Expr): Expr {
    Closure("acc", Closure("x", Pick(BVar("x", 0), ReturnOf(N(9)), Sum(z, BVar("acc", 1)))))
  }

  function KeptReturns(l: Expr, z: Expr): Expr { IterNode(Fold, ["x"], Some("acc"), l, KeptLoop(z), Some(N(0))) }

  lemma BodyText()
    ensures ElabDecl(BODY_RETURNS) == Ok(Closure("l", Closure("z", BodyReturns(BVar("l", 1), BVar("z", 3)))))
  {
    var ctxt := Names(["l", "z"]) + Names(["x"]) + {"acc"};
    var step, step' := Do(TPick(SIdent("x"), Ret(TInt(9)), TRest())),
      Pick(Var("x"), RetBlock(9), Rest(Var("acc"), Var("z"), Var("acc")));
    hide Elab, ElabBlock, ElabDecl, Rest, TRest, RetBlock, Pick, TPick, BodyLoop;
    RestText(ctxt);
    TextLeaves();
    RetBlockText(9, ctxt);
    PickText(SIdent("x"), Ret(TInt(9)), TRest(), ctxt, Var("x"), RetBlock(9), Rest(Var("acc"), Var("z"), Var("acc")));
    FoldText("x", "acc", SIdent("l"), TInt(0), step, Names(["l", "z"]), Var("l"), N(0), step');
    BodyBinds();
    Binds(BODY_RETURNS, BodyReturns(Var("l"), Var("z")));
  }

  lemma RestText(ctxt: set<string>)
    requires "acc" in ctxt && "z" in ctxt
    ensures ElabBlock(TRest(), ctxt) == Ok(Rest(Var("acc"), Var("z"), Var("acc")))
  {
    var e, more := SInfix(Plus, SInfix(Remainder, TInt(1), SIdent("z")), SIdent("acc")), ctxt + Names(["y"]);
    TextLeaves();
    LetUnfolds("y", SIdent("acc"), Do(e), ctxt);
    hide Elab, ElabBlock, Abs;
    InfixText(Remainder, TInt(1), SIdent("z"), more, N(1), Var("z"));
    InfixText(Plus, SInfix(Remainder, TInt(1), SIdent("z")), SIdent("acc"), more, Infixed(Remainder, N(1), Var("z")),
              Var("acc"));
    AbsLeaves();
    SumParts(Var("z"), Var("acc"), 0, [], N(0), "y");
    CloseTwo(Sum(Var("z"), Var("acc")), "y", "y");
  }

  lemma SumParts(z: Expr, acc: Expr, i: nat, s: seq<Expr>, u: Expr, v: string)
    ensures Inst(Sum(z, acc), i, s) == Sum(Inst(z, i, s), Inst(acc, i, s))
    ensures Subst(Sum(z, acc), i, u, true) == Sum(Subst(z, i, u, true), Subst(acc, i, u, true))
    ensures Abs(Sum(z, acc), i, v) == Sum(Abs(z, i, v), Abs(acc, i, v))
  {
    Parts2(InfixExpr(Remainder), N(1), z, i, s, u, v);
    Parts2(InfixExpr(Plus), Infixed(Remainder, N(1), z), acc, i, s, u, v);
  }

  lemma RestParts(acc: Expr, z: Expr, acc': Expr, i: nat, s: seq<Expr>, u: Expr, v: string)
    ensures Inst(Rest(acc, z, acc'), i, s) == Rest(Inst(acc, i, s), Inst(z, i + 1, s), Inst(acc', i + 1, s))
    ensures Subst(Rest(acc, z, acc'), i, u, true)
         == Rest(Subst(acc, i, u, true), Subst(z, i + 1, u, true), Subst(acc', i + 1, u, true))
    ensures Abs(Rest(acc, z, acc'), i, v) == Rest(Abs(acc, i, v), Abs(z, i + 1, v), Abs(acc', i + 1, v))
  {
    SumParts(z, acc', i + 1, s, u, v);
    ClosureParts("y", Sum(z, acc'), i, s, u, v);
    Parts2(Let(["y"]), acc, Closure("y", Sum(z, acc')), i, s, u, v);
  }

  lemma BodyParts(x: Expr, acc: Expr, z: Expr, acc': Expr, i: nat, s: seq<Expr>, u: Expr, v: string)
    ensures var step := Pick(x, RetBlock(9), Rest(acc, z, acc'));
      && Inst(step, i, s)
        == Pick(Inst(x, i, s), RetBlock(9), Rest(Inst(acc, i, s), Inst(z, i + 1, s), Inst(acc', i + 1, s)))
      && Subst(step, i, u, true) == Pick(Subst(x, i, u, true), RetBlock(9),
           Rest(Subst(acc, i, u, true), Subst(z, i + 1, u, true), Subst(acc', i + 1, u, true)))
      && Abs(step, i, v) == Pick(Abs(x, i, v), RetBlock(9), Rest(Abs(acc, i, v), Abs(z, i + 1, v), Abs(acc', i + 1, v)))
  {
    RestParts(acc, z, acc', i, s, u, v);
    RetBlockParts(9, i, s, u, v);
    Parts3(IfExpr, x, RetBlock(9), Rest(acc, z, acc'), i, s, u, v);
  }

  lemma BodyBinds()
    ensures var step := Pick(Var("x"), RetBlock(9), Rest(Var("acc"), Var("z"), Var("acc")));
      Closure("acc", Closure("x", Abs(Abs(step, 0, "x"), 1, "acc"))) == BodyLoop(Var("z"))
    ensures Abs(Abs(BodyReturns(Var("l"), Var("z")), 0, "z"), 1, "l") == BodyReturns(BVar("l", 1), BVar("z", 3))
    ensures forall e :: Lambda(["l", "z"], e) == Closure("l", Closure("z", e))
  {
    hide Abs, AbsList, Pick, Rest, RetBlock, Lambda;
    AbsLeaves();
    BodyParts(Var("x"), Var("acc"), Var("z"), Var("acc"), 0, [], N(0), "x");
    BodyParts(BVar("x", 0), Var("acc"), Var("z"), Var("acc"), 1, [], N(0), "acc");
    LoopAbs(Var("z"), BVar("z", 3), 0, "z");
    LoopAbs(BVar("z", 3), BVar("z", 3), 1, "l");
    var t := Iter(Fold, ["x"], Some("acc"));
    Parts3(t, Var("l"), BodyLoop(Var("z")), N(0), 0, [], N(0), "z");
    Parts3(t, Var("l"), BodyLoop(BVar("z", 3)), N(0), 1, [], N(0), "l");
    LambdaTwo("l", "z");
  }

  lemma LambdaTwo(x: string, y: string)
    ensures forall e :: Lambda([x, y], e) == Closure(x, Closure(y, e))
  {
    assert [x, y][1..] == [y] && [y][1..] == [];
    forall e ensures Lambda([x, y], e) == Closure(x, Closure(y, e)) {
      assert Lambda([], e) == e && Lambda([y], e) == Closure(y, e);
    }
  }

  lemma LoopAbs(z: Expr, z': Expr, i: nat, v: string)
    requires Abs(z, i + 3, v) == z' && v != "acc" && v != "x"
    ensures Abs(BodyLoop(z), i, v) == BodyLoop(z')
  {
    hide Abs, AbsList, Pick, Rest;
    var step := Pick(BVar("x", 0), RetBlock(9), Rest(BVar("acc", 1), z, BVar("acc", 2)));
    AbsLeaves();
    BodyParts(BVar("x", 0), BVar("acc", 1), z, BVar("acc", 2), i + 2, [], N(0), v);
    ClosureParts("x", step, i + 1, [], N(0), v);
    ClosureParts("acc", Closure("x", step), i, [], N(0), v);
  }

  lemma SumLeaves(env: Env, z: Expr, acc: Expr, n: nat)
    requires z.BVar? && acc.BVar? && n > 2
    ensures PEval(env, Sum(z, acc), false, n) == Ok(Part(false, Sum(z, acc)))
  {
    hide PEval, Simplify;
    VarLeaves(env, z, n - 2);
    VarLeaves(env, acc, n - 1);
    LitGives(env, L(1), 0, n - 2);
    SumSimplified(z, acc);
    InfixLeaves(env, Remainder, N(1), z, Part(true, N(1)), Part(false, z), n - 1);
    InfixLeaves(env, Plus, Infixed(Remainder, N(1), z), acc, Part(false, Infixed(Remainder, N(1), z)),
                Part(false, acc), n);
  }

  lemma SumSimplified(z: Expr, acc: Expr)
    requires z.BVar? && acc.BVar?
    ensures var e := Infixed(Remainder, N(1), z);
      && Simplify(Remainder, Part(true, N(1)), Part(false, z)) == Ok(Part(false, e))
      && Simplify(Plus, Part(false, e), Part(false, acc)) == Ok(Part(false, Sum(z, acc)))
  {}

  lemma RestLeaves(env: Env, n: nat)
    requires n > 4
    ensures PEval(env, Rest(BVar("acc", 1), BVar("z", 3), BVar("acc", 2)), false, n)
         == Ok(Part(false, Sum(BVar("z", 2), BVar("acc", 1))))
  {
    var z, acc, acc' := BVar("z", 3), BVar("acc", 1), BVar("acc", 2);
    SumUnused();
    SumLeaves(env, BVar("z", 2), acc, n - 1);
    hide PEval, Sum;
    UnusedLeaves(env, acc, Sum(z, acc'), n);
  }

  lemma SumUnused()
    ensures var e := Sum(BVar("z", 3), BVar("acc", 2));
      IsFree(e, 0) && !e.Closure? && Subst(e, 0, Lit(UNIT), true) == Sum(BVar("z", 2), BVar("acc", 1))
  {
    SubstLeaves(Lit(UNIT));
    SumParts(BVar("z", 3), BVar("acc", 2), 0, [], Lit(UNIT), "y");
  }

  /** A `let` whose variable is not used. */
  lemma UnusedLeaves(env: Env, rhs: Expr, b: Expr, n: nat)
    requires n > 0 && IsFree(b, 0) && !b.Closure?
    ensures PEval(env, Node(Let(["y"]), Two(rhs, Closure("y", b))), false, n)
         == PEval(env, Subst(b, 0, Lit(UNIT), true), false, n - 1)
  {
    LetLeaves(env, Two(rhs, Closure("y", b)), n);
    hide PEval, IsFree;
    assert AllFree(b, 0) && AllFree(b, 1);
    assert AtDepth(b, 0) == Some(b) && AtDepth(Closure("y", b), 1) == Some(b);
    assert Units(0) == Nil && Units(1) == One(Lit(UNIT));
    var c := Subst(b, 0, Lit(UNIT), true);
    assert ApplyAll(c, Nil) == Ok(c) && ApplyAll(Closure("y", b), One(Lit(UNIT))) == Ok(c);
  }

  lemma LoopResidual(env: Env)
    ensures PEval(env, BodyLoop(BVar("z", 3)), false, 23) == Ok(Part(false, KeptLoop(BVar("z", 2))))
  {
    hide PEval, RetBlock, Rest, IsFree, Pick, Sum;
    var x, acc := BVar("x", 0), BVar("acc", 1);
    var rest, kept := Rest(acc, BVar("z", 3), BVar("acc", 2)), Pick(x, ReturnOf(N(9)), Sum(BVar("z", 2), acc));
    RoundResidual(env);
    KeptUses();
    ClosureLeaves(env, "x", Pick(x, RetBlock(9), rest), Part(false, kept), 22);
    ClosureLeaves(env, "acc", Closure("x", Pick(x, RetBlock(9), rest)), Part(false, Closure("x", kept)), 23);
  }

  /** One round, on a list that is not known. */
  lemma RoundResidual(env: Env)
    ensures PEval(env, Pick(BVar("x", 0), RetBlock(9), Rest(BVar("acc", 1), BVar("z", 3), BVar("acc", 2))), false, 21)
         == Ok(Part(false, Pick(BVar("x", 0), ReturnOf(N(9)), Sum(BVar("z", 2), BVar("acc", 1)))))
  {
    hide PEval, RetBlock, Rest, Pick;
    var x, acc := BVar("x", 0), BVar("acc", 1);
    assert Sum(BVar("z", 2), acc) != ReturnOf(N(9));
    hide Sum;
    RetBlockRuns(env, 9, 0, 20);
    RestLeaves(env, 20);
    PickLeaves(env, x, RetBlock(9), Rest(acc, BVar("z", 3), BVar("acc", 2)), 21);
  }

  lemma BodyResidual(env: Env)
    ensures PEval(env, BodyReturns(BVar("l", 1), BVar("z", 3)), false, FUEL)
         == Ok(Part(false, KeptReturns(BVar("l", 1), BVar("z", 2))))
  {
    hide PEval, BodyLoop, KeptLoop;
    LoopResidual(env);
    LitGives(env, L(0), 0, 23);
    IterStays(env, Fold, "x", Some("acc"), BVar("l", 1), BodyLoop(BVar("z", 3)), Some(N(0)), Some(Part(true, N(0))),
              Part(false, KeptLoop(BVar("z", 2))), FUEL);
  }

  lemma KeptUses()
    ensures var kept := Pick(BVar("x", 0), ReturnOf(N(9)), Sum(BVar("z", 2), BVar("acc", 1)));
      !IsFree(kept, 0) && !IsFree(Closure("x", kept), 0)
  {}

  lemma BodyApplied(acc: Expr, x: bool)
    requires IsValue(acc)
    ensures ApplyAll(BodyLoop(N(0)), Two(acc, T(x))) == Ok(Pick(T(x), RetBlock(9), Rest(acc, N(0), acc)))
    ensures ApplyAll(KeptLoop(N(0)), Two(acc, T(x))) == Ok(Pick(T(x), ReturnOf(N(9)), Sum(N(0), acc)))
  {
    hide Subst, SubstList, Pick, Rest, RetBlock, Sum;
    var x0, a1, a2, r := BVar("x", 0), BVar("acc", 1), BVar("acc", 2), ReturnOf(N(9));
    SubstLeaves(acc);
    SubstLeaves(T(x));
    ValueSubst(acc, T(x));
    BodyParts(x0, a1, N(0), a2, 1, [], acc, "");
    BodyParts(x0, acc, N(0), acc, 0, [], T(x), "");
    FoldApplied("acc", "x", Pick(x0, RetBlock(9), Rest(a1, N(0), a2)), acc, T(x),
                Pick(x0, RetBlock(9), Rest(acc, N(0), acc)), Pick(T(x), RetBlock(9), Rest(acc, N(0), acc)));
    SumParts(N(0), a1, 1, [], acc, "");
    SumParts(N(0), acc, 0, [], T(x), "");
    Parts1(ReturnExpr, N(9), 1, [], acc, "");
    Parts1(ReturnExpr, N(9), 0, [], T(x), "");
    KeptParts(x0, Sum(N(0), a1), 1, acc);
    KeptParts(x0, Sum(N(0), acc), 0, T(x));
    FoldApplied("acc", "x", Pick(x0, r, Sum(N(0), a1)), acc, T(x), Pick(x0, r, Sum(N(0), acc)),
                Pick(T(x), r, Sum(N(0), acc)));
  }

  lemma KeptParts(x: Expr, b: Expr, i: nat, u: Expr)
    ensures Subst(Pick(x, ReturnOf(N(9)), b), i, u, true)
         == Pick(Subst(x, i, u, true), Subst(ReturnOf(N(9)), i, u, true), Subst(b, i, u, true))
  {
    Parts3(IfExpr, x, ReturnOf(N(9)), b, i, [], u, "");
  }

  /** Values have no indices. */
  lemma ValueSubst(v: Expr, u: Expr)
    requires IsValue(v)
    ensures forall i: nat :: Subst(v, i, u, true) == v
  {
    ValueClosed(v);
    forall i: nat ensures Subst(v, i, u, true) == v { ClosedMono(v, 0, i); SubstClosed(v, i, u, true); }
  }

  lemma BodyRuns(env: Env)
    ensures Eval(env, BodyReturns(Lit(ListLit(BOOLS)), N(0)), DEPTH) == Ok(ReturnOf(N(9)))
    ensures Eval(env, KeptReturns(Lit(ListLit(BOOLS)), N(0)), DEPTH).Err?
  {
    hide Eval, EvalApplied, ApplyAll, Pick, Rest, RetBlock, Sum, BodyLoop, KeptLoop;
    var loop, kept, r, over := BodyLoop(N(0)), KeptLoop(N(0)), ReturnOf(N(9)), Lit(ListLit(BOOLS));
    BodyApplied(N(0), true);
    BodyApplied(r, false);
    RetBlockRuns(env, 9, DEPTH, 4);
    RestRuns(env, 9);
    LitGives(env, L(0), DEPTH, 1);
    LitGives(env, ListLit(BOOLS), DEPTH, 1);
    PickGives(env, RetBlock(9), Rest(N(0), N(0), N(0)), DEPTH);
    PickGives(env, RetBlock(9), Rest(r, N(0), r), DEPTH);
    PickGives(env, r, Sum(N(0), N(0)), DEPTH);
    PickGives(env, r, Sum(N(0), r), DEPTH);
    AppliedGives(env, loop, Two(N(0), T(true)), Pick(T(true), RetBlock(9), Rest(N(0), N(0), N(0))), DEPTH, 1);
    AppliedGives(env, loop, Two(r, T(false)), Pick(T(false), RetBlock(9), Rest(r, N(0), r)), DEPTH, 1);
    AppliedGives(env, kept, Two(N(0), T(true)), Pick(T(true), r, Sum(N(0), N(0))), DEPTH, 1);
    AppliedGives(env, kept, Two(r, T(false)), Pick(T(false), r, Sum(N(0), r)), DEPTH, 1);
    LoopGives(env, "x", BoolLit(true), BoolLit(false), loop, Some(N(0)), r, r, DEPTH);
    IterGives(env, Fold, "x", Some("acc"), over, loop, Some(N(0)), Some(N(0)), BOOLS, Two(r, r), Some(r), DEPTH);
    assert [BoolLit(true)] + [BoolLit(false)] == BOOLS;
    LoopFails(env, Fold, "x", Some("acc"), over, kept, Some(N(0)), Some(N(0)), BoolLit(true), [BoolLit(false)], r,
              DEPTH);
  }

  lemma RestRuns(env: Env, j: i64)
    ensures var r := ReturnOf(N(j));
      Eval(env, r, DEPTH) == Ok(r) && Eval(env, Rest(r, N(0), r), DEPTH) == Ok(r) && Eval(env, Sum(N(0), r), DEPTH).Err?
  {
    hide Eval;
    var r := ReturnOf(N(j));
    RestUnfolds(env, r);
    LitGives(env, L(j), DEPTH, 1);
    LitGives(env, L(0), DEPTH, 1);
    LitGives(env, L(1), DEPTH, 1);
    InfixGives(env, Remainder, N(1), N(0), DEPTH, N(1), N(0));
    InfixFails(env, Plus, Infixed(Remainder, N(1), N(0)), r, DEPTH);
  }

  lemma RestUnfolds(env: Env, r: Expr)
    requires IsReturn(r) && IsValue(r)
    ensures Eval(env, r, DEPTH) == Ok(r) && Eval(env, Rest(r, N(0), r), DEPTH) == Ok(r)
  {
    var es := Two(r, Closure("y", Sum(N(0), r)));
    EvalValue(env, r, DEPTH);
    assert EvalNode(env, Let(["y"]), es, DEPTH) == EvalLet(env, ["y"], es, DEPTH);
  }

  lemma InfixFails(env: Env, op: Infix, a: Expr, b: Expr, k: nat)
    requires !ShortCircuits(op) && Eval(env, a, k).Err?
    ensures Eval(env, Infixed(op, a, b), k).Err?
  {
    assert EvalNode(env, InfixExpr(op), Two(a, b), k) == EvalInfixExpr(env, op, Two(a, b), k);
  }

  lemma LoopsOpen(s: seq<Expr>)
    requires s != [] && s[0] == N(0)
    ensures Inst(BodyLoop(BVar("z", 3)), 0, s) == BodyLoop(N(0)) && Inst(KeptLoop(BVar("z", 2)), 0, s) == KeptLoop(N(0))
  {
    hide Inst, InstList, Pick, Rest, RetBlock, Sum;
    var x, a1, a2 := BVar("x", 0), BVar("acc", 1), BVar("acc", 2);
    InstLeaves(s);
    BodyParts(x, a1, BVar("z", 3), a2, 2, s, N(0), "");
    ClosureParts("x", Pick(x, RetBlock(9), Rest(a1, BVar("z", 3), a2)), 1, s, N(0), "");
    ClosureParts("acc", Closure("x", Pick(x, RetBlock(9), Rest(a1, BVar("z", 3), a2))), 0, s, N(0), "");
    SumParts(BVar("z", 2), a1, 2, s, N(0), "");
    Parts1(ReturnExpr, N(9), 2, s, N(0), "");
    KeptOpens(x, Sum(BVar("z", 2), a1), 2, s);
    ClosureParts("x", Pick(x, ReturnOf(N(9)), Sum(BVar("z", 2), a1)), 1, s, N(0), "");
    ClosureParts("acc", Closure("x", Pick(x, ReturnOf(N(9)), Sum(BVar("z", 2), a1))), 0, s, N(0), "");
  }

  lemma KeptOpens(x: Expr, b: Expr, i: nat, s: seq<Expr>)
    ensures Inst(Pick(x, ReturnOf(N(9)), b), i, s) == Pick(Inst(x, i, s), Inst(ReturnOf(N(9)), i, s), Inst(b, i, s))
  {
    Parts3(IfExpr, x, ReturnOf(N(9)), b, i, s, N(0), "");
  }

  lemma BodyReturnsLost(env: Env)
    ensures Misled(env, BODY_RETURNS, [ListLit(BOOLS), L(0)])
  {
    hide PEval, Eval, ElabDecl, BodyLoop, KeptLoop, Inst;
    var l, s := Lit(ListLit(BOOLS)), [Lit(L(0)), Lit(ListLit(BOOLS))];
    Arguments(ListLit(BOOLS), L(0), UNIT);
    LambdaTwo("l", "z");
    BodyText();
    BodyResidual(env);
    BodyRuns(env);
    LoopsOpen(s);
    InstLeaves(s);
    IterOpens(Fold, "x", Some("acc"), BVar("l", 1), BodyLoop(BVar("z", 3)), Some(N(0)), s);
    IterOpens(Fold, "x", Some("acc"), BVar("l", 1), KeptLoop(BVar("z", 2)), Some(N(0)), s);
    Shown(env, BODY_RETURNS, BodyReturns(BVar("l", 1), BVar("z", 3)),
          Part(false, KeptReturns(BVar("l", 1), BVar("z", 2))),
          [ListLit(BOOLS), L(0)], s, BodyReturns(l, N(0)), KeptReturns(l, N(0)));
  }

  /** The same with `where acc = (if b { return 1 } else { 0 })`: what the fold starts
      from returns. */
  const START_RETURNS: SDecl :=
    SDecl("f", ["b", "l", "z"], Do(SIter(Fold, ["x"], SIdent("l"), Do(TPick(SIdent("x"), Ret(TInt(9)), TRest())),
                                         Some(("acc", TReturnIf(SIdent("b"), TInt(1), TInt(0)))))))

  function StartReturns(b: Expr, l: Expr, z: Expr): Expr {
    IterNode(Fold, ["x"], Some("acc"), l, BodyLoop(z), Some(ReturnIf(b, N(1), N(0))))
  }

  function StartKept(b: Expr, l: Expr, z: Expr): Expr {
    IterNode(Fold, ["x"], Some("acc"), l, KeptLoop(z), Some(ReturnIfKept(b, N(1), N(0))))
  }

  lemma StartText()
    ensures ElabDecl(START_RETURNS)
         == Ok(Closure("b", Closure("l", Closure("z", StartReturns(BVar("b", 2), BVar("l", 1), BVar("z", 3))))))
  {
    var names := Names(["b", "l", "z"]);
    var ctxt, start := names + Names(["x"]) + {"acc"}, TReturnIf(SIdent("b"), TInt(1), TInt(0));
    var step, step' := Do(TPick(SIdent("x"), Ret(TInt(9)), TRest())),
      Pick(Var("x"), RetBlock(9), Rest(Var("acc"), Var("z"), Var("acc")));
    hide Elab, ElabBlock, ElabDecl, Rest, TRest, RetBlock, ReturnIf, TReturnIf, Pick, TPick, BodyLoop;
    RestText(ctxt);
    TextLeaves();
    RetBlockText(9, ctxt);
    ReturnIfText(SIdent("b"), 1, TInt(0), names, Var("b"), N(0));
    PickText(SIdent("x"), Ret(TInt(9)), TRest(), ctxt, Var("x"), RetBlock(9), Rest(Var("acc"), Var("z"), Var("acc")));
    FoldText("x", "acc", SIdent("l"), start, step, names, Var("l"), ReturnIf(Var("b"), N(1), N(0)), step');
    StartBinds();
    Binds(START_RETURNS, StartReturns(Var("b"), Var("l"), Var("z")));
  }

  lemma StartBinds()
    ensures var step := Pick(Var("x"), RetBlock(9), Rest(Var("acc"), Var("z"), Var("acc")));
      Closure("acc", Closure("x", Abs(Abs(step, 0, "x"), 1, "acc"))) == BodyLoop(Var("z"))
    ensures Abs(Abs(Abs(StartReturns(Var("b"), Var("l"), Var("z")), 0, "z"), 1, "l"), 2, "b")
         == StartReturns(BVar("b", 2), BVar("l", 1), BVar("z", 3))
    ensures forall e :: Lambda(["b", "l", "z"], e) == Closure("b", Closure("l", Closure("z", e)))
  {
    BodyBinds();
    hide Abs, AbsList, ReturnIf, Lambda, BodyLoop;
    AbsLeaves();
    LoopAbs(Var("z"), BVar("z", 3), 0, "z");
    LoopAbs(BVar("z", 3), BVar("z", 3), 1, "l");
    LoopAbs(BVar("z", 3), BVar("z", 3), 2, "b");
    ReturnIfAbs(Var("b"), 1, N(0), 0, "z");
    ReturnIfAbs(Var("b"), 1, N(0), 1, "l");
    ReturnIfAbs(Var("b"), 1, N(0), 2, "b");
    var t := Iter(Fold, ["x"], Some("acc"));
    Parts3(t, Var("l"), BodyLoop(Var("z")), ReturnIf(Var("b"), N(1), N(0)), 0, [], N(0), "z");
    Parts3(t, Var("l"), BodyLoop(BVar("z", 3)), ReturnIf(Var("b"), N(1), N(0)), 1, [], N(0), "l");
    Parts3(t, BVar("l", 1), BodyLoop(BVar("z", 3)), ReturnIf(Var("b"), N(1), N(0)), 2, [], N(0), "b");
    LambdaThree("b", "l", "z");
  }

  lemma ReturnIfAbs(c: Expr, j: i64, b: Expr, i: nat, v: string)
    ensures Abs(ReturnIf(c, N(j), b), i, v) == ReturnIf(Abs(c, i, v), N(j), Abs(b, i, v))
  {
    RetBlockParts(j, i, [], N(0), v);
    Parts3(IfExpr, c, RetBlock(j), b, i, [], N(0), v);
  }

  lemma LambdaThree(x: string, y: string, z: string)
    ensures forall e :: Lambda([x, y, z], e) == Closure(x, Closure(y, Closure(z, e)))
  {
    LambdaTwo(y, z);
    assert [x, y, z][1..] == [y, z];
  }

  lemma StartResidual(env: Env)
    ensures PEval(env, StartReturns(BVar("b", 2), BVar("l", 1), BVar("z", 3)), false, FUEL)
         == Ok(Part(false, StartKept(BVar("b", 2), BVar("l", 1), BVar("z", 2))))
  {
    hide PEval, BodyLoop, KeptLoop, ReturnIf;
    var b := BVar("b", 2);
    LoopResidual(env);
    ReturnIfResidual(env, b, N(1), N(0), false, 23);
    IterStays(env, Fold, "x", Some("acc"), BVar("l", 1), BodyLoop(BVar("z", 3)), Some(ReturnIf(b, N(1), N(0))),
              Some(Part(false, ReturnIfKept(b, N(1), N(0)))), Part(false, KeptLoop(BVar("z", 2))), FUEL);
  }

  lemma StartRuns(env: Env)
    ensures var l := Lit(ListLit([BoolLit(false)]));
      && Eval(env, StartReturns(T(true), l, N(0)), DEPTH) == Ok(ReturnOf(N(1)))
      && Eval(env, StartKept(T(true), l, N(0)), DEPTH).Err?
  {
    hide Eval, EvalApplied, ApplyAll, Pick, Rest, RetBlock, Sum, BodyLoop, KeptLoop, ReturnIf, ReturnIfKept;
    var loop, kept, r, over := BodyLoop(N(0)), KeptLoop(N(0)), ReturnOf(N(1)), Lit(ListLit([BoolLit(false)]));
    BodyApplied(r, false);
    RestRuns(env, 1);
    ReturnIfRuns(env, N(1), N(0), DEPTH);
    LitGives(env, ListLit([BoolLit(false)]), DEPTH, 1);
    PickGives(env, RetBlock(9), Rest(r, N(0), r), DEPTH);
    PickGives(env, ReturnOf(N(9)), Sum(N(0), r), DEPTH);
    AppliedGives(env, loop, Two(r, T(false)), Pick(T(false), RetBlock(9), Rest(r, N(0), r)), DEPTH, 1);
    AppliedGives(env, kept, Two(r, T(false)), Pick(T(false), ReturnOf(N(9)), Sum(N(0), r)), DEPTH, 1);
    LoopGives(env, "x", BoolLit(false), UNIT, loop, Some(r), r, r, DEPTH);
    IterGives(env, Fold, "x", Some("acc"), over, loop, Some(ReturnIf(T(true), N(1), N(0))), Some(r), [BoolLit(false)],
              One(r), Some(r), DEPTH);
    assert [BoolLit(false)] + [] == [BoolLit(false)];
    LoopFails(env, Fold, "x", Some("acc"), over, kept, Some(ReturnIfKept(T(true), N(1), N(0))), Some(r),
              BoolLit(false), [], r, DEPTH);
  }

  lemma StartReturnsLost(env: Env)
    ensures Misled(env, START_RETURNS, [BoolLit(true), ListLit([BoolLit(false)]), L(0)])
  {
    hide PEval, Eval, ElabDecl, BodyLoop, KeptLoop, Inst, ReturnIf, ReturnIfKept;
    var b, l, ls := BVar("b", 2), BVar("l", 1), ListLit([BoolLit(false)]);
    var s := [Lit(L(0)), Lit(ls), Lit(BoolLit(true))];
    Arguments(BoolLit(true), ls, L(0));
    LambdaThree("b", "l", "z");
    StartText();
    StartResidual(env);
    StartRuns(env);
    LoopsOpen(s);
    InstLeaves(s);
    ReturnIfOpens(b, N(1), N(0), 0, s);
    IterOpens(Fold, "x", Some("acc"), l, BodyLoop(BVar("z", 3)), Some(ReturnIf(b, N(1), N(0))), s);
    IterOpens(Fold, "x", Some("acc"), l, KeptLoop(BVar("z", 2)), Some(ReturnIfKept(b, N(1), N(0))), s);
    Shown(env, START_RETURNS, StartReturns(b, l, BVar("z", 3)), Part(false, StartKept(b, l, BVar("z", 2))),
          [BoolLit(true), ls, L(0)], s, StartReturns(T(true), Lit(ls), N(0)), StartKept(T(true), Lit(ls), N(0)));
  }

  // ----- what no text elaborates to -----

  function StrayLoop(y: Expr): Expr { Closure("a", Closure("x", Infixed(Plus, BVar("a", 1), y))) }

  function Stray(y: Expr, a: Expr): Expr {
    IterNode(Map, ["x"], Some("a"), Lit(ListLit([L(1)])), StrayLoop(y), Some(a))
  }

  /** `fn f(l) { fold x in l { if x { return 9 } else { acc } } where acc = 0 }`: here a
      `return` in the accumulator does no harm. */
  const HARMLESS: SDecl :=
    SDecl("f", ["l"], Do(SIter(Fold, ["x"], SIdent("l"), Do(TPick(SIdent("x"), Ret(TInt(9)), Do(SIdent("acc")))),
                               Some(("acc", TInt(0))))))

  /** `r` is the block or, partially evaluated, the `return`. */
  function HarmlessLoop(r: Expr): Expr { Closure("acc", Closure("x", Pick(BVar("x", 0), r, BVar("acc", 1)))) }

  function Harmless(l: Expr, r: Expr): Expr { IterNode(Fold, ["x"], Some("acc"), l, HarmlessLoop(r), Some(N(0))) }

  lemma HarmlessText()
    ensures ElabDecl(HARMLESS) == Ok(Closure("l", Harmless(BVar("l", 0), RetBlock(9))))
  {
    hide Elab, ElabBlock, ElabDecl, Abs, RetBlock, TPick, Pick;
    var ctxt, step := Names(["l"]) + Names(["x"]) + {"acc"}, TPick(SIdent("x"), Ret(TInt(9)), Do(SIdent("acc")));
    TextLeaves();
    RetBlockText(9, ctxt);
    PickText(SIdent("x"), Ret(TInt(9)), Do(SIdent("acc")), ctxt, Var("x"), RetBlock(9), Var("acc"));
    FoldText("x", "acc", SIdent("l"), TInt(0), Do(step), Names(["l"]), Var("l"), N(0),
             Pick(Var("x"), RetBlock(9), Var("acc")));
    HarmlessBinds();
    Binds(HARMLESS, Harmless(Var("l"), RetBlock(9)));
    LambdaOne("l", Harmless(BVar("l", 0), RetBlock(9)));
  }

  lemma HarmlessBinds()
    ensures Closure("acc", Closure("x", Abs(Abs(Pick(Var("x"), RetBlock(9), Var("acc")), 0, "x"), 1, "acc")))
         == HarmlessLoop(RetBlock(9))
    ensures Abs(Harmless(Var("l"), RetBlock(9)), 0, "l") == Harmless(BVar("l", 0), RetBlock(9))
  {
    hide Abs, RetBlock;
    var b, x, acc := RetBlock(9), BVar("x", 0), BVar("acc", 1);
    AbsLeaves();
    forall i: nat, v ensures Abs(b, i, v) == b { RetBlockParts(9, i, [], N(0), v); }
    Parts3(IfExpr, Var("x"), b, Var("acc"), 0, [], N(0), "x");
    Parts3(IfExpr, x, b, Var("acc"), 1, [], N(0), "acc");
    Parts3(IfExpr, x, b, acc, 2, [], N(0), "l");
    ClosureParts("x", Pick(x, b, acc), 1, [], N(0), "l");
    ClosureParts("acc", Closure("x", Pick(x, b, acc)), 0, [], N(0), "l");
    Parts3(Iter(Fold, ["x"], Some("acc")), Var("l"), HarmlessLoop(b), N(0), 0, [], N(0), "l");
  }

  lemma HarmlessResidual(env: Env)
    ensures PEval(env, Harmless(BVar("l", 0), RetBlock(9)), false, FUEL)
         == Ok(Part(false, Harmless(BVar("l", 0), ReturnOf(N(9)))))
  {
    hide PEval, RetBlock, IsFree;
    var x, acc, r := BVar("x", 0), BVar("acc", 1), ReturnOf(N(9));
    var step, kept := Pick(x, RetBlock(9), acc), Pick(x, r, acc);
    HarmlessUses();
    RetBlockRuns(env, 9, 0, 20);
    VarLeaves(env, acc, 20);
    PickLeaves(env, x, RetBlock(9), acc, 21);
    hide Pick;
    ClosureLeaves(env, "x", step, Part(false, kept), 22);
    ClosureLeaves(env, "acc", Closure("x", step), Part(false, Closure("x", kept)), 23);
    LitGives(env, L(0), 0, 23);
    IterStays(env, Fold, "x", Some("acc"), BVar("l", 0), HarmlessLoop(RetBlock(9)), Some(N(0)), Some(Part(true, N(0))),
              Part(false, HarmlessLoop(r)), FUEL);
  }

  lemma HarmlessUses()
    ensures var kept := Pick(BVar("x", 0), ReturnOf(N(9)), BVar("acc", 1));
      !IsFree(kept, 0) && !IsFree(Closure("x", kept), 0)
  {}

  lemma HarmlessApplied(r: Expr, acc: Expr, x: bool)
    requires IsValue(acc) && (forall i: nat, u :: Subst(r, i, u, true) == r)
    ensures ApplyAll(HarmlessLoop(r), Two(acc, T(x))) == Ok(Pick(T(x), r, acc))
  {
    hide Subst, SubstList, Pick;
    var x0, a1 := BVar("x", 0), BVar("acc", 1);
    SubstLeaves(acc);
    SubstLeaves(T(x));
    ValueSubst(acc, T(x));
    PickParts(x0, r, a1, 1, acc);
    PickParts(x0, r, acc, 0, T(x));
    FoldApplied("acc", "x", Pick(x0, r, a1), acc, T(x), Pick(x0, r, acc), Pick(T(x), r, acc));
  }

  lemma PickParts(x: Expr, a: Expr, b: Expr, i: nat, u: Expr)
    ensures Subst(Pick(x, a, b), i, u, true) == Pick(Subst(x, i, u, true), Subst(a, i, u, true), Subst(b, i, u, true))
  {
    Parts3(IfExpr, x, a, b, i, [], u, "");
  }

  /** Both results are the `return`. */
  lemma HarmlessRuns(env: Env, r: Expr)
    requires (forall i: nat, u :: Subst(r, i, u, true) == r) && Eval(env, r, DEPTH) == Ok(ReturnOf(N(9)))
    ensures var v := ReturnOf(N(9));
      && IterLoop(env, ["x"], BOOLS, HarmlessLoop(r), Some(N(0)), DEPTH) == Ok((Two(v, v), Some(v)))
      && Eval(env, Harmless(Lit(ListLit(BOOLS)), r), DEPTH) == Ok(v)
  {
    hide Eval, EvalApplied, ApplyAll, Pick, HarmlessLoop, Subst;
    var loop, v, over := HarmlessLoop(r), ReturnOf(N(9)), Lit(ListLit(BOOLS));
    HarmlessApplied(r, N(0), true);
    HarmlessApplied(r, v, false);
    EvalValue(env, v, DEPTH);
    LitGives(env, L(0), DEPTH, 1);
    LitGives(env, ListLit(BOOLS), DEPTH, 1);
    PickGives(env, r, N(0), DEPTH);
    PickGives(env, r, v, DEPTH);
    AppliedGives(env, loop, Two(N(0), T(true)), Pick(T(true), r, N(0)), DEPTH, 1);
    AppliedGives(env, loop, Two(v, T(false)), Pick(T(false), r, v), DEPTH, 1);
    LoopGives(env, "x", BoolLit(true), BoolLit(false), loop, Some(N(0)), v, v, DEPTH);
    IterGives(env, Fold, "x", Some("acc"), over, loop, Some(N(0)), Some(N(0)), BOOLS, Two(v, v), Some(v), DEPTH);
  }

  /** The first result returns, and the residual is right all the same. */
  lemma ReturnHarmless(env: Env)
    ensures ElabDecl(HARMLESS) == Ok(Closure("l", Harmless(BVar("l", 0), RetBlock(9))))
    ensures PEval(env, Harmless(BVar("l", 0), RetBlock(9)), false, FUEL)
         == Ok(Part(false, Harmless(BVar("l", 0), ReturnOf(N(9)))))
    ensures var v, over := ReturnOf(N(9)), Lit(ListLit(BOOLS));
      && IterLoop(env, ["x"], BOOLS, HarmlessLoop(RetBlock(9)), Some(N(0)), DEPTH) == Ok((Two(v, v), Some(v)))
      && Eval(env, Harmless(over, RetBlock(9)), DEPTH) == Eval(env, Harmless(over, v), DEPTH) == Ok(v)
  {
    hide Eval, PEval, ElabDecl, Subst, Harmless, HarmlessLoop;
    var v := ReturnOf(N(9));
    HarmlessText();
    HarmlessResidual(env);
    RetBlockRuns(env, 9, DEPTH, 4);
    EvalValue(env, v, DEPTH);
    forall i: nat, u ensures Subst(RetBlock(9), i, u, true) == RetBlock(9) { RetBlockParts(9, i, [], u, ""); }
    forall i: nat, u ensures Subst(v, i, u, true) == v { ValueSubst(v, u); }
    HarmlessRuns(env, RetBlock(9));
    HarmlessRuns(env, v);
  }

  /** An accumulator on a `map`: the iteration that is left starts from the last one. */
  lemma StrayAccumulator(env: Env)
    ensures PEval(env, Stray(BVar("y", 2), N(0)), false, FUEL) == Ok(Part(false, Stray(BVar("y", 2), BVar("y", 0))))
    ensures Inst(Stray(BVar("y", 2), N(0)), 0, [N(1)]) == Stray(N(1), N(0))
    ensures Inst(Stray(BVar("y", 2), BVar("y", 0)), 0, [N(1)]) == Stray(N(1), N(1))
    ensures Eval(env, Stray(N(1), N(0)), DEPTH) == Ok(Lit(ListLit([L(1)])))
        && Eval(env, Stray(N(1), N(1)), DEPTH) == Ok(Lit(ListLit([L(2)])))
  {
    StrayResidual(env);
    StrayRuns(env, 0, 1);
    StrayRuns(env, 1, 2);
    hide Eval, PEval;
    assert Inst(StrayLoop(BVar("y", 2)), 0, [N(1)]) == StrayLoop(N(1));
    IterOpens(Map, "x", Some("a"), Lit(ListLit([L(1)])), StrayLoop(BVar("y", 2)), Some(N(0)), [N(1)]);
    IterOpens(Map, "x", Some("a"), Lit(ListLit([L(1)])), StrayLoop(BVar("y", 2)), Some(BVar("y", 0)), [N(1)]);
  }

  lemma StrayResidual(env: Env)
    ensures PEval(env, Stray(BVar("y", 2), N(0)), false, FUEL) == Ok(Part(false, Stray(BVar("y", 2), BVar("y", 0))))
  {
    hide PEval, PEvalApplied, ApplyAll, Simplify;
    var y, p := BVar("y", 0), Part(false, BVar("y", 0));
    LitGives(env, ListLit([L(1)]), 0, 23);
    LitGives(env, L(0), 0, 23);
    LitGives(env, L(0), 0, 22);
    VarLeaves(env, y, 22);
    InfixLeaves(env, Plus, N(0), y, Part(true, N(0)), p, 23);
    ZeroSimplified(y);
    assert Subst(Infixed(Plus, BVar("a", 1), BVar("y", 2)), 1, N(0), true) == Infixed(Plus, N(0), BVar("y", 1));
    assert Subst(Infixed(Plus, N(0), BVar("y", 1)), 0, N(1), true) == Infixed(Plus, N(0), y);
    FoldApplied("a", "x", Infixed(Plus, BVar("a", 1), BVar("y", 2)), N(0), N(1), Infixed(Plus, N(0), BVar("y", 1)),
                Infixed(Plus, N(0), y));
    AppliedGives(env, StrayLoop(BVar("y", 2)), Two(N(0), N(1)), Infixed(Plus, N(0), y), 0, 23);
    LoopLeaves(env, "x", L(1), L(1), StrayLoop(BVar("y", 2)), Some(Part(true, N(0))), p, p, 23);
    PartsTwo(p, p);
    IterLeaves(env, Map, "x", Some("a"), Lit(ListLit([L(1)])), StrayLoop(BVar("y", 2)), Some(N(0)),
               Some(Part(true, N(0))), [L(1)], Cons(p, Nil), Some(p), FUEL);
  }

  lemma ZeroSimplified(y: Expr)
    requires y.BVar?
    ensures Simplify(Plus, Part(true, N(0)), Part(false, y)) == Ok(Part(false, y))
  {}

  lemma StrayRuns(env: Env, a: i64, r: i64)
    requires a < 2 && r == a + 1
    ensures Eval(env, Stray(N(1), N(a)), DEPTH) == Ok(Lit(ListLit([L(r)])))
  {
    hide Eval, EvalApplied, ApplyAll, Subst, IterResult;
    LitGives(env, ListLit([L(1)]), DEPTH, 1);
    LitGives(env, L(a), DEPTH, 1);
    LitGives(env, L(1), DEPTH, 1);
    InfixGives(env, Plus, N(a), N(1), DEPTH, N(a), N(1));
    SubstLeaves(N(a));
    SubstLeaves(N(1));
    Parts2(InfixExpr(Plus), BVar("a", 1), N(1), 1, [], N(a), "");
    Parts2(InfixExpr(Plus), N(a), N(1), 0, [], N(1), "");
    FoldApplied("a", "x", Infixed(Plus, BVar("a", 1), N(1)), N(a), N(1), Infixed(Plus, N(a), N(1)),
                Infixed(Plus, N(a), N(1)));
    AddOne(a, r);
    assert AllValues(One(N(1))) && AllValues(Two(N(a), N(1)));
    AppliedGives(env, StrayLoop(N(1)), Two(N(a), N(1)), Infixed(Plus, N(a), N(1)), DEPTH, 1);
    LoopGives(env, "x", L(1), L(1), StrayLoop(N(1)), Some(N(a)), N(r), N(r), DEPTH);
    IterGives(env, Map, "x", Some("a"), Lit(ListLit([L(1)])), StrayLoop(N(1)), Some(N(a)), Some(N(a)), [L(1)],
              One(N(r)), Some(N(r)), DEPTH);
    OneResult(r, Some(N(r)));
  }

  lemma OneResult(r: i64, last: Option<Expr>)
    ensures IterResult(Map, [L(1)], One(N(r)), last) == Ok(Lit(ListLit([L(r)])))
  {
    assert Literals(Nil) == Some([]) && [L(r)] + [] == [L(r)] && FirstReturn(Nil).None?;
    assert Literals(One(N(r))) == Some([L(r)]) && FirstReturn(One(N(r))).None?;
  }

  lemma AddOne(a: i64, r: i64)
    requires a < 2 && r == a + 1
    ensures InfixResult(Plus, N(a), N(1)) == Ok(N(r))
  {
    assert IntInfix(Plus, a, 1) == Some(L(Wrap(a + 1)));
    assert Wrap(a + 1) == r;
    assert EvalInfix(Plus, L(a), L(1)) == Some(L(r));
  }

  /** A closure by itself: without its binder an index dangles that did not before. */
  lemma ClosureDangles(env: Env)
    ensures Closed(Closure("x", BVar("y", 1)), 1)
        && PEval(env, Closure("x", BVar("y", 1)), false, FUEL) == Ok(Part(true, BVar("y", 1)))
    ensures !Closed(BVar("y", 1), 1)
  {
    VarLeaves(env, BVar("y", 1), 23);
  }
}
