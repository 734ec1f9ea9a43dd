/** Single steps of elaboration, evaluation and partial evaluation, for running
    given programs: what a construct comes to when its parts are known. */
module Steps {
  import opened Prelude
  import opened Syntax
  import opened Terms
  import opened TermLaws
  import opened TermProps
  import opened Interpret
  import opened Safety
  import opened Shapes
  import opened Specialize
  import opened Simulation
  import opened Soundness
  import opened Compile
  import opened Elaborate

  const FUEL: nat := 24
  const DEPTH: nat := 2

  // ----- text and terms -----

  /** Binding the parameters, the last one innermost. */
  lemma Binds(d: SDecl, e: Expr)
    requires ElabBlock(d.body, Names(d.params)) == Ok(e)
    ensures |d.params| == 0 ==> ElabDecl(d) == Ok(Lambda(d.params, e))
    ensures |d.params| == 1 ==> ElabDecl(d) == Ok(Lambda(d.params, Abs(e, 0, d.params[0])))
    ensures |d.params| == 2 ==> ElabDecl(d) == Ok(Lambda(d.params, Abs(Abs(e, 0, d.params[1]), 1, d.params[0])))
    ensures |d.params| == 3 ==>
      ElabDecl(d) == Ok(Lambda(d.params, Abs(Abs(Abs(e, 0, d.params[2]), 1, d.params[1]), 2, d.params[0])))
  {
    hide ElabBlock, Abs, CloseAll, Lambda;
    var vs := d.params;
    if |vs| == 0 { BindsNone(e); }
    if |vs| == 1 { BindsOne(vs[0], e); assert vs == [vs[0]]; }
    if |vs| == 2 { BindsTwo(vs[0], vs[1], e); assert vs == [vs[0], vs[1]]; }
    if |vs| == 3 { BindsThree(vs[0], vs[1], vs[2], e); assert vs == [vs[0], vs[1], vs[2]]; }
  }

  lemma BindsNone(e: Expr)
    ensures CloseAll(e, []) == Lambda([], e) == e
  {}

  lemma BindsFirst(x: Name, rest: seq<Name>, e: Expr, b: Expr)
    ensures CloseAll(e, [x] + rest) == Closure(x, Abs(CloseAll(e, rest), 0, x))
    ensures Lambda([x] + rest, b) == Closure(x, Lambda(rest, b))
  {
    assert ([x] + rest)[1..] == rest;
    hide Abs;
  }

  lemma BindsOne(x: Name, e: Expr)
    ensures CloseAll(e, [x]) == Lambda([x], Abs(e, 0, x)) == Closure(x, Abs(e, 0, x))
  {
    hide Abs, CloseAll, Lambda;
    BindsNone(e);
    BindsNone(Abs(e, 0, x));
    BindsFirst(x, [], e, Abs(e, 0, x));
    assert [x] + [] == [x];
  }

  lemma BindsTwo(x: Name, y: Name, e: Expr)
    ensures var b := Abs(Abs(e, 0, y), 1, x);
      CloseAll(e, [x, y]) == Lambda([x, y], b) == Closure(x, Closure(y, b))
  {
    hide Abs, CloseAll, Lambda;
    var b := Abs(Abs(e, 0, y), 1, x);
    BindsOne(y, e);
    BindsFirst(x, [y], e, b);
    LambdaOne(y, b);
    assert [x] + [y] == [x, y];
    AbsClosed(y, Abs(e, 0, y), 0, x);
  }

  lemma BindsThree(x: Name, y: Name, z: Name, e: Expr)
    ensures CloseAll(e, [x, y, z]) == Lambda([x, y, z], Abs(Abs(Abs(e, 0, z), 1, y), 2, x))
  {
    hide Abs, CloseAll, Lambda;
    var b := Abs(Abs(Abs(e, 0, z), 1, y), 2, x);
    BindsTwo(y, z, e);
    BindsFirst(x, [y, z], e, b);
    BindsFirst(y, [z], e, b);
    LambdaOne(z, b);
    assert [x] + [y, z] == [x, y, z] && [y] + [z] == [y, z];
    AbsClosed(y, Closure(z, Abs(Abs(e, 0, z), 1, y)), 0, x);
    AbsClosed(z, Abs(Abs(e, 0, z), 1, y), 1, x);
  }

  lemma LambdaOne(x: Name, b: Expr)
    ensures Lambda([x], b) == Closure(x, b)
  {
    BindsNone(b);
    BindsFirst(x, [], b, b);
    assert [x] + [] == [x];
  }

  lemma AbsClosed(x: string, b: Expr, i: nat, v: string)
    ensures Abs(Closure(x, b), i, v) == Closure(x, Abs(b, i + 1, v))
  {}

  function TInt(i: i64): SExpr { SLit(Flat(Int(i))) }

  function TBool(b: bool): SExpr { SLit(BoolLit(b)) }

  /** The blocks `{ e }` and `{ return e }`. */
  function Do(e: SExpr): List<SStmt> { Cons(SDo(e, false), Nil) }

  function Ret(e: SExpr): List<SStmt> { Cons(SReturn(e), Nil) }

  /** `if c { return a } else { b }` as text, elaborated, and partially evaluated. */
  function TReturnIf(c: SExpr, a: SExpr, b: SExpr): SExpr { SIf(c, Ret(a), Some(Do(b))) }

  function ReturnIf(c: Expr, a: Expr, b: Expr): Expr {
    Node(IfExpr, Three(c, Node(BlockExpr(StmtBlock), One(ReturnOf(a))), b))
  }

  function ReturnIfKept(c: Expr, a: Expr, b: Expr): Expr { Node(IfExpr, Three(c, ReturnOf(a), b)) }

  lemma ReturnIfOpens(c: Expr, a: Expr, b: Expr, d: nat, s: seq<Expr>)
    requires a.Lit?
    ensures Inst(ReturnIf(c, a, b), d, s) == ReturnIf(Inst(c, d, s), a, Inst(b, d, s))
    ensures Inst(ReturnIfKept(c, a, b), d, s) == ReturnIfKept(Inst(c, d, s), a, Inst(b, d, s))
  {
    var block := Node(BlockExpr(StmtBlock), One(ReturnOf(a)));
    assert InstList(One(a), d, s) == One(a);
    assert Inst(ReturnOf(a), d, s) == ReturnOf(a);
    assert InstList(One(ReturnOf(a)), d, s) == One(ReturnOf(a));
    assert Inst(block, d, s) == block;
    assert InstList(One(b), d, s) == One(Inst(b, d, s));
    assert InstList(Two(block, b), d, s) == Two(block, Inst(b, d, s));
    assert InstList(Two(ReturnOf(a), b), d, s) == Two(ReturnOf(a), Inst(b, d, s));
  }

  lemma ReturnIfSubst(c: Expr, a: Expr, b: Expr, i: nat, u: Expr)
    requires a.Lit?
    ensures Subst(ReturnIf(c, a, b), i, u, true) == ReturnIf(Subst(c, i, u, true), a, Subst(b, i, u, true))
  {
    assert Closed(a, i) && ClosedList(Nil, i);
    assert ClosedList(One(a), i);
    assert ClosedList(One(ReturnOf(a)), i);
    SubstClosed(Node(BlockExpr(StmtBlock), One(ReturnOf(a))), i, u, true);
    Parts3(IfExpr, c, Node(BlockExpr(StmtBlock), One(ReturnOf(a))), b, i, [], u, "");
  }

  lemma ReturnIfRuns(env: Env, a: Expr, b: Expr, k: nat)
    requires a.Lit?
    ensures Eval(env, ReturnIf(T(true), a, b), k) == Eval(env, ReturnIfKept(T(true), a, b), k) == Ok(ReturnOf(a))
  {
    var block := Node(BlockExpr(StmtBlock), One(ReturnOf(a)));
    assert Eval(env, ReturnOf(a), k) == Ok(ReturnOf(a));
    assert EvalBlock(env, One(ReturnOf(a)), k) == Ok(ReturnOf(a));
    assert EvalNode(env, BlockExpr(StmtBlock), One(ReturnOf(a)), k) == Ok(ReturnOf(a));
    assert EvalIf(env, Three(T(true), block, b), k) == Ok(ReturnOf(a));
    assert EvalIf(env, Three(T(true), ReturnOf(a), b), k) == Ok(ReturnOf(a));
  }

  lemma ReturnIfResidual(env: Env, c: Expr, a: Expr, b: Expr, so: bool, n: nat)
    requires a.Lit? && (b.Lit? || b.BVar?) && (c.BVar? || c == T(true)) && n >= 5
    ensures PEval(env, ReturnIf(c, a, b), so, n)
         == Ok(if c.BVar? then Part(false, ReturnIfKept(c, a, b)) else Part(true, ReturnOf(a)))
  {
    var block := Node(BlockExpr(StmtBlock), One(ReturnOf(a)));
    assert PEvalReturn(env, One(a), so, n - 3) == Ok(Part(true, ReturnOf(a)));
    assert PEvalNode(env, ReturnExpr, One(a), so, n - 3) == Ok(Part(true, ReturnOf(a)));
    assert PEval(env, ReturnOf(a), so, n - 2) == Ok(Part(true, ReturnOf(a)));
    assert PEvalNode(env, BlockExpr(StmtBlock), One(ReturnOf(a)), so, n - 2) == Ok(Part(true, ReturnOf(a)));
    assert PEval(env, block, so, n - 1) == Ok(Part(true, ReturnOf(a)));
    assert PEval(env, c, so, n - 1) == Ok(Part(c.Lit?, c)) && PEval(env, b, so, n - 1) == Ok(Part(b.Lit?, b));
    assert PEvalIf(env, Three(c, block, b), so, n - 1)
        == Ok(if c.BVar? then Part(false, ReturnIfKept(c, a, b)) else Part(true, ReturnOf(a)));
    assert PEvalNode(env, IfExpr, Three(c, block, b), so, n - 1) == PEvalIf(env, Three(c, block, b), so, n - 1);
  }

  function Call(f: string, args: List<Expr>): Expr { Node(CallExpr(f, false), args) }

  /** A call whose arguments are literals, when the opened body is known to run. */
  lemma CallGives(env: Env, f: string, args: List<Expr>, body: Expr, v: Expr)
    requires f in env.code && LitList(args) && ApplyAll(env.code[f], args) == Ok(body)
        && Eval(env, body, DEPTH - 1) == Ok(v)
    ensures Eval(env, Call(f, args), DEPTH) == Ok(StripReturn(v))
  {
    hide ApplyAll, StripReturn;
    LitsRun(env, args, DEPTH);
    assert EvalCall(env, f, false, args, DEPTH) == Ok(StripReturn(v));
    assert EvalNode(env, CallExpr(f, false), args, DEPTH) == EvalCallExpr(env, f, false, args, DEPTH);
  }

  lemma LitsRun(env: Env, args: List<Expr>, k: nat)
    requires LitList(args)
    ensures EvalList(env, args, k) == Ok(args) && FirstReturn(args).None?
  {}

  /** An operator, when its operands are known to run or have been specialized. */
  lemma InfixGives(env: Env, op: Infix, a: Expr, b: Expr, k: nat, v: Expr, w: Expr)
    requires !ShortCircuits(op) && Eval(env, a, k) == Ok(v) && Eval(env, b, k) == Ok(w)
    ensures IsValue(v) && IsValue(w) && Eval(env, Infixed(op, a, b), k) == InfixResult(op, v, w)
  {
    hide InfixResult;
    assert EvalNode(env, InfixExpr(op), Two(a, b), k) == EvalInfixExpr(env, op, Two(a, b), k);
  }

  lemma InfixLeaves(env: Env, op: Infix, a: Expr, b: Expr, p: Part, q: Part, n: nat)
    requires n > 0 && PEval(env, a, false, n - 1) == Ok(p) && PEval(env, b, false, n - 1) == Ok(q)
    ensures PEval(env, Infixed(op, a, b), false, n) == InfixPart(op, p, q)
  {
    hide Simplify, InfixParts;
    assert PEvalNode(env, InfixExpr(op), Two(a, b), false, n - 1) == PEvalInfix(env, op, Two(a, b), false, n - 1);
  }

  /** A call that is inlined. */
  lemma CallInlined(env: Env, f: string, args: List<Expr>, ps: List<Part>, body: Expr, q: Part, n: nat)
    requires f in env.code && n > 0 && PEvalList(env, args, false, n - 1) == Ok(ps) && FirstReturn(Residuals(ps)).None?
    requires ApplyAll(env.code[f], Residuals(ps)) == Ok(body) && PEval(env, body, false, n - 1) == Ok(q)
    ensures PEval(env, Call(f, args), false, n) == Ok(Part(AllKnown(ps) && q.known, StripReturn(q.e)))
  {
    hide ApplyAll, StripReturn, Residuals;
    assert PEvaluate(env, body, false, n - 1) == Ok(Part(q.known, StripReturn(q.e)));
    assert PEvalInline(env, f, ps, false, n - 1) == Ok(Part(AllKnown(ps) && q.known, StripReturn(q.e)));
    assert PEvalCall(env, f, false, args, false, n - 1) == PEvalInline(env, f, ps, false, n - 1);
    assert PEvalNode(env, CallExpr(f, false), args, false, n - 1) == PEvalCall(env, f, false, args, false, n - 1);
  }

  // ----- iterations over one or two elements -----

  function L(i: i64): Literal { Flat(Int(i)) }

  function TList1(i: i64): SExpr { SGroup(ListBlock, Cons(TInt(i), Nil)) }

  function List1(i: i64): Expr { Node(BlockExpr(ListBlock), One(N(i))) }

  lemma Listed(env: Env, l: Literal, m: Literal, k: nat, n: nat)
    requires n > 1
    ensures Eval(env, Node(BlockExpr(ListBlock), One(Lit(l))), k) == Ok(Lit(ListLit([l])))
    ensures Eval(env, Node(BlockExpr(ListBlock), Two(Lit(l), Lit(m))), k) == Ok(Lit(ListLit([l, m])))
    ensures PEval(env, Node(BlockExpr(ListBlock), One(Lit(l))), false, n) == Ok(Part(true, Lit(ListLit([l]))))
    ensures PEval(env, Node(BlockExpr(ListBlock), Two(Lit(l), Lit(m))), false, n)
        == Ok(Part(true, Lit(ListLit([l, m]))))
  {
    var a, b, p, q := Lit(l), Lit(m), Part(true, Lit(l)), Part(true, Lit(m));
    ListResults(l, m);
    LitsRun(env, One(a), k);
    LitsRun(env, Two(a, b), k);
    LitLeaves(env, l, Nil, n - 1);
    LitLeaves(env, m, Nil, n - 1);
    LitLeaves(env, l, One(b), n - 1);
    PartsTwo(p, q);
    GroupStep(env, One(a), k, n);
    GroupStep(env, Two(a, b), k, n);
    hide Eval, PEval, BlockResult;
  }

  lemma PartsTwo(p: Part, q: Part)
    ensures Residuals(Cons(p, Nil)) == One(p.e) && (AllKnown(Cons(p, Nil)) <==> p.known)
    ensures Residuals(Cons(p, Cons(q, Nil))) == Two(p.e, q.e)
        && (AllKnown(Cons(p, Cons(q, Nil))) <==> p.known && q.known)
  {
    assert Residuals(Cons(q, Nil)) == One(q.e) && (AllKnown(Cons(q, Nil)) <==> q.known);
  }

  lemma GroupStep(env: Env, es: List<Expr>, k: nat, n: nat)
    requires n > 0
    ensures Eval(env, Node(BlockExpr(ListBlock), es), k) == EvalGroup(env, ListBlock, es, k)
    ensures PEval(env, Node(BlockExpr(ListBlock), es), false, n) == PEvalGroup(env, ListBlock, es, false, n - 1)
  {
    assert EvalNode(env, BlockExpr(ListBlock), es, k) == EvalGroup(env, ListBlock, es, k);
    assert PEvalNode(env, BlockExpr(ListBlock), es, false, n - 1) == PEvalGroup(env, ListBlock, es, false, n - 1);
  }

  lemma LitLeaves(env: Env, l: Literal, rest: List<Expr>, n: nat)
    requires n > 0 && PEvalList(env, rest, false, n).Ok?
    ensures PEvalList(env, Cons(Lit(l), rest), false, n)
        == Ok(Cons(Part(true, Lit(l)), PEvalList(env, rest, false, n).value))
  {
    assert PEval(env, Lit(l), false, n) == Ok(Part(true, Lit(l)));
  }

  lemma ListResults(l: Literal, m: Literal)
    ensures BlockResult(ListBlock, One(Lit(l))) == Ok(Lit(ListLit([l])))
    ensures BlockResult(ListBlock, Two(Lit(l), Lit(m))) == Ok(Lit(ListLit([l, m])))
  {
    assert Literals(Nil) == Some([]) && FirstReturn(One(Lit(m))).None?;
    assert [l] + [] == [l] && [m] + [] == [m] && [l] + [m] == [l, m];
    assert Literals(One(Lit(m))) == Some([m]) && Literals(One(Lit(l))) == Some([l]);
  }

  lemma LitGives(env: Env, l: Literal, k: nat, n: nat)
    requires n > 0
    ensures Eval(env, Lit(l), k) == Ok(Lit(l)) && PEval(env, Lit(l), false, n) == Ok(Part(true, Lit(l)))
  {}

  lemma VarLeaves(env: Env, x: Expr, n: nat)
    requires x.BVar? && n > 0
    ensures PEval(env, x, false, n) == Ok(Part(false, x))
    ensures PEvalList(env, One(x), false, n) == Ok(Cons(Part(false, x), Nil))
  {
    assert PEvalList(env, Nil, false, n) == Ok(Nil);
  }

  lemma AppliedGives(env: Env, f: Expr, us: List<Expr>, e: Expr, k: nat, n: nat)
    requires ApplyAll(f, us) == Ok(e)
    ensures AllValues(us) ==> EvalApplied(env, f, Some(us), k) == Eval(env, e, k)
    ensures PEvalApplied(env, f, us, false, n) == PEval(env, e, false, n)
  {
    hide ApplyAll;
  }

  lemma ElementArgs(x: string, l: Literal)
    requires x != "_"
    ensures IterArgs([x], l) == Some(One(Lit(l)))
  {
    assert [x][1..] == [] && [l][1..] == [] && Bound([], []) == Nil;
  }

  function Next<T>(acc: Option<T>, v: T): Option<T> { if acc.Some? then Some(v) else None }

  lemma LoopGives(env: Env, x: string, l: Literal, m: Literal, body: Expr, acc: Option<Expr>, v: Expr, w: Expr, k: nat)
    requires x != "_" && (acc.Some? ==> IsValue(acc.value)) && IsValue(v)
    requires EvalApplied(env, body, Some(AccArgs(acc, One(Lit(l)))), k) == Ok(v)
    ensures IterLoop(env, [x], [l], body, acc, k) == Ok((One(v), Next(acc, v)))
    ensures EvalApplied(env, body, Some(AccArgs(Next(acc, v), One(Lit(m)))), k) == Ok(w)
      ==> IterLoop(env, [x], [l, m], body, acc, k) == Ok((Two(v, w), Next(acc, w)))
  {
    hide EvalApplied;
    ElementArgs(x, l);
    ElementArgs(x, m);
    assert [l][1..] == [] && [l, m][1..] == [m] && [m][1..] == [];
    assert IterLoop(env, [x], [], body, Next(acc, v), k) == Ok((Nil, Next(acc, v)));
    if EvalApplied(env, body, Some(AccArgs(Next(acc, v), One(Lit(m)))), k) == Ok(w) {
      assert IterLoop(env, [x], [], body, Next(acc, w), k) == Ok((Nil, Next(acc, w)));
      assert IterLoop(env, [x], [m], body, Next(acc, v), k) == Ok((One(w), Next(acc, w)));
    }
  }

  lemma IterGives(env: Env, op: IterOp, x: string, n: Option<string>, over: Expr, body: Expr, acc: Option<Expr>,
                  a: Option<Expr>,
                  lits: seq<Literal>, rs: List<Expr>, last: Option<Expr>, k: nat)
    requires (n.Some? <==> acc.Some?) && (n.Some? <==> a.Some?) && Eval(env, over, k) == Ok(Lit(ListLit(lits)))
    requires acc.Some? ==> Eval(env, acc.value, k) == Ok(a.value) && IsValue(a.value)
    requires IterLoop(env, [x], lits, body, a, k) == Ok((rs, last))
    ensures Eval(env, IterNode(op, [x], n, over, body, acc), k) == IterResult(op, lits, rs, last)
  {
    hide IterLoop, IterResult;
    var es := if acc.Some? then Three(over, body, acc.value) else Two(over, body);
    assert EvalIter(env, op, [x], lits, body, a, k) == IterResult(op, lits, rs, last);
    assert EvalNode(env, Iter(op, [x], n), es, k) == EvalIterExpr(env, op, [x], n.Some?, es, k);
  }

  lemma LoopFails(env: Env, op: IterOp, x: string, n: Option<string>, over: Expr, body: Expr, acc: Option<Expr>,
                  a: Option<Expr>,
                  l: Literal, rest: seq<Literal>, v: Expr, k: nat)
    requires x != "_" && (n.Some? <==> acc.Some?) && (n.Some? <==> a.Some?)
    requires Eval(env, over, k) == Ok(Lit(ListLit([l] + rest)))
    requires acc.Some? ==> Eval(env, acc.value, k) == Ok(a.value) && IsValue(a.value)
    requires var r := EvalApplied(env, body, Some(AccArgs(a, One(Lit(l)))), k);
      || r.Err?
      || (r == Ok(v) && |rest| == 1 && EvalApplied(env, body, Some(AccArgs(Next(a, v), One(Lit(rest[0])))), k).Err?)
    ensures Eval(env, IterNode(op, [x], n, over, body, acc), k).Err?
  {
    hide EvalApplied, IterResult;
    var es := if acc.Some? then Three(over, body, acc.value) else Two(over, body);
    ElementArgs(x, l);
    if |rest| == 1 { ElementArgs(x, rest[0]); }
    assert ([l] + rest)[0] == l && ([l] + rest)[1..] == rest;
    assert IterLoop(env, [x], [l] + rest, body, a, k).Err?;
    assert EvalIter(env, op, [x], [l] + rest, body, a, k).Err?;
    assert EvalNode(env, Iter(op, [x], n), es, k) == EvalIterExpr(env, op, [x], n.Some?, es, k);
  }

  lemma LoopLeaves(env: Env, x: string, l: Literal, m: Literal, body: Expr, acc: Option<Part>, p: Part, q: Part, n: nat)
    requires x != "_" && PEvalApplied(env, body, AccArgs(PartExpr(acc), One(Lit(l))), false, n) == Ok(p)
    ensures PIterLoop(env, [x], [l], body, acc, false, n) == Ok((Cons(p, Nil), Next(acc, p)))
    ensures PEvalApplied(env, body, AccArgs(PartExpr(Next(acc, p)), One(Lit(m))), false, n) == Ok(q)
      ==> PIterLoop(env, [x], [l, m], body, acc, false, n) == Ok((Cons(p, Cons(q, Nil)), Next(acc, q)))
  {
    hide PEvalApplied;
    ElementArgs(x, l);
    ElementArgs(x, m);
    assert [l][1..] == [] && [l, m][1..] == [m] && [m][1..] == [];
    assert PIterLoop(env, [x], [], body, Next(acc, p), false, n) == Ok((Nil, Next(acc, p)));
    if PEvalApplied(env, body, AccArgs(PartExpr(Next(acc, p)), One(Lit(m))), false, n) == Ok(q) {
      assert PIterLoop(env, [x], [], body, Next(acc, q), false, n) == Ok((Nil, Next(acc, q)));
      assert PIterLoop(env, [x], [m], body, Next(acc, p), false, n) == Ok((Cons(q, Nil), Next(acc, q)));
    }
  }

  /** Partial evaluation over a known list. */
  lemma IterLeaves(env: Env, op: IterOp, x: string, n: Option<string>, over: Expr, body: Expr, acc: Option<Expr>,
                   a: Option<Part>,
                   lits: seq<Literal>, ps: List<Part>, last: Option<Part>, f: nat)
    requires (n.Some? <==> acc.Some?) && (n.Some? <==> a.Some?) && f > 0
    requires PEval(env, over, false, f - 1) == Ok(Part(true, Lit(ListLit(lits))))
    requires acc.Some? ==> PEval(env, acc.value, false, f - 1) == Ok(a.value) && a.value.known
    requires PIterLoop(env, [x], lits, body, a, false, f - 1) == Ok((ps, last))
    ensures PEval(env, IterNode(op, [x], n, over, body, acc), false, f) == PIterResult(op, [x], n, lits, body, ps, last)
  {
    hide PIterLoop, PIterResult;
    var es := if acc.Some? then Three(over, body, acc.value) else Two(over, body);
    assert PEvalAcc(env, n, es, false, f - 1) == Ok(a);
    assert PEvalNode(env, Iter(op, [x], n), es, false, f - 1) == PEvalIter(env, op, [x], n, es, false, f - 1);
  }

  /** Partial evaluation over an unknown list. */
  lemma IterStays(env: Env, op: IterOp, x: string, n: Option<string>, over: Expr, body: Expr, acc: Option<Expr>,
                  a: Option<Part>,
                  b: Part, f: nat)
    requires (n.Some? <==> acc.Some?) && (n.Some? <==> a.Some?) && f > 1 && over.BVar?
    requires PEval(env, body, false, f - 1) == Ok(b)
    requires acc.Some? ==> PEval(env, acc.value, false, f - 1) == Ok(a.value)
    ensures PEval(env, IterNode(op, [x], n, over, body, acc), false, f)
         == Ok(Part(false, IterNode(op, [x], n, over, b.e, PartExpr(a))))
  {
    var es := if acc.Some? then Three(over, body, acc.value) else Two(over, body);
    assert PEval(env, over, false, f - 1) == Ok(Part(false, over));
    assert PEvalAcc(env, n, es, false, f - 1) == Ok(a);
    assert PEvalNode(env, Iter(op, [x], n), es, false, f - 1) == PEvalIter(env, op, [x], n, es, false, f - 1);
  }

  function N(i: i64): Expr { Lit(Flat(Int(i))) }

  function T(b: bool): Expr { Lit(BoolLit(b)) }

  function Infixed(op: Infix, a: Expr, b: Expr): Expr { Node(InfixExpr(op), Two(a, b)) }

  function Equals(a: Expr, b: Expr): Expr { Infixed(Equal, a, b) }

  /** `if x { a } else { b }`. */
  function TPick(x: SExpr, a: List<SStmt>, b: List<SStmt>): SExpr { SIf(x, a, Some(b)) }

  function Pick(x: Expr, a: Expr, b: Expr): Expr { Node(IfExpr, Three(x, a, b)) }

  lemma PickText(x: SExpr, a: List<SStmt>, b: List<SStmt>, ctxt: set<string>, x': Expr, a': Expr, b': Expr)
    requires Elab(x, ctxt) == Ok(x') && ElabBlock(a, ctxt) == Ok(a') && ElabBlock(b, ctxt) == Ok(b')
    ensures Elab(TPick(x, a, b), ctxt) == Ok(Pick(x', a', b'))
  {
    IfText(x, a, b, ctxt);
    hide Elab, ElabBlock;
  }

  lemma IfText(x: SExpr, a: List<SStmt>, b: List<SStmt>, ctxt: set<string>)
    ensures Elab(SIf(x, a, Some(b)), ctxt)
         == match (Elab(x, ctxt), ElabBlock(a, ctxt), ElabBlock(b, ctxt))
            case (Ok(c), Ok(t), Ok(e)) => Ok(Node(IfExpr, Three(c, t, e)))
            case _ => Err(Failed)
  {
    assert ElabAlt(Some(b), ctxt)
        == match ElabBlock(b, ctxt) case Ok(e) => Ok(One(e)) case Err(err) => Err(err);
  }

  lemma ReturnIfText(c: SExpr, i: i64, b: SExpr, ctxt: set<string>, c': Expr, b': Expr)
    requires Elab(c, ctxt) == Ok(c') && Elab(b, ctxt) == Ok(b')
    ensures Elab(TReturnIf(c, TInt(i), b), ctxt) == Ok(ReturnIf(c', N(i), b'))
  {
    IfText(c, Ret(TInt(i)), Do(b), ctxt);
    TextLeaves();
    RetBlockText(i, ctxt);
    hide Elab, ElabBlock;
  }

  lemma RetBlockText(i: i64, ctxt: set<string>)
    ensures ElabBlock(Ret(TInt(i)), ctxt) == Ok(RetBlock(i))
  {}

  lemma TextLeaves()
    ensures forall i: i64, ctxt: set<string> :: Elab(TInt(i), ctxt) == Ok(N(i))
    ensures forall b: bool, ctxt: set<string> :: Elab(TBool(b), ctxt) == Ok(T(b))
    ensures forall x: Name, ctxt: set<string> :: x in ctxt ==> Elab(SIdent(x), ctxt) == Ok(Var(x))
    ensures forall e: SExpr, ctxt: set<string> :: ElabBlock(Do(e), ctxt) == Elab(e, ctxt)
  {}

  lemma InfixText(op: Infix, a: SExpr, b: SExpr, ctxt: set<string>, a': Expr, b': Expr)
    requires Elab(a, ctxt) == Ok(a') && Elab(b, ctxt) == Ok(b')
    ensures Elab(SInfix(op, a, b), ctxt) == Ok(Infixed(op, a', b'))
  {}

  lemma LetUnfolds(y: string, e: SExpr, rest: List<SStmt>, ctxt: set<string>)
    requires y != "_"
    ensures ElabBlock(Cons(SLet([y], e), rest), ctxt)
         == match (Elab(e, ctxt), ElabBlock(rest, ctxt + Names([y])))
            case (Ok(x), Ok(b)) => Ok(Node(Let([y]), Two(x, CloseAll(b, [y]))))
            case _ => Err(Failed)
  {
    assert [y] != ["_"] by { assert [y][0] != "_"; }
  }

  lemma PickGives(env: Env, a: Expr, b: Expr, k: nat)
    ensures Eval(env, Pick(T(true), a, b), k) == Eval(env, a, k)
    ensures Eval(env, Pick(T(false), a, b), k) == Eval(env, b, k)
  {
    hide Eval;
    LitGives(env, BoolLit(true), k, 1);
    LitGives(env, BoolLit(false), k, 1);
    PickRuns(env, T(true), a, b, k);
    PickRuns(env, T(false), a, b, k);
    assert EvalAlt(env, One(b), k) == Eval(env, b, k);
  }

  lemma PickRuns(env: Env, x: Expr, a: Expr, b: Expr, k: nat)
    ensures Eval(env, Pick(x, a, b), k) == EvalIf(env, Three(x, a, b), k)
  {
    assert EvalNode(env, IfExpr, Three(x, a, b), k) == EvalIf(env, Three(x, a, b), k);
  }

  lemma PickLeaves(env: Env, x: Expr, a: Expr, b: Expr, n: nat)
    requires n > 1
    ensures PEval(env, Pick(T(true), a, b), false, n) == PEval(env, a, false, n - 1)
    ensures PEval(env, Pick(T(false), a, b), false, n) == PEval(env, b, false, n - 1)
    ensures x.BVar? && PEval(env, a, false, n - 1).Ok? && PEval(env, b, false, n - 1).Ok?
      && PEval(env, a, false, n - 1).value.e != PEval(env, b, false, n - 1).value.e
      ==> PEval(env, Pick(x, a, b), false, n)
          == Ok(Part(false, Pick(x, PEval(env, a, false, n - 1).value.e, PEval(env, b, false, n - 1).value.e)))
  {
    hide PEval;
    LitGives(env, BoolLit(true), 0, n - 1);
    LitGives(env, BoolLit(false), 0, n - 1);
    if x.BVar? { VarLeaves(env, x, n - 1); }
    PickUnfolds(env, T(true), a, b, n);
    PickUnfolds(env, T(false), a, b, n);
    PickUnfolds(env, x, a, b, n);
  }

  lemma PickUnfolds(env: Env, x: Expr, a: Expr, b: Expr, n: nat)
    requires n > 0
    ensures PEval(env, Pick(x, a, b), false, n) == PEvalIf(env, Three(x, a, b), false, n - 1)
  {
    assert PEvalNode(env, IfExpr, Three(x, a, b), false, n - 1) == PEvalIf(env, Three(x, a, b), false, n - 1);
  }

  /** Applying the two closures of a fold. */
  lemma FoldApplied(n: string, x: string, b: Expr, acc: Expr, u: Expr, c: Expr, d: Expr)
    requires Subst(b, 1, acc, true) == c && Subst(c, 0, u, true) == d
    ensures ApplyAll(Closure(n, Closure(x, b)), Two(acc, u)) == Ok(d)
  {
    assert Subst(Closure(x, b), 0, acc, true) == Closure(x, c);
    assert ApplyAll(d, Nil) == Ok(d);
    assert ApplyAll(Closure(x, c), One(u)) == Ok(d);
  }

  /** Opening, substituting and binding in nodes with two or three parts. */
  lemma Parts2(t: Tag, a: Expr, b: Expr, i: nat, s: seq<Expr>, u: Expr, v: string)
    ensures Inst(Node(t, Two(a, b)), i, s) == Node(t, Two(Inst(a, i, s), Inst(b, i, s)))
    ensures Subst(Node(t, Two(a, b)), i, u, true) == Node(t, Two(Subst(a, i, u, true), Subst(b, i, u, true)))
    ensures Abs(Node(t, Two(a, b)), i, v) == Node(t, Two(Abs(a, i, v), Abs(b, i, v)))
  {
    assert InstList(One(b), i, s) == One(Inst(b, i, s));
    assert SubstList(One(b), i, u, true) == One(Subst(b, i, u, true));
    assert AbsList(One(b), i, v) == One(Abs(b, i, v));
  }

  lemma Parts3(t: Tag, a: Expr, b: Expr, c: Expr, i: nat, s: seq<Expr>, u: Expr, v: string)
    ensures Inst(Node(t, Three(a, b, c)), i, s) == Node(t, Three(Inst(a, i, s), Inst(b, i, s), Inst(c, i, s)))
    ensures Subst(Node(t, Three(a, b, c)), i, u, true)
         == Node(t, Three(Subst(a, i, u, true), Subst(b, i, u, true), Subst(c, i, u, true)))
    ensures Abs(Node(t, Three(a, b, c)), i, v) == Node(t, Three(Abs(a, i, v), Abs(b, i, v), Abs(c, i, v)))
  {
    assert Two(b, c) == Cons(b, One(c)) && Three(a, b, c) == Cons(a, Two(b, c));
    assert InstList(One(c), i, s) == One(Inst(c, i, s));
    assert InstList(Two(b, c), i, s) == Two(Inst(b, i, s), Inst(c, i, s));
    assert SubstList(One(c), i, u, true) == One(Subst(c, i, u, true));
    assert SubstList(Two(b, c), i, u, true) == Two(Subst(b, i, u, true), Subst(c, i, u, true));
    assert AbsList(One(c), i, v) == One(Abs(c, i, v));
    assert AbsList(Two(b, c), i, v) == Two(Abs(b, i, v), Abs(c, i, v));
  }

  lemma AbsLeaves()
    ensures forall x, i: nat, v :: Abs(Var(x), i, v) == (if x == v then BVar(x, i) else Var(x))
    ensures forall x, j: nat, i: nat, v :: Abs(BVar(x, j), i, v) == BVar(x, j)
    ensures forall l, i: nat, v :: Abs(Lit(l), i, v) == Lit(l)
  {}

  lemma InstLeaves(s: seq<Expr>)
    ensures forall x, j: nat, i: nat ::
      Inst(BVar(x, j), i, s) == (if j < i then BVar(x, j) else if j - i < |s| then s[j - i] else Var(x))
    ensures forall l, i: nat :: Inst(Lit(l), i, s) == Lit(l)
  {}

  /** For substituting a value. */
  lemma SubstLeaves(u: Expr)
    requires IsValue(u)
    ensures forall x, j: nat, i: nat ::
      Subst(BVar(x, j), i, u, true) == (if j < i then BVar(x, j) else if j == i then u else BVar(x, j - 1))
    ensures forall l, i: nat :: Subst(Lit(l), i, u, true) == Lit(l)
  {
    ValueClosed(u);
    forall i: nat ensures Shift(u, i, 0) == u { ShiftClosed(u, i, 0); }
  }

  lemma ClosureParts(x: string, b: Expr, i: nat, s: seq<Expr>, u: Expr, v: string)
    ensures Inst(Closure(x, b), i, s) == Closure(x, Inst(b, i + 1, s))
    ensures Subst(Closure(x, b), i, u, true) == Closure(x, Subst(b, i + 1, u, true))
    ensures Abs(Closure(x, b), i, v) == Closure(x, Abs(b, i + 1, v))
  {}

  lemma IterOpens(op: IterOp, x: string, n: Option<string>, over: Expr, body: Expr, acc: Option<Expr>, s: seq<Expr>)
    ensures Inst(IterNode(op, [x], n, over, body, acc), 0, s)
         == IterNode(op, [x], n, Inst(over, 0, s), Inst(body, 0, s),
                     if acc.Some? then Some(Inst(acc.value, 0, s)) else None)
  {
    if acc.Some? { Inst3(Iter(op, [x], n), over, body, acc.value, s); } else { Inst2(Iter(op, [x], n), over, body, s); }
  }

  lemma FoldText(x: string, n: string, over: SExpr, init: SExpr, body: List<SStmt>, ctxt: set<string>,
                 over': Expr, init': Expr, b: Expr)
    requires x != "_" && n != "_" && Elab(over, ctxt) == Ok(over') && Elab(init, ctxt) == Ok(init')
    requires ElabBlock(body, ctxt + Names([x]) + {n}) == Ok(b)
    ensures Elab(SIter(Fold, [x], over, body, Some((n, init))), ctxt)
         == Ok(IterNode(Fold, [x], Some(n), over', Closure(n, Closure(x, Abs(Abs(b, 0, x), 1, n))), Some(init')))
  {
    FoldUnfolds(x, n, over, init, body, ctxt);
    hide Elab, ElabBlock, Abs;
    assert [n] + [x] == [n, x];
    CloseTwo(b, n, x);
  }

  lemma FoldUnfolds(x: string, n: string, over: SExpr, init: SExpr, body: List<SStmt>, ctxt: set<string>)
    requires x != "_" && n != "_"
    ensures Elab(SIter(Fold, [x], over, body, Some((n, init))), ctxt)
         == match (Elab(over, ctxt), ElabBlock(body, ctxt + Names([x]) + {n}), Elab(init, ctxt))
            case (Ok(o), Ok(t), Ok(i)) => Ok(Node(Iter(Fold, [x], Some(n)), Three(o, CloseAll(t, [n] + [x]), i)))
            case _ => Err(Failed)
  {
    var e := SIter(Fold, [x], over, body, Some((n, init)));
    assert Elab(e, ctxt) == ElabIter(e, ctxt);
  }

  lemma CloseTwo(b: Expr, n: string, x: string)
    requires x != "_" && n != "_"
    ensures CloseAll(b, [x]) == Closure(x, Abs(b, 0, x))
    ensures CloseAll(b, [n, x]) == Closure(n, Closure(x, Abs(Abs(b, 0, x), 1, n)))
  {
    assert [n, x][1..] == [x] && [x][1..] == [] && CloseAll(b, []) == b;
    AbsClosed(x, Abs(b, 0, x), 0, n);
    hide Abs;
    assert CloseAll(b, [x]) == Closure(x, Abs(b, 0, x));
  }

  lemma IterText(op: IterOp, x: string, over: SExpr, body: List<SStmt>, ctxt: set<string>, over': Expr, b: Expr)
    requires op != Fold && x != "_" && Elab(over, ctxt) == Ok(over') && ElabBlock(body, ctxt + Names([x])) == Ok(b)
    ensures Elab(SIter(op, [x], over, body, None), ctxt)
         == Ok(IterNode(op, [x], None, over', Closure(x, Abs(b, 0, x)), None))
  {
    IterUnfolds(op, x, over, body, ctxt);
    hide Elab, ElabBlock;
    CloseTwo(b, x, x);
  }

  lemma IterUnfolds(op: IterOp, x: string, over: SExpr, body: List<SStmt>, ctxt: set<string>)
    requires op != Fold && x != "_"
    ensures Elab(SIter(op, [x], over, body, None), ctxt)
         == match (Elab(over, ctxt), ElabBlock(body, ctxt + Names([x])))
            case (Ok(o), Ok(t)) => Ok(Node(Iter(op, [x], None), Two(o, CloseAll(t, [x]))))
            case _ => Err(Failed)
  {
    var e := SIter(op, [x], over, body, None);
    assert Elab(e, ctxt) == ElabIter(e, ctxt);
  }

  /** A closure whose variable is still used stays. */
  lemma ClosureLeaves(env: Env, x: string, b: Expr, p: Part, n: nat)
    requires n > 0 && PEval(env, b, false, n - 1) == Ok(p) && !IsFree(p.e, 0)
    ensures PEval(env, Closure(x, b), false, n) == Ok(Part(false, Closure(x, p.e)))
  {}

  /** `{ return i }`. */
  function RetBlock(i: i64): Expr { Node(BlockExpr(StmtBlock), One(ReturnOf(N(i)))) }

  lemma RetBlockParts(j: i64, i: nat, s: seq<Expr>, u: Expr, v: string)
    ensures Inst(RetBlock(j), i, s) == RetBlock(j) && Subst(RetBlock(j), i, u, true) == RetBlock(j)
    ensures Abs(RetBlock(j), i, v) == RetBlock(j)
  {
    Parts1(ReturnExpr, N(j), i, s, u, v);
    Parts1(BlockExpr(StmtBlock), ReturnOf(N(j)), i, s, u, v);
  }

  lemma Parts1(t: Tag, a: Expr, i: nat, s: seq<Expr>, u: Expr, v: string)
    ensures Inst(Node(t, One(a)), i, s) == Node(t, One(Inst(a, i, s)))
    ensures Subst(Node(t, One(a)), i, u, true) == Node(t, One(Subst(a, i, u, true)))
    ensures Abs(Node(t, One(a)), i, v) == Node(t, One(Abs(a, i, v)))
  {
    assert InstList(One(a), i, s) == One(Inst(a, i, s));
    assert SubstList(One(a), i, u, true) == One(Subst(a, i, u, true));
    assert AbsList(One(a), i, v) == One(Abs(a, i, v));
  }

  lemma RetBlockRuns(env: Env, i: i64, k: nat, n: nat)
    requires n > 3
    ensures Eval(env, RetBlock(i), k) == Ok(ReturnOf(N(i)))
    ensures PEval(env, RetBlock(i), false, n) == Ok(Part(true, ReturnOf(N(i))))
  {
    var r := ReturnOf(N(i));
    assert Eval(env, r, k) == Ok(r);
    assert EvalBlock(env, One(r), k) == Ok(r);
    assert EvalNode(env, BlockExpr(StmtBlock), One(r), k) == Ok(r);
    assert PEvalReturn(env, One(N(i)), false, n - 2) == Ok(Part(true, r));
    assert PEvalNode(env, ReturnExpr, One(N(i)), false, n - 2) == Ok(Part(true, r));
    assert PEval(env, r, false, n - 1) == Ok(Part(true, r));
    assert PEvalNode(env, BlockExpr(StmtBlock), One(r), false, n - 1) == Ok(Part(true, r));
  }
}
