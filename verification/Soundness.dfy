/** Safe partial evaluation preserves meaning. */
module Soundness {
  import opened Prelude
  import opened Syntax
  import opened Terms
  import opened TermLaws
  import opened Interpret
  import opened Scope
  import opened Simulation
  import opened Shapes
  import opened Specialize
  import opened Safety
  import opened Residual
  import opened ResidualScope

  /** A program with the builtins as they are when it is specialized (`ct`) and as
      they are when it runs (`env`), literals for the dangling variables, and a
      bound on calls. */
  datatype Run = Run(ct: Env, env: Env, s: seq<Expr>, k: nat)

  ghost predicate Ready(c: Run) {
    && c.ct == c.env.(call := c.ct.call) && ClosedEnv(c.env)
    && forall i :: 0 <= i < |c.s| ==> c.s[i].Lit?
  }

  ghost function Eval1(c: Run, e: Expr): Result<Expr> { Eval(c.env, Inst(e, 0, c.s), c.k) }

  /** The residual evaluates to `v` and, if it is claimed to be known, is `v`. */
  ghost predicate Agrees(c: Run, p: Part, v: Expr) {
    Eval1(c, p.e) == Ok(v) && (p.known ==> p.e == v)
  }

  // ----- instantiation -----

  lemma ReadyClosed(c: Run)
    requires Ready(c)
    ensures AllClosed(c.s)
  {}

  lemma Inst1(t: Tag, a: Expr, s: seq<Expr>)
    ensures Inst(Node(t, One(a)), 0, s) == Node(t, One(Inst(a, 0, s)))
  {
    assert InstList(One(a), 0, s) == One(Inst(a, 0, s));
  }

  lemma NodeEval(c: Run, tag: Tag, es: List<Expr>)
    requires tag != ReturnExpr
    ensures Eval1(c, Node(tag, es)) == EvalNode(c.env, tag, InstList(es, 0, c.s), c.k)
  {}

  lemma Inst2(t: Tag, a: Expr, b: Expr, s: seq<Expr>)
    ensures Inst(Node(t, Two(a, b)), 0, s) == Node(t, Two(Inst(a, 0, s), Inst(b, 0, s)))
  {
    assert InstList(One(b), 0, s) == One(Inst(b, 0, s));
  }

  lemma Inst3(t: Tag, a: Expr, b: Expr, d: Expr, s: seq<Expr>)
    ensures Inst(Node(t, Three(a, b, d)), 0, s) == Node(t, Three(Inst(a, 0, s), Inst(b, 0, s), Inst(d, 0, s)))
  {
    assert InstList(One(d), 0, s) == One(Inst(d, 0, s));
    assert InstList(Two(b, d), 0, s) == Two(Inst(b, 0, s), Inst(d, 0, s));
  }

  lemma {:induction false} InstFree(e: Expr, d: nat, s: seq<Expr>)
    requires forall i :: 0 <= i < |s| ==> s[i].Lit?
    ensures ReturnFree(Inst(e, d, s)) == ReturnFree(e)
  {
    match e
    case Closure(_, b) => InstFree(b, d + 1, s);
    case Node(_, es) => InstFreeList(es, d, s);
    case _ =>
  }

  lemma {:induction false} InstFreeList(es: List<Expr>, d: nat, s: seq<Expr>)
    requires forall i :: 0 <= i < |s| ==> s[i].Lit?
    ensures ReturnFreeList(InstList(es, d, s)) == ReturnFreeList(es)
  {
    if es.Cons? { InstFree(es.head, d, s); InstFreeList(es.tail, d, s); }
  }

  lemma {:induction false} InstCalls(code: map<string, Expr>, e: Expr, d: nat, s: seq<Expr>, n: nat)
    requires (forall i :: 0 <= i < |s| ==> s[i].Lit?) && TidyCalls(code, e, n)
    ensures TidyCalls(code, Inst(e, d, s), n)
    decreases e
  {
    match e
    case Closure(_, b) => InstCalls(code, b, d + 1, s, n);
    case Node(_, es) => InstCallsList(code, es, d, s, n);
    case _ =>
  }

  lemma {:induction false} InstCallsList(code: map<string, Expr>, es: List<Expr>, d: nat, s: seq<Expr>, n: nat)
    requires (forall i :: 0 <= i < |s| ==> s[i].Lit?) && TidyCallsList(code, es, n)
    ensures TidyCallsList(code, InstList(es, d, s), n)
    decreases es
  {
    if es.Cons? { InstCalls(code, es.head, d, s, n); InstCallsList(code, es.tail, d, s, n); }
  }

  lemma SettlesCalm(c: Run, e: Expr)
    requires Ready(c) && Settles(c.env.code, e)
    ensures Calm(c.env.code, Inst(e, 0, c.s), |c.env.code|) && ReturnFree(Inst(e, 0, c.s))
  {
    InstFree(e, 0, c.s);
    InstCalls(c.env.code, e, 0, c.s, |c.env.code|);
    FreeIsTidy(Inst(e, 0, c.s));
  }

  /** What settles evaluates to a literal. */
  lemma FreeLit(c: Run, e: Expr, v: Expr)
    requires Ready(c) && Settles(c.env.code, e) && Eval1(c, e) == Ok(v)
    ensures v.Lit?
  {
    SettlesCalm(c, e);
    EvalPlain(c.env, Inst(e, 0, c.s), c.k, |c.env.code|);
  }

  /** A residual that evaluates to a literal is not a `return`. */
  lemma NotReturn(c: Run, e: Expr, v: Expr)
    requires Eval1(c, e) == Ok(v)
    ensures IsReturn(e) ==> IsReturn(v)
    ensures e.Lit? ==> v == e
  {}

  // ----- partial evaluation, construct by construct -----

  lemma {:induction false} Sound(c: Run, e: Expr, so: bool, fuel: nat, v: Expr)
    requires Ready(c) && Safe(c.ct, c.env.call, e, so, fuel) && PEval(c.ct, e, so, fuel).Ok? && Eval1(c, e) == Ok(v)
    ensures Agrees(c, PEval(c.ct, e, so, fuel).value, v)
    decreases fuel, 0, 0
  {
    if e.Node? {
      SoundNode(c, e.tag, e.subs, so, fuel - 1, v);
    }
  }

  lemma {:induction false} SoundNode(c: Run, tag: Tag, es: List<Expr>, so: bool, fuel: nat, v: Expr)
    requires Ready(c) && SafeNode(c.ct, c.env.call, tag, es, so, fuel)
    requires PEvalNode(c.ct, tag, es, so, fuel).Ok? && Eval1(c, Node(tag, es)) == Ok(v)
    ensures Agrees(c, PEvalNode(c.ct, tag, es, so, fuel).value, v)
    decreases fuel, 9, 0
  {
    match tag
    case ReturnExpr => SoundReturn(c, es, so, fuel, v);
    case PrefixExpr(p) => SoundPrefix(c, p, es, so, fuel, v);
    case InfixExpr(op) => SoundInfix(c, op, es, so, fuel, v);
    case BlockExpr(kind) =>
      if kind == StmtBlock { SoundBlock(c, es, so, fuel, v); } else { SoundGroup(c, kind, es, so, fuel, v); }
    case Let(vs) => SoundLet(c, vs, es, so, fuel, v);
    case Iter(op, vs, n) => SoundIter(c, op, vs, n, es, so, fuel, v);
    case IfExpr => SoundIf(c, es, so, fuel, v);
    case IfSomeMatchExpr => SoundIfSome(c, es, so, fuel, v);
    case IfMatchExpr(vs, pats, hasAlt) => SoundIfMatch(c, vs, pats, hasAlt, es, so, fuel, v);
    case CallExpr(fn, isAsync) => SoundCall(c, fn, isAsync, es, so, fuel, v);
  }

  lemma {:induction false} SoundReturn(c: Run, es: List<Expr>, so: bool, fuel: nat, v: Expr)
    requires Ready(c) && SafeList(c.ct, c.env.call, es, so, fuel)
    requires PEvalReturn(c.ct, es, so, fuel).Ok? && Eval1(c, Node(ReturnExpr, es)) == Ok(v)
    ensures Agrees(c, PEvalReturn(c.ct, es, so, fuel).value, v)
    decreases fuel, 5, 0
  {
    InstShape(es, c.s, c.s);
    var p := PEval(c.ct, es.head, so, fuel).value;
    var w := Eval1(c, es.head).value;
    assert Inst(Node(ReturnExpr, es), 0, c.s) == Node(ReturnExpr, InstList(es, 0, c.s));
    Sound(c, es.head, so, fuel, w);
    Inst1(ReturnExpr, p.e, c.s);
  }

  lemma {:induction false} SoundPrefix(c: Run, pre: Prefix, es: List<Expr>, so: bool, fuel: nat, v: Expr)
    requires Ready(c) && SafeList(c.ct, c.env.call, es, so, fuel)
    requires PEvalPrefix(c.ct, pre, es, so, fuel).Ok? && Eval1(c, Node(PrefixExpr(pre), es)) == Ok(v)
    ensures Agrees(c, PEvalPrefix(c.ct, pre, es, so, fuel).value, v)
    decreases fuel, 5, 0
  {
    NodeEval(c, PrefixExpr(pre), es);
    InstShape(es, c.s, c.s);
    var p := PEval(c.ct, es.head, so, fuel).value;
    assert EvalPrefixExpr(c.env, pre, InstList(es, 0, c.s), c.k) == Ok(v);
    var w := Eval1(c, es.head).value;
    Sound(c, es.head, so, fuel, w);
    Inst1(PrefixExpr(pre), p.e, c.s);
    NodeEval(c, PrefixExpr(pre), One(p.e));
  }


  // ----- infix -----

  lemma InfixNode(c: Run, op: Infix, x: Expr, y: Expr)
    ensures Eval1(c, Node(InfixExpr(op), Two(x, y)))
        == EvalInfixExpr(c.env, op, Two(Inst(x, 0, c.s), Inst(y, 0, c.s)), c.k)
  {
    Inst2(InfixExpr(op), x, y, c.s);
    NodeEval(c, InfixExpr(op), Two(x, y));
  }

  function InfixPart(op: Infix, p: Part, q: Part): Result<Part> {
    if p.known && q.known then InfixParts(op, p, q) else Simplify(op, p, q)
  }

  /** What `&&` and `||` come to when the left operand gives `v1`. */
  ghost predicate ShortTaken(c: Run, op: Infix, y: Part, v1: Expr, v: Expr) {
    if IsReturn(v1) then v == v1
    else if !v1.Lit? || !IsBool(v1.lit) then false
    else if v1.lit.flat.b == (op == Or) then v == v1
    else Agrees(c, y, v) && (IsReturn(v) || (v.Lit? && IsBool(v.lit)))
  }

  /** `&&` and `||`: the right operand matters only when the left does not decide. */
  lemma ShortSound(c: Run, op: Infix, p: Part, q: Part, v1: Expr, v: Expr)
    requires Ready(c) && ShortCircuits(op) && InfixSafe(c.env.code, op, p, q) && InfixPart(op, p, q).Ok?
    requires Agrees(c, p, v1) && IsValue(v1) && ShortTaken(c, op, q, v1, v)
    ensures Agrees(c, InfixPart(op, p, q).value, v)
  {
    hide Combined, Settles;
    NotReturn(c, p.e, v1);
    if !p.known || !q.known {
      ShortRebuilt(c, op, p.e, q, v1, v);
      if Settles(c.env.code, p.e) { FreeLit(c, p.e, v1); }
      if Combined(op, p, q).Some? {
        CombinedChoice(op, p, q);
        NotRebuilt(op, p.e, q.e);
        if op == And { AndRules(c, p, q, v1, v); } else { OrRules(c, p, q, v1, v); }
      }
    }
  }

  /** A term is no part of itself. */
  lemma NotRebuilt(op: Infix, x: Expr, y: Expr)
    ensures x != Node(InfixExpr(op), Two(x, y)) && y != Node(InfixExpr(op), Two(x, y))
  {
    assert x < Node(InfixExpr(op), Two(x, y)) && y < Node(InfixExpr(op), Two(x, y));
  }

  lemma ShortRebuilt(c: Run, op: Infix, x: Expr, q: Part, v1: Expr, v: Expr)
    requires ShortCircuits(op) && Eval1(c, x) == Ok(v1) && ShortTaken(c, op, q, v1, v)
    ensures Eval1(c, Node(InfixExpr(op), Two(x, q.e))) == Ok(v)
  {
    InfixNode(c, op, x, q.e);
  }

  lemma AndRules(c: Run, p: Part, q: Part, v1: Expr, v: Expr)
    requires Agrees(c, p, v1) && ShortTaken(c, And, q, v1, v) && ReturnRuns(And, p.e, q.e)
    requires Combined(And, p, q).Some? && (IsReturn(v1) ==> Combined(And, p, q).value.e == p.e)
    ensures Agrees(c, Combined(And, p, q).value, v)
  {
    NotReturn(c, p.e, v1);
  }

  lemma OrRules(c: Run, p: Part, q: Part, v1: Expr, v: Expr)
    requires Agrees(c, p, v1) && ShortTaken(c, Or, q, v1, v) && ReturnRuns(Or, p.e, q.e)
    requires Combined(Or, p, q).Some? && (IsReturn(v1) ==> Combined(Or, p, q).value.e == p.e)
    ensures Agrees(c, Combined(Or, p, q).value, v)
  {
    NotReturn(c, p.e, v1);
  }

  lemma RebuiltSound(c: Run, op: Infix, p: Part, q: Part, v1: Expr, v2: Expr, v: Expr)
    requires op != And && op != Or
    requires Eval1(c, p.e) == Ok(v1) && Eval1(c, q.e) == Ok(v2) && InfixResult(op, v1, v2) == Ok(v)
    ensures Eval1(c, Node(InfixExpr(op), Two(p.e, q.e))) == Ok(v)
  {
    hide EvalInfix;
    InfixNode(c, op, p.e, q.e);
  }

  lemma SumSound(c: Run, op: Infix, p: Part, q: Part, v1: Expr, v2: Expr, v: Expr)
    requires op == Plus || op == Minus
    requires Agrees(c, p, v1) && Agrees(c, q, v2) && v1.Lit? && v2.Lit?
    requires !IsReturn(p.e) && !IsReturn(q.e) && InfixResult(op, v1, v2) == Ok(v)
    requires RuleSafe(op, p.e, q.e)
    ensures Combined(op, p, q).Some? ==> Agrees(c, Combined(op, p, q).value, v)
  {
    SumRules(op, p, q);
    hide Combined;
    SumValue(op, v1.lit, v2.lit);
  }

  lemma SumRules(op: Infix, p: Part, q: Part)
    requires (op == Plus || op == Minus) && !IsReturn(p.e) && !IsReturn(q.e)
    ensures var r := Combined(op, p, q);
      r.Some? ==>
        || (r.value == q && (p.e == Lit(INT_RING.zero) || p.e == Lit(FLOAT_RING.zero)))
        || (r.value == p && (q.e == Lit(INT_RING.zero) || q.e == Lit(FLOAT_RING.zero)))
  {}

  lemma SumValue(op: Infix, l: Literal, m: Literal)
    requires (op == Plus || op == Minus) && EvalInfix(op, l, m).Some?
    ensures l.Flat? && l.flat.Int? && m.Flat? && m.flat.Int?
    ensures m == INT_RING.zero ==> EvalInfix(op, l, m).value == l
    ensures op == Plus && l == INT_RING.zero ==> EvalInfix(op, l, m).value == m
    ensures op == Minus && l == m == INT_RING.zero ==> EvalInfix(op, l, m).value == m
  {}

  lemma ProductSound(c: Run, op: Infix, p: Part, q: Part, v1: Expr, v2: Expr, v: Expr)
    requires op == Multiply || op == Divide
    requires Agrees(c, p, v1) && Agrees(c, q, v2) && v1.Lit? && v2.Lit?
    requires !IsReturn(p.e) && !IsReturn(q.e) && InfixResult(op, v1, v2) == Ok(v)
    requires RuleSafe(op, p.e, q.e) && (op == Divide ==> q.e != Lit(Flat(Int(0))))
    ensures Combined(op, p, q).Some? ==> Agrees(c, Combined(op, p, q).value, v)
  {
    ProductRules(op, p, q);
    hide Combined;
    ProductValue(op, v1.lit, v2.lit);
  }

  lemma ProductRules(op: Infix, p: Part, q: Part)
    requires (op == Multiply || op == Divide) && !IsReturn(p.e) && !IsReturn(q.e)
    ensures var r := Combined(op, p, q);
      r.Some? ==>
        || (r.value == p
            && (p.e == Lit(INT_RING.zero) || p.e == Lit(FLOAT_RING.zero) || q.e == Lit(INT_RING.one)
                || q.e == Lit(FLOAT_RING.one)))
        || (r.value == q
            && (q.e == Lit(INT_RING.zero) || q.e == Lit(FLOAT_RING.zero) || p.e == Lit(INT_RING.one)
                || p.e == Lit(FLOAT_RING.one)))
  {}

  lemma ProductValue(op: Infix, l: Literal, m: Literal)
    requires (op == Multiply || op == Divide) && EvalInfix(op, l, m).Some?
    ensures l.Flat? && l.flat.Int? && m.Flat? && m.flat.Int?
    ensures l == INT_RING.zero ==> EvalInfix(op, l, m).value == l
    ensures m == INT_RING.one ==> EvalInfix(op, l, m).value == l
    ensures op == Multiply && m == INT_RING.zero ==> EvalInfix(op, l, m).value == m
    ensures op == Multiply && l == INT_RING.one ==> EvalInfix(op, l, m).value == m
    ensures op == Divide ==> m != INT_RING.zero
    ensures op == Divide && l == m == INT_RING.one ==> EvalInfix(op, l, m).value == m
  {}

  lemma CombinedOps(op: Infix, p: Part, q: Part)
    requires op != Plus && op != Minus && op != Multiply && op != Divide && op != And && op != Or
    ensures Combined(op, p, q).None?
  {}

  lemma SimplifyLits(c: Run, op: Infix, p: Part, q: Part, v1: Expr, v2: Expr, v: Expr)
    requires !ShortCircuits(op) && !(p.known && q.known)
    requires Agrees(c, p, v1) && Agrees(c, q, v2) && v1.Lit? && v2.Lit? && InfixResult(op, v1, v2) == Ok(v)
    requires RuleSafe(op, p.e, q.e) && Simplify(op, p, q).Ok?
    ensures Agrees(c, Simplify(op, p, q).value, v)
  {
    hide Combined;
    hide EvalInfix;
    NotReturn(c, p.e, v1);
    NotReturn(c, q.e, v2);
    RebuiltSound(c, op, p, q, v1, v2, v);
    if op == Plus || op == Minus { SumSound(c, op, p, q, v1, v2, v); }
    else if op == Multiply || op == Divide { ProductSound(c, op, p, q, v1, v2, v); }
    else {
      CombinedOps(op, p, q);
      if op == Equal && p.e == q.e { EqualSelf(v1, v); }
    }
  }

  /** When an operand returns, the simplified form still has it. */
  lemma SimplifyReturns(c: Run, op: Infix, p: Part, q: Part, v1: Expr, v2: Expr, v: Expr)
    requires Ready(c) && !ShortCircuits(op) && !(p.known && q.known) && (IsReturn(v1) || (v1.Lit? && IsReturn(v2)))
    requires Agrees(c, p, v1) && Agrees(c, q, v2) && InfixResult(op, v1, v2) == Ok(v) && IsValue(v1) && IsValue(v2)
    requires InfixSafe(c.env.code, op, p, q) && Simplify(op, p, q).Ok?
    ensures Agrees(c, Simplify(op, p, q).value, v)
  {
    hide Combined, EvalInfix, Settles;
    NotReturn(c, p.e, v1);
    NotReturn(c, q.e, v2);
    RebuiltSound(c, op, p, q, v1, v2, v);
    NotRebuilt(op, p.e, q.e);
    CombinedChoice(op, p, q);
    if Settles(c.env.code, p.e) { FreeLit(c, p.e, v1); }
    if Settles(c.env.code, q.e) { FreeLit(c, q.e, v2); }
  }

  lemma SimplifySound(c: Run, op: Infix, p: Part, q: Part, v1: Expr, v2: Expr, v: Expr)
    requires Ready(c) && !ShortCircuits(op) && !(p.known && q.known) && IsValue(v1) && IsValue(v2)
    requires Agrees(c, p, v1) && Agrees(c, q, v2) && InfixResult(op, v1, v2) == Ok(v)
    requires InfixSafe(c.env.code, op, p, q) && Simplify(op, p, q).Ok?
    ensures Agrees(c, Simplify(op, p, q).value, v)
  {
    hide Simplify, InfixResult;
    if v1.Lit? && v2.Lit? { SimplifyLits(c, op, p, q, v1, v2, v); } else { SimplifyReturns(c, op, p, q, v1, v2, v); }
  }

  lemma EqualSelf(v1: Expr, v: Expr)
    requires v1.Lit? && InfixResult(Equal, v1, v1) == Ok(v)
    ensures v == Lit(BoolLit(true))
  {}

  lemma InfixRuns(env: Env, op: Infix, es: List<Expr>, k: nat, v: Expr)
    requires EvalInfixExpr(env, op, es, k) == Ok(v)
    ensures es.Cons? && es.tail.Cons? && es.tail.tail.Nil? && Eval(env, es.head, k).Ok?
    ensures op == And || op == Or ==> EvalShort(env, op == Or, es.head, es.tail.head, k) == Ok(v)
    ensures op != And && op != Or ==>
      && Eval(env, es.tail.head, k).Ok?
      && InfixResult(op, Eval(env, es.head, k).value, Eval(env, es.tail.head, k).value) == Ok(v)
  {
    hide EvalInfix;
  }

  lemma {:induction false} SoundInfix(c: Run, op: Infix, es: List<Expr>, so: bool, fuel: nat, v: Expr)
    requires Ready(c) && SafeInfix(c.ct, c.env.call, op, es, so, fuel)
    requires PEvalInfix(c.ct, op, es, so, fuel).Ok? && Eval1(c, Node(InfixExpr(op), es)) == Ok(v)
    ensures Agrees(c, PEvalInfix(c.ct, op, es, so, fuel).value, v)
    decreases fuel, 5, 0
  {
    hide EvalInfix, Simplify, InfixSafe;
    NodeEval(c, InfixExpr(op), es);
    InstShape(es, c.s, c.s);
    InfixRuns(c.env, op, InstList(es, 0, c.s), c.k, v);
    var a, b := es.head, es.tail.head;
    var p, q := PEval(c.ct, a, so, fuel).value, PEval(c.ct, b, so, fuel).value;
    assert PEvalInfix(c.ct, op, es, so, fuel) == InfixPart(op, p, q);
    var v1 := Eval1(c, a).value;
    Sound(c, a, so, fuel, v1);
    if op == And || op == Or {
      if v1.Lit? && v1.lit.flat.b != (op == Or) { Sound(c, b, so, fuel, v); }
      ShortSound(c, op, p, q, v1, v);
    } else {
      var v2 := Eval1(c, b).value;
      Sound(c, b, so, fuel, v2);
      if !p.known || !q.known { SimplifySound(c, op, p, q, v1, v2, v); }
    }
  }

  // ----- blocks -----

  lemma {:induction false} SoundBlock(c: Run, es: List<Expr>, so: bool, fuel: nat, v: Expr)
    requires Ready(c) && SafeBlock(c.ct, c.env.call, es, so, fuel)
    requires PEvalBlock(c.ct, es, so, fuel).Ok? && Eval1(c, Node(BlockExpr(StmtBlock), es)) == Ok(v)
    ensures Agrees(c, PEvalBlock(c.ct, es, so, fuel).value, v)
    decreases fuel, 5, 0
  {
    NodeEval(c, BlockExpr(StmtBlock), es);
    InstShape(es, c.s, c.s);
    if es.Cons? {
      var w := Eval1(c, es.head).value;
      var p := PEval(c.ct, es.head, so, fuel).value;
      Sound(c, es.head, so, fuel, w);
      NotReturn(c, p.e, w);
      if !IsReturn(p.e) && es.tail.Cons? {
        var rest := Node(BlockExpr(StmtBlock), es.tail);
        NodeEval(c, BlockExpr(StmtBlock), es.tail);
        if p.known {
          Sound(c, rest, so, fuel, v);
        } else {
          var q := PEval(c.ct, rest, true, fuel).value;
          SpliceableResidual(c.ct, rest, true, fuel);
          if !IsReturn(w) { Sound(c, rest, true, fuel, v); }
          BlockPrepended(c, p.e, q.e, w, v);
        }
      }
    }
  }

  lemma BlockPrepended(c: Run, e: Expr, rest: Expr, w: Expr, v: Expr)
    requires Eval1(c, e) == Ok(w) && Spliceable(rest)
    requires if IsReturn(w) then v == w else Eval1(c, rest) == Ok(v)
    ensures Eval1(c, Node(BlockExpr(StmtBlock), Prepended(e, rest))) == Ok(v)
  {
    var es := Prepended(e, rest);
    NodeEval(c, BlockExpr(StmtBlock), es);
    InstShape(es, c.s, c.s);
    if rest.Node? && rest.tag.BlockExpr? { NodeEval(c, rest.tag, rest.subs); InstShape(rest.subs, c.s, c.s); }
    assert EvalBlock(c.env, InstList(es, 0, c.s), c.k) ==
      if IsReturn(w) then Ok(w) else EvalBlock(c.env, InstList(es.tail, 0, c.s), c.k);
  }

  // ----- several expressions -----

  ghost predicate AgreesList(c: Run, ps: List<Part>, vs: List<Expr>) {
    match ps
    case Nil => vs.Nil?
    case Cons(p, rest) => vs.Cons? && Agrees(c, p, vs.head) && AgreesList(c, rest, vs.tail)
  }

  lemma {:induction false} SoundList(c: Run, es: List<Expr>, so: bool, fuel: nat, vs: List<Expr>)
    requires Ready(c) && SafeList(c.ct, c.env.call, es, so, fuel)
    requires PEvalList(c.ct, es, so, fuel).Ok? && EvalList(c.env, InstList(es, 0, c.s), c.k) == Ok(vs)
    ensures AgreesList(c, PEvalList(c.ct, es, so, fuel).value, vs)
    decreases fuel, 1, es
  {
    if es.Cons? {
      Sound(c, es.head, so, fuel, vs.head);
      SoundList(c, es.tail, so, fuel, vs.tail);
    }
  }

  /** They agree up to the first residual `return`. */
  ghost predicate AgreesToReturn(c: Run, ps: List<Part>, vs: List<Expr>) {
    match ps
    case Nil => vs.Nil?
    case Cons(p, rest) =>
      vs.Cons? && Agrees(c, p, vs.head) && (!IsReturn(p.e) ==> AgreesToReturn(c, rest, vs.tail))
  }

  lemma AgreesSoFar(c: Run, ps: List<Part>, vs: List<Expr>)
    requires AgreesList(c, ps, vs)
    ensures AgreesToReturn(c, ps, vs)
  {}

  /** No value before the first residual `return` is a `return`. */
  predicate NoneBefore(ps: List<Part>, vs: List<Expr>) {
    ps.Cons? && vs.Cons? && !IsReturn(ps.head.e) ==> !IsReturn(vs.head) && NoneBefore(ps.tail, vs.tail)
  }

  /** When nothing before the first residual `return` can return, it is the first
      `return` among the values. */
  lemma {:induction false} SettledAgrees(c: Run, ps: List<Part>, vs: List<Expr>)
    requires Ready(c) && AgreesToReturn(c, ps, vs) && SettledToReturn(c.env.code, ps)
    ensures var r := FirstReturn(Residuals(ps));
      if r.None? then LitList(vs) && FirstReturn(vs).None?
      else FirstReturn(vs).Some? && Agrees(c, Part(AllKnown(ps), r.value), FirstReturn(vs).value)
  {
    hide Settles;
    if ps.Cons? {
      NotReturn(c, ps.head.e, vs.head);
      if !IsReturn(ps.head.e) {
        FreeLit(c, ps.head.e, vs.head);
        SettledAgrees(c, ps.tail, vs.tail);
      }
    }
  }

  /** The literals among the residuals are right. */
  lemma ResidualLits(c: Run, ps: List<Part>, vs: List<Expr>)
    requires AgreesList(c, ps, vs)
    ensures Literals(Residuals(ps)).Some? ==> Residuals(ps) == vs
    ensures AllKnown(ps) ==> Residuals(ps) == vs
    ensures EvalList(c.env, InstList(Residuals(ps), 0, c.s), c.k) == Ok(vs)
  {
    if ps.Cons? {
      NotReturn(c, ps.head.e, vs.head);
      ResidualLits(c, ps.tail, vs.tail);
    }
  }

  lemma {:induction false} SoundGroup(c: Run, kind: BlockKind, es: List<Expr>, so: bool, fuel: nat, v: Expr)
    requires Ready(c) && SafeGroup(c.ct, c.env.call, es, so, fuel) && kind != StmtBlock
    requires PEvalGroup(c.ct, kind, es, so, fuel).Ok? && Eval1(c, Node(BlockExpr(kind), es)) == Ok(v)
    ensures Agrees(c, PEvalGroup(c.ct, kind, es, so, fuel).value, v)
    decreases fuel, 5, 0
  {
    NodeEval(c, BlockExpr(kind), es);
    var vs := EvalList(c.env, InstList(es, 0, c.s), c.k).value;
    var ps := PEvalList(c.ct, es, so, fuel).value;
    SoundList(c, es, so, fuel, vs);
    ResidualLits(c, ps, vs);
    AgreesSoFar(c, ps, vs);
    if FirstReturn(Residuals(ps)).Some? { SettledAgrees(c, ps, vs); }
  }

  // ----- binders -----

  ghost function Under(c: Run, u: Expr): Run { c.(s := [u] + c.s) }

  lemma OpenClosure(c: Run, b: Expr, u: Expr)
    requires Ready(c) && IsValue(u)
    ensures u.Lit? ==> Ready(Under(c, u))
    ensures Subst(Inst(b, 1, c.s), 0, u, true) == Inst(b, 0, [u] + c.s) == Inst(Subst(b, 0, u, true), 0, c.s)
  {
    ReadyClosed(c);
    ValueClosed(u);
    InstClosed(u, 0, c.s);
    SubstInst(b, 0, u, c.s);
    InstSubst(b, 0, u, c.s);
  }

  /** One closure more is one dangling variable more. */
  lemma AppliedUnder(c: Run, x: string, b: Expr, u: Expr, rest: List<Expr>)
    requires Ready(c) && IsValue(u) && AllValues(rest)
    ensures EvalApplied(c.env, Inst(Closure(x, b), 0, c.s), Some(Cons(u, rest)), c.k)
         == EvalApplied(c.env, Inst(b, 0, Under(c, u).s), Some(rest), c.k)
  {
    OpenClosure(c, b, u);
    assert Inst(Closure(x, b), 0, c.s) == Closure(x, Inst(b, 1, c.s));
  }

  lemma LitListValues(us: List<Expr>)
    requires LitList(us)
    ensures AllValues(us)
  {}

  lemma AppliedRuns(env: Env, e: Expr, us: List<Expr>, k: nat, v: Expr)
    requires EvalApplied(env, e, Some(us), k) == Ok(v)
    ensures us.Cons? ==> e.Closure?
    ensures us.Nil? ==> Eval(env, e, k) == Ok(v)
  {}

  /** Applying to values before or after opening. */
  lemma AppliedInst(c: Run, e: Expr, us: List<Expr>, v: Expr)
    requires Ready(c) && AllValues(us)
    requires EvalApplied(c.env, Inst(e, 0, c.s), Some(us), c.k) == Ok(v)
    ensures ApplyAll(e, us).Ok? && Eval1(c, ApplyAll(e, us).value) == Ok(v)
    decreases us
  {
    AppliedRuns(c.env, Inst(e, 0, c.s), us, c.k, v);
    if us.Cons? {
      var b := Subst(e.body, 0, us.head, true);
      assert e == Closure(e.id, e.body) && ApplyAll(e, us) == ApplyAll(b, us.tail);
      AppliedUnder(c, e.id, e.body, us.head, us.tail);
      OpenClosure(c, e.body, us.head);
      hide Eval, EvalApplied;
      AppliedInst(c, b, us.tail, v);
    }
  }

  lemma {:induction false} SoundApplied(c: Run, e: Expr, us: List<Expr>, so: bool, fuel: nat, v: Expr)
    requires Ready(c) && LitList(us) && SafeApplied(c.ct, c.env.call, e, us, so, fuel)
        && PEvalApplied(c.ct, e, us, so, fuel).Ok?
    requires EvalApplied(c.env, Inst(e, 0, c.s), Some(us), c.k) == Ok(v)
    ensures Agrees(c, PEvalApplied(c.ct, e, us, so, fuel).value, v)
    decreases fuel, 2, 0
  {
    LitListValues(us);
    AppliedInst(c, e, us, v);
    Sound(c, ApplyAll(e, us).value, so, fuel, v);
  }

  /** Partial evaluation below closures that it keeps. */
  lemma {:induction false} SoundUnder(c: Run, e: Expr, n: nat, us: List<Expr>, so: bool, fuel: nat, v: Expr)
    requires Ready(c) && LitList(us) && Length(us) <= n && SafeUnder(c.ct, c.env.call, e, n, so, fuel)
    requires PEval(c.ct, e, so, fuel).Ok? && EvalApplied(c.env, Inst(e, 0, c.s), Some(us), c.k) == Ok(v)
    ensures EvalApplied(c.env, Inst(PEval(c.ct, e, so, fuel).value.e, 0, c.s), Some(us), c.k) == Ok(v)
    decreases fuel, 1, n
  {
    AppliedRuns(c.env, Inst(e, 0, c.s), us, c.k, v);
    if n == 0 {
      Sound(c, e, so, fuel, v);
    } else if us.Cons? {
      var r := PEval(c.ct, e.body, so, fuel - 1).value.e;
      LitListValues(us.tail);
      AppliedUnder(c, e.id, e.body, us.head, us.tail);
      AppliedUnder(c, e.id, r, us.head, us.tail);
      OpenClosure(c, e.body, us.head);
      SoundUnder(Under(c, us.head), e.body, n - 1, us.tail, so, fuel - 1, v);
    }
  }

  // ----- let -----

  lemma {:induction false} SubstKeepsFree(e: Expr, i: nat, j: nat, l: Literal)
    requires IsFree(e, j) && j < i
    ensures IsFree(Subst(e, i, Lit(l), true), j)
  {
    match e
    case Closure(_, b) => SubstKeepsFree(b, i + 1, j + 1, l);
    case Node(_, es) => SubstKeepsFreeList(es, i, j, l);
    case _ =>
  }

  lemma {:induction false} SubstKeepsFreeList(es: List<Expr>, i: nat, j: nat, l: Literal)
    requires IsFreeList(es, j) && j < i
    ensures IsFreeList(SubstList(es, i, Lit(l), true), j)
  {
    if es.Cons? { SubstKeepsFree(es.head, i, j, l); SubstKeepsFreeList(es.tail, i, j, l); }
  }

  lemma SubstKeepsAllFree(e: Expr, i: nat, n: nat, l: Literal)
    requires AllFree(e, n) && n <= i
    ensures AllFree(Subst(e, i, Lit(l), true), n)
  {
    if n > 0 {
      SubstKeepsAllFree(e, i, n - 1, l);
      SubstKeepsFree(e, i, n - 1, l);
    }
  }

  lemma AllFreeAt(e: Expr, n: nat, i: nat)
    requires AllFree(e, n) && i < n
    ensures IsFree(e, i)
  {}

  /** The body below `n` closures, after a literal went in for index `i`. */
  lemma SubstAtDepth(e: Expr, n: nat, i: nat, l: Literal)
    requires AtDepth(e, n).Some?
    ensures AtDepth(Subst(e, i, Lit(l), true), n) == Some(Subst(AtDepth(e, n).value, i + n, Lit(l), true))
  {
    if e.Closure? { SubstAtDepth(e.body, n - 1, i + 1, l); }
  }

  lemma FreeAtDepth(e: Expr, n: nat, i: nat)
    requires AtDepth(e, n).Some? && IsFree(AtDepth(e, n).value, i + n)
    ensures IsFree(e, i)
  {
    if e.Closure? { FreeAtDepth(e.body, n - 1, i + 1); }
  }

  /** A body that uses none of its variables does not care what it is applied to. */
  lemma {:induction false} UnusedBody(c: Run, e: Expr, us: List<Expr>, n: nat, v: Expr)
    requires Ready(c) && LitList(us) && AtDepth(e, n).Some? && AllFree(AtDepth(e, n).value, n)
    requires EvalApplied(c.env, Inst(e, 0, c.s), Some(us), c.k) == Ok(v)
    ensures ApplyAll(e, Units(n)).Ok? && Eval1(c, ApplyAll(e, Units(n)).value) == Ok(v)
    decreases n
  {
    AppliedRuns(c.env, Inst(e, 0, c.s), us, c.k, v);
    if n > 0 && us.Cons? {
      var u := us.head;
      LitListValues(us.tail);
      AppliedUnder(c, e.id, e.body, u, us.tail);
      OpenClosure(c, e.body, u);
      AllFreeAt(AtDepth(e, n).value, n, n - 1);
      FreeAtDepth(e.body, n - 1, 0);
      SubstFree(e.body, 0, u, Lit(UNIT));
      SubstAtDepth(e.body, n - 1, 0, u.lit);
      SubstKeepsAllFree(AtDepth(e, n).value, n - 1, n - 1, u.lit);
      UnusedBody(c, Subst(e.body, 0, u, true), us.tail, n - 1, v);
    }
  }

  lemma BoundLength(vs: seq<string>, lits: seq<Literal>)
    requires |vs| == |lits|
    ensures Length(Bound(vs, lits)) == Opened(vs) <= |vs|
  {}

  lemma LetArgsLength(vs: seq<string>, l: Literal)
    ensures LetArgs(vs, l).Some? ==> Length(LetArgs(vs, l).value) <= |vs|
  {
    if l.TupleLit? && |vs| == |l.items| { BoundLength(vs, l.items); }
  }

  /** A `let` that ran: either its right-hand side returned or its body was applied. */
  lemma LetRuns(env: Env, vs: seq<string>, es: List<Expr>, k: nat, v: Expr)
    requires EvalLet(env, vs, es, k) == Ok(v)
    ensures es.Cons? && es.tail.Cons? && es.tail.tail.Nil? && Eval(env, es.head, k).Ok?
    ensures var w := Eval(env, es.head, k).value;
      if IsReturn(w) then v == w
      else LetArgs(vs, w.lit).Some? && EvalApplied(env, es.tail.head, LetArgs(vs, w.lit), k) == Ok(v)
  {}

  lemma LetResidual(c: Run, vs: seq<string>, rhs: Expr, body: Expr, w: Expr, v: Expr)
    requires Eval1(c, rhs) == Ok(w)
    requires if IsReturn(w) then v == w
      else LetArgs(vs, w.lit).Some? && EvalApplied(c.env, Inst(body, 0, c.s), LetArgs(vs, w.lit), c.k) == Ok(v)
    ensures Eval1(c, Node(Let(vs), Two(rhs, body))) == Ok(v)
  {
    Inst2(Let(vs), rhs, body, c.s);
    NodeEval(c, Let(vs), Two(rhs, body));
  }

  lemma {:induction false} SoundLet(c: Run, vs: seq<string>, es: List<Expr>, so: bool, fuel: nat, v: Expr)
    requires Ready(c) && SafeLet(c.ct, c.env.call, vs, es, so, fuel)
    requires PEvalLet(c.ct, vs, es, so, fuel).Ok? && Eval1(c, Node(Let(vs), es)) == Ok(v)
    ensures Agrees(c, PEvalLet(c.ct, vs, es, so, fuel).value, v)
    decreases fuel, 5, 0
  {
    NodeEval(c, Let(vs), es);
    InstShape(es, c.s, c.s);
    LetRuns(c.env, vs, InstList(es, 0, c.s), c.k, v);
    var rhs, body := es.head, es.tail.head;
    var w := Eval1(c, rhs).value;
    if AllFree(AtDepth(body, |vs|).value, |vs|) {
      FreeLit(c, rhs, w);
      ArgsLits(vs, w.lit);
      UnusedBody(c, body, LetArgs(vs, w.lit).value, |vs|, v);
      Sound(c, ApplyAll(body, Units(|vs|)).value, so, fuel, v);
    } else {
      SoundLetUsed(c, vs, es, so, fuel, w, v);
    }
  }

  lemma {:induction false} SoundLetUsed(c: Run, vs: seq<string>, es: List<Expr>, so: bool, fuel: nat, w: Expr, v: Expr)
    requires Ready(c) && SafeLet(c.ct, c.env.call, vs, es, so, fuel) && PEvalLet(c.ct, vs, es, so, fuel).Ok?
    requires es.Cons? && es.tail.Cons? && AtDepth(es.tail.head, |vs|).Some?
    requires !AllFree(AtDepth(es.tail.head, |vs|).value, |vs|)
    requires Eval1(c, es.head) == Ok(w)
    requires if IsReturn(w) then v == w
      else LetArgs(vs, w.lit).Some? && EvalApplied(c.env, Inst(es.tail.head, 0, c.s), LetArgs(vs, w.lit), c.k) == Ok(v)
    ensures Agrees(c, PEvalLet(c.ct, vs, es, so, fuel).value, v)
    decreases fuel, 4, 0
  {
    var rhs, body := es.head, es.tail.head;
    var p := PEval(c.ct, rhs, so, fuel).value;
    Sound(c, rhs, so, fuel, w);
    NotReturn(c, p.e, w);
    if !IsReturn(p.e) {
      if !IsReturn(w) { ArgsLits(vs, w.lit); LetArgsLength(vs, w.lit); }
      if p.known {
        SoundApplied(c, body, LetArgs(vs, w.lit).value, so, fuel, v);
      } else {
        if !IsReturn(w) { SoundUnder(c, body, |vs|, LetArgs(vs, w.lit).value, so, fuel, v); }
        LetResidual(c, vs, p.e, PEval(c.ct, body, so, fuel).value.e, w, v);
      }
    }
  }

  // ----- conditionals -----

  lemma IfRuns(env: Env, es: List<Expr>, k: nat, v: Expr)
    requires EvalIf(env, es, k) == Ok(v)
    ensures es.Cons? && es.tail.Cons? && Eval(env, es.head, k).Ok?
    ensures var w := Eval(env, es.head, k).value;
      if IsReturn(w) then v == w
      else
        && IsBool(w.lit)
        && (if w.lit.flat.b then Eval(env, es.tail.head, k) else EvalAlt(env, es.tail.tail, k)) == Ok(v)
  {}

  lemma {:induction false} SoundAlt(c: Run, alt: List<Expr>, so: bool, fuel: nat, v: Expr)
    requires Ready(c) && SafeList(c.ct, c.env.call, alt, so, fuel) && PEvalAlt(c.ct, alt, so, fuel).Ok?
    requires EvalAlt(c.env, InstList(alt, 0, c.s), c.k) == Ok(v)
    ensures Agrees(c, PEvalAlt(c.ct, alt, so, fuel).value, v)
    decreases fuel, 4, 0
  {
    InstShape(alt, c.s, c.s);
    if alt.Cons? { Sound(c, alt.head, so, fuel, v); }
  }

  /** A conditional over residuals, whichever way the condition goes. */
  lemma IfResidual(c: Run, cond: Expr, t: Expr, alt: List<Expr>, w: Expr, v: Expr)
    requires Eval1(c, cond) == Ok(w)
    requires if IsReturn(w) then v == w
      else IsBool(w.lit) && (if w.lit.flat.b then Eval1(c, t) else EvalAlt(c.env, InstList(alt, 0, c.s), c.k)) == Ok(v)
    ensures Eval1(c, Node(IfExpr, Cons(cond, Cons(t, alt)))) == Ok(v)
  {
    var es := Cons(cond, Cons(t, alt));
    NodeEval(c, IfExpr, es);
    InstShape(es, c.s, c.s);
  }

  lemma {:induction false} SoundIf(c: Run, es: List<Expr>, so: bool, fuel: nat, v: Expr)
    requires Ready(c) && SafeIf(c.ct, c.env.call, es, so, fuel)
    requires PEvalIf(c.ct, es, so, fuel).Ok? && Eval1(c, Node(IfExpr, es)) == Ok(v)
    ensures Agrees(c, PEvalIf(c.ct, es, so, fuel).value, v)
    decreases fuel, 5, 0
  {
    NodeEval(c, IfExpr, es);
    InstShape(es, c.s, c.s);
    IfRuns(c.env, InstList(es, 0, c.s), c.k, v);
    var w := Eval1(c, es.head).value;
    var p := PEval(c.ct, es.head, so, fuel).value;
    Sound(c, es.head, so, fuel, w);
    NotReturn(c, p.e, w);
    if !IsReturn(p.e) {
      if p.known {
        if w.lit.flat.b { Sound(c, es.tail.head, so, fuel, v); } else { SoundAlt(c, es.tail.tail, so, fuel, v); }
      } else {
        SoundBranches(c, es, p.e, so, fuel, w, v);
      }
    }
  }

  lemma {:induction false} SoundBranches(c: Run, es: List<Expr>, cond: Expr, so: bool, fuel: nat, w: Expr, v: Expr)
    requires Ready(c) && es.Cons? && es.tail.Cons? && Eval1(c, cond) == Ok(w) && Eval1(c, es.head) == Ok(w)
    requires Safe(c.ct, c.env.call, es.tail.head, so, fuel) && SafeList(c.ct, c.env.call, es.tail.tail, so, fuel)
    requires es.tail.tail.Cons?
        && SameResidual(PEval(c.ct, es.tail.head, so, fuel), PEval(c.ct, es.tail.tail.head, so, fuel))
      ==> Settles(c.env.code, cond)
    requires if IsReturn(w) then v == w
      else
        && IsBool(w.lit)
        && Ok(v) == if w.lit.flat.b then Eval1(c, es.tail.head) else EvalAlt(c.env, InstList(es.tail.tail, 0, c.s), c.k)
    requires PEval(c.ct, es.tail.head, so, fuel).Ok?
    requires PEvalBranches(c.ct, cond, PEval(c.ct, es.tail.head, so, fuel).value, es.tail.tail, so, fuel).Ok?
    ensures var t := PEval(c.ct, es.tail.head, so, fuel).value;
      Agrees(c, PEvalBranches(c.ct, cond, t, es.tail.tail, so, fuel).value, v)
    decreases fuel, 4, 0
  {
    hide Settles;
    var t := PEval(c.ct, es.tail.head, so, fuel).value;
    var alt := es.tail.tail;
    InstShape(alt, c.s, c.s);
    var taken := !IsReturn(w) && w.lit.flat.b;
    if taken { Sound(c, es.tail.head, so, fuel, v); }
    if alt.Nil? {
      IfResidual(c, cond, t.e, Nil, w, v);
    } else {
      var a := PEval(c.ct, alt.head, so, fuel).value;
      if !IsReturn(w) && !taken { Sound(c, alt.head, so, fuel, v); }
      if a.e == t.e {
        FreeLit(c, cond, w);
        KnownIsValue(c.ct, c.env.call, es.tail.head, so, fuel);
        HonestValue(c, t, v);
      } else {
        assert InstList(One(a.e), 0, c.s) == One(Inst(a.e, 0, c.s));
        IfResidual(c, cond, t.e, One(a.e), w, v);
      }
    }
  }

  lemma HonestValue(c: Run, p: Part, v: Expr)
    requires Ready(c) && Eval1(c, p.e) == Ok(v) && Honest(p)
    ensures Agrees(c, p, v)
  {
    if p.known { ValueClosed(p.e); InstClosed(p.e, 0, c.s); EvalValue(c.env, p.e, c.k); }
  }

  lemma IfSomeRuns(env: Env, es: List<Expr>, k: nat, v: Expr)
    requires EvalIfSome(env, es, k) == Ok(v)
    ensures es.Cons? && es.tail.Cons? && Eval(env, es.head, k).Ok?
    ensures SomeTaken(env, Eval(env, es.head, k).value, es.tail.head, es.tail.tail, k, v)
  {}

  /** What an `if let Some` whose scrutinee gave `w` comes to. */
  predicate SomeTaken(env: Env, w: Expr, t: Expr, alt: List<Expr>, k: nat, v: Expr)
    requires IsValue(w)
  {
    if IsReturn(w) then v == w
    else if !w.lit.TupleLit? then false
    else if |w.lit.items| == 1 then EvalApplied(env, t, Some(One(Lit(w.lit.items[0]))), k) == Ok(v)
    else EvalAlt(env, alt, k) == Ok(v)
  }

  lemma IfSomeResidual(c: Run, scrut: Expr, t: Expr, alt: List<Expr>, w: Expr, v: Expr)
    requires Eval1(c, scrut) == Ok(w) && SomeTaken(c.env, w, Inst(t, 0, c.s), InstList(alt, 0, c.s), c.k, v)
    ensures Eval1(c, Node(IfSomeMatchExpr, Cons(scrut, Cons(t, alt)))) == Ok(v)
  {
    var es := Cons(scrut, Cons(t, alt));
    NodeEval(c, IfSomeMatchExpr, es);
    InstShape(es, c.s, c.s);
  }

  lemma {:induction false} SoundIfSome(c: Run, es: List<Expr>, so: bool, fuel: nat, v: Expr)
    requires Ready(c) && SafeIfSome(c.ct, c.env.call, es, so, fuel)
    requires PEvalIfSome(c.ct, es, so, fuel).Ok? && Eval1(c, Node(IfSomeMatchExpr, es)) == Ok(v)
    ensures Agrees(c, PEvalIfSome(c.ct, es, so, fuel).value, v)
    decreases fuel, 5, 0
  {
    NodeEval(c, IfSomeMatchExpr, es);
    InstShape(es, c.s, c.s);
    IfSomeRuns(c.env, InstList(es, 0, c.s), c.k, v);
    var w := Eval1(c, es.head).value;
    var p := PEval(c.ct, es.head, so, fuel).value;
    Sound(c, es.head, so, fuel, w);
    NotReturn(c, p.e, w);
    if !IsReturn(p.e) {
      if p.known {
        if |w.lit.items| == 1 { SoundApplied(c, es.tail.head, One(Lit(w.lit.items[0])), so, fuel, v); }
        else { SoundAlt(c, es.tail.tail, so, fuel, v); }
      } else {
        SoundSomeBranches(c, es, p.e, so, fuel, w, v);
      }
    }
  }

  lemma {:induction false} SoundSomeBranches(c: Run, es: List<Expr>, scrut: Expr, so: bool, fuel: nat, w: Expr, v: Expr)
    requires Ready(c) && es.Cons? && es.tail.Cons? && Eval1(c, scrut) == Ok(w) && Eval1(c, es.head) == Ok(w)
    requires es.tail.head.Closure? && Safe(c.ct, c.env.call, es.tail.head.body, so, fuel)
        && SafeList(c.ct, c.env.call, es.tail.tail, so, fuel)
    requires es.tail.tail.Cons?
        && SameOpened(PEval(c.ct, es.tail.head.body, so, fuel), PEval(c.ct, es.tail.tail.head, so, fuel))
      ==> Settles(c.env.code, scrut)
    requires SomeTaken(c.env, w, Inst(es.tail.head, 0, c.s), InstList(es.tail.tail, 0, c.s), c.k, v)
    requires PEval(c.ct, es.tail.head.body, so, fuel).Ok?
    requires PEvalSomeBranches(c.ct, scrut, es.tail.head.id, PEval(c.ct, es.tail.head.body, so, fuel).value.e,
                               es.tail.tail, so, fuel).Ok?
    ensures var t := PEval(c.ct, es.tail.head.body, so, fuel).value.e;
      Agrees(c, PEvalSomeBranches(c.ct, scrut, es.tail.head.id, t, es.tail.tail, so, fuel).value, v)
    decreases fuel, 4, 0
  {
    hide Settles, Eval, PEval, Safe, IsFree, Subst, EvalApplied;
    var x, b, alt := es.tail.head.id, es.tail.head.body, es.tail.tail;
    var t := PEval(c.ct, b, so, fuel).value.e;
    InstShape(alt, c.s, c.s);
    var taken := !IsReturn(w) && |w.lit.items| == 1;
    if taken {
      var u := Lit(w.lit.items[0]);
      AppliedOnce(c, x, b, u);
      AppliedOnce(c, x, t, u);
      Sound(Under(c, u), b, so, fuel, v);
    }
    if alt.Nil? {
      IfSomeResidual(c, scrut, Closure(x, t), Nil, w, v);
    } else {
      var a := PEval(c.ct, alt.head, so, fuel).value;
      if !IsReturn(w) && !taken { Sound(c, alt.head, so, fuel, v); }
      if IsFree(t, 0) && Subst(t, 0, Lit(UNIT), true) == a.e {
        FreeLit(c, scrut, w);
        KnownIsValue(c.ct, c.env.call, alt.head, so, fuel);
        if taken { OpenedAlike(c, t, Lit(w.lit.items[0]), v); }
        HonestValue(c, a, v);
      } else {
        assert InstList(One(a.e), 0, c.s) == One(Inst(a.e, 0, c.s));
        IfSomeResidual(c, scrut, Closure(x, t), One(a.e), w, v);
      }
    }
  }

  lemma AppliedOnce(c: Run, x: string, b: Expr, u: Expr)
    requires Ready(c) && u.Lit?
    ensures Ready(Under(c, u))
    ensures EvalApplied(c.env, Inst(Closure(x, b), 0, c.s), Some(One(u)), c.k) == Eval1(Under(c, u), b)
  {
    AppliedUnder(c, x, b, u, Nil);
    OpenClosure(c, b, u);
    hide Eval, Inst;
    assert ApplyAll(Inst(b, 0, Under(c, u).s), Nil) == Ok(Inst(b, 0, Under(c, u).s));
  }

  /** A branch that does not use its variable, opened or without its binder. */
  lemma OpenedAlike(c: Run, t: Expr, u: Expr, v: Expr)
    requires Ready(c) && u.Lit? && IsFree(t, 0) && Eval1(Under(c, u), t) == Ok(v)
    ensures Eval1(c, Subst(t, 0, Lit(UNIT), true)) == Ok(v)
  {
    hide Eval;
    SubstFree(t, 0, u, Lit(UNIT));
    OpenClosure(c, t, u);
  }

  lemma {:induction false} SoundMatches(c: Run, es: List<Expr>, pats: seq<Pattern>, so: bool, fuel: nat,
                                        ms: List<Matched>)
    requires Ready(c) && SafeList(c.ct, c.env.call, es, so, fuel)
    requires PEvalMatches(c.ct, es, pats, so, fuel).Ok? && PEvalMatches(c.ct, es, pats, so, fuel).value.0
    requires EvalMatches(c.env, InstList(es, 0, c.s), pats, c.k) == Ok(ms)
    ensures PEvalMatches(c.ct, es, pats, so, fuel).value.1 == ms
    decreases fuel, 1, es
  {
    if es.Cons? {
      Sound(c, es.head, so, fuel, Eval1(c, es.head).value);
      SoundMatches(c, es.tail, pats[1..], so, fuel, ms.tail);
    }
  }

  lemma IfMatchRuns(env: Env, vs: seq<string>, pats: seq<Pattern>, hasAlt: bool, es: List<Expr>, k: nat, v: Expr)
    requires EvalIfMatch(env, vs, pats, hasAlt, es, k) == Ok(v)
    ensures es.Cons? && (hasAlt ==> es.tail.Cons?)
    ensures EvalMatches(env, if hasAlt then es.tail.tail else es.tail, pats, k).Ok?
    ensures var ms := EvalMatches(env, if hasAlt then es.tail.tail else es.tail, pats, k).value;
      && (MatchedReturn(ms).Some? ==> v == MatchedReturn(ms).value && IsValue(v))
      && (MatchedReturn(ms).None? && Captures(ms).None? ==>
            if hasAlt then Eval(env, es.tail.head, k) == Ok(v) else v == Lit(UNIT))
      && (MatchedReturn(ms).None? && Captures(ms).Some? ==>
            && CapturedArgs(vs, Captures(ms).value).Some?
            && EvalApplied(env, es.head, CapturedArgs(vs, Captures(ms).value), k) == Ok(v))
  {}

  lemma {:induction false} SoundIfMatch(c: Run, vs: seq<string>, pats: seq<Pattern>, hasAlt: bool, es: List<Expr>,
                                        so: bool, fuel: nat, v: Expr)
    requires Ready(c) && SafeIfMatch(c.ct, c.env.call, vs, pats, hasAlt, es, so, fuel)
    requires PEvalIfMatch(c.ct, vs, pats, hasAlt, es, so, fuel).Ok?
        && Eval1(c, Node(IfMatchExpr(vs, pats, hasAlt), es)) == Ok(v)
    ensures Agrees(c, PEvalIfMatch(c.ct, vs, pats, hasAlt, es, so, fuel).value, v)
    decreases fuel, 5, 0
  {
    NodeEval(c, IfMatchExpr(vs, pats, hasAlt), es);
    InstShape(es, c.s, c.s);
    IfMatchRuns(c.env, vs, pats, hasAlt, InstList(es, 0, c.s), c.k, v);
    var scruts := if hasAlt then es.tail.tail else es.tail;
    if PEvalMatches(c.ct, scruts, pats, so, fuel).value.0 {
      var ms := EvalMatches(c.env, InstList(scruts, 0, c.s), pats, c.k).value;
      SoundMatches(c, scruts, pats, so, fuel, ms);
      if MatchedReturn(ms).Some? {
        HonestValue1(c, v);
      } else if Captures(ms).Some? {
        CapturedLits(vs, Captures(ms).value);
        SoundApplied(c, es.head, CapturedArgs(vs, Captures(ms).value).value, so, fuel, v);
      } else if hasAlt {
        Sound(c, es.tail.head, so, fuel, v);
      }
    }
  }

  lemma HonestValue1(c: Run, v: Expr)
    requires IsValue(v)
    ensures Eval1(c, v) == Ok(v)
  {
    ValueClosed(v);
    InstClosed(v, 0, c.s);
    EvalValue(c.env, v, c.k);
  }

  // ----- calls -----

  lemma OpenSubst(c: Run, b: Expr, a: Expr)
    requires Ready(c) && (Closed(a, 0) || Shallow(b, 0))
    ensures Inst(Subst(b, 0, a, true), 0, c.s) == Inst(b, 0, [Inst(a, 0, c.s)] + c.s)
  {
    ReadyClosed(c);
    InstSubst(b, 0, a, c.s);
  }

  /** A body applied to a value, or opened with an expression that has that value. */
  lemma SwapValue(c: Run, b: Expr, l: Expr, a: Expr, us: List<Expr>, k: nat, w: Expr)
    requires Ready(c) && l.Lit? && LitList(us) && k <= c.k && Eval1(c, a) == Ok(l)
    requires EvalApplied(c.env, Inst(b, 0, [l] + c.s), Some(us), k) == Ok(w)
    ensures EvalApplied(c.env, Inst(b, 0, [Inst(a, 0, c.s)] + c.s), Some(us), c.k) == Ok(w)
  {
    var m := Itself(c.env);
    var s, t := [l] + c.s, [Inst(a, 0, c.s)] + c.s;
    ItselfAgrees(c.env);
    ReadyClosed(c);
    ClosedInst(a, 0, c.s);
    WithinAll(b, m.names);
    WithinAllList(us, m.names);
    LitListValues(us);
    assert Related(m, s, t, c.k);
    SimApplied(m, b, us, s, t, k, c.k);
  }

  lemma {:induction false} InlineOpen(c: Run, e: Expr, ps: List<Part>, vals: List<Expr>, k: nat, w: Expr)
    requires Ready(c) && LitList(vals) && AgreesList(c, ps, vals) && InlineSafe(e, Residuals(ps)) && k <= c.k
    requires EvalApplied(c.env, Inst(e, 0, c.s), Some(vals), k) == Ok(w)
    ensures ApplyAll(e, Residuals(ps)).Ok? && Eval1(c, ApplyAll(e, Residuals(ps)).value) == Ok(w)
    decreases ps
  {
    AppliedRuns(c.env, Inst(e, 0, c.s), vals, k, w);
    if ps.Nil? {
      ReadyClosed(c);
      ValueFor(c.env, e, c.s, c.s, k, c.k);
    } else {
      LitListValues(vals.tail);
      AppliedUnder(c.(k := k), e.id, e.body, vals.head, vals.tail);
      SwapValue(c, e.body, vals.head, ps.head.e, vals.tail, k, w);
      OpenSubst(c, e.body, ps.head.e);
      InlineOpen(c, Subst(e.body, 0, ps.head.e, true), ps.tail, vals.tail, c.k, w);
    }
  }

  lemma StripAgrees(c: Run, p: Part, w: Expr)
    requires Ready(c) && Agrees(c, p, w) && InlinedSafe(c.env.code, Ok(p))
    ensures Agrees(c, Part(p.known, StripReturn(p.e)), StripReturn(w))
  {
    if IsReturn(p.e) {
      InstShape(p.e.subs, c.s, c.s);
      assert Inst(p.e, 0, c.s) == Node(ReturnExpr, InstList(p.e.subs, 0, c.s));
    } else if !p.known {
      FreeLit(c, p.e, w);
    }
  }

  lemma CallRuns(env: Env, fn: string, isAsync: bool, vs: List<Expr>, k: nat, v: Expr)
    requires AllValues(vs) && FirstReturn(vs).None? && EvalCall(env, fn, isAsync, vs, k) == Ok(v)
    ensures fn in env.code ==>
      && k > 0 && EvalApplied(env, env.code[fn], Some(vs), k - 1).Ok?
      && v == StripReturn(EvalApplied(env, env.code[fn], Some(vs), k - 1).value)
    ensures fn !in env.code ==> Literals(vs).Some? && ForeignCall(env, fn, isAsync, Literals(vs).value) == Ok(v)
  {}

  lemma CallResidual(c: Run, fn: string, isAsync: bool, args: List<Expr>, vs: List<Expr>, v: Expr)
    requires EvalList(c.env, InstList(args, 0, c.s), c.k) == Ok(vs) && EvalCall(c.env, fn, isAsync, vs, c.k) == Ok(v)
    ensures Eval1(c, Node(CallExpr(fn, isAsync), args)) == Ok(v)
  {
    NodeEval(c, CallExpr(fn, isAsync), args);
  }

  lemma {:induction false} SoundCall(c: Run, fn: string, isAsync: bool, args: List<Expr>, so: bool, fuel: nat, v: Expr)
    requires Ready(c) && SafeCall(c.ct, c.env.call, fn, args, so, fuel)
    requires PEvalCall(c.ct, fn, isAsync, args, so, fuel).Ok? && Eval1(c, Node(CallExpr(fn, isAsync), args)) == Ok(v)
    ensures Agrees(c, PEvalCall(c.ct, fn, isAsync, args, so, fuel).value, v)
    decreases fuel, 5, 0
  {
    hide SafeApplied, InlineSafe, InlinedSafe, SettledToReturn;
    NodeEval(c, CallExpr(fn, isAsync), args);
    var vs := EvalList(c.env, InstList(args, 0, c.s), c.k).value;
    var ps := PEvalList(c.ct, args, so, fuel).value;
    SoundList(c, args, so, fuel, vs);
    AgreesSoFar(c, ps, vs);
    ResidualLits(c, ps, vs);
    assert EvalCall(c.env, fn, isAsync, vs, c.k) == Ok(v);
    if FirstReturn(Residuals(ps)).Some? {
      SettledAgrees(c, ps, vs);
    } else if fn in c.env.code {
      SettledAgrees(c, ps, vs);
      CallRuns(c.env, fn, isAsync, vs, c.k, v);
      SoundInline(c, fn, args, so, fuel, vs, v);
    } else {
      CallResidual(c, fn, isAsync, Residuals(ps), vs, v);
      if AllKnown(ps) && !so {
        CallRuns(c.env, fn, isAsync, vs, c.k, v);
        ForeignResidual(c, fn, isAsync, args, ps, vs, v);
      }
    }
  }

  /** A builtin that was run when specializing gave what it gives now. */
  lemma ForeignResidual(c: Run, fn: string, isAsync: bool, args: List<Expr>, ps: List<Part>, vs: List<Expr>, v: Expr)
    requires Ready(c) && Residuals(ps) == vs && AllKnown(ps) && BuiltinSafe(c.ct, c.env.call, fn, ps, false)
    requires Literals(vs).Some? && ForeignCall(c.env, fn, isAsync, Literals(vs).value) == Ok(v)
    requires Eval1(c, Node(CallExpr(fn, isAsync), args)) == Ok(v)
    requires PEvalForeign(c.ct, fn, isAsync, args, vs).Ok?
    ensures Agrees(c, PEvalForeign(c.ct, fn, isAsync, args, vs).value, v)
  {}

  /** The guards of inlining that look at the function. */
  ghost predicate InlinesSafely(c: Run, fn: string, ps: List<Part>, so: bool, fuel: nat)
    requires fn in c.ct.code
  {
    && InlineSafe(c.ct.code[fn], Residuals(ps))
    && SafeApplied(c.ct, c.env.call, c.ct.code[fn], Residuals(ps), so, fuel)
    && var r := ApplyAll(c.ct.code[fn], Residuals(ps));
       r.Ok? ==> InlinedSafe(c.ct.code, PEval(c.ct, r.value, so, fuel))
  }

  lemma {:induction false} SoundInline(c: Run, fn: string, args: List<Expr>, so: bool, fuel: nat, vs: List<Expr>,
                                       v: Expr)
    requires Ready(c) && PEvalList(c.ct, args, so, fuel).Ok? && fn in c.env.code
    requires InlinesSafely(c, fn, PEvalList(c.ct, args, so, fuel).value, so, fuel)
    requires FirstReturn(Residuals(PEvalList(c.ct, args, so, fuel).value)).None?
    requires AgreesList(c, PEvalList(c.ct, args, so, fuel).value, vs) && LitList(vs) && c.k > 0
    requires EvalApplied(c.env, c.env.code[fn], Some(vs), c.k - 1).Ok?
    requires v == StripReturn(EvalApplied(c.env, c.env.code[fn], Some(vs), c.k - 1).value)
    requires PEvalInline(c.ct, fn, PEvalList(c.ct, args, so, fuel).value, so, fuel).Ok?
    ensures Agrees(c, PEvalInline(c.ct, fn, PEvalList(c.ct, args, so, fuel).value, so, fuel).value, v)
    decreases fuel, 4, 0
  {
    var f, ps := c.env.code[fn], PEvalList(c.ct, args, so, fuel).value;
    var w := EvalApplied(c.env, f, Some(vs), c.k - 1).value;
    InstClosed(f, 0, c.s);
    InlineOpen(c, f, ps, vs, c.k - 1, w);
    var body := ApplyAll(f, Residuals(ps)).value;
    Sound(c, body, so, fuel, w);
    StripAgrees(c, PEval(c.ct, body, so, fuel).value, w);
  }

  // ----- iteration -----

  lemma IterRuns(env: Env, op: IterOp, vs: seq<string>, hasAcc: bool, es: List<Expr>, k: nat, v: Expr)
    requires EvalIterExpr(env, op, vs, hasAcc, es, k) == Ok(v)
    ensures IterShape(if hasAcc then Some("") else None, es) && Eval(env, es.head, k).Ok?
    ensures IterTaken(env, op, vs, hasAcc, es, Eval(env, es.head, k).value, k, v)
  {
    hide IterResult;
  }

  ghost predicate IterTaken(env: Env, op: IterOp, vs: seq<string>, hasAcc: bool, es: List<Expr>, w: Expr, k: nat,
                            v: Expr)
    requires IsValue(w) && IterShape(if hasAcc then Some("") else None, es)
  {
    if IsReturn(w) then v == w
    else
      && w.lit.ListLit?
      && (hasAcc ==> Eval(env, es.tail.tail.head, k).Ok?)
      && EvalIter(env, op, vs, w.lit.items, es.tail.head,
                  if hasAcc then Some(Eval(env, es.tail.tail.head, k).value) else None, k) == Ok(v)
  }

  /** An iteration over residuals that evaluate alike. */
  lemma IterResidual(c: Run, op: IterOp, vs: seq<string>, n: Option<string>, over: Expr, body: Expr,
                     acc: Option<Expr>, w: Expr, a: Expr, v: Expr)
    requires (acc.Some? <==> n.Some?) && Eval1(c, over) == Ok(w)
    requires if IsReturn(w) then v == w else
      && w.lit.ListLit? && (acc.Some? ==> Eval1(c, acc.value) == Ok(a))
      && (acc.Some? ==> IsValue(a))
      && EvalIter(c.env, op, vs, w.lit.items, Inst(body, 0, c.s), if acc.Some? then Some(a) else None, c.k) == Ok(v)
    ensures Eval1(c, IterNode(op, vs, n, over, body, acc)) == Ok(v)
  {
    hide IterResult;
    var es := if acc.Some? then Three(over, body, acc.value) else Two(over, body);
    NodeEval(c, Iter(op, vs, n), es);
    InstShape(es, c.s, c.s);
  }

  lemma IterArgsLength(vs: seq<string>, l: Literal)
    ensures IterArgs(vs, l).Some? ==> Length(IterArgs(vs, l).value) == Opened(vs)
  {
    if l.TupleLit? && |vs| == |l.items| { BoundLength(vs, l.items); }
    if |vs| == 1 { BoundLength(vs, [l]); }
  }

  lemma LoopRuns(env: Env, vs: seq<string>, lits: seq<Literal>, e: Expr, acc: Option<Expr>, k: nat,
                 r: (List<Expr>, Option<Expr>))
    requires (acc.Some? ==> IsValue(acc.value)) && lits != [] && IterLoop(env, vs, lits, e, acc, k) == Ok(r)
    ensures IterArgs(vs, lits[0]).Some? && r.0.Cons?
    ensures EvalApplied(env, e, Some(AccArgs(acc, IterArgs(vs, lits[0]).value)), k) == Ok(r.0.head) && IsValue(r.0.head)
    ensures IterLoop(env, vs, lits[1..], e, if acc.Some? then Some(r.0.head) else None, k) == Ok((r.0.tail, r.1))
  {}

  lemma FreeApplied(c: Run, e: Expr, us: List<Expr>, v: Expr)
    requires Ready(c) && Settles(c.env.code, e) && LitList(us)
    requires EvalApplied(c.env, Inst(e, 0, c.s), Some(us), c.k) == Ok(v)
    ensures v.Lit?
  {
    SettlesCalm(c, e);
    PlainApplied(c.env, Inst(e, 0, c.s), Some(us), c.k, |c.env.code|);
  }

  predicate LitsButLast(vs: List<Expr>) { vs.Cons? && vs.tail.Cons? ==> vs.head.Lit? && LitsButLast(vs.tail) }

  /** The loop over a body that was partially evaluated below its closures. */
  lemma {:induction false} SoundLoopUnder(c: Run, vs: seq<string>, lits: seq<Literal>, e: Expr, acc: Option<Expr>,
                                          so: bool, fuel: nat,
                                          r: (List<Expr>, Option<Expr>))
    requires Ready(c) && PEval(c.ct, e, so, fuel).Ok?
    requires acc.Some? ==> acc.value.Lit? && (Settles(c.env.code, e) || LitsButLast(r.0))
    requires SafeUnder(c.ct, c.env.call, e, Opened(vs) + (if acc.Some? then 1 else 0), so, fuel)
    requires IterLoop(c.env, vs, lits, Inst(e, 0, c.s), acc, c.k) == Ok(r)
    ensures IterLoop(c.env, vs, lits, Inst(PEval(c.ct, e, so, fuel).value.e, 0, c.s), acc, c.k) == Ok(r)
    decreases fuel, 3, |lits|
  {
    hide Settles, IterLoop, EvalApplied, PEval, SafeUnder, Eval;
    var e' := PEval(c.ct, e, so, fuel).value.e;
    if lits == [] {
      LoopStops(c.env, vs, Inst(e, 0, c.s), acc, c.k);
      LoopStops(c.env, vs, Inst(e', 0, c.s), acc, c.k);
    } else {
      LoopRuns(c.env, vs, lits, Inst(e, 0, c.s), acc, c.k, r);
      var next := if acc.Some? then Some(r.0.head) else None;
      ArgsLits(vs, lits[0]);
      IterArgsLength(vs, lits[0]);
      var us := AccArgs(acc, IterArgs(vs, lits[0]).value);
      SoundUnder(c, e, Opened(vs) + (if acc.Some? then 1 else 0), us, so, fuel, r.0.head);
      if acc.Some? && Settles(c.env.code, e) { FreeApplied(c, e, us, r.0.head); }
      if lits[1..] == [] {
        LoopStops(c.env, vs, Inst(e, 0, c.s), next, c.k);
        LoopStops(c.env, vs, Inst(e', 0, c.s), next, c.k);
      } else {
        LoopRuns(c.env, vs, lits[1..], Inst(e, 0, c.s), next, c.k, (r.0.tail, r.1));
        SoundLoopUnder(c, vs, lits[1..], e, next, so, fuel, (r.0.tail, r.1));
      }
      LoopGoesOn(c.env, vs, lits, Inst(e', 0, c.s), acc, c.k, r.0.head, (r.0.tail, r.1));
    }
  }

  lemma LoopStops(env: Env, vs: seq<string>, e: Expr, acc: Option<Expr>, k: nat)
    requires acc.Some? ==> IsValue(acc.value)
    ensures IterLoop(env, vs, [], e, acc, k) == Ok((Nil, acc))
  {}

  lemma LoopGoesOn(env: Env, vs: seq<string>, lits: seq<Literal>, e: Expr, acc: Option<Expr>, k: nat, v: Expr,
                   r: (List<Expr>, Option<Expr>))
    requires (acc.Some? ==> IsValue(acc.value)) && lits != [] && IterArgs(vs, lits[0]).Some? && IsValue(v)
    requires EvalApplied(env, e, Some(AccArgs(acc, IterArgs(vs, lits[0]).value)), k) == Ok(v)
    requires IterLoop(env, vs, lits[1..], e, if acc.Some? then Some(v) else None, k) == Ok(r)
    ensures IterLoop(env, vs, lits, e, acc, k) == Ok((Cons(v, r.0), r.1))
  {
    hide EvalApplied;
  }

  /** Element by element, without an accumulator. */
  lemma {:induction false} SoundEach(c: Run, vs: seq<string>, lits: seq<Literal>, e: Expr, so: bool, fuel: nat,
                                     r: (List<Expr>, Option<Expr>))
    requires Ready(c) && SafeLoop(c.ct, c.env.call, vs, lits, e, None, so, fuel)
        && PIterLoop(c.ct, vs, lits, e, None, so, fuel).Ok?
    requires IterLoop(c.env, vs, lits, Inst(e, 0, c.s), None, c.k) == Ok(r)
    ensures AgreesList(c, PIterLoop(c.ct, vs, lits, e, None, so, fuel).value.0, r.0)
    ensures PIterLoop(c.ct, vs, lits, e, None, so, fuel).value.1.None? && r.1.None?
    decreases fuel, 3, |lits|
  {
    if lits != [] {
      LoopRuns(c.env, vs, lits, Inst(e, 0, c.s), None, c.k, r);
      ArgsLits(vs, lits[0]);
      SoundApplied(c, e, IterArgs(vs, lits[0]).value, so, fuel, r.0.head);
      SoundEach(c, vs, lits[1..], e, so, fuel, (r.0.tail, r.1));
    }
  }

  function LitParts(us: List<Expr>): List<Part> {
    match us
    case Nil => Nil
    case Cons(u, rest) => Cons(Part(true, u), LitParts(rest))
  }

  lemma {:induction false} LitPartsAgree(c: Run, us: List<Expr>)
    requires LitList(us)
    ensures AgreesList(c, LitParts(us), us) && Residuals(LitParts(us)) == us
  {
    if us.Cons? {
      assert Eval1(c, us.head) == Ok(us.head);
      LitPartsAgree(c, us.tail);
    }
  }

  lemma LitsInline(e: Expr, us: List<Expr>)
    requires LitList(us)
    ensures InlineSafe(e, us)
    decreases us
  {
    if us.Cons? && e.Closure? { LitsInline(Subst(e.body, 0, us.head, true), us.tail); }
  }

  /** The body applied to the accumulator, a known value or a residual that stands
      for a literal, and to one element. */
  lemma FoldOpen(c: Run, e: Expr, acc: Part, a: Expr, us: List<Expr>, v: Expr)
    requires Ready(c) && Agrees(c, acc, a) && IsValue(a) && (a.Lit? || acc.known) && LitList(us)
    requires e.Closure? ==> Closed(acc.e, 0) || Shallow(e.body, 0)
    requires EvalApplied(c.env, Inst(e, 0, c.s), Some(Cons(a, us)), c.k) == Ok(v)
    ensures ApplyAll(e, Cons(acc.e, us)).Ok? && Eval1(c, ApplyAll(e, Cons(acc.e, us)).value) == Ok(v)
  {
    LitListValues(us);
    if a.Lit? {
      LitPartsAgree(c, us);
      if e.Closure? { LitsInline(Subst(e.body, 0, acc.e, true), us); }
      InlineOpen(c, e, Cons(acc, LitParts(us)), Cons(a, us), c.k, v);
    } else {
      AppliedInst(c, e, Cons(a, us), v);
    }
  }

  /** Folding: up to the first `return` the residual accumulators are right. */
  lemma {:induction false} SoundFold(c: Run, vs: seq<string>, lits: seq<Literal>, e: Expr, acc: Part, a: Expr, so: bool,
                                     fuel: nat, r: (List<Expr>, Option<Expr>))
    requires Ready(c) && Agrees(c, acc, a) && IsValue(a) && (a.Lit? || acc.known)
    requires SafeLoop(c.ct, c.env.call, vs, lits, e, Some(acc), so, fuel)
    requires PIterLoop(c.ct, vs, lits, e, Some(acc), so, fuel).Ok?
    requires var ps := PIterLoop(c.ct, vs, lits, e, Some(acc), so, fuel).value.0;
      SettledToReturn(c.env.code, ps) || NoneBefore(ps, r.0)
    requires IterLoop(c.env, vs, lits, Inst(e, 0, c.s), Some(a), c.k) == Ok(r)
    ensures var ps := PIterLoop(c.ct, vs, lits, e, Some(acc), so, fuel).value;
      && AgreesToReturn(c, ps.0, r.0) && ps.1.Some? && r.1.Some?
      && (FirstReturn(Residuals(ps.0)).None? ==> Agrees(c, ps.1.value, r.1.value))
    decreases fuel, 3, |lits|
  {
    hide Settles;
    LoopKeepsAcc(c, vs, lits, e, acc, so, fuel, a, r);
    if lits != [] {
      LoopRuns(c.env, vs, lits, Inst(e, 0, c.s), Some(a), c.k, r);
      ArgsLits(vs, lits[0]);
      var us := IterArgs(vs, lits[0]).value;
      FoldOpen(c, e, acc, a, us, r.0.head);
      Sound(c, ApplyAll(e, Cons(acc.e, us)).value, so, fuel, r.0.head);
      var p := PEvalApplied(c.ct, e, Cons(acc.e, us), so, fuel).value;
      if !IsReturn(p.e) {
        if Settles(c.env.code, p.e) { FreeLit(c, p.e, r.0.head); }
        SoundFold(c, vs, lits[1..], e, p, r.0.head, so, fuel, (r.0.tail, r.1));
      }
      var ps := PIterLoop(c.ct, vs, lits[1..], e, Some(p), so, fuel).value;
      assert PIterLoop(c.ct, vs, lits, e, Some(acc), so, fuel) == Ok((Cons(p, ps.0), ps.1));
    }
  }

  lemma {:induction false} LoopKeepsAcc(c: Run, vs: seq<string>, lits: seq<Literal>, e: Expr, acc: Part, so: bool,
                                        fuel: nat, a: Expr, r: (List<Expr>, Option<Expr>))
    requires IsValue(a) && IterLoop(c.env, vs, lits, Inst(e, 0, c.s), Some(a), c.k) == Ok(r)
    requires PIterLoop(c.ct, vs, lits, e, Some(acc), so, fuel).Ok?
    ensures PIterLoop(c.ct, vs, lits, e, Some(acc), so, fuel).value.1.Some? && r.1.Some?
    decreases |lits|
  {
    if lits != [] {
      LoopRuns(c.env, vs, lits, Inst(e, 0, c.s), Some(a), c.k, r);
      var p := PEvalApplied(c.ct, e, Cons(acc.e, IterArgs(vs, lits[0]).value), so, fuel).value;
      LoopKeepsAcc(c, vs, lits[1..], e, p, so, fuel, r.0.head, (r.0.tail, r.1));
    }
  }

  lemma KnownAgrees(c: Run, ps: List<Part>, rs: List<Expr>)
    requires AgreesList(c, ps, rs) && AllKnown(ps)
    ensures Residuals(ps) == rs
  {}

  lemma EachResult(c: Run, op: IterOp, vs: seq<string>, n: Option<string>, lits: seq<Literal>, body: Expr,
                   ps: List<Part>, rs: List<Expr>, v: Expr)
    requires Ready(c) && n.None? && AgreesList(c, ps, rs) && SafeResults(c.env.code, op, lits, false, Ok((ps, None)))
    requires IterResult(op, lits, rs, None) == Ok(v)
    requires EvalIter(c.env, op, vs, lits, Inst(body, 0, c.s), None, c.k) == Ok(v)
    requires PIterResult(op, vs, n, lits, body, ps, None).Ok?
    ensures Agrees(c, PIterResult(op, vs, n, lits, body, ps, None).value, v)
  {
    hide Collect;
    if FirstReturn(Residuals(ps)).Some? {
      AgreesSoFar(c, ps, rs);
      SettledAgrees(c, ps, rs);
    } else if AllKnown(ps) {
      KnownAgrees(c, ps, rs);
    } else {
      IterResidual(c, op, vs, n, Lit(ListLit(lits)), body, None, Lit(ListLit(lits)), Lit(UNIT), v);
    }
  }

  lemma FoldResult(c: Run, vs: seq<string>, n: Option<string>, lits: seq<Literal>, body: Expr, ps: List<Part>,
                   acc: Part,
                   rs: List<Expr>, last: Expr, v: Expr)
    requires Ready(c) && AgreesToReturn(c, ps, rs) && SettledToReturn(c.env.code, ps)
    requires FirstReturn(Residuals(ps)).None? ==> Agrees(c, acc, last)
    requires IterResult(Fold, lits, rs, Some(last)) == Ok(v)
    ensures PIterResult(Fold, vs, n, lits, body, ps, Some(acc)).Ok?
    ensures Agrees(c, PIterResult(Fold, vs, n, lits, body, ps, Some(acc)).value, v)
  {
    SettledAgrees(c, ps, rs);
  }

  lemma {:induction false} SoundIter(c: Run, op: IterOp, vs: seq<string>, n: Option<string>, es: List<Expr>, so: bool,
                                     fuel: nat, v: Expr)
    requires Ready(c) && SafeIter(c.ct, c.env.call, op, vs, n, es, so, fuel)
    requires PEvalIter(c.ct, op, vs, n, es, so, fuel).Ok? && Eval1(c, Node(Iter(op, vs, n), es)) == Ok(v)
    ensures Agrees(c, PEvalIter(c.ct, op, vs, n, es, so, fuel).value, v)
    decreases fuel, 5, 0
  {
    hide EvalIter, PIterResult, SafeLoop, SafeResults;
    NodeEval(c, Iter(op, vs, n), es);
    InstShape(es, c.s, c.s);
    IterRuns(c.env, op, vs, n.Some?, InstList(es, 0, c.s), c.k, v);
    var w := Eval1(c, es.head).value;
    var p := PEval(c.ct, es.head, so, fuel).value;
    Sound(c, es.head, so, fuel, w);
    NotReturn(c, p.e, w);
    if !IsReturn(p.e) {
      if n.None? { SoundIterPlain(c, op, vs, n, es, so, fuel, w, p, v); }
      else { SoundIterFold(c, op, vs, n, es, so, fuel, w, p, v); }
    }
  }

  lemma {:induction false} SoundIterPlain(c: Run, op: IterOp, vs: seq<string>, n: Option<string>, es: List<Expr>,
                                          so: bool, fuel: nat,
                                          w: Expr, p: Part, v: Expr)
    requires Ready(c) && SafeIter(c.ct, c.env.call, op, vs, n, es, so, fuel) && n.None? && IterShape(n, es)
    requires PEvalIter(c.ct, op, vs, n, es, so, fuel).Ok? && PEval(c.ct, es.head, so, fuel) == Ok(p) && !IsReturn(p.e)
    requires Agrees(c, p, w) && IsValue(w)
    requires if IsReturn(w) then v == w
      else w.lit.ListLit? && EvalIter(c.env, op, vs, w.lit.items, Inst(es.tail.head, 0, c.s), None, c.k) == Ok(v)
    ensures Agrees(c, PEvalIter(c.ct, op, vs, n, es, so, fuel).value, v)
    decreases fuel, 4, 0
  {
    hide IterResult, PIterResult, SafeResults;
    var e := es.tail.head;
    if !p.known {
      var b := PEval(c.ct, e, so, fuel).value.e;
      if !IsReturn(w) {
        var r := IterLoop(c.env, vs, w.lit.items, Inst(e, 0, c.s), None, c.k).value;
        SoundLoopUnder(c, vs, w.lit.items, e, None, so, fuel, r);
      }
      IterResidual(c, op, vs, n, p.e, b, None, w, Lit(UNIT), v);
    } else {
      var r := IterLoop(c.env, vs, w.lit.items, Inst(e, 0, c.s), None, c.k).value;
      SoundEach(c, vs, w.lit.items, e, so, fuel, r);
      var ps := PIterLoop(c.ct, vs, w.lit.items, e, None, so, fuel).value;
      EachResult(c, op, vs, n, w.lit.items, e, ps.0, r.0, v);
    }
  }

  lemma {:induction false} SoundIterFold(c: Run, op: IterOp, vs: seq<string>, n: Option<string>, es: List<Expr>,
                                         so: bool, fuel: nat,
                                         w: Expr, p: Part, v: Expr)
    requires Ready(c) && SafeIter(c.ct, c.env.call, op, vs, n, es, so, fuel) && n.Some? && IterShape(n, es)
    requires PEvalIter(c.ct, op, vs, n, es, so, fuel).Ok? && PEval(c.ct, es.head, so, fuel) == Ok(p) && !IsReturn(p.e)
    requires Agrees(c, p, w) && IsValue(w)
    requires if IsReturn(w) then v == w
      else
        && w.lit.ListLit? && Eval1(c, es.tail.tail.head).Ok?
        && var a := Eval1(c, es.tail.tail.head).value;
           EvalIter(c.env, op, vs, w.lit.items, Inst(es.tail.head, 0, c.s), Some(a), c.k) == Ok(v)
    ensures Agrees(c, PEvalIter(c.ct, op, vs, n, es, so, fuel).value, v)
    decreases fuel, 4, 0
  {
    hide IterResult, PIterResult;
    var e, init := es.tail.head, es.tail.tail.head;
    var acc := PEval(c.ct, init, so, fuel).value;
    if IsReturn(w) {
      IterResidual(c, op, vs, n, p.e, PEval(c.ct, e, so, fuel).value.e, Some(acc.e), w, Lit(UNIT), v);
    } else {
      var a := Eval1(c, init).value;
      Sound(c, init, so, fuel, a);
      var r := IterLoop(c.env, vs, w.lit.items, Inst(e, 0, c.s), Some(a), c.k).value;
      if !p.known {
        FreeLit(c, acc.e, a);
        SoundLoopUnder(c, vs, w.lit.items, e, Some(a), so, fuel, r);
        IterResidual(c, op, vs, n, p.e, PEval(c.ct, e, so, fuel).value.e, Some(acc.e), w, a, v);
      } else if !acc.known {
        IterResidual(c, op, vs, n, p.e, e, Some(acc.e), w, a, v);
      } else {
        SoundFold(c, vs, w.lit.items, e, acc, a, so, fuel, r);
        var ps := PIterLoop(c.ct, vs, w.lit.items, e, Some(acc), so, fuel).value;
        FoldResult(c, vs, n, w.lit.items, e, ps.0, ps.1.value, r.0, r.1.value, v);
      }
    }
  }

  // ----- the theorem -----

  /** Whatever literals the dangling variables of `e` stand for, and however the
      builtins changed since: if `e` evaluates to `v` then so does its residual,
      and a residual claimed to be known is `v`. */
  lemma PEvalPreservesMeaning(env: Env, now: Table, e: Expr, so: bool, fuel: nat, args: seq<Expr>, k: nat, v: Expr)
    requires ClosedEnv(env) && (forall i :: 0 <= i < |args| ==> args[i].Lit?)
    requires PEval(env, e, so, fuel).Ok? && Safe(env, now, e, so, fuel)
    requires Eval(env.(call := now), Inst(e, 0, args), k) == Ok(v)
    ensures var p := PEval(env, e, so, fuel).value;
      Eval(env.(call := now), Inst(p.e, 0, args), k) == Ok(v) && (p.known ==> p.e == v)
  {
    Sound(Run(env, env.(call := now), args, k), e, so, fuel, v);
  }
}
