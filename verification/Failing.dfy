/** When partial evaluation may fail: only where some expression that it looks at
    has no value at all, or where it meets one of five things that it refuses. */
module Failing {
  import opened Prelude
  import opened Syntax
  import opened Terms
  import opened TermLaws
  import opened Interpret
  import opened Simulation
  import opened Shapes
  import opened Specialize
  import opened Safety
  import opened ResidualScope
  import opened Soundness
  import opened Compile

  // ----- reasons to fail -----

  /** Has no value, whatever literals the dangling variables stand for. */
  ghost predicate Hopeless(env: Env, e: Expr) {
    forall s: seq<Expr>, k: nat :: (forall i :: 0 <= i < |s| ==> s[i].Lit?) ==> Eval(env, Inst(e, 0, s), k).Err?
  }

  /** Neither a literal nor a `return`. */
  predicate Open(e: Expr) { !e.Lit? && !IsReturn(e) }

  predicate SomeOpen(es: List<Expr>) { es.Cons? && (Open(es.head) || SomeOpen(es.tail)) }

  predicate IsZero(l: Literal) { l == Flat(Int(0)) || l == Flat(Float(0.0)) }

  /** A node that no program text has: too few or too many parts, no closure where
      one is applied, a fold that starts from nothing. */
  predicate Misshapen(tag: Tag, es: List<Expr>) {
    match tag
    case ReturnExpr => !(es.Cons? && es.tail.Nil?)
    case PrefixExpr(_) => !(es.Cons? && es.tail.Nil?)
    case InfixExpr(_) => !(es.Cons? && es.tail.Cons? && es.tail.tail.Nil?)
    case BlockExpr(_) => false
    case Let(_) => !(es.Cons? && es.tail.Cons? && es.tail.tail.Nil?)
    case Iter(op, _, n) => !IterShape(n, es) || (op == Fold && n.None?)
    case IfExpr => !FewBranches(es)
    case IfSomeMatchExpr => !FewBranches(es) || !es.tail.head.Closure?
    case IfMatchExpr(_, _, hasAlt) => !(es.Cons? && (hasAlt ==> es.tail.Cons?))
    case CallExpr(_, _) => false
  }

  predicate FewBranches(es: List<Expr>) {
    es.Cons? && es.tail.Cons? && (es.tail.tail.Nil? || es.tail.tail.tail.Nil?)
  }

  /** What the specializer refuses although it may have a value: a quotient by a
      literal zero; `&&` and `||` with a literal that is no bool on the right; a
      list or tuple with an element that is not known; a `let` whose closures are
      not as many as its variables, because of a "_"; and an `if match` on something
      that is not known, or whose result is not. */
  ghost predicate Refused(env: Env, tag: Tag, es: List<Expr>, so: bool, fuel: nat) {
    match tag
    case InfixExpr(op) =>
      && es.Cons? && es.tail.Cons? && PEval(env, es.tail.head, so, fuel).Ok?
      && var right := PEval(env, es.tail.head, so, fuel).value.e;
         right.Lit? && if op == Divide then IsZero(right.lit) else ShortCircuits(op) && !IsBool(right.lit)
    case BlockExpr(kind) =>
      kind != StmtBlock && PEvalList(env, es, so, fuel).Ok? && SomeOpen(Residuals(PEvalList(env, es, so, fuel).value))
    case Let(vs) => es.Cons? && es.tail.Cons? && |Params(es.tail.head)| != |vs|
    case IfMatchExpr(vs, pats, hasAlt) =>
      && es.Cons? && (hasAlt ==> es.tail.Cons?)
      && var r := PEvalMatches(env, if hasAlt then es.tail.tail else es.tail, pats, so, fuel);
         || OpenScrutinee(env, if hasAlt then es.tail.tail else es.tail, so, fuel)
         || (r.Ok? && Captures(r.value.1).None? && hasAlt && OpenResult(PEval(env, es.tail.head, so, fuel)))
         || (r.Ok? && Captures(r.value.1).Some? && CapturedArgs(vs, Captures(r.value.1).value).Some?
             && OpenResult(PEvalApplied(env, es.head, CapturedArgs(vs, Captures(r.value.1).value).value, so, fuel)))
    case _ => false
  }

  predicate OpenResult(r: Result<Part>) { r.Ok? && Open(r.value.e) }

  predicate OpenScrutinee(env: Env, es: List<Expr>, so: bool, fuel: nat) {
    es.Cons? && (OpenResult(PEval(env, es.head, so, fuel)) || OpenScrutinee(env, es.tail, so, fuel))
  }

  // ----- among all that partial evaluation looks at -----

  ghost predicate Blocked(env: Env, e: Expr, so: bool, fuel: nat)
    decreases fuel, 0, 0
  {
    fuel > 0 && e.Node? &&
    (Hopeless(env, e) || Misshapen(e.tag, e.subs) || Refused(env, e.tag, e.subs, so, fuel - 1)
     || BlockedPart(env, e.tag, e.subs, so, fuel - 1))
  }

  ghost predicate BlockedList(env: Env, es: List<Expr>, so: bool, fuel: nat)
    decreases fuel, 1, es
  {
    es.Cons? && (Blocked(env, es.head, so, fuel) || BlockedList(env, es.tail, so, fuel))
  }

  ghost predicate BlockedUnder(env: Env, e: Expr, n: nat, so: bool, fuel: nat)
    decreases fuel, 1, n
  {
    if n == 0 then Blocked(env, e, so, fuel)
    else fuel > 0 && e.Closure? && BlockedUnder(env, e.body, n - 1, so, fuel - 1)
  }

  ghost predicate BlockedApplied(env: Env, e: Expr, us: List<Expr>, so: bool, fuel: nat)
    decreases fuel, 2, 0
  {
    ApplyAll(e, us).Ok? && Blocked(env, ApplyAll(e, us).value, so, fuel)
  }

  /** One of the parts is blocked: those that are evaluated, or applied and then
      evaluated. */
  ghost predicate BlockedPart(env: Env, tag: Tag, es: List<Expr>, so: bool, fuel: nat)
    decreases fuel, 9, 0
  {
    match tag
    case ReturnExpr => BlockedList(env, es, so, fuel)
    case PrefixExpr(_) => BlockedList(env, es, so, fuel)
    case InfixExpr(_) => BlockedList(env, es, so, fuel)
    case BlockExpr(kind) =>
      if kind != StmtBlock then BlockedList(env, es, so, fuel)
      else es.Cons? && (Blocked(env, es.head, so, fuel) || BlockedRest(env, es, so, fuel))
    case Let(vs) => es.Cons? && es.tail.Cons? && BlockedLet(env, vs, es.head, es.tail.head, so, fuel)
    case Iter(_, vs, n) => BlockedIter(env, vs, n, es, so, fuel)
    case IfExpr => es.Cons? && es.tail.Cons? && BlockedIf(env, es, so, fuel)
    case IfSomeMatchExpr => es.Cons? && es.tail.Cons? && BlockedIfSome(env, es, so, fuel)
    case IfMatchExpr(vs, pats, hasAlt) =>
      es.Cons? && (hasAlt ==> es.tail.Cons?) && BlockedIfMatch(env, vs, pats, hasAlt, es, so, fuel)
    case CallExpr(fn, _) => BlockedList(env, es, so, fuel) || BlockedCall(env, fn, es, so, fuel)
  }

  /** Both branches under a condition that is not known, else the one that is taken. */
  ghost predicate BlockedIf(env: Env, es: List<Expr>, so: bool, fuel: nat)
    requires es.Cons? && es.tail.Cons?
    decreases fuel, 4, 0
  {
    var p := PEval(env, es.head, so, fuel);
    || Blocked(env, es.head, so, fuel)
    || (p.Ok? && (p.value.known ==> p.value.e == Lit(BoolLit(true))) && Blocked(env, es.tail.head, so, fuel))
    || (p.Ok? && (p.value.known ==> p.value.e == Lit(BoolLit(false))) && BlockedList(env, es.tail.tail, so, fuel))
  }

  ghost predicate BlockedIfSome(env: Env, es: List<Expr>, so: bool, fuel: nat)
    requires es.Cons? && es.tail.Cons?
    decreases fuel, 4, 0
  {
    var p := PEval(env, es.head, so, fuel);
    var one := p.Ok? && p.value.known && p.value.e.Lit? && p.value.e.lit.TupleLit? && |p.value.e.lit.items| == 1;
    || Blocked(env, es.head, so, fuel)
    || (one && BlockedApplied(env, es.tail.head, One(Lit(p.value.e.lit.items[0])), so, fuel))
    || (p.Ok? && !p.value.known && es.tail.head.Closure? && Blocked(env, es.tail.head.body, so, fuel))
    || (p.Ok? && !one && BlockedList(env, es.tail.tail, so, fuel))
  }

  ghost predicate BlockedIfMatch(env: Env, vs: seq<string>, pats: seq<Pattern>, hasAlt: bool, es: List<Expr>, so: bool,
                                 fuel: nat)
    requires es.Cons? && (hasAlt ==> es.tail.Cons?)
    decreases fuel, 4, 0
  {
    var scruts := if hasAlt then es.tail.tail else es.tail;
    var r := PEvalMatches(env, scruts, pats, so, fuel);
    || BlockedList(env, scruts, so, fuel)
    || (r.Ok? && Captures(r.value.1).None? && hasAlt && Blocked(env, es.tail.head, so, fuel))
    || (r.Ok? && Captures(r.value.1).Some? && CapturedArgs(vs, Captures(r.value.1).value).Some?
        && BlockedApplied(env, es.head, CapturedArgs(vs, Captures(r.value.1).value).value, so, fuel))
  }

  /** The statements after one that leaves them to be evaluated. */
  ghost predicate BlockedRest(env: Env, es: List<Expr>, so: bool, fuel: nat)
    requires es.Cons?
    decreases fuel, 4, 0
  {
    && PEval(env, es.head, so, fuel).Ok? && es.tail.Cons?
    && Blocked(env, Node(BlockExpr(StmtBlock), es.tail), if PEval(env, es.head, so, fuel).value.known then so else true,
               fuel)
  }

  ghost predicate BlockedLet(env: Env, vs: seq<string>, rhs: Expr, body: Expr, so: bool, fuel: nat)
    decreases fuel, 4, 0
  {
    var p, b := PEval(env, rhs, so, fuel), AtDepth(body, |vs|);
    if b.Some? && AllFree(b.value, |vs|) then BlockedApplied(env, body, Units(|vs|), so, fuel)
    else
      || Blocked(env, rhs, so, fuel)
      || (p.Ok? && !p.value.known && BlockedUnder(env, body, |vs|, so, fuel))
      || (p.Ok? && p.value.known && p.value.e.Lit? && LetArgs(vs, p.value.e.lit).Some?
          && BlockedApplied(env, body, LetArgs(vs, p.value.e.lit).value, so, fuel))
  }

  ghost predicate BlockedCall(env: Env, fn: string, args: List<Expr>, so: bool, fuel: nat)
    decreases fuel, 4, 0
  {
    && fn in env.code && PEvalList(env, args, so, fuel).Ok?
    && BlockedApplied(env, env.code[fn], Residuals(PEvalList(env, args, so, fuel).value), so, fuel)
  }

  ghost predicate BlockedIter(env: Env, vs: seq<string>, n: Option<string>, es: List<Expr>, so: bool, fuel: nat)
    decreases fuel, 4, 0
  {
    IterShape(n, es) &&
    (Blocked(env, es.head, so, fuel) || (n.Some? && Blocked(env, es.tail.tail.head, so, fuel))
     || (PEval(env, es.head, so, fuel).Ok? && !PEval(env, es.head, so, fuel).value.known
         && BlockedUnder(env, es.tail.head, Opened(vs) + (if n.Some? then 1 else 0), so, fuel))
     || var p, acc := PEval(env, es.head, so, fuel), PEvalAcc(env, n, es, so, fuel);
        && p.Ok? && p.value.known && p.value.e.Lit? && p.value.e.lit.ListLit? && acc.Ok?
        && BlockedLoop(env, vs, p.value.e.lit.items, es.tail.head, acc.value, so, fuel))
  }

  ghost predicate BlockedLoop(env: Env, vs: seq<string>, lits: seq<Literal>, body: Expr, acc: Option<Part>, so: bool,
                              fuel: nat)
    decreases fuel, 3, |lits|
  {
    lits != [] && IterArgs(vs, lits[0]).Some? &&
    var us := AccArgs(PartExpr(acc), IterArgs(vs, lits[0]).value);
    (BlockedApplied(env, body, us, so, fuel)
     || var p := PEvalApplied(env, body, us, so, fuel);
        p.Ok? && BlockedLoop(env, vs, lits[1..], body, if acc.Some? then Some(p.value) else None, so, fuel))
  }

  // ----- nothing else makes it fail -----

  /** The program with the builtins as they are now. */
  ghost function Now(env: Env, s: seq<Expr>, k: nat): Run { Run(env, env, s, k) }

  lemma KnownLit(env: Env, e: Expr, so: bool, fuel: nat)
    requires ClosedEnv(env) && Safe(env, env.call, e, so, fuel) && PEval(env, e, so, fuel).Ok?
    ensures var p := PEval(env, e, so, fuel).value; p.known && !IsReturn(p.e) ==> p.e.Lit?
  {
    KnownIsValue(env, env.call, e, so, fuel);
  }

  /** A partial evaluation that fails does so at an expression without a value or at
      one of the things that are refused. */
  lemma {:induction false} Fails(env: Env, e: Expr, so: bool, fuel: nat)
    requires ClosedEnv(env) && Safe(env, env.call, e, so, fuel) && PEval(env, e, so, fuel) == Err(Failed)
    ensures Blocked(env, e, so, fuel)
    decreases fuel, 0, 0
  {
    FailsNode(env, e.tag, e.subs, so, fuel - 1);
    assert e == Node(e.tag, e.subs);
  }

  lemma {:induction false} FailsNode(env: Env, tag: Tag, es: List<Expr>, so: bool, fuel: nat)
    requires ClosedEnv(env) && SafeNode(env, env.call, tag, es, so, fuel)
    requires PEvalNode(env, tag, es, so, fuel) == Err(Failed)
    ensures Hopeless(env, Node(tag, es)) || Misshapen(tag, es) || Refused(env, tag, es, so, fuel)
         || BlockedPart(env, tag, es, so, fuel)
    decreases fuel, 9, 0
  {
    if !Misshapen(tag, es) && !Refused(env, tag, es, so, fuel) {
      match tag
      case ReturnExpr => Fails(env, es.head, so, fuel);
      case PrefixExpr(pre) => FailsPrefix(env, pre, es, so, fuel);
      case InfixExpr(op) => FailsInfix(env, op, es, so, fuel);
      case BlockExpr(kind) =>
        if kind == StmtBlock { FailsBlock(env, es, so, fuel); } else { FailsGroup(env, kind, es, so, fuel); }
      case Let(vs) => FailsLet(env, vs, es, so, fuel);
      case Iter(op, vs, n) => FailsIter(env, op, vs, n, es, so, fuel);
      case IfExpr => FailsIf(env, es, so, fuel);
      case IfSomeMatchExpr => FailsIfSome(env, es, so, fuel);
      case IfMatchExpr(vs, pats, hasAlt) => FailsIfMatch(env, vs, pats, hasAlt, es, so, fuel);
      case CallExpr(fn, isAsync) => FailsCall(env, fn, isAsync, es, so, fuel);
    }
  }

  lemma {:induction false} FailsList(env: Env, es: List<Expr>, so: bool, fuel: nat)
    requires ClosedEnv(env) && SafeList(env, env.call, es, so, fuel) && PEvalList(env, es, so, fuel) == Err(Failed)
    ensures BlockedList(env, es, so, fuel)
    decreases fuel, 1, es
  {
    if PEval(env, es.head, so, fuel).Err? { Fails(env, es.head, so, fuel); } else { FailsList(env, es.tail, so, fuel); }
  }

  lemma {:induction false} FailsUnder(env: Env, e: Expr, n: nat, so: bool, fuel: nat)
    requires ClosedEnv(env) && SafeUnder(env, env.call, e, n, so, fuel) && PEval(env, e, so, fuel) == Err(Failed)
    ensures BlockedUnder(env, e, n, so, fuel)
    decreases fuel, 1, n
  {
    if n == 0 { Fails(env, e, so, fuel); } else { FailsUnder(env, e.body, n - 1, so, fuel - 1); }
  }

  lemma {:induction false} FailsApplied(env: Env, e: Expr, us: List<Expr>, so: bool, fuel: nat)
    requires ClosedEnv(env) && SafeApplied(env, env.call, e, us, so, fuel)
    requires PEvalApplied(env, e, us, so, fuel) == Err(Failed) && Length(us) <= |Params(e)|
    ensures BlockedApplied(env, e, us, so, fuel)
    decreases fuel, 2, 0
  {
    EnoughParams(e, us);
    Fails(env, ApplyAll(e, us).value, so, fuel);
  }

  // ----- operators -----

  lemma {:induction false} FailsPrefix(env: Env, pre: Prefix, es: List<Expr>, so: bool, fuel: nat)
    requires ClosedEnv(env) && SafeList(env, env.call, es, so, fuel) && es.Cons? && es.tail.Nil?
    requires PEvalPrefix(env, pre, es, so, fuel) == Err(Failed)
    ensures Hopeless(env, Node(PrefixExpr(pre), es)) || BlockedList(env, es, so, fuel)
    decreases fuel, 5, 0
  {
    if PEval(env, es.head, so, fuel).Err? {
      Fails(env, es.head, so, fuel);
    } else {
      KnownLit(env, es.head, so, fuel);
      forall s: seq<Expr>, k: nat | forall i :: 0 <= i < |s| ==> s[i].Lit?
        ensures Eval(env, Inst(Node(PrefixExpr(pre), es), 0, s), k).Err?
      {
        var c := Now(env, s, k);
        if Eval1(c, Node(PrefixExpr(pre), es)).Ok? {
          NodeEval(c, PrefixExpr(pre), es);
          InstShape(es, s, s);
          assert EvalPrefixExpr(env, pre, InstList(es, 0, s), k).Ok?;
          Sound(c, es.head, so, fuel, Eval1(c, es.head).value);
        }
      }
    }
  }

  lemma {:induction false} FailsInfix(env: Env, op: Infix, es: List<Expr>, so: bool, fuel: nat)
    requires ClosedEnv(env) && SafeInfix(env, env.call, op, es, so, fuel)
    requires es.Cons? && es.tail.Cons? && es.tail.tail.Nil? && !Refused(env, InfixExpr(op), es, so, fuel)
    requires PEvalInfix(env, op, es, so, fuel) == Err(Failed)
    ensures Hopeless(env, Node(InfixExpr(op), es)) || BlockedList(env, es, so, fuel)
    decreases fuel, 5, 0
  {
    var a, b := es.head, es.tail.head;
    if PEval(env, a, so, fuel) == Err(Failed) {
      Fails(env, a, so, fuel);
    } else if PEval(env, b, so, fuel) == Err(Failed) {
      Fails(env, b, so, fuel);
      assert BlockedList(env, es.tail, so, fuel);
    } else {
      var p, q := PEval(env, a, so, fuel).value, PEval(env, b, so, fuel).value;
      KnownLit(env, a, so, fuel);
      KnownLit(env, b, so, fuel);
      OnlyKnown(op, p, q);
      forall s: seq<Expr>, k: nat | forall i :: 0 <= i < |s| ==> s[i].Lit?
        ensures Eval(env, Inst(Node(InfixExpr(op), es), 0, s), k).Err?
      {
        NoInfix(Now(env, s, k), op, a, b, so, fuel);
      }
    }
  }

  /** Only a quotient by zero is refused when something is not known. */
  lemma OnlyKnown(op: Infix, p: Part, q: Part)
    requires (op == Divide && q.e.Lit? ==> !IsZero(q.e.lit)) && InfixPart(op, p, q) == Err(Failed)
    ensures p.known && q.known && !IsReturn(p.e) && !IsReturn(q.e)
    ensures p.e.Lit? && q.e.Lit? ==> EvalInfix(op, p.e.lit, q.e.lit).None?
  {
    hide Combined, EvalInfix;
  }

  lemma NoInfix(c: Run, op: Infix, a: Expr, b: Expr, so: bool, fuel: nat)
    requires Ready(c) && c.ct == c.env && Safe(c.ct, c.env.call, a, so, fuel) && Safe(c.ct, c.env.call, b, so, fuel)
    requires PEval(c.ct, a, so, fuel).Ok? && PEval(c.ct, b, so, fuel).Ok?
    requires var p, q := PEval(c.ct, a, so, fuel).value, PEval(c.ct, b, so, fuel).value;
      && p.known && q.known && p.e.Lit? && q.e.Lit? && EvalInfix(op, p.e.lit, q.e.lit).None?
      && (ShortCircuits(op) ==> IsBool(q.e.lit))
    ensures Eval1(c, Node(InfixExpr(op), Two(a, b))).Err?
  {
    hide PEval, Safe, Eval, Inst;
    InfixNode(c, op, a, b);
    var p, q := PEval(c.ct, a, so, fuel).value, PEval(c.ct, b, so, fuel).value;
    if Eval1(c, a).Ok? { Sound(c, a, so, fuel, Eval1(c, a).value); }
    if Eval1(c, b).Ok? { Sound(c, b, so, fuel, Eval1(c, b).value); }
    BoolsCombine(op, p.e.lit, q.e.lit);
  }

  lemma BoolsCombine(op: Infix, l: Literal, m: Literal)
    requires EvalInfix(op, l, m).None? && (ShortCircuits(op) ==> IsBool(m))
    ensures ShortCircuits(op) ==> !IsBool(l)
  {}

  // ----- blocks, lists and tuples -----

  lemma {:induction false} FailsBlock(env: Env, es: List<Expr>, so: bool, fuel: nat)
    requires ClosedEnv(env) && SafeBlock(env, env.call, es, so, fuel) && PEvalBlock(env, es, so, fuel) == Err(Failed)
    ensures es.Cons? && (Blocked(env, es.head, so, fuel) || BlockedRest(env, es, so, fuel))
    decreases fuel, 5, 0
  {
    var p := PEval(env, es.head, so, fuel);
    if p.Err? {
      Fails(env, es.head, so, fuel);
    } else {
      Fails(env, Node(BlockExpr(StmtBlock), es.tail), if p.value.known then so else true, fuel);
    }
  }

  lemma {:induction false} FailsGroup(env: Env, kind: BlockKind, es: List<Expr>, so: bool, fuel: nat)
    requires ClosedEnv(env) && SafeGroup(env, env.call, es, so, fuel) && kind != StmtBlock
    requires !Refused(env, BlockExpr(kind), es, so, fuel) && PEvalGroup(env, kind, es, so, fuel) == Err(Failed)
    ensures BlockedList(env, es, so, fuel)
    decreases fuel, 5, 0
  {
    if PEvalList(env, es, so, fuel).Err? { FailsList(env, es, so, fuel); }
    else { AllSettled(Residuals(PEvalList(env, es, so, fuel).value)); }
  }

  lemma AllSettled(es: List<Expr>)
    requires !SomeOpen(es)
    ensures FirstReturn(es).None? ==> Literals(es).Some?
  {}

  // ----- conditionals -----

  lemma {:induction false} FailsAlt(env: Env, alt: List<Expr>, so: bool, fuel: nat)
    requires ClosedEnv(env) && SafeList(env, env.call, alt, so, fuel) && (alt.Nil? || alt.tail.Nil?)
    requires PEvalAlt(env, alt, so, fuel) == Err(Failed)
    ensures BlockedList(env, alt, so, fuel)
    decreases fuel, 4, 0
  {
    Fails(env, alt.head, so, fuel);
  }

  lemma {:induction false} FailsIf(env: Env, es: List<Expr>, so: bool, fuel: nat)
    requires ClosedEnv(env) && SafeIf(env, env.call, es, so, fuel) && FewBranches(es)
    requires PEvalIf(env, es, so, fuel) == Err(Failed)
    ensures Hopeless(env, Node(IfExpr, es)) || BlockedIf(env, es, so, fuel)
    decreases fuel, 5, 0
  {
    var r := PEval(env, es.head, so, fuel);
    if r.Err? {
      Fails(env, es.head, so, fuel);
    } else {
      var p := r.value;
      KnownLit(env, es.head, so, fuel);
      if p.known && !IsBool(p.e.lit) {
        forall s: seq<Expr>, k: nat | forall i :: 0 <= i < |s| ==> s[i].Lit?
          ensures Eval(env, Inst(Node(IfExpr, es), 0, s), k).Err?
        {
          NoIf(Now(env, s, k), es, so, fuel);
        }
      } else if p.known {
        if p.e.lit.flat.b { Fails(env, es.tail.head, so, fuel); } else { FailsAlt(env, es.tail.tail, so, fuel); }
      } else if PEval(env, es.tail.head, so, fuel).Err? {
          Fails(env, es.tail.head, so, fuel);
      } else {
          Fails(env, es.tail.tail.head, so, fuel);
        assert BlockedList(env, es.tail.tail, so, fuel);
      }
    }
  }

  lemma NoIf(c: Run, es: List<Expr>, so: bool, fuel: nat)
    requires Ready(c) && c.ct == c.env && es.Cons? && Safe(c.ct, c.env.call, es.head, so, fuel)
    requires PEval(c.ct, es.head, so, fuel).Ok?
    requires var p := PEval(c.ct, es.head, so, fuel).value; p.known && p.e.Lit? && !IsBool(p.e.lit)
    ensures Eval1(c, Node(IfExpr, es)).Err?
  {
    hide Safe, PEval;
    NodeEval(c, IfExpr, es);
    InstShape(es, c.s, c.s);
    if Eval1(c, es.head).Ok? { Sound(c, es.head, so, fuel, Eval1(c, es.head).value); }
  }

  lemma {:induction false} FailsIfSome(env: Env, es: List<Expr>, so: bool, fuel: nat)
    requires ClosedEnv(env) && SafeIfSome(env, env.call, es, so, fuel) && FewBranches(es) && es.tail.head.Closure?
    requires PEvalIfSome(env, es, so, fuel) == Err(Failed)
    ensures Hopeless(env, Node(IfSomeMatchExpr, es)) || BlockedIfSome(env, es, so, fuel)
    decreases fuel, 5, 0
  {
    var r := PEval(env, es.head, so, fuel);
    if r.Err? {
      Fails(env, es.head, so, fuel);
    } else {
      var p := r.value;
      KnownLit(env, es.head, so, fuel);
      if p.known && !p.e.lit.TupleLit? {
        forall s: seq<Expr>, k: nat | forall i :: 0 <= i < |s| ==> s[i].Lit?
          ensures Eval(env, Inst(Node(IfSomeMatchExpr, es), 0, s), k).Err?
        {
          NoIfSome(Now(env, s, k), es, so, fuel);
        }
      } else if p.known {
        if |p.e.lit.items| == 1 {
          FailsApplied(env, es.tail.head, One(Lit(p.e.lit.items[0])), so, fuel);
        } else {
          FailsAlt(env, es.tail.tail, so, fuel);
        }
      } else if PEval(env, es.tail.head.body, so, fuel).Err? {
        Fails(env, es.tail.head.body, so, fuel);
      } else {
          Fails(env, es.tail.tail.head, so, fuel);
        assert BlockedList(env, es.tail.tail, so, fuel);
      }
    }
  }

  lemma NoIfSome(c: Run, es: List<Expr>, so: bool, fuel: nat)
    requires Ready(c) && c.ct == c.env && es.Cons? && Safe(c.ct, c.env.call, es.head, so, fuel)
    requires PEval(c.ct, es.head, so, fuel).Ok?
    requires var p := PEval(c.ct, es.head, so, fuel).value; p.known && p.e.Lit? && !p.e.lit.TupleLit?
    ensures Eval1(c, Node(IfSomeMatchExpr, es)).Err?
  {
    hide Safe, PEval;
    NodeEval(c, IfSomeMatchExpr, es);
    InstShape(es, c.s, c.s);
    if Eval1(c, es.head).Ok? { Sound(c, es.head, so, fuel, Eval1(c, es.head).value); }
  }

  // ----- pattern matching -----

  lemma {:induction false} FailsMatches(env: Env, es: List<Expr>, pats: seq<Pattern>, so: bool, fuel: nat)
    requires ClosedEnv(env) && SafeList(env, env.call, es, so, fuel) && !OpenScrutinee(env, es, so, fuel)
    requires PEvalMatches(env, es, pats, so, fuel) == Err(Failed) && !BlockedList(env, es, so, fuel)
    ensures forall s: seq<Expr>, k: nat :: (forall i :: 0 <= i < |s| ==> s[i].Lit?) ==>
      EvalMatches(env, InstList(es, 0, s), pats, k).Err?
    decreases fuel, 1, es
  {
    if PEval(env, es.head, so, fuel).Err? {
      Fails(env, es.head, so, fuel);
    } else {
      var p := PEval(env, es.head, so, fuel).value;
      if pats != [] && PerformMatch(env, p.e, pats[0]).Some? { FailsMatches(env, es.tail, pats[1..], so, fuel); }
      forall s: seq<Expr>, k: nat | forall i :: 0 <= i < |s| ==> s[i].Lit?
        ensures EvalMatches(env, InstList(es, 0, s), pats, k).Err?
      {
        var c := Now(env, s, k);
        if Eval1(c, es.head).Ok? { Sound(c, es.head, so, fuel, Eval1(c, es.head).value); }
      }
    }
  }

  lemma {:induction false} FailsIfMatch(env: Env, vs: seq<string>, pats: seq<Pattern>, hasAlt: bool, es: List<Expr>,
                                        so: bool, fuel: nat)
    requires ClosedEnv(env) && SafeIfMatch(env, env.call, vs, pats, hasAlt, es, so, fuel)
    requires es.Cons? && (hasAlt ==> es.tail.Cons?)
    requires !Refused(env, IfMatchExpr(vs, pats, hasAlt), es, so, fuel)
    requires PEvalIfMatch(env, vs, pats, hasAlt, es, so, fuel) == Err(Failed)
    ensures Hopeless(env, Node(IfMatchExpr(vs, pats, hasAlt), es))
         || BlockedIfMatch(env, vs, pats, hasAlt, es, so, fuel)
    decreases fuel, 5, 0
  {
    var tag, scruts := IfMatchExpr(vs, pats, hasAlt), if hasAlt then es.tail.tail else es.tail;
    var r := PEvalMatches(env, scruts, pats, so, fuel);
    if !BlockedList(env, scruts, so, fuel) {
      if r.Err? {
        FailsMatches(env, scruts, pats, so, fuel);
      } else if Captures(r.value.1).None? {
        if PEval(env, es.tail.head, so, fuel).Err? { Fails(env, es.tail.head, so, fuel); }
      } else {
        var us := CapturedArgs(vs, Captures(r.value.1).value);
        if us.Some? && Length(us.value) <= |Params(es.head)| && PEvalApplied(env, es.head, us.value, so, fuel).Err? {
          FailsApplied(env, es.head, us.value, so, fuel);
        }
      }
      if !BlockedIfMatch(env, vs, pats, hasAlt, es, so, fuel) {
        forall s: seq<Expr>, k: nat | forall i :: 0 <= i < |s| ==> s[i].Lit?
          ensures Eval(env, Inst(Node(tag, es), 0, s), k).Err?
        {
          NoIfMatch(Now(env, s, k), vs, pats, hasAlt, es, so, fuel);
        }
      }
    }
  }

  /** Captured, but not what the consequence needs. */
  lemma NoIfMatch(c: Run, vs: seq<string>, pats: seq<Pattern>, hasAlt: bool, es: List<Expr>, so: bool, fuel: nat)
    requires Ready(c) && c.ct == c.env && es.Cons? && (hasAlt ==> es.tail.Cons?)
    requires SafeList(c.ct, c.env.call, if hasAlt then es.tail.tail else es.tail, so, fuel)
    requires var r := PEvalMatches(c.ct, if hasAlt then es.tail.tail else es.tail, pats, so, fuel);
      if r.Err? then EvalMatches(c.env, InstList(if hasAlt then es.tail.tail else es.tail, 0, c.s), pats, c.k).Err?
      else
        && r.value.0 && MatchedReturn(r.value.1).None? && Captures(r.value.1).Some?
        && var us := CapturedArgs(vs, Captures(r.value.1).value); us.None? || Length(us.value) > |Params(es.head)|
    ensures Eval1(c, Node(IfMatchExpr(vs, pats, hasAlt), es)).Err?
  {
    hide SafeList, PEvalMatches, EvalMatches, EvalApplied;
    var scruts := if hasAlt then es.tail.tail else es.tail;
    var r, ms := PEvalMatches(c.ct, scruts, pats, so, fuel), EvalMatches(c.env, InstList(scruts, 0, c.s), pats, c.k);
    NodeEval(c, IfMatchExpr(vs, pats, hasAlt), es);
    InstShape(es, c.s, c.s);
    if r.Ok? && ms.Ok? {
      SoundMatches(c, scruts, pats, so, fuel, ms.value);
      var us := CapturedArgs(vs, Captures(ms.value).value);
      if us.Some? { TooMany(c, es.head, us.value); } else { NoArgs(c.env, Inst(es.head, 0, c.s), c.k); }
    }
  }

  lemma NoArgs(env: Env, e: Expr, k: nat)
    ensures EvalApplied(env, e, None, k).Err?
  {}

  lemma TooMany(c: Run, e: Expr, us: List<Expr>)
    requires Ready(c) && Length(us) > |Params(e)|
    ensures EvalApplied(c.env, Inst(e, 0, c.s), Some(us), c.k).Err?
  {
    InstParams(e, 0, c.s);
    if AllValues(us) { OverApplied(Inst(e, 0, c.s), us); }
  }

  // ----- let -----

  lemma AtDepthParams(e: Expr, n: nat)
    ensures AtDepth(e, n).Some? <==> |Params(e)| == n
  {}

  lemma FewUnits(n: nat)
    ensures Length(Units(n)) == n
  {}

  lemma FewLetArgs(vs: seq<string>, l: Literal)
    ensures LetArgs(vs, l).Some? ==> Length(LetArgs(vs, l).value) <= |vs|
  {
    if l.TupleLit? && |vs| == |l.items| { FewBound(vs, l.items); }
  }

  lemma FewBound(vs: seq<string>, lits: seq<Literal>)
    requires |vs| == |lits|
    ensures Length(Bound(vs, lits)) <= |vs|
  {}

  lemma {:induction false} FailsLet(env: Env, vs: seq<string>, es: List<Expr>, so: bool, fuel: nat)
    requires ClosedEnv(env) && SafeLet(env, env.call, vs, es, so, fuel)
    requires es.Cons? && es.tail.Cons? && es.tail.tail.Nil? && !Refused(env, Let(vs), es, so, fuel)
    requires PEvalLet(env, vs, es, so, fuel) == Err(Failed)
    ensures Hopeless(env, Node(Let(vs), es)) || BlockedLet(env, vs, es.head, es.tail.head, so, fuel)
    decreases fuel, 5, 0
  {
    var rhs, body := es.head, es.tail.head;
    AtDepthParams(body, |vs|);
    FewUnits(|vs|);
    var r := PEval(env, rhs, so, fuel);
    if AllFree(AtDepth(body, |vs|).value, |vs|) {
      FailsApplied(env, body, Units(|vs|), so, fuel);
    } else if r.Err? {
      Fails(env, rhs, so, fuel);
    } else if !r.value.known {
      FailsUnder(env, body, |vs|, so, fuel);
    } else {
      KnownLit(env, rhs, so, fuel);
      var us := LetArgs(vs, r.value.e.lit);
      if us.Some? {
        FewLetArgs(vs, r.value.e.lit);
        FailsApplied(env, body, us.value, so, fuel);
      } else {
        forall s: seq<Expr>, k: nat | forall i :: 0 <= i < |s| ==> s[i].Lit?
          ensures Eval(env, Inst(Node(Let(vs), es), 0, s), k).Err?
        {
          NoLet(Now(env, s, k), vs, es, so, fuel);
        }
      }
    }
  }

  lemma NoLet(c: Run, vs: seq<string>, es: List<Expr>, so: bool, fuel: nat)
    requires Ready(c) && c.ct == c.env && es.Cons? && es.tail.Cons? && Safe(c.ct, c.env.call, es.head, so, fuel)
    requires PEval(c.ct, es.head, so, fuel).Ok?
    requires var p := PEval(c.ct, es.head, so, fuel).value; p.known && p.e.Lit? && LetArgs(vs, p.e.lit).None?
    ensures Eval1(c, Node(Let(vs), es)).Err?
  {
    hide Safe, PEval;
    NodeEval(c, Let(vs), es);
    InstShape(es, c.s, c.s);
    if es.tail.tail.Nil? { LetFails(c.env, vs, Inst(es.head, 0, c.s), Inst(es.tail.head, 0, c.s), c.k); }
    if Eval1(c, es.head).Ok? { Sound(c, es.head, so, fuel, Eval1(c, es.head).value); }
  }

  lemma LetFails(env: Env, vs: seq<string>, a: Expr, b: Expr, k: nat)
    ensures var v := Eval(env, a, k);
      v.Ok? && !IsReturn(v.value) && LetArgs(vs, v.value.lit).None? ==> EvalLet(env, vs, Two(a, b), k).Err?
  {
    NoArgs(env, b, k);
    hide Eval, EvalApplied;
  }

  // ----- calls -----

  lemma {:induction false} FailsCall(env: Env, fn: string, isAsync: bool, args: List<Expr>, so: bool, fuel: nat)
    requires ClosedEnv(env) && SafeCall(env, env.call, fn, args, so, fuel)
    requires PEvalCall(env, fn, isAsync, args, so, fuel) == Err(Failed)
    ensures Hopeless(env, Node(CallExpr(fn, isAsync), args)) || BlockedList(env, args, so, fuel)
         || BlockedCall(env, fn, args, so, fuel)
    decreases fuel, 5, 0
  {
    hide SafeApplied, InlineSafe, InlinedSafe, SettledToReturn;
    var r := PEvalList(env, args, so, fuel);
    if r.Err? {
      FailsList(env, args, so, fuel);
    } else {
      var rs := Residuals(r.value);
      if fn in env.code && Length(rs) <= |Params(env.code[fn])| {
        EnoughParams(env.code[fn], rs);
        InlineFails(env, fn, isAsync, args, r.value, so, fuel);
        FailsApplied(env, env.code[fn], rs, so, fuel);
      }
      else {
        forall s: seq<Expr>, k: nat | forall i :: 0 <= i < |s| ==> s[i].Lit?
          ensures Eval(env, Inst(Node(CallExpr(fn, isAsync), args), 0, s), k).Err?
        {
          NoCall(Now(env, s, k), fn, isAsync, args, so, fuel);
        }
      }
    }
  }

  lemma InlineFails(env: Env, fn: string, isAsync: bool, args: List<Expr>, ps: List<Part>, so: bool, fuel: nat)
    requires fn in env.code && PEvalList(env, args, so, fuel) == Ok(ps) && ApplyAll(env.code[fn], Residuals(ps)).Ok?
    requires PEvalCall(env, fn, isAsync, args, so, fuel) == Err(Failed)
    ensures PEvalApplied(env, env.code[fn], Residuals(ps), so, fuel) == Err(Failed)
  {
    hide PEval, PEvalList;
    var body := ApplyAll(env.code[fn], Residuals(ps)).value;
    assert PEvalCall(env, fn, isAsync, args, so, fuel) == PEvalInline(env, fn, ps, so, fuel);
    assert PEvaluate(env, body, so, fuel) == Err(Failed);
    assert PEval(env, body, so, fuel) == Err(Failed);
  }

  lemma NoInlining(env: Env, fn: string, isAsync: bool, args: List<Expr>, ps: List<Part>, so: bool, fuel: nat)
    requires PEvalList(env, args, so, fuel) == Ok(ps) && PEvalCall(env, fn, isAsync, args, so, fuel).Err?
    ensures FirstReturn(Residuals(ps)).None?
  {
    hide PEval, PEvalList;
  }

  /** Too many arguments, or a function that is not there or fails. */
  lemma NoCall(c: Run, fn: string, isAsync: bool, args: List<Expr>, so: bool, fuel: nat)
    requires Ready(c) && c.ct == c.env && SafeCall(c.ct, c.env.call, fn, args, so, fuel)
    requires PEvalCall(c.ct, fn, isAsync, args, so, fuel) == Err(Failed) && PEvalList(c.ct, args, so, fuel).Ok?
    requires var rs := Residuals(PEvalList(c.ct, args, so, fuel).value);
      fn in c.ct.code ==> Length(rs) > |Params(c.ct.code[fn])|
    ensures Eval1(c, Node(CallExpr(fn, isAsync), args)).Err?
  {
    hide SafeApplied, InlineSafe, InlinedSafe, SettledToReturn, PEval, Eval, EvalList;
    NodeEval(c, CallExpr(fn, isAsync), args);
    var r, ps := EvalList(c.env, InstList(args, 0, c.s), c.k), PEvalList(c.ct, args, so, fuel).value;
    assert Eval1(c, Node(CallExpr(fn, isAsync), args)) == EvalCallExpr(c.env, fn, isAsync, InstList(args, 0, c.s), c.k);
    if r.Ok? {
      var vs := r.value;
      SoundList(c, args, so, fuel, vs);
      AgreesSoFar(c, ps, vs);
      ResidualLits(c, ps, vs);
      SameLength(c, ps, vs);
      if fn in c.env.code {
        SettledAgrees(c, ps, vs);
        LitListValues(vs);
        NoInlining(c.ct, fn, isAsync, args, ps, so, fuel);
        OverApplied(c.env.code[fn], vs);
        assert EvalCall(c.env, fn, isAsync, vs, c.k).Err?;
      } else {
        assert PEvalForeign(c.ct, fn, isAsync, args, Residuals(ps)) == Err(Failed) && Residuals(ps) == vs;
        assert EvalCall(c.env, fn, isAsync, vs, c.k).Err?;
      }
    }
  }

  lemma SameLength(c: Run, ps: List<Part>, vs: List<Expr>)
    requires AgreesList(c, ps, vs)
    ensures Length(Residuals(ps)) == Length(vs)
  {}

  // ----- iterations -----

  lemma {:induction false} FailsLoop(env: Env, vs: seq<string>, lits: seq<Literal>, body: Expr, acc: Option<Part>,
                                     so: bool, fuel: nat, e: Expr, a: Option<Expr>, k: nat)
    requires ClosedEnv(env) && SafeLoop(env, env.call, vs, lits, body, acc, so, fuel)
    requires PIterLoop(env, vs, lits, body, acc, so, fuel) == Err(Failed)
    requires !BlockedLoop(env, vs, lits, body, acc, so, fuel)
    requires |Params(e)| == |Params(body)| && (acc.Some? <==> a.Some?) && (a.Some? ==> IsValue(a.value))
    ensures IterLoop(env, vs, lits, e, a, k).Err?
    decreases fuel, 3, |lits|
  {
    if IterArgs(vs, lits[0]).Some? {
      var more := IterArgs(vs, lits[0]).value;
      ArgsLits(vs, lits[0]);
      LitListValues(more);
      var us, ws := AccArgs(PartExpr(acc), more), AccArgs(a, more);
      var v := EvalApplied(env, e, Some(ws), k);
      if Length(us) > |Params(body)| {
        OverApplied(e, ws);
      } else if PEvalApplied(env, body, us, so, fuel) == Err(Failed) {
        FailsApplied(env, body, us, so, fuel);
      } else if v.Ok? {
        var p := PEvalApplied(env, body, us, so, fuel).value;
        FailsLoop(env, vs, lits[1..], body, if acc.Some? then Some(p) else None, so, fuel, e,
                  if a.Some? then Some(v.value) else None, k);
      }
    }
  }

  lemma {:induction false} FailsIter(env: Env, op: IterOp, vs: seq<string>, n: Option<string>, es: List<Expr>, so: bool,
                                     fuel: nat)
    requires ClosedEnv(env) && SafeIter(env, env.call, op, vs, n, es, so, fuel) && !Misshapen(Iter(op, vs, n), es)
    requires PEvalIter(env, op, vs, n, es, so, fuel) == Err(Failed)
    ensures Hopeless(env, Node(Iter(op, vs, n), es)) || BlockedIter(env, vs, n, es, so, fuel)
    decreases fuel, 5, 0
  {
    hide SafeLoop, SafeResults, BlockedLoop;
    var r := PEval(env, es.head, so, fuel);
    if r.Err? {
      Fails(env, es.head, so, fuel);
    } else if n.Some? && PEval(env, es.tail.tail.head, so, fuel) == Err(Failed) {
      Fails(env, es.tail.tail.head, so, fuel);
    } else if !r.value.known {
      FailsUnder(env, es.tail.head, Opened(vs) + (if n.Some? then 1 else 0), so, fuel);
    } else {
      KnownLit(env, es.head, so, fuel);
      assert n.Some? && r.value.e.lit.ListLit? ==> PEvalAcc(env, n, es, so, fuel).Ok?;
      if !BlockedIter(env, vs, n, es, so, fuel) {
        forall s: seq<Expr>, k: nat | forall i :: 0 <= i < |s| ==> s[i].Lit?
          ensures Eval(env, Inst(Node(Iter(op, vs, n), es), 0, s), k).Err?
        {
          NoIter(Now(env, s, k), op, vs, n, es, so, fuel);
        }
      }
    }
  }

  /** With results, or without the collected ones, something comes out. */
  lemma NeverPanics(op: IterOp, vs: seq<string>, n: Option<string>, es: List<Expr>, env: Env, so: bool, fuel: nat)
    requires !Misshapen(Iter(op, vs, n), es)
    ensures forall lits: seq<Literal>, body: Expr, ps: List<Part>, acc: Option<Part> ::
      (n.Some? ==> acc.Some?) ==> PIterResult(op, vs, n, lits, body, ps, acc).Ok?
  {
    assert forall lits: seq<Literal> :: Kept(lits, []) == Some([]);
  }

  lemma NoIter(c: Run, op: IterOp, vs: seq<string>, n: Option<string>, es: List<Expr>, so: bool, fuel: nat)
    requires Ready(c) && c.ct == c.env && SafeIter(c.ct, c.env.call, op, vs, n, es, so, fuel)
    requires !Misshapen(Iter(op, vs, n), es) && !BlockedIter(c.ct, vs, n, es, so, fuel)
    requires PEvalIter(c.ct, op, vs, n, es, so, fuel) == Err(Failed) && PEval(c.ct, es.head, so, fuel).Ok?
    requires var p := PEval(c.ct, es.head, so, fuel).value; p.known && p.e.Lit?
    requires n.Some? && PEval(c.ct, es.head, so, fuel).value.e.lit.ListLit? ==>
      PEval(c.ct, es.tail.tail.head, so, fuel).Ok?
    ensures Eval1(c, Node(Iter(op, vs, n), es)).Err?
    decreases fuel, 4, 0
  {
    hide SafeLoop, SafeResults, BlockedLoop, PIterResult, IterResult, PEval, Eval, PIterLoop, IterLoop;
    var r, e := Eval1(c, es.head), es.tail.head;
    NodeEval(c, Iter(op, vs, n), es);
    InstShape(es, c.s, c.s);
    if r.Ok? {
      Sound(c, es.head, so, fuel, r.value);
      if r.value.lit.ListLit? && (n.Some? ==> Eval1(c, es.tail.tail.head).Ok?) {
        var lits, acc := r.value.lit.items, PEvalAcc(c.ct, n, es, so, fuel).value;
        var a := if n.Some? then Some(Eval1(c, es.tail.tail.head).value) else None;
        assert acc.Some? ==> acc.value.known;
        NeverPanics(op, vs, n, es, c.ct, so, fuel);
        LoopKeeps(c.ct, vs, lits, e, acc, so, fuel);
        assert PIterLoop(c.ct, vs, lits, e, acc, so, fuel) == Err(Failed);
        InstParams(e, 0, c.s);
        FailsLoop(c.ct, vs, lits, e, acc, so, fuel, Inst(e, 0, c.s), a, c.k);
        assert EvalIter(c.env, op, vs, lits, Inst(e, 0, c.s), a, c.k).Err?;
      }
    }
  }

  lemma {:induction false} LoopKeeps(env: Env, vs: seq<string>, lits: seq<Literal>, body: Expr, acc: Option<Part>,
                                     so: bool, fuel: nat)
    ensures var r := PIterLoop(env, vs, lits, body, acc, so, fuel); r.Ok? && acc.Some? ==> r.value.1.Some?
    decreases |lits|
  {
    if lits != [] && IterArgs(vs, lits[0]).Some? {
      var p := PEvalApplied(env, body, AccArgs(PartExpr(acc), IterArgs(vs, lits[0]).value), so, fuel);
      if p.Ok? { LoopKeeps(env, vs, lits[1..], body, if acc.Some? then Some(p.value) else None, so, fuel); }
    }
  }

  // ----- compiling -----

  /** A function whose header and parameters are right fails to compile only for
      such a reason, in its body with the own ID put in. */
  lemma CompileFails(j: Job)
    requires WellFormed(j) && CheckHeader(j.pol, j.fn).Ok?
    requires Safe(j.pol.env, j.pol.env.call, PreparedBody(j), false, j.fuel)
    requires CompileFunction(j.pol, j.fn, j.egress, j.own, j.fuel) == Err(Failed)
    ensures Blocked(j.pol.env, PreparedBody(j), false, j.fuel)
  {
    hide PEval, Safe, Blocked, CheckHeader;
    HeaderExactly(j.pol, j.fn);
    PreparedOpens(j);
    hide Prepared;
    assert PEvaluate(j.pol.env, PreparedBody(j), false, j.fuel) == Err(Failed);
    assert PEval(j.pol.env, PreparedBody(j), false, j.fuel) == Err(Failed);
    Fails(j.pol.env, PreparedBody(j), false, j.fuel);
  }
}
