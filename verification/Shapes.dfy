/** Where `return` can surface: tidy expressions evaluate to a literal or one
    `return` of a literal, and the return-free ones among them to a literal. */
module Shapes {
  import opened Prelude
  import opened Syntax
  import opened Terms
  import opened TermLaws
  import opened Interpret

  predicate ReturnFree(e: Expr) {
    match e
    case Closure(_, b) => ReturnFree(b)
    case Node(t, es) => t != ReturnExpr && ReturnFreeList(es)
    case _ => true
  }

  predicate ReturnFreeList(es: List<Expr>) {
    es.Cons? ==> ReturnFree(es.head) && ReturnFreeList(es.tail)
  }

  /** No `return` inside the operand of a `return` nor in what a fold starts from. */
  predicate Tidy(e: Expr) {
    match e
    case Closure(_, b) => Tidy(b)
    case Node(t, es) =>
      if t == ReturnExpr then ReturnFreeList(es) else TidyList(es) && (StartsFold(t) ==> StartFree(es))
    case _ => true
  }

  predicate TidyList(es: List<Expr>) {
    es.Cons? ==> Tidy(es.head) && TidyList(es.tail)
  }

  predicate StartsFold(t: Tag) { t.Iter? && t.accName.Some? }

  predicate StartFree(es: List<Expr>) {
    es.Cons? && es.tail.Cons? && es.tail.tail.Cons? ==> ReturnFree(es.tail.tail.head)
  }

  /** The user functions that `e` calls, and those that they call, are tidy; none
      of these calls are nested more than `n` deep. */
  predicate TidyCalls(code: map<string, Expr>, e: Expr, n: nat)
    decreases n, e
  {
    match e
    case Closure(_, b) => TidyCalls(code, b, n)
    case Node(t, es) =>
      && (t.CallExpr? && t.fn in code ==> n > 0 && Tidy(code[t.fn]) && TidyCalls(code, code[t.fn], n - 1))
      && TidyCallsList(code, es, n)
    case _ => true
  }

  predicate TidyCallsList(code: map<string, Expr>, es: List<Expr>, n: nat)
    decreases n, es
  {
    es.Cons? ==> TidyCalls(code, es.head, n) && TidyCallsList(code, es.tail, n)
  }

  predicate Calm(code: map<string, Expr>, e: Expr, n: nat) { Tidy(e) && TidyCalls(code, e, n) }

  predicate CalmList(code: map<string, Expr>, es: List<Expr>, n: nat) { TidyList(es) && TidyCallsList(code, es, n) }

  /** Evaluates to a literal or not at all: without cycles no more calls can nest
      than there are functions. */
  predicate Settles(code: map<string, Expr>, e: Expr) { ReturnFree(e) && TidyCalls(code, e, |code|) }

  /** A literal or one `return` of a literal. */
  predicate Plain(v: Expr) {
    v.Lit? || (IsReturn(v) && v.subs.Cons? && v.subs.tail.Nil? && v.subs.head.Lit?)
  }

  predicate PlainResult(r: Result<Expr>, rf: bool) {
    r.Ok? ==> Plain(r.value) && (rf ==> r.value.Lit?)
  }

  /** Up to the first `return`. */
  predicate PlainList(vs: List<Expr>, rf: bool) {
    vs.Cons? ==> Plain(vs.head) && (rf ==> vs.head.Lit?) && (vs.head.Lit? ==> PlainList(vs.tail, rf))
  }

  lemma {:induction false} FreeIsTidy(e: Expr)
    requires ReturnFree(e)
    ensures Tidy(e)
  {
    match e
    case Closure(_, b) => FreeIsTidy(b);
    case Node(_, es) => FreeIsTidyList(es);
    case _ =>
  }

  lemma {:induction false} FreeIsTidyList(es: List<Expr>)
    requires ReturnFreeList(es)
    ensures TidyList(es) && StartFree(es)
  {
    if es.Cons? { FreeIsTidy(es.head); FreeIsTidyList(es.tail); }
    assert es.Cons? && es.tail.Cons? ==> ReturnFreeList(es.tail.tail);
  }

  /** Putting a literal in changes nothing of this. */
  lemma {:induction false} SubstFreeOfReturn(e: Expr, i: nat, l: Literal)
    ensures ReturnFree(Subst(e, i, Lit(l), true)) == ReturnFree(e)
    ensures Tidy(Subst(e, i, Lit(l), true)) == Tidy(e)
  {
    match e
    case Closure(_, b) => SubstFreeOfReturn(b, i + 1, l);
    case Node(_, es) => SubstFreeOfReturnList(es, i, l);
    case _ =>
  }

  lemma {:induction false} SubstFreeOfReturnList(es: List<Expr>, i: nat, l: Literal)
    ensures ReturnFreeList(SubstList(es, i, Lit(l), true)) == ReturnFreeList(es)
    ensures TidyList(SubstList(es, i, Lit(l), true)) == TidyList(es)
    ensures StartFree(SubstList(es, i, Lit(l), true)) == StartFree(es)
  {
    if es.Cons? { SubstFreeOfReturn(es.head, i, l); SubstFreeOfReturnList(es.tail, i, l); }
    if es.Cons? && es.tail.Cons? && es.tail.tail.Cons? { SubstFreeOfReturn(es.tail.tail.head, i, l); }
  }

  lemma {:induction false} SubstCalls(code: map<string, Expr>, e: Expr, i: nat, u: Expr, n: nat)
    requires TidyCalls(code, e, n) && IsValue(u)
    ensures TidyCalls(code, Subst(e, i, u, true), n)
    decreases e
  {
    match e
    case BVar(_, j) => if j == i { ValueClosed(u); ShiftClosed(u, i, 0); ValueCalls(code, u, n); }
    case Closure(_, b) => SubstCalls(code, b, i + 1, u, n);
    case Node(_, es) => SubstCallsList(code, es, i, u, n);
    case _ =>
  }

  lemma {:induction false} SubstCallsList(code: map<string, Expr>, es: List<Expr>, i: nat, u: Expr, n: nat)
    requires TidyCallsList(code, es, n) && IsValue(u)
    ensures TidyCallsList(code, SubstList(es, i, u, true), n)
    decreases es
  {
    if es.Cons? { SubstCalls(code, es.head, i, u, n); SubstCallsList(code, es.tail, i, u, n); }
  }

  lemma {:induction false} ValueCalls(code: map<string, Expr>, v: Expr, n: nat)
    requires IsValue(v)
    ensures TidyCalls(code, v, n)
  {
    if v.Node? { ValueCalls(code, v.subs.head, n); }
  }

  predicate LitList(us: List<Expr>) {
    us.Cons? ==> us.head.Lit? && LitList(us.tail)
  }

  lemma BoundLits(vs: seq<string>, lits: seq<Literal>)
    requires |vs| == |lits|
    ensures LitList(Bound(vs, lits))
  {}

  lemma ArgsLits(vs: seq<string>, l: Literal)
    ensures LetArgs(vs, l).Some? ==> LitList(LetArgs(vs, l).value)
    ensures IterArgs(vs, l).Some? ==> LitList(IterArgs(vs, l).value)
  {
    if l.TupleLit? && |vs| == |l.items| { BoundLits(vs, l.items); }
    if |vs| == 1 { BoundLits(vs, [l]); }
  }

  lemma CapturedLits(vs: seq<string>, caps: map<string, Literal>)
    ensures CapturedArgs(vs, caps).Some? ==> LitList(CapturedArgs(vs, caps).value)
  {}

  lemma CalmApplied(code: map<string, Expr>, e: Expr, us: List<Expr>, n: nat)
    requires LitList(us) && Calm(code, e, n)
    ensures var r := ApplyAll(e, us);
      r.Ok? ==> Calm(code, r.value, n) && ReturnFree(r.value) == ReturnFree(e)
    decreases us
  {
    if us.Cons? && e.Closure? {
      SubstFreeOfReturn(e.body, 0, us.head.lit);
      SubstCalls(code, e.body, 0, us.head, n);
      CalmApplied(code, Subst(e.body, 0, us.head, true), us.tail, n);
    }
  }

  lemma PlainReturn(rs: List<Expr>, rf: bool)
    requires PlainList(rs, rf)
    ensures FirstReturn(rs).Some? ==> Plain(FirstReturn(rs).value)
    ensures rf ==> FirstReturn(rs).None?
    ensures FirstReturn(rs).None? ==> LitList(rs)
  {}

  lemma FreeUnfolds(code: map<string, Expr>, es: List<Expr>, n: nat)
    requires es.Cons? && es.tail.Cons?
    ensures ReturnFreeList(es) <==> ReturnFree(es.head) && ReturnFree(es.tail.head) && ReturnFreeList(es.tail.tail)
    ensures CalmList(code, es, n)
        <==> Calm(code, es.head, n) && Calm(code, es.tail.head, n) && CalmList(code, es.tail.tail, n)
    ensures es.tail.tail.Cons? ==> (ReturnFreeList(es.tail.tail) ==> ReturnFree(es.tail.tail.head))
    ensures es.tail.tail.Cons? ==> (CalmList(code, es.tail.tail, n) ==> Calm(code, es.tail.tail.head, n))
  {
    assert CalmList(code, es, n) <==> Calm(code, es.head, n) && CalmList(code, es.tail, n);
    assert CalmList(code, es.tail, n) <==> Calm(code, es.tail.head, n) && CalmList(code, es.tail.tail, n);
  }

  lemma CalmNode(code: map<string, Expr>, e: Expr, n: nat)
    requires Calm(code, e, n) && e.Node? && e.tag != ReturnExpr
    ensures NodeCalm(code, e.tag, e.subs, n)
  {}

  // ----- evaluation keeps to it -----

  lemma {:induction false} EvalPlain(env: Env, e: Expr, k: nat, n: nat)
    requires Calm(env.code, e, n)
    ensures PlainResult(Eval(env, e, k), ReturnFree(e))
    decreases k, Size(e), e
  {
    if e.Node? {
      if e.tag != ReturnExpr {
        CalmNode(env.code, e, n);
        PlainNode(env, e.tag, e.subs, k, n);
      } else if e.subs.Cons? && e.subs.tail.Nil? {
        ReturnSize(e.subs.head);
        FreeIsTidy(e.subs.head);
        assert TidyCallsList(env.code, e.subs, n);
        EvalPlain(env, e.subs.head, k, n);
      }
    }
  }

  predicate NodeCalm(code: map<string, Expr>, tag: Tag, es: List<Expr>, n: nat) {
    && CalmList(code, es, n) && (StartsFold(tag) ==> StartFree(es))
    && (tag.CallExpr? && tag.fn in code ==> n > 0 && Calm(code, code[tag.fn], n - 1))
  }

  lemma {:induction false} PlainNode(env: Env, tag: Tag, es: List<Expr>, k: nat, n: nat)
    requires NodeCalm(env.code, tag, es, n) && tag != ReturnExpr
    ensures PlainResult(EvalNode(env, tag, es, k), ReturnFreeList(es))
    decreases k, SizeList(es), 9
  {
    match tag
    case PrefixExpr(p) => if es.Cons? { EvalPlain(env, es.head, k, n); }
    case InfixExpr(op) => PlainInfix(env, op, es, k, n);
    case BlockExpr(kind) =>
      if kind == StmtBlock {
        PlainBlock(env, es, k, n);
      } else {
        PlainGroup(env, kind, es, k, n);
      }
    case Let(vs) => PlainLet(env, vs, es, k, n);
    case Iter(op, vs, accName) => PlainIterExpr(env, op, vs, accName.Some?, es, k, n);
    case IfExpr => PlainIf(env, es, k, n);
    case IfSomeMatchExpr => PlainIfSome(env, es, k, n);
    case IfMatchExpr(vs, pats, hasAlt) => PlainIfMatch(env, vs, pats, hasAlt, es, k, n);
    case CallExpr(fn, isAsync) =>
      PlainEach(env, es, k, n);
      var r := EvalList(env, es, k);
      if r.Ok? { PlainCall(env, fn, isAsync, r.value, k, ReturnFreeList(es), n); }
  }

  lemma {:induction false} PlainInfix(env: Env, op: Infix, es: List<Expr>, k: nat, n: nat)
    requires CalmList(env.code, es, n)
    ensures PlainResult(EvalInfixExpr(env, op, es, k), ReturnFreeList(es))
    decreases k, SizeList(es), 1
  {
    hide EvalInfix;
    if es.Cons? && es.tail.Cons? {
      ListSizes(es);
      FreeUnfolds(env.code, es, n);
      EvalPlain(env, es.head, k, n);
      EvalPlain(env, es.tail.head, k, n);
      PlainShort(env, op == Or, es.head, es.tail.head, k, ReturnFreeList(es));
    }
  }

  lemma {:induction false} PlainShort(env: Env, stop: bool, a: Expr, b: Expr, k: nat, rf: bool)
    requires PlainResult(Eval(env, a, k), rf) && PlainResult(Eval(env, b, k), rf)
    ensures PlainResult(EvalShort(env, stop, a, b, k), rf)
  {}

  lemma {:induction false} PlainBlock(env: Env, es: List<Expr>, k: nat, n: nat)
    requires CalmList(env.code, es, n)
    ensures PlainResult(EvalBlock(env, es, k), ReturnFreeList(es))
    decreases k, SizeList(es), 0
  {
    if es.Cons? { EvalPlain(env, es.head, k, n); PlainBlock(env, es.tail, k, n); }
  }

  lemma {:induction false} PlainEach(env: Env, es: List<Expr>, k: nat, n: nat)
    requires CalmList(env.code, es, n)
    ensures var r := EvalList(env, es, k); r.Ok? ==> PlainList(r.value, ReturnFreeList(es))
    decreases k, SizeList(es), 0
  {
    if es.Cons? {
      EvalPlain(env, es.head, k, n);
      PlainEach(env, es.tail, k, n);
      var r := EvalList(env, es.tail, k);
      if r.Ok? && !ReturnFreeList(es) { PlainWeaker(r.value, ReturnFreeList(es.tail)); }
    }
  }

  lemma PlainWeaker(vs: List<Expr>, rf: bool)
    requires PlainList(vs, rf)
    ensures PlainList(vs, false)
  {}

  lemma {:induction false} PlainGroup(env: Env, kind: BlockKind, es: List<Expr>, k: nat, n: nat)
    requires CalmList(env.code, es, n)
    ensures PlainResult(EvalGroup(env, kind, es, k), ReturnFreeList(es))
    decreases k, SizeList(es), 1
  {
    PlainEach(env, es, k, n);
    var r := EvalList(env, es, k);
    if r.Ok? { PlainReturn(r.value, ReturnFreeList(es)); }
  }

  lemma {:induction false} PlainApplied(env: Env, e: Expr, us: Option<List<Expr>>, k: nat, n: nat)
    requires Calm(env.code, e, n) && (us.Some? ==> LitList(us.value))
    ensures PlainResult(EvalApplied(env, e, us, k), ReturnFree(e))
    decreases k, Size(e) + 1, 2
  {
    if us.Some? && AllValues(us.value) && ApplyAll(e, us.value).Ok? {
      ApplyAllSize(e, us.value);
      CalmApplied(env.code, e, us.value, n);
      EvalPlain(env, ApplyAll(e, us.value).value, k, n);
    }
  }

  lemma {:induction false} PlainLet(env: Env, vs: seq<string>, es: List<Expr>, k: nat, n: nat)
    requires CalmList(env.code, es, n)
    ensures PlainResult(EvalLet(env, vs, es, k), ReturnFreeList(es))
    decreases k, SizeList(es), 0
  {
    if es.Cons? && es.tail.Cons? {
      ListSizes(es);
      FreeUnfolds(env.code, es, n);
      EvalPlain(env, es.head, k, n);
      var r := Eval(env, es.head, k);
      if r.Ok? && !IsReturn(r.value) {
        ArgsLits(vs, r.value.lit);
        PlainApplied(env, es.tail.head, LetArgs(vs, r.value.lit), k, n);
      }
    }
  }

  lemma {:induction false} PlainAlt(env: Env, es: List<Expr>, k: nat, n: nat)
    requires CalmList(env.code, es, n)
    ensures PlainResult(EvalAlt(env, es, k), ReturnFreeList(es))
    decreases k, SizeList(es), 0
  {
    if es.Cons? { EvalPlain(env, es.head, k, n); }
  }

  lemma {:induction false} PlainIf(env: Env, es: List<Expr>, k: nat, n: nat)
    requires CalmList(env.code, es, n)
    ensures PlainResult(EvalIf(env, es, k), ReturnFreeList(es))
    decreases k, SizeList(es), 0
  {
    if es.Cons? && es.tail.Cons? {
      ListSizes(es);
      FreeUnfolds(env.code, es, n);
      EvalPlain(env, es.head, k, n);
      EvalPlain(env, es.tail.head, k, n);
      PlainAlt(env, es.tail.tail, k, n);
    }
  }

  lemma {:induction false} PlainIfSome(env: Env, es: List<Expr>, k: nat, n: nat)
    requires CalmList(env.code, es, n)
    ensures PlainResult(EvalIfSome(env, es, k), ReturnFreeList(es))
    decreases k, SizeList(es), 0
  {
    if es.Cons? && es.tail.Cons? {
      ListSizes(es);
      FreeUnfolds(env.code, es, n);
      EvalPlain(env, es.head, k, n);
      PlainAlt(env, es.tail.tail, k, n);
      var r := Eval(env, es.head, k);
      if r.Ok? && r.value.Lit? && r.value.lit.TupleLit? && |r.value.lit.items| == 1 {
        PlainApplied(env, es.tail.head, Some(One(Lit(r.value.lit.items[0]))), k, n);
      }
    }
  }

  lemma {:induction false} PlainIterExpr(env: Env, op: IterOp, vs: seq<string>, hasAcc: bool, es: List<Expr>, k: nat,
                                         n: nat)
    requires CalmList(env.code, es, n) && (hasAcc ==> StartFree(es))
    ensures PlainResult(EvalIterExpr(env, op, vs, hasAcc, es, k), ReturnFreeList(es))
    decreases k, SizeList(es), 0
  {
    if es.Cons? && es.tail.Cons? {
      ListSizes(es);
      FreeUnfolds(env.code, es, n);
      EvalPlain(env, es.head, k, n);
      var r := Eval(env, es.head, k);
      if r.Ok? && r.value.Lit? && r.value.lit.ListLit? {
        if !hasAcc {
          PlainIter(env, op, vs, r.value.lit.items, es.tail.head, None, k, n);
        } else if es.tail.tail.Cons? {
          EvalPlain(env, es.tail.tail.head, k, n);
          var a := Eval(env, es.tail.tail.head, k);
          if a.Ok? { PlainIter(env, op, vs, r.value.lit.items, es.tail.head, Some(a.value), k, n); }
        }
      }
    }
  }

  lemma {:induction false} PlainIter(env: Env, op: IterOp, vs: seq<string>, lits: seq<Literal>, e: Expr,
                                     acc: Option<Expr>, k: nat, n: nat)
    requires Calm(env.code, e, n) && (acc.Some? ==> acc.value.Lit?)
    ensures PlainResult(EvalIter(env, op, vs, lits, e, acc, k), ReturnFree(e))
    decreases k, Size(e) + 1, 9, 1
  {
    PlainLoop(env, vs, lits, e, acc, k, n);
    var r := IterLoop(env, vs, lits, e, acc, k);
    if r.Ok? { PlainReturn(r.value.0, ReturnFree(e)); }
  }

  lemma {:induction false} PlainLoop(env: Env, vs: seq<string>, lits: seq<Literal>, e: Expr, acc: Option<Expr>,
                                     k: nat, n: nat)
    requires Calm(env.code, e, n) && (acc.Some? ==> acc.value.Lit?)
    ensures var r := IterLoop(env, vs, lits, e, acc, k); r.Ok? ==> PlainList(r.value.0, ReturnFree(e))
    decreases k, Size(e) + 1, 9, 0, |lits|
  {
    if lits != [] && IterArgs(vs, lits[0]).Some? {
      ArgsLits(vs, lits[0]);
      var us := Some(AccArgs(acc, IterArgs(vs, lits[0]).value));
      PlainApplied(env, e, us, k, n);
      var r := EvalApplied(env, e, us, k);
      if r.Ok? && (acc.Some? ==> r.value.Lit?) {
        PlainLoop(env, vs, lits[1..], e, if acc.Some? then Some(r.value) else None, k, n);
      }
    }
  }

  lemma {:induction false} PlainMatches(env: Env, es: List<Expr>, pats: seq<Pattern>, k: nat, n: nat)
    requires CalmList(env.code, es, n)
    ensures var r := EvalMatches(env, es, pats, k);
      r.Ok? && MatchedReturn(r.value).Some? ==> Plain(MatchedReturn(r.value).value) && !ReturnFreeList(es)
    decreases k, SizeList(es), 0
  {
    if es.Cons? {
      EvalPlain(env, es.head, k, n);
      if pats != [] { PlainMatches(env, es.tail, pats[1..], k, n); }
    }
  }

  lemma {:induction false} PlainIfMatch(env: Env, vs: seq<string>, pats: seq<Pattern>, hasAlt: bool, es: List<Expr>,
                                        k: nat, n: nat)
    requires CalmList(env.code, es, n)
    ensures PlainResult(EvalIfMatch(env, vs, pats, hasAlt, es, k), ReturnFreeList(es))
    decreases k, SizeList(es), 8
  {
    if es.Cons? && (hasAlt ==> es.tail.Cons?) {
      ListSizes(es);
      if es.tail.Cons? { FreeUnfolds(env.code, es, n); }
      var scruts := if hasAlt then es.tail.tail else es.tail;
      PlainMatches(env, scruts, pats, k, n);
      if hasAlt { EvalPlain(env, es.tail.head, k, n); }
      var r := EvalMatches(env, scruts, pats, k);
      if r.Ok? && Captures(r.value).Some? {
        CapturedLits(vs, Captures(r.value).value);
        PlainApplied(env, es.head, CapturedArgs(vs, Captures(r.value).value), k, n);
      }
    }
  }

  lemma {:induction false} PlainCall(env: Env, fn: string, isAsync: bool, args: List<Expr>, k: nat, rf: bool, n: nat)
    requires AllValues(args) && PlainList(args, rf)
    requires fn in env.code ==> n > 0 && Calm(env.code, env.code[fn], n - 1)
    ensures PlainResult(EvalCall(env, fn, isAsync, args, k), rf)
    decreases k, 0, 0
  {
    PlainReturn(args, rf);
    if FirstReturn(args).None? && fn in env.code && k > 0 {
      var r := ApplyAll(env.code[fn], args);
      if r.Ok? {
        CalmApplied(env.code, env.code[fn], args, n - 1);
        EvalPlain(env, r.value, k - 1, n - 1);
      }
    }
  }
}
