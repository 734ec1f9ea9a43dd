/** Which errors evaluation cannot give: on a program whose call graph has a
    topological order the call-depth bound is never reached, and from closed
    terms the "eval variable" error is unreachable. */
module Progress {
  import opened Prelude
  import opened Syntax
  import opened Terms
  import opened TermLaws
  import opened Interpret
  import opened Scope

  /** A program with its functions listed so that callees come first; with
      `scoped`, all its functions are closed terms. */
  datatype Ordered = Ordered(env: Env, order: seq<string>, scoped: bool)

  /** What code at rank `k` may call: nothing user-defined beyond `order[..k]`. */
  ghost function Callable(p: Ordered, k: nat): iset<string> {
    iset f: string | f !in p.env.code || f in p.order[..if k <= |p.order| then k else |p.order|]
  }

  ghost predicate Topological(p: Ordered) {
    && (forall f :: f in p.env.code ==> f in p.order)
    && (forall i :: 0 <= i < |p.order| ==> p.order[i] in p.env.code && Fine(p, p.env.code[p.order[i]], i, 0))
  }

  ghost predicate Fine(p: Ordered, e: Expr, k: nat, n: nat) {
    Within(e, Callable(p, k), false) && (p.scoped ==> Scoped(e, n))
  }

  ghost predicate FineList(p: Ordered, es: List<Expr>, k: nat) {
    WithinList(es, Callable(p, k), false) && (p.scoped ==> ScopedList(es, 0))
  }

  /** Not an error this module excludes. */
  predicate Good<T>(p: Ordered, r: Result<T>) {
    r.Err? ==> r.error != TooDeep && (p.scoped ==> r.error != FreeVariable)
  }

  lemma FineUnfolds(p: Ordered, es: List<Expr>, k: nat)
    requires FineList(p, es, k)
    ensures es.Cons? ==> Fine(p, es.head, k, 0) && FineList(p, es.tail, k)
    ensures es.Cons? && es.tail.Cons? ==> Fine(p, es.tail.head, k, 0) && FineList(p, es.tail.tail, k)
    ensures es.Cons? && es.tail.Cons? && es.tail.tail.Cons? ==> Fine(p, es.tail.tail.head, k, 0)
  {}

  lemma FineApplied(p: Ordered, e: Expr, us: List<Expr>, k: nat)
    requires Fine(p, e, k, 0) && AllValues(us)
    ensures ApplyAll(e, us).Ok? ==> Fine(p, ApplyAll(e, us).value, k, 0)
    decreases us
  {
    if us.Cons? && e.Closure? {
      ValueScoped(us.head, Callable(p, k));
      SubstWithin(e.body, 0, us.head, Callable(p, k), false);
      if p.scoped { SubstScoped(e.body, 0, 0, us.head); }
      FineApplied(p, Subst(e.body, 0, us.head, true), us.tail, k);
    }
  }

  lemma {:induction false} Progress(p: Ordered, e: Expr, k: nat)
    requires Topological(p) && Fine(p, e, k, 0)
    ensures Good(p, Eval(p.env, e, k))
    decreases k, Size(e), e
  {
    if e.Node? {
      FineUnfolds(p, e.subs, k);
      if e.tag != ReturnExpr {
        ProgressNode(p, e.tag, e.subs, k);
      } else if e.subs.Cons? && e.subs.tail.Nil? {
        ReturnSize(e.subs.head);
        Progress(p, e.subs.head, k);
      }
    }
  }

  lemma {:induction false} ProgressNode(p: Ordered, tag: Tag, es: List<Expr>, k: nat)
    requires Topological(p) && FineList(p, es, k) && tag != ReturnExpr
    requires tag.CallExpr? ==> tag.fn in Callable(p, k)
    ensures Good(p, EvalNode(p.env, tag, es, k))
    decreases k, SizeList(es), 9
  {
    FineUnfolds(p, es, k);
    ListSizes(es);
    match tag
    case PrefixExpr(_) => if es.Cons? { Progress(p, es.head, k); }
    case InfixExpr(op) => ProgressInfix(p, op, es, k);
    case BlockExpr(kind) => ProgressBlock(p, es, k); ProgressList(p, es, k);
    case Let(vs) => ProgressLet(p, vs, es, k);
    case Iter(op, vs, n) => ProgressIterExpr(p, op, vs, n.Some?, es, k);
    case IfExpr => ProgressIf(p, es, k);
    case IfSomeMatchExpr => ProgressIfSome(p, es, k);
    case IfMatchExpr(vs, pats, hasAlt) => ProgressIfMatch(p, vs, pats, hasAlt, es, k);
    case CallExpr(fn, isAsync) =>
      ProgressList(p, es, k);
      var r := EvalList(p.env, es, k);
      if r.Ok? { ProgressCall(p, fn, isAsync, r.value, k); }
  }

  lemma {:induction false} ProgressInfix(p: Ordered, op: Infix, es: List<Expr>, k: nat)
    requires Topological(p) && FineList(p, es, k)
    ensures Good(p, EvalInfixExpr(p.env, op, es, k))
    decreases k, SizeList(es), 1
  {
    hide EvalInfix;
    if es.Cons? && es.tail.Cons? {
      FineUnfolds(p, es, k);
      ListSizes(es);
      Progress(p, es.head, k);
      Progress(p, es.tail.head, k);
      ProgressShort(p, op == Or, es.head, es.tail.head, k);
    }
  }

  lemma {:induction false} ProgressShort(p: Ordered, stop: bool, a: Expr, b: Expr, k: nat)
    requires Good(p, Eval(p.env, a, k)) && Good(p, Eval(p.env, b, k))
    ensures Good(p, EvalShort(p.env, stop, a, b, k))
  {}

  lemma {:induction false} ProgressBlock(p: Ordered, es: List<Expr>, k: nat)
    requires Topological(p) && FineList(p, es, k)
    ensures Good(p, EvalBlock(p.env, es, k))
    decreases k, SizeList(es), 0
  {
    if es.Cons? { Progress(p, es.head, k); ProgressBlock(p, es.tail, k); }
  }

  lemma {:induction false} ProgressList(p: Ordered, es: List<Expr>, k: nat)
    requires Topological(p) && FineList(p, es, k)
    ensures Good(p, EvalList(p.env, es, k))
    decreases k, SizeList(es), 0
  {
    if es.Cons? { Progress(p, es.head, k); ProgressList(p, es.tail, k); }
  }

  lemma {:induction false} ProgressApplied(p: Ordered, e: Expr, us: Option<List<Expr>>, k: nat)
    requires Topological(p) && Fine(p, e, k, 0)
    ensures Good(p, EvalApplied(p.env, e, us, k))
    decreases k, Size(e) + 1, 2
  {
    if us.Some? && AllValues(us.value) {
      var r := ApplyAll(e, us.value);
      if r.Ok? {
        ApplyAllSize(e, us.value);
        FineApplied(p, e, us.value, k);
        Progress(p, r.value, k);
      } else {
        ApplyAllFails(e, us.value);
      }
    }
  }

  lemma ApplyAllFails(e: Expr, us: List<Expr>)
    ensures ApplyAll(e, us).Err? ==> ApplyAll(e, us).error == Failed
    decreases us
  {}

  lemma {:induction false} ProgressLet(p: Ordered, vs: seq<string>, es: List<Expr>, k: nat)
    requires Topological(p) && FineList(p, es, k)
    ensures Good(p, EvalLet(p.env, vs, es, k))
    decreases k, SizeList(es), 0
  {
    if es.Cons? && es.tail.Cons? {
      FineUnfolds(p, es, k);
      ListSizes(es);
      Progress(p, es.head, k);
      var r := Eval(p.env, es.head, k);
      if r.Ok? && !IsReturn(r.value) { ProgressApplied(p, es.tail.head, LetArgs(vs, r.value.lit), k); }
    }
  }

  lemma {:induction false} ProgressAlt(p: Ordered, es: List<Expr>, k: nat)
    requires Topological(p) && FineList(p, es, k)
    ensures Good(p, EvalAlt(p.env, es, k))
    decreases k, SizeList(es), 0
  {
    if es.Cons? { Progress(p, es.head, k); }
  }

  lemma {:induction false} ProgressIf(p: Ordered, es: List<Expr>, k: nat)
    requires Topological(p) && FineList(p, es, k)
    ensures Good(p, EvalIf(p.env, es, k))
    decreases k, SizeList(es), 0
  {
    if es.Cons? && es.tail.Cons? {
      FineUnfolds(p, es, k);
      ListSizes(es);
      Progress(p, es.head, k);
      Progress(p, es.tail.head, k);
      ProgressAlt(p, es.tail.tail, k);
    }
  }

  lemma {:induction false} ProgressIfSome(p: Ordered, es: List<Expr>, k: nat)
    requires Topological(p) && FineList(p, es, k)
    ensures Good(p, EvalIfSome(p.env, es, k))
    decreases k, SizeList(es), 0
  {
    if es.Cons? && es.tail.Cons? {
      FineUnfolds(p, es, k);
      ListSizes(es);
      Progress(p, es.head, k);
      ProgressAlt(p, es.tail.tail, k);
      var r := Eval(p.env, es.head, k);
      if r.Ok? && r.value.Lit? && r.value.lit.TupleLit? && |r.value.lit.items| == 1 {
        ProgressApplied(p, es.tail.head, Some(One(Lit(r.value.lit.items[0]))), k);
      }
    }
  }

  lemma {:induction false} ProgressIterExpr(p: Ordered, op: IterOp, vs: seq<string>, hasAcc: bool, es: List<Expr>,
                                            k: nat)
    requires Topological(p) && FineList(p, es, k)
    ensures Good(p, EvalIterExpr(p.env, op, vs, hasAcc, es, k))
    decreases k, SizeList(es), 0
  {
    if es.Cons? && es.tail.Cons? {
      FineUnfolds(p, es, k);
      ListSizes(es);
      Progress(p, es.head, k);
      var r := Eval(p.env, es.head, k);
      if r.Ok? && r.value.Lit? && r.value.lit.ListLit? {
        if !hasAcc {
          ProgressLoop(p, vs, r.value.lit.items, es.tail.head, None, k);
        } else if es.tail.tail.Cons? {
          Progress(p, es.tail.tail.head, k);
          var a := Eval(p.env, es.tail.tail.head, k);
          if a.Ok? { ProgressLoop(p, vs, r.value.lit.items, es.tail.head, Some(a.value), k); }
        }
      }
    }
  }

  lemma {:induction false} ProgressLoop(p: Ordered, vs: seq<string>, lits: seq<Literal>, e: Expr, acc: Option<Expr>,
                                        k: nat)
    requires Topological(p) && Fine(p, e, k, 0) && (acc.Some? ==> IsValue(acc.value))
    ensures Good(p, IterLoop(p.env, vs, lits, e, acc, k))
    decreases k, Size(e) + 1, 9, 0, |lits|
  {
    if lits != [] && IterArgs(vs, lits[0]).Some? {
      var us := Some(AccArgs(acc, IterArgs(vs, lits[0]).value));
      ProgressApplied(p, e, us, k);
      var r := EvalApplied(p.env, e, us, k);
      if r.Ok? { ProgressLoop(p, vs, lits[1..], e, if acc.Some? then Some(r.value) else None, k); }
    }
  }

  lemma {:induction false} ProgressMatches(p: Ordered, es: List<Expr>, pats: seq<Pattern>, k: nat)
    requires Topological(p) && FineList(p, es, k)
    ensures Good(p, EvalMatches(p.env, es, pats, k))
    decreases k, SizeList(es), 0
  {
    if es.Cons? {
      Progress(p, es.head, k);
      if pats != [] { ProgressMatches(p, es.tail, pats[1..], k); }
    }
  }

  lemma {:induction false} ProgressIfMatch(p: Ordered, vs: seq<string>, pats: seq<Pattern>, hasAlt: bool,
                                           es: List<Expr>, k: nat)
    requires Topological(p) && FineList(p, es, k)
    ensures Good(p, EvalIfMatch(p.env, vs, pats, hasAlt, es, k))
    decreases k, SizeList(es), 8
  {
    if es.Cons? && (hasAlt ==> es.tail.Cons?) {
      FineUnfolds(p, es, k);
      ListSizes(es);
      ProgressMatches(p, if hasAlt then es.tail.tail else es.tail, pats, k);
      if hasAlt { Progress(p, es.tail.head, k); }
      var r := EvalMatches(p.env, if hasAlt then es.tail.tail else es.tail, pats, k);
      if r.Ok? && Captures(r.value).Some? { ProgressApplied(p, es.head, CapturedArgs(vs, Captures(r.value).value), k); }
    }
  }

  lemma {:induction false} ProgressCall(p: Ordered, fn: string, isAsync: bool, args: List<Expr>, k: nat)
    requires Topological(p) && AllValues(args) && fn in Callable(p, k)
    ensures Good(p, EvalCall(p.env, fn, isAsync, args, k))
    decreases k, 0, 1
  {
    if FirstReturn(args).None? && fn in p.env.code {
      ApplyAllFails(p.env.code[fn], args);
      if ApplyAll(p.env.code[fn], args).Ok? { ProgressBody(p, fn, args, k); }
    }
  }

  lemma {:induction false} ProgressBody(p: Ordered, fn: string, args: List<Expr>, k: nat)
    requires Topological(p) && AllValues(args) && fn in Callable(p, k) && fn in p.env.code
    requires ApplyAll(p.env.code[fn], args).Ok?
    ensures k > 0 && Good(p, Eval(p.env, ApplyAll(p.env.code[fn], args).value, k - 1))
    decreases k, 0, 0
  {
    FineCallee(p, fn, k);
    FineApplied(p, p.env.code[fn], args, k - 1);
    Progress(p, ApplyAll(p.env.code[fn], args).value, k - 1);
  }

  lemma FineCallee(p: Ordered, fn: string, k: nat)
    requires Topological(p) && fn in Callable(p, k) && fn in p.env.code
    ensures k > 0 && Fine(p, p.env.code[fn], k - 1, 0)
  {
    var i :| 0 <= i < |p.order| && i < k && p.order[i] == fn;
    FineHigher(p, p.env.code[fn], i, k - 1);
  }

  lemma FineHigher(p: Ordered, e: Expr, i: nat, k: nat)
    requires Fine(p, e, i, 0) && i <= k
    ensures Fine(p, e, k, 0)
  {
    WithinMono(e, Callable(p, i), Callable(p, k), false);
  }
}
