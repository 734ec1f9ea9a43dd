/** What programs mean as written: an evaluation of the parsed syntax, with names
    and scopes instead of closures and indices, and the proof that elaboration
    preserves it (src/armour-lang/src/expressions.rs:800-1542). */
module Meaning {
  import opened Prelude
  import opened Syntax
  import opened Terms
  import opened TermLaws
  import opened TermProps
  import opened Interpret
  import opened Simulation
  import opened Compile
  import opened Elaborate

  // ----- outcomes and scopes -----

  /** A value, or what a `return` gives. */
  datatype Outcome = Value(l: Literal) | Returned(o: Outcome)

  type Scope = map<string, Outcome>

  /** Declarations, and the functions that are not declared. */
  datatype Program = Program(decls: map<string, SDecl>, world: Env)

  /** The first outcome that is a `return`. */
  function Stop(os: List<Outcome>): (r: Option<Outcome>)
    ensures r.Some? ==> r.value.Returned?
  {
    match os
    case Nil => None
    case Cons(o, rest) => if o.Returned? then Some(o) else Stop(rest)
  }

  function Values(os: List<Outcome>): seq<Literal>
    requires Stop(os).None?
  {
    match os case Nil => [] case Cons(o, rest) => [o.l] + Values(rest)
  }

  /** Later names hide earlier ones, "_" binds nothing. */
  function BindAll(m: Scope, ids: seq<string>, lits: seq<Literal>): Scope
    requires |ids| == |lits|
    decreases |ids|
  {
    if ids == [] then m
    else BindAll(if ids[0] == "_" then m else m[ids[0] := Value(lits[0])], ids[1..], lits[1..])
  }

  /** One name stands for the whole value, several for the items of a tuple. */
  function LetScope(m: Scope, ids: seq<string>, l: Literal): Option<Scope> {
    if |ids| == 1 then Some(m[ids[0] := Value(l)])
    else if l.TupleLit? && |l.items| >= 2 && |ids| == |l.items| then Some(BindAll(m, ids, l.items))
    else None
  }

  function ElementScope(m: Scope, ids: seq<string>, l: Literal): Option<Scope> {
    if |ids| == 1 then Some(BindAll(m, ids, [l]))
    else if l.TupleLit? && |ids| == |l.items| then Some(BindAll(m, ids, l.items))
    else None
  }

  function CapturedScope(m: Scope, names: seq<string>, caps: map<string, Literal>): Option<Scope>
    decreases |names|
  {
    if names == [] then Some(m)
    else if names[0] in caps then CapturedScope(m[names[0] := Value(caps[names[0]])], names[1..], caps)
    else None
  }

  // ----- evaluation -----

  /** A scrutinee and what its pattern captured, if it matched. */
  datatype Tried = Tried(o: Outcome, caps: Option<map<string, Literal>>)

  function StopTried(ts: List<Tried>): Option<Outcome> {
    match ts case Nil => None case Cons(t, rest) => if t.o.Returned? then Some(t.o) else StopTried(rest)
  }

  /** All captures together, if every pattern matched. */
  function AllCaptured(ts: List<Tried>): Option<map<string, Literal>> {
    match ts
    case Nil => Some(map[])
    case Cons(t, rest) =>
      var more := AllCaptured(rest);
      if t.caps.Some? && more.Some? then Some(t.caps.value + more.value) else None
  }

  function Grouped(kind: GroupKind, os: List<Outcome>): Outcome {
    if Stop(os).Some? then Stop(os).value
    else if kind == ListBlock then Value(ListLit(Values(os)))
    else Value(if os.Nil? then UNIT else TupleLit(Values(os)))
  }

  function Collected(op: IterOp, lits: seq<Literal>, os: List<Outcome>, last: Option<Outcome>): Result<Outcome> {
    if Stop(os).Some? then Ok(Stop(os).value)
    else if op == Fold then (if last.Some? && last.value.Value? then Ok(last.value) else Err(Failed))
    else match Collect(op, lits, Values(os)) case Some(l) => Ok(Value(l)) case None => Err(Failed)
  }

  function RunExpr(p: Program, e: SExpr, m: Scope, k: nat): Result<Outcome>
    decreases k, 1, e, 1
  {
    match e
    case SIdent(x) => if x in m then Ok(m[x]) else Err(FreeVariable)
    case SLit(l) => Ok(Value(l))
    case SGroup(kind, items) =>
      (match RunAll(p, items, m, k) case Ok(os) => Ok(Grouped(kind, os)) case Err(err) => Err(err))
    case SPrefix(pre, a) =>
      (match RunExpr(p, a, m, k)
       case Ok(Value(l)) => (match EvalPrefix(pre, l) case Some(r) => Ok(Value(r)) case None => Err(Failed))
       case r => r)
    case SInfix(op, a, b) => if op == And || op == Or then RunShort(p, e, m, k) else RunInfix(p, e, m, k)
    case SIf(c, b, alt) =>
      (match RunExpr(p, c, m, k)
       case Ok(Value(l)) =>
         if l == BoolLit(true) then RunBlock(p, b, m, k)
         else if l == BoolLit(false) then RunAlt(p, alt, m, k)
         else Err(Failed)
       case r => r)
    case SIfSome(x, a, b, alt) =>
      (match RunExpr(p, a, m, k)
       case Ok(Value(TupleLit(items))) =>
         if |items| == 1 then RunBlock(p, b, m[x := Value(items[0])], k) else RunAlt(p, alt, m, k)
       case Ok(Value(_)) => Err(Failed)
       case r => r)
    case SIfMatch(scruts, pats, names, b, alt) =>
      (match RunMatches(p, scruts, pats, m, k)
       case Err(err) => Err(err)
       case Ok(ts) =>
         if StopTried(ts).Some? then Ok(StopTried(ts).value)
         else match AllCaptured(ts)
           case None => RunAlt(p, alt, m, k)
           case Some(caps) =>
             match CapturedScope(m, names, caps) case Some(n) => RunBlock(p, b, n, k) case None => Err(Failed))
    case SIter(_, _, _, _, _) => RunIter(p, e, m, k)
    case SCall(fn, args, isAsync) =>
      (match RunAll(p, args, m, k) case Ok(os) => RunCall(p, fn, os, isAsync, k) case Err(err) => Err(err))
  }

  /** `&&` stops at false and `||` at true. */
  function RunShort(p: Program, e: SExpr, m: Scope, k: nat): Result<Outcome>
    requires e.SInfix?
    decreases k, 1, e, 0
  {
    match RunExpr(p, e.left, m, k)
    case Ok(Value(l)) =>
      if l == BoolLit(e.op == Or) then Ok(Value(l))
      else if l != BoolLit(e.op == And) then Err(Failed)
      else (match RunExpr(p, e.right, m, k)
        case Ok(Value(r)) => if IsBool(r) then Ok(Value(r)) else Err(Failed)
        case r => r)
    case r => r
  }

  function RunInfix(p: Program, e: SExpr, m: Scope, k: nat): Result<Outcome>
    requires e.SInfix?
    decreases k, 1, e, 0
  {
    match (RunExpr(p, e.left, m, k), RunExpr(p, e.right, m, k))
    case (Err(err), _) => Err(err)
    case (_, Err(err)) => Err(err)
    case (Ok(Returned(o)), _) => Ok(Returned(o))
    case (_, Ok(Returned(o))) => Ok(Returned(o))
    case (Ok(Value(x)), Ok(Value(y))) =>
      match EvalInfix(e.op, x, y) case Some(r) => Ok(Value(r)) case None => Err(Failed)
  }

  function RunAll(p: Program, es: List<SExpr>, m: Scope, k: nat): Result<List<Outcome>>
    decreases k, 1, es, 0
  {
    match es
    case Nil => Ok(Nil)
    case Cons(e, rest) =>
      match RunExpr(p, e, m, k)
      case Err(err) => Err(err)
      case Ok(o) => match RunAll(p, rest, m, k) case Ok(os) => Ok(Cons(o, os)) case Err(err) => Err(err)
  }

  function RunAlt(p: Program, alt: Option<List<SStmt>>, m: Scope, k: nat): Result<Outcome>
    decreases k, 1, alt, 0
  {
    match alt case None => Ok(Value(UNIT)) case Some(b) => RunBlock(p, b, m, k)
  }

  /** Statement by statement: a `return` stops the block, a `let` scopes over the
      rest, and the last expression gives the value. */
  function RunBlock(p: Program, b: List<SStmt>, m: Scope, k: nat): Result<Outcome>
    decreases k, 1, b, 0, 0
  {
    match b
    case Nil => Ok(Value(UNIT))
    case Cons(SReturn(e), _) => (match RunExpr(p, e, m, k) case Ok(o) => Ok(Returned(o)) case Err(err) => Err(err))
    case Cons(SDo(e, _), rest) =>
      (match RunExpr(p, e, m, k)
       case Ok(Value(l)) => if rest.Nil? then Ok(Value(l)) else RunBlock(p, rest, m, k)
       case r => r)
    case Cons(SLet(ids, e), rest) =>
      match RunExpr(p, e, m, k)
      case Ok(Value(l)) =>
        if ids == ["_"] then RunBlock(p, rest, m, k)
        else (match LetScope(m, ids, l) case Some(n) => RunBlock(p, rest, n, k) case None => Err(Failed))
      case r => r
  }

  function RunMatches(p: Program, scruts: List<SExpr>, pats: seq<Pattern>, m: Scope, k: nat): Result<List<Tried>>
    decreases k, 1, scruts, 0
  {
    match scruts
    case Nil => Ok(Nil)
    case Cons(e, rest) =>
      match RunExpr(p, e, m, k)
      case Err(err) => Err(err)
      case Ok(o) =>
        if pats == [] || (o.Value? && p.world.matches(o.l, pats[0]).None?) then Err(Failed)
        else
          var t := Tried(o, if o.Value? then p.world.matches(o.l, pats[0]).value else None);
          match RunMatches(p, rest, pats[1..], m, k) case Ok(ts) => Ok(Cons(t, ts)) case Err(err) => Err(err)
  }

  function RunIter(p: Program, e: SExpr, m: Scope, k: nat): Result<Outcome>
    requires e.SIter?
    decreases k, 1, e, 0
  {
    match RunExpr(p, e.e, m, k)
    case Ok(Value(l)) =>
      if !l.ListLit? then Err(Failed)
      else (match e.acc
        case None => RunLoop(p, e.iop, e.ids, None, l.items, e.body, m, k)
        case Some((n, init)) =>
          match RunExpr(p, init, m, k)
          case Err(err) => Err(err)
          case Ok(a) => RunLoop(p, e.iop, e.ids, Some((n, a)), l.items, e.body, m, k))
    case r => r
  }

  function RunLoop(p: Program, op: IterOp, ids: seq<string>, acc: Option<(Name, Outcome)>, lits: seq<Literal>,
                   body: List<SStmt>, m: Scope, k: nat): Result<Outcome>
    decreases k, 1, body, 2, 0
  {
    match RunEach(p, ids, acc, lits, body, m, k)
    case Ok((os, last)) => Collected(op, lits, os, last)
    case Err(err) => Err(err)
  }

  /** The outcomes of all rounds and the last accumulator; what a round gives is the
      next accumulator. */
  function RunEach(p: Program, ids: seq<string>, acc: Option<(Name, Outcome)>, lits: seq<Literal>, body: List<SStmt>,
                   m: Scope, k: nat): Result<(List<Outcome>, Option<Outcome>)>
    decreases k, 1, body, 1, |lits|
  {
    if lits == [] then Ok((Nil, if acc.Some? then Some(acc.value.1) else None))
    else match ElementScope(if acc.Some? then m[acc.value.0 := acc.value.1] else m, ids, lits[0])
      case None => Err(Failed)
      case Some(n) =>
        match RunBlock(p, body, n, k)
        case Err(err) => Err(err)
        case Ok(o) =>
          match RunEach(p, ids, if acc.Some? then Some((acc.value.0, o)) else None, lits[1..], body, m, k)
          case Ok((os, last)) => Ok((Cons(o, os), last))
          case Err(err) => Err(err)
  }

  /** Arguments that return are all there is to a call; a declared function runs its
      body one call deeper and what it returns is the value of the call. */
  function RunCall(p: Program, fn: string, os: List<Outcome>, isAsync: bool, k: nat): Result<Outcome>
    decreases k, 0, 1
  {
    if Stop(os).Some? then Ok(Stop(os).value)
    else if fn in p.decls then RunDecl(p, p.decls[fn], Values(os), k)
    else if p.world.isBuiltin(fn) then
      (match p.world.call(fn, Values(os)) case Some(l) => Ok(Value(l)) case None => Err(Failed))
    else if !p.world.isExternal(fn) then Err(Failed)
    else if isAsync then Ok(Value(UNIT))
    else match p.world.external(fn, Values(os)) case Some(l) => Ok(Value(l)) case None => Err(Failed)
  }

  function RunDecl(p: Program, d: SDecl, args: seq<Literal>, k: nat): Result<Outcome>
    decreases k, 0, 0
  {
    if |args| > |d.params| then Err(Failed)
    else if k == 0 then Err(TooDeep)
    else if |args| < |d.params| then Err(Failed)
    else match RunBlock(p, d.body, BindAll(map[], d.params, args), k - 1)
      case Ok(Returned(o)) => Ok(o)
      case r => r
  }

  // ----- scopes as substitutions -----

  function Term(o: Outcome): (e: Expr)
    ensures IsValue(e) && (IsReturn(e) <==> o.Returned?)
  {
    match o case Value(l) => Lit(l) case Returned(x) => ReturnOf(Term(x))
  }

  function Image(m: Scope): map<string, Expr> { map x | x in m :: Term(m[x]) }

  /** Everything that is put in is a value. */
  predicate Inert(m: map<string, Expr>) { forall x :: x in m ==> IsValue(m[x]) }

  lemma {:induction false} ValueAbs(v: Expr, i: nat, w: string, m: map<string, Expr>)
    requires IsValue(v)
    ensures Abs(v, i, w) == v && Named(v, m) == v
  {
    if v.Node? {
      ValueAbs(v.subs.head, i, w, m);
      assert AbsList(Nil, i, w) == Nil && NamedList(Nil, m) == Nil;
    }
  }

  /** Putting values in passes a binder and leaves its own variable alone. */
  lemma {:induction false} PutAbs(e: Expr, i: nat, w: string, m: map<string, Expr>)
    requires Inert(m)
    ensures Named(Abs(e, i, w), m) == Abs(Named(e, m - {w}), i, w)
  {
    match e
    case Var(x) => if x in m && x != w { ValueAbs(m[x], i, w, m); }
    case Closure(_, b) => PutAbs(b, i + 1, w, m);
    case Node(_, es) => PutAbsList(es, i, w, m);
    case _ =>
  }

  lemma {:induction false} PutAbsList(es: List<Expr>, i: nat, w: string, m: map<string, Expr>)
    requires Inert(m)
    ensures NamedList(AbsList(es, i, w), m) == AbsList(NamedList(es, m - {w}), i, w)
  {
    if es.Cons? { PutAbs(es.head, i, w, m); PutAbsList(es.tail, i, w, m); }
  }

  lemma {:induction false} PutCloseAll(e: Expr, vs: seq<string>, m: map<string, Expr>)
    requires Inert(m) && "_" !in m
    ensures Named(CloseAll(e, vs), m) == CloseAll(Named(e, m - Names(vs)), vs)
    decreases |vs|
  {
    if vs == [] {
      assert m - Names(vs) == m;
    } else if vs[0] == "_" {
      PutCloseAll(e, vs[1..], m);
      assert m - Names(vs[1..]) == m - Names(vs);
    } else {
      PutAbs(CloseAll(e, vs[1..]), 0, vs[0], m);
      PutCloseAll(e, vs[1..], m - {vs[0]});
      assert m - {vs[0]} - Names(vs[1..]) == m - Names(vs);
    }
  }

  lemma {:induction false} PutTwice(e: Expr, m: map<string, Expr>, n: map<string, Expr>)
    requires Inert(m)
    ensures Named(Named(e, m), n) == Named(e, n + m)
  {
    match e
    case Var(x) => if x in m { ValueAbs(m[x], 0, "", n); }
    case Closure(_, b) => PutTwice(b, m, n);
    case Node(_, es) => PutTwiceList(es, m, n);
    case _ =>
  }

  lemma {:induction false} PutTwiceList(es: List<Expr>, m: map<string, Expr>, n: map<string, Expr>)
    requires Inert(m)
    ensures NamedList(NamedList(es, m), n) == NamedList(es, n + m)
  {
    if es.Cons? { PutTwice(es.head, m, n); PutTwiceList(es.tail, m, n); }
  }

  lemma {:induction false} PutClosed(e: Expr, n: nat, m: map<string, Expr>)
    requires Inert(m) && Closed(e, n)
    ensures Closed(Named(e, m), n)
  {
    match e
    case Var(x) => if x in m { ValueClosed(m[x]); ClosedMono(m[x], 0, n); }
    case Closure(_, b) => PutClosed(b, n + 1, m);
    case Node(_, es) => PutClosedList(es, n, m);
    case _ =>
  }

  lemma {:induction false} PutClosedList(es: List<Expr>, n: nat, m: map<string, Expr>)
    requires Inert(m) && ClosedList(es, n)
    ensures ClosedList(NamedList(es, m), n)
  {
    if es.Cons? { PutClosed(es.head, n, m); PutClosedList(es.tail, n, m); }
  }

  /** Binding names one after the other is putting them all in at once. */
  lemma {:induction false} ScopeAssigned(m: Scope, vs: seq<string>, lits: seq<Literal>)
    requires |vs| == |lits| && "_" !in m
    ensures "_" !in BindAll(m, vs, lits)
    ensures Image(BindAll(m, vs, lits)) == Assigned(vs, lits) + (Image(m) - Names(vs))
    decreases |vs|
  {
    if vs == [] {
      assert Image(m) - Names(vs) == Image(m);
    } else {
      hide Assigned, BindAll;
      var v, rest, i := vs[0], vs[1..], Image(m);
      ScopeFirst(m, vs, lits);
      assert Names(vs) == Names(rest) + {v};
      if v == "_" {
        ScopeAssigned(m, rest, lits[1..]);
        assert i - Names(rest) == i - Names(vs);
      } else {
        ScopeAssigned(m[v := Value(lits[0])], rest, lits[1..]);
        ImageMore(m, v, Value(lits[0]));
        HideOuter(Assigned(rest, lits[1..]), i, v, Lit(lits[0]), Names(rest));
      }
    }
  }

  lemma ScopeFirst(m: Scope, vs: seq<string>, lits: seq<Literal>)
    requires |vs| == |lits| && vs != []
    ensures BindAll(m, vs, lits) == BindAll(if vs[0] == "_" then m else m[vs[0] := Value(lits[0])], vs[1..], lits[1..])
    ensures var a := Assigned(vs[1..], lits[1..]);
      Assigned(vs, lits) == if vs[0] == "_" || vs[0] in a then a else a[vs[0] := Lit(lits[0])]
  {}

  lemma ImageMore(m: Scope, v: string, o: Outcome)
    ensures Image(m[v := o]) == Image(m)[v := Term(o)]
  {}

  lemma HideOuter(a: map<string, Expr>, i: map<string, Expr>, v: string, t: Expr, names: set<string>)
    requires a.Keys <= names && (v in names ==> v in a)
    ensures a + (i[v := t] - names) == (if v in a then a else a[v := t]) + (i - (names + {v}))
  {}

  /** Applying the closures of several names to literals is evaluating below the
      scope in which they are bound. */
  lemma Opened(e: Expr, m: Scope, vs: seq<string>, lits: seq<Literal>)
    requires Closed(e, 0) && |vs| == |lits| && "_" !in m
    ensures ApplyAll(Named(CloseAll(e, vs), Image(m)), Bound(vs, lits)) == Ok(Named(e, Image(BindAll(m, vs, lits))))
    ensures "_" !in BindAll(m, vs, lits)
  {
    hide Named, ApplyAll, CloseAll, BindAll, Assigned, Bound, Closed;
    var t := Image(m) - Names(vs);
    PutCloseAll(e, vs, Image(m));
    PutClosed(e, 0, t);
    OpenedInOrder(Named(e, t), vs, lits);
    PutTwice(e, t, Assigned(vs, lits));
    ScopeAssigned(m, vs, lits);
  }

  /** The same below an accumulator, which may be a `return`. */
  lemma OpenedBelow(e: Expr, m: Scope, n: Name, a: Outcome, vs: seq<string>, lits: seq<Literal>)
    requires Closed(e, 0) && |vs| == |lits| && "_" !in m
    ensures ApplyAll(Named(CloseAll(e, [n] + vs), Image(m)), Cons(Term(a), Bound(vs, lits)))
         == Ok(Named(e, Image(BindAll(m[n := a], vs, lits))))
    ensures "_" !in BindAll(m[n := a], vs, lits)
  {
    hide Named, BindAll, Bound, Closed;
    var c, t := CloseAll(e, vs), Image(m) - {n};
    assert ([n] + vs)[0] == n && ([n] + vs)[1..] == vs;
    PutAbs(c, 0, n, Image(m));
    NamedClosure(n, Abs(c, 0, n), Image(m));
    assert Named(CloseAll(e, [n] + vs), Image(m)) == Closure(n, Abs(Named(c, t), 0, n));
    CloseAllClosed(e, vs);
    PutClosed(c, 0, t);
    ValueClosed(Term(a));
    AbsThenSubst(Named(c, t), 0, n, Term(a));
    PutTwice(c, t, map[n := Term(a)]);
    assert map[n := Term(a)] + t == Image(m[n := a]);
    Opened(e, m[n := a], vs, lits);
  }

  lemma NamedClosure(n: string, b: Expr, m: map<string, Expr>)
    ensures Named(Closure(n, b), m) == Closure(n, Named(b, m))
  {}

  // ----- elaboration preserves meaning -----

  /** The program that the interpreter runs is the declared one, elaborated. */
  ghost predicate Elaborated(p: Program, env: Env) {
    && env == p.world.(code := env.code) && env.code.Keys == p.decls.Keys
    && forall f :: f in p.decls ==> ElabDecl(p.decls[f]) == Ok(env.code[f])
  }

  function Lift(r: Result<Outcome>): Result<Expr> {
    match r case Ok(o) => Ok(Term(o)) case Err(err) => Err(err)
  }

  function TermList(os: List<Outcome>): (es: List<Expr>)
    ensures AllValues(es)
  {
    match os case Nil => Nil case Cons(o, rest) => Cons(Term(o), TermList(rest))
  }

  function LiftList(r: Result<List<Outcome>>): Result<List<Expr>> {
    match r case Ok(os) => Ok(TermList(os)) case Err(err) => Err(err)
  }

  lemma StopFirst(os: List<Outcome>)
    ensures FirstReturn(TermList(os)) == if Stop(os).Some? then Some(Term(Stop(os).value)) else None
    ensures Stop(os).None? ==> Literals(TermList(os)) == Some(Values(os))
  {
    if os.Cons? { StopFirst(os.tail); }
  }

  lemma NodeRuns(env: Env, t: Tag, es: List<Expr>, m: map<string, Expr>, k: nat)
    requires t != ReturnExpr
    ensures Eval(env, Named(Node(t, es), m), k) == EvalNode(env, t, NamedList(es, m), k)
  {}

  lemma PutFew(a: Expr, b: Expr, c: Expr, m: map<string, Expr>)
    ensures NamedList(One(a), m) == One(Named(a, m))
    ensures NamedList(Two(a, b), m) == Two(Named(a, m), Named(b, m))
    ensures NamedList(Three(a, b, c), m) == Three(Named(a, m), Named(b, m), Named(c, m))
  {
    assert NamedList(Nil, m) == Nil;
    assert NamedList(One(c), m) == One(Named(c, m));
    assert NamedList(One(b), m) == One(Named(b, m));
    assert NamedList(Two(b, c), m) == Two(Named(b, m), Named(c, m));
  }

  /** The elaborated term, with the scope put in, evaluates to what the text means. */
  lemma {:induction false} Means(p: Program, env: Env, e: SExpr, ctxt: set<string>, m: Scope, k: nat)
    requires Elaborated(p, env) && Elab(e, ctxt).Ok? && "_" !in m
    ensures Eval(env, Named(Elab(e, ctxt).value, Image(m)), k) == Lift(RunExpr(p, e, m, k))
    decreases k, 1, e, 1
  {
    match e
    case SIdent(x) => if x in m { EvalValue(env, Term(m[x]), k); }
    case SLit(_) =>
    case SGroup(kind, items) => MeansGroup(p, env, kind, items, ctxt, m, k);
    case SPrefix(pre, a) => MeansPrefix(p, env, e, ctxt, m, k);
    case SInfix(op, a, b) => MeansInfix(p, env, e, ctxt, m, k);
    case SIf(_, _, _) => MeansIf(p, env, e, ctxt, m, k);
    case SIfSome(_, _, _, _) => MeansIfSome(p, env, e, ctxt, m, k);
    case SIfMatch(_, _, _, _, _) => MeansIfMatch(p, env, e, ctxt, m, k);
    case SIter(_, _, _, _, _) => MeansIter(p, env, e, ctxt, m, k);
    case SCall(fn, args, isAsync) => MeansCall(p, env, e, ctxt, m, k);
  }

  lemma {:induction false} MeansGroup(p: Program, env: Env, kind: GroupKind, items: List<SExpr>, ctxt: set<string>,
                                      m: Scope, k: nat)
    requires Elaborated(p, env) && ElabList(items, ctxt).Ok? && "_" !in m
    ensures Eval(env, Named(Node(BlockExpr(kind), ElabList(items, ctxt).value), Image(m)), k)
         == Lift(RunExpr(p, SGroup(kind, items), m, k))
    decreases k, 1, items, 1
  {
    MeansAll(p, env, items, ctxt, m, k);
    NodeRuns(env, BlockExpr(kind), ElabList(items, ctxt).value, Image(m), k);
    var r := RunAll(p, items, m, k);
    if r.Ok? { StopFirst(r.value); }
  }

  lemma {:induction false} MeansPrefix(p: Program, env: Env, e: SExpr, ctxt: set<string>, m: Scope, k: nat)
    requires Elaborated(p, env) && e.SPrefix? && Elab(e, ctxt).Ok? && "_" !in m
    ensures Eval(env, Named(Elab(e, ctxt).value, Image(m)), k) == Lift(RunExpr(p, e, m, k))
    decreases k, 1, e, 0
  {
    Means(p, env, e.e, ctxt, m, k);
    var x := Elab(e.e, ctxt).value;
    NodeRuns(env, PrefixExpr(e.pre), One(x), Image(m), k);
    PutFew(x, x, x, Image(m));
  }

  lemma {:induction false} MeansInfix(p: Program, env: Env, e: SExpr, ctxt: set<string>, m: Scope, k: nat)
    requires Elaborated(p, env) && e.SInfix? && Elab(e, ctxt).Ok? && "_" !in m
    ensures Eval(env, Named(Elab(e, ctxt).value, Image(m)), k) == Lift(RunExpr(p, e, m, k))
    decreases k, 1, e, 0
  {
    Means(p, env, e.left, ctxt, m, k);
    Means(p, env, e.right, ctxt, m, k);
    var x, y, i := Elab(e.left, ctxt).value, Elab(e.right, ctxt).value, Image(m);
    NodeRuns(env, InfixExpr(e.op), Two(x, y), i, k);
    PutFew(x, y, y, i);
    if e.op == And || e.op == Or {
      ShortAlike(env, e.op == Or, Named(x, i), Named(y, i), RunExpr(p, e.left, m, k), RunExpr(p, e.right, m, k), k);
    } else {
      InfixAlike(env, e.op, Named(x, i), Named(y, i), RunExpr(p, e.left, m, k), RunExpr(p, e.right, m, k), k);
    }
  }

  lemma ShortAlike(env: Env, stop: bool, a: Expr, b: Expr, r: Result<Outcome>, s: Result<Outcome>, k: nat)
    requires Eval(env, a, k) == Lift(r) && Eval(env, b, k) == Lift(s)
    ensures EvalShort(env, stop, a, b, k)
         == if r.Err? || r.value.Returned? || r.value.l == BoolLit(stop) then Lift(r)
            else if r.value.l != BoolLit(!stop) then Err(Failed)
            else if s.Err? || s.value.Returned? || IsBool(s.value.l) then Lift(s)
            else Err(Failed)
  {
    hide Eval;
  }

  lemma InfixAlike(env: Env, op: Infix, a: Expr, b: Expr, r: Result<Outcome>, s: Result<Outcome>, k: nat)
    requires op != And && op != Or && Eval(env, a, k) == Lift(r) && Eval(env, b, k) == Lift(s)
    ensures EvalInfixExpr(env, op, Two(a, b), k)
         == if r.Err? then Lift(r) else if s.Err? then Lift(s)
            else if r.value.Returned? then Lift(r) else if s.value.Returned? then Lift(s)
            else if EvalInfix(op, r.value.l, s.value.l).Some? then Ok(Lit(EvalInfix(op, r.value.l, s.value.l).value))
            else Err(Failed)
  {
    hide Eval, EvalInfix;
  }

  lemma {:induction false} MeansAll(p: Program, env: Env, es: List<SExpr>, ctxt: set<string>, m: Scope, k: nat)
    requires Elaborated(p, env) && ElabList(es, ctxt).Ok? && "_" !in m
    ensures EvalList(env, NamedList(ElabList(es, ctxt).value, Image(m)), k) == LiftList(RunAll(p, es, m, k))
    decreases k, 1, es, 0
  {
    if es.Cons? {
      Means(p, env, es.head, ctxt, m, k);
      MeansAll(p, env, es.tail, ctxt, m, k);
    }
  }

  lemma {:induction false} MeansAlt(p: Program, env: Env, alt: Option<List<SStmt>>, ctxt: set<string>, m: Scope, k: nat)
    requires Elaborated(p, env) && ElabAlt(alt, ctxt).Ok? && "_" !in m
    ensures EvalAlt(env, NamedList(ElabAlt(alt, ctxt).value, Image(m)), k) == Lift(RunAlt(p, alt, m, k))
    decreases k, 1, alt, 0
  {
    if alt.Some? {
      MeansBlock(p, env, alt.value, ctxt, m, k);
      var x := ElabBlock(alt.value, ctxt).value;
      PutFew(x, x, x, Image(m));
    }
  }

  lemma {:induction false} MeansIf(p: Program, env: Env, e: SExpr, ctxt: set<string>, m: Scope, k: nat)
    requires Elaborated(p, env) && e.SIf? && Elab(e, ctxt).Ok? && "_" !in m
    ensures Eval(env, Named(Elab(e, ctxt).value, Image(m)), k) == Lift(RunExpr(p, e, m, k))
    decreases k, 1, e, 0
  {
    var c, t, o := Elab(e.cond, ctxt).value, ElabBlock(e.thenBlock, ctxt).value, ElabAlt(e.alt, ctxt).value;
    var i := Image(m);
    Means(p, env, e.cond, ctxt, m, k);
    MeansBlock(p, env, e.thenBlock, ctxt, m, k);
    MeansAlt(p, env, e.alt, ctxt, m, k);
    NodeRuns(env, IfExpr, Cons(c, Cons(t, o)), i, k);
    assert NamedList(Cons(t, o), i) == Cons(Named(t, i), NamedList(o, i));
    IfAlike(env, Named(c, i), Named(t, i), NamedList(o, i), k);
    hide Eval, EvalAlt, Named, NamedList;
  }

  lemma IfAlike(env: Env, c: Expr, t: Expr, alt: List<Expr>, k: nat)
    ensures var v := Eval(env, c, k);
      EvalNode(env, IfExpr, Cons(c, Cons(t, alt)), k)
      == if v.Err? || IsReturn(v.value) then v
         else if v.value.lit == BoolLit(true) then Eval(env, t, k)
         else if v.value.lit == BoolLit(false) then EvalAlt(env, alt, k)
         else Err(Failed)
  {
    assert EvalNode(env, IfExpr, Cons(c, Cons(t, alt)), k) == EvalIf(env, Cons(c, Cons(t, alt)), k);
    hide Eval, EvalAlt;
  }

  lemma ElabClosed(b: List<SStmt>, ctxt: set<string>)
    ensures ElabBlock(b, ctxt).Ok? ==> Closed(ElabBlock(b, ctxt).value, 0)
  {
    ElabBlockOpen(b, ctxt);
    if ElabBlock(b, ctxt).Ok? { OpenIsClosed(ElabBlock(b, ctxt).value, Real(ctxt), 0); }
  }

  lemma {:induction false} OpenIsClosed(e: Expr, names: set<string>, n: nat)
    requires OpenIn(e, names, n)
    ensures Closed(e, n)
  {
    match e
    case Closure(_, b) => OpenIsClosed(b, names, n + 1);
    case Node(_, es) => OpenIsClosedList(es, names, n);
    case _ =>
  }

  lemma {:induction false} OpenIsClosedList(es: List<Expr>, names: set<string>, n: nat)
    requires OpenInList(es, names, n)
    ensures ClosedList(es, n)
  {
    if es.Cons? { OpenIsClosed(es.head, names, n); OpenIsClosedList(es.tail, names, n); }
  }

  /** A body below the closures of its names, applied. */
  lemma {:induction false} MeansBody(p: Program, env: Env, b: List<SStmt>, ctxt: set<string>, n: Scope, c: Expr,
                                     us: List<Expr>, k: nat)
    requires Elaborated(p, env) && ElabBlock(b, ctxt).Ok? && "_" !in n && AllValues(us)
    requires ApplyAll(c, us) == Ok(Named(ElabBlock(b, ctxt).value, Image(n)))
    ensures EvalApplied(env, c, Some(us), k) == Lift(RunBlock(p, b, n, k))
    decreases k, 1, b, 1, 0
  {
    MeansBlock(p, env, b, ctxt, n, k);
  }

  lemma {:induction false} MeansIfSome(p: Program, env: Env, e: SExpr, ctxt: set<string>, m: Scope, k: nat)
    requires Elaborated(p, env) && e.SIfSome? && Elab(e, ctxt).Ok? && "_" !in m
    ensures Eval(env, Named(Elab(e, ctxt).value, Image(m)), k) == Lift(RunExpr(p, e, m, k))
    decreases k, 1, e, 0
  {
    var x, t, o := Elab(e.e, ctxt).value, ElabBlock(e.thenBlock, ctxt + {e.x}).value, ElabAlt(e.alt, ctxt).value;
    var c := ClosureExpr(t, e.x);
    Means(p, env, e.e, ctxt, m, k);
    MeansAlt(p, env, e.alt, ctxt, m, k);
    NodeRuns(env, IfSomeMatchExpr, Cons(x, Cons(c, o)), Image(m), k);
    assert NamedList(Cons(c, o), Image(m)) == Cons(Named(c, Image(m)), NamedList(o, Image(m)));
    var r := RunExpr(p, e.e, m, k);
    if r.Ok? && r.value.Value? && r.value.l.TupleLit? && |r.value.l.items| == 1 {
      var l := r.value.l.items[0];
      ElabClosed(e.thenBlock, ctxt + {e.x});
      OneName(t, m, e.x, l);
      MeansBody(p, env, e.thenBlock, ctxt + {e.x}, m[e.x := Value(l)], Named(c, Image(m)), One(Lit(l)), k);
    }
  }

  /** One name, bound to a literal. */
  lemma OneName(t: Expr, m: Scope, x: Name, l: Literal)
    requires Closed(t, 0) && "_" !in m
    ensures ApplyAll(Named(ClosureExpr(t, x), Image(m)), One(Lit(l))) == Ok(Named(t, Image(m[x := Value(l)])))
  {
    Opened(t, m, [x], [l]);
    hide Named, ApplyAll;
    assert [x][1..] == [] && [l][1..] == [];
    assert CloseAll(t, []) == t && CloseAll(t, [x]) == ClosureExpr(t, x);
    assert Bound([], []) == Nil && Bound([x], [l]) == One(Lit(l));
    assert BindAll(m[x := Value(l)], [], []) == m[x := Value(l)];
  }

  // ----- pattern matching -----

  /** Scrutinees alike, captures alike. */
  function TriedTerms(ts: List<Tried>): List<Matched> {
    match ts case Nil => Nil case Cons(t, rest) => Cons(Matched(Term(t.o), t.caps), TriedTerms(rest))
  }

  lemma TriedAlike(ts: List<Tried>)
    ensures MatchedReturn(TriedTerms(ts)) == if StopTried(ts).Some? then Some(Term(StopTried(ts).value)) else None
    ensures Captures(TriedTerms(ts)) == AllCaptured(ts)
  {
    if ts.Cons? { TriedAlike(ts.tail); }
  }

  lemma {:induction false} MeansMatches(p: Program, env: Env, es: List<SExpr>, pats: seq<Pattern>, ctxt: set<string>,
                                        m: Scope, k: nat)
    requires Elaborated(p, env) && ElabList(es, ctxt).Ok? && "_" !in m
    ensures var r := RunMatches(p, es, pats, m, k);
      EvalMatches(env, NamedList(ElabList(es, ctxt).value, Image(m)), pats, k)
      == if r.Ok? then Ok(TriedTerms(r.value)) else Err(r.error)
    decreases k, 1, es, 0
  {
    if es.Cons? {
      Means(p, env, es.head, ctxt, m, k);
      if pats != [] { MeansMatches(p, env, es.tail, pats[1..], ctxt, m, k); }
    }
  }

  /** The captured names, bound to what was captured. */
  lemma {:induction false} CapturedNames(t: Expr, m: Scope, names: seq<Name>, caps: map<string, Literal>)
    requires Closed(t, 0) && "_" !in m
    ensures var us, n := CapturedArgs(names, caps), CapturedScope(m, names, caps);
      && (us.Some? <==> n.Some?)
      && (n.Some? ==>
            && "_" !in n.value
            && ApplyAll(Named(CloseAll(t, names), Image(m)), us.value) == Ok(Named(t, Image(n.value))))
  {
    if CapturedArgs(names, caps).Some? {
      var lits := CapturedLits(names, caps);
      CapturedBound(names, caps);
      CapturedBinds(m, names, caps);
      Opened(t, m, names, lits);
    } else {
      CapturedNone(m, names, caps);
    }
  }

  function CapturedLits(names: seq<Name>, caps: map<string, Literal>): (ls: seq<Literal>)
    requires CapturedArgs(names, caps).Some?
    ensures |ls| == |names|
  {
    if names == [] then [] else [caps[names[0]]] + CapturedLits(names[1..], caps)
  }

  lemma CapturedBound(names: seq<Name>, caps: map<string, Literal>)
    requires CapturedArgs(names, caps).Some?
    ensures CapturedArgs(names, caps).value == Bound(names, CapturedLits(names, caps))
  {
    if names != [] {
      CapturedBound(names[1..], caps);
      assert CapturedLits(names, caps)[1..] == CapturedLits(names[1..], caps);
    }
  }

  lemma CapturedBinds(m: Scope, names: seq<Name>, caps: map<string, Literal>)
    requires CapturedArgs(names, caps).Some?
    ensures CapturedScope(m, names, caps) == Some(BindAll(m, names, CapturedLits(names, caps)))
    decreases |names|
  {
    if names != [] {
      CapturedBinds(m[names[0] := Value(caps[names[0]])], names[1..], caps);
      assert CapturedLits(names, caps)[1..] == CapturedLits(names[1..], caps);
    }
  }

  lemma CapturedNone(m: Scope, names: seq<Name>, caps: map<string, Literal>)
    requires CapturedArgs(names, caps).None?
    ensures CapturedScope(m, names, caps).None?
    decreases |names|
  {
    if names[0] in caps { CapturedNone(m[names[0] := Value(caps[names[0]])], names[1..], caps); }
  }

  lemma PutAppended(a: List<Expr>, b: List<Expr>, m: map<string, Expr>)
    ensures NamedList(Appended(a, b), m) == Appended(NamedList(a, m), NamedList(b, m))
  {}

  lemma IfMatchAlike(env: Env, vs: seq<string>, pats: seq<Pattern>, hasAlt: bool, c: Expr, alt: List<Expr>,
                     scruts: List<Expr>, k: nat)
    requires if hasAlt then alt.Cons? && alt.tail.Nil? else alt.Nil?
    ensures EvalIfMatch(env, vs, pats, hasAlt, Cons(c, Appended(alt, scruts)), k)
         == var r := EvalMatches(env, scruts, pats, k);
            if r.Err? then Err(r.error)
            else if MatchedReturn(r.value).Some? then Ok(MatchedReturn(r.value).value)
            else if Captures(r.value).None? then EvalAlt(env, alt, k)
            else EvalApplied(env, c, CapturedArgs(vs, Captures(r.value).value), k)
  {
    if hasAlt { assert Appended(alt, scruts) == Cons(alt.head, scruts); }
    hide Eval, EvalMatches, EvalApplied;
  }

  lemma {:induction false} MeansIfMatch(p: Program, env: Env, e: SExpr, ctxt: set<string>, m: Scope, k: nat)
    requires Elaborated(p, env) && e.SIfMatch? && Elab(e, ctxt).Ok? && "_" !in m
    ensures Eval(env, Named(Elab(e, ctxt).value, Image(m)), k) == Lift(RunExpr(p, e, m, k))
    decreases k, 1, e, 0
  {
    var inner := ctxt + Names(e.names);
    var xs, t, o := ElabList(e.scrutinees, ctxt).value, ElabBlock(e.thenBlock, inner).value, ElabAlt(e.alt, ctxt).value;
    var c, i := CloseAll(t, e.names), Image(m);
    MeansMatches(p, env, e.scrutinees, e.pats, ctxt, m, k);
    MeansAlt(p, env, e.alt, ctxt, m, k);
    NodeRuns(env, IfMatchExpr(e.names, e.pats, e.alt.Some?), Cons(c, Appended(o, xs)), i, k);
    PutAppended(o, xs, i);
    var r := RunMatches(p, e.scrutinees, e.pats, m, k);
    IfMatchAlike(env, e.names, e.pats, e.alt.Some?, Named(c, i), NamedList(o, i), NamedList(xs, i), k);
    if r.Ok? {
      TriedAlike(r.value);
      var caps := AllCaptured(r.value);
      if StopTried(r.value).None? && caps.Some? {
        ElabClosed(e.thenBlock, inner);
        CapturedNames(t, m, e.names, caps.value);
        var n := CapturedScope(m, e.names, caps.value);
        if n.Some? {
          CapturedValues(e.names, caps.value);
          MeansBody(p, env, e.thenBlock, inner, n.value, Named(c, i), CapturedArgs(e.names, caps.value).value, k);
        }
      }
    }
  }

  // ----- blocks -----

  /** A block of statements is never empty when there is a statement. */
  lemma BlockNotEmpty(b: List<SStmt>, ctxt: set<string>)
    requires b.Cons? && ElabBlock(b, ctxt).Ok?
    ensures ElabBlock(b, ctxt).value != Node(BlockExpr(StmtBlock), Nil)
  {
    if b.head.SDo? && b.tail.Nil? && b.head.e.SIter? { assert Elab(b.head.e, ctxt) == ElabIter(b.head.e, ctxt); }
  }

  /** A statement before the rest of its block, spliced or not. */
  lemma SequenceRuns(env: Env, x: Expr, y: Expr, m: map<string, Expr>, k: nat)
    requires y != Node(BlockExpr(StmtBlock), Nil)
    ensures var v := Eval(env, Named(x, m), k);
      Eval(env, Named(Sequence(x, y), m), k)
      == if v.Ok? && !IsReturn(v.value) then Eval(env, Named(y, m), k) else v
  {
    var es := if y.Node? && y.tag == BlockExpr(StmtBlock) then Cons(x, y.subs) else Two(x, y);
    NodeRuns(env, BlockExpr(StmtBlock), es, m, k);
    PutFew(x, y, y, m);
    if y.Node? && y.tag == BlockExpr(StmtBlock) { NodeRuns(env, y.tag, y.subs, m, k); }
    else { assert EvalBlock(env, One(Named(y, m)), k) == Eval(env, Named(y, m), k); }
  }

  lemma {:induction false} MeansBlock(p: Program, env: Env, b: List<SStmt>, ctxt: set<string>, m: Scope, k: nat)
    requires Elaborated(p, env) && ElabBlock(b, ctxt).Ok? && "_" !in m
    ensures Eval(env, Named(ElabBlock(b, ctxt).value, Image(m)), k) == Lift(RunBlock(p, b, m, k))
    decreases k, 1, b, 0, 0
  {
    var i := Image(m);
    match b
    case Nil =>
      NodeRuns(env, BlockExpr(StmtBlock), Nil, i, k);
    case Cons(SReturn(e), _) =>
      Means(p, env, e, ctxt, m, k);
      ReturnRuns(env, Elab(e, ctxt).value, i, k);
    case Cons(SDo(e, _), rest) =>
      Means(p, env, e, ctxt, m, k);
      if rest.Cons? {
        MeansBlock(p, env, rest, ctxt, m, k);
        BlockNotEmpty(rest, ctxt);
        SequenceRuns(env, Elab(e, ctxt).value, ElabBlock(rest, ctxt).value, i, k);
      }
    case Cons(SLet(ids, e), rest) =>
      Means(p, env, e, ctxt, m, k);
      MeansLet(p, env, ids, e, rest, ctxt, m, k);
  }

  lemma ReturnRuns(env: Env, x: Expr, m: map<string, Expr>, k: nat)
    ensures Eval(env, Named(Node(BlockExpr(StmtBlock), One(ReturnOf(x))), m), k)
         == match Eval(env, Named(x, m), k) case Ok(v) => Ok(ReturnOf(v)) case Err(err) => Err(err)
  {
    PutFew(x, x, x, m);
    PutFew(ReturnOf(x), x, x, m);
    NodeRuns(env, BlockExpr(StmtBlock), One(ReturnOf(x)), m, k);
    var y := Named(x, m);
    assert Named(ReturnOf(x), m) == ReturnOf(y);
    assert EvalBlock(env, One(ReturnOf(y)), k) == Eval(env, ReturnOf(y), k);
  }

  lemma {:induction false} MeansLet(p: Program, env: Env, ids: seq<string>, e: SExpr, rest: List<SStmt>,
                                    ctxt: set<string>, m: Scope, k: nat)
    requires Elaborated(p, env) && ElabBlock(Cons(SLet(ids, e), rest), ctxt).Ok? && "_" !in m
    requires Eval(env, Named(Elab(e, ctxt).value, Image(m)), k) == Lift(RunExpr(p, e, m, k))
    ensures Eval(env, Named(ElabBlock(Cons(SLet(ids, e), rest), ctxt).value, Image(m)), k)
         == Lift(RunBlock(p, Cons(SLet(ids, e), rest), m, k))
    decreases k, 1, rest, 2, 0
  {
    var i, inner := Image(m), ctxt + Names(ids);
    var x, t, r := Elab(e, ctxt).value, ElabBlock(rest, inner).value, RunExpr(p, e, m, k);
    if ids == ["_"] {
      MeansBlock(p, env, rest, inner, m, k);
      BlockAlike(env, x, t, i, k);
    } else {
      var c := CloseAll(t, ids);
      NodeRuns(env, Let(ids), Two(x, c), i, k);
      PutFew(x, c, c, i);
      LetAlike(env, ids, Named(x, i), Named(c, i), k);
      if r.Ok? && r.value.Value? {
        ElabClosed(rest, inner);
        LetNames(t, m, ids, r.value.l);
        var n := LetScope(m, ids, r.value.l);
        if n.Some? {
          BoundArgs(ids, r.value.l);
          MeansBody(p, env, rest, inner, n.value, Named(c, i), LetArgs(ids, r.value.l).value, k);
        }
      }
    }
  }

  /** A statement and what follows it, as one expression. */
  lemma BlockAlike(env: Env, x: Expr, t: Expr, i: map<string, Expr>, k: nat)
    ensures Eval(env, Named(Node(BlockExpr(StmtBlock), Two(x, t)), i), k)
         == match Eval(env, Named(x, i), k)
            case Err(err) => Err(err)
            case Ok(v) => if IsReturn(v) then Ok(v) else Eval(env, Named(t, i), k)
  {
    NodeRuns(env, BlockExpr(StmtBlock), Two(x, t), i, k);
    PutFew(x, t, t, i);
    assert EvalBlock(env, One(Named(t, i)), k) == Eval(env, Named(t, i), k);
  }

  lemma LetAlike(env: Env, ids: seq<string>, a: Expr, c: Expr, k: nat)
    ensures var v := Eval(env, a, k);
      EvalLet(env, ids, Two(a, c), k)
      == if v.Err? || IsReturn(v.value) then v else EvalApplied(env, c, LetArgs(ids, v.value.lit), k)
  {
    hide Eval, EvalApplied;
  }

  lemma BoundArgs(ids: seq<string>, l: Literal)
    ensures LetArgs(ids, l).Some? ==> AllValues(LetArgs(ids, l).value)
    ensures IterArgs(ids, l).Some? ==> AllValues(IterArgs(ids, l).value)
  {
    if l.TupleLit? && |ids| == |l.items| { BoundValues(ids, l.items); }
    if |ids| == 1 { BoundValues(ids, [l]); }
  }

  lemma LetNames(t: Expr, m: Scope, ids: seq<string>, l: Literal)
    requires Closed(t, 0) && "_" !in m && ids != ["_"]
    ensures var us, n := LetArgs(ids, l), LetScope(m, ids, l);
      && (us.Some? <==> n.Some?)
      && (n.Some? ==>
            && "_" !in n.value
            && ApplyAll(Named(CloseAll(t, ids), Image(m)), us.value) == Ok(Named(t, Image(n.value))))
  {
    if |ids| == 1 {
      assert ids == [ids[0]] && ids[0] != "_";
      OneName(t, m, ids[0], l);
      assert CloseAll(t, ids[1..]) == t && CloseAll(t, ids) == ClosureExpr(t, ids[0]);
    } else if l.TupleLit? && |l.items| >= 2 && |ids| == |l.items| {
      Opened(t, m, ids, l.items);
    }
  }

  // ----- iterations -----

  function AccTerm(acc: Option<(Name, Outcome)>): (e: Option<Expr>)
    ensures e.Some? ==> IsValue(e.value)
  {
    if acc.Some? then Some(Term(acc.value.1)) else None
  }

  function LiftEach(r: Result<(List<Outcome>, Option<Outcome>)>): Result<(List<Expr>, Option<Expr>)> {
    match r
    case Ok((os, last)) => Ok((TermList(os), if last.Some? then Some(Term(last.value)) else None))
    case Err(err) => Err(err)
  }

  /** What an iteration binds, the accumulator outermost. */
  function IterNames(acc: Option<(Name, Outcome)>, ids: seq<string>): seq<string> {
    if acc.Some? then [acc.value.0] + ids else ids
  }

  function AccScope(m: Scope, acc: Option<(Name, Outcome)>): Scope {
    if acc.Some? then m[acc.value.0 := acc.value.1] else m
  }

  lemma ElementNames(t: Expr, m: Scope, acc: Option<(Name, Outcome)>, ids: seq<string>, l: Literal)
    requires Closed(t, 0) && "_" !in m
    ensures var us, n := IterArgs(ids, l), ElementScope(AccScope(m, acc), ids, l);
      && (us.Some? <==> n.Some?)
      && (n.Some? ==>
            && "_" !in n.value && AllValues(AccArgs(AccTerm(acc), us.value))
            && ApplyAll(Named(CloseAll(t, IterNames(acc, ids)), Image(m)), AccArgs(AccTerm(acc), us.value))
               == Ok(Named(t, Image(n.value))))
  {
    hide Closed, Named, ApplyAll, CloseAll, BindAll, Bound;
    BoundArgs(ids, l);
    if IterArgs(ids, l).Some? {
      var lits := if |ids| == 1 then [l] else l.items;
      if acc.Some? { OpenedBelow(t, m, acc.value.0, acc.value.1, ids, lits); } else { Opened(t, m, ids, lits); }
    }
  }

  lemma {:induction false} MeansEach(p: Program, env: Env, ids: seq<string>, acc: Option<(Name, Outcome)>,
                                     lits: seq<Literal>, body: List<SStmt>, ctxt: set<string>, m: Scope, k: nat)
    requires Elaborated(p, env) && ElabBlock(body, ctxt).Ok? && "_" !in m
    ensures IterLoop(env, ids, lits, Named(CloseAll(ElabBlock(body, ctxt).value, IterNames(acc, ids)), Image(m)),
                     AccTerm(acc), k)
         == LiftEach(RunEach(p, ids, acc, lits, body, m, k))
    decreases k, 1, body, 2, |lits|
  {
    hide IterLoop, ElabBlock, CloseAll, Named, EvalApplied, RunBlock, ElementScope, IterArgs;
    EachAlike(env, ids, lits, Named(CloseAll(ElabBlock(body, ctxt).value, IterNames(acc, ids)), Image(m)), AccTerm(acc),
              k);
    if lits != [] {
      var t := ElabBlock(body, ctxt).value;
      var c, us := Named(CloseAll(t, IterNames(acc, ids)), Image(m)), IterArgs(ids, lits[0]);
      ElabClosed(body, ctxt);
      ElementNames(t, m, acc, ids, lits[0]);
      if us.Some? {
        var n := ElementScope(AccScope(m, acc), ids, lits[0]).value;
        MeansBody(p, env, body, ctxt, n, c, AccArgs(AccTerm(acc), us.value), k);
        var r := RunBlock(p, body, n, k);
        if r.Ok? {
          var next := if acc.Some? then Some((acc.value.0, r.value)) else None;
          MeansEach(p, env, ids, next, lits[1..], body, ctxt, m, k);
        }
      }
    }
  }

  lemma EachAlike(env: Env, ids: seq<string>, lits: seq<Literal>, c: Expr, acc: Option<Expr>, k: nat)
    requires acc.Some? ==> IsValue(acc.value)
    ensures lits == [] ==> IterLoop(env, ids, lits, c, acc, k) == Ok((Nil, acc))
    ensures lits != [] ==>
      var us := IterArgs(ids, lits[0]);
      if us.None? then IterLoop(env, ids, lits, c, acc, k) == Err(Failed)
      else
        var v := EvalApplied(env, c, Some(AccArgs(acc, us.value)), k);
        if v.Err? then IterLoop(env, ids, lits, c, acc, k) == Err(v.error)
        else
          var rest := IterLoop(env, ids, lits[1..], c, if acc.Some? then Some(v.value) else None, k);
          IterLoop(env, ids, lits, c, acc, k)
          == if rest.Err? then Err(rest.error) else Ok((Cons(v.value, rest.value.0), rest.value.1))
  {
    hide EvalApplied;
  }

  lemma CollectedAlike(op: IterOp, lits: seq<Literal>, os: List<Outcome>, last: Option<Outcome>)
    ensures IterResult(op, lits, TermList(os), if last.Some? then Some(Term(last.value)) else None)
         == Lift(Collected(op, lits, os, last))
  {
    hide Collect;
    StopFirst(os);
  }

  lemma {:induction false} MeansLoop(p: Program, env: Env, op: IterOp, ids: seq<string>, acc: Option<(Name, Outcome)>,
                                     lits: seq<Literal>, body: List<SStmt>, ctxt: set<string>, m: Scope, k: nat)
    requires Elaborated(p, env) && ElabBlock(body, ctxt).Ok? && "_" !in m
    ensures EvalIter(env, op, ids, lits, Named(CloseAll(ElabBlock(body, ctxt).value, IterNames(acc, ids)), Image(m)),
                     AccTerm(acc), k)
         == Lift(RunLoop(p, op, ids, acc, lits, body, m, k))
    decreases k, 1, body, 3, 0
  {
    hide IterResult, Collected;
    MeansEach(p, env, ids, acc, lits, body, ctxt, m, k);
    var r := RunEach(p, ids, acc, lits, body, m, k);
    if r.Ok? { CollectedAlike(op, lits, r.value.0, r.value.1); }
  }

  lemma {:induction false} MeansIter(p: Program, env: Env, e: SExpr, ctxt: set<string>, m: Scope, k: nat)
    requires Elaborated(p, env) && e.SIter? && Elab(e, ctxt).Ok? && "_" !in m
    ensures Eval(env, Named(Elab(e, ctxt).value, Image(m)), k) == Lift(RunExpr(p, e, m, k))
    decreases k, 1, e, 0
  {
    assert Elab(e, ctxt) == ElabIter(e, ctxt);
    var x, i, r := Elab(e.e, ctxt).value, Image(m), RunExpr(p, e.e, m, k);
    Means(p, env, e.e, ctxt, m, k);
    match e.acc
    case None =>
      var t := ElabBlock(e.body, ctxt + Names(e.ids)).value;
      NodeRuns(env, Iter(e.iop, e.ids, None), Two(x, CloseAll(t, e.ids)), i, k);
      PutFew(x, CloseAll(t, e.ids), x, i);
      if r.Ok? && r.value.Value? && r.value.l.ListLit? {
        MeansLoop(p, env, e.iop, e.ids, None, r.value.l.items, e.body, ctxt + Names(e.ids), m, k);
      }
    case Some((n, init)) =>
      var inner := ctxt + Names(e.ids) + {n};
      var t, a := ElabBlock(e.body, inner).value, Elab(init, ctxt).value;
      var c := CloseAll(t, [n] + e.ids);
      Means(p, env, init, ctxt, m, k);
      NodeRuns(env, Iter(e.iop, e.ids, Some(n)), Three(x, c, a), i, k);
      PutFew(x, c, a, i);
      var s := RunExpr(p, init, m, k);
      if r.Ok? && r.value.Value? && r.value.l.ListLit? && s.Ok? {
        MeansLoop(p, env, e.iop, e.ids, Some((n, s.value)), r.value.l.items, e.body, inner, m, k);
      }
  }

  // ----- calls -----

  /** Literal arguments, one for each parameter. */
  lemma ArgsBound(os: List<Outcome>, ps: seq<Name>)
    requires Stop(os).None?
    ensures Length(TermList(os)) == |Values(os)|
    ensures |Values(os)| == |ps| ==> TermList(os) == Bound(ps, Values(os))
    decreases os
  {
    if os.Cons? && ps != [] { ArgsBound(os.tail, ps[1..]); }
    if os.Cons? { ArgsBound(os.tail, []); }
  }

  lemma {:induction false} MeansDecl(p: Program, env: Env, fn: string, os: List<Outcome>, isAsync: bool, k: nat)
    requires Elaborated(p, env) && fn in p.decls && Stop(os).None?
    ensures EvalCall(env, fn, isAsync, TermList(os), k) == Lift(RunDecl(p, p.decls[fn], Values(os), k))
    decreases k, 0, 0
  {
    hide ElabBlock, Named, ApplyAll, BindAll, Bound, RunBlock, Params;
    var d, us, args := p.decls[fn], TermList(os), Values(os);
    assert ElabDecl(d) == Ok(env.code[fn]);
    StopFirst(os);
    ArgsBound(os, d.params);
    DeclIsScoped(d);
    if |args| > |d.params| {
      OverApplied(env.code[fn], us);
    } else if |args| < |d.params| {
      UnderApplied(env.code[fn], us);
    } else {
      var t, n := ElabBlock(d.body, Names(d.params)).value, BindAll(map[], d.params, args);
      ElabClosed(d.body, Names(d.params));
      Opened(t, map[], d.params, args);
      NamedNothing(CloseAll(t, d.params));
      assert Image(map[]) == map[];
      if k > 0 { MeansBlock(p, env, d.body, Names(d.params), n, k - 1); }
    }
  }

  lemma {:induction false} MeansCall(p: Program, env: Env, e: SExpr, ctxt: set<string>, m: Scope, k: nat)
    requires Elaborated(p, env) && e.SCall? && Elab(e, ctxt).Ok? && "_" !in m
    ensures Eval(env, Named(Elab(e, ctxt).value, Image(m)), k) == Lift(RunExpr(p, e, m, k))
    decreases k, 1, e, 0
  {
    MeansAll(p, env, e.args, ctxt, m, k);
    NodeRuns(env, CallExpr(e.fn, e.isAsync), ElabList(e.args, ctxt).value, Image(m), k);
    var r := RunAll(p, e.args, m, k);
    if r.Ok? { CallAlike(p, env, e.fn, r.value, e.isAsync, k); }
  }

  lemma {:induction false} CallAlike(p: Program, env: Env, fn: string, os: List<Outcome>, isAsync: bool, k: nat)
    requires Elaborated(p, env)
    ensures EvalCall(env, fn, isAsync, TermList(os), k) == Lift(RunCall(p, fn, os, isAsync, k))
    decreases k, 0, 1
  {
    StopFirst(os);
    if Stop(os).None? && fn in p.decls { MeansDecl(p, env, fn, os, isAsync, k); }
  }

  // ----- whole programs -----

  /** Literal arguments. */
  function Given(ls: seq<Literal>): (os: List<Outcome>)
    ensures Stop(os).None? && Values(os) == ls
  {
    if ls == [] then Nil else Cons(Value(ls[0]), Given(ls[1..]))
  }

  lemma GivenTerms(ls: seq<Literal>)
    ensures TermList(Given(ls)) == ToList(Lits(ls))
  {
    if ls != [] {
      GivenTerms(ls[1..]);
      assert Lits(ls)[1..] == Lits(ls[1..]);
    }
  }

  /** Calling any function of an elaborated program gives what the program means,
      value or error. */
  lemma ProgramMeans(p: Program, env: Env, fn: string, ls: seq<Literal>, k: nat)
    requires Elaborated(p, env)
    ensures Eval(env, CallOn(fn, ls), k) == Lift(RunCall(p, fn, Given(ls), false, k))
  {
    GivenTerms(ls);
    EvalArgs(env, Lits(ls), k);
    CallFirst(env, fn, false, ToList(Lits(ls)), k);
    CallAlike(p, env, fn, Given(ls), false, k);
    hide Eval, EvalList;
  }

  /** From text to proxy: what the declared global function means for this service,
      that peer and that request is what the compiled policy computes. */
  lemma CompiledMeans(j: Job, p: Program, k: nat, l: Literal)
    requires WellFormed(j) && Trusted(j) && CompileFunction(j.pol, j.fn, j.egress, j.own, j.fuel).Ok?
    requires Elaborated(p, Then(j)) && RunCall(p, j.fn, Given(GlobalArgs(j)), false, k) == Ok(Value(l))
    ensures var c := CompileFunction(j.pol, j.fn, j.egress, j.own, j.fuel).value;
      Eval(CompiledEnv(Then(j), j.fn, c.code), CallOn(j.fn, j.rest), k) == Ok(Lit(l))
  {
    hide WellFormed, Trusted, CompileFunction, Elaborated, RunCall;
    ProgramMeans(p, Then(j), j.fn, GlobalArgs(j), k);
    CompiledPolicyAgrees(j, k, Lit(l));
  }
}
