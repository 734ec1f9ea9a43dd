/** From parsed declarations to core expressions, the scoping side
    (src/armour-lang/src/expressions.rs:800-1542). Types are left out: every
    program the source accepts is accepted here. */
module Elaborate {
  import opened Prelude
  import opened Syntax
  import opened Terms
  import opened TermLaws
  import opened TermProps
  import opened Interpret
  import opened Scope
  import opened Compile
  import opened CallGraph

  /** What the lexer takes for an identifier: `_` is a token of its own and only
      stands where something is bound. */
  type Name = s: string | s != "_" witness "x"

  /** Lists and tuples: blocks of statements only stand where a body is. */
  type GroupKind = k: BlockKind | k != StmtBlock witness ListBlock

  datatype SExpr =
    | SIdent(id: Name)
    | SLit(lit: Literal)
    | SGroup(kind: GroupKind, items: List<SExpr>)
    | SPrefix(pre: Prefix, e: SExpr)
    | SInfix(op: Infix, left: SExpr, right: SExpr)
    | SIf(cond: SExpr, thenBlock: List<SStmt>, alt: Option<List<SStmt>>)
    | SIfSome(x: Name, e: SExpr, thenBlock: List<SStmt>, alt: Option<List<SStmt>>)
    | SIfMatch(scrutinees: List<SExpr>, pats: seq<Pattern>, names: seq<Name>, thenBlock: List<SStmt>,
               alt: Option<List<SStmt>>)
    | SIter(iop: IterOp, ids: seq<string>, e: SExpr, body: List<SStmt>, acc: Option<(Name, SExpr)>)
    | SCall(fn: string, args: List<SExpr>, isAsync: bool)

  datatype SStmt =
    | SReturn(e: SExpr)
    | SDo(e: SExpr, semi: bool)
    | SLet(ids: seq<string>, e: SExpr)

  // ----- elaboration -----

  function Names(vs: seq<string>): set<string> { set v | v in vs }

  function LetOf(body: Expr, vs: seq<string>, rhs: Expr): Expr {
    if vs == ["_"] then Node(BlockExpr(StmtBlock), Two(rhs, body)) else Node(Let(vs), Two(rhs, CloseAll(body, vs)))
  }

  /** A statement before the rest of its block, which is spliced if it is a block. */
  function Sequence(e: Expr, rest: Expr): Expr {
    Node(BlockExpr(StmtBlock),
         if rest.Node? && rest.tag == BlockExpr(StmtBlock) then Cons(e, rest.subs) else Two(e, rest))
  }

  function Elab(e: SExpr, ctxt: set<string>): Result<Expr>
    decreases e, 1
  {
    match e
    case SIdent(x) => if x in ctxt then Ok(Var(x)) else Err(Failed)
    case SLit(l) => Ok(Lit(l))
    case SGroup(kind, items) =>
      (match ElabList(items, ctxt) case Ok(es) => Ok(Node(BlockExpr(kind), es)) case Err(err) => Err(err))
    case SPrefix(p, a) => (match Elab(a, ctxt) case Ok(x) => Ok(Node(PrefixExpr(p), One(x))) case Err(err) => Err(err))
    case SInfix(op, a, b) =>
      (match (Elab(a, ctxt), Elab(b, ctxt))
       case (Ok(x), Ok(y)) => Ok(Node(InfixExpr(op), Two(x, y)))
       case _ => Err(Failed))
    case SIf(cond, b, alt) =>
      (match (Elab(cond, ctxt), ElabBlock(b, ctxt), ElabAlt(alt, ctxt))
       case (Ok(c), Ok(t), Ok(a)) => Ok(Node(IfExpr, Cons(c, Cons(t, a))))
       case _ => Err(Failed))
    case SIfSome(v, a, b, alt) =>
      (match (Elab(a, ctxt), ElabBlock(b, ctxt + {v}), ElabAlt(alt, ctxt))
       case (Ok(x), Ok(t), Ok(o)) => Ok(Node(IfSomeMatchExpr, Cons(x, Cons(ClosureExpr(t, v), o))))
       case _ => Err(Failed))
    case SIfMatch(scruts, pats, names, b, alt) =>
      (match (ElabList(scruts, ctxt), ElabBlock(b, ctxt + Names(names)), ElabAlt(alt, ctxt))
       case (Ok(xs), Ok(t), Ok(o)) =>
         Ok(Node(IfMatchExpr(names, pats, alt.Some?), Cons(CloseAll(t, names), Appended(o, xs))))
       case _ => Err(Failed))
    case SIter(_, _, _, _, _) => ElabIter(e, ctxt)
    case SCall(fn, args, isAsync) =>
      (match ElabList(args, ctxt) case Ok(es) => Ok(Node(CallExpr(fn, isAsync), es)) case Err(err) => Err(err))
  }

  function Appended(a: List<Expr>, b: List<Expr>): List<Expr> {
    match a case Nil => b case Cons(x, rest) => Cons(x, Appended(rest, b))
  }

  function ElabList(es: List<SExpr>, ctxt: set<string>): Result<List<Expr>>
    decreases es, 0
  {
    match es
    case Nil => Ok(Nil)
    case Cons(e, rest) =>
      match (Elab(e, ctxt), ElabList(rest, ctxt))
      case (Ok(x), Ok(xs)) => Ok(Cons(x, xs))
      case _ => Err(Failed)
  }

  function ElabAlt(alt: Option<List<SStmt>>, ctxt: set<string>): Result<List<Expr>>
    decreases alt, 0
  {
    match alt
    case None => Ok(Nil)
    case Some(b) => match ElabBlock(b, ctxt) case Ok(x) => Ok(One(x)) case Err(err) => Err(err)
  }

  /** A fold has an accumulator, bound outside the variables, and nothing else has. */
  function ElabIter(e: SExpr, ctxt: set<string>): Result<Expr>
    requires e.SIter?
    decreases e, 0
  {
    match e.acc
    case None =>
      if e.iop == Fold then Err(Failed)
      else (match (Elab(e.e, ctxt), ElabBlock(e.body, ctxt + Names(e.ids)))
        case (Ok(x), Ok(t)) => Ok(Node(Iter(e.iop, e.ids, None), Two(x, CloseAll(t, e.ids))))
        case _ => Err(Failed))
    case Some((n, init)) =>
      if e.iop != Fold then Err(Failed)
      else match (Elab(e.e, ctxt), ElabBlock(e.body, ctxt + Names(e.ids) + {n}), Elab(init, ctxt))
        case (Ok(x), Ok(t), Ok(i)) => Ok(Node(Iter(e.iop, e.ids, Some(n)), Three(x, CloseAll(t, [n] + e.ids), i)))
        case _ => Err(Failed)
  }

  function ElabBlock(b: List<SStmt>, ctxt: set<string>): Result<Expr>
    decreases b, 0
  {
    match b
    case Nil => Ok(Node(BlockExpr(StmtBlock), Nil))
    case Cons(SReturn(e), rest) =>
      if rest.Cons? then Err(Failed)
      else (match Elab(e, ctxt)
        case Ok(x) => Ok(Node(BlockExpr(StmtBlock), One(ReturnOf(x))))
        case Err(err) => Err(err))
    case Cons(SDo(e, semi), rest) =>
      if rest.Nil? then Elab(e, ctxt)
      else if !semi then Err(Failed)
      else (match (Elab(e, ctxt), ElabBlock(rest, ctxt))
        case (Ok(x), Ok(y)) => Ok(Sequence(x, y))
        case _ => Err(Failed))
    case Cons(SLet(ids, e), rest) =>
      match (Elab(e, ctxt), ElabBlock(rest, ctxt + Names(ids)))
      case (Ok(x), Ok(y)) => Ok(LetOf(y, ids, x))
      case _ => Err(Failed)
  }

  datatype SDecl = SDecl(name: string, params: seq<Name>, body: List<SStmt>)

  function ElabDecl(d: SDecl): Result<Expr> {
    match ElabBlock(d.body, Names(d.params))
    case Ok(e) => Ok(CloseAll(e, d.params))
    case Err(err) => Err(err)
  }

  // ----- which programs are accepted -----

  /** The identifiers an expression uses that are not bound in it. */
  function Free(e: SExpr): set<string> {
    match e
    case SIdent(x) => {x}
    case SLit(_) => {}
    case SGroup(_, items) => FreeList(items)
    case SPrefix(_, a) => Free(a)
    case SInfix(_, a, b) => Free(a) + Free(b)
    case SIf(c, b, alt) => Free(c) + FreeBlock(b) + FreeAlt(alt)
    case SIfSome(v, a, b, alt) => Free(a) + (FreeBlock(b) - {v}) + FreeAlt(alt)
    case SIfMatch(es, _, names, b, alt) => FreeList(es) + (FreeBlock(b) - Names(names)) + FreeAlt(alt)
    case SIter(_, ids, a, b, None) => Free(a) + (FreeBlock(b) - Names(ids))
    case SIter(_, ids, a, b, Some((n, init))) => Free(a) + (FreeBlock(b) - Names(ids) - {n}) + Free(init)
    case SCall(_, args, _) => FreeList(args)
  }

  function FreeList(es: List<SExpr>): set<string> {
    match es case Nil => {} case Cons(e, rest) => Free(e) + FreeList(rest)
  }

  function FreeAlt(alt: Option<List<SStmt>>): set<string> {
    match alt case None => {} case Some(b) => FreeBlock(b)
  }

  function FreeBlock(b: List<SStmt>): set<string> {
    match b
    case Nil => {}
    case Cons(SReturn(e), rest) => Free(e) + FreeBlock(rest)
    case Cons(SDo(e, _), rest) => Free(e) + FreeBlock(rest)
    case Cons(SLet(ids, e), rest) => Free(e) + (FreeBlock(rest) - Names(ids))
  }

  /** Nothing after a `return`, semicolons between statements, accumulators on
      folds and nowhere else. */
  predicate Shaped(e: SExpr) {
    match e
    case SIdent(_) => true
    case SLit(_) => true
    case SGroup(_, items) => ShapedList(items)
    case SPrefix(_, a) => Shaped(a)
    case SInfix(_, a, b) => Shaped(a) && Shaped(b)
    case SIf(c, b, alt) => Shaped(c) && ShapedBlock(b) && ShapedAlt(alt)
    case SIfSome(_, a, b, alt) => Shaped(a) && ShapedBlock(b) && ShapedAlt(alt)
    case SIfMatch(es, _, _, b, alt) => ShapedList(es) && ShapedBlock(b) && ShapedAlt(alt)
    case SIter(op, _, a, b, None) => op != Fold && Shaped(a) && ShapedBlock(b)
    case SIter(op, _, a, b, Some((_, init))) => op == Fold && Shaped(a) && ShapedBlock(b) && Shaped(init)
    case SCall(_, args, _) => ShapedList(args)
  }

  predicate ShapedList(es: List<SExpr>) { es.Cons? ==> Shaped(es.head) && ShapedList(es.tail) }

  predicate ShapedAlt(alt: Option<List<SStmt>>) {
    match alt case None => true case Some(b) => ShapedBlock(b)
  }

  predicate ShapedBlock(b: List<SStmt>) {
    match b
    case Nil => true
    case Cons(SReturn(e), rest) => rest.Nil? && Shaped(e)
    case Cons(SDo(e, semi), rest) => (semi || rest.Nil?) && Shaped(e) && ShapedBlock(rest)
    case Cons(SLet(_, e), rest) => Shaped(e) && ShapedBlock(rest)
  }

  /** Elaboration accepts exactly the well-shaped expressions whose free
      identifiers are declared. */
  lemma {:induction false} AcceptedExactly(e: SExpr, ctxt: set<string>)
    ensures Elab(e, ctxt).Ok? <==> Shaped(e) && Free(e) <= ctxt
    decreases e
  {
    match e
    case SIdent(_) =>
    case SLit(_) =>
    case SGroup(_, items) => AcceptedListExactly(items, ctxt);
    case SPrefix(_, a) => AcceptedExactly(a, ctxt);
    case SInfix(_, a, b) => AcceptedExactly(a, ctxt); AcceptedExactly(b, ctxt);
    case SIf(c, b, alt) => AcceptedExactly(c, ctxt); AcceptedBlockExactly(b, ctxt); AcceptedAltExactly(alt, ctxt);
    case SIfSome(v, a, b, alt) =>
      AcceptedExactly(a, ctxt); AcceptedBlockExactly(b, ctxt + {v}); AcceptedAltExactly(alt, ctxt);
    case SIfMatch(es, _, names, b, alt) =>
      AcceptedListExactly(es, ctxt); AcceptedBlockExactly(b, ctxt + Names(names)); AcceptedAltExactly(alt, ctxt);
    case SIter(_, ids, a, b, None) => AcceptedExactly(a, ctxt); AcceptedBlockExactly(b, ctxt + Names(ids));
    case SIter(_, ids, a, b, Some((n, init))) =>
      AcceptedExactly(a, ctxt); AcceptedBlockExactly(b, ctxt + Names(ids) + {n}); AcceptedExactly(init, ctxt);
    case SCall(_, args, _) => AcceptedListExactly(args, ctxt);
  }

  lemma {:induction false} AcceptedListExactly(es: List<SExpr>, ctxt: set<string>)
    ensures ElabList(es, ctxt).Ok? <==> ShapedList(es) && FreeList(es) <= ctxt
    decreases es
  {
    if es.Cons? { AcceptedExactly(es.head, ctxt); AcceptedListExactly(es.tail, ctxt); }
  }

  lemma {:induction false} AcceptedAltExactly(alt: Option<List<SStmt>>, ctxt: set<string>)
    ensures ElabAlt(alt, ctxt).Ok? <==> ShapedAlt(alt) && FreeAlt(alt) <= ctxt
    decreases alt
  {
    if alt.Some? { AcceptedBlockExactly(alt.value, ctxt); }
  }

  lemma {:induction false} AcceptedBlockExactly(b: List<SStmt>, ctxt: set<string>)
    ensures ElabBlock(b, ctxt).Ok? <==> ShapedBlock(b) && FreeBlock(b) <= ctxt
    decreases b
  {
    match b
    case Nil =>
    case Cons(SReturn(e), rest) => AcceptedExactly(e, ctxt);
    case Cons(SDo(e, _), rest) => AcceptedExactly(e, ctxt); AcceptedBlockExactly(rest, ctxt);
    case Cons(SLet(ids, e), rest) => AcceptedExactly(e, ctxt); AcceptedBlockExactly(rest, ctxt + Names(ids));
  }

  // ----- what elaboration gives -----

  /** Free variables from `names`, indices below `n`. */
  predicate OpenIn(e: Expr, names: set<string>, n: nat) {
    match e
    case Var(x) => x in names
    case BVar(_, j) => j < n
    case Lit(_) => true
    case Closure(_, b) => OpenIn(b, names, n + 1)
    case Node(_, es) => OpenInList(es, names, n)
  }

  predicate OpenInList(es: List<Expr>, names: set<string>, n: nat) {
    es.Cons? ==> OpenIn(es.head, names, n) && OpenInList(es.tail, names, n)
  }

  lemma {:induction false} AbsOpen(e: Expr, names: set<string>, n: nat, v: string)
    requires OpenIn(e, names, n)
    ensures OpenIn(Abs(e, n, v), names - {v}, n + 1)
  {
    match e
    case Closure(_, b) => AbsOpen(b, names, n + 1, v);
    case Node(_, es) => AbsOpenList(es, names, n, v);
    case _ =>
  }

  lemma {:induction false} AbsOpenList(es: List<Expr>, names: set<string>, n: nat, v: string)
    requires OpenInList(es, names, n)
    ensures OpenInList(AbsList(es, n, v), names - {v}, n + 1)
  {
    if es.Cons? { AbsOpen(es.head, names, n, v); AbsOpenList(es.tail, names, n, v); }
  }

  lemma {:induction false} OpenMono(e: Expr, names: set<string>, more: set<string>, n: nat)
    requires OpenIn(e, names, n) && names <= more
    ensures OpenIn(e, more, n)
  {
    match e
    case Closure(_, b) => OpenMono(b, names, more, n + 1);
    case Node(_, es) => OpenMonoList(es, names, more, n);
    case _ =>
  }

  lemma {:induction false} OpenMonoList(es: List<Expr>, names: set<string>, more: set<string>, n: nat)
    requires OpenInList(es, names, n) && names <= more
    ensures OpenInList(es, more, n)
  {
    if es.Cons? { OpenMono(es.head, names, more, n); OpenMonoList(es.tail, names, more, n); }
  }

  /** Binding variables leaves the others free ("_" never occurs). */
  lemma CloseAllOpen(e: Expr, names: set<string>, vs: seq<string>)
    requires OpenIn(e, names, 0) && "_" !in names
    ensures OpenIn(CloseAll(e, vs), names - Names(vs), 0)
  {
    if vs == [] {
      assert names - Names(vs) == names;
    } else {
      CloseAllOpen(e, names, vs[1..]);
      var c, rest := CloseAll(e, vs[1..]), names - Names(vs[1..]);
      assert Names(vs) == Names(vs[1..]) + {vs[0]};
      assert rest - {vs[0]} == names - Names(vs);
      if vs[0] == "_" { assert rest == names - Names(vs); } else { AbsOpen(c, rest, 0, vs[0]); }
    }
  }

  function Real(ctxt: set<string>): set<string> { ctxt - {"_"} }

  lemma BodyOpen(e: Expr, ctxt: set<string>, vs: seq<string>)
    requires OpenIn(e, Real(ctxt + Names(vs)), 0)
    ensures OpenIn(CloseAll(e, vs), Real(ctxt), 0)
  {
    CloseAllOpen(e, Real(ctxt + Names(vs)), vs);
    OpenMono(CloseAll(e, vs), Real(ctxt + Names(vs)) - Names(vs), Real(ctxt), 0);
  }

  lemma AppendedOpen(a: List<Expr>, b: List<Expr>, names: set<string>)
    requires OpenInList(a, names, 0) && OpenInList(b, names, 0)
    ensures OpenInList(Appended(a, b), names, 0)
  {}

  lemma FewOpen(a: Expr, b: Expr, c: Expr, names: set<string>)
    requires OpenIn(a, names, 0)
    ensures OpenInList(One(a), names, 0)
    ensures OpenIn(b, names, 0) ==> OpenInList(Two(a, b), names, 0)
    ensures OpenIn(b, names, 0) && OpenIn(c, names, 0) ==> OpenInList(Three(a, b, c), names, 0)
  {}

  /** An elaborated expression has only declared free variables, and no dangling index. */
  lemma {:induction false} ElabOpen(e: SExpr, ctxt: set<string>)
    ensures Elab(e, ctxt).Ok? ==> OpenIn(Elab(e, ctxt).value, Real(ctxt), 0)
    decreases e, 1
  {
    if Elab(e, ctxt).Ok? {
      match e
      case SIdent(_) =>
      case SLit(_) =>
      case SGroup(_, items) => ElabListOpen(items, ctxt);
      case SPrefix(_, a) => ElabOpen(a, ctxt);
      case SInfix(_, a, b) =>
        ElabOpen(a, ctxt); ElabOpen(b, ctxt);
        FewOpen(Elab(a, ctxt).value, Elab(b, ctxt).value, Elab(a, ctxt).value, Real(ctxt));
      case SIf(c, b, alt) => ElabOpen(c, ctxt); ElabBlockOpen(b, ctxt); ElabAltOpen(alt, ctxt);
      case SIfSome(v, a, b, alt) =>
        ElabOpen(a, ctxt); ElabBlockOpen(b, ctxt + {v}); ElabAltOpen(alt, ctxt);
        var t := ElabBlock(b, ctxt + {v}).value;
        AbsOpen(t, Real(ctxt + {v}), 0, v);
        OpenMono(ClosureExpr(t, v), Real(ctxt + {v}) - {v}, Real(ctxt), 0);
      case SIfMatch(es, _, names, b, alt) =>
        ElabListOpen(es, ctxt); ElabBlockOpen(b, ctxt + Names(names)); ElabAltOpen(alt, ctxt);
        BodyOpen(ElabBlock(b, ctxt + Names(names)).value, ctxt, names);
        AppendedOpen(ElabAlt(alt, ctxt).value, ElabList(es, ctxt).value, Real(ctxt));
      case SIter(_, _, _, _, _) => ElabIterOpen(e, ctxt);
      case SCall(_, args, _) => ElabListOpen(args, ctxt);
    }
  }

  lemma {:induction false} ElabIterOpen(e: SExpr, ctxt: set<string>)
    requires e.SIter? && ElabIter(e, ctxt).Ok?
    ensures OpenIn(ElabIter(e, ctxt).value, Real(ctxt), 0)
    decreases e, 0
  {
    ElabOpen(e.e, ctxt);
    var x := Elab(e.e, ctxt).value;
    match e.acc
    case None =>
      ElabBlockOpen(e.body, ctxt + Names(e.ids));
      var t := ElabBlock(e.body, ctxt + Names(e.ids)).value;
      BodyOpen(t, ctxt, e.ids);
      FewOpen(x, CloseAll(t, e.ids), x, Real(ctxt));
    case Some((n, init)) =>
      assert Names([n] + e.ids) == Names(e.ids) + {n};
      assert ctxt + Names(e.ids) + {n} == ctxt + Names([n] + e.ids);
      ElabBlockOpen(e.body, ctxt + Names([n] + e.ids));
      ElabOpen(init, ctxt);
      var t := ElabBlock(e.body, ctxt + Names([n] + e.ids)).value;
      BodyOpen(t, ctxt, [n] + e.ids);
      FewOpen(x, CloseAll(t, [n] + e.ids), Elab(init, ctxt).value, Real(ctxt));
  }

  lemma {:induction false} ElabListOpen(es: List<SExpr>, ctxt: set<string>)
    ensures ElabList(es, ctxt).Ok? ==> OpenInList(ElabList(es, ctxt).value, Real(ctxt), 0)
    decreases es, 0
  {
    if es.Cons? { ElabOpen(es.head, ctxt); ElabListOpen(es.tail, ctxt); }
  }

  lemma {:induction false} ElabAltOpen(alt: Option<List<SStmt>>, ctxt: set<string>)
    ensures ElabAlt(alt, ctxt).Ok? ==> OpenInList(ElabAlt(alt, ctxt).value, Real(ctxt), 0)
    decreases alt, 0
  {
    if alt.Some? {
      ElabBlockOpen(alt.value, ctxt);
      var r := ElabBlock(alt.value, ctxt);
      if r.Ok? { FewOpen(r.value, r.value, r.value, Real(ctxt)); }
    }
  }

  lemma {:induction false} ElabBlockOpen(b: List<SStmt>, ctxt: set<string>)
    ensures ElabBlock(b, ctxt).Ok? ==> OpenIn(ElabBlock(b, ctxt).value, Real(ctxt), 0)
    decreases b, 0
  {
    if ElabBlock(b, ctxt).Ok? {
      match b
      case Nil =>
      case Cons(SReturn(e), _) =>
        ElabOpen(e, ctxt);
        var x := Elab(e, ctxt).value;
        FewOpen(x, x, x, Real(ctxt));
        FewOpen(ReturnOf(x), x, x, Real(ctxt));
      case Cons(SDo(e, _), rest) =>
        ElabOpen(e, ctxt);
        if rest.Cons? {
          ElabBlockOpen(rest, ctxt);
          var x, y := Elab(e, ctxt).value, ElabBlock(rest, ctxt).value;
          FewOpen(x, y, y, Real(ctxt));
        }
      case Cons(SLet(ids, e), rest) =>
        ElabOpen(e, ctxt);
        ElabBlockOpen(rest, ctxt + Names(ids));
        var x, y := Elab(e, ctxt).value, ElabBlock(rest, ctxt + Names(ids)).value;
        BodyOpen(y, ctxt, ids);
        FewOpen(x, CloseAll(y, ids), x, Real(ctxt));
        if ids == ["_"] { assert CloseAll(y, ids) == y; }
    }
  }

  lemma {:induction false} OpenNothing(e: Expr, n: nat)
    requires OpenIn(e, {}, n)
    ensures Scoped(e, n)
  {
    match e
    case Closure(_, b) => OpenNothing(b, n + 1);
    case Node(_, es) => OpenNothingList(es, n);
    case _ =>
  }

  lemma {:induction false} OpenNothingList(es: List<Expr>, n: nat)
    requires OpenInList(es, {}, n)
    ensures ScopedList(es, n)
  {
    if es.Cons? { OpenNothing(es.head, n); OpenNothingList(es.tail, n); }
  }

  /** An accepted declaration elaborates to a term without free variables or
      dangling indices that has exactly one closure per parameter. */
  lemma DeclIsScoped(d: SDecl)
    requires ElabDecl(d).Ok?
    ensures Scoped(ElabDecl(d).value, 0) && Params(ElabDecl(d).value) == d.params
  {
    var e := ElabBlock(d.body, Names(d.params)).value;
    ElabBlockOpen(d.body, Names(d.params));
    assert {} + Names(d.params) == Names(d.params);
    BodyOpen(e, {}, d.params);
    assert Real({}) == {};
    OpenNothing(CloseAll(e, d.params), 0);
    ElabNotClosure(d.body, Names(d.params));
    ParamsClosed(e, d.params);
  }

  lemma ElabNotClosure(b: List<SStmt>, ctxt: set<string>)
    ensures ElabBlock(b, ctxt).Ok? ==> !ElabBlock(b, ctxt).value.Closure?
  {
    if b.Cons? && b.head.SDo? { ExprNotClosure(b.head.e, ctxt); }
  }

  /** No text elaborates to a bare `return`: it always stands in a block. */
  lemma NoBareReturn(e: SExpr, ctxt: set<string>)
    ensures Elab(e, ctxt).Ok? ==> !IsReturn(Elab(e, ctxt).value)
  {
    if e.SIter? { assert Elab(e, ctxt) == ElabIter(e, ctxt); }
  }

  lemma ExprNotClosure(e: SExpr, ctxt: set<string>)
    ensures Elab(e, ctxt).Ok? ==> !Elab(e, ctxt).value.Closure?
  {
    if e.SIter? && e.acc.Some? { assert Elab(e, ctxt) == ElabIter(e, ctxt); }
  }

  lemma ParamsClosed(e: Expr, vs: seq<Name>)
    requires !e.Closure?
    ensures Params(CloseAll(e, vs)) == vs
  {
    if vs != [] {
      ParamsClosed(e, vs[1..]);
      AbsParams(CloseAll(e, vs[1..]), 0, vs[0]);
    }
  }

  lemma {:induction false} AbsParams(e: Expr, i: nat, v: string)
    ensures Params(Abs(e, i, v)) == Params(e)
  {
    if e.Closure? { AbsParams(e.body, i + 1, v); }
  }

  /** From text to evaluation: on a program of accepted declarations that passes
      the cycle check, no call ends in the interpreter's "eval variable" error or
      runs forever. */
  lemma AcceptedProgramsRun(env: Env, decls: map<string, SDecl>, nodes: set<string>, edges: Edges, order: seq<string>,
                            isInternal: string -> bool, fn: string, args: seq<Literal>, k: nat)
    requires env.code.Keys == decls.Keys
    requires forall f :: f in decls ==> ElabDecl(decls[f]) == Ok(env.code[f])
    requires Order(nodes, edges, order) && env.code.Keys <= nodes
    requires GraphOf(edges, env.code, isInternal) && NoClash(env.code, isInternal)
    requires k >= |order|
    ensures var r := Eval(env, CallOn(fn, args), k); r != Err(TooDeep) && r != Err(FreeVariable)
  {
    forall f | f in env.code ensures Scoped(env.code[f], 0) { DeclIsScoped(decls[f]); }
    ArgsScoped(Lits(args));
    AcceptedTerminates(env, nodes, edges, order, isInternal, true, CallOn(fn, args), k);
  }

  lemma ArgsScoped(us: seq<Expr>)
    requires forall i :: 0 <= i < |us| ==> us[i].Lit?
    ensures ScopedList(ToList(us), 0)
  {}
}
