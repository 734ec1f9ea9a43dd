/** The online partial evaluator (src/armour-control/src/specialize.rs:63-697). */
module Specialize {
  import opened Prelude
  import opened Syntax
  import opened Terms
  import opened Interpret

  /** A residual expression; `known` claims that it is already the value. */
  datatype Part = Part(known: bool, e: Expr)

  function Residuals(ps: List<Part>): List<Expr> {
    match ps
    case Nil => Nil
    case Cons(p, rest) => Cons(p.e, Residuals(rest))
  }

  predicate AllKnown(ps: List<Part>) {
    ps.Cons? ==> ps.head.known && AllKnown(ps.tail)
  }

  // ----- algebraic simplification -----

  datatype Ring = Ring(plus1: Infix, multiply1: Infix, plus2: Infix, multiply2: Infix, zero: Literal, one: Literal)

  const OR_RING: Ring := Ring(Or, And, Or, And, BoolLit(false), BoolLit(true))
  const AND_RING: Ring := Ring(And, Or, And, Or, BoolLit(true), BoolLit(false))
  const INT_RING: Ring := Ring(Plus, Multiply, Minus, Divide, Flat(Int(0)), Flat(Int(1)))
  const FLOAT_RING: Ring := Ring(Plus, Multiply, Minus, Divide, Flat(Float(0.0)), Flat(Float(1.0)))

  /** `None` when no rule of the ring applies. */
  function RingSimplification(r: Ring, op: Infix, p: Part, q: Part): Option<Part> {
    if op == r.plus1 || op == r.plus2 then
      if IsReturn(p.e) then Some(p)
      else if p.e == Lit(r.zero) then Some(q)
      else if IsReturn(q.e) then Some(q)
      else if q.e == Lit(r.zero) then Some(p)
      else None
    else if op == r.multiply1 || op == r.multiply2 then
      if IsReturn(p.e) then Some(p)
      else if p.e == Lit(r.zero) then Some(p)
      else if p.e == Lit(r.one) then Some(q)
      else if IsReturn(q.e) then Some(q)
      else if q.e == Lit(r.zero) then Some(q)
      else if q.e == Lit(r.one) then Some(p)
      else None
    else None
  }

  function OrElse(a: Option<Part>, b: Option<Part>): Option<Part> {
    if a.Some? then a else b
  }

  function Combined(op: Infix, p: Part, q: Part): Option<Part> {
    OrElse(RingSimplification(OR_RING, op, p, q),
    OrElse(RingSimplification(AND_RING, op, p, q),
    OrElse(RingSimplification(INT_RING, op, p, q),
           RingSimplification(FLOAT_RING, op, p, q))))
  }

  function Simplify(op: Infix, p: Part, q: Part): Result<Part> {
    if op == Divide && (q.e == Lit(Flat(Int(0))) || q.e == Lit(Flat(Float(0.0)))) then Err(Failed)
    else if op == Equal && p.e == q.e then Ok(Part(p.known && q.known, Lit(BoolLit(true))))
    else if op == NotEqual && p.e != q.e then Ok(Part(p.known && q.known, Lit(BoolLit(true))))
    else match Combined(op, p, q)
      case Some(r) => Ok(r)
      case None => Ok(Part(p.known && q.known, Node(InfixExpr(op), Two(p.e, q.e))))
  }

  // ----- let -----

  /** None of the indices below `n` occurs. */
  predicate AllFree(e: Expr, n: nat) {
    n > 0 ==> AllFree(e, n - 1) && IsFree(e, n - 1)
  }

  function Units(n: nat): List<Expr> {
    if n == 0 then Nil else Cons(Lit(UNIT), Units(n - 1))
  }

  // ----- partial evaluation -----

  /** `so` is the source's `simplification_only`; `fuel` bounds the recursion. */
  function PEval(env: Env, e: Expr, so: bool, fuel: nat): Result<Part>
    decreases fuel, 0, 0
  {
    if fuel == 0 then Err(TooDeep) else
    match e
    case Var(_) => Ok(Part(false, e))
    case BVar(_, _) => Ok(Part(false, e))
    case Lit(_) => Ok(Part(true, e))
    case Closure(x, b) =>
      (match PEval(env, b, so, fuel - 1)
       case Err(err) => Err(err)
       case Ok(p) => if IsFree(p.e, 0) then Ok(Part(true, p.e)) else Ok(Part(false, Closure(x, p.e))))
    case Node(tag, es) => PEvalNode(env, tag, es, so, fuel - 1)
  }

  function PEvaluate(env: Env, e: Expr, so: bool, fuel: nat): Result<Part>
    decreases fuel, 0, 1
  {
    match PEval(env, e, so, fuel)
    case Err(err) => Err(err)
    case Ok(p) => Ok(Part(p.known, StripReturn(p.e)))
  }

  function PEvalList(env: Env, es: List<Expr>, so: bool, fuel: nat): Result<List<Part>>
    decreases fuel, 1, es
  {
    match es
    case Nil => Ok(Nil)
    case Cons(e, rest) =>
      match PEval(env, e, so, fuel)
      case Err(err) => Err(err)
      case Ok(p) => match PEvalList(env, rest, so, fuel)
        case Err(err) => Err(err)
        case Ok(ps) => Ok(Cons(p, ps))
  }

  function PEvalNode(env: Env, tag: Tag, es: List<Expr>, so: bool, fuel: nat): Result<Part>
    decreases fuel, 9, 0
  {
    match tag
    case ReturnExpr => PEvalReturn(env, es, so, fuel)
    case PrefixExpr(p) => PEvalPrefix(env, p, es, so, fuel)
    case InfixExpr(op) => PEvalInfix(env, op, es, so, fuel)
    case BlockExpr(kind) =>
      if kind == StmtBlock then PEvalBlock(env, es, so, fuel) else PEvalGroup(env, kind, es, so, fuel)
    case Let(vs) => PEvalLet(env, vs, es, so, fuel)
    case Iter(op, vs, n) => PEvalIter(env, op, vs, n, es, so, fuel)
    case IfExpr => PEvalIf(env, es, so, fuel)
    case IfSomeMatchExpr => PEvalIfSome(env, es, so, fuel)
    case IfMatchExpr(vs, pats, hasAlt) => PEvalIfMatch(env, vs, pats, hasAlt, es, so, fuel)
    case CallExpr(fn, isAsync) => PEvalCall(env, fn, isAsync, es, so, fuel)
  }

  function PEvalReturn(env: Env, es: List<Expr>, so: bool, fuel: nat): Result<Part>
    decreases fuel, 5, 0
  {
    if es.Cons? && es.tail.Nil? then
      match PEval(env, es.head, so, fuel)
      case Err(err) => Err(err)
      case Ok(p) => Ok(Part(p.known, ReturnOf(p.e)))
    else Err(Failed)
  }

  function PEvalPrefix(env: Env, pre: Prefix, es: List<Expr>, so: bool, fuel: nat): Result<Part>
    decreases fuel, 5, 0
  {
    if es.Cons? && es.tail.Nil? then
      match PEval(env, es.head, so, fuel)
      case Err(err) => Err(err)
      case Ok(p) =>
        if !p.known then Ok(Part(false, Node(PrefixExpr(pre), One(p.e))))
        else if IsReturn(p.e) then Ok(p)
        else if p.e.Lit? then
          (match EvalPrefix(pre, p.e.lit) case Some(l) => Ok(Part(true, Lit(l))) case None => Err(Failed))
        else Err(Failed)
    else Err(Failed)
  }

  function PEvalInfix(env: Env, op: Infix, es: List<Expr>, so: bool, fuel: nat): Result<Part>
    decreases fuel, 5, 0
  {
    if es.Cons? && es.tail.Cons? && es.tail.tail.Nil? then
      match PEval(env, es.head, so, fuel)
      case Err(err) => Err(err)
      case Ok(p) => match PEval(env, es.tail.head, so, fuel)
        case Err(err) => Err(err)
        case Ok(q) => if p.known && q.known then InfixParts(op, p, q) else Simplify(op, p, q)
    else Err(Failed)
  }

  function InfixParts(op: Infix, p: Part, q: Part): Result<Part> {
    if IsReturn(p.e) then Ok(Part(true, p.e))
    else if IsReturn(q.e) then Ok(Part(true, q.e))
    else if p.e.Lit? && q.e.Lit? then
      match EvalInfix(op, p.e.lit, q.e.lit) case Some(l) => Ok(Part(true, Lit(l))) case None => Err(Failed)
    else Err(Failed)
  }

  function PEvalBlock(env: Env, es: List<Expr>, so: bool, fuel: nat): Result<Part>
    decreases fuel, 5, 0
  {
    if es.Nil? then Ok(Part(true, Lit(UNIT)))
    else match PEval(env, es.head, so, fuel)
      case Err(err) => Err(err)
      case Ok(p) =>
        if IsReturn(p.e) || es.tail.Nil? then Ok(p)
        else if p.known then PEval(env, Node(BlockExpr(StmtBlock), es.tail), so, fuel)
        else match PEval(env, Node(BlockExpr(StmtBlock), es.tail), true, fuel)
          case Err(err) => Err(err)
          case Ok(q) => Ok(Part(false, Node(BlockExpr(StmtBlock), Prepended(p.e, q.e))))
  }

  /** A residual block is spliced, anything else becomes the last statement. */
  function Prepended(e: Expr, rest: Expr): List<Expr> {
    if rest.Node? && rest.tag.BlockExpr? then Cons(e, rest.subs) else Two(e, rest)
  }

  function PEvalGroup(env: Env, kind: BlockKind, es: List<Expr>, so: bool, fuel: nat): Result<Part>
    decreases fuel, 5, 0
  {
    match PEvalList(env, es, so, fuel)
    case Err(err) => Err(err)
    case Ok(ps) => match BlockResult(kind, Residuals(ps))
      case Err(err) => Err(err)
      case Ok(r) => Ok(Part(AllKnown(ps), r))
  }

  function PEvalApplied(env: Env, e: Expr, us: List<Expr>, so: bool, fuel: nat): Result<Part>
    decreases fuel, 2, 0
  {
    match ApplyAll(e, us)
    case Err(err) => Err(err)
    case Ok(x) => PEval(env, x, so, fuel)
  }

  function PEvalLet(env: Env, vs: seq<string>, es: List<Expr>, so: bool, fuel: nat): Result<Part>
    decreases fuel, 5, 0
  {
    if es.Cons? && es.tail.Cons? && es.tail.tail.Nil? then
      var body := es.tail.head;
      match AtDepth(body, |vs|)
      case None => Err(Failed)
      case Some(b) =>
        if AllFree(b, |vs|) then PEvalApplied(env, body, Units(|vs|), so, fuel)
        else match PEval(env, es.head, so, fuel)
          case Err(err) => Err(err)
          case Ok(p) =>
            if IsReturn(p.e) then Ok(p)
            else if !p.known then
              match PEval(env, body, so, fuel)
              case Err(err) => Err(err)
              case Ok(q) => Ok(Part(false, Node(Let(vs), Two(p.e, q.e))))
            else if p.e.Lit? && LetArgs(vs, p.e.lit).Some? then
              PEvalApplied(env, body, LetArgs(vs, p.e.lit).value, so, fuel)
            else Err(Failed)
    else Err(Failed)
  }

  function PEvalAlt(env: Env, alt: List<Expr>, so: bool, fuel: nat): Result<Part>
    decreases fuel, 4, 0
  {
    if alt.Nil? then Ok(Part(true, Lit(UNIT)))
    else if alt.tail.Nil? then PEval(env, alt.head, so, fuel)
    else Err(Failed)
  }

  function PEvalIf(env: Env, es: List<Expr>, so: bool, fuel: nat): Result<Part>
    decreases fuel, 5, 0
  {
    if es.Cons? && es.tail.Cons? then
      match PEval(env, es.head, so, fuel)
      case Err(err) => Err(err)
      case Ok(p) =>
        if IsReturn(p.e) then Ok(p)
        else if p.known then
          if p.e.Lit? && IsBool(p.e.lit) then
            if p.e.lit.flat.b then PEval(env, es.tail.head, so, fuel) else PEvalAlt(env, es.tail.tail, so, fuel)
          else Err(Failed)
        else match PEval(env, es.tail.head, so, fuel)
          case Err(err) => Err(err)
          case Ok(t) => PEvalBranches(env, p.e, t, es.tail.tail, so, fuel)
    else Err(Failed)
  }

  /** Both branches under an unknown condition; equal branches need no test. */
  function PEvalBranches(env: Env, cond: Expr, t: Part, alt: List<Expr>, so: bool, fuel: nat): Result<Part>
    decreases fuel, 4, 0
  {
    if alt.Nil? then Ok(Part(false, Node(IfExpr, Two(cond, t.e))))
    else if alt.tail.Nil? then
      match PEval(env, alt.head, so, fuel)
      case Err(err) => Err(err)
      case Ok(a) => if a.e == t.e then Ok(t) else Ok(Part(false, Node(IfExpr, Three(cond, t.e, a.e))))
    else Err(Failed)
  }

  function PEvalIfSome(env: Env, es: List<Expr>, so: bool, fuel: nat): Result<Part>
    decreases fuel, 5, 0
  {
    if es.Cons? && es.tail.Cons? then
      match PEval(env, es.head, so, fuel)
      case Err(err) => Err(err)
      case Ok(p) =>
        if IsReturn(p.e) then Ok(p)
        else if p.known then
          if p.e.Lit? && p.e.lit.TupleLit? then
            if |p.e.lit.items| == 1 then PEvalApplied(env, es.tail.head, One(Lit(p.e.lit.items[0])), so, fuel)
            else PEvalAlt(env, es.tail.tail, so, fuel)
          else Err(Failed)
        else if es.tail.head.Closure? then
          match PEval(env, es.tail.head.body, so, fuel)
          case Err(err) => Err(err)
          case Ok(t) => PEvalSomeBranches(env, p.e, es.tail.head.id, t.e, es.tail.tail, so, fuel)
        else Err(Failed)
    else Err(Failed)
  }

  function PEvalSomeBranches(env: Env, scrut: Expr, x: string, t: Expr, alt: List<Expr>, so: bool, fuel: nat)
    : Result<Part>
    decreases fuel, 4, 0
  {
    if alt.Nil? then Ok(Part(false, Node(IfSomeMatchExpr, Two(scrut, Closure(x, t)))))
    else if alt.tail.Nil? then
      match PEval(env, alt.head, so, fuel)
      case Err(err) => Err(err)
      case Ok(a) =>
        if IsFree(t, 0) && Subst(t, 0, Lit(UNIT), true) == a.e then Ok(a)
        else Ok(Part(false, Node(IfSomeMatchExpr, Three(scrut, Closure(x, t), a.e))))
    else Err(Failed)
  }

  /** The flag and the matches of all scrutinees. */
  function PEvalMatches(env: Env, scruts: List<Expr>, pats: seq<Pattern>, so: bool, fuel: nat)
    : Result<(bool, List<Matched>)>
    decreases fuel, 1, scruts
  {
    if scruts.Nil? then Ok((true, Nil))
    else match PEval(env, scruts.head, so, fuel)
      case Err(err) => Err(err)
      case Ok(p) =>
        if pats == [] then Err(Failed)
        else match PerformMatch(env, p.e, pats[0])
          case None => Err(Failed)
          case Some(m) => match PEvalMatches(env, scruts.tail, pats[1..], so, fuel)
            case Err(err) => Err(err)
            case Ok((f, ms)) => Ok((p.known && f, Cons(m, ms)))
  }

  function PEvalIfMatch(env: Env, vs: seq<string>, pats: seq<Pattern>, hasAlt: bool, es: List<Expr>, so: bool,
                        fuel: nat): Result<Part>
    decreases fuel, 5, 0
  {
    if es.Cons? && (hasAlt ==> es.tail.Cons?) then
      match PEvalMatches(env, if hasAlt then es.tail.tail else es.tail, pats, so, fuel)
      case Err(err) => Err(err)
      case Ok((known, ms)) =>
        if !known then Ok(Part(false, Node(IfMatchExpr(vs, pats, hasAlt), es)))
        else match MatchedReturn(ms)
          case Some(r) => Ok(Part(true, r))
          case None =>
            match Captures(ms)
            case None => if hasAlt then Settled(PEval(env, es.tail.head, so, fuel)) else Ok(Part(true, Lit(UNIT)))
            case Some(caps) => match CapturedArgs(vs, caps)
              case None => Err(Failed)
              case Some(us) => Settled(PEvalApplied(env, es.head, us, so, fuel))
    else Err(Failed)
  }

  function Settled(r: Result<Part>): Result<Part> {
    if r.Ok? && !IsReturn(r.value.e) && !r.value.e.Lit? then Err(Failed) else r
  }

  // ----- iteration -----

  /** One partial evaluation per element; the accumulator, if any, is the
      previous residual. */
  function PIterLoop(env: Env, vs: seq<string>, lits: seq<Literal>, body: Expr, acc: Option<Part>, so: bool, fuel: nat)
    : Result<(List<Part>, Option<Part>)>
    decreases fuel, 3, |lits|
  {
    if lits == [] then Ok((Nil, acc))
    else match IterArgs(vs, lits[0])
      case None => Err(Failed)
      case Some(us) =>
        match PEvalApplied(env, body, if acc.Some? then Cons(acc.value.e, us) else us, so, fuel)
        case Err(err) => Err(err)
        case Ok(p) =>
          match PIterLoop(env, vs, lits[1..], body, if acc.Some? then Some(p) else None, so, fuel)
          case Err(err) => Err(err)
          case Ok((ps, last)) => Ok((Cons(p, ps), last))
  }

  function IterNode(op: IterOp, vs: seq<string>, n: Option<string>, over: Expr, body: Expr, acc: Option<Expr>): Expr {
    Node(Iter(op, vs, n), if acc.Some? then Three(over, body, acc.value) else Two(over, body))
  }

  function PartExpr(p: Option<Part>): Option<Expr> {
    if p.Some? then Some(p.value.e) else None
  }

  /** The results are collected from an iterator that the search for a `return`
      has drained, so `Collect` gets no results at all (specialize.rs:399-406). */
  function PIterResult(op: IterOp, vs: seq<string>, n: Option<string>, lits: seq<Literal>, body: Expr,
                       ps: List<Part>, acc: Option<Part>): Result<Part>
  {
    match FirstReturn(Residuals(ps))
    case Some(r) => Ok(Part(AllKnown(ps), r))
    case None =>
      if op == Fold then (if acc.Some? then Ok(acc.value) else Err(Failed))
      else if AllKnown(ps) then
        match Collect(op, lits, []) case Some(l) => Ok(Part(true, Lit(l))) case None => Err(Failed)
      else Ok(Part(false, IterNode(op, vs, n, Lit(ListLit(lits)), body, PartExpr(acc))))
  }

  function PEvalAcc(env: Env, n: Option<string>, es: List<Expr>, so: bool, fuel: nat): Result<Option<Part>>
    requires es.Cons? && es.tail.Cons? && (n.Some? ==> es.tail.tail.Cons?)
    decreases fuel, 2, 0
  {
    if n.None? then Ok(None)
    else match PEval(env, es.tail.tail.head, so, fuel)
      case Err(err) => Err(err)
      case Ok(p) => Ok(Some(p))
  }

  predicate IterShape(n: Option<string>, es: List<Expr>) {
    && es.Cons? && es.tail.Cons?
    && (if n.Some? then es.tail.tail.Cons? && es.tail.tail.tail.Nil? else es.tail.tail.Nil?)
  }

  function PEvalIter(env: Env, op: IterOp, vs: seq<string>, n: Option<string>, es: List<Expr>, so: bool, fuel: nat)
    : Result<Part>
    decreases fuel, 5, 0
  {
    if IterShape(n, es) then
      var body := es.tail.head;
      match PEval(env, es.head, so, fuel)
      case Err(err) => Err(err)
      case Ok(p) =>
        if IsReturn(p.e) then Ok(Part(true, p.e))
        else if p.known && !(p.e.Lit? && p.e.lit.ListLit?) then Err(Failed)
        else if !p.known then
          (match PEval(env, body, so, fuel)
           case Err(err) => Err(err)
           case Ok(b) => match PEvalAcc(env, n, es, so, fuel)
             case Err(err) => Err(err)
             case Ok(acc) => Ok(Part(false, IterNode(op, vs, n, p.e, b.e, PartExpr(acc)))))
        else match PEvalAcc(env, n, es, so, fuel)
          case Err(err) => Err(err)
          case Ok(acc) =>
            if acc.Some? && !acc.value.known then Ok(Part(false, IterNode(op, vs, n, p.e, body, Some(acc.value.e))))
            else match PIterLoop(env, vs, p.e.lit.items, body, acc, so, fuel)
              case Err(err) => Err(err)
              case Ok((ps, last)) => PIterResult(op, vs, n, p.e.lit.items, body, ps, last)
    else Err(Failed)
  }

  // ----- calls -----

  function PEvalCall(env: Env, fn: string, isAsync: bool, args: List<Expr>, so: bool, fuel: nat): Result<Part>
    decreases fuel, 5, 0
  {
    match PEvalList(env, args, so, fuel)
    case Err(err) => Err(err)
    case Ok(ps) => match FirstReturn(Residuals(ps))
      case Some(r) => Ok(Part(AllKnown(ps), r))
      case None =>
        if fn in env.code then PEvalInline(env, fn, ps, so, fuel)
        else if AllKnown(ps) && !so then PEvalForeign(env, fn, isAsync, args, Residuals(ps))
        else Ok(Part(false, Node(CallExpr(fn, isAsync), Residuals(ps))))
  }

  /** User functions are always unfolded; unless all arguments are known, the
      result counts as unknown. */
  function PEvalInline(env: Env, fn: string, ps: List<Part>, so: bool, fuel: nat): Result<Part>
    requires fn in env.code
    decreases fuel, 4, 0
  {
    match ApplyAll(env.code[fn], Residuals(ps))
    case Err(err) => Err(err)
    case Ok(body) => match PEvaluate(env, body, so, fuel)
      case Err(err) => Err(err)
      case Ok(r) => Ok(Part(AllKnown(ps) && !so && r.known, r.e))
  }

  function PEvalForeign(env: Env, fn: string, isAsync: bool, args: List<Expr>, rs: List<Expr>): Result<Part> {
    if env.isBuiltin(fn) then
      match Literals(rs)
      case None => Err(Failed)
      case Some(ls) => match env.call(fn, ls) case Some(l) => Ok(Part(true, Lit(l))) case None => Err(Failed)
    else if env.isExternal(fn) then Ok(Part(false, Node(CallExpr(fn, isAsync), args)))
    else Err(Failed)
  }
}
