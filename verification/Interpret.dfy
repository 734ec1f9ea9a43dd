/** The big-step interpreter (src/armour-lang/src/interpret.rs). */
module Interpret {
  import opened Prelude
  import opened Syntax
  import opened Terms
  import opened TermLaws

  /** What builtin or external functions give, if they give anything. */
  type Table = (string, seq<Literal>) -> Option<Literal>

  /** A program and the code the interpreter calls into: builtins (`eval_call`),
      external functions and metadata, and pattern matching, all of them
      deterministic partial functions. `matches` gives `None` on a type error,
      `Some(None)` on a mismatch and the captures otherwise. */
  datatype Env = Env(
    code: map<string, Expr>,
    isBuiltin: string -> bool,
    call: Table,
    isExternal: string -> bool,
    external: Table,
    matches: (Literal, Pattern) -> Option<Option<map<string, Literal>>>)

  // ----- literal tables (interpret.rs:107-133, 219-259, 567-595) -----

  /** `!b` gives `b` back: the source clones its operand (interpret.rs:226). */
  function EvalPrefix(p: Prefix, l: Literal): Option<Literal> {
    match (p, l)
    case (Not, Flat(Bool(b))) => Some(BoolLit(b))
    case (Negate, Flat(Int(i))) => Some(Flat(Int(Wrap(0 - i))))
    case _ => None
  }

  /** Division truncates towards zero. */
  function Quotient(i: int, j: int): int
    requires j != 0
  {
    if i >= 0 then i / j else -((-i) / j)
  }

  /** Lists have concatenation and membership, everything else is flat. */
  function EvalInfix(op: Infix, l: Literal, m: Literal): Option<Literal> {
    if l.Flat? && m.Flat? then FlatInfix(op, l.flat, m.flat)
    else if op == Concat && l.ListLit? && m.ListLit? then Some(ListLit(l.items + m.items))
    else if op == In && m.ListLit? then Some(BoolLit(l in m.items))
    else None
  }

  function FlatInfix(op: Infix, x: Flat, y: Flat): Option<Literal> {
    match op
    case Equal => Some(BoolLit(x == y))
    case NotEqual => Some(BoolLit(x != y))
    case And => if x.Bool? && y.Bool? then Some(BoolLit(x.b && y.b)) else None
    case Or => if x.Bool? && y.Bool? then Some(BoolLit(x.b || y.b)) else None
    case ConcatStr => if x.Str? && y.Str? then Some(Flat(Str(x.s + y.s))) else None
    case _ => if x.Int? && y.Int? then IntInfix(op, x.i, y.i) else None
  }

  function IntInfix(op: Infix, i: i64, j: i64): Option<Literal> {
    match op
    case Plus => Some(Flat(Int(Wrap(i + j))))
    case Minus => Some(Flat(Int(Wrap(i - j))))
    case Multiply => Some(Flat(Int(Wrap(i * j))))
    case Divide => if Indivisible(i, j) then None else Some(Flat(Int(Wrap(Quotient(i, j)))))
    case Remainder => if Indivisible(i, j) then None else Some(Flat(Int(Wrap(i - Quotient(i, j) * j))))
    case LessThan => Some(BoolLit(i < j))
    case LessThanEqual => Some(BoolLit(i <= j))
    case GreaterThan => Some(BoolLit(i > j))
    case GreaterThanEqual => Some(BoolLit(i >= j))
    case _ => None
  }

  /** Division by zero, and the quotient that overflows. */
  predicate Indivisible(i: i64, j: i64) { j == 0 || (i == -TWO63 && j == -1) }

  // ----- results of several evaluations -----

  predicate AllValues(es: List<Expr>) {
    es.Cons? ==> IsValue(es.head) && AllValues(es.tail)
  }

  function FirstReturn(rs: List<Expr>): (r: Option<Expr>)
    ensures r.Some? ==> IsReturn(r.value)
    ensures r.Some? && AllValues(rs) ==> IsValue(r.value)
  {
    match rs
    case Nil => None
    case Cons(r, rest) => if IsReturn(r) then Some(r) else FirstReturn(rest)
  }

  /** The source's `literal_vector`. */
  function Literals(rs: List<Expr>): Option<seq<Literal>> {
    match rs
    case Nil => Some([])
    case Cons(Lit(l), rest) => (match Literals(rest) case Some(ls) => Some([l] + ls) case None => None)
    case _ => None
  }

  // ----- binding -----

  function ApplyAll(e: Expr, us: List<Expr>): Result<Expr>
    decreases us
  {
    match us
    case Nil => Ok(e)
    case Cons(u, rest) => (match Apply(e, u) case Ok(x) => ApplyAll(x, rest) case Err(err) => Err(err))
  }

  /** Literals for the variables that are not "_": only those have a closure. */
  function Bound(vs: seq<string>, lits: seq<Literal>): List<Expr>
    requires |vs| == |lits|
  {
    if vs == [] then Nil
    else if vs[0] != "_" then Cons(Lit(lits[0]), Bound(vs[1..], lits[1..]))
    else Bound(vs[1..], lits[1..])
  }

  /** What a `let` applies its closure to. */
  function LetArgs(vs: seq<string>, l: Literal): Option<List<Expr>> {
    if l.TupleLit? && 1 < |l.items| && |vs| == |l.items| then Some(Bound(vs, l.items))
    else if |vs| == 1 then Some(One(Lit(l)))
    else None
  }

  /** What one iteration applies its closure to, after the accumulator. */
  function IterArgs(vs: seq<string>, l: Literal): Option<List<Expr>> {
    if l.TupleLit? && |vs| != 1 then
      if |vs| == |l.items| then Some(Bound(vs, l.items)) else None
    else if |vs| == 1 then Some(Bound(vs, [l]))
    else None
  }

  function AccArgs(acc: Option<Expr>, us: List<Expr>): List<Expr> {
    if acc.Some? then Cons(acc.value, us) else us
  }

  // ----- iteration results (interpret.rs:1059-1094) -----

  function AllTrue(ls: seq<Literal>): Option<bool> {
    if ls == [] then Some(true)
    else if !IsBool(ls[0]) then None
    else if ls[0].flat.b then AllTrue(ls[1..]) else Some(false)
  }

  function AnyTrue(ls: seq<Literal>): Option<bool> {
    if ls == [] then Some(false)
    else if !IsBool(ls[0]) then None
    else if ls[0].flat.b then Some(true) else AnyTrue(ls[1..])
  }

  /** `zip` stops at the shorter of the two. */
  function Kept(lits: seq<Literal>, tests: seq<Literal>): Option<seq<Literal>> {
    if lits == [] || tests == [] then Some([])
    else if !IsBool(tests[0]) then None
    else match Kept(lits[1..], tests[1..])
      case None => None
      case Some(rest) => Some(if tests[0].flat.b then [lits[0]] + rest else rest)
  }

  function SomeItems(ls: seq<Literal>): seq<Literal> {
    if ls == [] then []
    else (if ls[0].TupleLit? && |ls[0].items| == 1 then ls[0].items else []) + SomeItems(ls[1..])
  }

  /** The literal an iteration other than `fold` makes of its results; `None`
      is the panic on a test that is not a bool. */
  function Collect(op: IterOp, lits: seq<Literal>, rs: seq<Literal>): Option<Literal> {
    match op
    case Map => Some(ListLit(rs))
    case ForEach => Some(UNIT)
    case Filter => (match Kept(lits, rs) case Some(ls) => Some(ListLit(ls)) case None => None)
    case FilterMap => Some(ListLit(SomeItems(rs)))
    case All => (match AllTrue(rs) case Some(b) => Some(BoolLit(b)) case None => None)
    case Any => (match AnyTrue(rs) case Some(b) => Some(BoolLit(b)) case None => None)
    case Fold => None
  }

  function IterResult(op: IterOp, lits: seq<Literal>, rs: List<Expr>, acc: Option<Expr>): Result<Expr> {
    match FirstReturn(rs)
    case Some(r) => Ok(r)
    case None =>
      if op == Fold then
        if acc.Some? && acc.value.Lit? then Ok(acc.value) else Err(Failed)
      else
        match Literals(rs)
        case None => Err(Failed)
        case Some(ls) => match Collect(op, lits, ls)
          case Some(l) => Ok(Lit(l))
          case None => Err(Failed)
  }

  // ----- pattern matching (interpret.rs:751-841) -----

  datatype Matched = Matched(value: Expr, captures: Option<map<string, Literal>>)

  function PerformMatch(env: Env, v: Expr, pat: Pattern): Option<Matched> {
    if IsReturn(v) then Some(Matched(v, None))
    else if !v.Lit? then None
    else match env.matches(v.lit, pat)
      case None => None
      case Some(caps) => Some(Matched(v, caps))
  }

  function MatchedReturn(ms: List<Matched>): Option<Expr> {
    match ms
    case Nil => None
    case Cons(m, rest) => if IsReturn(m.value) then Some(m.value) else MatchedReturn(rest)
  }

  /** All captures, later ones winning, or `None` when some pattern failed. */
  function Captures(ms: List<Matched>): Option<map<string, Literal>> {
    match ms
    case Nil => Some(map[])
    case Cons(m, rest) =>
      (match (m.captures, Captures(rest))
       case (Some(a), Some(b)) => Some(a + b)
       case _ => None)
  }

  function CapturedArgs(vs: seq<string>, caps: map<string, Literal>): Option<List<Expr>> {
    if vs == [] then Some(Nil)
    else if vs[0] !in caps then None
    else match CapturedArgs(vs[1..], caps)
      case None => None
      case Some(rest) => Some(Cons(Lit(caps[vs[0]]), rest))
  }

  // ----- values -----

  lemma ApplyAllSize(e: Expr, us: List<Expr>)
    requires AllValues(us)
    ensures ApplyAll(e, us).Ok? ==> Size(ApplyAll(e, us).value) <= Size(e)
    decreases us
  {
    if us.Cons? && e.Closure? {
      SizeSubst(e.body, 0, us.head, true);
      ApplyAllSize(Subst(e.body, 0, us.head, true), us.tail);
    }
  }

  lemma BoundValues(vs: seq<string>, lits: seq<Literal>)
    requires |vs| == |lits|
    ensures AllValues(Bound(vs, lits))
  {}

  lemma CapturedValues(vs: seq<string>, caps: map<string, Literal>)
    ensures CapturedArgs(vs, caps).Some? ==> AllValues(CapturedArgs(vs, caps).value)
  {}

  lemma ReturnSize(x: Expr)
    ensures Size(x) < Size(ReturnOf(x)) || (IsValue(x) && Size(x) == Size(ReturnOf(x)))
  {
    if IsValue(x) { ValueSize(x); }
  }

  lemma ListSizes(es: List<Expr>)
    ensures es.Cons? ==> SizeList(es) == 1 + Size(es.head) + SizeList(es.tail)
    ensures es.Cons? && es.tail.Cons? ==> SizeList(es.tail) == 1 + Size(es.tail.head) + SizeList(es.tail.tail)
    ensures es.Cons? && es.tail.Cons? && es.tail.tail.Cons? ==>
      SizeList(es.tail.tail) == 1 + Size(es.tail.tail.head) + SizeList(es.tail.tail.tail)
  {}

  // ----- evaluation -----

  function StripReturn(e: Expr): Expr {
    match e
    case Node(ReturnExpr, Cons(x, Nil)) => x
    case _ => e
  }

  /** `k` bounds the nesting of calls to user functions. Nodes whose number of
      sub-expressions no constructor of the source has are errors. */
  function Eval(env: Env, e: Expr, k: nat): (r: Result<Expr>)
    ensures r.Ok? ==> IsValue(r.value)
    decreases k, Size(e), e
  {
    match e
    case Var(_) => Err(FreeVariable)
    case BVar(_, _) => Err(FreeVariable)
    case Lit(_) => Ok(e)
    case Closure(_, _) => Err(Failed)
    case Node(tag, es) =>
      if tag != ReturnExpr then EvalNode(env, tag, es, k)
      else if es.Cons? && es.tail.Nil? then
        ReturnSize(es.head);
        (match Eval(env, es.head, k) case Ok(v) => Ok(ReturnOf(v)) case Err(err) => Err(err))
      else Err(Failed)
  }

  function EvalNode(env: Env, tag: Tag, es: List<Expr>, k: nat): (r: Result<Expr>)
    requires tag != ReturnExpr
    ensures r.Ok? ==> IsValue(r.value)
    decreases k, SizeList(es), 9
  {
    match tag
    case PrefixExpr(p) => EvalPrefixExpr(env, p, es, k)
    case InfixExpr(op) => EvalInfixExpr(env, op, es, k)
    case BlockExpr(kind) => if kind == StmtBlock then EvalBlock(env, es, k) else EvalGroup(env, kind, es, k)
    case Let(vs) => EvalLet(env, vs, es, k)
    case Iter(op, vs, accName) => EvalIterExpr(env, op, vs, accName.Some?, es, k)
    case IfExpr => EvalIf(env, es, k)
    case IfSomeMatchExpr => EvalIfSome(env, es, k)
    case IfMatchExpr(vs, pats, hasAlt) => EvalIfMatch(env, vs, pats, hasAlt, es, k)
    case CallExpr(fn, isAsync) => EvalCallExpr(env, fn, isAsync, es, k)
    case ReturnExpr => Err(Failed)
  }

  function EvalPrefixExpr(env: Env, p: Prefix, es: List<Expr>, k: nat): (r: Result<Expr>)
    ensures r.Ok? ==> IsValue(r.value)
    decreases k, SizeList(es), 0
  {
    if es.Cons? && es.tail.Nil? then
      match Eval(env, es.head, k)
      case Err(err) => Err(err)
      case Ok(v) => PrefixResult(p, v)
    else Err(Failed)
  }

  function EvalInfixExpr(env: Env, op: Infix, es: List<Expr>, k: nat): (r: Result<Expr>)
    ensures r.Ok? ==> IsValue(r.value)
    decreases k, SizeList(es), 1
  {
    ListSizes(es);
    if es.Cons? && es.tail.Cons? && es.tail.tail.Nil? then
      if op == And then EvalShort(env, false, es.head, es.tail.head, k)
      else if op == Or then EvalShort(env, true, es.head, es.tail.head, k)
      else match Eval(env, es.head, k)
        case Err(err) => Err(err)
        case Ok(v) => match Eval(env, es.tail.head, k)
          case Err(err) => Err(err)
          case Ok(w) => InfixResult(op, v, w)
    else Err(Failed)
  }

  function EvalGroup(env: Env, kind: BlockKind, es: List<Expr>, k: nat): (r: Result<Expr>)
    ensures r.Ok? ==> IsValue(r.value)
    decreases k, SizeList(es), 1
  {
    match EvalList(env, es, k)
    case Ok(rs) => BlockResult(kind, rs)
    case Err(err) => Err(err)
  }

  function EvalCallExpr(env: Env, fn: string, isAsync: bool, es: List<Expr>, k: nat): (r: Result<Expr>)
    ensures r.Ok? ==> IsValue(r.value)
    decreases k, SizeList(es), 1
  {
    match EvalList(env, es, k)
    case Err(err) => Err(err)
    case Ok(vs) => EvalCall(env, fn, isAsync, vs, k)
  }

  function PrefixResult(p: Prefix, v: Expr): (r: Result<Expr>)
    requires IsValue(v)
    ensures r.Ok? ==> IsValue(r.value)
  {
    if IsReturn(v) then Ok(v)
    else match EvalPrefix(p, v.lit) case Some(l) => Ok(Lit(l)) case None => Err(Failed)
  }

  function InfixResult(op: Infix, v: Expr, w: Expr): (r: Result<Expr>)
    requires IsValue(v) && IsValue(w)
    ensures r.Ok? ==> IsValue(r.value)
  {
    if IsReturn(v) then Ok(v)
    else if IsReturn(w) then Ok(w)
    else match EvalInfix(op, v.lit, w.lit) case Some(l) => Ok(Lit(l)) case None => Err(Failed)
  }

  /** `&&` (stop at false) and `||` (stop at true). */
  function EvalShort(env: Env, stop: bool, a: Expr, b: Expr, k: nat): (r: Result<Expr>)
    ensures r.Ok? ==> IsValue(r.value)
    decreases k, Size(a) + Size(b), 2
  {
    match Eval(env, a, k)
    case Err(err) => Err(err)
    case Ok(v) =>
      if IsReturn(v) then Ok(v)
      else if !IsBool(v.lit) then Err(Failed)
      else if v.lit.flat.b == stop then Ok(v)
      else (match Eval(env, b, k)
        case Err(err) => Err(err)
        case Ok(w) => if IsReturn(w) || IsBool(w.lit) then Ok(w) else Err(Failed))
  }

  function EvalBlock(env: Env, es: List<Expr>, k: nat): (r: Result<Expr>)
    ensures r.Ok? ==> IsValue(r.value)
    decreases k, SizeList(es), 0
  {
    match es
    case Nil => Ok(Lit(UNIT))
    case Cons(e, rest) =>
      match Eval(env, e, k)
      case Err(err) => Err(err)
      case Ok(v) => if IsReturn(v) || rest.Nil? then Ok(v) else EvalBlock(env, rest, k)
  }

  function EvalList(env: Env, es: List<Expr>, k: nat): (r: Result<List<Expr>>)
    ensures r.Ok? ==> AllValues(r.value)
    decreases k, SizeList(es), 0
  {
    match es
    case Nil => Ok(Nil)
    case Cons(e, rest) =>
      match Eval(env, e, k)
      case Err(err) => Err(err)
      case Ok(v) => match EvalList(env, rest, k)
        case Err(err) => Err(err)
        case Ok(vs) => Ok(Cons(v, vs))
  }

  function BlockResult(kind: BlockKind, rs: List<Expr>): (r: Result<Expr>)
    ensures r.Ok? && AllValues(rs) ==> IsValue(r.value)
  {
    if rs.Nil? then Ok(Lit(if kind == ListBlock then ListLit([]) else UNIT))
    else match FirstReturn(rs)
      case Some(r) => Ok(r)
      case None => match Literals(rs)
        case Some(ls) => Ok(Lit(if kind == ListBlock then ListLit(ls) else TupleLit(ls)))
        case None => Err(Failed)
  }

  function EvalAlt(env: Env, alt: List<Expr>, k: nat): (r: Result<Expr>)
    ensures r.Ok? ==> IsValue(r.value)
    decreases k, SizeList(alt), 0
  {
    match alt
    case Nil => Ok(Lit(UNIT))
    case Cons(a, Nil) => Eval(env, a, k)
    case _ => Err(Failed)
  }

  function EvalLet(env: Env, vs: seq<string>, es: List<Expr>, k: nat): (r: Result<Expr>)
    ensures r.Ok? ==> IsValue(r.value)
    decreases k, SizeList(es), 0
  {
    ListSizes(es);
    if es.Cons? && es.tail.Cons? && es.tail.tail.Nil? then
      match Eval(env, es.head, k)
      case Err(err) => Err(err)
      case Ok(v) => if IsReturn(v) then Ok(v) else EvalApplied(env, es.tail.head, LetArgs(vs, v.lit), k)
    else Err(Failed)
  }

  function EvalIf(env: Env, es: List<Expr>, k: nat): (r: Result<Expr>)
    ensures r.Ok? ==> IsValue(r.value)
    decreases k, SizeList(es), 0
  {
    ListSizes(es);
    if es.Cons? && es.tail.Cons? then
      match Eval(env, es.head, k)
      case Err(err) => Err(err)
      case Ok(v) =>
        if IsReturn(v) then Ok(v)
        else if !IsBool(v.lit) then Err(Failed)
        else if v.lit.flat.b then Eval(env, es.tail.head, k)
        else EvalAlt(env, es.tail.tail, k)
    else Err(Failed)
  }

  function EvalIfSome(env: Env, es: List<Expr>, k: nat): (r: Result<Expr>)
    ensures r.Ok? ==> IsValue(r.value)
    decreases k, SizeList(es), 0
  {
    ListSizes(es);
    if es.Cons? && es.tail.Cons? then
      match Eval(env, es.head, k)
      case Err(err) => Err(err)
      case Ok(v) =>
        if IsReturn(v) then Ok(v)
        else if !v.lit.TupleLit? then Err(Failed)
        else if |v.lit.items| == 1 then EvalApplied(env, es.tail.head, Some(One(Lit(v.lit.items[0]))), k)
        else EvalAlt(env, es.tail.tail, k)
    else Err(Failed)
  }

  /** Applies a closure to literals and evaluates the body. */
  function EvalApplied(env: Env, body: Expr, us: Option<List<Expr>>, k: nat): (r: Result<Expr>)
    ensures r.Ok? ==> IsValue(r.value)
    decreases k, Size(body) + 1, 2
  {
    if us.None? || !AllValues(us.value) then Err(Failed)
    else
      ApplyAllSize(body, us.value);
      match ApplyAll(body, us.value)
      case Err(err) => Err(err)
      case Ok(e) => Eval(env, e, k)
  }

  function EvalIterExpr(env: Env, op: IterOp, vs: seq<string>, hasAcc: bool, es: List<Expr>, k: nat): (r: Result<Expr>)
    ensures r.Ok? ==> IsValue(r.value)
    decreases k, SizeList(es), 0
  {
    ListSizes(es);
    if es.Cons? && es.tail.Cons?
      && (if hasAcc then es.tail.tail.Cons? && es.tail.tail.tail.Nil? else es.tail.tail.Nil?) then
      match Eval(env, es.head, k)
      case Err(err) => Err(err)
      case Ok(v) =>
        if IsReturn(v) then Ok(v)
        else if !v.lit.ListLit? then Err(Failed)
        else if !hasAcc then EvalIter(env, op, vs, v.lit.items, es.tail.head, None, k)
        else match Eval(env, es.tail.tail.head, k)
          case Err(err) => Err(err)
          case Ok(a) => EvalIter(env, op, vs, v.lit.items, es.tail.head, Some(a), k)
    else Err(Failed)
  }

  function EvalIter(env: Env, op: IterOp, vs: seq<string>, lits: seq<Literal>, body: Expr, acc: Option<Expr>, k: nat)
    : (r: Result<Expr>)
    requires acc.Some? ==> IsValue(acc.value)
    ensures r.Ok? ==> IsValue(r.value)
    decreases k, Size(body) + 1, 9, 1
  {
    match IterLoop(env, vs, lits, body, acc, k)
    case Err(err) => Err(err)
    case Ok((rs, last)) => IterResult(op, lits, rs, last)
  }

  /** The results of all iterations and the final accumulator. */
  function IterLoop(env: Env, vs: seq<string>, lits: seq<Literal>, body: Expr, acc: Option<Expr>, k: nat)
    : (r: Result<(List<Expr>, Option<Expr>)>)
    requires acc.Some? ==> IsValue(acc.value)
    ensures r.Ok? ==> AllValues(r.value.0) && (r.value.1.Some? ==> IsValue(r.value.1.value))
    decreases k, Size(body) + 1, 9, 0, |lits|
  {
    if lits == [] then Ok((Nil, acc))
    else match IterArgs(vs, lits[0])
      case None => Err(Failed)
      case Some(us) =>
        match EvalApplied(env, body, Some(AccArgs(acc, us)), k)
        case Err(err) => Err(err)
        case Ok(v) =>
          match IterLoop(env, vs, lits[1..], body, if acc.Some? then Some(v) else None, k)
          case Err(err) => Err(err)
          case Ok((rs, last)) => Ok((Cons(v, rs), last))
  }

  function EvalMatches(env: Env, scruts: List<Expr>, pats: seq<Pattern>, k: nat): (r: Result<List<Matched>>)
    ensures r.Ok? && MatchedReturn(r.value).Some? ==> IsValue(MatchedReturn(r.value).value)
    decreases k, SizeList(scruts), 0
  {
    match scruts
    case Nil => Ok(Nil)
    case Cons(e, rest) =>
      match Eval(env, e, k)
      case Err(err) => Err(err)
      case Ok(v) =>
        if pats == [] then Err(Failed)
        else match PerformMatch(env, v, pats[0])
          case None => Err(Failed)
          case Some(m) => match EvalMatches(env, rest, pats[1..], k)
            case Err(err) => Err(err)
            case Ok(ms) => Ok(Cons(m, ms))
  }

  function EvalIfMatch(env: Env, vs: seq<string>, pats: seq<Pattern>, hasAlt: bool, es: List<Expr>, k: nat)
    : (r: Result<Expr>)
    ensures r.Ok? ==> IsValue(r.value)
    decreases k, SizeList(es), 8
  {
    ListSizes(es);
    if es.Cons? && (hasAlt ==> es.tail.Cons?) then
      match EvalMatches(env, if hasAlt then es.tail.tail else es.tail, pats, k)
      case Err(err) => Err(err)
      case Ok(ms) =>
        match MatchedReturn(ms)
        case Some(r) => Ok(r)
        case None =>
          match Captures(ms)
          case None => if hasAlt then Eval(env, es.tail.head, k) else Ok(Lit(UNIT))
          case Some(caps) => EvalApplied(env, es.head, CapturedArgs(vs, caps), k)
    else Err(Failed)
  }

  function EvalCall(env: Env, fn: string, isAsync: bool, args: List<Expr>, k: nat): (r: Result<Expr>)
    requires AllValues(args)
    ensures r.Ok? ==> IsValue(r.value)
    decreases k, 0, 0
  {
    match FirstReturn(args)
    case Some(r) => Ok(r)
    case None =>
      if fn in env.code then
        match ApplyAll(env.code[fn], args)
        case Err(err) => Err(err)
        case Ok(body) =>
          if k == 0 then Err(TooDeep)
          else match Eval(env, body, k - 1)
            case Err(err) => Err(err)
            case Ok(v) => Ok(StripReturn(v))
      else match Literals(args)
        case None => Err(Failed)
        case Some(ls) => ForeignCall(env, fn, isAsync, ls)
  }

  /** Builtins, then external functions and metadata. */
  function ForeignCall(env: Env, fn: string, isAsync: bool, ls: seq<Literal>): (r: Result<Expr>)
    ensures r.Ok? ==> IsValue(r.value)
  {
    if env.isBuiltin(fn) then
      (match env.call(fn, ls) case Some(l) => Ok(Lit(l)) case None => Err(Failed))
    else if env.isExternal(fn) then
      if isAsync then Ok(Lit(UNIT))
      else (match env.external(fn, ls) case Some(l) => Ok(Lit(l)) case None => Err(Failed))
    else Err(Failed)
  }

  function Evaluate(env: Env, e: Expr, k: nat): Result<Expr> {
    match Eval(env, e, k)
    case Ok(v) => Ok(StripReturn(v))
    case Err(err) => Err(err)
  }
}
