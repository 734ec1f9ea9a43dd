/** The loops of the interpreter and of the partial evaluator, which push into
    vectors and update an accumulator, against the recursive definitions
    (src/armour-lang/src/interpret.rs:976-1128, 1150-1191,
    src/armour-control/src/specialize.rs:343-396, 532-557, 620-647). */
module Loops {
  import opened Prelude
  import opened Syntax
  import opened Terms
  import opened Interpret
  import opened Specialize

  function Append<T>(xs: List<T>, ys: List<T>): List<T> {
    match xs case Nil => ys case Cons(x, rest) => Cons(x, Append(rest, ys))
  }

  lemma SnocAppend<T>(xs: List<T>, y: T, ys: List<T>)
    ensures Append(Snoc(xs, y), ys) == Append(xs, Cons(y, ys))
  {}

  lemma AppendNil<T>(xs: List<T>)
    ensures Append(xs, Nil) == xs
  {}

  /** The results so far before those still to come, unless an error comes. */
  function Before<T>(done: List<T>, rest: Result<List<T>>): Result<List<T>> {
    match rest case Ok(xs) => Ok(Append(done, xs)) case Err(err) => Err(err)
  }

  function BeforeLoop<T, A>(done: List<T>, rest: Result<(List<T>, A)>): Result<(List<T>, A)> {
    match rest case Ok((xs, last)) => Ok((Append(done, xs), last)) case Err(err) => Err(err)
  }

  lemma BeforeNil<T>(r: Result<List<T>>)
    ensures Before(Nil, r) == r
  {}

  // ----- the interpreter -----

  method ApplyEach(e: Expr, us: List<Expr>) returns (r: Result<Expr>)
    ensures r == ApplyAll(e, us)
  {
    var f, todo := e, us;
    while todo.Cons?
      invariant ApplyAll(e, us) == ApplyAll(f, todo)
      decreases todo
    {
      match Apply(f, todo.head) {
        case Err(err) => return Err(err);
        case Ok(x) => f := x;
      }
      todo := todo.tail;
    }
    return Ok(f);
  }

  method EvalEach(env: Env, es: List<Expr>, k: nat) returns (r: Result<List<Expr>>)
    ensures r == EvalList(env, es, k)
  {
    var done: List<Expr>, todo := Nil, es;
    BeforeNil(EvalList(env, es, k));
    while todo.Cons?
      invariant EvalList(env, es, k) == Before(done, EvalList(env, todo, k))
      decreases todo
    {
      match Eval(env, todo.head, k) {
        case Err(err) => return Err(err);
        case Ok(v) =>
          ghost var rest := EvalList(env, todo.tail, k);
          if rest.Ok? { SnocAppend(done, v, rest.value); }
          done := Snoc(done, v);
      }
      todo := todo.tail;
    }
    AppendNil(done);
    return Ok(done);
  }

  /** One evaluation per element: the results are pushed and the accumulator, if
      there is one, is replaced by the last of them. */
  method Iterate(env: Env, vs: seq<string>, lits: seq<Literal>, body: Expr, acc: Option<Expr>, k: nat)
    returns (r: Result<(List<Expr>, Option<Expr>)>)
    requires acc.Some? ==> IsValue(acc.value)
    ensures r == IterLoop(env, vs, lits, body, acc, k)
  {
    var done: List<Expr>, last, i := Nil, acc, 0;
    while i < |lits|
      invariant i <= |lits| && (last.Some? ==> IsValue(last.value))
      invariant IterLoop(env, vs, lits, body, acc, k) == BeforeLoop(done, IterLoop(env, vs, lits[i..], body, last, k))
    {
      assert lits[i..][0] == lits[i] && lits[i..][1..] == lits[i + 1..];
      match IterArgs(vs, lits[i]) {
        case None => return Err(Failed);
        case Some(us) =>
          match EvalApplied(env, body, Some(AccArgs(last, us)), k) {
            case Err(err) => return Err(err);
            case Ok(v) =>
              var next := if last.Some? then Some(v) else None;
              ghost var rest := IterLoop(env, vs, lits[i + 1..], body, next, k);
              if rest.Ok? { SnocAppend(done, v, rest.value.0); }
              done, last := Snoc(done, v), next;
          }
      }
      i := i + 1;
    }
    AppendNil(done);
    return Ok((done, last));
  }

  // ----- the partial evaluator -----

  method PEvalEach(env: Env, es: List<Expr>, so: bool, fuel: nat) returns (r: Result<List<Part>>, allKnown: bool)
    ensures r == PEvalList(env, es, so, fuel)
    ensures r.Ok? ==> (allKnown <==> AllKnown(r.value))
  {
    var done: List<Part>, todo := Nil, es;
    allKnown := true;
    BeforeNil(PEvalList(env, es, so, fuel));
    while todo.Cons?
      invariant PEvalList(env, es, so, fuel) == Before(done, PEvalList(env, todo, so, fuel))
      invariant allKnown <==> AllKnown(done)
      decreases todo
    {
      match PEval(env, todo.head, so, fuel) {
        case Err(err) => return Err(err), allKnown;
        case Ok(p) =>
          ghost var rest := PEvalList(env, todo.tail, so, fuel);
          if rest.Ok? { SnocAppend(done, p, rest.value); }
          KnownSnoc(done, p);
          done := Snoc(done, p);
          allKnown := allKnown && p.known;
      }
      todo := todo.tail;
    }
    AppendNil(done);
    return Ok(done), allKnown;
  }

  lemma KnownSnoc(ps: List<Part>, p: Part)
    ensures AllKnown(Snoc(ps, p)) <==> AllKnown(ps) && p.known
  {}

  /** The source's loop over a known list, with its running flag. */
  method PIterate(env: Env, vs: seq<string>, lits: seq<Literal>, body: Expr, acc: Option<Part>, so: bool, fuel: nat)
    returns (r: Result<(List<Part>, Option<Part>)>, allKnown: bool)
    ensures r == PIterLoop(env, vs, lits, body, acc, so, fuel)
    ensures r.Ok? ==> (allKnown <==> AllKnown(r.value.0))
  {
    var done: List<Part>, last, i := Nil, acc, 0;
    allKnown := true;
    while i < |lits|
      invariant i <= |lits| && (allKnown <==> AllKnown(done))
      invariant PIterLoop(env, vs, lits, body, acc, so, fuel)
             == BeforeLoop(done, PIterLoop(env, vs, lits[i..], body, last, so, fuel))
    {
      assert lits[i..][0] == lits[i] && lits[i..][1..] == lits[i + 1..];
      match IterArgs(vs, lits[i]) {
        case None => return Err(Failed), allKnown;
        case Some(us) =>
          match PEvalApplied(env, body, if last.Some? then Cons(last.value.e, us) else us, so, fuel) {
            case Err(err) => return Err(err), allKnown;
            case Ok(p) =>
              var next := if last.Some? then Some(p) else None;
              ghost var rest := PIterLoop(env, vs, lits[i + 1..], body, next, so, fuel);
              if rest.Ok? { SnocAppend(done, p, rest.value.0); }
              KnownSnoc(done, p);
              done, last := Snoc(done, p), next;
              allKnown := allKnown && p.known;
          }
      }
      i := i + 1;
    }
    AppendNil(done);
    return Ok((done, last)), allKnown;
  }
}
