/** Moving a control-plane program to the data plane: the conversion of literals
    and expressions, and evaluation before and after it
    (src/armour-lang/src/expressions.rs:331-396, interpret.rs:568-720,
    literals.rs:1345-1439). */
module DataPlane {
  import opened Prelude
  import opened Syntax
  import opened Terms
  import opened TermLaws
  import opened Interpret
  import opened Scope
  import opened Simulation

  // ----- the conversions; `None` is the source's panic -----

  function LitToDp(l: Literal): (r: Option<Literal>)
    ensures r == if DpLit(l) then Some(l) else None
  {
    match l
    case Flat(Control(_, _)) => None
    case Flat(f) => Some(l)
    case ListLit(items) => (match LitsToDp(items) case Some(ls) => Some(ListLit(ls)) case None => None)
    case TupleLit(items) => (match LitsToDp(items) case Some(ls) => Some(TupleLit(ls)) case None => None)
  }

  function LitsToDp(ls: seq<Literal>): (r: Option<seq<Literal>>)
    ensures r == if (forall i :: 0 <= i < |ls| ==> DpLit(ls[i])) then Some(ls) else None
  {
    if ls == [] then Some([])
    else
      assert ls == [ls[0]] + ls[1..];
      assert forall i :: 0 < i < |ls| ==> ls[i] == ls[1..][i - 1];
      match (LitToDp(ls[0]), LitsToDp(ls[1..]))
      case (Some(l), Some(rest)) => Some([l] + rest)
      case _ => None
  }

  function ToDp(e: Expr): Option<Expr> {
    match e
    case Var(_) => Some(e)
    case BVar(_, _) => Some(e)
    case Lit(l) => (match LitToDp(l) case Some(m) => Some(Lit(m)) case None => None)
    case Closure(v, b) => (match ToDp(b) case Some(x) => Some(Closure(v, x)) case None => None)
    case Node(t, es) => (match ListToDp(es) case Some(xs) => Some(Node(t, xs)) case None => None)
  }

  function ListToDp(es: List<Expr>): Option<List<Expr>> {
    match es
    case Nil => Some(Nil)
    case Cons(e, rest) =>
      match (ToDp(e), ListToDp(rest))
      case (Some(x), Some(xs)) => Some(Cons(x, xs))
      case _ => None
  }

  function CodeToDp(code: map<string, Expr>): Option<map<string, Expr>> {
    if forall f :: f in code ==> ToDp(code[f]).Some? then Some(map f | f in code :: ToDp(code[f]).value) else None
  }

  /** Converting commutes with substitution, whether or not it succeeds: the
      conversion of the result fails only on a literal of one of the two. */
  lemma {:induction false} ConversionCommutes(e: Expr, i: nat, u: Expr, down: bool)
    requires ToDp(u).Some?
    ensures ToDp(Subst(e, i, u, down))
         == match ToDp(e) case Some(x) => Some(Subst(x, i, ToDp(u).value, down)) case None => None
  {
    match e
    case BVar(_, j) => if j == i && down { ConversionShifts(u, i, 0); }
    case Closure(_, b) => ConversionCommutes(b, i + 1, u, down);
    case Node(_, es) => ConversionCommutesList(es, i, u, down);
    case _ =>
  }

  lemma {:induction false} ConversionCommutesList(es: List<Expr>, i: nat, u: Expr, down: bool)
    requires ToDp(u).Some?
    ensures ListToDp(SubstList(es, i, u, down))
         == match ListToDp(es) case Some(xs) => Some(SubstList(xs, i, ToDp(u).value, down)) case None => None
  {
    if es.Cons? { ConversionCommutes(es.head, i, u, down); ConversionCommutesList(es.tail, i, u, down); }
  }

  lemma {:induction false} ConversionShifts(e: Expr, i: nat, d: nat)
    ensures ToDp(Shift(e, i, d)) == match ToDp(e) case Some(x) => Some(Shift(x, i, d)) case None => None
  {
    match e
    case Closure(_, b) => ConversionShifts(b, i, d + 1);
    case Node(_, es) => ConversionShiftsList(es, i, d);
    case _ =>
  }

  lemma {:induction false} ConversionShiftsList(es: List<Expr>, i: nat, d: nat)
    ensures ListToDp(ShiftList(es, i, d))
         == match ListToDp(es) case Some(xs) => Some(ShiftList(xs, i, d)) case None => None
  {
    if es.Cons? { ConversionShifts(es.head, i, d); ConversionShiftsList(es.tail, i, d); }
  }

  /** The conversion never changes anything, and panics exactly on code that has
      a control-plane literal somewhere. */
  lemma {:induction false} ConversionExactly(e: Expr, names: iset<string>)
    requires Within(e, names, false)
    ensures ToDp(e) == if Within(e, names, true) then Some(e) else None
  {
    match e
    case Closure(_, b) => ConversionExactly(b, names);
    case Node(_, es) => ConversionExactlyList(es, names);
    case _ =>
  }

  lemma {:induction false} ConversionExactlyList(es: List<Expr>, names: iset<string>)
    requires WithinList(es, names, false)
    ensures ListToDp(es) == if WithinList(es, names, true) then Some(es) else None
  {
    if es.Cons? { ConversionExactly(es.head, names); ConversionExactlyList(es.tail, names); }
  }

  // ----- evaluation -----

  /** The control plane's builtins: some of its own, and those of the data plane
      on data-plane literals. */
  function ControlPlane(dp: Env, code: map<string, Expr>, own: string -> bool,
                        table: Table,
                        patterns: (Literal, Pattern) -> Option<Option<map<string, Literal>>>): Env
  {
    dp.(code := code,
        isBuiltin := f => dp.isBuiltin(f) || own(f),
        call := (f, ls) => if !own(f) && AllDp(ls) then dp.call(f, ls) else table(f, ls),
        matches := (l, p) => if DpLit(l) then dp.matches(l, p) else patterns(l, p))
  }

  predicate AllDp(ls: seq<Literal>) { forall i :: 0 <= i < |ls| ==> DpLit(ls[i]) }

  /** Data-plane builtins, external calls and matches give data-plane literals. */
  ghost predicate DpTables(dp: Env) {
    && (forall f, ls :: AllDp(ls) && dp.call(f, ls).Some? ==> DpLit(dp.call(f, ls).value))
    && (forall f, ls :: AllDp(ls) && dp.external(f, ls).Some? ==> DpLit(dp.external(f, ls).value))
    && (forall l, p :: DpLit(l) && dp.matches(l, p).Some? && dp.matches(l, p).value.Some? ==>
          CapsOk(true, dp.matches(l, p).value.value))
  }

  /** Functions that are not the control plane's own. */
  ghost function DpNames(own: string -> bool): iset<string> { iset f: string | !own(f) }

  /** The setting: a data plane, a control-plane program that calls none of the
      control plane's own builtins and converts, and its conversion. */
  ghost predicate Converted(dp: Env, cp: Env, own: string -> bool) {
    && DpTables(dp) && ClosedEnv(cp) && CodeToDp(cp.code) == Some(dp.code)
    && (forall f :: f in cp.code ==> !own(f) && Within(cp.code[f], DpNames(own), false))
  }

  lemma PlanesAgree(dp: Env, cp: Env, own: string -> bool, table: Table,
                    patterns: (Literal, Pattern) -> Option<Option<map<string, Literal>>>)
    requires Converted(dp, cp, own) && cp == ControlPlane(dp, cp.code, own, table, patterns)
    ensures dp.code == cp.code
    ensures Agree(Sim(cp, dp, DpNames(own), true)) && Agree(Sim(dp, cp, DpNames(own), true))
  {
    var names := DpNames(own);
    forall f | f in cp.code ensures f in dp.code && dp.code[f] == cp.code[f] && Within(cp.code[f], names, true) {
      assert ToDp(cp.code[f]).Some?;
      ConversionExactly(cp.code[f], names);
    }
    var a, b := Sim(cp, dp, names, true), Sim(dp, cp, names, true);
    forall f | f in names ensures SameFunction(a, f) && SameFunction(b, f) {
      forall async, ls | LitsOk(true, ls) ensures SameForeign(a, f, async, ls) && SameForeign(b, f, async, ls) {
        assert AllDp(ls);
      }
    }
    forall l, p | LitOk(true, l) ensures SameMatch(a, l, p) && SameMatch(b, l, p) {}
  }

  /** Converting and then evaluating on the data plane gives what evaluating on
      the control plane and then converting gives, result or error; in particular
      the result always converts. */
  lemma ConversionCommutesWithEvaluation(dp: Env, cp: Env, own: string -> bool, table: Table,
                                         patterns: (Literal, Pattern) -> Option<Option<map<string, Literal>>>,
                                           e: Expr, k: nat)
    requires Converted(dp, cp, own) && cp == ControlPlane(dp, cp.code, own, table, patterns)
    requires Closed(e, 0) && Within(e, DpNames(own), false) && ToDp(e).Some?
    ensures Eval(dp, ToDp(e).value, k)
         == match Eval(cp, e, k)
            case Ok(v) => (match ToDp(v) case Some(w) => Ok(w) case None => Err(Failed))
            case Err(err) => Err(err)
    ensures Eval(cp, e, k).Ok? ==> ToDp(Eval(cp, e, k).value).Some?
  {
    var names := DpNames(own);
    PlanesAgree(dp, cp, own, table, patterns);
    ConversionExactly(e, names);
    InstClosed(e, 0, []);
    Simulate(Sim(cp, dp, names, true), e, [], [], k, k);
    Simulate(Sim(dp, cp, names, true), e, [], [], k, k);
    var r := Eval(cp, e, k);
    if r.Ok? {
      ValueScoped(r.value, names);
      ConversionExactly(r.value, names);
    }
  }
}
