/** Compiling a global policy function into the egress or ingress policy of one
    service (src/armour-control/src/specialize.rs:699-898). */
module Compile {
  import opened Prelude
  import opened Syntax
  import opened Terms
  import opened TermLaws
  import opened TermProps
  import opened Interpret
  import opened Scope
  import opened Simulation
  import opened Shapes
  import opened Specialize
  import opened Safety
  import opened ResidualScope
  import opened Soundness

  datatype Signature = Signature(args: seq<string>, ret: string)

  /** A program with the signatures of its functions. */
  datatype Policy = Policy(env: Env, headers: map<string, Signature>)

  /** A compiled function: its code, its new signature and its recorded arity. */
  datatype Compiled = Compiled(code: Expr, header: Signature, arity: nat)

  const REST_REQUEST: string := "allow_rest_request"
  const REST_RESPONSE: string := "allow_rest_response"
  const TCP_CONNECTION: string := "allow_tcp_connection"
  const TCP_DISCONNECT: string := "on_tcp_disconnect"

  // ----- the source's operations -----

  /** The parameters after the two IDs. */
  function PayloadTypes(fn: string): Option<seq<string>> {
    if fn == REST_REQUEST then Some(["HttpRequest", "data"])
    else if fn == REST_RESPONSE then Some(["HttpResponse", "data"])
    else if fn == TCP_CONNECTION then Some(["Connection"])
    else if fn == TCP_DISCONNECT then Some(["Connection", "i64", "i64"])
    else None
  }

  function CheckHeader(pol: Policy, fn: string): Result<nat> {
    match PayloadTypes(fn)
    case None => Err(Failed)
    case Some(types) =>
      if fn in pol.headers && pol.headers[fn] == Signature(["ID", "ID"] + types, "bool")
      then Ok(2 + |types|) else Err(Failed)
  }

  /** The builtin that reads the peer out of a request, response or connection. */
  function Getter(fn: string, egress: bool): string {
    (if fn == REST_REQUEST then "HttpRequest" else if fn == REST_RESPONSE then "HttpResponse" else "Connection")
    + (if egress then "::to" else "::from")
  }

  function GetPeer(fn: string, egress: bool, x: string, i: nat): Expr {
    Node(CallExpr(Getter(fn, egress), false), One(BVar(x, i)))
  }

  /** Reads the peer from the first remaining parameter and binds those that remain. */
  function Wrapped(fn: string, egress: bool, e: Expr): Expr {
    if fn == TCP_CONNECTION then
      Lambda(["con"], Subst(e, 1, GetPeer(fn, egress, "conn", 0), false))
    else if fn == TCP_DISCONNECT then
      var inner := Lambda([if egress then "to" else "from", "req", "i", "j"], e);
      Lambda(["conn", "i", "j"], Subst(inner, 3, GetPeer(fn, egress, "conn", 2), false))
    else
      Lambda(["req", "payload"], Subst(e, 2, GetPeer(fn, egress, "req", 1), false))
  }

  /** The body that is partially evaluated: this service's ID is put in. */
  function Prepared(code: Expr, n: nat, egress: bool, own: Literal): Option<Expr>
    requires n >= 2
  {
    AtDepth(PropagateSubst(code, if egress then n - 1 else n - 2, if egress then 0 else 1, Lit(own)), n - 1)
  }

  function CompileFunction(pol: Policy, fn: string, egress: bool, own: Literal, fuel: nat): Result<Compiled>
    requires fn in pol.env.code
  {
    match CheckHeader(pol, fn)
    case Err(err) => Err(err)
    case Ok(n) =>
      match Prepared(pol.env.code[fn], n, egress, own)
      case None => Err(Failed)
      case Some(body) =>
        match PEvaluate(pol.env, body, false, fuel)
        case Err(err) => Err(err)
        case Ok(p) =>
          Ok(Compiled(Wrapped(fn, egress, p.e), Signature(PayloadTypes(fn).value, "bool"), n - 2))
  }

  /** All protocols that define the function; the source's loop over the policies. */
  method CompileAll(policies: map<string, Policy>, fn: string, egress: bool, own: Literal, fuel: nat)
    returns (r: Result<map<string, Compiled>>)
    ensures r.Ok? ==>
      && (forall p :: p in r.value <==> p in policies && fn in policies[p].env.code)
      && (forall p :: p in r.value ==> CompileFunction(policies[p], fn, egress, own, fuel) == Ok(r.value[p]))
    ensures r.Err? <==>
      exists p :: p in policies && fn in policies[p].env.code
        && CompileFunction(policies[p], fn, egress, own, fuel).Err?
  {
    var compiled: map<string, Compiled> := map[];
    var todo := policies.Keys;
    while todo != {}
      invariant todo <= policies.Keys
      invariant forall p :: p in compiled <==> p in policies.Keys - todo && fn in policies[p].env.code
      invariant forall p :: p in compiled ==> CompileFunction(policies[p], fn, egress, own, fuel) == Ok(compiled[p])
    {
      var p :| p in todo;
      todo := todo - {p};
      if fn in policies[p].env.code {
        var c := CompileFunction(policies[p], fn, egress, own, fuel);
        if c.Err? { return Err(c.error); }
        compiled := compiled[p := c.value];
      }
    }
    return Ok(compiled);
  }

  // ----- parameters -----

  function Params(e: Expr): seq<string> {
    if e.Closure? then [e.id] + Params(e.body) else []
  }

  function Body(e: Expr): (b: Expr)
    ensures !b.Closure?
  {
    if e.Closure? then Body(e.body) else e
  }

  lemma {:induction false} ParamsBody(e: Expr, n: nat)
    requires Closed(e, n)
    ensures e == Lambda(Params(e), Body(e)) && Closed(Body(e), n + |Params(e)|)
  {
    if e.Closure? {
      ParamsBody(e.body, n + 1);
      assert Params(e)[1..] == Params(e.body);
    }
  }

  lemma AtDepthLambda(vs: seq<string>, body: Expr)
    requires !body.Closure?
    ensures AtDepth(Lambda(vs, body), |vs|) == Some(body)
    decreases |vs|
  {}

  // ----- reading the peer where its variable stood -----

  /** Index `i` occurs under no closure. */
  predicate Unbound(e: Expr, i: nat) {
    match e
    case Closure(_, b) => IsFree(b, i + 1)
    case Node(_, es) => UnboundList(es, i)
    case _ => true
  }

  predicate UnboundList(es: List<Expr>, i: nat) {
    es.Cons? ==> Unbound(es.head, i) && UnboundList(es.tail, i)
  }

  predicate Distinct(s: seq<Expr>) { forall i, j :: 0 <= i < j < |s| ==> s[i] != s[j] }

  /** A call of `g` on the dangling index `|s| - 1`, and the same call opened. */
  function OpenCall(g: string, x: string, s: seq<Expr>): Expr
    requires s != []
  {
    Node(CallExpr(g, false), One(BVar(x, |s| - 1)))
  }

  function PeerCall(g: string, s: seq<Expr>): Expr
    requires s != []
  {
    Node(CallExpr(g, false), One(s[|s| - 1]))
  }

  /** Putting the unshifted call in for index `|s|` means what it should exactly
      when that index is under no binder: deeper down the call would read
      another variable (`s` being different literals). */
  lemma {:induction false} SpliceAt(e: Expr, d: nat, g: string, x: string, s: seq<Expr>)
    requires s != [] && forall i :: 0 <= i < |s| ==> s[i].Lit?
    ensures (if d == 0 then Unbound(e, |s|) else IsFree(e, d + |s|))
        ==> Inst(Subst(e, d + |s|, OpenCall(g, x, s), false), d, s) == Inst(e, d, s + [PeerCall(g, s)])
    ensures Distinct(s) && Inst(Subst(e, d + |s|, OpenCall(g, x, s), false), d, s) == Inst(e, d, s + [PeerCall(g, s)])
        ==> if d == 0 then Unbound(e, |s|) else IsFree(e, d + |s|)
  {
    match e
    case BVar(_, j) =>
      if j == d + |s| {
        var n := |s| - 1;
        assert InstList(One(BVar(x, n)), d, s) == One(Inst(BVar(x, n), d, s));
        assert Inst(OpenCall(g, x, s), d, s) == Node(CallExpr(g, false), One(Inst(BVar(x, n), d, s)));
        if 0 < d <= n { assert Distinct(s) ==> s[n - d] != s[n]; }
      }
    case Closure(_, b) => SpliceAt(b, d + 1, g, x, s);
    case Node(_, es) => SpliceAtList(es, d, g, x, s);
    case _ =>
  }

  lemma {:induction false} SpliceAtList(es: List<Expr>, d: nat, g: string, x: string, s: seq<Expr>)
    requires s != [] && forall i :: 0 <= i < |s| ==> s[i].Lit?
    ensures (if d == 0 then UnboundList(es, |s|) else IsFreeList(es, d + |s|))
        ==> InstList(SubstList(es, d + |s|, OpenCall(g, x, s), false), d, s) == InstList(es, d, s + [PeerCall(g, s)])
    ensures Distinct(s)
        && InstList(SubstList(es, d + |s|, OpenCall(g, x, s), false), d, s) == InstList(es, d, s + [PeerCall(g, s)])
        ==> if d == 0 then UnboundList(es, |s|) else IsFreeList(es, d + |s|)
  {
    if es.Cons? { SpliceAt(es.head, d, g, x, s); SpliceAtList(es.tail, d, g, x, s); }
  }

  // ----- the compiled program -----

  /** No call to a function of the program. */
  predicate NoUserCalls(e: Expr, code: set<string>) {
    match e
    case Closure(_, b) => NoUserCalls(b, code)
    case Node(t, es) => (t.CallExpr? ==> t.fn !in code) && NoUserCallsList(es, code)
    case _ => true
  }

  predicate NoUserCallsList(es: List<Expr>, code: set<string>) {
    es.Cons? ==> NoUserCalls(es.head, code) && NoUserCallsList(es.tail, code)
  }

  ghost function Foreign(code: set<string>): iset<string> { iset f: string | f !in code }

  lemma {:induction false} NoUserCallsWithin(e: Expr, code: set<string>)
    requires NoUserCalls(e, code)
    ensures Within(e, Foreign(code), false)
  {
    match e
    case Closure(_, b) => NoUserCallsWithin(b, code);
    case Node(_, es) => NoUserCallsWithinList(es, code);
    case _ =>
  }

  lemma {:induction false} NoUserCallsWithinList(es: List<Expr>, code: set<string>)
    requires NoUserCallsList(es, code)
    ensures WithinList(es, Foreign(code), false)
  {
    if es.Cons? { NoUserCallsWithin(es.head, code); NoUserCallsWithinList(es.tail, code); }
  }

  lemma {:induction false} ShiftNoUserCalls(e: Expr, i: nat, d: nat, code: set<string>)
    requires NoUserCalls(e, code)
    ensures NoUserCalls(Shift(e, i, d), code)
  {
    match e
    case Closure(_, b) => ShiftNoUserCalls(b, i, d + 1, code);
    case Node(_, es) => ShiftNoUserCallsList(es, i, d, code);
    case _ =>
  }

  lemma {:induction false} ShiftNoUserCallsList(es: List<Expr>, i: nat, d: nat, code: set<string>)
    requires NoUserCallsList(es, code)
    ensures NoUserCallsList(ShiftList(es, i, d), code)
  {
    if es.Cons? { ShiftNoUserCalls(es.head, i, d, code); ShiftNoUserCallsList(es.tail, i, d, code); }
  }

  lemma {:induction false} SubstNoUserCalls(e: Expr, i: nat, u: Expr, down: bool, code: set<string>)
    requires NoUserCalls(e, code) && NoUserCalls(u, code)
    ensures NoUserCalls(Subst(e, i, u, down), code)
  {
    match e
    case BVar(_, j) => if j == i { ShiftNoUserCalls(u, i, 0, code); }
    case Closure(_, b) => SubstNoUserCalls(b, i + 1, u, down, code);
    case Node(_, es) => SubstNoUserCallsList(es, i, u, down, code);
    case _ =>
  }

  lemma {:induction false} SubstNoUserCallsList(es: List<Expr>, i: nat, u: Expr, down: bool, code: set<string>)
    requires NoUserCallsList(es, code) && NoUserCalls(u, code)
    ensures NoUserCallsList(SubstList(es, i, u, down), code)
  {
    if es.Cons? {
      SubstNoUserCalls(es.head, i, u, down, code);
      SubstNoUserCallsList(es.tail, i, u, down, code);
    }
  }

  /** What the service runs: the compiled function alone, with the same builtins. */
  function CompiledEnv(env: Env, fn: string, code: Expr): Env { env.(code := map[fn := code]) }

  function Lits(ls: seq<Literal>): (s: seq<Expr>)
    ensures |s| == |ls| && forall i :: 0 <= i < |s| ==> s[i] == Lit(ls[i])
  {
    seq(|ls|, i requires 0 <= i < |ls| => Lit(ls[i]))
  }

  function CallOn(fn: string, ls: seq<Literal>): Expr {
    Node(CallExpr(fn, false), ToList(Lits(ls)))
  }

  lemma ToListAt(us: seq<Expr>)
    requires forall i :: 0 <= i < |us| ==> us[i].Lit?
    ensures AllValues(ToList(us)) && LitList(ToList(us)) && FirstReturn(ToList(us)).None?
  {}

  lemma EvalArgs(env: Env, us: seq<Expr>, k: nat)
    requires forall i :: 0 <= i < |us| ==> us[i].Lit?
    ensures EvalList(env, ToList(us), k) == Ok(ToList(us))
  {
    if us != [] { EvalArgs(env, us[1..], k); }
  }

  /** Calling a user function opens its body, one call deeper. */
  lemma CallOpens(env: Env, fn: string, ls: seq<Literal>, k: nat)
    requires fn in env.code && Closed(env.code[fn], 0) && |Params(env.code[fn])| == |ls|
    ensures Eval(env, CallOn(fn, ls), k)
         == if k == 0 then Err(TooDeep) else Evaluate(env, Inst(Body(env.code[fn]), 0, Reversed(Lits(ls))), k - 1)
  {
    hide Closed, Inst;
    var code, us := env.code[fn], Lits(ls);
    var args := ToList(us);
    EvalArgs(env, us, k);
    ToListAt(us);
    ParamsBody(code, 0);
    assert AllClosed(us) by { forall i | 0 <= i < |us| ensures Closed(us[i], 0) { ValueClosed(us[i]); } }
    ApplyLambda(Params(code), Body(code), us);
    assert EvalNode(env, CallExpr(fn, false), args, k) == EvalCallExpr(env, fn, false, args, k);
    assert EvalCallExpr(env, fn, false, args, k) == EvalCall(env, fn, false, args, k);
  }

  // ----- end to end -----

  /** A `return` that is stripped from the residual must not hide another one. */
  predicate StripSafe(code: map<string, Expr>, r: Result<Part>) {
    r.Ok? && IsReturn(r.value.e) && r.value.e.subs.Cons? ==> Settles(code, r.value.e.subs.head)
  }

  /** Partial evaluation as the specializer calls it: one outer `return` of the
      residual is stripped, as it is from the value of a call. */
  lemma PEvaluatePreservesMeaning(env: Env, now: Table, e: Expr, fuel: nat, args: seq<Expr>, k: nat, v: Expr)
    requires ClosedEnv(env) && (forall i :: 0 <= i < |args| ==> args[i].Lit?)
    requires PEvaluate(env, e, false, fuel).Ok? && Safe(env, now, e, false, fuel)
    requires StripSafe(env.code, PEval(env, e, false, fuel))
    requires Evaluate(env.(call := now), Inst(e, 0, args), k) == Ok(v)
    ensures var p := PEvaluate(env, e, false, fuel).value;
      Evaluate(env.(call := now), Inst(p.e, 0, args), k) == Ok(v) && (p.known ==> p.e == v)
  {
    hide Safe, Settles, PEval;
    var c := Run(env, env.(call := now), args, k);
    var p, w := PEval(env, e, false, fuel).value, Eval1(c, e).value;
    PEvalPreservesMeaning(env, now, e, false, fuel, args, k, w);
    if p.e.Node? && p.e.tag.ReturnExpr? && p.e.subs.Cons? && p.e.subs.tail.Nil? {
      Inst1(ReturnExpr, p.e.subs.head, args);
      FreeLit(c, p.e.subs.head, Eval1(c, p.e.subs.head).value);
    } else {
      assert StripReturn(p.e) == p.e;
    }
  }

  /** The function to compile, this service's ID, and one request with the
      builtins as they are when it comes: `rest` are the parameters after the two
      IDs, the first of which tells the peer's ID. */
  datatype Job = Job(pol: Policy, fn: string, egress: bool, own: Literal, fuel: nat,
                     now: Table, rest: seq<Literal>, peer: Literal)

  /** The program when the request comes. */
  function Then(j: Job): Env { j.pol.env.(call := j.now) }

  /** What the global policy is called with. */
  function GlobalArgs(j: Job): seq<Literal> {
    (if j.egress then [j.own, j.peer] else [j.peer, j.own]) + j.rest
  }

  /** Which builtin tells the ID at the other end: on the way out it is the
      receiver, on the way in the sender. */
  const PEER_OF: map<(string, bool), string> := map[
    (REST_REQUEST, true) := "HttpRequest::to", (REST_REQUEST, false) := "HttpRequest::from",
    (REST_RESPONSE, true) := "HttpResponse::to", (REST_RESPONSE, false) := "HttpResponse::from",
    (TCP_CONNECTION, true) := "Connection::to", (TCP_CONNECTION, false) := "Connection::from"]

  /** The headers that are accepted: two IDs, what is asked about, and a bool. */
  const HEADERS: map<string, seq<string>> := map[
    REST_REQUEST := ["ID", "ID", "HttpRequest", "data"],
    REST_RESPONSE := ["ID", "ID", "HttpResponse", "data"],
    TCP_CONNECTION := ["ID", "ID", "Connection"],
    TCP_DISCONNECT := ["ID", "ID", "Connection", "i64", "i64"]]

  /** No other function is compiled, and these only with these parameters. */
  lemma HeaderExactly(pol: Policy, fn: string)
    ensures CheckHeader(pol, fn).Ok? <==>
      fn in HEADERS && fn in pol.headers && pol.headers[fn] == Signature(HEADERS[fn], "bool")
    ensures CheckHeader(pol, fn).Ok? ==> CheckHeader(pol, fn).value == |HEADERS[fn]|
    ensures fn in HEADERS ==> PayloadTypes(fn) == Some(HEADERS[fn][2..])
  {
    NamesDiffer();
    if fn in HEADERS {
      assert HEADERS[fn][..2] == ["ID", "ID"];
      assert ["ID", "ID"] + HEADERS[fn][2..] == HEADERS[fn];
    }
  }

  lemma NamesDiffer()
    ensures REST_REQUEST != REST_RESPONSE && REST_REQUEST != TCP_CONNECTION && REST_REQUEST != TCP_DISCONNECT
    ensures REST_RESPONSE != TCP_CONNECTION && REST_RESPONSE != TCP_DISCONNECT && TCP_CONNECTION != TCP_DISCONNECT
  {}

  /** Compiling is accepting the header and partially evaluating the body. */
  lemma CompilesExactly(pol: Policy, fn: string, egress: bool, own: Literal, fuel: nat)
    requires fn in pol.env.code
    ensures CompileFunction(pol, fn, egress, own, fuel).Ok? <==>
      && CheckHeader(pol, fn).Ok?
      && var body := Prepared(pol.env.code[fn], |HEADERS[fn]|, egress, own);
         body.Some? && PEval(pol.env, body.value, false, fuel).Ok?
  {
    HeaderExactly(pol, fn);
    hide PEval, Prepared, CheckHeader;
  }

  lemma GetterReadsPeer(fn: string, egress: bool)
    requires fn in {REST_REQUEST, REST_RESPONSE, TCP_CONNECTION}
    ensures (fn, egress) in PEER_OF && Getter(fn, egress) == PEER_OF[(fn, egress)]
  {
    assert REST_REQUEST != REST_RESPONSE && REST_REQUEST != TCP_CONNECTION && REST_RESPONSE != TCP_CONNECTION;
  }

  ghost predicate WellFormed(j: Job) {
    && j.fn in {REST_REQUEST, REST_RESPONSE, TCP_CONNECTION} && j.fn in HEADERS && 2 + |j.rest| == |HEADERS[j.fn]|
    && ClosedEnv(j.pol.env) && j.fn in j.pol.env.code && |Params(j.pol.env.code[j.fn])| == 2 + |j.rest|
    && (j.fn, j.egress) in PEER_OF
    && var getter := PEER_OF[(j.fn, j.egress)];
       && getter !in j.pol.env.code && j.pol.env.isBuiltin(getter)
       && j.now(getter, [j.rest[0]]) == Some(j.peer)
  }

  function PreparedBody(j: Job): Expr
    requires j.fn in j.pol.env.code
  {
    match Prepared(j.pol.env.code[j.fn], 2 + |j.rest|, j.egress, j.own) case Some(b) => b case None => Lit(UNIT)
  }

  /** The conditions under which compiling is trusted: the partial evaluation is
      safe, and its residual reads the peer's ID under no binder and calls no
      user function. */
  predicate Trusted(j: Job)
    requires j.fn in j.pol.env.code
  {
    && Safe(j.pol.env, j.now, PreparedBody(j), false, j.fuel)
    && StripSafe(j.pol.env.code, PEval(j.pol.env, PreparedBody(j), false, j.fuel))
    && var p := PEvaluate(j.pol.env, PreparedBody(j), false, j.fuel);
       p.Ok? ==> Unbound(p.value.e, |j.rest|) && NoUserCalls(p.value.e, j.pol.env.code.Keys)
  }

  /** Putting the own ID in is partial application of the global function. */
  lemma PreparedOpens(j: Job)
    requires WellFormed(j)
    ensures Prepared(j.pol.env.code[j.fn], 2 + |j.rest|, j.egress, j.own) == Some(PreparedBody(j))
    ensures Closed(PreparedBody(j), 1 + |j.rest|)
    ensures PreparedBody(j)
         == Subst(Body(j.pol.env.code[j.fn]), if j.egress then 1 + |j.rest| else |j.rest|, Lit(j.own), true)
    ensures Inst(PreparedBody(j), 0, Reversed(Lits(j.rest)) + [Lit(j.peer)])
         == Inst(Body(j.pol.env.code[j.fn]), 0, Reversed(Lits(GlobalArgs(j))))
  {
    hide Inst, Subst, Closed;
    var code, n, own := j.pol.env.code[j.fn], 2 + |j.rest|, Lit(j.own);
    var vs, body := Params(code), Body(code);
    var k, i := if j.egress then 0 else 1, if j.egress then n - 1 else n - 2;
    ParamsBody(code, 0);
    PropagateLambda(vs, body, i, k, own);
    var b := Subst(body, i, own, true);
    SubstNotClosure(body, i, j.own);
    AtDepthLambda(vs[..k] + vs[k + 1..], b);
    LitClosed(j.own);
    ClosedSubst(body, n - 1, i, own);
    var s := Reversed(Lits(j.rest)) + [Lit(j.peer)];
    LitsClosed(s);
    SubstBelow(body, 0, i, own, s);
    ArgsReversed(j);
  }

  /** The own ID goes in where the arguments leave it out. */
  lemma ArgsReversed(j: Job)
    ensures var s := Reversed(Lits(j.rest)) + [Lit(j.peer)];
      var i := if j.egress then |s| else |s| - 1;
      s[..i] + [Lit(j.own)] + s[i..] == Reversed(Lits(GlobalArgs(j)))
  {
    hide Reversed;
    var us, own, peer := Lits(j.rest), Lit(j.own), Lit(j.peer);
    if j.egress {
      assert Lits(GlobalArgs(j)) == [own, peer] + us;
      ReversedTwo(own, peer, us);
      InsertLast(Reversed(us), peer, own);
    } else {
      assert Lits(GlobalArgs(j)) == [peer, own] + us;
      ReversedTwo(peer, own, us);
      InsertBefore(Reversed(us), peer, own);
    }
  }

  lemma InsertLast(r: seq<Expr>, x: Expr, y: Expr)
    ensures var s := r + [x]; s[..|s|] + [y] + s[|s|..] == r + [x, y]
  {}

  lemma InsertBefore(r: seq<Expr>, x: Expr, y: Expr)
    ensures var s := r + [x]; s[..|s| - 1] + [y] + s[|s| - 1..] == r + [y, x]
  {
    var s := r + [x];
    assert s[..|s| - 1] == r && s[|s| - 1..] == [x];
  }

  lemma ReversedTwo(a: Expr, b: Expr, us: seq<Expr>)
    ensures Reversed([a, b] + us) == Reversed(us) + [b, a]
  {
    assert ([a, b] + us)[1..] == [b] + us && ([b] + us)[1..] == us;
    assert Reversed(us) + [b] + [a] == Reversed(us) + [b, a];
  }

  lemma LitClosed(l: Literal)
    ensures Closed(Lit(l), 0)
  {}

  lemma LitsClosed(s: seq<Expr>)
    requires forall i :: 0 <= i < |s| ==> s[i].Lit?
    ensures AllClosed(s)
  {}

  lemma SubstNotClosure(e: Expr, i: nat, l: Literal)
    requires !e.Closure?
    ensures !Subst(e, i, Lit(l), true).Closure?
  {
    LitClosed(l);
    ShiftClosed(Lit(l), i, 0);
  }

  /** The compiled code binds the remaining parameters around the residual, the
      peer's ID replaced by a call. */
  lemma WrappedIs(fn: string, egress: bool, e: Expr, s: seq<Expr>)
    requires fn in {REST_REQUEST, REST_RESPONSE, TCP_CONNECTION} && |s| == if fn == TCP_CONNECTION then 1 else 2
    ensures var x := if fn == TCP_CONNECTION then "conn" else "req";
      Wrapped(fn, egress, e)
      == Lambda(if fn == TCP_CONNECTION then ["con"] else ["req", "payload"],
                Subst(e, |s|, OpenCall(Getter(fn, egress), x, s), false))
  {
    NamesDiffer();
    hide Getter, Lambda, Subst;
  }

  lemma HeaderLength(fn: string)
    requires fn in {REST_REQUEST, REST_RESPONSE, TCP_CONNECTION}
    ensures fn in HEADERS && |HEADERS[fn]| == if fn == TCP_CONNECTION then 3 else 4
  {
    NamesDiffer();
  }

  /** Reading the peer's ID from the request gives the peer's ID. */
  lemma PeerValue(j: Job, s: seq<Expr>, k: nat)
    requires WellFormed(j) && s != [] && s[|s| - 1] == Lit(j.rest[0])
    ensures Closed(PeerCall(Getter(j.fn, j.egress), s), 0)
    ensures Eval(Then(j), PeerCall(Getter(j.fn, j.egress), s), k) == Ok(Lit(j.peer))
  {
    GetterReadsPeer(j.fn, j.egress);
    hide Getter;
    var env, g, l := Then(j), Getter(j.fn, j.egress), j.rest[0];
    var args := One(Lit(l));
    assert PeerCall(g, s) == Node(CallExpr(g, false), args);
    assert ClosedList(Nil, 0) && Closed(Lit(l), 0);
    assert ClosedList(args, 0);
    LiteralArg(env, l, k);
    CallFirst(env, g, false, args, k);
    hide Eval, EvalList;
  }

  lemma LiteralArg(env: Env, l: Literal, k: nat)
    ensures var args := One(Lit(l));
      EvalList(env, args, k) == Ok(args) && Literals(args) == Some([l]) && FirstReturn(args).None?
  {
    assert EvalList(env, Nil, k) == Ok(Nil) && Literals(Nil) == Some([]) && FirstReturn(Nil).None?;
    assert [l] + [] == [l];
  }

  function ResidualOf(j: Job): Expr
    requires j.fn in j.pol.env.code
  {
    var p := PEvaluate(j.pol.env, PreparedBody(j), false, j.fuel);
    if p.Ok? then p.value.e else Lit(UNIT)
  }

  ghost function Opening(j: Job): seq<Expr> { Reversed(Lits(j.rest)) }

  /** The residual, opened with the request and the call that reads the peer. */
  lemma ResidualAgrees(j: Job, k: nat, v: Expr)
    requires WellFormed(j) && Trusted(j) && PEvaluate(j.pol.env, PreparedBody(j), false, j.fuel).Ok?
    requires Evaluate(Then(j), Inst(Body(j.pol.env.code[j.fn]), 0, Reversed(Lits(GlobalArgs(j)))), k) == Ok(v)
    ensures Evaluate(Then(j), Inst(ResidualOf(j), 0, Opening(j) + [PeerCall(Getter(j.fn, j.egress), Opening(j))]), k)
        == Ok(v)
    ensures Closed(ResidualOf(j), 1 + |j.rest|)
  {
    hide Safe, Closed, Getter, PEval, Body, Inst, Eval;
    var env, e, s := Then(j), ResidualOf(j), Opening(j);
    var values, calls := s + [Lit(j.peer)], s + [PeerCall(Getter(j.fn, j.egress), s)];
    PreparedOpens(j);
    PEvaluatePreservesMeaning(j.pol.env, j.now, PreparedBody(j), j.fuel, values, k, v);
    PeerValue(j, s, k);
    forall i | 0 <= i < |values|
      ensures IsValue(values[i]) && Closed(calls[i], 0) && Eval(env, calls[i], k) == Ok(values[i])
    {
      if i < |s| { LitClosed(values[i].lit); EvalValue(env, values[i], k); }
    }
    ValueFor(env, e, values, calls, k, k);
    TightResidual(j.pol.env, j.now, PreparedBody(j), 1 + |j.rest|, false, j.fuel);
    StripBound(PEval(j.pol.env, PreparedBody(j), false, j.fuel).value.e, 1 + |j.rest|);
  }

  lemma {:induction false} SubstTop(e: Expr, i: nat, u: Expr)
    requires Closed(e, i + 1) && Closed(u, i)
    ensures Closed(Subst(e, i, u, false), i)
  {
    match e
    case Closure(_, b) => ClosedMono(u, i, i + 1); SubstTop(b, i + 1, u);
    case Node(_, es) => SubstTopList(es, i, u);
    case _ =>
  }

  lemma {:induction false} SubstTopList(es: List<Expr>, i: nat, u: Expr)
    requires ClosedList(es, i + 1) && Closed(u, i)
    ensures ClosedList(SubstList(es, i, u, false), i)
  {
    if es.Cons? { SubstTop(es.head, i, u); SubstTopList(es.tail, i, u); }
  }

  /** Code that calls no user function means the same in the compiled program. */
  lemma SameProgram(env: Env, fn: string, code: Expr, e: Expr, s: seq<Expr>, k: nat)
    requires fn in env.code && NoUserCalls(e, env.code.Keys) && forall i :: 0 <= i < |s| ==> s[i].Lit?
    ensures var r := Eval(env, Inst(e, 0, s), k);
      r != Err(TooDeep) ==> Eval(CompiledEnv(env, fn, code), Inst(e, 0, s), k) == r
  {
    hide Inst;
    var w := Sim(env, CompiledEnv(env, fn, code), Foreign(env.code.Keys), false);
    assert Agree(w) by {
      forall f | f in w.names ensures SameFunction(w, f) {
        forall async, ls ensures SameForeign(w, f, async, ls) {}
      }
    }
    LitsClosed(s);
    forall i | 0 <= i < |s| ensures Within(s[i], w.names, false) && Eval(w.b, s[i], k) == Ok(s[i]) {}
    NoUserCallsWithin(e, env.code.Keys);
    Simulate(w, e, s, s, k, k);
  }

  /** A residual call of another user function is lost: what reaches it has no value
      in the compiled program, unless an argument returns. */
  lemma UserCallIsGone(env: Env, fn: string, code: Expr, g: string, async: bool, args: List<Expr>, k: nat)
    requires g != fn && !env.isBuiltin(g) && !env.isExternal(g)
    ensures var r := Eval(CompiledEnv(env, fn, code), Node(CallExpr(g, async), args), k); r.Ok? ==> IsReturn(r.value)
  {
    var one := CompiledEnv(env, fn, code);
    CallFirst(one, g, async, args, k);
    hide Eval, EvalList;
    var vs := EvalList(one, args, k);
    if vs.Ok? {
      FirstReturns(vs.value);
      if FirstReturn(vs.value).None? { assert forall ls :: ForeignCall(one, g, async, ls) == Err(Failed); }
    }
  }

  lemma CallFirst(env: Env, g: string, async: bool, args: List<Expr>, k: nat)
    ensures Eval(env, Node(CallExpr(g, async), args), k) == EvalCallExpr(env, g, async, args, k)
  {
    assert EvalNode(env, CallExpr(g, async), args, k) == EvalCallExpr(env, g, async, args, k);
  }

  lemma FirstReturns(vs: List<Expr>)
    ensures FirstReturn(vs).Some? ==> IsReturn(FirstReturn(vs).value)
  {}

  /** Reading the peer's ID where its variable stood, in the one-function program. */
  lemma SplicedRuns(env: Env, fn: string, code: Expr, e: Expr, g: string, x: string, s: seq<Expr>, k: nat, v: Expr)
    requires s != [] && (forall i :: 0 <= i < |s| ==> s[i].Lit?) && fn in env.code && g !in env.code
    requires Unbound(e, |s|) && NoUserCalls(e, env.code.Keys) && Closed(e, |s| + 1)
    requires Evaluate(env, Inst(e, 0, s + [PeerCall(g, s)]), k) == Ok(v)
    ensures var e' := Subst(e, |s|, OpenCall(g, x, s), false);
      && Closed(e', |s|) && !e'.Closure?
      && Evaluate(CompiledEnv(env, fn, code), Inst(e', 0, s), k) == Ok(v)
  {
    hide Inst, Eval, Subst, Closed, NoUserCalls, Unbound, OpenCall;
    var call := OpenCall(g, x, s);
    var e' := Subst(e, |s|, call, false);
    SpliceAt(e, 0, g, x, s);
    OpenCallFine(g, x, s, env.code.Keys);
    SubstTop(e, |s|, call);
    SubstNoUserCalls(e, |s|, call, false, env.code.Keys);
    SameProgram(env, fn, code, e', s, k);
    NotClosureRuns(env, e', s, k);
  }

  /** The code the compiled function runs on the remaining arguments. */
  lemma CompiledBody(j: Job, k: nat, v: Expr)
    requires WellFormed(j) && Trusted(j) && PEvaluate(j.pol.env, PreparedBody(j), false, j.fuel).Ok?
    requires Evaluate(Then(j), Inst(Body(j.pol.env.code[j.fn]), 0, Reversed(Lits(GlobalArgs(j)))), k) == Ok(v)
    ensures var x := if j.fn == TCP_CONNECTION then "conn" else "req";
      var e := Subst(ResidualOf(j), |j.rest|, OpenCall(Getter(j.fn, j.egress), x, Opening(j)), false);
      var code := Wrapped(j.fn, j.egress, ResidualOf(j));
      && Closed(e, |j.rest|) && !e.Closure?
      && Evaluate(CompiledEnv(Then(j), j.fn, code), Inst(e, 0, Opening(j)), k) == Ok(v)
  {
    hide Safe, Getter, PEval, Body, Inst, Eval, Wrapped, Closed, Subst, StripSafe;
    GetterReadsPeer(j.fn, j.egress);
    ResidualAgrees(j, k, v);
    var x := if j.fn == TCP_CONNECTION then "conn" else "req";
    SplicedRuns(Then(j), j.fn, Wrapped(j.fn, j.egress, ResidualOf(j)), ResidualOf(j), Getter(j.fn, j.egress), x,
                Opening(j), k, v);
  }

  lemma OpenCallFine(g: string, x: string, s: seq<Expr>, code: set<string>)
    requires s != [] && g !in code
    ensures Closed(OpenCall(g, x, s), |s|) && NoUserCalls(OpenCall(g, x, s), code)
  {
    assert ClosedList(Nil, |s|) && NoUserCallsList(Nil, code);
  }

  lemma NotClosureRuns(env: Env, e: Expr, s: seq<Expr>, k: nat)
    requires Evaluate(env, Inst(e, 0, s), k).Ok?
    ensures !e.Closure?
  {}

  /** End-to-end specialization, for HTTP requests and responses and TCP
      connections, egress and ingress: whatever the compiled policy is asked, it
      answers as the global policy called with this service's ID and the peer's
      ID read from the request. */
  lemma CompiledPolicyAgrees(j: Job, k: nat, v: Expr)
    requires WellFormed(j) && Trusted(j) && CompileFunction(j.pol, j.fn, j.egress, j.own, j.fuel).Ok?
    requires Eval(Then(j), CallOn(j.fn, GlobalArgs(j)), k) == Ok(v)
    ensures var c := CompileFunction(j.pol, j.fn, j.egress, j.own, j.fuel).value;
      && Eval(CompiledEnv(Then(j), j.fn, c.code), CallOn(j.fn, j.rest), k) == Ok(v)
      && j.fn in j.pol.headers && j.pol.headers[j.fn] == Signature(HEADERS[j.fn], "bool")
      && c.header == Signature(HEADERS[j.fn][2..], "bool")
      && |Params(c.code)| == c.arity == |HEADERS[j.fn]| - 2
  {
    hide Safe, Getter, PEval, Inst, Eval, Closed, Wrapped, Prepared;
    var env, s := Then(j), Opening(j);
    HeaderExactly(j.pol, j.fn);
    PreparedOpens(j);
    CallOpens(env, j.fn, GlobalArgs(j), k);
    CompiledBody(j, k - 1, v);
    var x := if j.fn == TCP_CONNECTION then "conn" else "req";
    var vs := if j.fn == TCP_CONNECTION then ["con"] else ["req", "payload"];
    var e := Subst(ResidualOf(j), |j.rest|, OpenCall(Getter(j.fn, j.egress), x, s), false);
    HeaderLength(j.fn);
    WrappedIs(j.fn, j.egress, ResidualOf(j), s);
    var code := Wrapped(j.fn, j.egress, ResidualOf(j));
    LambdaParams(vs, e);
    LambdaClosed(vs, e, 0);
    CallOpens(CompiledEnv(env, j.fn, code), j.fn, j.rest, k);
  }

  lemma LambdaParams(vs: seq<string>, body: Expr)
    requires !body.Closure?
    ensures Params(Lambda(vs, body)) == vs && Body(Lambda(vs, body)) == body
    decreases |vs|
  {}

  lemma LambdaClosed(vs: seq<string>, body: Expr, n: nat)
    requires Closed(body, n + |vs|)
    ensures Closed(Lambda(vs, body), n)
    decreases |vs|
  {
    if vs != [] { LambdaClosed(vs[1..], body, n + 1); }
  }

  /** The fourth function never works: the source binds four parameters around
      the residual and then three more, so a compiled `on_tcp_disconnect` has
      seven parameters where its header has three, and no call evaluates. */
  lemma DisconnectNeverEvaluates(pol: Policy, egress: bool, own: Literal, fuel: nat, rest: seq<Literal>, k: nat)
    requires TCP_DISCONNECT in pol.env.code && CompileFunction(pol, TCP_DISCONNECT, egress, own, fuel).Ok?
    requires |rest| == 3
    ensures var c := CompileFunction(pol, TCP_DISCONNECT, egress, own, fuel).value;
      c.arity == 3 && Eval(CompiledEnv(pol.env, TCP_DISCONNECT, c.code), CallOn(TCP_DISCONNECT, rest), k).Err?
  {
    hide PEvaluate, Prepared, Eval, Params, Wrapped, CallOn;
    var c := CompileFunction(pol, TCP_DISCONNECT, egress, own, fuel).value;
    var e := PEvaluate(pol.env, Prepared(pol.env.code[TCP_DISCONNECT], 5, egress, own).value, false, fuel).value.e;
    assert c.code == Wrapped(TCP_DISCONNECT, egress, e);
    DisconnectParams(egress, e);
    TooFewArguments(CompiledEnv(pol.env, TCP_DISCONNECT, c.code), TCP_DISCONNECT, rest, k);
  }

  /** A call that leaves parameters open ends in an error. */
  lemma TooFewArguments(env: Env, fn: string, ls: seq<Literal>, k: nat)
    requires fn in env.code && |ls| < |Params(env.code[fn])|
    ensures Eval(env, CallOn(fn, ls), k).Err?
  {
    hide Params, Lits, ToList;
    var args := ToList(Lits(ls));
    EvalArgs(env, Lits(ls), k);
    ToListAt(Lits(ls));
    LengthToList(Lits(ls));
    ManyParams(env.code[fn], args);
    var f := ApplyAll(env.code[fn], args);
    assert f.Ok? && k > 0 ==> Eval(env, f.value, k - 1) == Err(Failed);
    assert EvalCall(env, fn, false, args, k).Err?;
    assert EvalNode(env, CallExpr(fn, false), args, k) == EvalCallExpr(env, fn, false, args, k);
  }

  lemma LengthToList(us: seq<Expr>)
    ensures Length(ToList(us)) == |us|
  {}

  lemma DisconnectParams(egress: bool, e: Expr)
    ensures |Params(Wrapped(TCP_DISCONNECT, egress, e))| >= 7
  {
    var inner := Lambda([if egress then "to" else "from", "req", "i", "j"], e);
    var x := Subst(inner, 3, GetPeer(TCP_DISCONNECT, egress, "conn", 2), false);
    ManyLambda([if egress then "to" else "from", "req", "i", "j"], e);
    ParamsSubst(inner, 3, GetPeer(TCP_DISCONNECT, egress, "conn", 2), false);
    ManyLambda(["conn", "i", "j"], x);
  }

  lemma ManyLambda(vs: seq<string>, body: Expr)
    ensures |Params(Lambda(vs, body))| == |vs| + |Params(body)|
    decreases |vs|
  {}

  /** Applying to fewer arguments than there are closures leaves a closure. */
  lemma {:induction false} ManyParams(e: Expr, us: List<Expr>)
    requires Length(us) < |Params(e)|
    ensures ApplyAll(e, us).Ok? ==> ApplyAll(e, us).value.Closure?
    decreases us
  {
    if us.Cons? {
      ParamsSubst(e.body, 0, us.head, true);
      ManyParams(Subst(e.body, 0, us.head, true), us.tail);
    }
  }

  lemma {:induction false} ParamsSubst(e: Expr, i: nat, u: Expr, down: bool)
    ensures |Params(Subst(e, i, u, down))| >= |Params(e)|
  {
    if e.Closure? { ParamsSubst(e.body, i + 1, u, down); }
  }

  // ----- how many arguments a closure takes -----

  lemma {:induction false} OverApplied(e: Expr, us: List<Expr>)
    requires AllValues(us) && Length(us) > |Params(e)|
    ensures ApplyAll(e, us) == Err(Failed)
    decreases us
  {
    if e.Closure? {
      SubstParams(e.body, 0, us.head);
      OverApplied(Subst(e.body, 0, us.head, true), us.tail);
    }
  }

  lemma {:induction false} UnderApplied(e: Expr, us: List<Expr>)
    requires AllValues(us) && Length(us) < |Params(e)|
    ensures ApplyAll(e, us).Ok? && ApplyAll(e, us).value.Closure?
    decreases us
  {
    if us.Cons? {
      SubstParams(e.body, 0, us.head);
      UnderApplied(Subst(e.body, 0, us.head, true), us.tail);
    }
  }

  lemma {:induction false} SubstParams(e: Expr, i: nat, u: Expr)
    requires IsValue(u)
    ensures |Params(Subst(e, i, u, true))| == |Params(e)|
  {
    if e.Closure? { SubstParams(e.body, i + 1, u); } else { ValueClosed(u); ShiftClosed(u, i, 0); }
  }

  lemma {:induction false} InstParams(e: Expr, i: nat, s: seq<Expr>)
    requires forall j :: 0 <= j < |s| ==> s[j].Lit?
    ensures |Params(Inst(e, i, s))| == |Params(e)|
  {
    if e.Closure? { InstParams(e.body, i + 1, s); }
  }

  /** There are enough closures for these arguments, whatever they are. */
  lemma {:induction false} EnoughParams(e: Expr, us: List<Expr>)
    requires Length(us) <= |Params(e)|
    ensures ApplyAll(e, us).Ok?
    decreases us
  {
    if us.Cons? {
      ParamsSubst(e.body, 0, us.head, true);
      EnoughParams(Subst(e.body, 0, us.head, true), us.tail);
    }
  }
}
