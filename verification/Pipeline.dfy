/** The whole way of a policy: compiled for one service on the control plane,
    converted, called on the data plane,
    and enforced there
    (src/armour-control/src/specialize.rs:773-898, src/armour-lang/src/lang.rs:50-54,
    src/armour-proxy/src/http_proxy.rs:83-175). */
module Pipeline {
  import opened Prelude
  import opened Syntax
  import opened Terms
  import opened TermProps
  import opened Interpret
  import opened Scope
  import opened Simulation
  import opened Compile
  import opened DataPlane
  import opened Enforcement

  lemma CallConverts(fn: string, ls: seq<Literal>, names: iset<string>)
    requires AllDp(ls) && fn in names
    ensures Closed(CallOn(fn, ls), 0) && Within(CallOn(fn, ls), names, false)
        && ToDp(CallOn(fn, ls)) == Some(CallOn(fn, ls))
  {
    ArgsConvert(Lits(ls), names);
  }

  lemma {:induction false} ArgsConvert(us: seq<Expr>, names: iset<string>)
    requires forall i :: 0 <= i < |us| ==> us[i].Lit? && DpLit(us[i].lit)
    ensures ClosedList(ToList(us), 0) && WithinList(ToList(us), names, false)
        && ListToDp(ToList(us)) == Some(ToList(us))
  {
    if us != [] {
      assert ToDp(us[0]) == Some(us[0]);
      ArgsConvert(us[1..], names);
    }
  }

  /** What the proxy computes with the converted, compiled policy of its service on
      a request is what the global policy says about this service, that peer and
      that request; the answer is a data-plane value. */
  lemma ShippedPolicyAgrees(j: Job, dp: Env, own: string -> bool, table: Table,
                            patterns: (Literal, Pattern) -> Option<Option<map<string, Literal>>>, k: nat, v: Expr)
    requires WellFormed(j) && Trusted(j) && CompileFunction(j.pol, j.fn, j.egress, j.own, j.fuel).Ok?
    requires Eval(Then(j), CallOn(j.fn, GlobalArgs(j)), k) == Ok(v)
    requires var cp := CompiledEnv(Then(j), j.fn, CompileFunction(j.pol, j.fn, j.egress, j.own, j.fuel).value.code);
      cp == ControlPlane(dp, cp.code, own, table, patterns) && Converted(dp, cp, own)
    requires AllDp(j.rest)
    ensures Eval(dp, CallOn(j.fn, j.rest), k) == Ok(v) && ToDp(v) == Some(v)
  {
    hide Eval, ControlPlane, CompileFunction, Trusted, ToDp, CallOn;
    var cp := CompiledEnv(Then(j), j.fn, CompileFunction(j.pol, j.fn, j.egress, j.own, j.fuel).value.code);
    CompiledPolicyAgrees(j, k, v);
    assert j.fn in cp.code;
    CallConverts(j.fn, j.rest, DpNames(own));
    ConversionCommutesWithEvaluation(dp, cp, own, table, patterns, CallOn(j.fn, j.rest), k);
    WithinAll(v, DpNames(_ => false));
    ConversionExactly(v, DpNames(_ => false));
  }

  /** With that policy installed at a proxy, an undisturbed HTTP request is forwarded
      to the server exactly when the global policy is true of this service, that peer
      and that request with its bytes, in however many chunks they come. */
  lemma ShippedPolicyEnforced(j: Job, dp: Env, own: string -> bool, table: Table,
                              patterns: (Literal, Pattern) -> Option<Option<map<string, Literal>>>, k: nat, v: Expr,
                              init: HttpRules, timeout: nat, id: nat, chunks: seq<string>, request: Literal)
    requires WellFormed(j) && Trusted(j) && CompileFunction(j.pol, j.fn, j.egress, j.own, j.fuel).Ok?
    requires Eval(Then(j), CallOn(j.fn, GlobalArgs(j)), k) == Ok(v)
    requires var cp := CompiledEnv(Then(j), j.fn, CompileFunction(j.pol, j.fn, j.egress, j.own, j.fuel).value.code);
      cp == ControlPlane(dp, cp.code, own, table, patterns) && Converted(dp, cp, own)
    requires j.fn == REST_REQUEST && j.rest == [request, Flat(Other("data", Joined(chunks)))] && DpLit(request)
    requires init.env == dp
        && Rules(init, REST_REQUEST, Args(CompileFunction(j.pol, j.fn, j.egress, j.own, j.fuel).value.arity))
    ensures Forwarded(id, Joined(chunks)) in Exec(Start(init, timeout), Undisturbed(id, chunks, request), k).log
        <==> Evaluate(Then(j), CallOn(j.fn, GlobalArgs(j)), k) == Ok(Lit(BoolLit(true)))
  {
    hide Eval, ControlPlane, CompileFunction, Trusted, ToDp, CallOn, Exec, Converted;
    ShippedPolicyAgrees(j, dp, own, table, patterns, k, v);
    CompiledPolicyAgrees(j, k, v);
    UndisturbedExactly(init, timeout, id, chunks, request, k);
    assert forall rule :: Rules(init, REST_REQUEST, rule) ==> rule == Args(2);
  }
}
