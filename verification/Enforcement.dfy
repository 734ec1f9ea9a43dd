/** The HTTP proxy's enforcement protocol, one handler per request, interleaved
    with policy updates (src/armour-proxy/src/http_proxy.rs:83-273,
    src/armour-proxy/src/http_policy.rs:43-247). */
module Enforcement {
  import opened Prelude
  import opened Syntax
  import opened Terms
  import opened TermLaws
  import opened TermProps
  import opened Interpret
  import opened Shapes
  import opened Compile

  // ----- policies and their status -----

  datatype FnPolicy = Allow | Deny | Args(count: nat)

  datatype HttpRules = HttpRules(rules: map<string, FnPolicy>, env: Env)

  datatype Status = Status(timeout: nat, request: FnPolicy, response: FnPolicy, allowAll: bool)

  /** A function the policy says nothing about is denied. */
  function RuleFor(p: HttpRules, fn: string): FnPolicy { if fn in p.rules then p.rules[fn] else Deny }

  /** What the policy has for this function. */
  predicate Rules(p: HttpRules, fn: string, rule: FnPolicy) { fn in p.rules && p.rules[fn] == rule }

  function StatusFor(p: HttpRules, timeout: nat): Status {
    var request, response := RuleFor(p, REST_REQUEST), RuleFor(p, REST_RESPONSE);
    Status(timeout, request, response, request == Allow && response == Allow)
  }

  function RuleOf(st: Status, fn: string): FnPolicy { if fn == REST_REQUEST then st.request else st.response }

  /** Calls a policy function; anything but a bool is an error. */
  function EvalFn(p: HttpRules, fn: string, args: seq<Literal>, depth: nat): Result<bool> {
    match Evaluate(p.env, CallOn(fn, args), depth)
    case Ok(Lit(Flat(Bool(b)))) => Ok(b)
    case _ => Err(Failed)
  }

  /** What the interpreter makes of the call: `EvalFn` gives that bool, and an
      error for everything else. */
  ghost predicate Says(p: HttpRules, fn: string, args: seq<Literal>, depth: nat, b: bool) {
    Evaluate(p.env, CallOn(fn, args), depth) == Ok(Lit(Flat(Bool(b))))
  }

  lemma EvalFnExactly(p: HttpRules, fn: string, args: seq<Literal>, depth: nat, b: bool)
    ensures EvalFn(p, fn, args, depth) == Ok(b) <==> Says(p, fn, args, depth, b)
    ensures EvalFn(p, fn, args, depth).Err? <==> !Says(p, fn, args, depth, true) && !Says(p, fn, args, depth, false)
  {
    hide Evaluate, CallOn;
    var v := Evaluate(p.env, CallOn(fn, args), depth);
    match v
    case Ok(Lit(Flat(Bool(c)))) => assert c == b || c == !b;
    case _ =>
  }

  /** The policy an actor starts with. */
  function DenyAll(empty: Env): HttpRules {
    HttpRules(map[REST_REQUEST := Deny, REST_RESPONSE := Deny], empty.(code := map[]))
  }

  /** The actor's HTTP part: the policy, its environment and its status are
      separate fields that every method keeps together. */
  class HttpPolicy {
    var policy: HttpRules
    var env: Env
    var status: Status

    ghost predicate Valid()
      reads this
    {
      env == policy.env && status == StatusFor(policy, status.timeout)
    }

    constructor (empty: Env)
      ensures Valid() && policy == DenyAll(empty) && status.request == Deny && status.response == Deny
    {
      policy := DenyAll(empty);
      env := empty.(code := map[]);
      status := Status(5, Deny, Deny, false);
    }

    method SetPolicy(p: HttpRules)
      requires Valid()
      modifies this`policy, this`env, this`status
      ensures Valid() && policy == p && status.timeout == old(status.timeout)
      ensures forall rule :: rule != Deny ==> (status.request == rule <==> Rules(p, REST_REQUEST, rule))
      ensures forall rule :: rule != Deny ==> (status.response == rule <==> Rules(p, REST_RESPONSE, rule))
      ensures status.allowAll <==> status.request == Allow && status.response == Allow
    {
      var request := if REST_REQUEST in p.rules then p.rules[REST_REQUEST] else Deny;
      var response := if REST_RESPONSE in p.rules then p.rules[REST_RESPONSE] else Deny;
      status := status.(request := request, response := response, allowAll := request == Allow && response == Allow);
      policy := p;
      env := p.env;
    }

    method SetTimeout(secs: nat)
      requires Valid()
      modifies this`status
      ensures Valid() && status == old(status).(timeout := secs)
    {
      status := status.(timeout := secs);
    }

    /** The `GetHttpPolicy` message: a snapshot, true of the policy at this moment. */
    method Get() returns (st: Status)
      requires Valid()
      ensures st == StatusFor(policy, st.timeout)
    {
      return status;
    }

    /** The `EvalHttpFn` message: evaluated in the policy installed now. */
    method EvalHttpFn(fn: string, args: seq<Literal>, depth: nat) returns (r: Result<bool>)
      requires Valid()
      ensures r == EvalFn(policy, fn, args, depth)
      ensures r == Ok(true) <==> Says(policy, fn, args, depth, true)
      ensures r == Ok(false) <==> Says(policy, fn, args, depth, false)
    {
      EvalFnExactly(policy, fn, args, depth, true);
      EvalFnExactly(policy, fn, args, depth, false);
      var v := Evaluate(env, CallOn(fn, args), depth);
      match v {
        case Ok(Lit(Flat(Bool(b)))) => return Ok(b);
        case _ => return Err(Failed);
      }
    }
  }

  // ----- the handler of one request -----

  datatype Reply = Unauthorized | Internal | Broken | Body(body: string)

  /** Where a handler waits. */
  datatype Handler =
    | Connected                                                  // for the policy actor
    | Reading(snap: Status, body: string)                        // for the rest of the request
    | Asking(snap: Status, body: string, args: seq<Literal>)     // for the verdict on the request
    | Forwarding(snap: Status)                                   // for the server
    | AskingReply(snap: Status, body: string, args: seq<Literal>) // for the verdict on the response
    | Done(reply: Reply)

  datatype Event =
    | Installed(p: HttpRules)
    | Got(id: nat, st: Status)
    | Chunk(id: nat, data: string)
    | Evaluated(id: nat, fn: string, args: seq<Literal>, verdict: Result<bool>)
    | Forwarded(id: nat, body: string)
    | Delivered(id: nat, body: string)

  datatype State = State(policy: HttpRules, timeout: nat, handlers: map<nat, Handler>, log: seq<Event>)

  /** What can happen next: a message from the host, or one handler moving on.
      `literal` is the request or response, with its connection, as a literal. */
  datatype Action =
    | SetPolicy(p: HttpRules)
    | SetTimeout(secs: nat)
    | Arrive(id: nat, hasUri: bool)
    | GetPolicy(id: nat, answered: bool)
    | ReadChunk(id: nat, chunk: Option<string>)
    | EndOfRequest(id: nat, literal: Literal)
    | RequestVerdict(id: nat, answered: bool)
    | ServerReply(id: nat, body: Option<Option<string>>, literal: Literal)
    | ResponseVerdict(id: nat, answered: bool)

  function DataLit(s: string): Literal { Flat(Other("data", s)) }

  /** The arguments of a policy function of this arity; `None` is the panic on
      more than two. */
  function FnArgs(count: nat, literal: Literal, body: string): Option<seq<Literal>> {
    if count == 0 then Some([]) else if count == 1 then Some([literal])
    else if count == 2 then Some([literal, DataLit(body)]) else None
  }

  function Move(s: State, id: nat, h: Handler): State { s.(handlers := s.handlers[id := h]) }

  function Note(s: State, e: Event): State { s.(log := s.log + [e]) }

  function Forward(s: State, id: nat, snap: Status, body: string): State {
    Note(Move(s, id, Forwarding(snap)), Forwarded(id, body))
  }

  function Deliver(s: State, id: nat, body: string): State {
    Note(Move(s, id, Done(Body(body))), Delivered(id, body))
  }

  /** An action that is not enabled changes nothing. */
  function Next(s: State, a: Action, depth: nat): State {
    match a
    case SetPolicy(p) => Note(s.(policy := p), Installed(p))
    case SetTimeout(secs) => s.(timeout := secs)
    case Arrive(id, hasUri) =>
      if id in s.handlers then s else Move(s, id, if hasUri then Connected else Done(Internal))
    case GetPolicy(id, answered) =>
      if id in s.handlers && s.handlers[id].Connected? then
        var snap := StatusFor(s.policy, s.timeout);
        if !answered then Move(s, id, Done(Internal))
        else Note(Move(s, id, if snap.request == Deny then Done(Unauthorized) else Reading(snap, "")), Got(id, snap))
      else s
    case ReadChunk(id, chunk) =>
      if id in s.handlers && s.handlers[id].Reading? then
        var h := s.handlers[id];
        if chunk.None? then Move(s, id, Done(Broken))
        else Note(Move(s, id, Reading(h.snap, h.body + chunk.value)), Chunk(id, chunk.value))
      else s
    case EndOfRequest(id, literal) =>
      if id in s.handlers && s.handlers[id].Reading? then
        var h := s.handlers[id];
        match h.snap.request
        case Allow => Forward(s, id, h.snap, h.body)
        case Args(count) =>
          (match FnArgs(count, literal, h.body)
           case Some(args) => Move(s, id, Asking(h.snap, h.body, args))
           case None => Move(s, id, Done(Broken)))
        case Deny => Move(s, id, Done(Unauthorized))
      else s
    case RequestVerdict(id, answered) =>
      if id in s.handlers && s.handlers[id].Asking? then
        var h := s.handlers[id];
        var verdict := EvalFn(s.policy, REST_REQUEST, h.args, depth);
        if !answered then Move(s, id, Done(Internal))
        else
          var noted := Note(s, Evaluated(id, REST_REQUEST, h.args, verdict));
          match verdict
          case Ok(true) => Forward(noted, id, h.snap, h.body)
          case Ok(false) => Move(noted, id, Done(Unauthorized))
          case Err(_) => Move(noted, id, Done(Internal))
      else s
    case ServerReply(id, body, literal) =>
      if id in s.handlers && s.handlers[id].Forwarding? then
        var h := s.handlers[id];
        if body.None? then Move(s, id, Done(Broken))
        else match h.snap.response
          case Deny => Move(s, id, Done(Unauthorized))
          case Allow => if body.value.None? then Move(s, id, Done(Broken)) else Deliver(s, id, body.value.value)
          case Args(count) =>
            if body.value.None? then Move(s, id, Done(Broken))
            else match FnArgs(count, literal, body.value.value)
              case Some(args) => Move(s, id, AskingReply(h.snap, body.value.value, args))
              case None => Move(s, id, Done(Broken))
      else s
    case ResponseVerdict(id, answered) =>
      if id in s.handlers && s.handlers[id].AskingReply? then
        var h := s.handlers[id];
        var verdict := EvalFn(s.policy, REST_RESPONSE, h.args, depth);
        if !answered then Move(s, id, Done(Internal))
        else
          var noted := Note(s, Evaluated(id, REST_RESPONSE, h.args, verdict));
          match verdict
          case Ok(true) => Deliver(noted, id, h.body)
          case Ok(false) => Move(noted, id, Done(Unauthorized))
          case Err(_) => Move(noted, id, Done(Internal))
      else s
  }

  function Start(p: HttpRules, timeout: nat): State { State(p, timeout, map[], []) }

  function Exec(s: State, actions: seq<Action>, depth: nat): State
    decreases |actions|
  {
    if actions == [] then s else Exec(Next(s, actions[0], depth), actions[1..], depth)
  }

  // ----- what every run keeps -----

  /** The policy installed after these events. */
  function PolicyAfter(init: HttpRules, log: seq<Event>): HttpRules {
    if log == [] then init
    else if log[|log| - 1].Installed? then log[|log| - 1].p
    else PolicyAfter(init, log[..|log| - 1])
  }

  /** All that was read of a request. */
  function ReadSoFar(log: seq<Event>, id: nat): string {
    if log == [] then ""
    else
      var last := log[|log| - 1];
      ReadSoFar(log[..|log| - 1], id) + if last.Chunk? && last.id == id then last.data else ""
  }

  predicate HasForwarded(log: seq<Event>, id: nat) {
    exists i :: 0 <= i < |log| && log[i].Forwarded? && log[i].id == id
  }

  predicate HasDelivered(log: seq<Event>, id: nat) {
    exists i :: 0 <= i < |log| && log[i].Delivered? && log[i].id == id
  }

  /** The handler's snapshot allows the function, or asks for it to be called with
      so many arguments and the call, in the policy then installed, gave true. */
  ghost predicate Permitted(past: seq<Event>, id: nat, fn: string, body: string) {
    exists st :: PermittedBy(past, id, fn, st, body)
  }

  ghost predicate PermittedBy(past: seq<Event>, id: nat, fn: string, st: Status, body: string) {
    Got(id, st) in past && (RuleOf(st, fn) == Allow || exists args :: Confirmed(past, id, fn, st, args, body))
  }

  ghost predicate Confirmed(past: seq<Event>, id: nat, fn: string, st: Status, args: seq<Literal>, body: string) {
    RuleOf(st, fn) == Args(|args|) && About(args, body) && exists k :: ConfirmedAt(past, k, id, fn, st, args)
  }

  /** The call came after the snapshot. */
  ghost predicate ConfirmedAt(past: seq<Event>, k: int, id: nat, fn: string, st: Status, args: seq<Literal>) {
    0 <= k < |past| && past[k] == Evaluated(id, fn, args, Ok(true)) && Got(id, st) in past[..k]
  }

  /** A function of two arguments gets to see these bytes. */
  predicate About(args: seq<Literal>, body: string) { |args| <= 2 && (|args| == 2 ==> args[1] == DataLit(body)) }

  /** An event is justified by the ones before it. */
  ghost predicate Justified(init: HttpRules, depth: nat, past: seq<Event>, e: Event) {
    match e
    case Installed(_) => true
    case Got(id, st) => st == StatusFor(PolicyAfter(init, past), st.timeout)
    case Chunk(id, _) => !HasForwarded(past, id)
    case Evaluated(id, fn, args, verdict) => verdict == EvalFn(PolicyAfter(init, past), fn, args, depth)
    case Forwarded(id, body) =>
      Permitted(past, id, REST_REQUEST, body) && body == ReadSoFar(past, id) && !HasForwarded(past, id)
    case Delivered(id, body) =>
      Permitted(past, id, REST_RESPONSE, body) && HasForwarded(past, id) && !HasDelivered(past, id)
  }

  ghost predicate AllJustified(init: HttpRules, depth: nat, log: seq<Event>) {
    forall i :: 0 <= i < |log| ==> Justified(init, depth, log[..i], log[i])
  }

  /** What the log says of a handler that is waiting. */
  ghost predicate HandlerOk(log: seq<Event>, id: nat, h: Handler) {
    match h
    case Connected => !HasForwarded(log, id) && !HasDelivered(log, id) && ReadSoFar(log, id) == ""
    case Reading(snap, body) =>
      Got(id, snap) in log && body == ReadSoFar(log, id) && !HasForwarded(log, id) && !HasDelivered(log, id)
    case Asking(snap, body, args) =>
      && Got(id, snap) in log && body == ReadSoFar(log, id) && !HasForwarded(log, id) && !HasDelivered(log, id)
      && snap.request == Args(|args|) && About(args, body)
    case Forwarding(snap) => Got(id, snap) in log && HasForwarded(log, id) && !HasDelivered(log, id)
    case AskingReply(snap, body, args) =>
      Got(id, snap) in log && HasForwarded(log, id) && !HasDelivered(log, id) && snap.response == Args(|args|)
        && About(args, body)
    case Done(reply) => reply.Body? ==> Delivered(id, reply.body) in log
  }

  predicate Mentions(e: Event, id: nat) { !e.Installed? && e.id == id }

  ghost predicate Invariant(init: HttpRules, depth: nat, s: State) {
    && s.policy == PolicyAfter(init, s.log)
    && AllJustified(init, depth, s.log)
    && (forall id :: id in s.handlers ==> HandlerOk(s.log, id, s.handlers[id]))
    && (forall id, i :: 0 <= i < |s.log| && Mentions(s.log[i], id) ==> id in s.handlers)
  }

  // ----- appending one event -----

  lemma NoteFacts(log: seq<Event>, e: Event, id: nat)
    ensures HasForwarded(log + [e], id) <==> HasForwarded(log, id) || (e.Forwarded? && e.id == id)
    ensures HasDelivered(log + [e], id) <==> HasDelivered(log, id) || (e.Delivered? && e.id == id)
    ensures ReadSoFar(log + [e], id) == ReadSoFar(log, id) + if e.Chunk? && e.id == id then e.data else ""
    ensures forall x :: x in log + [e] <==> x in log || x == e
  {
    var longer := log + [e];
    assert longer[..|log|] == log;
    if HasForwarded(log, id) {
      var i :| 0 <= i < |log| && log[i].Forwarded? && log[i].id == id;
      assert longer[i] == log[i];
    }
    if HasDelivered(log, id) {
      var i :| 0 <= i < |log| && log[i].Delivered? && log[i].id == id;
      assert longer[i] == log[i];
    }
    assert longer[|log|] == e;
  }

  lemma NotePolicy(init: HttpRules, log: seq<Event>, e: Event)
    ensures PolicyAfter(init, log + [e]) == if e.Installed? then e.p else PolicyAfter(init, log)
  {
    assert (log + [e])[..|log|] == log;
  }

  lemma NoteJustified(init: HttpRules, depth: nat, log: seq<Event>, e: Event)
    requires AllJustified(init, depth, log) && Justified(init, depth, log, e)
    ensures AllJustified(init, depth, log + [e])
  {
    var longer := log + [e];
    forall i | 0 <= i < |longer| ensures Justified(init, depth, longer[..i], longer[i]) {
      if i < |log| { assert longer[..i] == log[..i]; } else { assert longer[..i] == log; }
    }
  }

  /** An event about one handler keeps the other handlers' facts. */
  lemma OthersKeep(log: seq<Event>, e: Event, id: nat, h: Handler)
    requires HandlerOk(log, id, h) && !Mentions(e, id)
    ensures HandlerOk(log + [e], id, h)
  {
    NoteFacts(log, e, id);
  }

  /** Noting a justified event of a handler and moving that handler on. */
  lemma NoteAndMove(init: HttpRules, depth: nat, s: State, id: nat, h: Handler, e: Event)
    requires Invariant(init, depth, s) && id in s.handlers && Mentions(e, id)
    requires Justified(init, depth, s.log, e) && HandlerOk(s.log + [e], id, h)
    ensures Invariant(init, depth, Note(Move(s, id, h), e))
  {
    hide HandlerOk, Justified, PolicyAfter;
    NotePolicy(init, s.log, e);
    NoteJustified(init, depth, s.log, e);
    forall i | i in s.handlers && i != id ensures HandlerOk(s.log + [e], i, s.handlers[i]) {
      OthersKeep(s.log, e, i, s.handlers[i]);
    }
  }

  lemma JustMove(init: HttpRules, depth: nat, s: State, id: nat, h: Handler)
    requires Invariant(init, depth, s) && HandlerOk(s.log, id, h)
    ensures Invariant(init, depth, Move(s, id, h))
  {}

  lemma Unmentioned(log: seq<Event>, id: nat)
    requires forall i :: 0 <= i < |log| ==> !Mentions(log[i], id)
    ensures !HasForwarded(log, id) && !HasDelivered(log, id) && ReadSoFar(log, id) == ""
  {
    if log != [] { Unmentioned(log[..|log| - 1], id); }
  }

  // ----- each action keeps the invariant -----

  lemma InstallKeeps(init: HttpRules, depth: nat, s: State, p: HttpRules)
    requires Invariant(init, depth, s)
    ensures Invariant(init, depth, Note(s.(policy := p), Installed(p)))
  {
    hide HandlerOk;
    NotePolicy(init, s.log, Installed(p));
    NoteJustified(init, depth, s.log, Installed(p));
    forall i | i in s.handlers ensures HandlerOk(s.log + [Installed(p)], i, s.handlers[i]) {
      OthersKeep(s.log, Installed(p), i, s.handlers[i]);
    }
  }

  /** Forwarding after an approval. */
  lemma ForwardKeeps(init: HttpRules, depth: nat, s: State, id: nat, snap: Status, body: string)
    requires Invariant(init, depth, s) && id in s.handlers
    requires PermittedBy(s.log, id, REST_REQUEST, snap, body)
    requires body == ReadSoFar(s.log, id) && !HasForwarded(s.log, id) && !HasDelivered(s.log, id)
    ensures Invariant(init, depth, Forward(s, id, snap, body))
  {
    hide Invariant, PolicyAfter, ReadSoFar, HasForwarded, HasDelivered, Confirmed;
    assert Permitted(s.log, id, REST_REQUEST, body);
    NoteFacts(s.log, Forwarded(id, body), id);
    NoteAndMove(init, depth, s, id, Forwarding(snap), Forwarded(id, body));
  }

  lemma DeliverKeeps(init: HttpRules, depth: nat, s: State, id: nat, snap: Status, body: string)
    requires Invariant(init, depth, s) && id in s.handlers
    requires PermittedBy(s.log, id, REST_RESPONSE, snap, body) && HasForwarded(s.log, id) && !HasDelivered(s.log, id)
    ensures Invariant(init, depth, Deliver(s, id, body))
  {
    hide Invariant, PolicyAfter, ReadSoFar, HasForwarded, HasDelivered, Confirmed;
    assert Permitted(s.log, id, REST_RESPONSE, body);
    NoteAndMove(init, depth, s, id, Done(Body(body)), Delivered(id, body));
  }

  /** A verdict is noted; the handler keeps waiting. */
  lemma VerdictKeeps(init: HttpRules, depth: nat, s: State, id: nat, fn: string, args: seq<Literal>)
    requires Invariant(init, depth, s) && id in s.handlers && (s.handlers[id].Asking? || s.handlers[id].AskingReply?)
    ensures var e := Evaluated(id, fn, args, EvalFn(s.policy, fn, args, depth));
      Invariant(init, depth, Note(s, e)) && HandlerOk(s.log + [e], id, s.handlers[id])
  {
    hide EvalFn;
    var e := Evaluated(id, fn, args, EvalFn(s.policy, fn, args, depth));
    NoteFacts(s.log, e, id);
    NoteAndMove(init, depth, s, id, s.handlers[id], e);
    assert Note(Move(s, id, s.handlers[id]), e) == Note(s, e);
  }

  lemma RequestVerdictKeeps(init: HttpRules, depth: nat, s: State, id: nat, answered: bool)
    requires Invariant(init, depth, s)
    ensures Invariant(init, depth, Next(s, RequestVerdict(id, answered), depth))
  {
    hide EvalFn, Invariant;
    if id in s.handlers && s.handlers[id].Asking? {
      var h := s.handlers[id];
      var e := Evaluated(id, REST_REQUEST, h.args, EvalFn(s.policy, REST_REQUEST, h.args, depth));
      var noted := Note(s, e);
      VerdictKeeps(init, depth, s, id, REST_REQUEST, h.args);
      JustMove(init, depth, s, id, Done(Internal));
      JustMove(init, depth, noted, id, Done(Internal));
      JustMove(init, depth, noted, id, Done(Unauthorized));
      if e.verdict == Ok(true) {
        assert noted.log[..|s.log|] == s.log && ConfirmedAt(noted.log, |s.log|, id, REST_REQUEST, h.snap, h.args);
        assert Confirmed(noted.log, id, REST_REQUEST, h.snap, h.args, h.body);
        ForwardKeeps(init, depth, noted, id, h.snap, h.body);
      }
    }
  }

  lemma ResponseVerdictKeeps(init: HttpRules, depth: nat, s: State, id: nat, answered: bool)
    requires Invariant(init, depth, s)
    ensures Invariant(init, depth, Next(s, ResponseVerdict(id, answered), depth))
  {
    hide EvalFn, Invariant;
    if id in s.handlers && s.handlers[id].AskingReply? {
      var h := s.handlers[id];
      var e := Evaluated(id, REST_RESPONSE, h.args, EvalFn(s.policy, REST_RESPONSE, h.args, depth));
      var noted := Note(s, e);
      VerdictKeeps(init, depth, s, id, REST_RESPONSE, h.args);
      JustMove(init, depth, s, id, Done(Internal));
      JustMove(init, depth, noted, id, Done(Internal));
      JustMove(init, depth, noted, id, Done(Unauthorized));
      if e.verdict == Ok(true) {
        assert noted.log[..|s.log|] == s.log && ConfirmedAt(noted.log, |s.log|, id, REST_RESPONSE, h.snap, h.args);
        assert Confirmed(noted.log, id, REST_RESPONSE, h.snap, h.args, h.body);
        DeliverKeeps(init, depth, noted, id, h.snap, h.body);
      }
    }
  }

  lemma GetPolicyKeeps(init: HttpRules, depth: nat, s: State, id: nat, answered: bool)
    requires Invariant(init, depth, s)
    ensures Invariant(init, depth, Next(s, GetPolicy(id, answered), depth))
  {
    if id in s.handlers && s.handlers[id].Connected? {
      var snap := StatusFor(s.policy, s.timeout);
      JustMove(init, depth, s, id, Done(Internal));
      NoteFacts(s.log, Got(id, snap), id);
      var h := if snap.request == Deny then Done(Unauthorized) else Reading(snap, "");
      NoteAndMove(init, depth, s, id, h, Got(id, snap));
    }
  }

  lemma ReadChunkKeeps(init: HttpRules, depth: nat, s: State, id: nat, chunk: Option<string>)
    requires Invariant(init, depth, s)
    ensures Invariant(init, depth, Next(s, ReadChunk(id, chunk), depth))
  {
    if id in s.handlers && s.handlers[id].Reading? {
      var h := s.handlers[id];
      JustMove(init, depth, s, id, Done(Broken));
      if chunk.Some? {
        NoteFacts(s.log, Chunk(id, chunk.value), id);
        NoteAndMove(init, depth, s, id, Reading(h.snap, h.body + chunk.value), Chunk(id, chunk.value));
      }
    }
  }

  lemma EndOfRequestKeeps(init: HttpRules, depth: nat, s: State, id: nat, literal: Literal)
    requires Invariant(init, depth, s)
    ensures Invariant(init, depth, Next(s, EndOfRequest(id, literal), depth))
  {
    if id in s.handlers && s.handlers[id].Reading? {
      var h := s.handlers[id];
      JustMove(init, depth, s, id, Done(Broken));
      JustMove(init, depth, s, id, Done(Unauthorized));
      match h.snap.request
      case Allow => ForwardKeeps(init, depth, s, id, h.snap, h.body);
      case Args(count) =>
        var args := FnArgs(count, literal, h.body);
        if args.Some? { JustMove(init, depth, s, id, Asking(h.snap, h.body, args.value)); }
      case Deny =>
    }
  }

  lemma ServerReplyKeeps(init: HttpRules, depth: nat, s: State, id: nat, body: Option<Option<string>>, literal: Literal)
    requires Invariant(init, depth, s)
    ensures Invariant(init, depth, Next(s, ServerReply(id, body, literal), depth))
  {
    if id in s.handlers && s.handlers[id].Forwarding? {
      var h := s.handlers[id];
      JustMove(init, depth, s, id, Done(Broken));
      JustMove(init, depth, s, id, Done(Unauthorized));
      if body.Some? && body.value.Some? {
        match h.snap.response
        case Allow => DeliverKeeps(init, depth, s, id, h.snap, body.value.value);
        case Args(count) =>
          var args := FnArgs(count, literal, body.value.value);
          if args.Some? { JustMove(init, depth, s, id, AskingReply(h.snap, body.value.value, args.value)); }
        case Deny =>
      }
    }
  }

  lemma ArriveKeeps(init: HttpRules, depth: nat, s: State, id: nat, hasUri: bool)
    requires Invariant(init, depth, s)
    ensures Invariant(init, depth, Next(s, Arrive(id, hasUri), depth))
  {
    if id !in s.handlers {
      Unmentioned(s.log, id);
      JustMove(init, depth, s, id, if hasUri then Connected else Done(Internal));
    }
  }

  lemma NextKeeps(init: HttpRules, depth: nat, s: State, a: Action)
    requires Invariant(init, depth, s)
    ensures Invariant(init, depth, Next(s, a, depth))
  {
    match a
    case SetPolicy(p) => InstallKeeps(init, depth, s, p);
    case SetTimeout(_) =>
    case Arrive(id, hasUri) => ArriveKeeps(init, depth, s, id, hasUri);
    case GetPolicy(id, answered) => GetPolicyKeeps(init, depth, s, id, answered);
    case ReadChunk(id, chunk) => ReadChunkKeeps(init, depth, s, id, chunk);
    case EndOfRequest(id, literal) => EndOfRequestKeeps(init, depth, s, id, literal);
    case RequestVerdict(id, answered) => RequestVerdictKeeps(init, depth, s, id, answered);
    case ServerReply(id, body, literal) => ServerReplyKeeps(init, depth, s, id, body, literal);
    case ResponseVerdict(id, answered) => ResponseVerdictKeeps(init, depth, s, id, answered);
  }

  lemma {:induction false} ExecKeeps(init: HttpRules, depth: nat, s: State, actions: seq<Action>)
    requires Invariant(init, depth, s)
    ensures Invariant(init, depth, Exec(s, actions, depth))
    decreases |actions|
  {
    if actions != [] {
      NextKeeps(init, depth, s, actions[0]);
      ExecKeeps(init, depth, Next(s, actions[0], depth), actions[1..]);
    }
  }

  // ----- fail-closed enforcement -----

  /** At position `j` the function was called for handler `id` and gave true, in
      the policy installed at that moment. */
  ghost predicate TrueAt(init: HttpRules, depth: nat, log: seq<Event>, j: nat, id: nat, fn: string, args: seq<Literal>)
    requires j < |log|
  {
    log[j] == Evaluated(id, fn, args, Ok(true)) && Says(PolicyAfter(init, log[..j]), fn, args, depth, true)
  }

  /** The policy that was installed when the handler took its snapshot allows the
      function, or asks for the call that later gave true, about these very bytes. */
  ghost predicate Authorized(init: HttpRules, depth: nat, log: seq<Event>, i: nat, id: nat, fn: string, body: string)
    requires i <= |log|
  {
    exists j ::
      && 0 <= j < i && log[j].Got? && log[j].id == id
      && (Rules(PolicyAfter(init, log[..j]), fn, Allow)
          || exists args, k ::
               && j < k < i && Rules(PolicyAfter(init, log[..j]), fn, Args(|args|)) && About(args, body)
               && TrueAt(init, depth, log, k, id, fn, args))
  }

  lemma RuleIs(p: HttpRules, timeout: nat, fn: string, rule: FnPolicy)
    requires fn in {REST_REQUEST, REST_RESPONSE} && RuleOf(StatusFor(p, timeout), fn) == rule && rule != Deny
    ensures Rules(p, fn, rule)
  {
    NamesDiffer();
  }

  lemma PermittedIsAuthorized(init: HttpRules, depth: nat, log: seq<Event>, i: nat, id: nat, fn: string, body: string)
    requires fn in {REST_REQUEST, REST_RESPONSE}
    requires AllJustified(init, depth, log) && i <= |log| && Permitted(log[..i], id, fn, body)
    ensures Authorized(init, depth, log, i, id, fn, body)
  {
    hide RuleOf, StatusFor, EvalFn, Says;
    var past := log[..i];
    var st :| PermittedBy(past, id, fn, st, body);
    if RuleOf(st, fn) == Allow {
      var j :| 0 <= j < i && past[j] == Got(id, st);
      assert Justified(init, depth, log[..j], log[j]);
      RuleIs(PolicyAfter(init, log[..j]), st.timeout, fn, Allow);
    } else {
      var args :| Confirmed(past, id, fn, st, args, body);
      var k :| ConfirmedAt(past, k, id, fn, st, args);
      var j :| 0 <= j < k && past[..k][j] == Got(id, st);
      assert Justified(init, depth, log[..j], log[j]) && Justified(init, depth, log[..k], log[k]);
      RuleIs(PolicyAfter(init, log[..j]), st.timeout, fn, Args(|args|));
      EvalFnExactly(PolicyAfter(init, log[..k]), fn, args, depth, true);
      assert TrueAt(init, depth, log, k, id, fn, args);
    }
  }

  /** However requests and policy updates interleave: a request is forwarded, once
      and with exactly the bytes that were read, only if its snapshot allowed it
      or the request function was true in the policy installed when it was
      called; a response body is delivered only after that, and only under the
      same condition for the response. */
  lemma FailClosed(init: HttpRules, timeout: nat, actions: seq<Action>, depth: nat, i: nat)
    requires i < |Exec(Start(init, timeout), actions, depth).log|
    ensures var log := Exec(Start(init, timeout), actions, depth).log;
      && (log[i].Forwarded? ==>
           && Authorized(init, depth, log, i, log[i].id, REST_REQUEST, log[i].body)
           && log[i].body == ReadSoFar(log[..i], log[i].id) && !HasForwarded(log[..i], log[i].id))
      && (log[i].Delivered? ==>
           && Authorized(init, depth, log, i, log[i].id, REST_RESPONSE, log[i].body)
           && HasForwarded(log[..i], log[i].id) && !HasDelivered(log[..i], log[i].id))
  {
    hide Exec, Authorized, ReadSoFar, HasForwarded, HasDelivered, Permitted;
    var s := Start(init, timeout);
    assert Invariant(init, depth, s);
    ExecKeeps(init, depth, s, actions);
    var log := Exec(s, actions, depth).log;
    assert Justified(init, depth, log[..i], log[i]);
    if log[i].Forwarded? { PermittedIsAuthorized(init, depth, log, i, log[i].id, REST_REQUEST, log[i].body); }
    if log[i].Delivered? { PermittedIsAuthorized(init, depth, log, i, log[i].id, REST_RESPONSE, log[i].body); }
  }

  /** And a client gets no body that has not been delivered so. */
  lemma RepliesAreDelivered(init: HttpRules, timeout: nat, actions: seq<Action>, depth: nat, id: nat, body: string)
    ensures var s := Exec(Start(init, timeout), actions, depth);
      id in s.handlers && s.handlers[id] == Done(Body(body)) ==> Delivered(id, body) in s.log
  {
    hide Exec, Justified;
    var s := Start(init, timeout);
    assert Invariant(init, depth, s);
    ExecKeeps(init, depth, s, actions);
  }

  /** What the policy itself says of a request or response and its bytes: it allows
      the function, or the function gives true when it is called with nothing, with
      the literal, or with the literal and the bytes, as the policy asks for. */
  ghost predicate Lets(p: HttpRules, fn: string, literal: Literal, data: string, depth: nat) {
    || Rules(p, fn, Allow)
    || (Rules(p, fn, Args(0)) && Says(p, fn, [], depth, true))
    || (Rules(p, fn, Args(1)) && Says(p, fn, [literal], depth, true))
    || (Rules(p, fn, Args(2)) && Says(p, fn, [literal, Flat(Other("data", data))], depth, true))
  }

  /** The policy denies it: it says so, has nothing for the function, or the function
      called like that gives false. */
  ghost predicate Denies(p: HttpRules, fn: string, literal: Literal, data: string, depth: nat) {
    || fn !in p.rules || Rules(p, fn, Deny)
    || (Rules(p, fn, Args(0)) && Says(p, fn, [], depth, false))
    || (Rules(p, fn, Args(1)) && Says(p, fn, [literal], depth, false))
    || (Rules(p, fn, Args(2)) && Says(p, fn, [literal, Flat(Other("data", data))], depth, false))
  }

  /** That is what the handler goes by. */
  lemma LetsExactly(p: HttpRules, timeout: nat, fn: string, literal: Literal, data: string, depth: nat)
    requires fn in {REST_REQUEST, REST_RESPONSE}
    ensures var rule := RuleOf(StatusFor(p, timeout), fn);
      Lets(p, fn, literal, data, depth) <==>
        rule == Allow || (rule.Args? && FnArgs(rule.count, literal, data).Some?
                          && EvalFn(p, fn, FnArgs(rule.count, literal, data).value, depth) == Ok(true))
    ensures var rule := RuleOf(StatusFor(p, timeout), fn);
      Denies(p, fn, literal, data, depth) <==>
        rule == Deny || (rule.Args? && FnArgs(rule.count, literal, data).Some?
                         && EvalFn(p, fn, FnArgs(rule.count, literal, data).value, depth) == Ok(false))
  {
    hide EvalFn, Says;
    NamesDiffer();
    var rule := RuleOf(StatusFor(p, timeout), fn);
    if rule.Args? && rule.count <= 2 {
      EvalFnExactly(p, fn, FnArgs(rule.count, literal, data).value, depth, false);
      EvalFnExactly(p, fn, FnArgs(rule.count, literal, data).value, depth, true);
    }
  }

  /** A request whose body comes in these chunks. */
  function Chunks(id: nat, chunks: seq<string>): (actions: seq<Action>)
    ensures |actions| == |chunks|
    ensures forall i :: 0 <= i < |chunks| ==> actions[i] == ReadChunk(id, Some(chunks[i]))
  {
    seq(|chunks|, i requires 0 <= i < |chunks| => ReadChunk(id, Some(chunks[i])))
  }

  function Joined(chunks: seq<string>): string {
    if chunks == [] then "" else Joined(chunks[..|chunks| - 1]) + chunks[|chunks| - 1]
  }

  function Undisturbed(id: nat, chunks: seq<string>, literal: Literal): seq<Action> {
    [Arrive(id, true), GetPolicy(id, true)] + Chunks(id, chunks) + [EndOfRequest(id, literal), RequestVerdict(id, true)]
  }

  lemma ExecAppend(s: State, a: seq<Action>, b: seq<Action>, depth: nat)
    ensures Exec(s, a + b, depth) == Exec(Exec(s, a, depth), b, depth)
    decreases |a|
  {
    hide Next;
    if a == [] { assert a + b == b; } else {
      assert (a + b)[0] == a[0] && (a + b)[1..] == a[1..] + b;
      ExecAppend(Next(s, a[0], depth), a[1..], b, depth);
    }
  }

  lemma ExecOne(s: State, a: Action, depth: nat)
    ensures Exec(s, [a], depth) == Next(s, a, depth)
  {
    assert [a][1..] == [] && Exec(Next(s, a, depth), [], depth) == Next(s, a, depth);
  }

  /** After the snapshot and these chunks; a denied request reads nothing. */
  lemma ChunksRead(s: State, id: nat, chunks: seq<string>, depth: nat)
    requires id in s.handlers
    ensures var h, r := s.handlers[id], Exec(s, Chunks(id, chunks), depth);
      if h.Reading? && h.body == "" then
        && r == s.(handlers := s.handlers[id := Reading(h.snap, Joined(chunks))], log := r.log)
        && |r.log| == |s.log| + |chunks| && (forall i :: 0 <= i < |s.log| ==> r.log[i] == s.log[i])
        && (forall i :: |s.log| <= i < |r.log| ==> r.log[i].Chunk?)
      else !h.Reading? ==> r == s
    decreases |chunks|
  {
    if chunks == [] {
      assert Chunks(id, chunks) == [];
      if s.handlers[id].Reading? && s.handlers[id].body == "" {
        assert s.handlers[id := Reading(s.handlers[id].snap, "")] == s.handlers;
      }
    } else {
      var rest, last := chunks[..|chunks| - 1], chunks[|chunks| - 1];
      assert Chunks(id, chunks) == Chunks(id, rest) + [ReadChunk(id, Some(last))];
      ChunksRead(s, id, rest, depth);
      ExecAppend(s, Chunks(id, rest), [ReadChunk(id, Some(last))], depth);
      ExecOne(Exec(s, Chunks(id, rest), depth), ReadChunk(id, Some(last)), depth);
    }
  }

  /** Where the handler is when all of the request has come. */
  predicate Ended(h: Handler, snap: Status, literal: Literal, data: string) {
    if snap.request == Allow then h == Forwarding(snap)
    else if snap.request.Args? && FnArgs(snap.request.count, literal, data).Some?
      then h == Asking(snap, data, FnArgs(snap.request.count, literal, data).value)
    else h == Done(if snap.request == Deny then Unauthorized else Broken)
  }

  /** What has been logged, and the handler, when all of the request has come. */
  lemma EndedIs(init: HttpRules, timeout: nat, id: nat, chunks: seq<string>, literal: Literal, depth: nat)
    ensures var snap, data := StatusFor(init, timeout), Joined(chunks);
      var s := Exec(Start(init, timeout),
                    [Arrive(id, true), GetPolicy(id, true)] + Chunks(id, chunks) + [EndOfRequest(id, literal)], depth);
      && s.policy == init && id in s.handlers
      && (forall e :: e in s.log && e.Forwarded? ==> snap.request == Allow && e == Forwarded(id, data))
      && (forall e :: e in s.log ==> !e.Delivered?)
      && (snap.request == Allow ==> Forwarded(id, data) in s.log)
      && Ended(s.handlers[id], snap, literal, data)
  {
    hide Next, Exec, StatusFor;
    var first, end := [Arrive(id, true), GetPolicy(id, true)], EndOfRequest(id, literal);
    var got, read := Snapshot(init, timeout, id), Exec(Snapshot(init, timeout, id), Chunks(id, chunks), depth);
    SnapshotTaken(init, timeout, id, depth);
    ChunksRead(got, id, chunks, depth);
    ExecAppend(Start(init, timeout), first, Chunks(id, chunks), depth);
    ExecAppend(Start(init, timeout), first + Chunks(id, chunks), [end], depth);
    ExecOne(read, end, depth);
    assert forall e :: e in read.log ==> !e.Forwarded? && !e.Delivered?;
    EndLogs(read, id, StatusFor(init, timeout), Joined(chunks), literal, depth);
  }

  /** After the handler has asked for the policy. */
  function Snapshot(init: HttpRules, timeout: nat, id: nat): State {
    var snap := StatusFor(init, timeout);
    State(init, timeout, map[id := if snap.request == Deny then Done(Unauthorized) else Reading(snap, "")],
          [Got(id, snap)])
  }

  lemma SnapshotTaken(init: HttpRules, timeout: nat, id: nat, depth: nat)
    ensures Exec(Start(init, timeout), [Arrive(id, true), GetPolicy(id, true)], depth) == Snapshot(init, timeout, id)
  {
    var first, arrived := [Arrive(id, true), GetPolicy(id, true)], Next(Start(init, timeout), Arrive(id, true), depth);
    assert arrived == State(init, timeout, map[id := Connected], []);
    assert first[0] == Arrive(id, true) && first[1..] == [GetPolicy(id, true)];
    ExecOne(arrived, GetPolicy(id, true), depth);
  }

  lemma EndLogs(s: State, id: nat, snap: Status, data: string, literal: Literal, depth: nat)
    requires id in s.handlers && (forall e :: e in s.log ==> !e.Forwarded? && !e.Delivered?)
    requires s.handlers[id] == if snap.request == Deny then Done(Unauthorized) else Reading(snap, data)
    ensures var r := Next(s, EndOfRequest(id, literal), depth);
      && r.policy == s.policy && id in r.handlers
      && (forall e :: e in r.log && e.Forwarded? ==> snap.request == Allow && e == Forwarded(id, data))
      && (forall e :: e in r.log ==> !e.Delivered?)
      && (snap.request == Allow ==> Forwarded(id, data) in r.log)
      && Ended(r.handlers[id], snap, literal, data)
  {}

  /** However many chunks it comes in: an undisturbed request is forwarded exactly
      when the policy lets it through. */
  lemma UndisturbedExactly(init: HttpRules, timeout: nat, id: nat, chunks: seq<string>, literal: Literal, depth: nat)
    ensures var data, s := Joined(chunks), Exec(Start(init, timeout), Undisturbed(id, chunks, literal), depth);
      && (Forwarded(id, data) in s.log <==> Lets(init, REST_REQUEST, literal, data, depth))
      && (HasForwarded(s.log, id) <==> Forwarded(id, data) in s.log) && !HasDelivered(s.log, id)
      && s.policy == init && id in s.handlers
      && (if Lets(init, REST_REQUEST, literal, data, depth) then s.handlers[id] == Forwarding(StatusFor(init, timeout))
          else (s.handlers[id].Done? && !s.handlers[id].reply.Body?
                && (s.handlers[id].reply == Unauthorized <==> Denies(init, REST_REQUEST, literal, data, depth))))
  {
    hide EvalFn, StatusFor, Exec, Lets, Denies;
    var data, verdict := Joined(chunks), RequestVerdict(id, true);
    var most := [Arrive(id, true), GetPolicy(id, true)] + Chunks(id, chunks) + [EndOfRequest(id, literal)];
    assert Undisturbed(id, chunks, literal) == most + [verdict];
    EndedIs(init, timeout, id, chunks, literal, depth);
    LetsExactly(init, timeout, REST_REQUEST, literal, data, depth);
    var s := Exec(Start(init, timeout), most, depth);
    ExecAppend(Start(init, timeout), most, [verdict], depth);
    ExecOne(s, verdict, depth);
    VerdictLogs(s, id, data, depth);
    OnlyThis(Exec(s, [verdict], depth).log, id, data);
  }

  lemma OnlyThis(log: seq<Event>, id: nat, data: string)
    requires forall e :: e in log && e.Forwarded? ==> e == Forwarded(id, data)
    requires forall e :: e in log ==> !e.Delivered?
    ensures (HasForwarded(log, id) <==> Forwarded(id, data) in log) && !HasDelivered(log, id)
  {}

  /** Asking adds the verdict to the log, and then what it allows. */
  lemma VerdictLogs(s: State, id: nat, data: string, depth: nat)
    requires id in s.handlers && (s.handlers[id].Asking? ==> s.handlers[id].body == data)
    ensures var h, r := s.handlers[id], Next(s, RequestVerdict(id, true), depth);
      if h.Asking? then
        var yes := EvalFn(s.policy, REST_REQUEST, h.args, depth) == Ok(true);
        && r.policy == s.policy && id in r.handlers
        && (forall e :: e in r.log && e.Forwarded? ==> e in s.log || e == Forwarded(id, data))
        && (forall e :: e in r.log && e.Delivered? ==> e in s.log)
        && (Forwarded(id, data) in r.log <==> Forwarded(id, data) in s.log || yes)
        && r.handlers[id] == if yes then Forwarding(h.snap)
             else Done(if EvalFn(s.policy, REST_REQUEST, h.args, depth) == Ok(false) then Unauthorized else Internal)
      else r == s
  {
    hide EvalFn;
  }

  /** And then the server answers, with nothing in between either. */
  function Answered(id: nat, chunks: seq<string>, literal: Literal, reply: string, answer: Literal): seq<Action> {
    Undisturbed(id, chunks, literal) + [ServerReply(id, Some(Some(reply)), answer), ResponseVerdict(id, true)]
  }

  /** Of an undisturbed exchange the client gets the server's reply exactly when the
      policy lets both the request and the response through; otherwise it gets an
      error, and no handler is left waiting. */
  lemma ExchangeExactly(init: HttpRules, timeout: nat, id: nat, chunks: seq<string>, literal: Literal, reply: string,
                        answer: Literal, depth: nat)
    ensures var data := Joined(chunks);
      var s := Exec(Start(init, timeout), Answered(id, chunks, literal, reply, answer), depth);
      var lets := Lets(init, REST_REQUEST, literal, data, depth) && Lets(init, REST_RESPONSE, answer, reply, depth);
      && id in s.handlers && s.handlers[id].Done?
      && (s.handlers[id].reply == Body(reply) <==> lets) && (s.handlers[id].reply.Body? <==> lets)
      && (Delivered(id, reply) in s.log <==> lets) && (HasDelivered(s.log, id) <==> lets)
      && (s.handlers[id].reply == Unauthorized <==>
            || Denies(init, REST_REQUEST, literal, data, depth)
            || (Lets(init, REST_REQUEST, literal, data, depth) && Denies(init, REST_RESPONSE, answer, reply, depth)))
  {
    hide EvalFn, StatusFor, Exec, Lets, Denies, Next;
    var all, reply1, verdict := Undisturbed(id, chunks, literal), ServerReply(id, Some(Some(reply)), answer),
      ResponseVerdict(id, true);
    UndisturbedExactly(init, timeout, id, chunks, literal, depth);
    LetsExactly(init, timeout, REST_REQUEST, literal, Joined(chunks), depth);
    LetsExactly(init, timeout, REST_RESPONSE, answer, reply, depth);
    var s := Exec(Start(init, timeout), all, depth);
    ExecAppend(Start(init, timeout), all, [reply1, verdict], depth);
    assert [reply1, verdict] == [reply1] + [verdict];
    ExecAppend(s, [reply1], [verdict], depth);
    ExecOne(s, reply1, depth);
    ExecOne(Next(s, reply1, depth), verdict, depth);
    ReplyLogs(s, id, reply, answer, depth);
  }

  lemma ReplyLogs(s: State, id: nat, reply: string, answer: Literal, depth: nat)
    requires id in s.handlers && !HasDelivered(s.log, id)
    requires s.handlers[id].Forwarding? || (s.handlers[id].Done? && !s.handlers[id].reply.Body?)
    ensures var h := s.handlers[id];
      var r := Next(Next(s, ServerReply(id, Some(Some(reply)), answer), depth), ResponseVerdict(id, true), depth);
      && id in r.handlers && r.handlers[id].Done?
      && var lets := h.Forwarding? &&
           var rule := RuleOf(h.snap, REST_RESPONSE);
             rule == Allow || (rule.Args? && FnArgs(rule.count, answer, reply).Some?
                               && EvalFn(s.policy, REST_RESPONSE, FnArgs(rule.count, answer, reply).value, depth)
                                  == Ok(true));
         && (r.handlers[id].reply == Body(reply) <==> lets) && (r.handlers[id].reply.Body? <==> lets)
         && (Delivered(id, reply) in r.log <==> lets) && (HasDelivered(r.log, id) <==> lets)
         && (r.handlers[id].reply == Unauthorized <==>
               if h.Done? then h.reply == Unauthorized
               else
                 var rule := RuleOf(h.snap, REST_RESPONSE);
                 rule == Deny || (rule.Args? && FnArgs(rule.count, answer, reply).Some?
                                  && EvalFn(s.policy, REST_RESPONSE, FnArgs(rule.count, answer, reply).value, depth)
                                     == Ok(false)))
  {
    hide EvalFn, FnArgs, HasDelivered;
    NamesDiffer();
    DeliveredAt(s.log, id);
    forall e ensures HasDelivered(s.log + [e], id) <==> e.Delivered? && e.id == id { NoteFacts(s.log, e, id); }
    forall e, f ensures HasDelivered(s.log + [e] + [f], id) <==>
        (e.Delivered? && e.id == id) || (f.Delivered? && f.id == id)
    {
      NoteFacts(s.log + [e], f, id);
    }
  }

  lemma DeliveredAt(log: seq<Event>, id: nat)
    requires !HasDelivered(log, id)
    ensures forall e :: e in log && e.Delivered? ==> e.id != id
  {}

  /** A handler is told the policy and the timeout that were set last, in either order. */
  lemma SnapshotTells(s: State, id: nat, p: HttpRules, secs: nat, depth: nat)
    requires id in s.handlers && s.handlers[id].Connected?
    ensures var a, b := SetPolicy(p), SetTimeout(secs);
      var st := StatusFor(p, secs);
      && Got(id, st) in Next(Next(Next(s, a, depth), b, depth), GetPolicy(id, true), depth).log
      && Got(id, st) in Next(Next(Next(s, b, depth), a, depth), GetPolicy(id, true), depth).log
      && st.timeout == secs
  {}

  // ----- what goes wrong ends the request -----

  /** The actor does not answer, the client or the server breaks off. */
  predicate GoesWrong(h: Handler, a: Action) {
    match a
    case GetPolicy(_, answered) => h.Connected? && !answered
    case ReadChunk(_, chunk) => h.Reading? && chunk.None?
    case RequestVerdict(_, answered) => h.Asking? && !answered
    case ServerReply(_, body, _) => h.Forwarding? && (body.None? || body.value.None?)
    case ResponseVerdict(_, answered) => h.AskingReply? && !answered
    case _ => false
  }

  predicate Concerns(a: Action, id: nat) { !a.SetPolicy? && !a.SetTimeout? && a.id == id }

  /** Then the client gets an error, and nothing is forwarded or delivered. */
  lemma WrongEnds(s: State, id: nat, a: Action, depth: nat)
    requires id in s.handlers && Concerns(a, id) && GoesWrong(s.handlers[id], a)
    ensures var r := Next(s, a, depth);
      id in r.handlers && r.handlers[id].Done? && !r.handlers[id].reply.Body? && r.log == s.log
  {
    hide EvalFn, StatusFor;
  }

  /** So does a request without a host to forward it to. */
  lemma NoHostEnds(s: State, id: nat, depth: nat)
    requires id !in s.handlers
    ensures var r := Next(s, Arrive(id, false), depth);
      id in r.handlers && r.handlers[id].Done? && !r.handlers[id].reply.Body? && r.log == s.log
  {}

  lemma {:induction false} EndStays(s: State, id: nat, actions: seq<Action>, depth: nat)
    requires id in s.handlers && s.handlers[id].Done?
    ensures var r := Exec(s, actions, depth);
      && id in r.handlers && r.handlers[id] == s.handlers[id]
      && (HasForwarded(r.log, id) <==> HasForwarded(s.log, id))
      && (HasDelivered(r.log, id) <==> HasDelivered(s.log, id))
    decreases |actions|
  {
    if actions != [] {
      EndStep(s, id, actions[0], depth);
      EndStays(Next(s, actions[0], depth), id, actions[1..], depth);
    }
  }

  lemma EndStep(s: State, id: nat, a: Action, depth: nat)
    requires id in s.handlers && s.handlers[id].Done?
    ensures var r := Next(s, a, depth);
      && id in r.handlers && r.handlers[id] == s.handlers[id]
      && (HasForwarded(r.log, id) <==> HasForwarded(s.log, id))
      && (HasDelivered(r.log, id) <==> HasDelivered(s.log, id))
  {
    StepLogs(s, id, a, depth);
    NoneAdded(s.log, Next(s, a, depth).log, id);
    hide Next, HasForwarded, HasDelivered;
  }

  lemma NoneAdded(log: seq<Event>, longer: seq<Event>, id: nat)
    requires log <= longer
    requires forall i :: |log| <= i < |longer| && (longer[i].Forwarded? || longer[i].Delivered?) ==> longer[i].id != id
    ensures HasForwarded(longer, id) <==> HasForwarded(log, id)
    ensures HasDelivered(longer, id) <==> HasDelivered(log, id)
  {
    assert forall i :: 0 <= i < |log| ==> longer[i] == log[i];
  }

  /** A step forwards and delivers nothing for a handler that is done. */
  lemma StepLogs(s: State, id: nat, a: Action, depth: nat)
    requires id in s.handlers && s.handlers[id].Done?
    ensures var r := Next(s, a, depth);
      && id in r.handlers && r.handlers[id] == s.handlers[id]
      && s.log <= r.log
      && forall i :: |s.log| <= i < |r.log| && (r.log[i].Forwarded? || r.log[i].Delivered?) ==> r.log[i].id != id
  {
    hide EvalFn, StatusFor;
  }

  // ----- a policy that changed in between -----

  /** Called with another number of arguments than the function installed by then
      has parameters, or when that function is gone, the verdict is an error: an
      update in between never lets a request through. */
  lemma ArityChangeIsAnError(p: HttpRules, fn: string, args: seq<Literal>, depth: nat)
    requires fn in p.env.code ==> |Params(p.env.code[fn])| != |args|
    requires fn !in p.env.code ==> !p.env.isBuiltin(fn) && !p.env.isExternal(fn)
    ensures Evaluate(p.env, CallOn(fn, args), depth).Err? && EvalFn(p, fn, args, depth).Err?
  {
    var env := p.env;
    if fn in env.code && |args| < |Params(env.code[fn])| {
      TooFewArguments(env, fn, args, depth);
    } else {
      TooManyArguments(env, fn, args, depth);
    }
  }

  lemma TooManyArguments(env: Env, fn: string, args: seq<Literal>, depth: nat)
    requires fn in env.code ==> |Params(env.code[fn])| < |args|
    requires fn !in env.code ==> !env.isBuiltin(fn) && !env.isExternal(fn)
    ensures Eval(env, CallOn(fn, args), depth).Err?
  {
    hide Params, Lits, ToList;
    var us := ToList(Lits(args));
    EvalArgs(env, Lits(args), depth);
    ToListAt(Lits(args));
    LengthToList(Lits(args));
    if fn in env.code { OverApplied(env.code[fn], us); }
    assert EvalCall(env, fn, false, us, depth).Err?;
    assert EvalNode(env, CallExpr(fn, false), us, depth) == EvalCallExpr(env, fn, false, us, depth);
  }
}
