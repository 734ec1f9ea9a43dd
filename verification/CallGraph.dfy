/** The call graph of a program: the cycle check that makes evaluation terminate
    and the removal of unreachable functions (src/armour-lang/src/lang.rs). */
module CallGraph {
  import opened Prelude
  import opened Syntax
  import opened Terms
  import opened TermLaws
  import opened Interpret
  import opened Scope
  import opened Simulation
  import opened Progress

  type Edges = set<(string, string)>

  // ----- paths, cycles and orders -----

  ghost predicate Path(edges: Edges, p: seq<string>) {
    p != [] && forall i, j :: 0 <= i < |p| && j == i + 1 && j < |p| ==> (p[i], p[j]) in edges
  }

  ghost predicate Connects(edges: Edges, p: seq<string>, a: string, b: string) {
    Path(edges, p) && p[0] == a && p[|p| - 1] == b
  }

  ghost predicate Reaches(edges: Edges, a: string, b: string) { exists p :: Connects(edges, p, a, b) }

  ghost predicate Reached(edges: Edges, tops: set<string>, n: string) { exists t :: t in tops && Reaches(edges, t, n) }

  ghost predicate Cycle(edges: Edges, p: seq<string>) { |p| >= 2 && Connects(edges, p, p[0], p[0]) }

  ghost predicate Cyclic(edges: Edges) { exists p :: Cycle(edges, p) }

  /** All nodes, each once and after everything it calls. */
  ghost predicate Order(nodes: set<string>, edges: Edges, order: seq<string>) {
    && (forall n :: n in nodes <==> n in order)
    && (forall i, j :: 0 <= i < j < |order| ==> order[i] != order[j])
    && (forall e :: e in edges ==> forall i :: 0 <= i < |order| && order[i] == e.0 ==> e.1 in order[..i])
  }

  /** The edges that leave a set of nodes. */
  function From(edges: Edges, s: set<string>): Edges { set e | e in edges && e.0 in s }

  lemma Extend(edges: Edges, a: string, b: string, c: string)
    requires Reaches(edges, a, b) && (b, c) in edges
    ensures Reaches(edges, a, c)
  {
    var p :| Connects(edges, p, a, b);
    assert Connects(edges, p + [c], a, c);
  }

  lemma ReachesItself(edges: Edges, a: string)
    ensures Reaches(edges, a, a)
  {
    assert Connects(edges, [a], a, a);
  }

  /** A set closed under edges is never left. */
  lemma StaysIn(edges: Edges, seen: set<string>, p: seq<string>)
    requires Path(edges, p) && p[0] in seen && forall e :: e in edges && e.0 in seen ==> e.1 in seen
    ensures p[|p| - 1] in seen
    decreases |p|
  {
    if |p| > 1 { assert (p[0], p[1]) in edges; StaysIn(edges, seen, p[1..]); }
  }

  lemma ReachedItself(edges: Edges, tops: set<string>)
    ensures forall t :: t in tops ==> Reached(edges, tops, t)
  {
    forall t | t in tops ensures Reached(edges, tops, t) { ReachesItself(edges, t); }
  }

  lemma ReachedNext(edges: Edges, tops: set<string>, seen: set<string>, next: set<string>)
    requires forall n :: n in seen ==> Reached(edges, tops, n)
    requires forall n :: n in next ==> exists e :: e in edges && e.0 in seen && e.1 == n
    ensures forall n :: n in next ==> Reached(edges, tops, n)
  {
    forall n | n in next ensures Reached(edges, tops, n) {
      var e :| e in edges && e.0 in seen && e.1 == n;
      var t :| t in tops && Reaches(edges, t, e.0);
      Extend(edges, t, e.0, n);
    }
  }

  lemma ReachedStays(edges: Edges, tops: set<string>, seen: set<string>)
    requires tops <= seen && forall e :: e in edges && e.0 in seen ==> e.1 in seen
    ensures forall n :: Reached(edges, tops, n) ==> n in seen
  {
    forall n | Reached(edges, tops, n) ensures n in seen {
      var t :| t in tops && Reaches(edges, t, n);
      var p :| Connects(edges, p, t, n);
      StaysIn(edges, seen, p);
    }
  }

  /** In a topological order the end of a path of two or more nodes comes before
      its start. */
  lemma PathDescends(nodes: set<string>, edges: Edges, order: seq<string>, p: seq<string>, i: nat)
    requires Order(nodes, edges, order) && Path(edges, p) && |p| >= 2 && i < |order| && order[i] == p[0]
    ensures p[|p| - 1] in order[..i]
    decreases |p|
  {
    assert (p[0], p[1]) in edges;
    var j :| 0 <= j < i && order[j] == p[1];
    if |p| > 2 { PathDescends(nodes, edges, order, p[1..], j); }
  }

  lemma OrderedIsAcyclic(nodes: set<string>, edges: Edges, order: seq<string>)
    requires Order(nodes, edges, order) && forall e :: e in edges ==> e.0 in nodes
    ensures !Cyclic(edges)
  {
    if Cyclic(edges) {
      var p :| Cycle(edges, p);
      assert (p[0], p[1]) in edges;
      var i :| 0 <= i < |order| && order[i] == p[0];
      PathDescends(nodes, edges, order, p, i);
    }
  }

  predicate HasNext(edges: Edges, s: set<string>, n: string) { exists m :: m in s && (n, m) in edges }

  /** Every node of the set calls a node of the set. */
  predicate Stuck(edges: Edges, s: set<string>) {
    s != {} && forall n :: n in s ==> HasNext(edges, s, n)
  }

  lemma Walk(edges: Edges, s: set<string>, n: string, k: nat) returns (p: seq<string>)
    requires Stuck(edges, s) && n in s && k > 0
    ensures Path(edges, p) && |p| == k && p[0] == n && forall i :: 0 <= i < k ==> p[i] in s
    decreases k
  {
    if k == 1 { p := [n]; } else {
      assert HasNext(edges, s, n);
      var m :| m in s && (n, m) in edges;
      var rest := Walk(edges, s, m, k - 1);
      p := [n] + rest;
      forall i, j | 0 <= i < |p| && j == i + 1 && j < |p| ensures (p[i], p[j]) in edges {
        if i > 0 { assert (rest[i - 1], rest[j - 1]) in edges; }
      }
    }
  }

  /** More steps than places visit some place twice. */
  lemma Pigeonhole(p: seq<string>, s: set<string>)
    requires (forall i :: 0 <= i < |p| ==> p[i] in s) && |p| > |s|
    ensures exists i, j :: 0 <= i < j < |p| && p[i] == p[j]
    decreases |p|
  {
    var n := |p| - 1;
    if forall i :: 0 <= i < n ==> p[i] != p[n] {
      Pigeonhole(p[..n], s - {p[n]});
      var i, j :| 0 <= i < j < n && p[..n][i] == p[..n][j];
      assert p[i] == p[j];
    }
  }

  lemma StuckIsCyclic(edges: Edges, s: set<string>)
    requires Stuck(edges, s)
    ensures Cyclic(edges)
  {
    var n :| n in s;
    var p := Walk(edges, s, n, |s| + 1);
    Pigeonhole(p, s);
    var i, j :| 0 <= i < j < |p| && p[i] == p[j];
    var c := p[i..j + 1];
    forall a, b | 0 <= a < |c| && b == a + 1 && b < |c| ensures (c[a], c[b]) in edges {
      assert (p[i + a], p[i + b]) in edges;
    }
    assert Cycle(edges, c);
  }

  // ----- calls of an expression -----

  function CallsOf(e: Expr): set<string> {
    match e
    case Closure(_, b) => CallsOf(b)
    case Node(t, es) => (if t.CallExpr? then {t.fn} else {}) + CallsOfList(es)
    case _ => {}
  }

  function CallsOfList(es: List<Expr>): set<string> {
    match es
    case Nil => {}
    case Cons(e, rest) => CallsOf(e) + CallsOfList(rest)
  }

  lemma {:induction false} CallsWithin(e: Expr, names: iset<string>)
    requires forall f :: f in CallsOf(e) ==> f in names
    ensures Within(e, names, false)
  {
    match e
    case Closure(_, b) => CallsWithin(b, names);
    case Node(_, es) => CallsWithinList(es, names);
    case _ =>
  }

  lemma {:induction false} CallsWithinList(es: List<Expr>, names: iset<string>)
    requires forall f :: f in CallsOfList(es) ==> f in names
    ensures WithinList(es, names, false)
  {
    if es.Cons? { CallsWithin(es.head, names); CallsWithinList(es.tail, names); }
  }

  // ----- the module being loaded -----

  /** A declared function: its name and its elaborated code. */
  datatype Decl = Decl(name: string, code: Expr)

  /** The edges a function's code stands for: its calls but the builtins. */
  function EdgesOf(d: Decl, isInternal: string -> bool): Edges {
    set c | c in CallsOf(d.code) && !isInternal(c) :: (d.name, c)
  }

  /** The edges of all functions of a program. */
  ghost predicate GraphOf(edges: Edges, code: map<string, Expr>, isInternal: string -> bool) {
    forall e :: e in edges <==> e.0 in code && e.1 in CallsOf(code[e.0]) && !isInternal(e.1)
  }

  ghost predicate AllDifferent(names: seq<string>) {
    forall i, j :: 0 <= i < j < |names| ==> names[i] != names[j]
  }

  function NamesOf(decls: seq<Decl>): (names: seq<string>)
    ensures |names| == |decls| && forall i :: 0 <= i < |decls| ==> names[i] == decls[i].name
  {
    seq(|decls|, i requires 0 <= i < |decls| => decls[i].name)
  }

  /** No name is declared twice, and every call is of something that is declared. */
  ghost predicate Loadable(externals: seq<string>, decls: seq<Decl>, isInternal: string -> bool) {
    && AllDifferent(externals + NamesOf(decls))
    && CallsDeclared((set x | x in externals + NamesOf(decls)), decls, isInternal)
  }

  ghost predicate CallsDeclared(headers: set<string>, decls: seq<Decl>, isInternal: string -> bool) {
    forall d, c :: d in decls && c in CallsOf(d.code) ==> c in headers || isInternal(c)
  }

  function Successors(edges: Edges, seen: set<string>): set<string> {
    set e | e in edges && e.0 in seen && e.1 !in seen :: e.1
  }

  /** Breadth-first search. */
  method ReachableFrom(edges: Edges, nodes: set<string>, tops: set<string>) returns (seen: set<string>)
    requires tops <= nodes && forall e :: e in edges ==> e.1 in nodes
    ensures forall n :: n in seen <==> Reached(edges, tops, n)
  {
    hide Reached;
    seen := tops;
    ReachedItself(edges, seen);
    var next := Successors(edges, seen);
    while next != {}
      invariant tops <= seen <= nodes && next == Successors(edges, seen)
      invariant forall n :: n in seen ==> Reached(edges, tops, n)
      decreases nodes - seen
    {
      ReachedNext(edges, tops, seen, next);
      var more := seen + next;
      assert exists n :: n in next && n !in seen;
      seen := more;
      next := Successors(edges, seen);
    }
    forall e | e in edges && e.0 in seen ensures e.1 in seen { assert e.1 !in next; }
    ReachedStays(edges, tops, seen);
  }

  class PreProgram {
    const isInternal: string -> bool
    var headers: set<string>
    var nodes: set<string>
    var edges: Edges
    var code: map<string, Expr>

    /** Edges are exactly the calls between declared functions. */
    ghost predicate Valid()
      reads this
    {
      && nodes == headers && code.Keys <= nodes
      && GraphOf(edges, code, isInternal)
      && forall e :: e in edges ==> e.0 in nodes && e.1 in nodes
    }

    constructor (isInternal: string -> bool)
      ensures Valid() && this.isInternal == isInternal && headers == {} && code == map[]
    {
      this.isInternal := isInternal;
      headers, nodes, edges, code := {}, {}, {}, map[];
    }

    /** A header or an external function; false on a duplicate. */
    method AddFunction(name: string) returns (ok: bool)
      requires Valid()
      modifies this
      ensures Valid() && ok == (name !in old(headers))
      ensures headers == old(headers) + {name} && edges == old(edges) && code == old(code)
    {
      ok := name !in headers;
      headers := headers + {name};
      nodes := nodes + {name};
    }

    /** Adds the edges and the code of a function; false if it or one of the
        functions it calls is not declared. */
    method AddDecl(d: Decl) returns (ok: bool)
      requires Valid() && d.name !in code
      modifies this
      ensures ok == (d.name in old(nodes) && forall c :: c in CallsOf(d.code) && !isInternal(c) ==> c in old(nodes))
      ensures headers == old(headers) && nodes == old(nodes)
      ensures ok ==> Valid() && edges == old(edges) + EdgesOf(d, isInternal) && code == old(code)[d.name := d.code]
      ensures !ok ==> code == old(code)
    {
      if d.name !in nodes { return false; }
      var todo := set c | c in CallsOf(d.code) && !isInternal(c);
      ghost var calls := todo;
      while todo != {}
        invariant todo <= calls && headers == old(headers) && nodes == old(nodes) && code == old(code)
        invariant calls - todo <= nodes
        invariant edges == old(edges) + (set c | c in calls - todo :: (d.name, c))
      {
        var c :| c in todo;
        if c !in nodes { return false; }
        edges := edges + {(d.name, c)};
        todo := todo - {c};
      }
      assert EdgesOf(d, isInternal) == set c | c in calls :: (d.name, c);
      code := code[d.name := d.code];
      return true;
    }

    /** All headers first, then all bodies; false at the first error. */
    method Load(externals: seq<string>, decls: seq<Decl>) returns (ok: bool)
      requires Valid() && headers == {} && code == map[]
      modifies this
      ensures ok <==> Loadable(externals, decls, isInternal)
      ensures ok ==>
        Valid() && code.Keys == (set d | d in decls :: d.name) && (forall d :: d in decls ==> code[d.name] == d.code)
      ensures ok ==> headers == (set x | x in externals) + (set d | d in decls :: d.name)
    {
      var names := NamesOf(decls);
      PrefixDiffers(externals, names);
      ok := LoadHeaders(externals);
      if ok {
        ok := LoadHeaders(names);
        if ok {
          AllOf(externals, decls);
          ok := LoadBodies(decls);
        }
      }
    }

    method LoadHeaders(names: seq<string>) returns (ok: bool)
      requires Valid() && code == map[]
      modifies this
      ensures ok <==> AllDifferent(names) && forall x :: x in names ==> x !in old(headers)
      ensures ok ==> Valid() && code == map[] && headers == old(headers) + set x | x in names
    {
      var i := 0;
      while i < |names|
        invariant 0 <= i <= |names| && Valid() && code == map[]
        invariant headers == old(headers) + set x | x in names[..i]
        invariant AllDifferent(names[..i]) && forall k :: 0 <= k < i ==> names[k] !in old(headers)
      {
        var added := AddFunction(names[i]);
        assert names[..i + 1] == names[..i] + [names[i]];
        if !added { return false; }
        i := i + 1;
      }
      assert names[..i] == names;
      return true;
    }

    method LoadBodies(decls: seq<Decl>) returns (ok: bool)
      requires Valid() && code == map[] && forall i, j :: 0 <= i < j < |decls| ==> decls[i].name != decls[j].name
      requires forall d :: d in decls ==> d.name in headers
      modifies this
      ensures ok <==> CallsDeclared(old(headers), decls, isInternal)
      ensures ok ==> Valid() && headers == old(headers)
      ensures ok ==> code.Keys == (set d | d in decls :: d.name) && (forall d :: d in decls ==> code[d.name] == d.code)
    {
      var i := 0;
      while i < |decls|
        invariant 0 <= i <= |decls| && Valid() && headers == old(headers)
        invariant code.Keys == set d | d in decls[..i] :: d.name
        invariant forall k :: 0 <= k < i ==> decls[k].name in code && code[decls[k].name] == decls[k].code
        invariant CallsDeclared(headers, decls[..i], isInternal)
      {
        var added := AddDecl(decls[i]);
        if !added { return false; }
        assert decls[..i + 1] == decls[..i] + [decls[i]];
        i := i + 1;
      }
      assert decls[..i] == decls;
      return true;
    }

    /** The source's check: a topological order, or nothing when there is a cycle. */
    method CheckForCycles() returns (r: Option<seq<string>>)
      requires Valid()
      ensures r.Some? <==> !Cyclic(edges)
      ensures r.Some? ==> Order(nodes, edges, r.value)
    {
      var order: seq<string> := [];
      var todo := nodes;
      while todo != {}
        invariant todo <= nodes && Order(nodes - todo, From(edges, nodes - todo), order)
      {
        var ready := set n | n in todo && forall e :: e in edges && e.0 == n ==> e.1 !in todo;
        if ready == {} {
          assert Stuck(edges, todo) by {
            forall n | n in todo ensures HasNext(edges, todo, n) {
              assert n !in ready;
              var e :| e in edges && e.0 == n && e.1 in todo;
            }
          }
          StuckIsCyclic(edges, todo);
          return None;
        }
        var n :| n in ready;
        AppendOrder(nodes, edges, todo, order, n);
        order := order + [n];
        todo := todo - {n};
      }
      assert nodes - todo == nodes && From(edges, nodes) == edges;
      OrderedIsAcyclic(nodes, edges, order);
      return Some(order);
    }

    /** The nodes that cannot be reached from `tops`. */
    method Unreachable(tops: set<string>) returns (r: set<string>)
      requires Valid()
      ensures forall n :: n in r <==> n in nodes && !Reached(edges, tops * nodes, n)
    {
      var seen := ReachableFrom(edges, nodes, tops * nodes);
      return nodes - seen;
    }

    /** The program for the given entry points: without any, all of it. */
    method Program(tops: set<string>) returns (code': map<string, Expr>, headers': set<string>)
      requires Valid()
      ensures tops == {} ==> code' == code && headers' == headers
      ensures tops != {} ==>
        && (forall f :: f in headers' <==> f in headers && Reached(edges, tops * nodes, f))
        && (forall f :: f in code' <==> f in code && Reached(edges, tops * nodes, f))
        && (forall f :: f in code' ==> code'[f] == code[f])
    {
      if tops == {} { return code, headers; }
      var cut := Unreachable(tops);
      return code - cut, headers - cut;
    }
  }

  lemma PrefixDiffers(a: seq<string>, b: seq<string>)
    ensures AllDifferent(a + b) <==> AllDifferent(a) && AllDifferent(b) && forall x :: x in b ==> x !in a
  {
    var all := a + b;
    if AllDifferent(all) {
      forall i, j | 0 <= i < j < |a| ensures a[i] != a[j] { assert all[i] != all[j]; }
      forall i, j | 0 <= i < j < |b| ensures b[i] != b[j] { assert all[|a| + i] != all[|a| + j]; }
      forall i, j | 0 <= i < |a| && 0 <= j < |b| ensures a[i] != b[j] { assert all[i] != all[|a| + j]; }
    }
    if AllDifferent(a) && AllDifferent(b) && forall x :: x in b ==> x !in a {
      forall i, j | 0 <= i < j < |all| ensures all[i] != all[j] {
        if i < |a| <= j { assert all[j] == b[j - |a|] && b[j - |a|] in b && all[i] in a; }
        else if j >= |a| { assert b[i - |a|] != b[j - |a|]; }
      }
    }
  }

  lemma AllOf(externals: seq<string>, decls: seq<Decl>)
    ensures (set x | x in externals + NamesOf(decls)) == (set x | x in externals) + (set d | d in decls :: d.name)
    ensures (set x | x in NamesOf(decls)) == (set d | d in decls :: d.name)
    ensures forall d :: d in decls ==> d.name in NamesOf(decls)
  {
    forall d | d in decls ensures d.name in NamesOf(decls) {
      var i :| 0 <= i < |decls| && decls[i] == d;
      assert NamesOf(decls)[i] == d.name;
    }
    forall x | x in NamesOf(decls) ensures x in set d | d in decls :: d.name {
      var i :| 0 <= i < |decls| && NamesOf(decls)[i] == x;
      assert decls[i] in decls;
    }
  }

  lemma AppendOrder(nodes: set<string>, edges: Edges, todo: set<string>, order: seq<string>, n: string)
    requires todo <= nodes && n in todo && forall e :: e in edges ==> e.0 in nodes && e.1 in nodes
    requires Order(nodes - todo, From(edges, nodes - todo), order)
    requires forall e :: e in edges && e.0 == n ==> e.1 !in todo
    ensures Order(nodes - (todo - {n}), From(edges, nodes - (todo - {n})), order + [n])
  {
    var longer := order + [n];
    assert n !in order;
    forall e, i | e in From(edges, nodes - (todo - {n})) && 0 <= i < |longer| && longer[i] == e.0
      ensures e.1 in longer[..i]
    {
      if i < |order| {
        assert e in From(edges, nodes - todo);
        assert longer[..i] == order[..i];
      } else {
        assert longer[..i] == order;
        assert e.1 in nodes - todo;
      }
    }
  }

  // ----- accepted programs terminate -----

  ghost predicate NoClash(code: map<string, Expr>, isInternal: string -> bool) {
    forall f :: f in code ==> !isInternal(f)
  }

  function OnlyIn(order: seq<string>, s: set<string>): (r: seq<string>)
    ensures |r| <= |order| && forall n :: n in r <==> n in order && n in s
  {
    if order == [] then []
    else OnlyIn(order[..|order| - 1], s) + (if order[|order| - 1] in s then [order[|order| - 1]] else [])
  }

  /** Where an element of the restricted order comes from. */
  lemma OnlyInAt(order: seq<string>, s: set<string>, i: nat) returns (j: nat)
    requires i < |OnlyIn(order, s)|
    ensures j < |order| && order[j] == OnlyIn(order, s)[i]
    ensures forall n :: n in order[..j] && n in s ==> n in OnlyIn(order, s)[..i]
    decreases |order|
  {
    var last := |order| - 1;
    var r := OnlyIn(order[..last], s);
    if i < |r| {
      j := OnlyInAt(order[..last], s, i);
      assert order[..j] == order[..last][..j] && OnlyIn(order, s)[..i] == r[..i];
    } else {
      j := last;
      assert OnlyIn(order, s)[..i] == r;
    }
  }

  ghost function OrderedBy(env: Env, order: seq<string>, scoped: bool): Ordered {
    Ordered(env, OnlyIn(order, env.code.Keys), scoped)
  }

  lemma OrderIsTopological(env: Env, nodes: set<string>, edges: Edges, order: seq<string>, isInternal: string -> bool,
                           scoped: bool)
    requires Order(nodes, edges, order) && env.code.Keys <= nodes
    requires GraphOf(edges, env.code, isInternal) && NoClash(env.code, isInternal)
    requires scoped ==> forall f :: f in env.code ==> Scoped(env.code[f], 0)
    ensures Topological(OrderedBy(env, order, scoped))
  {
    var p := OrderedBy(env, order, scoped);
    forall i | 0 <= i < |p.order| ensures p.order[i] in env.code && Fine(p, env.code[p.order[i]], i, 0) {
      var f := p.order[i];
      var j := OnlyInAt(order, env.code.Keys, i);
      forall c | c in CallsOf(env.code[f]) ensures c in Callable(p, i) {
        if c in env.code { assert (f, c) in edges; assert c in order[..j]; }
      }
      CallsWithin(env.code[f], Callable(p, i));
    }
  }

  /** On a program that passes the cycle check evaluation terminates: calls never
      nest deeper than there are functions, whatever is evaluated. From scoped
      code it never meets a free variable either. */
  lemma AcceptedTerminates(env: Env, nodes: set<string>, edges: Edges, order: seq<string>, isInternal: string -> bool,
                           scoped: bool, e: Expr, k: nat)
    requires Order(nodes, edges, order) && env.code.Keys <= nodes
    requires GraphOf(edges, env.code, isInternal) && NoClash(env.code, isInternal)
    requires scoped ==> Scoped(e, 0) && forall f :: f in env.code ==> Scoped(env.code[f], 0)
    requires k >= |order|
    ensures Eval(env, e, k) != Err(TooDeep)
    ensures scoped ==> Eval(env, e, k) != Err(FreeVariable)
  {
    var p := OrderedBy(env, order, scoped);
    OrderIsTopological(env, nodes, edges, order, isInternal, scoped);
    assert p.order[..|p.order|] == p.order;
    WithinAll(e, Callable(p, k));
    Progress.Progress(p, e, k);
  }

  /** ... and then the bound on nested calls does not matter. */
  lemma AcceptedIsDefinite(env: Env, nodes: set<string>, edges: Edges, order: seq<string>, isInternal: string -> bool,
                           e: Expr, k: nat)
    requires Order(nodes, edges, order) && env.code.Keys <= nodes
    requires GraphOf(edges, env.code, isInternal) && NoClash(env.code, isInternal)
    requires ClosedEnv(env) && Closed(e, 0) && k >= |order|
    ensures Eval(env, e, k) == Eval(env, e, |order|)
  {
    AcceptedTerminates(env, nodes, edges, order, isInternal, false, e, |order|);
    InstClosed(e, 0, []);
    ValueFor(env, e, [], [], |order|, k);
  }

  /** Without the check: a function that calls itself exhausts every bound. */
  lemma SelfCallNeverEnds(env: Env, f: string, k: nat)
    requires f in env.code && env.code[f] == Node(CallExpr(f, false), Nil)
    ensures Eval(env, Node(CallExpr(f, false), Nil), k) == Err(TooDeep)
    ensures forall isInternal, edges :: GraphOf(edges, env.code, isInternal) && !isInternal(f) ==> Cyclic(edges)
  {
    if k > 0 { SelfCallNeverEnds(env, f, k - 1); }
    var call := Node(CallExpr(f, false), Nil);
    assert EvalList(env, Nil, k) == Ok(Nil);
    assert FirstReturn(Nil).None? && ApplyAll(call, Nil) == Ok(call);
    assert EvalCall(env, f, false, Nil, k) == Err(TooDeep);
    assert EvalNode(env, CallExpr(f, false), Nil, k) == EvalCallExpr(env, f, false, Nil, k);
    forall isInternal, edges | GraphOf(edges, env.code, isInternal) && !isInternal(f) ensures Cyclic(edges) {
      assert (f, f) in edges;
      assert Cycle(edges, [f, f]);
    }
  }

  // ----- cutting -----

  /** What `Program(tops)` keeps. */
  ghost predicate CutTo(env: Env, edges: Edges, tops: set<string>, cut: Env) {
    && cut == env.(code := cut.code)
    && (forall f :: f in cut.code <==> f in env.code && Reached(edges, tops, f))
    && (forall f :: f in cut.code ==> cut.code[f] == env.code[f])
  }

  ghost function KeptNames(env: Env, edges: Edges, tops: set<string>): iset<string> {
    iset f: string | f !in env.code || Reached(edges, tops, f)
  }

  lemma CutAgrees(env: Env, edges: Edges, tops: set<string>, cut: Env, isInternal: string -> bool)
    requires GraphOf(edges, env.code, isInternal) && NoClash(env.code, isInternal) && ClosedEnv(env)
        && CutTo(env, edges, tops, cut)
    ensures Agree(Sim(env, cut, KeptNames(env, edges, tops), false))
        && Agree(Sim(cut, env, KeptNames(env, edges, tops), false))
  {
    hide Reached, Closed;
    var names := KeptNames(env, edges, tops);
    forall f | f in names && f in env.code ensures Within(env.code[f], names, false) {
      forall c | c in CallsOf(env.code[f]) ensures c in names {
        if c in env.code { assert (f, c) in edges; ReachedEdge(edges, tops, f, c); }
      }
      CallsWithin(env.code[f], names);
    }
    forall f | f in names
      ensures SameFunction(Sim(env, cut, names, false), f) && SameFunction(Sim(cut, env, names, false), f)
    {}
  }

  lemma ReachedEdge(edges: Edges, tops: set<string>, f: string, c: string)
    requires Reached(edges, tops, f) && (f, c) in edges
    ensures Reached(edges, tops, c)
  {
    var t :| t in tops && Reaches(edges, t, f);
    Extend(edges, t, f, c);
  }

  /** Cutting unreachable functions changes no result and no error of anything
      that only calls functions that are kept. */
  lemma CutPreservesEvaluation(env: Env, edges: Edges, tops: set<string>, cut: Env, isInternal: string -> bool,
                               e: Expr, k: nat)
    requires GraphOf(edges, env.code, isInternal) && NoClash(env.code, isInternal) && ClosedEnv(env)
        && CutTo(env, edges, tops, cut)
    requires Closed(e, 0) && forall f :: f in CallsOf(e) && f in env.code ==> Reached(edges, tops, f)
    ensures Eval(cut, e, k) == Eval(env, e, k)
  {
    hide Reached;
    var names := KeptNames(env, edges, tops);
    CutAgrees(env, edges, tops, cut, isInternal);
    CallsWithin(e, names);
    InstClosed(e, 0, []);
    Simulate(Sim(env, cut, names, false), e, [], [], k, k);
    Simulate(Sim(cut, env, names, false), e, [], [], k, k);
  }

  /** Only what is reachable can still be called: a call to a cut function fails. */
  lemma CutIsGone(env: Env, edges: Edges, tops: set<string>, cut: Env, f: string, async: bool, args: List<Expr>, k: nat)
    requires CutTo(env, edges, tops, cut) && !Reached(edges, tops, f) && !env.isBuiltin(f) && !env.isExternal(f)
    ensures var r := Eval(cut, Node(CallExpr(f, async), args), k); r.Ok? ==> IsReturn(r.value)
  {
    assert f !in cut.code;
    var vs := EvalList(cut, args, k);
    assert EvalNode(cut, CallExpr(f, async), args, k) == EvalCallExpr(cut, f, async, args, k);
    if vs.Ok? {
      assert EvalCallExpr(cut, f, async, args, k) == EvalCall(cut, f, async, vs.value, k);
      if FirstReturn(vs.value).None? {
        assert forall ls :: ForeignCall(cut, f, async, ls) == Err(Failed);
        assert EvalCall(cut, f, async, vs.value, k).Err?;
      }
    }
  }
}
