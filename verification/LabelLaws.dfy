/** What label matching and label equality mean
    (src/armour-lang/src/labels.rs:237-241, 286-332). */
module LabelLaws {
  import opened Prelude
  import opened Labels

  predicate SameNode(a: LabelNode, b: LabelNode) { if a.Str? || b.Str? then a == b else true }

  /** Equal lengths, the same strings, and wildcards opposite wildcards. */
  predicate SameShape(p: Label, q: Label) {
    |p| == |q| && forall i :: 0 <= i < |p| ==> SameNode(p[i], q[i])
  }

  function NameOf(n: LabelNode): string { if n.Str? then "" else n.name }

  function Names(p: Label): set<string> { set i | 0 <= i < |p| && NameOf(p[i]) != "" :: NameOf(p[i]) }

  /** The name occurs before position `j`. */
  predicate Before(p: Label, j: nat, x: string)
    requires j <= |p|
  {
    exists a :: 0 <= a < j && NameOf(p[a]) == x
  }

  /** Before position `j` some `<<x>>` follows an earlier occurrence of `x`: it has
      captured more than one node. */
  predicate Grown(p: Label, j: nat, x: string)
    requires j <= |p|
  {
    exists b :: 0 <= b < j && p[b] == RecAny(x) && Before(p, b, x)
  }

  /** No `<x>` after that. */
  predicate SettledAt(p: Label, j: nat)
    requires j < |p|
  {
    p[j].Any? && p[j].name != "" ==> !Grown(p, j, p[j].name)
  }

  predicate Settled(p: Label) { forall j :: 0 <= j < |p| ==> SettledAt(p, j) }

  lemma BeforeStep(p: Label, j: nat, x: string)
    requires j < |p|
    ensures Before(p, j + 1, x) <==> Before(p, j, x) || NameOf(p[j]) == x
    ensures Grown(p, j + 1, x) <==> Grown(p, j, x) || (p[j] == RecAny(x) && Before(p, j, x))
    ensures Grown(p, j, x) ==> Before(p, j, x)
  {
    if Before(p, j, x) { var a :| 0 <= a < j && NameOf(p[a]) == x; assert a < j + 1; }
    if Grown(p, j, x) {
      var b :| 0 <= b < j && p[b] == RecAny(x) && Before(p, b, x);
      assert b < j + 1 && NameOf(p[b]) == x;
    }
  }

  // ----- equality -----

  /** Comparing a capture with one more node. */
  lemma EqualOne(a: Label, n: LabelNode)
    requires a != []
    ensures Equal(a, [n]) <==> |a| == 1 && SameNode(a[0], n)
  {
    if |a| == 1 {
      OneMatch(a[0], n);
      OneMatch(n, a[0]);
      assert a == [a[0]];
    } else {
      assert MatchWith(a, [n]).None?;
    }
  }

  lemma OneMatch(p: LabelNode, n: LabelNode)
    ensures Matches([p], [n]) <==> (p.Str? ==> p == n)
  {
    var q, l, none := [p], [n], map[];
    assert Extended(q, 1) == q;
    var c := Capture(p, n, none, 0, 1);
    assert MatchWith(q, l) == MatchFrom(q, l, 0, none);
    assert c.Some? ==> MatchFrom(q, l, 1, c.value) == c;
  }

  /** What the captures before position `i` look like when wildcards only meet
      wildcards. */
  ghost predicate Tracks(p: Label, i: nat, m: map<string, Label>)
    requires i <= |p|
  {
    forall x :: TracksName(p, i, m, x)
  }

  predicate TracksName(p: Label, i: nat, m: map<string, Label>, x: string)
    requires i <= |p|
  {
    && (x in m <==> x != "" && Before(p, i, x))
    && (x in m ==> m[x] != [] && !m[x][0].Str? && (|m[x]| > 1 <==> Grown(p, i, x)))
  }

  lemma TracksStep(p: Label, l: Label, i: nat, m: map<string, Label>)
    requires i < |l| == |p| && Short(m, i) && SameShape(p, l) && Tracks(p, i, m)
    ensures var c := Capture(p[i], l[i], m, i, |l|);
      && (c.Some? <==> SettledAt(p, i))
      && (c.Some? ==> Tracks(p, i + 1, c.value))
  {
    hide Before, Grown, Equal;
    assert SameNode(p[i], l[i]);
    var x := NameOf(p[i]);
    assert TracksName(p, i, m, x);
    BeforeStep(p, i, x);
    if p[i].Any? && x in m { EqualOne(m[x], l[i]); }
    var c := Capture(p[i], l[i], m, i, |l|);
    if c.Some? {
      var j, m' := i + 1, c.value;
      forall y ensures TracksName(p, j, m', y) {
        assert TracksName(p, i, m, y);
        BeforeStep(p, i, y);
      }
    }
  }

  lemma {:induction false} SettledRun(p: Label, l: Label, i: nat, m: map<string, Label>)
    requires i <= |l| == |p| && Short(m, i) && SameShape(p, l) && Tracks(p, i, m)
    ensures MatchFrom(p, l, i, m).Some? <==> forall j :: i <= j < |p| ==> SettledAt(p, j)
    decreases |l| - i
  {
    if i < |l| {
      TracksStep(p, l, i, m);
      var c := Capture(p[i], l[i], m, i, |l|);
      if c.Some? { SettledRun(p, l, i + 1, c.value); }
    }
  }

  /** Opposite wildcards always match, unless a capture that has grown meets `<x>` again. */
  lemma SameShapeMatches(p: Label, l: Label)
    requires SameShape(p, l)
    ensures Matches(p, l) <==> Settled(p)
  {
    assert Tracks(p, 0, map[]);
    SettledRun(p, l, 0, map[]);
  }

  lemma {:induction false} StringsMatch(p: Label, l: Label, i: nat, m: map<string, Label>)
    requires i <= |l| == |p| && Short(m, i) && MatchFrom(p, l, i, m).Some?
    ensures forall j :: i <= j < |p| && p[j].Str? ==> l[j] == p[j]
    decreases |l| - i
  {
    if i < |l| { StringsMatch(p, l, i + 1, Capture(p[i], l[i], m, i, |l|).value); }
  }

  lemma MatchLength(p: Label, l: Label)
    requires Matches(p, l)
    ensures |p| <= |l| && (|p| == |l| ==> MatchFrom(p, l, 0, map[]).Some?)
  {}

  /** Label equality, which the source defines as matching both ways, is having
      the same shape, on labels without `<x>` after a `<<x>>` that repeats `x`. */
  lemma EqualExactly(p: Label, q: Label)
    ensures Equal(p, q) <==> SameShape(p, q) && Settled(p) && Settled(q)
  {
    if Equal(p, q) {
      MatchLength(p, q);
      MatchLength(q, p);
      StringsMatch(p, q, 0, map[]);
      StringsMatch(q, p, 0, map[]);
      assert SameShape(p, q);
    }
    if SameShape(p, q) {
      SameShapeMatches(p, q);
      SameShapeMatches(q, p);
    }
  }

  /** It is symmetric and transitive, and reflexive exactly on settled labels. */
  lemma EqualIsEquivalence(p: Label, q: Label, r: Label)
    ensures Equal(p, p) <==> Settled(p)
    ensures Equal(p, q) ==> Equal(q, p)
    ensures Equal(p, q) && Equal(q, r) ==> Equal(p, r)
  {
    EqualExactly(p, p);
    EqualExactly(p, q);
    EqualExactly(q, p);
    EqualExactly(q, r);
    EqualExactly(p, r);
  }

  /** No name stands both for `<x>` and for `<<x>>`. */
  predicate Unmixed(p: Label) {
    forall i, j :: 0 <= i < |p| && 0 <= j < |p| && p[i].Any? && p[j].RecAny? && p[i].name != ""
      ==> p[i].name != p[j].name
  }

  lemma UnmixedIsSettled(p: Label)
    requires Unmixed(p)
    ensures Settled(p)
  {
    forall j | 0 <= j < |p| ensures SettledAt(p, j) {
      if p[j].Any? && p[j].name != "" { assert forall b :: 0 <= b < |p| ==> p[b] != RecAny(p[j].name); }
    }
  }

  /** A label that is not equal to itself. */
  lemma NotReflexive()
    ensures var p := [Any("x"), RecAny("x"), Any("x")]; !Equal(p, p)
  {
    var p := [Any("x"), RecAny("x"), Any("x")];
    assert NameOf(p[0]) == "x" && Before(p, 1, "x");
    assert p[1] == RecAny("x") && Grown(p, 2, "x");
    assert !SettledAt(p, 2);
    EqualExactly(p, p);
  }

  // ----- matching a concrete label -----

  predicate Concrete(l: Label) { forall i :: 0 <= i < |l| ==> l[i].Str? }

  /** The pattern node covers one label node, a name standing for that node. */
  predicate NodeFits(p: LabelNode, n: LabelNode, m: map<string, Label>) {
    if p.Str? then n == p else p.name != "" ==> p.name in m && m[p.name] == [n]
  }

  /** Where the nodes of a pattern that cover exactly one node end. */
  function Singles(p: Label): nat { if EndsRec(p) then |p| - 1 else |p| }

  /** The assignment `m` makes the pattern cover the label: node by node, a final
      `**` or `<<x>>` covering the non-empty rest. */
  predicate Fits(p: Label, l: Label, m: map<string, Label>) {
    && (if EndsRec(p) then |p| <= |l| else |p| == |l|)
    && (forall i :: 0 <= i < Singles(p) ==> NodeFits(p[i], l[i], m))
    && (EndsRec(p) && p[|p| - 1].name != "" ==> p[|p| - 1].name in m && m[p[|p| - 1].name] == l[|p| - 1..])
  }

  predicate FitsExactly(p: Label, l: Label, m: map<string, Label>) { Fits(p, l, m) && m.Keys == Names(p) }

  /** No `<<x>>` after an earlier occurrence of `x`. */
  predicate NoLateRec(p: Label) {
    forall i, j :: 0 <= i < j < |p| && p[j].RecAny? && p[j].name != "" ==> NameOf(p[i]) != p[j].name
  }

  predicate Lengths(p: Label, l: Label) { if EndsRec(p) then |p| <= |l| else |p| == |l| }

  /** The captures after `i` nodes of the label. */
  ghost predicate Upto(p: Label, l: Label, i: nat, m: map<string, Label>)
    requires i <= |l| && Lengths(p, l)
  {
    var n := |p|;
    && (forall j :: 0 <= j < i && j < Singles(p) ==> NodeFits(p[j], l[j], m))
    && (EndsRec(p) && i >= n && p[n - 1].name != "" ==> p[n - 1].name in m && m[p[n - 1].name] == l[n - 1..i])
    && KeysAre(p, if i <= n then i else n, m)
  }

  /** The names before position `i` have captures. */
  ghost predicate KeysAre(p: Label, i: nat, m: map<string, Label>)
    requires i <= |p|
  {
    forall x :: x in m <==> x != "" && Before(p, i, x)
  }

  lemma KeysStep(p: Label, i: nat, m: map<string, Label>, c: Label)
    requires i < |p| && KeysAre(p, i, m)
    ensures NameOf(p[i]) == "" ==> KeysAre(p, i + 1, m)
    ensures NameOf(p[i]) != "" ==> KeysAre(p, i + 1, m[NameOf(p[i]) := c])
  {
    hide Before, Grown;
    var j := i + 1;
    forall x ensures Before(p, j, x) <==> Before(p, i, x) || NameOf(p[i]) == x { BeforeStep(p, i, x); }
  }

  /** A node captured again is the same node. */
  lemma CapturedAgain(p: Label, l: Label, i: nat, m: map<string, Label>)
    requires Lengths(p, l) && Concrete(l) && i < |p| && Short(m, i) && Upto(p, l, i, m)
    requires p[i].Any? && p[i].name in m && Equal(m[p[i].name], [l[i]])
    ensures m[p[i].name] == [l[i]]
  {
    hide Equal;
    EqualOne(m[p[i].name], l[i]);
    CaptureIsString(p, l, i, m, p[i].name);
  }

  /** One node of the label, a pattern node of its own covering it. */
  lemma SingleStep(p: Label, l: Label, i: nat, m: map<string, Label>)
    requires NoLateRec(p) && Lengths(p, l) && Concrete(l)
    requires i < |p| && Short(m, i) && Upto(p, l, i, m)
    ensures var c := Capture(p[i], l[i], m, i, |l|); c.Some? ==> Upto(p, l, i + 1, c.value)
  {
    hide Equal, Before;
    var x := NameOf(p[i]);
    KeysStep(p, i, m, [l[i]]);
    if p[i].RecAny? && x in m { NotLate(p, i, m); }
    if p[i].Any? && x in m && Equal(m[x], [l[i]]) { CapturedAgain(p, l, i, m); assert m[x := [l[i]]] == m; }
    assert l[i..i + 1] == [l[i]];
  }

  lemma NotLate(p: Label, i: nat, m: map<string, Label>)
    requires NoLateRec(p) && i < |p| && KeysAre(p, i, m) && p[i].RecAny?
    ensures p[i].name !in m
  {}

  lemma CaptureIsString(p: Label, l: Label, i: nat, m: map<string, Label>, x: string)
    requires Lengths(p, l) && Concrete(l) && i < |p| && Upto(p, l, i, m) && x in m
    ensures exists a :: 0 <= a < i && NameOf(p[a]) == x && m[x] == [l[a]]
  {
    var a :| 0 <= a < i && NameOf(p[a]) == x;
    assert NodeFits(p[a], l[a], m);
  }

  /** If the label can be covered at all, the step does not fail. */
  lemma StepSucceeds(p: Label, l: Label, i: nat, m: map<string, Label>, m': map<string, Label>)
    requires NoLateRec(p) && Lengths(p, l) && Concrete(l) && Fits(p, l, m')
    requires i < |p| && Short(m, i) && Upto(p, l, i, m)
    ensures Capture(p[i], l[i], m, i, |l|).Some?
  {
    hide Equal;
    if p[i].Any? && p[i].name in m {
      var x := p[i].name;
      CaptureIsString(p, l, i, m, x);
      var a :| 0 <= a < i && NameOf(p[a]) == x && m[x] == [l[a]];
      assert NodeFits(p[a], l[a], m') && NodeFits(p[i], l[i], m');
      EqualOne(m[x], l[i]);
    } else if p[i].Str? {
      assert NodeFits(p[i], l[i], m');
    }
  }

  /** One more node for the final `**` or `<<x>>`. */
  lemma LastStep(p: Label, l: Label, i: nat, m: map<string, Label>)
    requires NoLateRec(p) && Lengths(p, l) && |p| <= i < |l| && Short(m, i) && Upto(p, l, i, m)
    ensures var c := Capture(p[|p| - 1], l[i], m, i, |l|); c.Some? && Upto(p, l, i + 1, c.value)
  {
    var n := |p|;
    assert l[n - 1..i + 1] == l[n - 1..i] + [l[i]];
  }

  lemma RunStep(p: Label, l: Label, i: nat, m: map<string, Label>)
    requires NoLateRec(p) && Lengths(p, l) && Concrete(l) && i < |l| && Short(m, i) && Upto(p, l, i, m)
    ensures var c := Capture(Extended(p, |l|)[i], l[i], m, i, |l|);
      && (c.Some? ==> Upto(p, l, i + 1, c.value))
      && (c.None? ==> forall m' :: !Fits(p, l, m'))
  {
    hide Upto, Capture, Fits;
    var q := Extended(p, |l|);
    if i < |p| {
      assert q[i] == p[i];
      SingleStep(p, l, i, m);
      if Capture(p[i], l[i], m, i, |l|).None? {
        forall m' ensures !Fits(p, l, m') { if Fits(p, l, m') { StepSucceeds(p, l, i, m, m'); } }
      }
    } else {
      assert q[i] == p[|p| - 1];
      LastStep(p, l, i, m);
    }
  }

  lemma {:induction false} Run(p: Label, l: Label, i: nat, m: map<string, Label>)
    requires NoLateRec(p) && Lengths(p, l) && Concrete(l) && i <= |l| && Short(m, i) && Upto(p, l, i, m)
    ensures var r := MatchFrom(Extended(p, |l|), l, i, m);
      && (r.Some? ==> Upto(p, l, |l|, r.value))
      && (r.None? ==> forall m' :: !Fits(p, l, m'))
    decreases |l| - i
  {
    hide Upto, Fits, Capture;
    if i < |l| {
      RunStep(p, l, i, m);
      var c := Capture(Extended(p, |l|)[i], l[i], m, i, |l|);
      if c.Some? { Run(p, l, i + 1, c.value); }
    }
  }

  lemma NamesBefore(p: Label)
    ensures forall x :: x in Names(p) <==> x != "" && Before(p, |p|, x)
  {}

  lemma {:induction false} UptoFits(p: Label, l: Label, m: map<string, Label>)
    requires Lengths(p, l) && Upto(p, l, |l|, m)
    ensures FitsExactly(p, l, m)
  {
    NamesBefore(p);
  }

  /** The captures are determined by the pattern and the label. */
  lemma FitsUnique(p: Label, l: Label, m: map<string, Label>, m': map<string, Label>)
    requires FitsExactly(p, l, m) && FitsExactly(p, l, m')
    ensures m == m'
  {
    forall x | x in Names(p) ensures m[x] == m'[x] {
      var i :| 0 <= i < |p| && NameOf(p[i]) == x;
      OneFits(p, l, m, m', i);
    }
  }

  lemma OneFits(p: Label, l: Label, m: map<string, Label>, m': map<string, Label>, i: nat)
    requires FitsExactly(p, l, m) && FitsExactly(p, l, m') && i < |p| && NameOf(p[i]) in Names(p)
    ensures m[NameOf(p[i])] == m'[NameOf(p[i])]
  {
    if i < Singles(p) { assert NodeFits(p[i], l[i], m) && NodeFits(p[i], l[i], m'); }
  }

  ghost predicate MatchIsFit(p: Label, l: Label, m: map<string, Label>) {
    MatchWith(p, l) == Some(m) <==> FitsExactly(p, l, m)
  }

  lemma MatchSound(p: Label, l: Label, m: map<string, Label>)
    requires NoLateRec(p) && Concrete(l)
    ensures MatchIsFit(p, l, m)
  {
    if Lengths(p, l) {
      assert Upto(p, l, 0, map[]);
      Run(p, l, 0, map[]);
      var r := MatchWith(p, l);
      if r.Some? {
        UptoFits(p, l, r.value);
        if FitsExactly(p, l, m) { FitsUnique(p, l, m, r.value); }
      }
    }
  }

  // ----- and on patterns with a late `<<x>>` it is not -----

  lemma {:induction false} LateRun(p: Label, l: Label, i: nat, m: map<string, Label>, x: string)
    requires i <= |l| == |p| && Short(m, i) && x != ""
    requires (Before(p, i, x) ==> x in m) && (Grown(p, i, x) ==> x in m && |m[x]| > 1)
    ensures var r := MatchFrom(p, l, i, m); r.Some? && Grown(p, |p|, x) ==> x in r.value && |r.value[x]| > 1
    decreases |l| - i
  {
    hide Equal, Before, Grown;
    if i < |l| {
      BeforeStep(p, i, x);
      if p[i].Any? && p[i].name == x && x in m { EqualOne(m[x], l[i]); }
      var c := Capture(p[i], l[i], m, i, |l|);
      if c.Some? { LateRun(p, l, i + 1, c.value, x); }
    }
  }

  /** All wildcards stand for the same node. */
  function Filled(p: Label): (l: Label)
    ensures |l| == |p| && Concrete(l) && forall i :: 0 <= i < |p| ==> l[i] == if p[i].Str? then p[i] else Str("a")
  {
    seq(|p|, i requires 0 <= i < |p| => if p[i].Str? then p[i] else Str("a"))
  }

  lemma LateRecFails(p: Label)
    requires !NoLateRec(p)
    ensures exists l, m :: Concrete(l) && !MatchIsFit(p, l, m)
  {
    var i, j :| 0 <= i < j < |p| && p[j].RecAny? && p[j].name != "" && NameOf(p[i]) == p[j].name;
    var x, l, m := p[j].name, Filled(p), map y | y in Names(p) :: [Str("a")];
    assert Before(p, j, x);
    assert Grown(p, |p|, x);
    assert !Before(p, 0, x) && !Grown(p, 0, x);
    LateRun(p, l, 0, map[], x);
    assert Extended(p, |l|) == p;
    FilledFits(p, m);
    assert x in Names(p) && |m[x]| == 1;
    assert !MatchIsFit(p, l, m);
  }

  lemma FilledFits(p: Label, m: map<string, Label>)
    requires m == map y | y in Names(p) :: [Str("a")]
    ensures FitsExactly(p, Filled(p), m)
  {
    forall i | 0 <= i < Singles(p) ensures NodeFits(p[i], Filled(p)[i], m) {
      if NameOf(p[i]) != "" { assert NameOf(p[i]) in Names(p); }
    }
    if EndsRec(p) && p[|p| - 1].name != "" {
      assert NameOf(p[|p| - 1]) in Names(p);
      assert Filled(p)[|p| - 1..] == [Str("a")];
    }
  }

  /** Matching is sound and complete on concrete labels, with exactly the
      captures that make the pattern cover the label, if and only if no `<<x>>`
      comes after another occurrence of `x`. */
  lemma MatchExactly(p: Label)
    ensures NoLateRec(p) <==> forall l, m :: Concrete(l) ==> MatchIsFit(p, l, m)
  {
    if NoLateRec(p) {
      forall l, m | Concrete(l) ensures MatchIsFit(p, l, m) { MatchSound(p, l, m); }
    } else {
      LateRecFails(p);
    }
  }

  // ----- composition of patterns -----

  /** Every name occurs once. */
  predicate Linear(p: Label) {
    forall i, j :: 0 <= i < j < |p| && NameOf(p[i]) != "" ==> NameOf(p[i]) != NameOf(p[j])
  }

  /** The strings of the pattern are where they should be. */
  predicate Aligned(p: Label, l: Label) {
    Lengths(p, l) && forall i :: 0 <= i < |p| && p[i].Str? ==> l[i] == p[i]
  }

  /** Only names that occurred have captures. */
  ghost predicate Occurred(p: Label, i: nat, m: map<string, Label>) {
    forall x :: x in m ==> Before(p, if i <= |p| then i else |p|, x)
  }

  lemma LinearStep(p: Label, l: Label, i: nat, m: map<string, Label>)
    requires Linear(p) && Lengths(p, l) && i < |l| && Short(m, i) && Occurred(p, i, m)
    ensures var c := Capture(Extended(p, |l|)[i], l[i], m, i, |l|);
      && (c.Some? <==> (i < |p| && p[i].Str? ==> l[i] == p[i]))
      && (c.Some? ==> Occurred(p, i + 1, c.value))
  {
    hide Equal, Before;
    var q := Extended(p, |l|);
    if i < |p| {
      assert q[i] == p[i];
      var j := i + 1;
      LinearNew(p, i, m);
      forall x | x in m || x == NameOf(p[i]) ensures Before(p, j, x) { BeforeStep(p, i, x); }
    } else {
      assert q[i] == p[|p| - 1];
      LastBefore(p);
    }
  }

  lemma LastBefore(p: Label)
    requires p != []
    ensures Before(p, |p|, NameOf(p[|p| - 1]))
  {}

  lemma {:induction false} LinearRun(p: Label, l: Label, i: nat, m: map<string, Label>)
    requires Linear(p) && Lengths(p, l) && i <= |l| && Short(m, i) && Occurred(p, i, m)
    ensures MatchFrom(Extended(p, |l|), l, i, m).Some? <==> forall j :: i <= j < |p| && p[j].Str? ==> l[j] == p[j]
    decreases |l| - i
  {
    hide Equal, Occurred, Capture;
    if i < |l| {
      LinearStep(p, l, i, m);
      var c := Capture(Extended(p, |l|)[i], l[i], m, i, |l|);
      if c.Some? { LinearRun(p, l, i + 1, c.value); }
    }
  }

  lemma LinearNew(p: Label, i: nat, m: map<string, Label>)
    requires Linear(p) && i < |p| && Occurred(p, i, m)
    ensures NameOf(p[i]) != "" ==> NameOf(p[i]) !in m
  {}

  lemma LinearMatches(p: Label, l: Label)
    requires Linear(p)
    ensures Matches(p, l) <==> Aligned(p, l)
  {
    if Lengths(p, l) { LinearRun(p, l, 0, map[]); }
  }

  ghost predicate Implies(p: Label, q: Label, l: Label) { Matches(q, l) ==> Matches(p, l) }

  /** Matching composes on patterns that name nothing twice: if `p` matches the
      pattern `q` then it matches everything that `q` does, exactly when `p` ends
      in `**` or `q` does not. */
  lemma ComposeExactly(p: Label, q: Label)
    requires Linear(p) && Linear(q) && Matches(p, q)
    ensures (forall l :: Implies(p, q, l)) <==> EndsRec(p) || !EndsRec(q)
  {
    hide Matches;
    LinearMatches(p, q);
    if EndsRec(p) || !EndsRec(q) {
      forall l ensures Implies(p, q, l) {
        LinearMatches(p, l);
        LinearMatches(q, l);
      }
    } else {
      var l := Filled(q + [Str("a")]);
      LinearMatches(p, l);
      LinearMatches(q, l);
      assert forall i :: 0 <= i < |q| ==> (q + [Str("a")])[i] == q[i];
      assert !Implies(p, q, l);
    }
  }
}
