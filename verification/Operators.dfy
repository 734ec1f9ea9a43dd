/** What the operators and the collecting iterations of the interpreter compute
    (src/armour-lang/src/interpret.rs:107-133, 219-259, 567-595, 1059-1094). */
module Operators {
  import opened Prelude
  import opened Syntax
  import opened Interpret

  function I(i: i64): Literal { Flat(Int(i)) }

  /** The integer an operation gives, if it gives one. */
  function IntOf(op: Infix, i: i64, j: i64): Option<int> {
    match EvalInfix(op, I(i), I(j))
    case Some(Flat(Int(k))) => Some(k as int)
    case _ => None
  }

  function Abs(x: int): nat { if x < 0 then -x else x }

  lemma QuotientLaw(i: int, j: int)
    requires j != 0
    ensures var q := Quotient(i, j); var r := i - q * j;
      && Abs(r) < Abs(j)
      && (r == 0 || (r < 0 <==> i < 0))
  {}

  /** Division and remainder fit together, the remainder has the sign of the
      dividend, and both fail exactly on zero and on the one quotient that does
      not fit 64 bits. */
  lemma DivisionAndRemainder(i: i64, j: i64)
    ensures IntOf(Divide, i, j).Some? <==> IntOf(Remainder, i, j).Some?
    ensures IntOf(Divide, i, j).Some? <==> j != 0 && !(i == -TWO63 && j == -1)
    ensures IntOf(Divide, i, j).Some? ==>
      var q, r := IntOf(Divide, i, j).value, IntOf(Remainder, i, j).value;
      && i == q * j + r
      && Abs(r) < Abs(j)
      && (r == 0 || (r < 0 <==> i < 0))
  {
    if j != 0 && !(i == -TWO63 && j == -1) {
      QuotientLaw(i, j);
      QuotientFits(i, j);
      RemainderFits(i, j);
    }
  }

  lemma QuotientFits(i: i64, j: i64)
    requires j != 0 && !(i == -TWO63 && j == -1)
    ensures -TWO63 <= Quotient(i, j) < TWO63
  {}

  lemma RemainderFits(i: i64, j: i64)
    requires j != 0
    ensures -TWO63 <= i - Quotient(i, j) * j < TWO63
  {}

  /** Subtraction undoes addition and negation undoes itself, overflow or not. */
  lemma MinusUndoesPlus(i: i64, j: i64)
    ensures IntOf(Plus, i, j).Some? && IntOf(Minus, IntOf(Plus, i, j).value, j) == Some(i as int)
  {
    hide EvalInfix;
    WrapsOnce(i + j);
    WrapsOnce(Wrap(i + j) - j);
    assert EvalInfix(Plus, I(i), I(j)) == Some(I(Wrap(i + j))) by { IntSum(i, j); }
    assert EvalInfix(Minus, I(Wrap(i + j)), I(j)) == Some(I(Wrap(Wrap(i + j) - j))) by { IntSum(Wrap(i + j), j); }
  }

  lemma IntSum(i: i64, j: i64)
    ensures EvalInfix(Plus, I(i), I(j)) == Some(I(Wrap(i + j))) && EvalInfix(Minus, I(i), I(j)) == Some(I(Wrap(i - j)))
  {}

  lemma WrapsOnce(x: int)
    requires -2 * TWO63 <= x < 2 * TWO63
    ensures Wrap(x) == if x < -TWO63 then x + 2 * TWO63 else if x < TWO63 then x else x - 2 * TWO63
  {}

  lemma NegateTwice(i: i64)
    ensures EvalPrefix(Negate, I(i)).Some? && EvalPrefix(Negate, EvalPrefix(Negate, I(i)).value) == Some(I(i))
  {}

  /** Prefix and infix minus agree, on the smallest integer too. */
  lemma MinusIsPlusNegated(i: i64, j: i64)
    ensures EvalPrefix(Negate, I(j)).Some?
    ensures EvalInfix(Minus, I(i), I(j)).Some?
        && EvalInfix(Minus, I(i), I(j)) == EvalInfix(Plus, I(i), EvalPrefix(Negate, I(j)).value)
  {
    hide EvalInfix, Wrap;
    WrapSum(0 - j, i);
    IntSum(i, j);
    IntSum(i, Wrap(0 - j));
  }

  /** Infix operations that give an integer on all integers. */
  lemma Arithmetic(op: Infix, i: i64, j: i64)
    requires op in [Plus, Minus, Multiply]
    ensures EvalInfix(op, I(i), I(j)).Some? && EvalInfix(op, I(i), I(j)).value.Flat?
        && EvalInfix(op, I(i), I(j)).value.flat.Int?
  {}

  function Do(op: Infix, i: i64, j: i64): i64
    requires op in [Plus, Minus, Multiply]
  {
    Arithmetic(op, i, j);
    EvalInfix(op, I(i), I(j)).value.flat.i
  }

  /** Addition and multiplication make a commutative ring, overflow or not: it is
      the ring of the integers modulo 2^64. */
  lemma RingLaws(i: i64, j: i64, k: i64)
    ensures Do(Plus, i, j) == Do(Plus, j, i) && Do(Multiply, i, j) == Do(Multiply, j, i)
    ensures Do(Plus, i, 0) == i && Do(Multiply, i, 1) == i && Do(Minus, i, i) == 0
    ensures Do(Plus, Do(Plus, i, j), k) == Do(Plus, i, Do(Plus, j, k))
    ensures Do(Multiply, Do(Multiply, i, j), k) == Do(Multiply, i, Do(Multiply, j, k))
    ensures Do(Multiply, i, Do(Plus, j, k)) == Do(Plus, Do(Multiply, i, j), Do(Multiply, i, k))
  {
    Commutes(i, j);
    assert Do(Plus, i, 0) == Wrap(i + 0) && Do(Multiply, i, 1) == Wrap(i * 1) && Do(Minus, i, i) == Wrap(i - i);
    SumOfSums(i, j, k);
    ProductOfProducts(i, j, k);
    Distributes(i, j, k);
  }

  lemma Commutes(i: i64, j: i64)
    ensures Do(Plus, i, j) == Do(Plus, j, i) && Do(Multiply, i, j) == Do(Multiply, j, i)
  {
    assert i * j == j * i;
  }

  lemma SumOfSums(i: i64, j: i64, k: i64)
    ensures Do(Plus, Do(Plus, i, j), k) == Do(Plus, i, Do(Plus, j, k))
  {
    WrapSum(i + j, k);
    WrapSum(j + k, i);
    assert i + j + k == j + k + i;
  }

  lemma ProductOfProducts(i: i64, j: i64, k: i64)
    ensures Do(Multiply, Do(Multiply, i, j), k) == Do(Multiply, i, Do(Multiply, j, k))
  {
    WrapProduct(i * j, k);
    WrapProduct(j * k, i);
    Rotate(i, j, k);
  }

  lemma Rotate(i: int, j: int, k: int)
    ensures i * j * k == j * k * i
  {}

  lemma Distributes(i: i64, j: i64, k: i64)
    ensures Do(Multiply, i, Do(Plus, j, k)) == Do(Plus, Do(Multiply, i, j), Do(Multiply, i, k))
  {
    WrapProduct(j + k, i);
    WrapSum(i * j, Wrap(i * k));
    WrapSum(i * k, i * j);
    assert (j + k) * i == i * j + i * k;
  }

  /** Wrapping is modulo 2^64: it may be done once, at the end. */
  lemma WrapSame(x: int, y: int, q: int)
    requires x - y == q * (2 * TWO63)
    ensures Wrap(x) == Wrap(y)
  {
    ModSame(x + TWO63, y + TWO63, q, 2 * TWO63);
  }

  lemma ModSame(x: int, y: int, q: int, m: int)
    requires m > 0 && x - y == q * m
    ensures x % m == y % m
  {
    Multiple(x / m - y / m - q, m, y % m - x % m);
  }

  lemma Multiple(q: int, m: int, r: int)
    requires m > 0 && q * m == r && -m < r < m
    ensures r == 0
  {
    Grows(q, m);
  }

  lemma Grows(q: int, m: int)
    requires m > 0
    ensures (q > 0 ==> q * m >= m) && (q < 0 ==> q * m <= -m)
  {}

  /** How often wrapping takes 2^64 away. */
  lemma Turns(x: int) returns (q: int)
    ensures Wrap(x) == x - q * (2 * TWO63)
  {
    q := (x + TWO63) / (2 * TWO63);
  }

  lemma WrapSum(x: int, k: int)
    ensures Wrap(Wrap(x) + k) == Wrap(x + k)
  {
    var q := Turns(x);
    WrapSame(x + k, Wrap(x) + k, q);
  }

  lemma WrapProduct(x: int, k: int)
    ensures Wrap(Wrap(x) * k) == Wrap(k * Wrap(x)) == Wrap(x * k)
  {
    var q := Turns(x);
    Scaled(x, q, 2 * TWO63, k);
    WrapSame(x * k, Wrap(x) * k, q * k);
  }

  lemma Scaled(x: int, q: int, m: int, k: int)
    ensures x * k - (x - q * m) * k == (q * k) * m
  {}

  // ----- comparisons -----

  predicate Holds(op: Infix, l: Literal, m: Literal) { EvalInfix(op, l, m) == Some(BoolLit(true)) }

  const COMPARISONS := {Equal, NotEqual, LessThan, LessThanEqual, GreaterThan, GreaterThanEqual}

  /** All six comparisons are answers of one total order, in which every integer but
      the largest comes before the next one. */
  lemma TotalOrder(i: i64, j: i64, k: i64)
    ensures forall op :: op in COMPARISONS ==>
      EvalInfix(op, I(i), I(j)) == Some(BoolLit(Holds(op, I(i), I(j))))
    ensures Holds(Equal, I(i), I(j)) <==> i == j
    ensures Holds(LessThan, I(i), I(j)) <==> !Holds(Equal, I(i), I(j)) && !Holds(LessThan, I(j), I(i))
    ensures Holds(LessThan, I(i), I(j)) && Holds(LessThan, I(j), I(k)) ==> Holds(LessThan, I(i), I(k))
    ensures Holds(LessThanEqual, I(i), I(j)) <==> Holds(LessThan, I(i), I(j)) || Holds(Equal, I(i), I(j))
    ensures Holds(GreaterThan, I(i), I(j)) <==> Holds(LessThan, I(j), I(i))
    ensures Holds(GreaterThanEqual, I(i), I(j)) <==> Holds(LessThanEqual, I(j), I(i))
    ensures i + 1 < TWO63 ==> Holds(LessThan, I(i), I(i + 1)) && Do(Plus, i, 1) == i + 1
  {}

  /** Equality is that of literals and `!=` its negation, on all flat literals. */
  lemma EqualityLaws(x: Flat, y: Flat)
    ensures Holds(Equal, Flat(x), Flat(y)) <==> x == y
    ensures EvalInfix(NotEqual, Flat(x), Flat(y)) == Some(BoolLit(!Holds(Equal, Flat(x), Flat(y))))
    ensures EvalInfix(Equal, Flat(x), Flat(y)) == Some(BoolLit(Holds(Equal, Flat(x), Flat(y))))
  {}

  /** The bool operators on bools, and nothing but a type error on anything else. */
  lemma BoolLaws(a: bool, b: bool, l: Literal, m: Literal)
    ensures Holds(And, BoolLit(a), BoolLit(b)) <==> a && b
    ensures EvalInfix(And, BoolLit(!a), BoolLit(!b)).Some? && EvalInfix(Or, BoolLit(a), BoolLit(b)).Some?
    ensures Holds(Or, BoolLit(a), BoolLit(b)) <==> EvalInfix(And, BoolLit(!a), BoolLit(!b)) == Some(BoolLit(false))
    ensures EvalInfix(And, l, m).Some? <==> IsBool(l) && IsBool(m)
    ensures EvalInfix(Or, l, m).Some? <==> IsBool(l) && IsBool(m)
  {}

  // ----- strings and lists -----

  function S(s: string): Literal { Flat(Str(s)) }

  /** `++` puts one string after the other. */
  lemma AppendStrings(s: string, t: string)
    ensures var r := EvalInfix(ConcatStr, S(s), S(t));
      && r.Some? && r.value.Flat? && r.value.flat.Str?
      && |r.value.flat.s| == |s| + |t| && s <= r.value.flat.s && r.value.flat.s[|s|..] == t
  {}

  /** `@` puts one list after the other. */
  lemma AppendLists(a: seq<Literal>, b: seq<Literal>)
    ensures var r := EvalInfix(Concat, ListLit(a), ListLit(b));
      && r.Some? && r.value.ListLit?
      && |r.value.items| == |a| + |b| && a <= r.value.items && r.value.items[|a|..] == b
  {}

  /** `in` is membership: false on the empty list, equality on lists of one, and on
      two lists, one after the other, membership in either. */
  lemma InLaws(x: Literal, y: Literal, a: seq<Literal>, b: seq<Literal>)
    ensures EvalInfix(In, x, ListLit([])) == Some(BoolLit(false))
    ensures EvalInfix(In, x, ListLit([y])) == Some(BoolLit(x == y))
    ensures EvalInfix(Concat, ListLit(a), ListLit(b)).Some?
    ensures Holds(In, x, EvalInfix(Concat, ListLit(a), ListLit(b)).value) <==>
      Holds(In, x, ListLit(a)) || Holds(In, x, ListLit(b))
    ensures EvalInfix(In, x, ListLit(a)) == Some(BoolLit(Holds(In, x, ListLit(a))))
  {}

  /** `!` is the identity on bools and fails on everything else: it never negates. */
  lemma NotNeverNegates(l: Literal)
    ensures EvalPrefix(Not, l) == if IsBool(l) then Some(l) else None
    ensures IsBool(l) ==> EvalPrefix(Not, l) != Some(BoolLit(!l.flat.b))
  {}

  // ----- collecting -----

  predicate AllBool(ls: seq<Literal>) { forall i :: 0 <= i < |ls| ==> IsBool(ls[i]) }

  /** The element itself, if its test is true. */
  function One(x: Literal, test: Literal): seq<Literal> { if test == BoolLit(true) then [x] else [] }

  lemma KeptCons(x: Literal, lits: seq<Literal>, test: Literal, tests: seq<Literal>)
    requires IsBool(test) && Kept(lits, tests).Some?
    ensures Kept([x] + lits, [test] + tests) == Some(One(x, test) + Kept(lits, tests).value)
  {
    assert ([x] + lits)[1..] == lits && ([test] + tests)[1..] == tests;
    var rest := Kept(lits, tests).value;
    assert [] + rest == rest;
  }

  /** `filter` keeps the elements whose test is true, in their order. */
  lemma FilterAppends(a: seq<Literal>, b: seq<Literal>, s: seq<Literal>, t: seq<Literal>)
    requires |a| == |s| && |b| == |t| && AllBool(s) && AllBool(t)
    ensures Kept(a, s).Some? && Kept(b, t).Some? && Kept(a + b, s + t) == Some(Kept(a, s).value + Kept(b, t).value)
    decreases |a|
  {
    hide Kept;
    KeptSome(a, s);
    KeptSome(b, t);
    var l := Kept(b, t).value;
    if a == [] {
      KeptEmpty(s);
      assert a + b == b && s + t == t && [] + l == l;
    } else {
      KeptSome(a[1..], s[1..]);
      FilterAppends(a[1..], b, s[1..], t);
      FilterStep(a[0], a[1..], b, s[0], s[1..], t);
      assert [a[0]] + a[1..] == a && [s[0]] + s[1..] == s;
    }
  }

  lemma KeptEmpty(tests: seq<Literal>)
    ensures Kept([], tests) == Some([])
  {}

  lemma FilterStep(x: Literal, a: seq<Literal>, b: seq<Literal>, test: Literal, s: seq<Literal>, t: seq<Literal>)
    requires IsBool(test) && Kept(a, s).Some? && Kept(b, t).Some?
        && Kept(a + b, s + t) == Some(Kept(a, s).value + Kept(b, t).value)
    ensures Kept([x] + a, [test] + s).Some?
    ensures Kept([x] + a + b, [test] + s + t) == Some(Kept([x] + a, [test] + s).value + Kept(b, t).value)
  {
    hide Kept, One;
    KeptCons(x, a, test, s);
    KeptCons(x, a + b, test, s + t);
    Assoc([x], a, b);
    Assoc([test], s, t);
    Assoc(One(x, test), Kept(a, s).value, Kept(b, t).value);
  }

  lemma Assoc(x: seq<Literal>, y: seq<Literal>, z: seq<Literal>)
    ensures x + y + z == x + (y + z)
  {}

  lemma KeptSome(b: seq<Literal>, t: seq<Literal>)
    requires AllBool(t)
    ensures Kept(b, t).Some?
  {}

  /** On tests that are not all bools, `filter` panics. */
  lemma {:induction false} FilterPanics(lits: seq<Literal>, tests: seq<Literal>)
    requires |lits| == |tests|
    ensures Kept(lits, tests).Some? <==> AllBool(tests)
    decreases |lits|
  {
    if lits != [] { FilterPanics(lits[1..], tests[1..]); }
  }

  lemma FilterKeeps(lits: seq<Literal>, tests: seq<Literal>, x: Literal)
    requires |lits| == |tests| && AllBool(tests)
    ensures Kept(lits, tests).Some?
    ensures x in Kept(lits, tests).value <==> exists i :: 0 <= i < |lits| && lits[i] == x && tests[i] == BoolLit(true)
    decreases |lits|
  {}

  /** `filter_map` keeps what stands under a `Some`, in order, and drops every
      `None`; it looks at each result by itself. */
  lemma FilterMapLaws(x: Literal, a: seq<Literal>, b: seq<Literal>)
    ensures SomeItems([]) == [] && SomeItems([TupleLit([x])]) == [x] && SomeItems([TupleLit([])]) == []
    ensures SomeItems(a + b) == SomeItems(a) + SomeItems(b)
  {
    assert [TupleLit([x])][1..] == [] && [TupleLit([])][1..] == [];
    SomeAppends(a, b);
  }

  lemma SomeStep(x: Literal, a: seq<Literal>)
    ensures SomeItems([x] + a) == (if x.TupleLit? && |x.items| == 1 then x.items else []) + SomeItems(a)
  {
    assert ([x] + a)[1..] == a;
  }

  lemma NoItems()
    ensures SomeItems([]) == []
  {}

  lemma {:induction false} SomeAppends(a: seq<Literal>, b: seq<Literal>)
    ensures SomeItems(a + b) == SomeItems(a) + SomeItems(b)
  {
    hide SomeItems;
    NoItems();
    if a == [] {
      assert a + b == b;
    } else {
      SomeAppends(a[1..], b);
      SomeStep(a[0], a[1..]);
      SomeStep(a[0], a[1..] + b);
      assert [a[0]] + a[1..] == a && [a[0]] + (a[1..] + b) == a + b;
    }
  }

  /** `map` gives the results themselves and `foreach` forgets them. */
  lemma MapLaws(lits: seq<Literal>, rs: seq<Literal>)
    ensures Collect(Map, lits, rs) == Some(ListLit(rs)) && Collect(ForEach, lits, rs) == Some(Flat(Unit))
  {}

  /** `all` is true when all tests are, and false at the first false test, whatever
      comes after it; `any` is the dual; otherwise some test is no bool. */
  lemma AllAnyMean(lits: seq<Literal>, tests: seq<Literal>)
    ensures Collect(IterOp.All, lits, tests) == Some(BoolLit(true)) <==> AllAre(tests, true)
    ensures Collect(IterOp.All, lits, tests) == Some(BoolLit(false)) <==> FirstIs(tests, false)
    ensures Collect(IterOp.Any, lits, tests) == Some(BoolLit(true)) <==> FirstIs(tests, true)
    ensures Collect(IterOp.Any, lits, tests) == Some(BoolLit(false)) <==> AllAre(tests, false)
    ensures AllBool(tests) ==> Collect(IterOp.All, lits, tests).Some? && Collect(IterOp.Any, lits, tests).Some?
  {
    AllAnyTrue(tests);
  }

  predicate AllAre(tests: seq<Literal>, b: bool) { forall i :: 0 <= i < |tests| ==> tests[i] == BoolLit(b) }

  /** There is such a test, and all before it are the opposite. */
  predicate FirstIs(tests: seq<Literal>, b: bool) {
    exists i :: 0 <= i < |tests| && tests[i] == BoolLit(b) && AllAre(tests[..i], !b)
  }

  lemma FirstIsStep(tests: seq<Literal>, b: bool)
    requires tests != []
    ensures FirstIs(tests, b) <==> tests[0] == BoolLit(b) || (tests[0] == BoolLit(!b) && FirstIs(tests[1..], b))
    ensures AllAre(tests, b) <==> tests[0] == BoolLit(b) && AllAre(tests[1..], b)
  {
    if FirstIs(tests, b) {
      var i :| 0 <= i < |tests| && tests[i] == BoolLit(b) && AllAre(tests[..i], !b);
      if i > 0 {
        assert tests[..i][0] == tests[0] && tests[..i][1..] == tests[1..][..i - 1];
        assert tests[1..][i - 1] == BoolLit(b) && AllAre(tests[1..][..i - 1], !b);
      }
    }
    if tests[0] == BoolLit(b) {
      assert AllAre(tests[..0], !b);
    } else if tests[0] == BoolLit(!b) && FirstIs(tests[1..], b) {
      var i :| 0 <= i < |tests| - 1 && tests[1..][i] == BoolLit(b) && AllAre(tests[1..][..i], !b);
      assert forall k :: 0 < k <= i ==> tests[k] == tests[1..][..i][k - 1];
      assert tests[i + 1] == BoolLit(b) && AllAre(tests[..i + 1], !b);
    }
    if tests[0] == BoolLit(b) && AllAre(tests[1..], b) {
      assert forall k :: 0 < k < |tests| ==> tests[k] == tests[1..][k - 1];
    }
  }

  lemma {:induction false} AllAnyTrue(tests: seq<Literal>)
    ensures AllTrue(tests) == Some(true) <==> AllAre(tests, true)
    ensures AllTrue(tests) == Some(false) <==> FirstIs(tests, false)
    ensures AnyTrue(tests) == Some(true) <==> FirstIs(tests, true)
    ensures AnyTrue(tests) == Some(false) <==> AllAre(tests, false)
    ensures AllBool(tests) ==> AllTrue(tests).Some? && AnyTrue(tests).Some?
  {
    hide FirstIs, AllAre;
    if tests != [] {
      AllAnyTrue(tests[1..]);
      FirstIsStep(tests, true);
      FirstIsStep(tests, false);
    } else {
      NoTests();
    }
  }

  lemma NoTests()
    ensures AllAre([], true) && AllAre([], false) && !FirstIs([], true) && !FirstIs([], false)
  {}
}
