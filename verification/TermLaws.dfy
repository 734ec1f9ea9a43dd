/** Laws of the index operations. */
module TermLaws {
  import opened Prelude
  import opened Syntax
  import opened Terms

  // ----- closed terms -----

  lemma {:induction false} ClosedMono(e: Expr, n: nat, m: nat)
    requires Closed(e, n) && n <= m
    ensures Closed(e, m)
  {
    match e
    case Closure(_, b) => ClosedMono(b, n + 1, m + 1);
    case Node(_, es) => ClosedMonoList(es, n, m);
    case _ =>
  }

  lemma {:induction false} ClosedMonoList(es: List<Expr>, n: nat, m: nat)
    requires ClosedList(es, n) && n <= m
    ensures ClosedList(es, m)
  {
    if es.Cons? { ClosedMono(es.head, n, m); ClosedMonoList(es.tail, n, m); }
  }

  /** Shifting is the identity on locally closed terms. */
  lemma {:induction false} ShiftClosed(e: Expr, i: nat, d: nat)
    requires Closed(e, d)
    ensures Shift(e, i, d) == e
  {
    match e
    case Closure(_, b) => ShiftClosed(b, i, d + 1);
    case Node(_, es) => ShiftClosedList(es, i, d);
    case _ =>
  }

  lemma {:induction false} ShiftClosedList(es: List<Expr>, i: nat, d: nat)
    requires ClosedList(es, d)
    ensures ShiftList(es, i, d) == es
  {
    if es.Cons? { ShiftClosed(es.head, i, d); ShiftClosedList(es.tail, i, d); }
  }

  lemma {:induction false} SubstClosed(e: Expr, i: nat, u: Expr, down: bool)
    requires Closed(e, i)
    ensures Subst(e, i, u, down) == e
  {
    match e
    case Closure(_, b) => SubstClosed(b, i + 1, u, down);
    case Node(_, es) => SubstClosedList(es, i, u, down);
    case _ =>
  }

  lemma {:induction false} SubstClosedList(es: List<Expr>, i: nat, u: Expr, down: bool)
    requires ClosedList(es, i)
    ensures SubstList(es, i, u, down) == es
  {
    if es.Cons? { SubstClosed(es.head, i, u, down); SubstClosedList(es.tail, i, u, down); }
  }

  lemma {:induction false} InstClosed(e: Expr, d: nat, s: seq<Expr>)
    requires Closed(e, d)
    ensures Inst(e, d, s) == e
  {
    match e
    case Closure(_, b) => InstClosed(b, d + 1, s);
    case Node(_, es) => InstClosedList(es, d, s);
    case _ =>
  }

  lemma {:induction false} InstClosedList(es: List<Expr>, d: nat, s: seq<Expr>)
    requires ClosedList(es, d)
    ensures InstList(es, d, s) == es
  {
    if es.Cons? { InstClosed(es.head, d, s); InstClosedList(es.tail, d, s); }
  }

  lemma {:induction false} ClosedInst(e: Expr, d: nat, s: seq<Expr>)
    requires AllClosed(s)
    ensures Closed(Inst(e, d, s), d)
  {
    match e
    case BVar(_, j) => if d <= j < d + |s| { ClosedMono(s[j - d], 0, d); }
    case Closure(_, b) => ClosedInst(b, d + 1, s);
    case Node(_, es) => ClosedInstList(es, d, s);
    case _ =>
  }

  lemma {:induction false} ClosedInstList(es: List<Expr>, d: nat, s: seq<Expr>)
    requires AllClosed(s)
    ensures ClosedList(InstList(es, d, s), d)
  {
    if es.Cons? { ClosedInst(es.head, d, s); ClosedInstList(es.tail, d, s); }
  }

  lemma {:induction false} ClosedSubst(e: Expr, n: nat, i: nat, u: Expr)
    requires Closed(e, n + 1) && i <= n && Closed(u, 0)
    ensures Closed(Subst(e, i, u, true), n)
  {
    match e
    case BVar(_, j) => if j == i { ShiftClosed(u, i, 0); ClosedMono(u, 0, n); }
    case Closure(_, b) => ClosedSubst(b, n + 1, i + 1, u);
    case Node(_, es) => ClosedSubstList(es, n, i, u);
    case _ =>
  }

  lemma {:induction false} ClosedSubstList(es: List<Expr>, n: nat, i: nat, u: Expr)
    requires ClosedList(es, n + 1) && i <= n && Closed(u, 0)
    ensures ClosedList(SubstList(es, i, u, true), n)
  {
    if es.Cons? { ClosedSubst(es.head, n, i, u); ClosedSubstList(es.tail, n, i, u); }
  }

  // ----- substitution against simultaneous instantiation -----

  /** When index `i` does not occur, what is substituted for it is irrelevant. */
  lemma {:induction false} SubstFree(e: Expr, i: nat, u: Expr, w: Expr)
    requires IsFree(e, i)
    ensures Subst(e, i, u, true) == Subst(e, i, w, true)
  {
    match e
    case Closure(_, b) => SubstFree(b, i + 1, u, w);
    case Node(_, es) => SubstFreeList(es, i, u, w);
    case _ =>
  }

  lemma {:induction false} SubstFreeList(es: List<Expr>, i: nat, u: Expr, w: Expr)
    requires IsFreeList(es, i)
    ensures SubstList(es, i, u, true) == SubstList(es, i, w, true)
  {
    if es.Cons? { SubstFree(es.head, i, u, w); SubstFreeList(es.tail, i, u, w); }
  }

  /** Applying an opened closure to a closed expression opens one index more. */
  lemma {:induction false} SubstInst(e: Expr, d: nat, u: Expr, s: seq<Expr>)
    requires AllClosed(s) && Closed(u, 0)
    ensures Subst(Inst(e, d + 1, s), d, u, true) == Inst(e, d, [u] + s)
  {
    match e
    case BVar(_, j) => 
      ShiftClosed(u, d, 0);
      if d < j <= d + |s| {
        ClosedMono(s[j - d - 1], 0, d);
        SubstClosed(s[j - d - 1], d, u, true);
      }
    case Closure(_, b) => SubstInst(b, d + 1, u, s);
    case Node(_, es) => SubstInstList(es, d, u, s);
    case _ =>
  }

  lemma {:induction false} SubstInstList(es: List<Expr>, d: nat, u: Expr, s: seq<Expr>)
    requires AllClosed(s) && Closed(u, 0)
    ensures SubstList(InstList(es, d + 1, s), d, u, true) == InstList(es, d, [u] + s)
  {
    if es.Cons? { SubstInst(es.head, d, u, s); SubstInstList(es.tail, d, u, s); }
  }

  /** Opening a term shifted by one, one level deeper, gives the same closed term. */
  lemma {:induction false} InstShift(e: Expr, d: nat, s: seq<Expr>)
    requires AllClosed(s)
    ensures Inst(Shift(e, 1, d), d + 1, s) == Inst(e, d, s)
  {
    match e
    case Closure(_, b) => InstShift(b, d + 1, s);
    case Node(_, es) => InstShiftList(es, d, s);
    case _ =>
  }

  lemma {:induction false} InstShiftList(es: List<Expr>, d: nat, s: seq<Expr>)
    requires AllClosed(s)
    ensures InstList(ShiftList(es, 1, d), d + 1, s) == InstList(es, d, s)
  {
    if es.Cons? { InstShift(es.head, d, s); InstShiftList(es.tail, d, s); }
  }

  lemma InstSubstHit(d: nat, u: Expr, s: seq<Expr>)
    requires AllClosed(s)
    requires Closed(u, 0) || d < 2
    ensures Inst(Shift(u, d, 0), d, s) == Inst(u, 0, s)
  {
    if Closed(u, 0) {
      ShiftClosed(u, d, 0);
      ClosedMono(u, 0, d);
      InstClosed(u, d, s);
      InstClosed(u, 0, s);
    } else if d == 1 {
      InstShift(u, 0, s);
    }
  }


  /** Substituting an open argument is simultaneous substitution, provided the
      argument is closed or the variable is not below two or more binders:
      `Shift` only ever adds 1. */
  lemma {:induction false} InstSubst(e: Expr, d: nat, u: Expr, s: seq<Expr>)
    requires AllClosed(s)
    requires Closed(u, 0) || Shallow(e, d)
    ensures Inst(Subst(e, d, u, true), d, s) == Inst(e, d, [Inst(u, 0, s)] + s)
  {
    match e
    case BVar(_, j) => if j == d { InstSubstHit(d, u, s); }
    case Closure(_, b) => InstSubst(b, d + 1, u, s);
    case Node(_, es) => InstSubstList(es, d, u, s);
    case _ =>
  }

  lemma {:induction false} InstSubstList(es: List<Expr>, d: nat, u: Expr, s: seq<Expr>)
    requires AllClosed(s)
    requires Closed(u, 0) || ShallowList(es, d)
    ensures InstList(SubstList(es, d, u, true), d, s) == InstList(es, d, [Inst(u, 0, s)] + s)
  {
    if es.Cons? { InstSubst(es.head, d, u, s); InstSubstList(es.tail, d, u, s); }
  }

  lemma ValueClosed(u: Expr)
    requires IsValue(u)
    ensures Closed(u, 0)
  {}

  lemma ValueSize(u: Expr)
    requires IsValue(u)
    ensures Size(u) == 1
  {}

  /** Applying to a value never makes a term larger. */
  lemma {:induction false} SizeSubst(e: Expr, i: nat, u: Expr, down: bool)
    requires IsValue(u)
    ensures Size(Subst(e, i, u, down)) <= Size(e)
  {
    match e
    case BVar(_, j) => if j == i { ValueClosed(u); ShiftClosed(u, i, 0); ValueSize(u); }
    case Closure(_, b) => SizeSubst(b, i + 1, u, down);
    case Node(_, es) =>
      SizeSubstList(es, i, u, down);
      if IsValue(e) { ValueClosed(e); ClosedMono(e, 0, i); SubstClosed(e, i, u, down); }
    case _ =>
  }

  lemma {:induction false} SizeSubstList(es: List<Expr>, i: nat, u: Expr, down: bool)
    requires IsValue(u)
    ensures SizeList(SubstList(es, i, u, down)) <= SizeList(es)
  {
    if es.Cons? { SizeSubst(es.head, i, u, down); SizeSubstList(es.tail, i, u, down); }
  }

}
