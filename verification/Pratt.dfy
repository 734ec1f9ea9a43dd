/** The operator-precedence parser against the pretty printer's bracketing rule
    (src/armour-lang/src/parser.rs:597-615, 1020-1056, 1300-1360,
    src/armour-lang/src/pretty.rs:117-182, 410-434). */
module Pratt {
  import opened Prelude
  import opened Syntax

  /** The infix operators an expression can have: `::` and `.` make names,
      methods and float literals. */
  type Operator = op: Infix | op != Module && op != Dot witness Equal

  datatype Tree = Atom(text: string) | Binary(op: Operator, left: Tree, right: Tree)

  datatype Token = Name(text: string) | Op(op: Operator) | LParen | RParen | End

  datatype Assoc = Left | Right

  const LOWEST: nat := 0
  const SUM: nat := 6
  const DOT: nat := 8
  const CALL: nat := 9

  /** The parser's table. */
  function InfixOp(op: Operator): (nat, Assoc) {
    match op
    case Equal => (3, Right) case NotEqual => (3, Right)
    case LessThanEqual => (4, Right) case GreaterThanEqual => (4, Right)
    case LessThan => (4, Right) case GreaterThan => (4, Right)
    case Or => (1, Right)
    case And => (2, Right)
    case Plus => (SUM, Left) case Minus => (SUM, Left)
    case Concat => (SUM, Right) case ConcatStr => (SUM, Right)
    case Multiply => (7, Left) case Divide => (7, Left) case Remainder => (7, Left)
    case In => (5, Left)
  }

  /** The printer's table. */
  function InfixPrecedence(op: Operator): (nat, Assoc) {
    match op
    case Equal => (3, Right)
    case NotEqual => (3, Right)
    case Plus => (SUM, Left)
    case Minus => (SUM, Left)
    case Divide => (7, Left)
    case Multiply => (7, Left)
    case Remainder => (7, Left)
    case GreaterThanEqual => (4, Right)
    case LessThanEqual => (4, Right)
    case GreaterThan => (4, Right)
    case LessThan => (4, Right)
    case And => (2, Right)
    case Or => (1, Right)
    case Concat => (SUM, Right)
    case ConcatStr => (SUM, Right)
    case In => (5, Left)
  }

  function Level(op: Operator): nat { InfixOp(op).0 }

  function AssocOf(op: Operator): Assoc { InfixOp(op).1 }

  // ----- the parser -----

  /** The operator may continue an expression parsed at this level. */
  predicate Allowed(op: Operator, level: nat) {
    if AssocOf(op) == Right then level <= Level(op) else level < Level(op)
  }

  /** A name, or an expression in brackets. */
  function ParseAtom(ts: seq<Token>): (r: Option<(Tree, seq<Token>)>)
    ensures r.Some? ==> |r.value.1| < |ts|
    decreases |ts|, 0
  {
    if ts == [] then None
    else if ts[0].Name? then Some((Atom(ts[0].text), ts[1..]))
    else if ts[0].LParen? then
      match ParsePratt(ts[1..], LOWEST)
      case Some((t, rest)) => if rest != [] && rest[0].RParen? then Some((t, rest[1..])) else None
      case None => None
    else None
  }

  function ParsePratt(ts: seq<Token>, level: nat): (r: Option<(Tree, seq<Token>)>)
    ensures r.Some? ==> |r.value.1| < |ts|
    decreases |ts|, 1
  {
    match ParseAtom(ts)
    case Some((t, rest)) => GoPratt(rest, level, t)
    case None => None
  }

  /** Extends `left` while the next operator binds at this level. */
  function GoPratt(ts: seq<Token>, level: nat, left: Tree): (r: Option<(Tree, seq<Token>)>)
    ensures r.Some? ==> |r.value.1| <= |ts|
    decreases |ts|, 2
  {
    if ts == [] then None
    else if ts[0].LParen? && level < CALL then None
    else if ts[0].Op? && Allowed(ts[0].op, level) then
      match ParsePratt(ts[1..], Level(ts[0].op))
      case Some((right, rest)) => GoPratt(rest, level, Binary(ts[0].op, left, right))
      case None => None
    else Some((left, ts))
  }

  function ParseEof(ts: seq<Token>): Option<Tree> {
    match ParsePratt(ts, LOWEST)
    case Some((t, rest)) => if rest == [End] then Some(t) else None
    case None => None
  }

  // ----- the printer -----

  function Precedence(t: Tree): (nat, Assoc) {
    if t.Binary? then InfixPrecedence(t.op) else (DOT, Left)
  }

  function Bracket(ts: seq<Token>): seq<Token> { [LParen] + ts + [RParen] }

  /** An operand is bracketed when it binds weaker, or equally and would associate
      the other way. */
  predicate Bracketed(op: Operator, child: Tree, side: Assoc) {
    var own := InfixPrecedence(op);
    Precedence(child).0 < own.0 || (Precedence(child) == own && own.1 != side)
  }

  function PrintSide(op: Operator, child: Tree, side: Assoc): seq<Token>
    decreases child, 1
  {
    if Bracketed(op, child, side) then Bracket(Print(child)) else Print(child)
  }

  function Print(t: Tree): seq<Token>
    decreases t, 0
  {
    match t
    case Atom(x) => [Name(x)]
    case Binary(op, l, r) => PrintSide(op, l, Left) + [Op(op)] + PrintSide(op, r, Right)
  }

  // ----- where printing loses a bracket -----

  /** A right-associative operator over a left-associative one of its own level:
      no bracket is printed, but one is needed. */
  predicate Clash(op: Operator, child: Tree) {
    child.Binary? && AssocOf(op) == Right && AssocOf(child.op) == Left && Level(child.op) == Level(op)
  }

  lemma ClashExactly(op: Operator, child: Tree)
    ensures Clash(op, child) <==> child.Binary? && op in {Concat, ConcatStr} && child.op in {Plus, Minus}
  {}

  function Clashes(t: Tree): nat {
    match t
    case Atom(_) => 0
    case Binary(op, l, r) => Clashes(l) + Clashes(r) + (if Clash(op, l) then 1 else 0) + (if Clash(op, r) then 1 else 0)
  }

  /** What follows does not continue an expression parsed at this level. */
  predicate Stops(ts: seq<Token>, level: nat) {
    ts != [] && (ts[0].LParen? ==> level >= CALL) && (ts[0].Op? ==> !Allowed(ts[0].op, level))
  }

  // ----- without clashes the parser undoes the printer -----

  lemma {:induction false} PrintParses(t: Tree, level: nat, rest: seq<Token>)
    requires Clashes(t) == 0 && (t.Binary? ==> Allowed(t.op, level) && Stops(rest, Level(t.op)))
    ensures ParsePratt(Print(t) + rest, level) == GoPratt(rest, level, t)
    decreases t, 0
  {
    match t
    case Atom(x) => assert ([Name(x)] + rest)[1..] == rest;
    case Binary(op, l, r) =>
      var after := PrintSide(op, r, Right) + rest;
      var ts := [Op(op)] + after;
      assert Print(t) + rest == PrintSide(op, l, Left) + ts;
      SideParses(op, l, Left, level, ts);
      assert ts[1..] == after;
      SideParses(op, r, Right, Level(op), rest);
  }

  lemma {:induction false} SideParses(op: Operator, c: Tree, side: Assoc, level: nat, rest: seq<Token>)
    requires Clashes(c) == 0 && !Clash(op, c)
    requires side == Left ==> Allowed(op, level) && rest != [] && rest[0] == Op(op)
    requires side == Right ==> level == Level(op) && Stops(rest, Level(op))
    ensures ParsePratt(PrintSide(op, c, side) + rest, level) == GoPratt(rest, level, c)
    decreases c, 2
  {
    if Bracketed(op, c, side) {
      BracketParses(c, level, rest);
    } else {
      PrintParses(c, level, rest);
    }
  }

  lemma {:induction false} BracketParses(c: Tree, level: nat, rest: seq<Token>)
    requires Clashes(c) == 0
    ensures ParsePratt(Bracket(Print(c)) + rest, level) == GoPratt(rest, level, c)
    decreases c, 1
  {
    var ts, close := Bracket(Print(c)) + rest, [RParen] + rest;
    assert ts[1..] == Print(c) + close;
    PrintParses(c, LOWEST, close);
    assert GoPratt(close, LOWEST, c) == Some((c, close));
    assert close[1..] == rest;
    assert ParseAtom(ts) == Some((c, rest));
  }

  // ----- with a clash it does not -----

  /** The tokens printing should have used: two more for each missing bracket. */
  function Cost(t: Tree): nat { |Print(t)| + 2 * Clashes(t) }

  /** `used` tokens were read for `t`: enough for `t` in brackets, or enough for
      `t` and what follows does not continue its last operand. */
  predicate Paid(t: Tree, used: int, level: nat, rest: seq<Token>) {
    used >= Cost(t) + 2 || (used >= Cost(t) && (t.Binary? ==> Allowed(t.op, level) && Stops(rest, Level(t.op))))
  }

  lemma JoinPaid(op: Operator, l: Tree, r: Tree, usedL: int, usedR: int, level: nat, rest: seq<Token>, ts: seq<Token>)
    requires ts != [] && ts[0] == Op(op) && Allowed(op, level)
    requires Paid(l, usedL, level, ts) && Paid(r, usedR, Level(op), rest) && Stops(rest, Level(op))
    ensures Paid(Binary(op, l, r), usedL + 1 + usedR, level, rest)
  {
    SidePaid(op, l, Left, usedL, level, ts);
    SidePaid(op, r, Right, usedR, Level(op), rest);
  }

  /** Either brackets were read where brackets are printed or missing, or neither. */
  lemma SidePaid(op: Operator, c: Tree, side: Assoc, used: int, level: nat, rest: seq<Token>)
    requires Paid(c, used, level, rest)
    requires side == Left ==> Allowed(op, level) && rest != [] && rest[0] == Op(op)
    requires side == Right ==> level == Level(op)
    ensures used >= |PrintSide(op, c, side)| + 2 * Clashes(c) + if Clash(op, c) then 2 else 0
  {}

  lemma {:induction false} AtomPaid(ts: seq<Token>, level: nat)
    ensures var r := ParseAtom(ts); r.Some? && r.value.1 != [] ==> Paid(r.value.0, |ts| - |r.value.1|, level, r.value.1)
    decreases |ts|, 0
  {
    if ts != [] && ts[0].LParen? { PrattPaid(ts[1..], LOWEST); }
  }

  lemma {:induction false} PrattPaid(ts: seq<Token>, level: nat)
    ensures var r := ParsePratt(ts, level);
      r.Some? ==> Paid(r.value.0, |ts| - |r.value.1|, level, r.value.1) && Stops(r.value.1, level)
    decreases |ts|, 1
  {
    var a := ParseAtom(ts);
    if a.Some? && a.value.1 != [] {
      AtomPaid(ts, level);
      GoPaid(a.value.1, level, a.value.0, |ts| - |a.value.1|);
    }
  }

  lemma {:induction false} GoPaid(ts: seq<Token>, level: nat, left: Tree, used: int)
    requires Paid(left, used, level, ts)
    ensures var r := GoPratt(ts, level, left);
      r.Some? ==> Paid(r.value.0, used + |ts| - |r.value.1|, level, r.value.1) && Stops(r.value.1, level)
    decreases |ts|, 2
  {
    if ts != [] && !(ts[0].LParen? && level < CALL) && ts[0].Op? && Allowed(ts[0].op, level) {
      var op := ts[0].op;
      var p := ParsePratt(ts[1..], Level(op));
      if p.Some? {
        var (r, rest) := p.value;
        PrattPaid(ts[1..], Level(op));
        JoinPaid(op, left, r, used, |ts| - 1 - |rest|, level, rest, ts);
        GoPaid(rest, level, Binary(op, left, r), used + |ts| - |rest|);
      }
    }
  }

  // ----- which operators bind tighter -----

  /** From the weakest to the tightest. */
  const PRECEDENCE: seq<set<Infix>> := [
    {Or}, {And}, {Equal, NotEqual}, {LessThan, LessThanEqual, GreaterThan, GreaterThanEqual}, {In},
    {Plus, Minus, Concat, ConcatStr}, {Multiply, Divide, Remainder}]

  /** These group to the left, all others to the right. */
  const TO_THE_LEFT: set<Infix> := {In, Plus, Minus, Multiply, Divide, Remainder}

  /** `p` comes after `q` in the list, or at the same place. */
  predicate After<T(==)>(levels: seq<set<T>>, p: T, q: T) {
    exists i, j :: 0 <= i < j < |levels| && q in levels[i] && p in levels[j]
  }

  predicate Beside<T(==)>(levels: seq<set<T>>, p: T, q: T) {
    exists i :: 0 <= i < |levels| && q in levels[i] && p in levels[i]
  }

  predicate Tighter(p: Operator, q: Operator) { After(PRECEDENCE, p, q) }

  predicate AsTight(p: Operator, q: Operator) { Beside(PRECEDENCE, p, q) }

  lemma Ranked(op: Operator, i: nat)
    requires i < |PRECEDENCE|
    ensures op in PRECEDENCE[i] <==> i + 1 == Level(op)
    ensures op in TO_THE_LEFT <==> AssocOf(op) == Left
  {}

  predicate OnlyAt<T(==)>(levels: seq<set<T>>, p: T, i: int) {
    forall k :: 0 <= k < |levels| ==> (p in levels[k] <==> k == i)
  }

  lemma OnePlace<T>(levels: seq<set<T>>, p: T, j: int, q: T, i: int)
    requires 0 <= i < |levels| && 0 <= j < |levels| && OnlyAt(levels, p, j) && OnlyAt(levels, q, i)
    ensures (After(levels, p, q) <==> i < j) && (Beside(levels, p, q) <==> i == j)
  {
    assert q in levels[i] && p in levels[j];
  }

  lemma LevelsRank(p: Operator, q: Operator)
    ensures Tighter(p, q) <==> Level(p) > Level(q)
    ensures AsTight(p, q) <==> Level(p) == Level(q)
  {
    hide After, Beside;
    var i, j := Level(q) - 1, Level(p) - 1;
    assert OnlyAt(PRECEDENCE, p, j) && OnlyAt(PRECEDENCE, q, i) by {
      forall k: int | 0 <= k < |PRECEDENCE|
        ensures (p in PRECEDENCE[k] <==> k == j) && (q in PRECEDENCE[k] <==> k == i)
      {
        Ranked(p, k);
        Ranked(q, k);
      }
    }
    OnePlace(PRECEDENCE, p, j, q, i);
  }

  /** `a p b q c` is `a p (b q c)` if q binds tighter than p, or as tight and groups
      to the right; otherwise it is `(a p b) q c`. */
  lemma Groups(p: Operator, q: Operator, a: string, b: string, c: string)
    ensures ParseEof([Name(a), Op(p), Name(b), Op(q), Name(c), End])
         == Some(if Tighter(q, p) || (AsTight(q, p) && q !in TO_THE_LEFT)
                 then Binary(p, Atom(a), Binary(q, Atom(b), Atom(c)))
                 else Binary(q, Binary(p, Atom(a), Atom(b)), Atom(c)))
  {
    LevelsRank(q, p);
    Ranked(q, 0);
    var x, y, z := Atom(a), Atom(b), Atom(c);
    var end := [End];
    var after := [Op(q)] + ([Name(c)] + end);
    var more := [Op(p)] + ([Name(b)] + after);
    assert [Name(a), Op(p), Name(b), Op(q), Name(c), End] == [Name(a)] + more;
    hide ParsePratt, GoPratt, Tighter, AsTight;
    Operand(a, more, LOWEST);
    if Allowed(q, Level(p)) {
      GroupsRight(p, q, x, b, c);
      Ends(LOWEST, Binary(p, x, Binary(q, y, z)));
    } else {
      GroupsLeft(p, q, x, b, c);
      Ends(LOWEST, Binary(q, Binary(p, x, y), z));
    }
  }

  lemma GroupsRight(p: Operator, q: Operator, x: Tree, b: string, c: string)
    requires Allowed(p, LOWEST) && Allowed(q, Level(p))
    ensures GoPratt([Op(p)] + ([Name(b)] + ([Op(q)] + ([Name(c)] + [End]))), LOWEST, x)
         == GoPratt([End], LOWEST, Binary(p, x, Binary(q, Atom(b), Atom(c))))
  {
    hide ParsePratt, GoPratt, Allowed;
    var end, y, z := [End], Atom(b), Atom(c);
    var after := [Op(q)] + ([Name(c)] + end);
    Operand(b, after, Level(p));
    Operand(c, end, Level(q));
    Ends(Level(q), z);
    Ends(Level(p), Binary(q, y, z));
    Continues(q, [Name(c)] + end, Level(p), y, z, end);
    Continues(p, [Name(b)] + after, LOWEST, x, Binary(q, y, z), end);
  }

  lemma GroupsLeft(p: Operator, q: Operator, x: Tree, b: string, c: string)
    requires Allowed(p, LOWEST) && Allowed(q, LOWEST) && !Allowed(q, Level(p))
    ensures GoPratt([Op(p)] + ([Name(b)] + ([Op(q)] + ([Name(c)] + [End]))), LOWEST, x)
         == GoPratt([End], LOWEST, Binary(q, Binary(p, x, Atom(b)), Atom(c)))
  {
    hide ParsePratt, GoPratt, Allowed;
    var end, y, z := [End], Atom(b), Atom(c);
    var after := [Op(q)] + ([Name(c)] + end);
    Operand(b, after, Level(p));
    Operand(c, end, Level(q));
    Ends(Level(q), z);
    StopsHere(q, [Name(c)] + end, Level(p), y);
    Continues(p, [Name(b)] + after, LOWEST, x, y, after);
    Continues(q, [Name(c)] + end, LOWEST, Binary(p, x, y), z, end);
  }

  lemma Continues(op: Operator, ts: seq<Token>, level: nat, left: Tree, right: Tree, rest: seq<Token>)
    requires Allowed(op, level) && ParsePratt(ts, Level(op)) == Some((right, rest)) && |rest| < |ts|
    ensures GoPratt([Op(op)] + ts, level, left) == GoPratt(rest, level, Binary(op, left, right))
  {
    hide ParsePratt, Allowed;
    assert ([Op(op)] + ts)[1..] == ts;
  }

  lemma StopsHere(op: Operator, ts: seq<Token>, level: nat, left: Tree)
    requires !Allowed(op, level)
    ensures GoPratt([Op(op)] + ts, level, left) == Some((left, [Op(op)] + ts))
  {}

  lemma Ends(level: nat, t: Tree)
    ensures GoPratt([End], level, t) == Some((t, [End]))
  {}

  lemma Operand(x: string, rest: seq<Token>, level: nat)
    ensures ParsePratt([Name(x)] + rest, level) == GoPratt(rest, level, Atom(x))
  {
    assert ([Name(x)] + rest)[1..] == rest;
  }

  /** Parsing the printed text gives the tree back, with nothing left over, exactly
      when no `++` or `@` has a sum or a difference as an operand. */
  lemma RoundTripExactly(t: Tree)
    ensures ParseEof(Print(t) + [End]) == Some(t) <==> Clashes(t) == 0
  {
    var ts := Print(t) + [End];
    if Clashes(t) == 0 {
      PrintParses(t, LOWEST, [End]);
    }
    if ParseEof(ts) == Some(t) {
      PrattPaid(ts, LOWEST);
    }
  }
}
