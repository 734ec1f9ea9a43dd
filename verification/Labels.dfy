/** Label patterns (src/armour-lang/src/labels.rs:37-43, 92-161, 237-332). */
module Labels {
  import opened Prelude

  /** The empty name is the anonymous wildcard: `*` or `**`. */
  datatype LabelNode = Any(name: string) | RecAny(name: string) | Str(text: string)

  type Label = seq<LabelNode>

  datatype NodeMatch = Mismatch | Match | Bind(name: string) | BindRec(name: string)

  function MatchNode(p: LabelNode, n: LabelNode): NodeMatch {
    match p
    case Str(x) => if n == Str(x) then Match else Mismatch
    case Any(x) => if x != "" then Bind(x) else Match
    case RecAny(x) => if x != "" then BindRec(x) else Match
  }

  predicate EndsRec(p: Label) { p != [] && p[|p| - 1].RecAny? }

  /** A final `**` or `<<x>>` is repeated up to the length of the label. */
  function Extended(p: Label, n: nat): (r: Label)
    ensures |r| == if EndsRec(p) && |p| < n then n else |p|
  {
    if EndsRec(p) && |p| < n then p + seq(n - |p|, _ => p[|p| - 1]) else p
  }

  /** Every capture has at most `i` nodes. */
  predicate Short(m: map<string, Label>, i: nat) { forall x :: x in m ==> 0 < |m[x]| <= i }

  // ----- the source's matcher, as a function -----

  function MatchWith(p: Label, l: Label): (r: Option<map<string, Label>>)
    decreases |l|, 1, 0
  {
    if |Extended(p, |l|)| != |l| then None else MatchFrom(Extended(p, |l|), l, 0, map[])
  }

  /** The captures after position `i` on, `m` being those before it. */
  function MatchFrom(p: Label, l: Label, i: nat, m: map<string, Label>): (r: Option<map<string, Label>>)
    requires i <= |l| == |p| && Short(m, i)
    decreases |l|, 0, |l| - i
  {
    if i == |l| then Some(m)
    else match Capture(p[i], l[i], m, i, |l|)
      case None => None
      case Some(m') => MatchFrom(p, l, i + 1, m')
  }

  /** One step: a repeated `<x>` must capture an equal label again and replaces
      the old one, a repeated `<<x>>` appends. */
  function Capture(p: LabelNode, n: LabelNode, m: map<string, Label>, i: nat, size: nat)
    : (r: Option<map<string, Label>>)
    requires i < size && Short(m, i)
    ensures r.Some? ==> Short(r.value, i + 1)
    decreases size, 0, 0
  {
    match MatchNode(p, n)
    case Mismatch => None
    case Match => Some(m)
    case Bind(x) => if x in m && !Equal(m[x], [n]) then None else Some(m[x := [n]])
    case BindRec(x) => Some(m[x := if x in m then m[x] + [n] else [n]])
  }

  predicate Matches(p: Label, l: Label)
    decreases |l|, 2
  {
    MatchWith(p, l).Some?
  }

  /** Label equality: each label matches the other. */
  predicate Equal(a: Label, b: Label)
    decreases if |a| < |b| then |b| else |a|, 3
  {
    Matches(a, b) && Matches(b, a)
  }

  // ----- the source's loop -----

  /** The imperative matcher: extend the pattern, then fold over both labels,
      leaving at the first mismatch. */
  method MatchWithLoop(p: Label, l: Label) returns (r: Option<map<string, Label>>)
    ensures r == MatchWith(p, l)
  {
    var pattern := p;
    if EndsRec(p) {
      var k := |p|;
      while k < |l|
        invariant pattern == Extended(p, if k <= |l| then k else |p|) && (k <= |l| || k == |p|) && k >= |p|
      {
        pattern := pattern + [p[|p| - 1]];
        k := k + 1;
      }
    }
    if |pattern| != |l| { return None; }
    var m: map<string, Label> := map[];
    var i := 0;
    while i < |l|
      invariant i <= |l| && Short(m, i)
      invariant MatchWith(p, l) == MatchFrom(pattern, l, i, m)
    {
      var c := MatchNode(pattern[i], l[i]);
      match c {
        case Mismatch => return None;
        case Match =>
        case Bind(x) =>
          if x in m && !Equal(m[x], [l[i]]) { return None; }
          m := m[x := [l[i]]];
        case BindRec(x) => m := m[x := if x in m then m[x] + [l[i]] else [l[i]]];
      }
      i := i + 1;
    }
    return Some(m);
  }
}
