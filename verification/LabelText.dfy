/** Printing and parsing labels (src/armour-lang/src/labels.rs:33-90, 186-229). */
module LabelText {
  import opened Prelude
  import opened Labels

  // ----- the three regular expressions -----

  predicate Alpha(c: char) { 'a' <= c <= 'z' || 'A' <= c <= 'Z' }

  predicate Alnum(c: char) { Alpha(c) || '0' <= c <= '9' }

  predicate Separator(c: char) { c == ' ' || c == '_' || c == '+' || c == '-' }

  /** `[[:alpha:]][[:alnum:]]*` */
  predicate IsIdent(s: string) { s != "" && Alpha(s[0]) && forall i :: 0 <= i < |s| ==> Alnum(s[i]) }

  /** `[[:alnum:]]([ _+-]?[[:alnum:]])*` */
  predicate IsText(s: string) { s != "" && Alnum(s[0]) && IsTail(s[1..]) }

  predicate IsTail(s: string) {
    || s == ""
    || (Alnum(s[0]) && IsTail(s[1..]))
    || (Separator(s[0]) && |s| > 1 && Alnum(s[1]) && IsTail(s[2..]))
  }

  /** An identifier between angle brackets. */
  predicate IsBracketed(s: string, open: string, close: string) {
    && |s| > |open| + |close|
    && s[..|open|] == open && s[|s| - |close|..] == close
    && IsIdent(s[|open|..|s| - |close|])
  }

  function Inner(s: string, open: string, close: string): (x: string)
    requires IsBracketed(s, open, close)
    ensures IsIdent(x) && s == open + x + close
  {
    s[|open|..|s| - |close|]
  }

  // ----- nodes -----

  function TrimStart(s: string): string { if s != "" && s[0] == '<' then TrimStart(s[1..]) else s }

  function TrimEnd(s: string): string { if s != "" && s[|s| - 1] == '>' then TrimEnd(s[..|s| - 1]) else s }

  function ParseNode(s: string): Result<LabelNode> {
    if s == "*" then Ok(Any(""))
    else if s == "**" then Ok(RecAny(""))
    else if IsBracketed(s, "<", ">") then Ok(Any(TrimEnd(TrimStart(s))))
    else if IsBracketed(s, "<<", ">>") then Ok(RecAny(TrimEnd(TrimStart(s))))
    else if IsText(s) then Ok(Str(s))
    else Err(Failed)
  }

  function PrintNode(n: LabelNode): string {
    match n
    case Any(x) => if x == "" then "*" else "<" + x + ">"
    case RecAny(x) => if x == "" then "**" else "<<" + x + ">>"
    case Str(x) => x
  }

  predicate ValidNode(n: LabelNode) {
    match n
    case Any(x) => x == "" || IsIdent(x)
    case RecAny(x) => x == "" || IsIdent(x)
    case Str(x) => IsText(x)
  }

  lemma TrimIdent(x: string)
    requires IsIdent(x)
    ensures TrimEnd(TrimStart("<" + x + ">")) == x && TrimEnd(TrimStart("<<" + x + ">>")) == x
  {
    var one, two := "<" + x + ">", "<<" + x + ">>";
    assert two[1..][1..] == x + ">>" && one[1..] == x + ">";
    assert Alnum(x[0]) && Alnum(x[|x| - 1]);
    assert TrimStart(x + ">>") == x + ">>" && TrimStart(x + ">") == x + ">";
    assert TrimStart(one) == x + ">" && TrimStart(two[1..]) == x + ">>" && TrimStart(two) == x + ">>";
    assert (x + ">>")[..|x| + 1] == x + ">" && (x + ">")[..|x|] == x;
    assert TrimEnd(x) == x && TrimEnd(x + ">") == x && TrimEnd(x + ">>") == x;
  }

  /** What the parser accepts is valid, and printing it gives the text back. */
  lemma ParsedNode(s: string)
    requires ParseNode(s).Ok?
    ensures ValidNode(ParseNode(s).value) && PrintNode(ParseNode(s).value) == s
  {
    hide IsIdent, IsText, TrimStart, TrimEnd, IsBracketed;
    if s != "*" && s != "**" {
      if IsBracketed(s, "<", ">") {
        BracketedNode(s, "<", ">");
      } else if IsBracketed(s, "<<", ">>") {
        BracketedNode(s, "<<", ">>");
      }
    }
  }

  lemma BracketedNode(s: string, open: string, close: string)
    requires (open, close) in {("<", ">"), ("<<", ">>")} && IsBracketed(s, open, close)
    ensures var x := TrimEnd(TrimStart(s)); x != "" && IsIdent(x) && s == open + x + close
  {
    TrimIdent(Inner(s, open, close));
  }

  lemma Brackets(x: string)
    requires IsIdent(x)
    ensures IsBracketed("<" + x + ">", "<", ">")
    ensures !IsBracketed("<<" + x + ">>", "<", ">") && IsBracketed("<<" + x + ">>", "<<", ">>")
  {
    var one, two := "<" + x + ">", "<<" + x + ">>";
    assert one[1..|one| - 1] == x && two[2..|two| - 2] == x;
    assert two[1..|two| - 1][0] == '<';
  }

  lemma PrintedNode(n: LabelNode)
    requires ValidNode(n)
    ensures ParseNode(PrintNode(n)) == Ok(n)
  {
    match n
    case Any(x) => if x != "" { Brackets(x); TrimIdent(x); assert ("<" + x + ">")[0] == '<'; }
    case RecAny(x) => if x != "" { Brackets(x); TrimIdent(x); assert ("<<" + x + ">>")[0] == '<'; }
    case Str(x) => assert Alnum(x[0]);
  }

  lemma NodeRoundTripExactly(n: LabelNode)
    ensures ParseNode(PrintNode(n)) == Ok(n) <==> ValidNode(n)
  {
    if ValidNode(n) { PrintedNode(n); }
    if ParseNode(PrintNode(n)) == Ok(n) { ParsedNode(PrintNode(n)); }
  }

  // ----- labels -----

  /** Splits at every "::", from left to right. */
  function Split(s: string): (parts: seq<string>)
    ensures parts != []
  {
    if s == "" then [""]
    else if |s| >= 2 && s[0] == ':' && s[1] == ':' then [""] + Split(s[2..])
    else var rest := Split(s[1..]); [[s[0]] + rest[0]] + rest[1..]
  }

  function Join(parts: seq<string>): string {
    if parts == [] then "" else if |parts| == 1 then parts[0] else parts[0] + "::" + Join(parts[1..])
  }

  function ParseAll(parts: seq<string>): Result<Label> {
    if parts == [] then Ok([])
    else match ParseNode(parts[0])
      case Err(err) => Err(err)
      case Ok(n) => match ParseAll(parts[1..])
        case Err(err) => Err(err)
        case Ok(ns) => Ok([n] + ns)
  }

  function ParseLabel(s: string): Result<Label> { ParseAll(Split(s)) }

  function PrintAll(l: Label): (parts: seq<string>)
    ensures |parts| == |l|
    ensures forall i :: 0 <= i < |l| ==> parts[i] == PrintNode(l[i])
  {
    if l == [] then [] else [PrintNode(l[0])] + PrintAll(l[1..])
  }

  function PrintLabel(l: Label): string { Join(PrintAll(l)) }

  predicate ValidLabel(l: Label) { l != [] && forall i :: 0 <= i < |l| ==> ValidNode(l[i]) }

  predicate NoColon(s: string) { forall i :: 0 <= i < |s| ==> s[i] != ':' }

  lemma JoinCons(c: char, part: string, rest: seq<string>)
    ensures Join([[c] + part] + rest) == [c] + Join([part] + rest)
    ensures Join([""] + rest) == if rest == [] then "" else "::" + Join(rest)
  {
    assert ([[c] + part] + rest)[1..] == rest && ([part] + rest)[1..] == rest && ([""] + rest)[1..] == rest;
    if rest != [] { assert Join([[c] + part] + rest) == [c] + part + "::" + Join(rest); }
  }

  /** Joining undoes splitting. */
  lemma {:induction false} JoinSplit(s: string)
    ensures Join(Split(s)) == s
    decreases |s|
  {
    hide Join;
    if s == "" {
      JoinCons('c', "", []);
      assert [""] + [] == [""];
    } else if |s| >= 2 && s[0] == ':' && s[1] == ':' {
      JoinSplit(s[2..]);
      JoinCons('c', "", Split(s[2..]));
      assert s == "::" + s[2..];
    } else {
      JoinSplit(s[1..]);
      var rest := Split(s[1..]);
      JoinCons(s[0], rest[0], rest[1..]);
      assert [rest[0]] + rest[1..] == rest;
      assert s == [s[0]] + s[1..];
    }
  }

  lemma {:induction false} SplitOne(x: string, rest: string)
    requires NoColon(x)
    ensures Split(x) == [x]
    ensures Split(x + "::" + rest) == [x] + Split(rest)
    decreases |x|
  {
    if x == "" {
      assert (x + "::" + rest)[2..] == rest;
    } else {
      SplitOne(x[1..], rest);
      var s := x + "::" + rest;
      assert s[1..] == x[1..] + "::" + rest;
      assert s[0] == x[0] && x == [x[0]] + x[1..];
      assert ([x[1..]] + Split(rest))[1..] == Split(rest);
    }
  }

  /** Splitting undoes joining, as long as no part has a colon. */
  lemma {:induction false} SplitJoin(parts: seq<string>)
    requires parts != [] && forall i :: 0 <= i < |parts| ==> NoColon(parts[i])
    ensures Split(Join(parts)) == parts
    decreases |parts|
  {
    if |parts| == 1 {
      SplitOne(parts[0], "");
    } else {
      SplitJoin(parts[1..]);
      SplitOne(parts[0], Join(parts[1..]));
    }
  }

  lemma {:induction false} TailNoColon(s: string)
    requires IsTail(s)
    ensures NoColon(s)
    decreases |s|
  {
    if s != "" {
      if Alnum(s[0]) { TailNoColon(s[1..]); assert s == [s[0]] + s[1..]; }
      else { TailNoColon(s[2..]); assert s == [s[0], s[1]] + s[2..]; }
    }
  }

  lemma NodeNoColon(n: LabelNode)
    requires ValidNode(n)
    ensures NoColon(PrintNode(n))
  {
    if n.Str? { TailNoColon(n.text[1..]); assert n.text == [n.text[0]] + n.text[1..]; }
  }

  lemma {:induction false} ParsedAll(parts: seq<string>)
    requires ParseAll(parts).Ok?
    ensures var l := ParseAll(parts).value;
      PrintAll(l) == parts && forall i :: 0 <= i < |l| ==> ValidNode(l[i])
    decreases |parts|
  {
    hide ParseNode, PrintNode, ValidNode;
    if parts != [] {
      ParsedNode(parts[0]);
      ParsedAll(parts[1..]);
      var l := ParseAll(parts).value;
      assert l[1..] == ParseAll(parts[1..]).value;
      assert forall i :: 0 < i < |l| ==> l[i] == l[1..][i - 1];
      assert parts == [parts[0]] + parts[1..];
    }
  }

  lemma {:induction false} PrintedAll(l: Label)
    requires forall i :: 0 <= i < |l| ==> ValidNode(l[i])
    ensures ParseAll(PrintAll(l)) == Ok(l)
    decreases |l|
  {
    hide ParseNode, PrintNode, ValidNode;
    if l != [] {
      PrintedNode(l[0]);
      PrintedAll(l[1..]);
      assert PrintAll(l)[1..] == PrintAll(l[1..]);
      assert l == [l[0]] + l[1..];
    }
  }

  /** Parsing and then printing gives the text back, and the label is valid. */
  lemma PrintUndoesParse(s: string)
    requires ParseLabel(s).Ok?
    ensures PrintLabel(ParseLabel(s).value) == s && ValidLabel(ParseLabel(s).value)
  {
    ParsedAll(Split(s));
    JoinSplit(s);
  }

  /** Printing and then parsing gives the label back exactly when it is valid. */
  lemma ParseUndoesPrintExactly(l: Label)
    ensures ParseLabel(PrintLabel(l)) == Ok(l) <==> ValidLabel(l)
  {
    if ValidLabel(l) {
      forall i | 0 <= i < |l| ensures NoColon(PrintAll(l)[i]) { NodeNoColon(l[i]); }
      SplitJoin(PrintAll(l));
      PrintedAll(l);
    }
    if ParseLabel(PrintLabel(l)) == Ok(l) { PrintUndoesParse(PrintLabel(l)); }
  }

  // ----- which texts are labels -----

  /** ASCII letters, by code point. */
  predicate IsLetter(c: char) { 65 <= c as int <= 90 || 97 <= c as int <= 122 }

  predicate IsLetterOrDigit(c: char) { IsLetter(c) || 48 <= c as int <= 57 }

  predicate IdentShape(x: string) { x != "" && IsLetter(x[0]) && forall i :: 0 <= i < |x| ==> IsLetterOrDigit(x[i]) }

  /** Letters and digits, with single separators strictly between them. */
  predicate TextShape(s: string) { s != "" && IsLetterOrDigit(s[0]) && TailShape(s) }

  predicate TailShape(s: string) {
    && (forall i :: 0 <= i < |s| ==> IsLetterOrDigit(s[i]) || s[i] in " _+-")
    && (forall i, j :: 0 <= i < |s| - 1 && j == i + 1 ==> IsLetterOrDigit(s[i]) || IsLetterOrDigit(s[j]))
    && (s != "" ==> IsLetterOrDigit(s[|s| - 1]))
  }

  lemma TailShapeStep(s: string)
    requires s != ""
    ensures TailShape(s) <==>
      || (IsLetterOrDigit(s[0]) && TailShape(s[1..]))
      || (|s| > 1 && s[0] in " _+-" && IsLetterOrDigit(s[1]) && TailShape(s[1..]))
  {
    var t := s[1..];
    assert forall i :: 0 <= i < |t| ==> t[i] == s[i + 1];
    if TailShape(t) && (IsLetterOrDigit(s[0]) || (|s| > 1 && s[0] in " _+-" && IsLetterOrDigit(s[1]))) {
      forall i | 0 <= i < |s| ensures IsLetterOrDigit(s[i]) || s[i] in " _+-" {
        if i > 0 { assert t[i - 1] == s[i]; }
      }
      forall i, j | 0 <= i < |s| - 1 && j == i + 1 ensures IsLetterOrDigit(s[i]) || IsLetterOrDigit(s[j]) {
        if i > 0 { assert t[i - 1] == s[i] && t[j - 1] == s[j]; }
      }
    }
  }

  lemma {:induction false} TailExactly(s: string)
    ensures IsTail(s) <==> TailShape(s)
    decreases |s|
  {
    hide TailShape;
    if s == "" {
      EmptyTail();
    } else {
      TailShapeStep(s);
      TailExactly(s[1..]);
      if |s| > 1 {
        TailShapeStep(s[1..]);
        TailExactly(s[2..]);
        assert s[1..][1..] == s[2..] && s[1..][0] == s[1];
      }
    }
  }

  lemma EmptyTail()
    ensures TailShape("")
  {}

  lemma TextExactly(s: string)
    ensures IsText(s) <==> TextShape(s)
    ensures IsIdent(s) <==> IdentShape(s)
  {
    if s != "" {
      TailShapeStep(s);
      TailExactly(s[1..]);
    }
  }

  /** The text of one part of a label. */
  predicate NodeText(s: string, n: LabelNode) {
    match n
    case Any(x) => if x == "" then s == "*" else IdentShape(x) && s == "<" + x + ">"
    case RecAny(x) => if x == "" then s == "**" else IdentShape(x) && s == "<<" + x + ">>"
    case Str(x) => TextShape(x) && s == x
  }

  lemma NodeExactly(s: string, n: LabelNode)
    ensures ParseNode(s) == Ok(n) <==> NodeText(s, n)
  {
    hide IsText, IsIdent, TextShape, IdentShape;
    TextExactly(match n case Any(x) => x case RecAny(x) => x case Str(x) => x);
    assert NodeText(s, n) <==> ValidNode(n) && PrintNode(n) == s;
    hide ParseNode, ValidNode, PrintNode;
    if ParseNode(s) == Ok(n) { ParsedNode(s); }
    if ValidNode(n) { PrintedNode(n); }
  }

  /** A text is accepted as this label exactly if it is the texts of its parts with
      "::" between them. */
  lemma LabelExactly(s: string, l: Label)
    ensures ParseLabel(s) == Ok(l) <==>
      l != [] && exists parts: seq<string> ::
        |parts| == |l| && s == Join(parts) && forall i :: 0 <= i < |l| ==> NodeText(parts[i], l[i])
  {
    hide ParseNode, NodeText, Join, ValidNode, PrintNode;
    forall t, n ensures ParseNode(t) == Ok(n) <==> NodeText(t, n) { NodeExactly(t, n); }
    if ParseLabel(s) == Ok(l) {
      AllParsed(Split(s), l);
      JoinSplit(s);
    }
    if l != [] && exists parts: seq<string> ::
         |parts| == |l| && s == Join(parts) && forall i :: 0 <= i < |l| ==> NodeText(parts[i], l[i])
    {
      var parts: seq<string> :|
        |parts| == |l| && s == Join(parts) && forall i :: 0 <= i < |l| ==> NodeText(parts[i], l[i]);
      forall i | 0 <= i < |parts| ensures NoColon(parts[i]) { PartNoColon(parts[i], l[i]); }
      SplitJoin(parts);
      AllParsed(parts, l);
    }
  }

  lemma PartNoColon(s: string, n: LabelNode)
    requires NodeText(s, n)
    ensures NoColon(s)
  {}

  lemma {:induction false} AllParsed(parts: seq<string>, l: Label)
    ensures ParseAll(parts) == Ok(l) <==>
      |parts| == |l| && forall i :: 0 <= i < |l| ==> ParseNode(parts[i]) == Ok(l[i])
    decreases |parts|
  {
    hide ParseNode;
    if parts != [] {
      if l != [] {
        AllParsed(parts[1..], l[1..]);
        assert l == [l[0]] + l[1..];
        forall i | 0 < i < |l| && |parts| == |l|
          ensures ParseNode(parts[i]) == Ok(l[i]) <==> ParseNode(parts[1..][i - 1]) == Ok(l[1..][i - 1]) {}
        FirstParsed(parts, l);
      }
    }
  }

  lemma FirstParsed(parts: seq<string>, l: Label)
    requires parts != [] && l != []
    ensures ParseAll(parts) == Ok(l) <==> ParseNode(parts[0]) == Ok(l[0]) && ParseAll(parts[1..]) == Ok(l[1..])
    ensures |parts| == |l| ==>
      ((forall i :: 0 <= i < |l| ==> ParseNode(parts[i]) == Ok(l[i])) <==>
       ParseNode(parts[0]) == Ok(l[0])
       && forall i :: 0 <= i < |l| - 1 ==> ParseNode(parts[1..][i]) == Ok(l[1..][i]))
  {
    hide ParseNode;
    assert l == [l[0]] + l[1..];
    if |parts| == |l| && ParseNode(parts[0]) == Ok(l[0])
       && forall i :: 0 <= i < |l| - 1 ==> ParseNode(parts[1..][i]) == Ok(l[1..][i])
    {
      forall i | 0 <= i < |l| ensures ParseNode(parts[i]) == Ok(l[i]) {
        if i > 0 { assert ParseNode(parts[1..][i - 1]) == Ok(l[1..][i - 1]); }
      }
    }
  }
}
