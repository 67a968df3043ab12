/** The order on version strings and the constraints written with it. Characters are classified as in ASCII. */
module Versions {
  import opened Values
  import opened Numerals
  import S = Settings

  /** A run of digits counts as a number; any other run is compared as text, and comes after every number. */
  datatype Token = Number(n: nat) | Word(s: string)

  predicate TextLess(a: string, b: string) {
    b != "" && (a == "" || a[0] < b[0] || (a[0] == b[0] && TextLess(a[1..], b[1..])))
  }

  predicate TokenLess(a: Token, b: Token) {
    if a.Number? then b.Word? || a.n < b.n else b.Word? && TextLess(a.s, b.s)
  }

  // ----- a version as tokens -----

  function StripLeft(s: string): string {
    S.SkipSpace(s)
  }

  function StripRight(s: string): string {
    if s != "" && S.IsSpace(s[|s| - 1]) then StripRight(s[..|s| - 1]) else s
  }

  function Strip(s: string): string {
    StripRight(StripLeft(s))
  }

  function DotIndex(s: string): (i: nat)
    ensures i <= |s| && '.' !in s[..i] && (i < |s| ==> s[i] == '.')
  {
    if s == "" || s[0] == '.' then 0 else 1 + DotIndex(s[1..])
  }

  function Split(s: string): seq<string> {
    var i := DotIndex(s);
    if i == |s| then [s] else [s[..i]] + Split(s[i + 1..])
  }

  function WordLength(s: string): (n: nat)
    ensures n <= |s|
  {
    if s != "" && !IsDigit(s[0]) then 1 + WordLength(s[1..]) else 0
  }

  /** The first run of digits, or of anything else. */
  function ChunkLength(part: string): (n: nat)
    requires part != ""
    ensures 0 < n <= |part|
  {
    if IsDigit(part[0]) then DigitsLength(part) else WordLength(part)
  }

  function ChunkToken(part: string): Token
    requires part != ""
  {
    if IsDigit(part[0]) then Number(NaturalOf(part[..DigitsLength(part)])) else Word(part[..WordLength(part)])
  }

  function Chunks(part: string): seq<Token> {
    if part == "" then [] else [ChunkToken(part)] + Chunks(part[ChunkLength(part)..])
  }

  function AllChunks(parts: seq<string>): seq<Token> {
    if parts == [] then [] else Chunks(parts[0]) + AllChunks(parts[1..])
  }

  function Trim(tokens: seq<Token>): seq<Token> {
    if tokens != [] && tokens[|tokens| - 1] == Number(0) then Trim(tokens[..|tokens| - 1]) else tokens
  }

  function Tokens(version: string): seq<Token> {
    Trim(AllChunks(Split(Strip(version))))
  }

  method VersionTokens(version: string) returns (tokens: seq<Token>)
    ensures tokens == Tokens(version)
  {
    var parts := Split(Strip(version));
    ghost var all := AllChunks(parts);
    tokens := [];
    while parts != []
      invariant tokens + AllChunks(parts) == all
      decreases |parts|
    {
      var part := parts[0];
      ghost var later := AllChunks(parts[1..]);
      assert tokens + (Chunks(part) + later) == all;
      while part != ""
        invariant tokens + (Chunks(part) + later) == all
        decreases |part|
      {
        assert tokens + ([ChunkToken(part)] + Chunks(part[ChunkLength(part)..]) + later)
            == tokens + [ChunkToken(part)] + (Chunks(part[ChunkLength(part)..]) + later);
        tokens := tokens + [ChunkToken(part)];
        part := part[ChunkLength(part)..];
      }
      assert [] + later == later;
      parts := parts[1..];
    }
    assert tokens + [] == tokens;
    while tokens != [] && tokens[|tokens| - 1] == Number(0)
      invariant Trim(tokens) == Trim(all)
      decreases |tokens|
    {
      tokens := tokens[..|tokens| - 1];
    }
  }

  // ----- comparing -----

  /** Versions are read as if zeros went on for ever. */
  function At(tokens: seq<Token>, i: nat): Token {
    if i < |tokens| then tokens[i] else Number(0)
  }

  ghost predicate SameUpTo(l: seq<Token>, r: seq<Token>, i: nat) {
    forall j: nat :: j < i ==> At(l, j) == At(r, j)
  }

  /** The first difference decides. */
  ghost predicate Less(l: seq<Token>, r: seq<Token>) {
    exists i: nat :: SameUpTo(l, r, i) && TokenLess(At(l, i), At(r, i))
  }

  method CompareVersions(left: string, right: string) returns (c: int)
    ensures c == -1 || c == 0 || c == 1
    ensures c < 0 <==> Less(Tokens(left), Tokens(right))
    ensures c > 0 <==> Less(Tokens(right), Tokens(left))
    ensures c == 0 <==> Tokens(left) == Tokens(right)
  {
    var l := VersionTokens(left);
    var r := VersionTokens(right);
    var size := if |l| > |r| then |l| else |r|;
    for i := 0 to size
      invariant SameUpTo(l, r, i)
    {
      var lToken := if i < |l| then l[i] else Number(0);
      var rToken := if i < |r| then r[i] else Number(0);
      if TokenLess(lToken, rToken) {
        FirstDifference(l, r, i);
        return -1;
      }
      if TokenLess(rToken, lToken) {
        FirstDifference(r, l, i);
        return 1;
      }
      TokensTrichotomy(lToken, rToken);
    }
    AllTheSame(l, r);
    TrimmedEqual(left, right);
    return 0;
  }

  lemma FirstDifference(l: seq<Token>, r: seq<Token>, i: nat)
    requires SameUpTo(l, r, i) && TokenLess(At(l, i), At(r, i))
    ensures Less(l, r) && !Less(r, l) && l != r
  {
    TokensTrichotomy(At(l, i), At(r, i));
    if Less(r, l) {
      var k: nat :| SameUpTo(r, l, k) && TokenLess(At(r, k), At(l, k));
      TokensTrichotomy(At(r, k), At(l, k));
      assert false;
    }
  }

  lemma AllTheSame(l: seq<Token>, r: seq<Token>)
    requires SameUpTo(l, r, if |l| > |r| then |l| else |r|)
    ensures forall i: nat :: At(l, i) == At(r, i)
    ensures !Less(l, r) && !Less(r, l)
  {
    forall i: nat ensures At(l, i) == At(r, i) && !TokenLess(At(l, i), At(r, i)) {
      TokensTrichotomy(At(l, i), At(l, i));
    }
  }

  predicate Trimmed(tokens: seq<Token>) {
    tokens != [] ==> tokens[|tokens| - 1] != Number(0)
  }

  lemma {:induction false} TrimTrims(tokens: seq<Token>)
    ensures Trimmed(Trim(tokens)) && forall i: nat :: At(Trim(tokens), i) == At(tokens, i)
    decreases |tokens|
  {
    if tokens != [] && tokens[|tokens| - 1] == Number(0) {
      TrimTrims(tokens[..|tokens| - 1]);
    }
  }

  lemma LongerDiffers(l: seq<Token>, r: seq<Token>)
    requires Trimmed(l) && |l| > |r|
    ensures At(l, |l| - 1) != At(r, |l| - 1)
  {
  }

  lemma TrimmedEqual(left: string, right: string)
    requires forall i: nat :: At(Tokens(left), i) == At(Tokens(right), i)
    ensures Tokens(left) == Tokens(right)
  {
    var l, r := Tokens(left), Tokens(right);
    TrimTrims(AllChunks(Split(Strip(left))));
    TrimTrims(AllChunks(Split(Strip(right))));
    if |l| > |r| {
      LongerDiffers(l, r);
      assert false;
    } else if |r| > |l| {
      LongerDiffers(r, l);
      assert false;
    }
    forall i | 0 <= i < |l| ensures l[i] == r[i] {
      assert At(l, i) == At(r, i);
    }
  }

  // ----- a total order -----

  lemma {:induction false} TextTrichotomy(a: string, b: string)
    ensures TextLess(a, b) || TextLess(b, a) || a == b
    ensures !(TextLess(a, b) && TextLess(b, a)) && !TextLess(a, a)
    decreases |a|
  {
    if a != "" {
      TextTrichotomy(a[1..], if b == "" then "" else b[1..]);
      if b != "" && a[0] == b[0] && a[1..] == b[1..] {
        assert a == [a[0]] + a[1..] && b == [b[0]] + b[1..];
      }
    }
  }

  lemma {:induction false} TextTransitive(a: string, b: string, c: string)
    requires TextLess(a, b) && TextLess(b, c)
    ensures TextLess(a, c)
    decreases |a|
  {
    if a != "" && a[0] == b[0] && b[0] == c[0] {
      TextTransitive(a[1..], b[1..], c[1..]);
    }
  }

  lemma TokensTrichotomy(a: Token, b: Token)
    ensures TokenLess(a, b) || TokenLess(b, a) || a == b
    ensures !(TokenLess(a, b) && TokenLess(b, a)) && !TokenLess(a, a)
  {
    if a.Word? && b.Word? {
      TextTrichotomy(a.s, b.s);
    } else if a.Word? {
      TextTrichotomy(a.s, a.s);
    }
  }

  lemma TokensTransitive(a: Token, b: Token, c: Token)
    requires TokenLess(a, b) && TokenLess(b, c)
    ensures TokenLess(a, c)
  {
    if a.Word? {
      TextTransitive(a.s, b.s, c.s);
    }
  }

  lemma LessIsTransitive(a: seq<Token>, b: seq<Token>, c: seq<Token>)
    requires Less(a, b) && Less(b, c)
    ensures Less(a, c)
  {
    var i: nat :| SameUpTo(a, b, i) && TokenLess(At(a, i), At(b, i));
    var j: nat :| SameUpTo(b, c, j) && TokenLess(At(b, j), At(c, j));
    var k := if i < j then i else j;
    if i == j {
      TokensTransitive(At(a, i), At(b, i), At(c, i));
    }
    assert SameUpTo(a, c, k) && TokenLess(At(a, k), At(c, k));
  }

  /** Versions are totally preordered: of any two exactly one of before, after and same tokens holds. */
  lemma VersionsAreTotallyOrdered(left: string, right: string)
    ensures Less(Tokens(left), Tokens(right)) || Less(Tokens(right), Tokens(left)) || Tokens(left) == Tokens(right)
    ensures !(Less(Tokens(left), Tokens(right)) && Less(Tokens(right), Tokens(left)))
    ensures !Less(Tokens(left), Tokens(left))
  {
    var l, r := Tokens(left), Tokens(right);
    AllTheSame(l, l);
    Decides(l, r, 0);
    if !Less(l, r) && !Less(r, l) {
      TrimmedEqual(left, right);
    }
  }

  lemma {:induction false} Decides(l: seq<Token>, r: seq<Token>, i: nat)
    requires SameUpTo(l, r, i) && i <= |l| + |r|
    ensures !(Less(l, r) && Less(r, l))
    ensures Less(l, r) || Less(r, l) || forall i: nat :: At(l, i) == At(r, i)
    decreases |l| + |r| - i
  {
    TokensTrichotomy(At(l, i), At(r, i));
    if TokenLess(At(l, i), At(r, i)) {
      FirstDifference(l, r, i);
    } else if TokenLess(At(r, i), At(l, i)) {
      FirstDifference(r, l, i);
    } else if i == |l| + |r| {
      AllTheSame(l, r);
    } else {
      Decides(l, r, i + 1);
    }
  }

  // ----- dotted numbers -----

  function Dotted(ns: seq<nat>): string {
    if ns == [] then "" else if |ns| == 1 then Decimal(ns[0]) else Decimal(ns[0]) + ("." + Dotted(ns[1..]))
  }

  function Numbers(ns: seq<nat>): seq<Token> {
    if ns == [] then [] else [Number(ns[0])] + Numbers(ns[1..])
  }

  lemma DecimalIsOneChunk(n: nat)
    ensures Chunks(Decimal(n)) == [Number(n)]
  {
    var s := Decimal(n);
    assert s[0] in s && s + "" == s;
    DigitsScan(s, "");
    assert s[..|s|] == s && s[|s|..] == "";
    DecimalReadsBack(n);
  }

  lemma {:induction false} DotAfter(s: string, rest: string)
    requires '.' !in s
    ensures DotIndex(s + ("." + rest)) == |s| && DotIndex(s) == |s|
    decreases |s|
  {
    if s == "" {
      assert s + ("." + rest) == "." + rest;
    } else {
      assert (s + ("." + rest))[1..] == s[1..] + ("." + rest);
      DotAfter(s[1..], rest);
    }
  }

  lemma {:induction false} DottedTokens(ns: seq<nat>)
    requires ns != []
    ensures AllChunks(Split(Dotted(ns))) == Numbers(ns)
    decreases |ns|
  {
    var first, rest := Decimal(ns[0]), Dotted(ns[1..]);
    DecimalIsOneChunk(ns[0]);
    DotAfter(first, rest);
    if |ns| > 1 {
      var s := first + ("." + rest);
      assert s[..|first|] == first && s[|first| + 1..] == rest;
      DottedTokens(ns[1..]);
      assert AllChunks([first] + Split(rest)) == Chunks(first) + AllChunks(Split(rest));
    } else {
      assert AllChunks([first]) == Chunks(first) + [];
    }
  }

  lemma {:induction false} DottedHasNoSpace(ns: seq<nat>)
    ensures forall c :: c in Dotted(ns) ==> !S.IsSpace(c)
    decreases |ns|
  {
    if ns != [] {
      DottedHasNoSpace(ns[1..]);
    }
  }

  lemma NothingToStrip(s: string)
    requires forall c :: c in s ==> !S.IsSpace(c)
    ensures Strip(s) == s
  {
    if s != "" {
      assert s[0] in s && s[|s| - 1] in s;
    }
  }

  lemma {:induction false} NumbersAt(ns: seq<nat>, i: nat)
    ensures At(Numbers(ns), i) == Number(if i < |ns| then ns[i] else 0)
    decreases |ns|
  {
    if ns != [] && i > 0 {
      NumbersAt(ns[1..], i - 1);
      assert Numbers(ns)[1..] == Numbers(ns[1..]);
    }
  }

  function NumberAt(ns: seq<nat>, i: nat): nat {
    if i < |ns| then ns[i] else 0
  }

  /** Dotted numbers compare number by number, not as text, and missing components count as zero. */
  lemma DottedOrder(ns: seq<nat>, ms: seq<nat>)
    requires ns != [] && ms != []
    ensures Less(Tokens(Dotted(ns)), Tokens(Dotted(ms))) <==>
            exists i: nat ::
              NumberAt(ns, i) < NumberAt(ms, i) && forall j: nat :: j < i ==> NumberAt(ns, j) == NumberAt(ms, j)
  {
    var l, r := Tokens(Dotted(ns)), Tokens(Dotted(ms));
    forall i: nat ensures At(l, i) == Number(NumberAt(ns, i)) && At(r, i) == Number(NumberAt(ms, i)) {
      DottedAt(ns, i);
      DottedAt(ms, i);
    }
    if Less(l, r) {
      var i: nat :| SameUpTo(l, r, i) && TokenLess(At(l, i), At(r, i));
      assert NumberAt(ns, i) < NumberAt(ms, i);
      forall j: nat | j < i ensures NumberAt(ns, j) == NumberAt(ms, j) {
        assert At(l, j) == At(r, j);
      }
    }
    if i: nat :| NumberAt(ns, i) < NumberAt(ms, i) && forall j: nat :: j < i ==> NumberAt(ns, j) == NumberAt(ms, j) {
      assert SameUpTo(l, r, i) && TokenLess(At(l, i), At(r, i));
    }
  }

  lemma DottedAt(ns: seq<nat>, i: nat)
    requires ns != []
    ensures At(Tokens(Dotted(ns)), i) == Number(NumberAt(ns, i))
  {
    DottedHasNoSpace(ns);
    NothingToStrip(Dotted(ns));
    DottedTokens(ns);
    TrimTrims(Numbers(ns));
    NumbersAt(ns, i);
  }

  // ----- constraints -----

  datatype Op = Equal | AtLeast | AtMost | Above | Below

  datatype Constraint = Constraint(op: Op, expected: string)

  function OpText(op: Op): string {
    match op
    case Equal => "=="
    case AtLeast => ">="
    case AtMost => "<="
    case Above => ">"
    case Below => "<"
  }

  const OPS := [AtLeast, AtMost, Equal, Above, Below]

  /**
   The version after an operator: what is left between white space, on one line. White space alone stands
   for itself.
   */
  function Operand(s: string): Option<string> {
    var t := StripLeft(s);
    if t == "" then LastOnLine(s)
    else if '\n' in StripRight(t) then None
    else Some(StripRight(t))
  }

  function LastOnLine(s: string): Option<string> {
    if s == "" then None
    else if s[|s| - 1] != '\n' then Some(s[|s| - 1..])
    else LastOnLine(s[..|s| - 1])
  }

  /** The first operator that leaves a version behind it; none at all means equality. */
  function ParseOps(s: string, ops: seq<Op>): Option<Constraint> {
    if ops == [] then
      if Operand(s).Some? then Some(Constraint(Equal, Operand(s).value)) else None
    else if S.Starts(s, OpText(ops[0])) && Operand(s[|OpText(ops[0])|..]).Some? then
      Some(Constraint(ops[0], Operand(s[|OpText(ops[0])|..]).value))
    else ParseOps(s, ops[1..])
  }

  function ParseConstraint(s: string): Option<Constraint> {
    var t := StripLeft(s);
    if t == "" then ParseOps(s, []) else ParseOps(t, OPS)
  }

  ghost predicate Holds(op: Op, actual: string, expected: string) {
    match op
    case Equal => Tokens(actual) == Tokens(expected)
    case AtLeast => !Less(Tokens(actual), Tokens(expected))
    case AtMost => !Less(Tokens(expected), Tokens(actual))
    case Above => Less(Tokens(expected), Tokens(actual))
    case Below => Less(Tokens(actual), Tokens(expected))
  }

  method VersionSatisfies(actual: Option<string>, constraint: string) returns (ok: bool)
    ensures ok <==> actual.Some? && ParseConstraint(constraint).Some?
                    && var parsed := ParseConstraint(constraint).value;
                       Holds(parsed.op, actual.value, parsed.expected)
  {
    var parsed := ParseConstraint(constraint);
    if actual.None? || parsed.None? {
      return false;
    }
    var c := CompareVersions(actual.value, parsed.value.expected);
    match parsed.value.op {
      case Equal => return c == 0;
      case AtLeast => return c >= 0;
      case AtMost => return c <= 0;
      case Above => return c > 0;
      case Below => return c < 0;
    }
  }

  /** The operators are consistent with one another. */
  lemma OperatorsAgree(actual: string, expected: string)
    ensures Holds(AtLeast, actual, expected) <==> Holds(Above, actual, expected) || Holds(Equal, actual, expected)
    ensures Holds(AtMost, actual, expected) <==> Holds(Below, actual, expected) || Holds(Equal, actual, expected)
    ensures Holds(AtLeast, actual, expected) <==> Holds(AtMost, expected, actual)
    ensures Holds(AtLeast, actual, expected) && Holds(AtMost, actual, expected) <==> Holds(Equal, actual, expected)
    ensures !(Holds(Above, actual, expected) && Holds(Below, actual, expected))
  {
    VersionsAreTotallyOrdered(actual, expected);
    if Holds(Equal, actual, expected) {
      VersionsAreTotallyOrdered(actual, actual);
    }
  }

  /** A version as a constraint can name it: one line, no white space around it, no operator before it. */
  predicate Nameable(v: string) {
    && v != "" && !S.IsSpace(v[0]) && !S.IsSpace(v[|v| - 1]) && '\n' !in v
    && v[0] != '<' && v[0] != '>' && v[0] != '='
  }

  /** A constraint written with any white space around its parts reads as its operator and version. */
  lemma ConstraintReadsBack(before: string, op: Op, between: string, v: string, after: string)
    requires S.AllSpace(before) && S.AllSpace(between) && S.AllSpace(after) && Nameable(v)
    ensures ParseConstraint(before + (OpText(op) + (between + (v + after)))) == Some(Constraint(op, v))
  {
    var tail := between + (v + after);
    var t := OpText(op) + tail;
    S.SkipGap(before, t);
    S.SkipGap(between, v + after);
    StripRightGap(v, after);
    assert t[|OpText(op)|..] == tail;
    assert Operand(tail) == Some(v);
    assert tail[0] != '=' by {
      if between != "" {
        assert between[0] in between;
      }
    }
    FirstOp(t, op, tail);
  }

  lemma FirstOp(t: string, op: Op, tail: string)
    requires t == OpText(op) + tail && tail != "" && tail[0] != '=' && Operand(tail).Some?
    ensures ParseOps(t, OPS) == Some(Constraint(op, Operand(tail).value))
  {
    assert t[|OpText(op)|..] == tail && t[0] == OpText(op)[0];
    assert t[1] == if |OpText(op)| == 1 then tail[0] else '=';
    var i := match op case AtLeast => 0 case AtMost => 1 case Equal => 2 case Above => 3 case Below => 4;
    OpsBefore(t, OPS, i);
  }

  lemma {:induction false} OpsBefore(t: string, ops: seq<Op>, i: nat)
    requires i < |ops| && S.Starts(t, OpText(ops[i])) && Operand(t[|OpText(ops[i])|..]).Some?
    requires forall j :: 0 <= j < i ==> !S.Starts(t, OpText(ops[j]))
    ensures ParseOps(t, ops) == Some(Constraint(ops[i], Operand(t[|OpText(ops[i])|..]).value))
    decreases i
  {
    if i > 0 {
      OpsBefore(t, ops[1..], i - 1);
    }
  }

  lemma {:induction false} StripRightGap(v: string, gap: string)
    requires v != "" && !S.IsSpace(v[|v| - 1]) && S.AllSpace(gap)
    ensures StripRight(v + gap) == v
    decreases |gap|
  {
    if gap == "" {
      assert v + gap == v;
    } else {
      assert gap[|gap| - 1] in gap && (v + gap)[..|v + gap| - 1] == v + gap[..|gap| - 1];
      StripRightGap(v, gap[..|gap| - 1]);
    }
  }
}
