/**
 The expression language of tagged settings: literals, numbers, quoted strings, and `$env.get` with an
 optional default. Characters are classified as in ASCII.
 */
module Settings {
  import opened Values
  import opened Numerals

  /** What an expression evaluates to. A fractional number stays the text the host's `float` is given. */
  datatype Setting = Absent | Truth(b: bool) | Whole(n: int) | Fraction(text: string) | Text(s: string)

  // ----- characters -----

  predicate IsSpace(c: char) {
    c == ' ' || '\t' <= c <= '\r' || '\U{1c}' <= c <= '\U{1f}'
  }

  predicate IsWord(c: char) {
    IsDigit(c) || 'a' <= c <= 'z' || 'A' <= c <= 'Z' || c == '_'
  }

  predicate IsQuote(c: char) {
    c == '\'' || c == '"'
  }

  predicate Starts(s: string, token: string) {
    token <= s
  }

  function Unescaped(c: char): Option<char> {
    match c
    case '"' => Some('"')
    case '\'' => Some('\'')
    case '\\' => Some('\\')
    case 'n' => Some('\n')
    case 't' => Some('\t')
    case 'r' => Some('\r')
    case 'b' => Some('\U{8}')
    case 'f' => Some('\U{c}')
    case _ => None
  }

  // ----- expressions, as they are written -----

  datatype Exponent = Exponent(mark: char, sign: string, digits: string)

  datatype Numeral = Numeral(negative: bool, whole: string, point: bool, fraction: string, exponent: Option<Exponent>)

  datatype StringText = StringText(quote: char, body: string)

  /** An expression together with the white space and quoting it is written with. */
  datatype Expr =
    | Number(numeral: Numeral)
    | Word(token: string)
    | Quoted(text: StringText)
    | EnvGet(gaps: Gaps, name: StringText, default: Default)

  datatype Gaps = Gaps(afterEnv: string, afterDot: string, afterGet: string, afterOpen: string, afterName: string)

  datatype Default = NoDefault | Default(before: string, expr: Expr, after: string)

  predicate AllSpace(s: string) {
    forall c | c in s :: IsSpace(c)
  }

  predicate NumeralOk(n: Numeral) {
    && AllDigits(n.whole) && AllDigits(n.fraction)
    && (n.whole == "" ==> n.point && n.fraction != "") && (!n.point ==> n.fraction == "")
    && (n.exponent.Some? ==> ExponentOk(n.exponent.value))
  }

  predicate ExponentOk(x: Exponent) {
    && (x.mark == 'e' || x.mark == 'E') && (x.sign == "" || x.sign == "+" || x.sign == "-")
    && AllDigits(x.digits) && x.digits != ""
  }

  /** What a quoted body stands for, if it is whole: every backslash begins a known escape and no quote is bare. */
  function Meaning(body: string, quote: char): Option<string> {
    if body == "" then Some("")
    else if body[0] == quote then None
    else if body[0] != '\\' then Prefixed(body[0], Meaning(body[1..], quote))
    else if |body| == 1 || Unescaped(body[1]).None? then None
    else Prefixed(Unescaped(body[1]).value, Meaning(body[2..], quote))
  }

  function Prefixed(c: char, s: Option<string>): Option<string> {
    if s.Some? then Some([c] + s.value) else None
  }

  predicate StringOk(t: StringText) {
    IsQuote(t.quote) && Meaning(t.body, t.quote).Some?
  }

  function WordValue(token: string): Option<Setting> {
    if token == "true" || token == "True" then Some(Truth(true))
    else if token == "false" || token == "False" then Some(Truth(false))
    else if token == "null" || token == "None" then Some(Absent)
    else None
  }

  predicate ExprOk(e: Expr) {
    match e
    case Number(n) => NumeralOk(n)
    case Word(token) => WordValue(token).Some?
    case Quoted(text) => StringOk(text)
    case EnvGet(gaps, name, default) =>
      && AllSpace(gaps.afterEnv) && AllSpace(gaps.afterDot) && AllSpace(gaps.afterGet) && AllSpace(gaps.afterOpen)
      && AllSpace(gaps.afterName) && StringOk(name)
      && (default.Default? ==> AllSpace(default.before) && ExprOk(default.expr) && AllSpace(default.after))
  }

  function NumeralText(n: Numeral): string {
    (if n.negative then "-" else "") + UnsignedText(n)
  }

  function UnsignedText(n: Numeral): string {
    n.whole + (PointText(n) + ExponentText(n.exponent))
  }

  function PointText(n: Numeral): string {
    if n.point then "." + n.fraction else ""
  }

  function ExponentText(x: Option<Exponent>): string {
    if x.Some? then [x.value.mark] + (x.value.sign + x.value.digits) else ""
  }

  function StringSource(t: StringText): string {
    [t.quote] + (t.body + [t.quote])
  }

  /** The expression as it is written. */
  function Print(e: Expr): string
    decreases e, 0
  {
    match e
    case Number(n) => NumeralText(n)
    case Word(token) => token
    case Quoted(text) => StringSource(text)
    case EnvGet(gaps, name, default) => "$env" + Call(gaps, name, default)
  }

  function Call(gaps: Gaps, name: StringText, default: Default): string
    decreases default, 1
  {
    gaps.afterEnv + ("." + (gaps.afterDot + ("get" + (gaps.afterGet + ("(" + (gaps.afterOpen +
      (StringSource(name) + (gaps.afterName + Close(default)))))))))
  }

  function Close(default: Default): string
    decreases default, 0
  {
    if default.NoDefault? then ")" else "," + (default.before + (Print(default.expr) + (default.after + ")")))
  }

  function NumeralValue(n: Numeral): Setting
    requires NumeralOk(n)
  {
    if n.point || n.exponent.Some? then Fraction(NumeralText(n))
    else Whole(if n.negative then 0 - NaturalOf(n.whole) else NaturalOf(n.whole))
  }

  /** The value of an expression, without parsing: a set variable, else its default, else nothing. */
  function Eval(e: Expr, env: map<string, string>): Setting
    requires ExprOk(e)
  {
    match e
    case Number(n) => NumeralValue(n)
    case Word(token) => WordValue(token).value
    case Quoted(text) => Text(Meaning(text.body, text.quote).value)
    case EnvGet(_, name, default) =>
      var key := Meaning(name.body, name.quote).value;
      if key in env then Text(env[key]) else if default.Default? then Eval(default.expr, env) else Absent
  }

  // ----- parsing a prefix -----

  datatype Parsed<T> = Parsed(value: T, rest: string) | Bad

  function SkipSpace(s: string): (r: string)
    ensures |r| <= |s|
  {
    if s != "" && IsSpace(s[0]) then SkipSpace(s[1..]) else s
  }

  function ParseStringBody(s: string, quote: char): (r: Parsed<string>)
    ensures r.Parsed? ==> |r.rest| < |s|
  {
    if s == "" then Bad
    else if s[0] == quote then Parsed("", s[1..])
    else if s[0] != '\\' then Cons(s[0], ParseStringBody(s[1..], quote))
    else if |s| == 1 || Unescaped(s[1]).None? then Bad
    else Cons(Unescaped(s[1]).value, ParseStringBody(s[2..], quote))
  }

  function Cons(c: char, p: Parsed<string>): Parsed<string> {
    if p.Parsed? then Parsed([c] + p.value, p.rest) else Bad
  }

  function ParseString(s: string): (r: Parsed<string>)
    ensures r.Parsed? ==> |r.rest| < |s|
  {
    if s != "" && IsQuote(s[0]) then ParseStringBody(s[1..], s[0]) else Bad
  }

  const WORDS := ["true", "True", "false", "False", "null", "None"]

  /** A word counts only if it does not run on into a longer one. */
  predicate WordEnds(s: string, token: string) {
    Starts(s, token) && (|s| == |token| || !IsWord(s[|token|]))
  }

  function ParseWord(s: string, words: seq<string>): (r: Parsed<Setting>)
    requires forall w :: w in words ==> WordValue(w).Some?
    ensures r.Parsed? ==> |r.rest| < |s|
  {
    if words == [] then Bad
    else if WordEnds(s, words[0]) then Parsed(WordValue(words[0]).value, s[|words[0]|..])
    else ParseWord(s, words[1..])
  }

  /** The longest numeral `s` starts with. */
  function ScanNumeral(s: string): Parsed<Numeral> {
    if Starts(s, "-") then ScanWhole(true, s[1..]) else ScanWhole(false, s)
  }

  function ScanWhole(negative: bool, s: string): Parsed<Numeral> {
    var d := DigitsLength(s);
    ScanPoint(negative, s[..d], s[d..])
  }

  function ScanPoint(negative: bool, whole: string, s: string): Parsed<Numeral> {
    if Starts(s, ".") then
      var f := DigitsLength(s[1..]);
      if whole == "" && f == 0 then Bad
      else
        var x := ScanExponent(s[1..][f..]);
        Parsed(Numeral(negative, whole, true, s[1..][..f], x.value), x.rest)
    else if whole == "" then Bad
    else
      var x := ScanExponent(s);
      Parsed(Numeral(negative, whole, false, "", x.value), x.rest)
  }

  function ScanExponent(s: string): (r: Parsed<Option<Exponent>>)
    ensures r.Parsed?
  {
    if s != "" && (s[0] == 'e' || s[0] == 'E') then
      var sign := SignOf(s[1..]);
      ScanExponentDigits(s, sign, s[1..][|sign|..])
    else Parsed(None, s)
  }

  function ScanExponentDigits(s: string, sign: string, after: string): (r: Parsed<Option<Exponent>>)
    requires s != ""
    ensures r.Parsed?
  {
    var d := DigitsLength(after);
    if d > 0 then Parsed(Some(Exponent(s[0], sign, after[..d])), after[d..]) else Parsed(None, s)
  }

  function SignOf(s: string): (sign: string)
    ensures sign <= s && (sign == "" || sign == "+" || sign == "-")
  {
    if Starts(s, "+") || Starts(s, "-") then s[..1] else ""
  }

  function ParseNumber(s: string): (r: Parsed<Setting>)
    ensures r.Parsed? ==> |r.rest| < |s|
  {
    var n := ScanNumeral(s);
    if n.Parsed? then
      ScanIsWritten(s);
      Parsed(NumeralValue(n.value), n.rest)
    else Bad
  }

  lemma Associate(a: string, b: string, c: string)
    ensures (a + b) + c == a + (b + c)
  {
  }

  lemma SplitAt(s: string, n: nat)
    requires n <= |s|
    ensures s == s[..n] + s[n..]
  {
  }

  /** The scanned numeral is well formed, and is what stood there. */
  lemma ScanIsWritten(s: string)
    ensures var n := ScanNumeral(s);
            n.Parsed? ==> NumeralOk(n.value) && s == NumeralText(n.value) + n.rest && |n.rest| < |s|
  {
    var n := ScanNumeral(s);
    if Starts(s, "-") {
      WholeIsWritten(true, s[1..]);
      SplitAt(s, 1);
      if n.Parsed? {
        Associate("-", UnsignedText(n.value), n.rest);
      }
    } else {
      WholeIsWritten(false, s);
      if n.Parsed? {
        Associate("", UnsignedText(n.value), n.rest);
      }
    }
  }

  lemma WholeIsWritten(negative: bool, s: string)
    ensures var n := ScanWhole(negative, s);
            n.Parsed? ==> n.value.negative == negative && NumeralOk(n.value)
                          && s == UnsignedText(n.value) + n.rest && |n.rest| < |s|
  {
    var d := DigitsLength(s);
    PointIsWritten(negative, s[..d], s[d..]);
    SplitAt(s, d);
  }

  lemma PointIsWritten(negative: bool, whole: string, s: string)
    requires AllDigits(whole)
    ensures var n := ScanPoint(negative, whole, s);
            n.Parsed? ==> n.value.negative == negative && n.value.whole == whole && NumeralOk(n.value)
                          && whole + s == UnsignedText(n.value) + n.rest && |n.rest| < |whole| + |s|
  {
    var n := ScanPoint(negative, whole, s);
    if n.Parsed? {
      var point, exponent := PointText(n.value), ExponentText(n.value.exponent);
      AfterWholeIsWritten(negative, whole, s);
      Associate(point, exponent, n.rest);
      Associate(whole, point + exponent, n.rest);
      assert |s| == |point| + |exponent| + |n.rest|;
    }
  }

  lemma AfterWholeIsWritten(negative: bool, whole: string, s: string)
    requires AllDigits(whole)
    ensures var n := ScanPoint(negative, whole, s);
            n.Parsed? ==> n.value.negative == negative && n.value.whole == whole && NumeralOk(n.value)
                          && s == PointText(n.value) + (ExponentText(n.value.exponent) + n.rest)
  {
    if Starts(s, ".") {
      PointScanned(negative, whole, s);
    } else {
      ExponentIsWritten(s);
      assert "" + s == s;
    }
  }

  lemma PointScanned(negative: bool, whole: string, s: string)
    requires AllDigits(whole) && Starts(s, ".")
    ensures var n := ScanPoint(negative, whole, s);
            n.Parsed? ==> n.value.negative == negative && n.value.whole == whole && NumeralOk(n.value)
                          && s == PointText(n.value) + (ExponentText(n.value.exponent) + n.rest)
  {
    var body := s[1..];
    var f := DigitsLength(body);
    var x := ScanExponent(body[f..]);
    ExponentIsWritten(body[f..]);
    SplitAt(s, 1);
    SplitAt(body, f);
    Associate(".", body[..f], ExponentText(x.value) + x.rest);
  }

  lemma ExponentIsWritten(s: string)
    ensures var x := ScanExponent(s);
            s == ExponentText(x.value) + x.rest && (x.value.Some? ==> ExponentOk(x.value.value))
  {
    var x := ScanExponent(s);
    if x.value.Some? {
      var sign := SignOf(s[1..]);
      var after := s[1..][|sign|..];
      SplitAt(s, 1);
      SplitAt(s[1..], |sign|);
      SplitAt(after, DigitsLength(after));
      Associate(sign, x.value.value.digits, x.rest);
      Associate([s[0]], sign + x.value.value.digits, x.rest);
    } else {
      assert "" + s == s;
    }
  }

  function Expect(s: string, token: string): (r: Option<string>)
    requires token != ""
    ensures r.Some? ==> |r.value| < |s|
  {
    var t := SkipSpace(s);
    if Starts(t, token) then Some(t[|token|..]) else None
  }

  function Lookup(env: map<string, string>, key: string, default: Setting): Setting {
    if key in env then Text(env[key]) else default
  }

  function ParseExpr(s: string, env: map<string, string>): (r: Parsed<Setting>)
    ensures r.Parsed? ==> |r.rest| < |s|
    decreases |s|, 2
  {
    ParseTerm(SkipSpace(s), env)
  }

  function ParseTerm(t: string, env: map<string, string>): (r: Parsed<Setting>)
    ensures r.Parsed? ==> |r.rest| < |t|
    decreases |t|, 1
  {
    if Starts(t, "$env") then ParseEnvGet(t[4..], env) else ParseLiteral(t)
  }

  function ParseLiteral(t: string): (r: Parsed<Setting>)
    ensures r.Parsed? ==> |r.rest| < |t|
  {
    if t != "" && IsQuote(t[0]) then
      var text := ParseString(t);
      if text.Parsed? then Parsed(Text(text.value), text.rest) else Bad
    else
      var word := ParseWord(t, WORDS);
      if word.Parsed? then word else ParseNumber(t)
  }

  /** The rest of `$env.get(name)` or `$env.get(name, default)`, after `$env`. */
  function ParseEnvGet(s: string, env: map<string, string>): (r: Parsed<Setting>)
    ensures r.Parsed? ==> |r.rest| < |s|
    decreases |s|, 0
  {
    var dot := Expect(s, ".");
    if dot.None? then Bad else
    var get := Expect(dot.value, "get");
    if get.None? then Bad else
    var open := Expect(get.value, "(");
    if open.None? then Bad else
    var name := ParseString(SkipSpace(open.value));
    if name.Bad? then Bad else ParseDefault(SkipSpace(name.rest), name.value, env)
  }

  function ParseDefault(s: string, key: string, env: map<string, string>): (r: Parsed<Setting>)
    ensures r.Parsed? ==> |r.rest| < |s|
    decreases |s|, 2
  {
    if Starts(s, ")") then Parsed(Lookup(env, key, Absent), s[1..])
    else if !Starts(s, ",") then Bad
    else
      var default := ParseExpr(s[1..], env);
      if default.Bad? then Bad
      else
        var close := Expect(default.rest, ")");
        if close.None? then Bad else Parsed(Lookup(env, key, default.value), close.value)
  }

  /** A whole expression: nothing but white space may follow. */
  function Parse(s: string, env: map<string, string>): Result<Setting> {
    var p := ParseExpr(s, env);
    if p.Parsed? && SkipSpace(p.rest) == "" then Ok(p.value) else Err
  }

  // ----- every written expression parses to its value -----

  /** What can follow an expression: nothing, white space, or the end of a call. */
  predicate Delimited(rest: string) {
    rest == "" || IsSpace(rest[0]) || rest[0] == ')'
  }

  lemma {:induction false} SkipGap(gap: string, t: string)
    requires AllSpace(gap) && (t == "" || !IsSpace(t[0]))
    ensures SkipSpace(gap + t) == t
    decreases |gap|
  {
    if gap == "" {
      assert gap + t == t;
    } else {
      assert gap[0] in gap && (gap + t)[1..] == gap[1..] + t;
      SkipGap(gap[1..], t);
    }
  }

  lemma {:induction false} BodyParses(body: string, quote: char, rest: string)
    requires Meaning(body, quote).Some? && quote != '\\'
    ensures ParseStringBody(body + ([quote] + rest), quote) == Parsed(Meaning(body, quote).value, rest)
    decreases |body|
  {
    var s := body + ([quote] + rest);
    if body == "" {
      assert s == [quote] + rest;
    } else if body[0] != '\\' {
      assert s[1..] == body[1..] + ([quote] + rest);
      BodyParses(body[1..], quote, rest);
    } else {
      assert s[1] == body[1] && s[2..] == body[2..] + ([quote] + rest);
      BodyParses(body[2..], quote, rest);
    }
  }

  lemma StringParses(t: StringText, rest: string)
    requires StringOk(t)
    ensures ParseString(StringSource(t) + rest) == Parsed(Meaning(t.body, t.quote).value, rest)
  {
    assert (StringSource(t) + rest)[1..] == t.body + ([t.quote] + rest);
    BodyParses(t.body, t.quote, rest);
  }

  lemma ExponentScans(x: Option<Exponent>, rest: string)
    requires (x.Some? ==> ExponentOk(x.value)) && Delimited(rest)
    ensures ScanExponent(ExponentText(x) + rest) == Parsed(x, rest)
  {
    if x.Some? {
      WrittenExponentScans(x.value, rest);
    } else {
      assert ExponentText(x) + rest == rest;
    }
  }

  lemma WrittenExponentScans(x: Exponent, rest: string)
    requires ExponentOk(x) && Delimited(rest)
    ensures ScanExponent(ExponentText(Some(x)) + rest) == Parsed(Some(x), rest)
  {
    var after := x.digits + rest;
    var body := x.sign + after;
    var s := [x.mark] + body;
    Associate(x.sign, x.digits, rest);
    Associate([x.mark], x.sign + x.digits, rest);
    assert s[1..] == body && s[0] == x.mark;
    ExponentDigitsScan(s, x, rest);
    assert after[0] == x.digits[0] && x.digits[0] in x.digits;
    SignScans(x.sign, after);
    assert body[|x.sign|..] == after;
  }

  lemma ExponentDigitsScan(s: string, x: Exponent, rest: string)
    requires s != "" && s[0] == x.mark && ExponentOk(x) && Delimited(rest)
    ensures ScanExponentDigits(s, x.sign, x.digits + rest) == Parsed(Some(x), rest)
  {
    DigitsScan(x.digits, rest);
    assert (x.digits + rest)[..|x.digits|] == x.digits && (x.digits + rest)[|x.digits|..] == rest;
  }

  lemma SignScans(sign: string, rest: string)
    requires (sign == "" || sign == "+" || sign == "-") && rest != "" && IsDigit(rest[0])
    ensures SignOf(sign + rest) == sign
  {
    if sign == "" {
      assert sign + rest == rest;
    } else {
      assert (sign + rest)[..1] == sign;
    }
  }

  lemma NumeralScans(n: Numeral, rest: string)
    requires NumeralOk(n) && Delimited(rest)
    ensures ScanNumeral(NumeralText(n) + rest) == Parsed(n, rest)
  {
    var body := UnsignedText(n) + rest;
    WholeScans(n, rest);
    if n.negative {
      Associate("-", UnsignedText(n), rest);
      assert ("-" + body)[1..] == body;
    } else {
      Associate("", UnsignedText(n), rest);
      NumeralStart(n, rest);
      assert "" + body == body;
    }
  }

  lemma WholeScans(n: Numeral, rest: string)
    requires NumeralOk(n) && Delimited(rest)
    ensures ScanWhole(n.negative, UnsignedText(n) + rest) == Parsed(n, rest)
  {
    var after := PointText(n) + (ExponentText(n.exponent) + rest);
    Associate(PointText(n), ExponentText(n.exponent), rest);
    Associate(n.whole, PointText(n) + ExponentText(n.exponent), rest);
    var s := n.whole + after;
    DigitsScan(n.whole, after);
    assert s[..|n.whole|] == n.whole && s[|n.whole|..] == after;
    PointScans(n, rest);
  }

  lemma PointScans(n: Numeral, rest: string)
    requires NumeralOk(n) && Delimited(rest)
    ensures ScanPoint(n.negative, n.whole, PointText(n) + (ExponentText(n.exponent) + rest)) == Parsed(n, rest)
  {
    var tail := ExponentText(n.exponent) + rest;
    ExponentScans(n.exponent, rest);
    if n.point {
      FractionScans(n, tail);
    } else {
      assert PointText(n) + tail == tail;
    }
  }

  lemma FractionScans(n: Numeral, tail: string)
    requires NumeralOk(n) && n.point && (tail == "" || !IsDigit(tail[0]))
    ensures var s := PointText(n) + tail;
            && Starts(s, ".") && DigitsLength(s[1..]) == |n.fraction|
            && s[1..][..|n.fraction|] == n.fraction && s[1..][|n.fraction|..] == tail
  {
    Associate(".", n.fraction, tail);
    assert ("." + (n.fraction + tail))[1..] == n.fraction + tail;
    DigitsScan(n.fraction, tail);
  }

  lemma WordParses(token: string, rest: string)
    requires WordValue(token).Some? && Delimited(rest)
    ensures ParseWord(token + rest, WORDS) == Parsed(WordValue(token).value, rest)
  {
    var s := token + rest;
    assert s[|token|..] == rest;
    assert WordEnds(s, token);
    assert token in WORDS;
    forall w | w in WORDS && w != token ensures !Starts(s, w) {
      assert s[0] == token[0] && s[1] == token[1];
    }
    OnlyWord(s, WORDS, token);
  }

  lemma {:induction false} OnlyWord(s: string, words: seq<string>, token: string)
    requires token in words && WordEnds(s, token)
    requires forall w :: w in words ==> WordValue(w).Some?
    requires forall w :: w in words && w != token ==> !Starts(s, w)
    ensures ParseWord(s, words) == Parsed(WordValue(token).value, s[|token|..])
    decreases |words|
  {
    if words[0] != token {
      OnlyWord(s, words[1..], token);
    }
  }

  lemma {:induction false} NoWord(s: string, words: seq<string>)
    requires forall w :: w in words ==> WordValue(w).Some? && !Starts(s, w)
    ensures ParseWord(s, words) == Bad
    decreases |words|
  {
    if words != [] {
      NoWord(s, words[1..]);
    }
  }

  /** An expression, after white space and before a delimiter, parses to its value and leaves the rest. */
  lemma {:induction false} ExprParses(e: Expr, gap: string, rest: string, env: map<string, string>)
    requires ExprOk(e) && AllSpace(gap) && Delimited(rest)
    ensures ParseExpr(gap + (Print(e) + rest), env) == Parsed(Eval(e, env), rest)
    decreases e, 1
  {
    hide ScanNumeral, NumeralText, ParseString, StringSource, NumeralOk, StringOk, Call;
    var t := Print(e) + rest;
    FirstChar(e, rest);
    SkipGap(gap, t);
    match e {
      case Number(n) =>
        NoWord(t, WORDS);
        NumeralScans(n, rest);
      case Word(token) => WordParses(token, rest);
      case Quoted(text) => StringParses(text, rest);
      case EnvGet(gaps, name, default) =>
        assert t[4..] == Call(gaps, name, default) + rest;
        CallParses(gaps, name, default, rest, env);
    }
  }

  /** The first character tells the four kinds of expression apart. */
  lemma FirstChar(e: Expr, rest: string)
    requires ExprOk(e)
    ensures var t := Print(e) + rest;
            && t != "" && !IsSpace(t[0])
            && (e.EnvGet? <==> t[0] == '$') && (e.Quoted? <==> IsQuote(t[0]))
            && (e.Number? ==> IsDigit(t[0]) || t[0] == '-' || t[0] == '.')
  {
    match e {
      case Number(n) => NumeralStart(n, rest);
      case Word(token) =>
      case Quoted(text) =>
      case EnvGet(_, _, _) =>
    }
  }

  lemma NumeralStart(n: Numeral, rest: string)
    requires NumeralOk(n)
    ensures var t := NumeralText(n) + rest;
            t != "" && (IsDigit(t[0]) || t[0] == '-' || t[0] == '.')
  {
    if n.whole != "" {
      assert n.whole[0] in n.whole;
    }
  }

  lemma ExpectParses(gap: string, token: string, rest: string)
    requires AllSpace(gap) && token != "" && !IsSpace(token[0])
    ensures Expect(gap + (token + rest), token) == Some(rest)
  {
    SkipGap(gap, token + rest);
    assert (token + rest)[|token|..] == rest;
  }

  lemma {:induction false} CallParses(
    gaps: Gaps, name: StringText, default: Default, rest: string, env: map<string, string>)
    requires ExprOk(EnvGet(gaps, name, default)) && Delimited(rest)
    ensures ParseEnvGet(Call(gaps, name, default) + rest, env) == Parsed(Eval(EnvGet(gaps, name, default), env), rest)
    decreases default, 3
  {
    var close := Close(default) + rest;
    var named := gaps.afterOpen + (StringSource(name) + (gaps.afterName + close));
    var open := gaps.afterGet + ("(" + named);
    var get := gaps.afterDot + ("get" + open);
    CallText(gaps, name, default, rest);
    ExpectParses(gaps.afterEnv, ".", get);
    ExpectParses(gaps.afterDot, "get", open);
    ExpectParses(gaps.afterGet, "(", named);
    SkipGap(gaps.afterOpen, StringSource(name) + (gaps.afterName + close));
    StringParses(name, gaps.afterName + close);
    SkipGap(gaps.afterName, close);
    DefaultParses(default, Meaning(name.body, name.quote).value, rest, env);
  }

  lemma {:induction false} DefaultParses(default: Default, key: string, rest: string, env: map<string, string>)
    requires default.Default? ==> AllSpace(default.before) && ExprOk(default.expr) && AllSpace(default.after)
    ensures ParseDefault(Close(default) + rest, key, env)
         == Parsed(Lookup(env, key, if default.Default? then Eval(default.expr, env) else Absent), rest)
    decreases default, 2
  {
    var s := Close(default) + rest;
    if default.Default? {
      var after := default.after + (")" + rest);
      assert s[1..] == default.before + (Print(default.expr) + after);
      assert Delimited(after) by {
        if default.after != "" {
          assert default.after[0] in default.after;
        }
      }
      ExprParses(default.expr, default.before, after, env);
      ExpectParses(default.after, ")", rest);
    } else {
      assert s[1..] == rest;
    }
  }

  // ----- whatever parses was written as an expression -----

  lemma {:induction false} SkipIsGap(s: string) returns (gap: string)
    ensures AllSpace(gap) && s == gap + SkipSpace(s)
    decreases |s|
  {
    if s != "" && IsSpace(s[0]) {
      var more := SkipIsGap(s[1..]);
      gap := [s[0]] + more;
      SplitAt(s, 1);
      Associate([s[0]], more, SkipSpace(s));
    } else {
      gap := "";
    }
  }

  lemma {:induction false} BodyIsWritten(s: string, quote: char) returns (body: string)
    requires ParseStringBody(s, quote).Parsed?
    ensures var p := ParseStringBody(s, quote);
            s == body + ([quote] + p.rest) && Meaning(body, quote) == Some(p.value)
    decreases |s|
  {
    if s[0] == quote {
      body := "";
      SplitAt(s, 1);
    } else {
      var k := if s[0] == '\\' then 2 else 1;
      var more := BodyIsWritten(s[k..], quote);
      body := s[..k] + more;
      SplitAt(s, k);
      Associate(s[..k], more, [quote] + ParseStringBody(s, quote).rest);
      assert body[k..] == more && body[..k] == s[..k];
    }
  }

  lemma StringIsWritten(s: string) returns (t: StringText)
    requires ParseString(s).Parsed?
    ensures StringOk(t) && s == StringSource(t) + ParseString(s).rest
    ensures Meaning(t.body, t.quote) == Some(ParseString(s).value)
  {
    var body := BodyIsWritten(s[1..], s[0]);
    t := StringText(s[0], body);
    SplitAt(s, 1);
    Associate(body, [s[0]], ParseString(s).rest);
    Associate([s[0]], body + [s[0]], ParseString(s).rest);
  }

  lemma ExpectIsWritten(s: string, token: string) returns (gap: string)
    requires token != "" && Expect(s, token).Some?
    ensures AllSpace(gap) && s == gap + (token + Expect(s, token).value)
  {
    gap := SkipIsGap(s);
    SplitAt(SkipSpace(s), |token|);
  }

  lemma {:induction false} WordIsWritten(s: string, words: seq<string>) returns (token: string)
    requires forall w :: w in words ==> WordValue(w).Some?
    requires ParseWord(s, words).Parsed?
    ensures WordValue(token) == Some(ParseWord(s, words).value) && s == token + ParseWord(s, words).rest
    decreases |words|
  {
    if WordEnds(s, words[0]) {
      token := words[0];
      SplitAt(s, |token|);
    } else {
      token := WordIsWritten(s, words[1..]);
    }
  }

  lemma {:induction false} ExprIsWritten(s: string, env: map<string, string>) returns (gap: string, e: Expr)
    requires ParseExpr(s, env).Parsed?
    ensures AllSpace(gap) && ExprOk(e) && s == gap + (Print(e) + ParseExpr(s, env).rest)
    ensures Eval(e, env) == ParseExpr(s, env).value
    decreases |s|, 3
  {
    gap := SkipIsGap(s);
    e := TermIsWritten(SkipSpace(s), env);
  }

  lemma {:induction false} TermIsWritten(t: string, env: map<string, string>) returns (e: Expr)
    requires ParseTerm(t, env).Parsed?
    ensures ExprOk(e) && t == Print(e) + ParseTerm(t, env).rest && Eval(e, env) == ParseTerm(t, env).value
    decreases |t|, 1
  {
    if Starts(t, "$env") {
      e := EnvGetIsWritten(t, env);
    } else {
      e := LiteralIsWritten(t, ParseLiteral(t), env);
    }
  }

  lemma LiteralIsWritten(t: string, p: Parsed<Setting>, env: map<string, string>) returns (e: Expr)
    requires p == ParseLiteral(t) && p.Parsed?
    ensures !e.EnvGet? && ExprOk(e) && t == Print(e) + p.rest && Eval(e, env) == p.value
  {
    hide Starts, ParseWord, ParseNumber, ParseString, NumeralOk, NumeralText, StringOk, StringSource;
    if t != "" && IsQuote(t[0]) {
      e := QuotedIsWritten(t);
    } else if ParseWord(t, WORDS).Parsed? {
      var token := WordIsWritten(t, WORDS);
      e := Word(token);
    } else {
      e := NumberIsWritten(t);
    }
  }

  lemma QuotedIsWritten(t: string) returns (e: Expr)
    requires ParseString(t).Parsed?
    ensures e.Quoted? && StringOk(e.text) && t == StringSource(e.text) + ParseString(t).rest
    ensures Meaning(e.text.body, e.text.quote) == Some(ParseString(t).value)
  {
    var text := StringIsWritten(t);
    e := Quoted(text);
  }

  lemma NumberIsWritten(t: string) returns (e: Expr)
    requires ParseNumber(t).Parsed?
    ensures e.Number? && NumeralOk(e.numeral) && t == NumeralText(e.numeral) + ParseNumber(t).rest
    ensures NumeralValue(e.numeral) == ParseNumber(t).value
  {
    ScanIsWritten(t);
    e := Number(ScanNumeral(t).value);
  }

  lemma {:induction false} EnvGetIsWritten(t: string, env: map<string, string>) returns (e: Expr)
    requires Starts(t, "$env") && ParseEnvGet(t[4..], env).Parsed?
    ensures e.EnvGet? && ExprOk(e) && t == Print(e) + ParseEnvGet(t[4..], env).rest
    ensures Eval(e, env) == ParseEnvGet(t[4..], env).value
    decreases |t|, 0
  {
    var gaps, name, default := CallIsWritten(t[4..], env);
    e := EnvGet(gaps, name, default);
    SplitAt(t, 4);
    Associate("$env", Call(gaps, name, default), ParseEnvGet(t[4..], env).rest);
  }

  lemma {:induction false} CallIsWritten(s: string, env: map<string, string>)
    returns (gaps: Gaps, name: StringText, default: Default)
    requires ParseEnvGet(s, env).Parsed?
    ensures ExprOk(EnvGet(gaps, name, default)) && s == Call(gaps, name, default) + ParseEnvGet(s, env).rest
    ensures Eval(EnvGet(gaps, name, default), env) == ParseEnvGet(s, env).value
    decreases |s|, 0
  {
    var dot := Expect(s, ".").value;
    var get := Expect(dot, "get").value;
    var open := Expect(get, "(").value;
    var afterEnv := ExpectIsWritten(s, ".");
    var afterDot := ExpectIsWritten(dot, "get");
    var afterGet := ExpectIsWritten(get, "(");
    var afterOpen := SkipIsGap(open);
    name := StringIsWritten(SkipSpace(open));
    var named := ParseString(SkipSpace(open));
    var afterName := SkipIsGap(named.rest);
    default := DefaultIsWritten(SkipSpace(named.rest), named.value, env);
    gaps := Gaps(afterEnv, afterDot, afterGet, afterOpen, afterName);
    CallText(gaps, name, default, ParseEnvGet(s, env).rest);
  }

  /** A call and what follows it, with what follows moved all the way in. */
  lemma CallText(gaps: Gaps, name: StringText, default: Default, rest: string)
    ensures Call(gaps, name, default) + rest
         == gaps.afterEnv + ("." + (gaps.afterDot + ("get" + (gaps.afterGet + ("(" + (gaps.afterOpen +
              (StringSource(name) + (gaps.afterName + (Close(default) + rest)))))))))
  {
    var a8 := gaps.afterName + Close(default);
    var a7 := StringSource(name) + a8;
    var a6 := gaps.afterOpen + a7;
    var a5 := "(" + a6;
    var a4 := gaps.afterGet + a5;
    var a3 := "get" + a4;
    var a2 := gaps.afterDot + a3;
    var a1 := "." + a2;
    Associate(gaps.afterEnv, a1, rest);
    Associate(".", a2, rest);
    Associate(gaps.afterDot, a3, rest);
    Associate("get", a4, rest);
    Associate(gaps.afterGet, a5, rest);
    Associate("(", a6, rest);
    Associate(gaps.afterOpen, a7, rest);
    Associate(StringSource(name), a8, rest);
    Associate(gaps.afterName, Close(default), rest);
  }

  lemma {:induction false} DefaultIsWritten(s: string, key: string, env: map<string, string>) returns (default: Default)
    requires ParseDefault(s, key, env).Parsed?
    ensures default.Default? ==> AllSpace(default.before) && ExprOk(default.expr) && AllSpace(default.after)
    ensures s == Close(default) + ParseDefault(s, key, env).rest
    ensures ParseDefault(s, key, env).value
         == Lookup(env, key, if default.Default? then Eval(default.expr, env) else Absent)
    decreases |s|, 2
  {
    SplitAt(s, 1);
    if Starts(s, ")") {
      default := NoDefault;
    } else {
      var parsed := ParseExpr(s[1..], env);
      var before, e := ExprIsWritten(s[1..], env);
      var after := ExpectIsWritten(parsed.rest, ")");
      var rest := Expect(parsed.rest, ")").value;
      default := Default(before, e, after);
      Associate(after, ")", rest);
      Associate(Print(e), after + ")", rest);
      Associate(before, Print(e) + (after + ")"), rest);
      Associate(",", before + (Print(e) + (after + ")")), rest);
    }
  }

  // ----- the parser is exact -----

  /** `s` is an expression of the language in white space, with the value `v`. */
  ghost predicate Denotes(s: string, env: map<string, string>, v: Setting) {
    exists before, e, after ::
      AllSpace(before) && ExprOk(e) && AllSpace(after) && s == before + (Print(e) + after) && v == Eval(e, env)
  }

  /** The parser accepts exactly the written expressions, and gives each its own value. */
  lemma ParserIsExact(s: string, env: map<string, string>, v: Setting)
    ensures Parse(s, env) == Ok(v) <==> Denotes(s, env, v)
  {
    if Parse(s, env) == Ok(v) {
      var before, e := ExprIsWritten(s, env);
      var after := SkipIsGap(ParseExpr(s, env).rest);
      assert after + "" == after;
    }
    if Denotes(s, env, v) {
      var before, e, after :| AllSpace(before) && ExprOk(e) && AllSpace(after)
                              && s == before + (Print(e) + after) && v == Eval(e, env);
      PrintedParses(before, e, after, env);
    }
  }

  /** Printing then parsing gives back the value, whatever white space and quoting was used. */
  lemma PrintedParses(before: string, e: Expr, after: string, env: map<string, string>)
    requires AllSpace(before) && ExprOk(e) && AllSpace(after)
    ensures Parse(before + (Print(e) + after), env) == Ok(Eval(e, env))
  {
    assert Delimited(after) by {
      if after != "" {
        assert after[0] in after;
      }
    }
    ExprParses(e, before, after, env);
    SkipGap(after, "");
    assert after + "" == after;
  }

  /** Whether a text is an expression does not depend on the environment. */
  lemma EnvironmentDoesNotMatter(s: string, env: map<string, string>, other: map<string, string>)
    ensures Parse(s, env).Ok? <==> Parse(s, other).Ok?
  {
    if Parse(s, env).Ok? {
      ParserIsExact(s, env, Parse(s, env).value);
      var before, e, after :| AllSpace(before) && ExprOk(e) && AllSpace(after) && s == before + (Print(e) + after);
      PrintedParses(before, e, after, other);
    }
    if Parse(s, other).Ok? {
      ParserIsExact(s, other, Parse(s, other).value);
      var before, e, after :| AllSpace(before) && ExprOk(e) && AllSpace(after) && s == before + (Print(e) + after);
      PrintedParses(before, e, after, env);
    }
  }

  // ----- the parser object -----

  /** A step of the parser did what the corresponding function says: its value, and the text left. */
  ghost predicate Did<T>(r: Result<T>, p: Parsed<T>, rest: string) {
    if p.Parsed? then r == Ok(p.value) && rest == p.rest else r.Err?
  }

  class ExpressionParser {
    const expression: string
    const env: map<string, string>
    var position: nat

    ghost predicate Valid()
      reads this
    {
      position <= |expression|
    }

    /** The text still to be read. */
    ghost function Rest(): string
      reads this
      requires Valid()
    {
      expression[position..]
    }

    constructor (expression: string, env: map<string, string>)
      ensures Valid() && this.expression == expression && this.env == env && Rest() == expression
    {
      this.expression, this.env, position := expression, env, 0;
    }

    method Run() returns (r: Result<Setting>)
      requires Valid()
      modifies this
      ensures r == Parse(old(Rest()), env)
    {
      r := ParseExpression();
      if r.Ok? {
        SkipWhitespace();
        if position != |expression| {
          return Err;
        }
      }
    }

    method SkipWhitespace()
      requires Valid()
      modifies this
      ensures Valid() && Rest() == SkipSpace(old(Rest())) && position >= old(position)
    {
      while position < |expression| && IsSpace(expression[position])
        invariant old(position) <= position <= |expression|
        invariant SkipSpace(expression[position..]) == SkipSpace(old(Rest()))
      {
        assert expression[position..][1..] == expression[position + 1..];
        position := position + 1;
      }
    }

    method Consume(token: string) returns (ok: bool)
      requires Valid() && token != ""
      modifies this
      ensures Valid() && ok == Starts(old(Rest()), token)
      ensures Rest() == if ok then old(Rest())[|token|..] else old(Rest())
      ensures if ok then position > old(position) else position == old(position)
    {
      ok := position + |token| <= |expression| && expression[position..position + |token|] == token;
      if ok {
        assert expression[position..][|token|..] == expression[position + |token|..];
        position := position + |token|;
      }
    }

    /** White space, then a token that must be there. */
    method ExpectToken(token: string) returns (ok: bool)
      requires Valid() && token != ""
      modifies this
      ensures Valid() && ok == Expect(old(Rest()), token).Some?
      ensures ok ==> Rest() == Expect(old(Rest()), token).value && position > old(position)
    {
      SkipWhitespace();
      ok := Consume(token);
    }

    method ParseQuoted() returns (r: Result<string>)
      requires Valid()
      modifies this
      ensures Valid() && Did(r, ParseString(old(Rest())), Rest())
      ensures r.Ok? ==> position > old(position)
    {
      if position == |expression| || !IsQuote(expression[position]) {
        return Err;
      }
      var quote := expression[position];
      ghost var start := old(Rest())[1..];
      position := position + 1;
      assert expression[position..] == start;
      var value := "";
      assert Resumes(start, quote, value, start) by {
        var whole := ParseStringBody(start, quote);
        if whole.Parsed? {
          assert "" + whole.value == whole.value;
        }
      }
      while position < |expression|
        invariant old(position) < position <= |expression|
        invariant Resumes(start, quote, value, expression[position..])
      {
        var c := expression[position];
        ghost var rest := expression[position..];
        position := position + 1;
        assert rest[1..] == expression[position..];
        if c == quote {
          assert value + "" == value;
          return Ok(value);
        }
        if c != '\\' {
          PushChar(start, quote, value, rest);
          value := value + [c];
        } else {
          if position == |expression| || Unescaped(expression[position]).None? {
            return Err;
          }
          PushChar(start, quote, value, rest);
          assert rest[2..] == expression[position + 1..];
          value := value + [Unescaped(expression[position]).value];
          position := position + 1;
        }
      }
      return Err;
    }

    method ParseWordLiteral() returns (r: Result<Setting>)
      requires Valid()
      modifies this
      ensures Valid() && Did(r, ParseWord(old(Rest()), WORDS), Rest())
      ensures if r.Ok? then position > old(position) else position == old(position)
    {
      var s := expression[position..];
      var words := WORDS;
      while words != []
        invariant forall w :: w in words ==> WordValue(w).Some?
        invariant ParseWord(s, words) == ParseWord(s, WORDS)
        decreases |words|
      {
        var token := words[0];
        if Starts(s, token) && (|s| == |token| || !IsWord(s[|token|])) {
          assert s[|token|..] == expression[position + |token|..];
          position := position + |token|;
          return Ok(WordValue(token).value);
        }
        words := words[1..];
      }
      return Err;
    }

    method ParseNumeral() returns (r: Result<Setting>)
      requires Valid()
      modifies this
      ensures Valid() && Did(r, ParseNumber(old(Rest())), Rest())
      ensures r.Ok? ==> position > old(position)
    {
      var s := expression[position..];
      var p := ParseNumber(s);
      if p.Bad? {
        return Err;
      }
      ScanIsWritten(s);
      assert s[|s| - |p.rest|..] == p.rest;
      position := |expression| - |p.rest|;
      assert expression[position..] == s[|s| - |p.rest|..];
      return Ok(p.value);
    }

    method ParseExpression() returns (r: Result<Setting>)
      requires Valid()
      modifies this
      ensures Valid() && Did(r, ParseExpr(old(Rest()), env), Rest())
      decreases |expression| - position, 1
    {
      SkipWhitespace();
      var s := expression[position..];
      if Starts(s, "$env") {
        r := ParseGet();
      } else if s != "" && IsQuote(s[0]) {
        var text := ParseQuoted();
        r := if text.Ok? then Ok(Text(text.value)) else Err;
      } else {
        r := ParseWordLiteral();
        if r.Err? {
          r := ParseNumeral();
        }
      }
    }

    method ParseGet() returns (r: Result<Setting>)
      requires Valid() && Starts(Rest(), "$env")
      modifies this
      ensures Valid() && Did(r, ParseEnvGet(old(Rest())[4..], env), Rest())
      decreases |expression| - position, 0
    {
      var ok := Consume("$env");
      ok := ExpectToken(".");
      if !ok {
        return Err;
      }
      ok := ExpectToken("get");
      if !ok {
        return Err;
      }
      ok := ExpectToken("(");
      if !ok {
        return Err;
      }
      SkipWhitespace();
      var name := ParseQuoted();
      if name.Err? {
        return Err;
      }
      SkipWhitespace();
      r := ParseClosing(name.value);
    }

    method ParseClosing(key: string) returns (r: Result<Setting>)
      requires Valid()
      modifies this
      ensures Valid() && Did(r, ParseDefault(old(Rest()), key, env), Rest())
      decreases |expression| - position, 2
    {
      var ok := Consume(")");
      if ok {
        return Ok(if key in env then Text(env[key]) else Absent);
      }
      ok := Consume(",");
      if !ok {
        return Err;
      }
      var default := ParseExpression();
      if default.Err? {
        return Err;
      }
      ok := ExpectToken(")");
      if !ok {
        return Err;
      }
      return Ok(if key in env then Text(env[key]) else default.value);
    }
  }

  /** Having read `value`, the string goes on as `rest` does. */
  ghost predicate Resumes(start: string, quote: char, value: string, rest: string) {
    var whole, more := ParseStringBody(start, quote), ParseStringBody(rest, quote);
    if more.Parsed? then whole == Parsed(value + more.value, more.rest) else whole == Bad
  }

  lemma PushChar(start: string, quote: char, value: string, rest: string)
    requires Resumes(start, quote, value, rest) && rest != "" && rest[0] != quote
    ensures rest[0] != '\\' ==> Resumes(start, quote, value + [rest[0]], rest[1..])
    ensures rest[0] == '\\' && |rest| > 1 && Unescaped(rest[1]).Some? ==>
              Resumes(start, quote, value + [Unescaped(rest[1]).value], rest[2..])
  {
    if rest[0] != '\\' {
      var more := ParseStringBody(rest[1..], quote);
      if more.Parsed? {
        Associate(value, [rest[0]], more.value);
      }
    } else if |rest| > 1 && Unescaped(rest[1]).Some? {
      var more := ParseStringBody(rest[2..], quote);
      if more.Parsed? {
        Associate(value, [Unescaped(rest[1]).value], more.value);
      }
    }
  }
}
