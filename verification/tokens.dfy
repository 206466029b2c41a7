/** The ordered first-match tokenizer shared by `lexer.py` and `Lexer.py`.

    Both files scan the stripped source with a table of (token type, regex)
    rules: at each position the FIRST rule in table order whose pattern matches
    a prefix produces the token (first match, not longest match), the matched
    text is cut off, leading whitespace is skipped, and a position no rule
    matches is a lexical failure. The output always ends with one EOF token
    whose value is `None`.

    The regexes of both tables are of four shapes, modelled by `Pattern`:
    literal alternations `a|b|c` (tried left to right), the identifier class
    `[a-zA-Z_][a-zA-Z0-9_]*`, the number `\d+(\.\d+)?([eE][+-]?\d+)?` and a
    one-character class such as `[();{},.]`. */
module Tokens {
  import opened Results
  import opened Strings

  /** The union of the token types of both tokenizers; `lexer.py` never uses
      ConditionalKeyword, LoopKeyword or Operator. */
  datatype TokenType =
    | Identifier | Number | ComponentKeyword | ConnectKeyword | SubcircuitKeyword
    | SimulateKeyword | ConditionalKeyword | LoopKeyword | Operator | Symbol | Unit
    | Keyword | Eof

  /** A token carries its type and the matched text; the EOF token's value is `None`. */
  datatype Token = Token(kind: TokenType, value: Option<string>)

  const EofToken := Token(Eof, None)

  datatype Pattern =
    | Words(alternatives: seq<string>)   // `w1|w2|...`: the first alternative that is a prefix
    | IdentifierPattern                  // `[a-zA-Z_][a-zA-Z0-9_]*`
    | NumberPattern                      // `\d+(\.\d+)?([eE][+-]?\d+)?`
    | OneOf(chars: string)               // a one-character class `[...]`

  datatype Rule = Rule(kind: TokenType, pattern: Pattern)

  // ---------------------------------------------------------------------------
  // What a full match of each pattern looks like

  /** `w` is a prefix of `s`. The first-character test is implied by the
      slice equality; it is spelled out so that a mismatch there is immediate. */
  predicate IsPrefix(w: string, s: string) {
    |w| <= |s| && (|w| == 0 || w[0] == s[0]) && s[..|w|] == w
  }

  predicate IsIdentStart(c: char) {
    IsLetter(c) || c == '_'
  }

  predicate IsIdentChar(c: char) {
    IsIdentStart(c) || IsDigit(c)
  }

  predicate IsIdentifierLexeme(t: string) {
    |t| > 0 && IsIdentStart(t[0]) && forall i :: 1 <= i < |t| ==> IsIdentChar(t[i])
  }

  /** `\d+` */
  predicate DigitRun(t: string) {
    |t| > 0 && forall i :: 0 <= i < |t| ==> IsDecimalDigit(t[i])
  }

  predicate IsExponentMark(c: char) {
    c == 'e' || c == 'E'
  }

  predicate IsSign(c: char) {
    c == '+' || c == '-'
  }

  /** `(\.\d+)?` */
  predicate FractionPart(t: string) {
    |t| == 0 || (t[0] == '.' && DigitRun(t[1..]))
  }

  /** `([eE][+-]?\d+)?` */
  predicate ExponentPart(t: string) {
    |t| == 0
    || (|t| > 1 && IsExponentMark(t[0])
        && (DigitRun(t[1..]) || (IsSign(t[1]) && DigitRun(t[2..]))))
  }

  /** `\d+(\.\d+)?([eE][+-]?\d+)?` matches the whole of `t`. */
  predicate IsNumberLexeme(t: string) {
    exists a, b :: 0 < a <= b <= |t| && DigitRun(t[..a]) && FractionPart(t[a..b]) && ExponentPart(t[b..])
  }

  /** The text `t` is a complete match of pattern `p`. */
  predicate Fits(p: Pattern, t: string) {
    match p
    case Words(ws) => t in ws
    case IdentifierPattern => IsIdentifierLexeme(t)
    case NumberPattern => IsNumberLexeme(t)
    case OneOf(cs) => |t| == 1 && t[0] in cs
  }

  /** Some match of `p` can start at the beginning of `s`. */
  predicate CanStart(p: Pattern, s: string) {
    match p
    case Words(ws) => exists k :: 0 <= k < |ws| && IsPrefix(ws[k], s)
    case IdentifierPattern => |s| > 0 && IsIdentStart(s[0])
    case NumberPattern => |s| > 0 && IsDecimalDigit(s[0])
    case OneOf(cs) => |s| > 0 && s[0] in cs
  }

  /** Every match of a valid pattern is non-empty and free of whitespace. */
  predicate ValidPattern(p: Pattern) {
    match p
    case Words(ws) => forall k :: 0 <= k < |ws| ==> |ws[k]| > 0 && NoWhitespace(ws[k])
    case OneOf(cs) => NoWhitespace(cs)
    case _ => true
  }

  /** An alternation of non-empty words made of letters is a valid pattern. */
  lemma WordsValid(ws: seq<string>)
    requires forall k :: 0 <= k < |ws| ==> IsIdentifierLexeme(ws[k])
    ensures ValidPattern(Words(ws))
  {
    forall k, i | 0 <= k < |ws| && 0 <= i < |ws[k]|
      ensures !IsWhitespace(ws[k][i])
    {
      assert IsIdentChar(ws[k][i]);
    }
  }

  /** Both tables of the source are valid: no rule produces EOF, and every
      rule's matches are non-empty and free of whitespace (a rule that could
      match the empty string would make `tokenize` loop forever). */
  predicate ValidTable(rules: seq<Rule>) {
    forall k :: 0 <= k < |rules| ==> rules[k].kind != Eof && ValidPattern(rules[k].pattern)
  }

  // ---------------------------------------------------------------------------
  // Prefix matchers

  /** End of the maximal run of digits starting at `i`. */
  function DigitsEnd(s: string, i: nat): (r: nat)
    requires i <= |s|
    ensures i <= r <= |s|
    ensures forall j :: i <= j < r ==> IsDecimalDigit(s[j])
    ensures r == |s| || !IsDecimalDigit(s[r])
    decreases |s| - i
  {
    if i < |s| && IsDecimalDigit(s[i]) then DigitsEnd(s, i + 1) else i
  }

  /** End of the maximal run of identifier characters starting at `i`. */
  function IdentEnd(s: string, i: nat): (r: nat)
    requires i <= |s|
    ensures i <= r <= |s|
    ensures forall j :: i <= j < r ==> IsIdentChar(s[j])
    ensures r == |s| || !IsIdentChar(s[r])
    decreases |s| - i
  {
    if i < |s| && IsIdentChar(s[i]) then IdentEnd(s, i + 1) else i
  }

  /** A literal alternation: the length of the first alternative that is a prefix. */
  function MatchWords(ws: seq<string>, s: string): (r: Option<nat>)
    ensures r.Some? ==> r.value <= |s|
  {
    if |ws| == 0 then None
    else if IsPrefix(ws[0], s) then Some(|ws[0]|)
    else MatchWords(ws[1..], s)
  }

  /** The alternation matches exactly when some alternative is a prefix, and
      then with the first such alternative in list order. */
  lemma {:induction false} MatchWordsSound(ws: seq<string>, s: string)
    ensures MatchWords(ws, s).Some? <==> exists k :: 0 <= k < |ws| && IsPrefix(ws[k], s)
    ensures MatchWords(ws, s).Some? ==>
      exists k :: 0 <= k < |ws| && IsPrefix(ws[k], s) && MatchWords(ws, s).value == |ws[k]|
                  && forall j :: 0 <= j < k ==> !IsPrefix(ws[j], s)
  {
    if |ws| > 0 && !IsPrefix(ws[0], s) {
      MatchWordsSound(ws[1..], s);
      assert forall k :: 1 <= k < |ws| ==> ws[k] == ws[1..][k - 1];
      if MatchWords(ws, s).Some? {
        var k :| 0 <= k < |ws[1..]| && IsPrefix(ws[1..][k], s) && MatchWords(ws, s).value == |ws[1..][k]|
                 && forall j :: 0 <= j < k ==> !IsPrefix(ws[1..][j], s);
        assert IsPrefix(ws[k + 1], s);
      }
    }
  }

  /** Where the optional exponent `([eE][+-]?\d+)?` starting at `b` ends. */
  function ExponentEnd(s: string, b: nat): (r: nat)
    requires b <= |s|
    ensures b <= r <= |s|
  {
    if b + 1 < |s| && IsExponentMark(s[b]) then
      if IsDecimalDigit(s[b + 1]) then DigitsEnd(s, b + 1)
      else if b + 2 < |s| && IsSign(s[b + 1]) && IsDecimalDigit(s[b + 2]) then DigitsEnd(s, b + 2)
      else b
    else b
  }

  /** Where the optional fraction `(\.\d+)?` starting at `a` ends. */
  function FractionEnd(s: string, a: nat): (r: nat)
    requires a <= |s|
    ensures a <= r <= |s|
  {
    if a + 1 < |s| && s[a] == '.' && IsDecimalDigit(s[a + 1]) then DigitsEnd(s, a + 1) else a
  }

  /** The greedy regex match of `\d+(\.\d+)?([eE][+-]?\d+)?`. */
  function MatchNumber(s: string): Option<nat> {
    if |s| == 0 || !IsDecimalDigit(s[0]) then None
    else Some(ExponentEnd(s, FractionEnd(s, DigitsEnd(s, 0))))
  }

  /** The length of the prefix of `s` that pattern `p` matches, if any. */
  function MatchLen(p: Pattern, s: string): (r: Option<nat>)
    ensures r.Some? ==> r.value <= |s|
  {
    match p
    case Words(ws) => MatchWords(ws, s)
    case IdentifierPattern =>
      if |s| > 0 && IsIdentStart(s[0]) then Some(IdentEnd(s, 1)) else None
    case NumberPattern =>
      MatchNumber(s)
    case OneOf(cs) =>
      if |s| > 0 && s[0] in cs then Some(1) else None
  }

  /** A pattern matches exactly when a match can start at the front of `s`;
      the matched prefix is a complete match of the pattern (whitespace-free
      for a valid pattern), and an identifier match cannot be extended. */
  lemma MatchLenSound(p: Pattern, s: string)
    ensures MatchLen(p, s).Some? <==> CanStart(p, s)
    ensures MatchLen(p, s).Some? ==> Fits(p, s[..MatchLen(p, s).value])
    ensures MatchLen(p, s).Some? && ValidPattern(p) ==>
      MatchLen(p, s).value > 0 && NoWhitespace(s[..MatchLen(p, s).value])
    ensures MatchLen(p, s).Some? && p == IdentifierPattern ==>
      MatchLen(p, s).value == |s| || !IsIdentChar(s[MatchLen(p, s).value])
  {
    var r := MatchLen(p, s);
    match p
    case Words(ws) =>
      MatchWordsSound(ws, s);
      if r.Some? {
        var k :| 0 <= k < |ws| && IsPrefix(ws[k], s) && r.value == |ws[k]|;
        assert s[..r.value] == ws[k];
      }
    case IdentifierPattern =>
      if r.Some? {
        var n := r.value;
        assert forall i :: 1 <= i < n ==> s[..n][i] == s[i];
      }
    case NumberPattern =>
      if r.Some? {
        NumberMatchFits(s);
        NumberLexemeIsSolid(s[..r.value]);
      }
    case OneOf(cs) =>
  }

  // ---------------------------------------------------------------------------
  // The greedy number match is a lexeme, and the longest one

  lemma DigitRunOfRange(s: string, i: nat, j: nat)
    requires i < j <= |s|
    requires forall k :: i <= k < j ==> IsDecimalDigit(s[k])
    ensures DigitRun(s[i..j])
  {
    assert forall k :: 0 <= k < j - i ==> s[i..j][k] == s[i + k];
  }

  lemma PrefixSlice(s: string, n: nat, i: nat, j: nat)
    requires i <= j <= n <= |s|
    ensures s[..n][i..j] == s[i..j]
  {
    assert forall k :: 0 <= k < j - i ==> s[..n][i..j][k] == s[i + k];
  }

  /** The greedy match of a digit-initial string is a NUMBER lexeme. */
  lemma NumberMatchFits(s: string)
    requires MatchNumber(s).Some?
    ensures IsNumberLexeme(s[..MatchNumber(s).value])
  {
    var a := DigitsEnd(s, 0);
    var b := FractionEnd(s, a);
    var n := ExponentEnd(s, b);
    var t := s[..n];
    DigitRunOfRange(s, 0, a);
    PrefixSlice(s, n, 0, a);
    PrefixSlice(s, n, a, b);
    PrefixSlice(s, n, b, n);
    assert t[..a] == t[0..a] && t[b..] == t[b..n];
    if b > a {
      DigitRunOfRange(s, a + 1, b);
      assert s[a..b][1..] == s[a + 1..b];
    }
    assert FractionPart(t[a..b]);
    ExponentEndFits(s, b);
    assert ExponentPart(t[b..]);
  }

  lemma ExponentEndFits(s: string, b: nat)
    requires b <= |s|
    ensures ExponentPart(s[b..ExponentEnd(s, b)])
  {
    var n := ExponentEnd(s, b);
    if n > b {
      var e := s[b..n];
      if IsDecimalDigit(s[b + 1]) {
        DigitRunOfRange(s, b + 1, n);
        assert e[1..] == s[b + 1..n];
      } else {
        DigitRunOfRange(s, b + 2, n);
        assert e[2..] == s[b + 2..n];
      }
    }
  }

  lemma NumberLexemeIsSolid(t: string)
    requires IsNumberLexeme(t)
    ensures |t| > 0 && NoWhitespace(t)
  {
    var a, b :| 0 < a <= b <= |t| && DigitRun(t[..a]) && FractionPart(t[a..b]) && ExponentPart(t[b..]);
    forall i | 0 <= i < |t|
      ensures !IsWhitespace(t[i])
    {
      if i < a {
        assert t[..a][i] == t[i];
      } else if i < b {
        assert t[a..b][i - a] == t[i];
      } else {
        assert t[b..][i - b] == t[i];
      }
    }
  }

  /** A run of digits from `i` that reaches `j` is no longer than the maximal run. */
  lemma {:induction false} DigitsEndCovers(s: string, i: nat, j: nat)
    requires i <= j <= |s|
    requires forall k :: i <= k < j ==> IsDecimalDigit(s[k])
    ensures j <= DigitsEnd(s, i)
    decreases j - i
  {
    if i < j {
      DigitsEndCovers(s, i + 1, j);
    }
  }

  /** The three parts of a NUMBER lexeme occupying `s[..m]`. */
  predicate NumberParts(s: string, m: nat, a: nat, b: nat) {
    && 0 < a <= b <= m <= |s|
    && DigitRun(s[..a]) && FractionPart(s[a..b]) && ExponentPart(s[b..m])
  }

  /** The integer part of a lexeme is the maximal digit run, unless it is all of it. */
  lemma IntegerPartGreedy(s: string, m: nat, a: nat, b: nat)
    requires NumberParts(s, m, a, b)
    ensures a <= DigitsEnd(s, 0)
    ensures a < m ==> a == DigitsEnd(s, 0)
  {
    forall k | 0 <= k < a
      ensures IsDecimalDigit(s[k])
    {
      assert s[..a][k] == s[k];
    }
    DigitsEndCovers(s, 0, a);
    if a < m {
      if a < b {
        assert s[a] == s[a..b][0];
      } else {
        assert s[a] == s[b..m][0];
      }
    }
  }

  /** Given a greedy integer part, the fraction of a lexeme is the greedy fraction. */
  lemma FractionPartGreedy(s: string, m: nat, a: nat, b: nat)
    requires NumberParts(s, m, a, b) && a < m && a == DigitsEnd(s, 0)
    ensures b <= FractionEnd(s, a)
    ensures b < m ==> b == FractionEnd(s, a)
  {
    if a < b {
      var f := s[a..b];
      assert s[a] == f[0];
      forall k | a + 1 <= k < b
        ensures IsDecimalDigit(s[k])
      {
        assert s[k] == f[1..][k - a - 1];
      }
      DigitsEndCovers(s, a + 1, b);
      if b < m {
        assert s[b] == s[b..m][0];
      }
    } else {
      assert s[b] == s[b..m][0];
    }
  }

  /** A non-empty exponent part of a lexeme is covered by the greedy exponent. */
  lemma ExponentPartGreedy(s: string, m: nat, b: nat)
    requires b < m <= |s| && ExponentPart(s[b..m])
    ensures m <= ExponentEnd(s, b)
  {
    var e := s[b..m];
    assert s[b] == e[0] && s[b + 1] == e[1];
    if DigitRun(e[1..]) {
      forall k | b + 1 <= k < m
        ensures IsDecimalDigit(s[k])
      {
        assert s[k] == e[1..][k - b - 1];
      }
      DigitsEndCovers(s, b + 1, m);
    } else {
      forall k | b + 2 <= k < m
        ensures IsDecimalDigit(s[k])
      {
        assert s[k] == e[2..][k - b - 2];
      }
      DigitsEndCovers(s, b + 2, m);
    }
  }

  /** A NUMBER lexeme at the start of `s` never extends past the greedy match:
      the regex's greedy choice is the longest prefix the grammar admits. */
  lemma NumberMatchIsLongest(s: string, m: nat)
    requires m <= |s| && IsNumberLexeme(s[..m])
    ensures MatchNumber(s).Some? && m <= MatchNumber(s).value
  {
    var t := s[..m];
    var a, b :| 0 < a <= b <= m && DigitRun(t[..a]) && FractionPart(t[a..b]) && ExponentPart(t[b..]);
    assert t[..a] == s[..a] && t[a..b] == s[a..b] && t[b..] == s[b..m];
    assert NumberParts(s, m, a, b);
    assert IsDecimalDigit(s[0]) by {
      assert s[0] == s[..a][0];
    }
    IntegerPartGreedy(s, m, a, b);
    var d := DigitsEnd(s, 0);
    if a < m {
      FractionPartGreedy(s, m, a, b);
      if b < m {
        ExponentPartGreedy(s, m, b);
      }
    }
  }

  // ---------------------------------------------------------------------------
  // Rule selection and scanning

  /** The index of the first rule in table order whose pattern matches a prefix of `s`. */
  function FirstRule(rules: seq<Rule>, s: string): (r: Option<nat>)
    ensures r.Some? ==> r.value < |rules| && MatchLen(rules[r.value].pattern, s).Some?
    ensures r.Some? ==> forall j :: 0 <= j < r.value ==> MatchLen(rules[j].pattern, s).None?
    ensures r.None? ==> forall j :: 0 <= j < |rules| ==> MatchLen(rules[j].pattern, s).None?
  {
    FirstRuleFrom(rules, s, 0)
  }

  function FirstRuleFrom(rules: seq<Rule>, s: string, k: nat): (r: Option<nat>)
    requires k <= |rules|
    requires forall j :: 0 <= j < k ==> MatchLen(rules[j].pattern, s).None?
    ensures r.Some? ==> k <= r.value < |rules| && MatchLen(rules[r.value].pattern, s).Some?
    ensures r.Some? ==> forall j :: 0 <= j < r.value ==> MatchLen(rules[j].pattern, s).None?
    ensures r.None? ==> forall j :: 0 <= j < |rules| ==> MatchLen(rules[j].pattern, s).None?
    decreases |rules| - k
  {
    if k == |rules| then None
    else if MatchLen(rules[k].pattern, s).Some? then Some(k)
    else FirstRuleFrom(rules, s, k + 1)
  }

  /** The token stream shape the parser relies on: one EOF token with value
      `None`, last and nowhere else, and a text value on every other token. */
  predicate WellFormed(toks: seq<Token>) {
    && |toks| > 0
    && toks[|toks| - 1] == EofToken
    && forall i :: 0 <= i < |toks| - 1 ==> toks[i].kind != Eof && toks[i].value.Some?
  }

  /** Every non-EOF token's text is non-empty and free of whitespace. */
  predicate SolidValues(toks: seq<Token>) {
    forall i :: 0 <= i < |toks| ==> toks[i].value.Some? ==>
      |toks[i].value.value| > 0 && NoWhitespace(toks[i].value.value)
  }

  /** The token was produced by some rule of the table under first-match
      order: its type is that rule's type, its text is a complete match of the
      rule's pattern, and no earlier rule could even start a match on it. */
  predicate ProducedBy(rules: seq<Rule>, tok: Token) {
    && tok.value.Some?
    && exists k :: 0 <= k < |rules| && rules[k].kind == tok.kind && Fits(rules[k].pattern, tok.value.value)
                   && forall j :: 0 <= j < k ==> !CanStart(rules[j].pattern, tok.value.value)
  }

  /** A pattern that can start on a non-empty prefix of `s` can start on `s`. */
  lemma CanStartExtends(p: Pattern, v: string, s: string)
    requires |v| > 0 && IsPrefix(v, s) && CanStart(p, v)
    ensures CanStart(p, s)
  {
    assert v[0] == s[0];
    if p.Words? {
      var ws := p.alternatives;
      var k :| 0 <= k < |ws| && IsPrefix(ws[k], v);
      assert s[..|ws[k]|] == v[..|ws[k]|];
    }
  }

  /** One iteration of the `tokenize` loop: the type of the first rule that
      matches a prefix of `code`, and the length of that rule's match. */
  function Step(rules: seq<Rule>, code: string): (r: Option<(TokenType, nat)>)
    ensures r.Some? ==> r.value.1 <= |code|
    ensures r.Some? && ValidTable(rules) ==> r.value.0 != Eof && 0 < r.value.1
  {
    match FirstRule(rules, code)
    case None => None
    case Some(k) =>
      MatchLenSound(rules[k].pattern, code);
      Some((rules[k].kind, MatchLen(rules[k].pattern, code).value))
  }

  /** The token a step produces is a whitespace-free complete match of a rule
      of its type. */
  lemma StepProduces(rules: seq<Rule>, code: string)
    requires ValidTable(rules) && Step(rules, code).Some?
    ensures var (kind, n) := Step(rules, code).value;
            NoWhitespace(code[..n]) && ProducedBy(rules, Token(kind, Some(code[..n])))
  {
    var k := FirstRule(rules, code).value;
    var n := Step(rules, code).value.1;
    var v := code[..n];
    MatchLenSound(rules[k].pattern, code);
    forall j | 0 <= j < k
      ensures !CanStart(rules[j].pattern, v)
    {
      MatchLenSound(rules[j].pattern, code);
      if CanStart(rules[j].pattern, v) {
        CanStartExtends(rules[j].pattern, v, code);
      }
    }
  }

  /** The loop of `tokenize` on the remaining text `code`. */
  function Scan(rules: seq<Rule>, code: string): (r: Result<seq<Token>>)
    requires ValidTable(rules)
    ensures r.Ok? ==> WellFormed(r.value)
    ensures r.Ok? ==> (|r.value| == 1 <==> |code| == 0)
    decreases |code|
  {
    if |code| == 0 then Ok([EofToken])
    else match Step(rules, code)
      case None => Err
      case Some(step) =>
        var n := step.1;
        var tail := LStrip(code[n..]);
        var rest :- Scan(rules, tail);
        var tok := Token(step.0, Some(code[..n]));
        ConsWellFormed(tok, rest);
        Ok([tok] + rest)
  }

  lemma ConsWellFormed(tok: Token, rest: seq<Token>)
    requires WellFormed(rest) && tok.kind != Eof && tok.value.Some?
    ensures WellFormed([tok] + rest) && |[tok] + rest| > 1
  {
    var toks := [tok] + rest;
    assert forall i :: 1 <= i < |toks| ==> toks[i] == rest[i - 1];
  }

  /** `tokenize`: scan the stripped source. */
  function Tokenize(rules: seq<Rule>, source: string): (r: Result<seq<Token>>)
    requires ValidTable(rules)
    ensures r.Ok? ==> WellFormed(r.value)
  {
    Scan(rules, Strip(source))
  }

  /** One unfolding of a successful scan of non-empty text. */
  lemma ScanUnfold(rules: seq<Rule>, code: string)
    requires ValidTable(rules) && Scan(rules, code).Ok? && |code| > 0
    ensures Step(rules, code).Some?
    ensures var (kind, n) := Step(rules, code).value;
            var tail := LStrip(code[n..]);
            && Scan(rules, tail).Ok?
            && Scan(rules, code).value == [Token(kind, Some(code[..n]))] + Scan(rules, tail).value
  {
  }

  /** The step on `code` is taken by rule `k` when `k` is the first rule that matches. */
  lemma StepByRule(rules: seq<Rule>, code: string, k: nat)
    requires k < |rules|
    requires MatchLen(rules[k].pattern, code).Some?
    requires forall j :: 0 <= j < k ==> MatchLen(rules[j].pattern, code).None?
    ensures Step(rules, code) == Some((rules[k].kind, MatchLen(rules[k].pattern, code).value))
  {
  }

  /** A scan of non-empty text whose first step succeeds is that token
      followed by the scan of the rest. */
  lemma ScanCons(rules: seq<Rule>, code: string, kind: TokenType, n: nat, rest: seq<Token>)
    requires ValidTable(rules) && |code| > 0 && Step(rules, code) == Some((kind, n))
    requires Scan(rules, LStrip(code[n..])) == Ok(rest)
    ensures Scan(rules, code) == Ok([Token(kind, Some(code[..n]))] + rest)
  {
  }

  /** Text that is one whole token. */
  lemma ScanOne(rules: seq<Rule>, code: string, kind: TokenType)
    requires ValidTable(rules) && |code| > 0
    requires Step(rules, code) == Some((kind, |code|))
    ensures Scan(rules, code) == Ok([Token(kind, Some(code)), EofToken])
  {
    assert LStrip(code[|code|..]) == [];
    assert code[..|code|] == code;
    ScanCons(rules, code, kind, |code|, [EofToken]);
    assert [Token(kind, Some(code))] + [EofToken] == [Token(kind, Some(code)), EofToken];
  }

  /** Text that is two tokens with no whitespace between them. */
  lemma ScanTwo(rules: seq<Rule>, code: string, first: TokenType, n: nat, second: TokenType)
    requires ValidTable(rules) && 0 < n < |code| && !IsWhitespace(code[n])
    requires Step(rules, code) == Some((first, n))
    requires Step(rules, code[n..]) == Some((second, |code| - n))
    ensures Scan(rules, code) == Ok([Token(first, Some(code[..n])), Token(second, Some(code[n..])), EofToken])
  {
    var tail := code[n..];
    ScanOne(rules, tail, second);
    assert LStrip(tail) == tail;
    var rest := [Token(second, Some(tail)), EofToken];
    ScanCons(rules, code, first, n, rest);
    assert [Token(first, Some(code[..n]))] + rest
        == [Token(first, Some(code[..n])), Token(second, Some(tail)), EofToken];
  }

  /** A source without surrounding whitespace that is one whole token. */
  lemma TokenizeOne(rules: seq<Rule>, source: string, kind: TokenType)
    requires ValidTable(rules) && |source| > 0
    requires !IsWhitespace(source[0]) && !IsWhitespace(source[|source| - 1])
    requires Step(rules, source) == Some((kind, |source|))
    ensures Tokenize(rules, source) == Ok([Token(kind, Some(source)), EofToken])
  {
    StripOfTrimmed(source);
    ScanOne(rules, source, kind);
  }

  /** A source without surrounding whitespace that is two adjacent tokens. */
  lemma TokenizeTwo(rules: seq<Rule>, source: string, first: TokenType, n: nat, second: TokenType)
    requires ValidTable(rules) && 0 < n < |source|
    requires !IsWhitespace(source[0]) && !IsWhitespace(source[n]) && !IsWhitespace(source[|source| - 1])
    requires Step(rules, source) == Some((first, n))
    requires Step(rules, source[n..]) == Some((second, |source| - n))
    ensures Tokenize(rules, source)
         == Ok([Token(first, Some(source[..n])), Token(second, Some(source[n..])), EofToken])
  {
    StripOfTrimmed(source);
    ScanTwo(rules, source, first, n, second);
  }

  /** Every non-EOF token in `toks` was produced by a rule of the table. */
  predicate AllProduced(rules: seq<Rule>, toks: seq<Token>) {
    forall i :: 0 <= i < |toks| && toks[i].kind != Eof ==> ProducedBy(rules, toks[i])
  }

  lemma ConsProduced(rules: seq<Rule>, tok: Token, rest: seq<Token>)
    requires SolidValues(rest) && AllProduced(rules, rest)
    requires ProducedBy(rules, tok) && |tok.value.value| > 0 && NoWhitespace(tok.value.value)
    ensures SolidValues([tok] + rest) && AllProduced(rules, [tok] + rest)
  {
    var toks := [tok] + rest;
    assert forall i :: 1 <= i < |toks| ==> toks[i] == rest[i - 1];
  }

  /** Every token a scan produces carries a non-empty, whitespace-free text
      that is a complete match of a rule of the token's type. */
  lemma {:induction false} ScanTokens(rules: seq<Rule>, code: string)
    requires ValidTable(rules)
    requires Scan(rules, code).Ok?
    ensures SolidValues(Scan(rules, code).value) && AllProduced(rules, Scan(rules, code).value)
    decreases |code|
  {
    if |code| > 0 {
      ScanUnfold(rules, code);
      var step := Step(rules, code).value;
      StepProduces(rules, code);
      var tail := LStrip(code[step.1..]);
      ScanTokens(rules, tail);
      ConsProduced(rules, Token(step.0, Some(code[..step.1])), Scan(rules, tail).value);
    }
  }

  lemma TokenizeTokens(rules: seq<Rule>, source: string)
    requires ValidTable(rules)
    requires Tokenize(rules, source).Ok?
    ensures SolidValues(Tokenize(rules, source).value)
    ensures AllProduced(rules, Tokenize(rules, source).value)
  {
    ScanTokens(rules, Strip(source));
  }

  // ---------------------------------------------------------------------------
  // Properties of the generic tokenizer

  /** The texts of the non-EOF tokens, concatenated. */
  function Lexemes(toks: seq<Token>): string {
    if |toks| == 0 then []
    else (if toks[0].value.Some? then toks[0].value.value else []) + Lexemes(toks[1..])
  }

  lemma LexemesCons(tok: Token, rest: seq<Token>)
    requires tok.value.Some?
    ensures Lexemes([tok] + rest) == tok.value.value + Lexemes(rest)
  {
    assert ([tok] + rest)[1..] == rest;
  }

  /** Cutting a whitespace-free prefix and stripping what follows keeps the
      non-whitespace characters in order. */
  lemma CutKeepsSolid(code: string, n: nat)
    requires n <= |code| && NoWhitespace(code[..n])
    ensures RemoveWhitespace(code) == code[..n] + RemoveWhitespace(LStrip(code[n..]))
  {
    LStripKeepsSolid(code[n..]);
    assert code == code[..n] + code[n..];
    RemoveWhitespaceAppend(code[..n], code[n..]);
    RemoveWhitespaceOfSolid(code[..n]);
  }

  lemma {:induction false} ScanKeepsSolid(rules: seq<Rule>, code: string)
    requires ValidTable(rules)
    requires Scan(rules, code).Ok?
    ensures Lexemes(Scan(rules, code).value) == RemoveWhitespace(code)
    decreases |code|
  {
    if |code| > 0 {
      ScanUnfold(rules, code);
      var step := Step(rules, code).value;
      StepProduces(rules, code);
      var tail := LStrip(code[step.1..]);
      ScanKeepsSolid(rules, tail);
      LexemesCons(Token(step.0, Some(code[..step.1])), Scan(rules, tail).value);
      CutKeepsSolid(code, step.1);
    }
  }

  /** Concatenating the token texts gives back the source with all whitespace
      removed: tokenizing loses and invents no character. */
  lemma TokenizeKeepsSolid(rules: seq<Rule>, source: string)
    requires ValidTable(rules)
    requires Tokenize(rules, source).Ok?
    ensures Lexemes(Tokenize(rules, source).value) == RemoveWhitespace(source)
  {
    ScanKeepsSolid(rules, Strip(source));
    StripKeepsSolid(source);
  }

  /** Empty or whitespace-only input gives exactly `[EOF]`, and no other input does. */
  lemma TokenizeBlank(rules: seq<Rule>, source: string)
    requires ValidTable(rules)
    ensures Tokenize(rules, source) == Ok([EofToken]) <==> AllWhitespace(source)
  {
    StripEmptyIff(source);
  }

  /** The characters a match of `p` can contain. */
  predicate InAlphabet(p: Pattern, c: char) {
    match p
    case Words(ws) => exists k :: 0 <= k < |ws| && c in ws[k]
    case IdentifierPattern => IsIdentChar(c)
    case NumberPattern => IsDecimalDigit(c) || c == '.' || IsExponentMark(c) || IsSign(c)
    case OneOf(cs) => c in cs
  }

  predicate InTableAlphabet(rules: seq<Rule>, c: char) {
    exists k :: 0 <= k < |rules| && InAlphabet(rules[k].pattern, c)
  }

  lemma FitsAlphabet(p: Pattern, t: string, i: nat)
    requires Fits(p, t) && i < |t|
    ensures InAlphabet(p, t[i])
  {
    match p
    case Words(ws) =>
      var k :| 0 <= k < |ws| && ws[k] == t;
    case IdentifierPattern =>
    case NumberPattern =>
      var a, b :| 0 < a <= b <= |t| && DigitRun(t[..a]) && FractionPart(t[a..b]) && ExponentPart(t[b..]);
      if i < a {
        assert t[..a][i] == t[i];
      } else if i < b {
        assert t[a..b][i - a] == t[i];
        if i > a {
          assert t[a..b][1..][i - a - 1] == t[i];
        }
      } else {
        var e := t[b..];
        assert e[i - b] == t[i];
        if i == b + 1 {
        } else if i > b + 1 {
          if DigitRun(e[1..]) {
            assert e[1..][i - b - 1] == t[i];
          } else {
            assert e[2..][i - b - 2] == t[i];
          }
        }
      }
    case OneOf(cs) =>
  }

  lemma {:induction false} LexemesAlphabet(rules: seq<Rule>, toks: seq<Token>, i: nat)
    requires AllProduced(rules, toks)
    requires forall j :: 0 <= j < |toks| && toks[j].kind == Eof ==> toks[j].value.None?
    requires i < |Lexemes(toks)|
    ensures InTableAlphabet(rules, Lexemes(toks)[i])
  {
    var head := if toks[0].value.Some? then toks[0].value.value else [];
    assert Lexemes(toks) == head + Lexemes(toks[1..]);
    if i < |head| {
      var k :| 0 <= k < |rules| && rules[k].kind == toks[0].kind && Fits(rules[k].pattern, head);
      FitsAlphabet(rules[k].pattern, head, i);
    } else {
      assert forall j :: 0 <= j < |toks[1..]| ==> toks[1..][j] == toks[j + 1];
      LexemesAlphabet(rules, toks[1..], i - |head|);
    }
  }

  /** Every non-whitespace character of a source that tokenizes can occur in
      the match of some rule of the table. */
  lemma TokenizedCharacter(rules: seq<Rule>, source: string, i: nat)
    requires ValidTable(rules) && Tokenize(rules, source).Ok?
    requires i < |source| && !IsWhitespace(source[i])
    ensures InTableAlphabet(rules, source[i])
  {
    var toks := Tokenize(rules, source).value;
    TokenizeKeepsSolid(rules, source);
    TokenizeTokens(rules, source);
    var j := SolidPosition(source, i);
    LexemesAlphabet(rules, toks, j);
  }

  /** A character no rule's match can contain (such as `@` or `/`) anywhere
      outside whitespace makes tokenizing fail. */
  lemma TokenizeRejectsStrayCharacter(rules: seq<Rule>, source: string, i: nat)
    requires ValidTable(rules)
    requires i < |source| && !IsWhitespace(source[i]) && !InTableAlphabet(rules, source[i])
    ensures Tokenize(rules, source).Err?
  {
    if Tokenize(rules, source).Ok? {
      TokenizedCharacter(rules, source, i);
    }
  }

  // ---------------------------------------------------------------------------
  // Rule-order shadowing

  /** Rule `k` is shadowed: an earlier rule is the identifier class and every
      alternative of rule `k` starts with a letter, so whatever rule `k` could
      match the earlier rule matches first. */
  predicate Shadowed(rules: seq<Rule>, k: nat) {
    && k < |rules|
    && rules[k].pattern.Words?
    && (forall w :: w in rules[k].pattern.alternatives ==> |w| > 0 && IsLetter(w[0]))
    && exists j :: 0 <= j < k && rules[j].pattern == IdentifierPattern
  }

  lemma FirstRuleNotShadowed(rules: seq<Rule>, s: string)
    requires FirstRule(rules, s).Some?
    ensures !Shadowed(rules, FirstRule(rules, s).value)
  {
    var k := FirstRule(rules, s).value;
    if rules[k].pattern.Words? {
      var ws := rules[k].pattern.alternatives;
      if forall w :: w in ws ==> |w| > 0 && IsLetter(w[0]) {
        MatchLenSound(rules[k].pattern, s);
        var i :| 0 <= i < |ws| && IsPrefix(ws[i], s);
        assert s[0] == ws[i][0];
        MatchLenSound(IdentifierPattern, s);
        assert forall j :: 0 <= j < k ==> rules[j].pattern != IdentifierPattern;
      }
    }
  }

  /** If every rule whose type lies outside `allowed` is shadowed, no token of
      such a type is ever produced. */
  lemma {:induction false} ScanKinds(rules: seq<Rule>, code: string, allowed: set<TokenType>)
    requires ValidTable(rules)
    requires forall k :: 0 <= k < |rules| && rules[k].kind !in allowed ==> Shadowed(rules, k)
    requires Scan(rules, code).Ok?
    ensures KindsWithin(Scan(rules, code).value, allowed + {Eof})
    decreases |code|
  {
    if |code| > 0 {
      ScanUnfold(rules, code);
      var step := Step(rules, code).value;
      StepNotShadowed(rules, code);
      var tail := LStrip(code[step.1..]);
      ScanKinds(rules, tail, allowed);
      ConsKinds(Token(step.0, Some(code[..step.1])), Scan(rules, tail).value, allowed + {Eof});
    }
  }

  /** A NUMBER token carries a complete match of the number pattern, so that
      the parser's `float(...)` conversion of it cannot fail. */
  predicate NumberText(tok: Token) {
    tok.kind == Number && tok.value.Some? ==> IsNumberLexeme(tok.value.value)
  }

  /** The token at index `i` is a `NumberText`. */
  predicate NumberTextAt(toks: seq<Token>, i: int)
    requires 0 <= i < |toks|
  {
    NumberText(toks[i])
  }

  /** Every token is a `NumberText`. Stated through `NumberTextAt`, so that
      a proof about a token stream only looks at the numbers it asks about. */
  predicate NumberTexts(toks: seq<Token>) {
    forall i | 0 <= i < |toks| :: NumberTextAt(toks, i)
  }

  /** In a table whose NUMBER rules all use the number pattern, every NUMBER
      token the tokenizer yields is a number lexeme. */
  lemma TokenizeNumberTexts(rules: seq<Rule>, source: string)
    requires ValidTable(rules)
    requires forall k :: 0 <= k < |rules| && rules[k].kind == Number ==> rules[k].pattern == NumberPattern
    requires Tokenize(rules, source).Ok?
    ensures NumberTexts(Tokenize(rules, source).value)
  {
    TokenizeTokens(rules, source);
  }

  /** `tokenize` never yields a token of a type all of whose rules are shadowed. */
  lemma TokenizeKinds(rules: seq<Rule>, source: string, allowed: set<TokenType>)
    requires ValidTable(rules)
    requires forall k :: 0 <= k < |rules| && rules[k].kind !in allowed ==> Shadowed(rules, k)
    requires Tokenize(rules, source).Ok?
    ensures KindsWithin(Tokenize(rules, source).value, allowed + {Eof})
  {
    ScanKinds(rules, Strip(source), allowed);
  }

  /** A word rule after an identifier rule is shadowed when all its words
      start with a letter. */
  lemma LetterWordsShadowed(rules: seq<Rule>, j: nat, k: nat)
    requires j < k < |rules| && rules[j].pattern == IdentifierPattern
    requires rules[k].pattern.Words?
    requires forall i :: 0 <= i < |rules[k].pattern.alternatives| ==>
      |rules[k].pattern.alternatives[i]| > 0 && IsLetter(rules[k].pattern.alternatives[i][0])
    ensures Shadowed(rules, k)
  {
  }

  predicate KindsWithin(toks: seq<Token>, kinds: set<TokenType>) {
    forall i :: 0 <= i < |toks| ==> toks[i].kind in kinds
  }

  lemma ConsKinds(tok: Token, rest: seq<Token>, kinds: set<TokenType>)
    requires KindsWithin(rest, kinds) && tok.kind in kinds
    ensures KindsWithin([tok] + rest, kinds)
  {
    var toks := [tok] + rest;
    assert forall i :: 1 <= i < |toks| ==> toks[i] == rest[i - 1];
  }

  lemma StepNotShadowed(rules: seq<Rule>, code: string)
    requires ValidTable(rules) && Step(rules, code).Some?
    ensures exists k :: 0 <= k < |rules| && rules[k].kind == Step(rules, code).value.0 && !Shadowed(rules, k)
  {
    FirstRuleNotShadowed(rules, code);
  }
}
