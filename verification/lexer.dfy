/** The tokenizer of `lexer.py`: the generic first-match scanner instantiated
    with that file's rule table, in which the fixed keywords, component names
    and units come before the identifier rule. Because no rule demands a word
    boundary, an identifier that begins with a keyword, a component name or a
    unit spelling is split: `V1` is the unit `V` followed by the number `1`. */
module Lexer {
  import opened Results
  import opened Strings
  import opened Tokens

  const ComponentNames: seq<string> := ["Resistor", "Capacitor", "Inductor", "VoltageSource", "CurrentSource"]
  const KeywordNames: seq<string> := ["dc", "transient", "ac"]
  const UnitNames: seq<string> := ["ohm", "uF", "mH", "V", "A"]
  const Symbols: string := "();{},."

  /** `TOKEN_REGEX`, in table order. */
  const Rules: seq<Rule> := [
    Rule(ComponentKeyword, Words(ComponentNames)),
    Rule(ConnectKeyword, Words(["Connect"])),
    Rule(SubcircuitKeyword, Words(["Subcircuit"])),
    Rule(SimulateKeyword, Words(["Simulate"])),
    Rule(Keyword, Words(KeywordNames)),
    Rule(Unit, Words(UnitNames)),
    Rule(Identifier, IdentifierPattern),
    Rule(Number, NumberPattern),
    Rule(Symbol, OneOf(Symbols))
  ]

  lemma RulesValid()
    ensures ValidTable(Rules)
  {
    WordListsValid();
    assert NoWhitespace(Symbols);
    forall k | 0 <= k < |Rules|
      ensures Rules[k].kind != Eof && ValidPattern(Rules[k].pattern)
    {
    }
  }

  lemma WordListsValid()
    ensures ValidPattern(Words(ComponentNames)) && ValidPattern(Words(KeywordNames))
    ensures ValidPattern(Words(UnitNames)) && ValidPattern(Words(["Connect"]))
    ensures ValidPattern(Words(["Subcircuit"])) && ValidPattern(Words(["Simulate"]))
  {
    WordsValid(ComponentNames);
    WordsValid(KeywordNames);
    WordsValid(UnitNames);
    WordsValid(["Connect"]);
    WordsValid(["Subcircuit"]);
    WordsValid(["Simulate"]);
  }

  /** `Lexer(source).tokenize()`. */
  function Tokenize(source: string): (r: Result<seq<Token>>)
    ensures r.Ok? ==> WellFormed(r.value)
  {
    RulesValid();
    Tokens.Tokenize(Rules, source)
  }

  /** The text begins with one of the spellings the table tries before the
      identifier rule. */
  predicate StartsWithReserved(v: string) {
    exists k :: 0 <= k < 6 && CanStart(Rules[k].pattern, v)
  }

  /** A token of one of the six word types (component, `Connect`,
      `Subcircuit`, `Simulate`, keyword, unit) is spelled exactly as one of
      that rule's alternatives; an identifier is an identifier lexeme that
      does not begin with any of those spellings. */
  lemma TokenTexts(source: string)
    requires Tokenize(source).Ok?
    ensures var toks := Tokenize(source).value;
            forall i, k :: 0 <= i < |toks| - 1 && 0 <= k < 6 && toks[i].kind == Rules[k].kind ==>
              toks[i].value.value in Rules[k].pattern.alternatives
    ensures var toks := Tokenize(source).value;
            forall i :: 0 <= i < |toks| - 1 && toks[i].kind == Identifier ==>
              IsIdentifierLexeme(toks[i].value.value) && !StartsWithReserved(toks[i].value.value)
  {
    RulesValid();
    TokenizeTokens(Rules, source);
    var toks := Tokenize(source).value;
    forall i, k | 0 <= i < |toks| - 1 && 0 <= k < 6 && toks[i].kind == Rules[k].kind
      ensures toks[i].value.value in Rules[k].pattern.alternatives
    {
      WordText(toks[i], k);
    }
    forall i | 0 <= i < |toks| - 1 && toks[i].kind == Identifier
      ensures IsIdentifierLexeme(toks[i].value.value) && !StartsWithReserved(toks[i].value.value)
    {
      IdentifierText(toks[i]);
    }
  }

  lemma WordText(tok: Token, k: nat)
    requires ProducedBy(Rules, tok) && k < 6 && tok.kind == Rules[k].kind
    ensures tok.value.value in Rules[k].pattern.alternatives
  {
    var v := tok.value.value;
    var r :| 0 <= r < |Rules| && Rules[r].kind == tok.kind && Fits(Rules[r].pattern, v)
             && forall j :: 0 <= j < r ==> !CanStart(Rules[j].pattern, v);
    assert r == k;
  }

  lemma IdentifierText(tok: Token)
    requires ProducedBy(Rules, tok) && tok.kind == Identifier
    ensures IsIdentifierLexeme(tok.value.value) && !StartsWithReserved(tok.value.value)
  {
    var v := tok.value.value;
    var r :| 0 <= r < |Rules| && Rules[r].kind == tok.kind && Fits(Rules[r].pattern, v)
             && forall j :: 0 <= j < r ==> !CanStart(Rules[j].pattern, v);
    assert r == 6;
  }

  lemma StepV1()
    ensures Step(Rules, "V1") == Some((Unit, 1))
  {
    assert MatchLen(Rules[5].pattern, "V1") == Some(1);
    StepByRule(Rules, "V1", 5);
  }

  lemma StepOne()
    ensures Step(Rules, "1") == Some((Number, 1))
  {
    assert MatchLen(Rules[7].pattern, "1") == Some(1);
    StepByRule(Rules, "1", 7);
  }

  lemma StepVout()
    ensures Step(Rules, "Vout") == Some((Unit, 1))
  {
    assert MatchLen(Rules[5].pattern, "Vout") == Some(1);
    StepByRule(Rules, "Vout", 5);
  }

  lemma StepOut()
    ensures Step(Rules, "out") == Some((Identifier, 3))
  {
    assert "out"[..3][1] != "ohm"[1];
    assert MatchLen(Rules[5].pattern, "out").None?;
    assert MatchLen(Rules[6].pattern, "out") == Some(3);
    StepByRule(Rules, "out", 6);
  }

  /** Rule order decides: `V1` is the unit `V` and the number `1`, not an
      identifier. */
  lemma UnitShadowsIdentifier()
    ensures Tokenize("V1") == Ok([Token(Unit, Some("V")), Token(Number, Some("1")), EofToken])
  {
    StepV1();
    StepOne();
    RulesValid();
    assert "V1"[..1] == "V" && "V1"[1..] == "1";
    TokenizeTwo(Rules, "V1", Unit, 1, Number);
  }

  /** `Vout` is the unit `V` followed by the identifier `out`. */
  lemma UnitPrefixSplitsIdentifier()
    ensures Tokenize("Vout") == Ok([Token(Unit, Some("V")), Token(Identifier, Some("out")), EofToken])
  {
    StepVout();
    StepOut();
    RulesValid();
    assert "Vout"[..1] == "V" && "Vout"[1..] == "out";
    TokenizeTwo(Rules, "Vout", Unit, 1, Identifier);
  }

  lemma StepArabicIndicThree()
    ensures Step(Rules, "\U{663}") == Some((Number, 1))
  {
    assert MatchLen(Rules[7].pattern, "\U{663}") == Some(1);
    StepByRule(Rules, "\U{663}", 7);
  }

  /** `\d` is not limited to ASCII: the Arabic-Indic digit three is a NUMBER. */
  lemma NonAsciiDigitIsNumber()
    ensures Tokenize("\U{663}") == Ok([Token(Number, Some("\U{663}")), EofToken])
  {
    StepArabicIndicThree();
    RulesValid();
    TokenizeOne(Rules, "\U{663}", Number);
  }

  /** Characters no rule of this table can match make tokenizing fail; in
      particular `=` is not a token here. */
  lemma StrayCharacterFails(source: string, i: nat)
    requires i < |source| && source[i] in "@/=#"
    ensures Tokenize(source).Err?
  {
    OutsideAlphabet(source[i]);
    RulesValid();
    TokenizeRejectsStrayCharacter(Rules, source, i);
  }

  lemma OutsideAlphabet(c: char)
    requires c in "@/=#"
    ensures !IsWhitespace(c) && !InTableAlphabet(Rules, c)
  {
    forall k | 0 <= k < |Rules|
      ensures !InAlphabet(Rules[k].pattern, c)
    {
      if k < 6 {
        // the word lists are spelled with letters only
        var ws := Rules[k].pattern.alternatives;
        forall j | 0 <= j < |ws|
          ensures c !in ws[j]
        {
          assert forall i :: 0 <= i < |ws[j]| ==> IsLetter(ws[j][i]);
        }
      }
    }
  }

  /** Empty or whitespace-only source gives just `[EOF]`, and nothing else does. */
  lemma BlankSource(source: string)
    ensures Tokenize(source) == Ok([EofToken]) <==> AllWhitespace(source)
  {
    RulesValid();
    TokenizeBlank(Rules, source);
  }

  /** The token texts, concatenated, are the source without its whitespace. */
  lemma TextsAreSourceWithoutWhitespace(source: string)
    requires Tokenize(source).Ok?
    ensures Lexemes(Tokenize(source).value) == RemoveWhitespace(source)
  {
    RulesValid();
    TokenizeKeepsSolid(Rules, source);
  }
}
