/** The tokenizer of `Lexer.py`: the same first-match scanner with a larger
    table (conditionals, loops, the `=` operator and the range keywords) that
    puts the identifier rule FIRST. Since every keyword, component name and
    unit starts with a letter, the identifier rule claims all of them: this
    tokenizer only ever yields identifiers, numbers, operators, symbols and
    EOF. */
module ExtendedLexer {
  import opened Results
  import opened Strings
  import opened Tokens
  import Lexer

  /** Component names, units and symbols are those of `lexer.py`. */
  const ConditionalNames: seq<string> := ["If", "Else"]
  const KeywordNames: seq<string> := ["from", "to", "step", "dc", "transient", "ac"]

  /** `TOKEN_REGEX`, in table order. */
  const Rules: seq<Rule> := [
    Rule(Identifier, IdentifierPattern),
    Rule(Number, NumberPattern),
    Rule(ComponentKeyword, Words(Lexer.ComponentNames)),
    Rule(ConnectKeyword, Words(["Connect"])),
    Rule(SubcircuitKeyword, Words(["Subcircuit"])),
    Rule(SimulateKeyword, Words(["Simulate"])),
    Rule(ConditionalKeyword, Words(ConditionalNames)),
    Rule(LoopKeyword, Words(["For"])),
    Rule(Unit, Words(Lexer.UnitNames)),
    Rule(Operator, OneOf("=")),
    Rule(Symbol, OneOf(Lexer.Symbols)),
    Rule(Keyword, Words(KeywordNames))
  ]

  /** The token types this tokenizer can actually produce. */
  const Reachable: set<TokenType> := {Identifier, Number, Operator, Symbol}

  lemma RulesValid()
    ensures ValidTable(Rules)
  {
    WordListsValid();
    assert NoWhitespace("=");
    assert NoWhitespace(Lexer.Symbols);
    forall k | 0 <= k < |Rules|
      ensures Rules[k].kind != Eof && ValidPattern(Rules[k].pattern)
    {
    }
  }

  lemma WordListsValid()
    ensures ValidPattern(Words(Lexer.ComponentNames)) && ValidPattern(Words(ConditionalNames))
    ensures ValidPattern(Words(Lexer.UnitNames)) && ValidPattern(Words(KeywordNames))
    ensures ValidPattern(Words(["Connect"])) && ValidPattern(Words(["Subcircuit"]))
    ensures ValidPattern(Words(["Simulate"])) && ValidPattern(Words(["For"]))
  {
    Lexer.WordListsValid();
    WordsValid(ConditionalNames);
    WordsValid(KeywordNames);
    WordsValid(["For"]);
  }

  /** `Lexer(source).tokenize()`. */
  function Tokenize(source: string): (r: Result<seq<Token>>)
    ensures r.Ok? ==> WellFormed(r.value)
  {
    RulesValid();
    Tokens.Tokenize(Rules, source)
  }

  /** Every rule whose type is not reachable is shadowed by the identifier rule. */
  lemma UnreachableRulesShadowed()
    ensures forall k :: 0 <= k < |Rules| && Rules[k].kind !in Reachable ==> Shadowed(Rules, k)
  {
    forall k | 0 <= k < |Rules| && Rules[k].kind !in Reachable
      ensures Shadowed(Rules, k)
    {
      LetterWordsShadowed(Rules, 0, k);
    }
  }

  /** No component, connect, subcircuit, simulate, conditional, loop, unit or
      keyword token is ever produced: the words are all claimed by the
      identifier rule. */
  lemma OnlyReachableKinds(source: string)
    requires Tokenize(source).Ok?
    ensures KindsWithin(Tokenize(source).value, Reachable + {Eof})
  {
    RulesValid();
    UnreachableRulesShadowed();
    TokenizeKinds(Rules, source, Reachable);
  }

  lemma StepResistor()
    ensures Step(Rules, "Resistor") == Some((Identifier, 8))
  {
    assert MatchLen(Rules[0].pattern, "Resistor") == Some(8);
    StepByRule(Rules, "Resistor", 0);
  }

  /** The component name `Resistor` comes out as an identifier. */
  lemma ComponentNameIsIdentifier()
    ensures Tokenize("Resistor") == Ok([Token(Identifier, Some("Resistor")), EofToken])
  {
    StepResistor();
    RulesValid();
    TokenizeOne(Rules, "Resistor", Identifier);
  }

  lemma StepEquals()
    ensures Step(Rules, "=") == Some((Operator, 1))
  {
    AsciiDecimalDigit('=');
    assert MatchLen(Rules[9].pattern, "=") == Some(1);
    StepByRule(Rules, "=", 9);
  }

  /** `=` is an operator token here, where the other tokenizer rejects it. */
  lemma EqualsIsOperator()
    ensures Tokenize("=") == Ok([Token(Operator, Some("=")), EofToken])
  {
    StepEquals();
    RulesValid();
    TokenizeOne(Rules, "=", Operator);
  }
}
