/** The program end to end, as `main.py` and `cli.py` drive it: tokenize the
    source with `lexer.py`'s table, parse the tokens, then expand the
    instances and print the netlist. */
module Pipeline {
  import opened Results
  import opened Strings
  import opened Tokens
  import opened Ast
  import Lexer
  import Parser
  import Expansion
  import Netlist

  /** Whatever `lexer.py` produces is a stream the parser accepts as input:
      one EOF at the end, and number lexemes in the NUMBER tokens. */
  lemma LexerFeedsParser(source: string)
    requires Lexer.Tokenize(source).Ok?
    ensures Parser.Stream(Lexer.Tokenize(source).value)
  {
    Lexer.RulesValid();
    TokenizeNumberTexts(Lexer.Rules, source);
  }

  /** `Lexer(src).tokenize()`, `Parser(tokens).parse()`, then the
      interpreter's netlist; an exception at any stage is `Err`. A run
      succeeds exactly when the source tokenizes and parses, every instance
      names a subcircuit, and every simulation command can be formatted. */
  function Run(source: string, num: Netlist.NumberText): (r: Result<string>)
    ensures r.Ok? <==>
              && Lexer.Tokenize(source).Ok?
              && var toks := Lexer.Tokenize(source).value;
                 && Parser.Stream(toks)
                 && Parser.Parse(toks).Ok?
                 && var p := Parser.Parse(toks).value;
                    && Expansion.Resolves(p.subcircuits, p.instances)
                    && forall cmd | cmd in Netlist.Commands(p.simulations) :: Netlist.FormatSim(cmd, num).Ok?
    ensures Lexer.Tokenize(source).Err? ==> r.Err?
    ensures Lexer.Tokenize(source).Ok? ==>
              var toks := Lexer.Tokenize(source).value;
              && Parser.Stream(toks)
              && (Parser.Parse(toks).Err? ==> r.Err?)
              && (Parser.Parse(toks).Ok? ==> r == Netlist.Interpret(Parser.Parse(toks).value, num))
  {
    var toks :- Lexer.Tokenize(source);
    LexerFeedsParser(source);
    var p :- Parser.Parse(toks);
    Netlist.Interpret(p, num)
  }

  /** Empty or whitespace-only source is an empty program, whose netlist is
      the empty text. */
  lemma RunBlank(source: string, num: Netlist.NumberText)
    requires AllWhitespace(source)
    ensures Run(source, num) == Ok("")
  {
    Lexer.BlankSource(source);
    LexerFeedsParser(source);
    assert Parser.Parse([EofToken]) == Ok(EmptyProgram);
  }

  /** A character outside the language (`@`, `/`, `=`, `#`) anywhere in the
      source makes the whole run fail. */
  lemma RunStray(source: string, num: Netlist.NumberText, i: nat)
    requires i < |source| && source[i] in "@/=#"
    ensures Run(source, num).Err?
  {
    Lexer.StrayCharacterFails(source, i);
  }
}
