# Circuit DSL: tokenizer, parser and netlist interpreter in Dafny

This project models the core of a small circuit description language. A
source text declares components (`Resistor R1(10 ohm);`), connects their
terminals and named nodes (`Connect(R1.positive, V1.negative, ground);`),
lists simulation commands (`Simulate { dc; transient(0, 10, 0.1); }`),
defines subcircuits and instantiates them (`OpAmp U1;`). The program
tokenizes the text, parses the tokens into a syntax tree, inlines the
subcircuit instances, numbers the electrical nets and prints a SPICE-style
netlist.

The modules follow the program's files:

- `Tokens`: the first-match tokenizer loop, generic over a rule table.
  `Lexer` instantiates it with the table of `lexer.py`, and `ExtendedLexer`
  with the table of `Lexer.py`.
- `Strings`, `Seqs`, `Results`: Python string and list behaviour the other
  modules rely on (`strip`, `lower`/`upper`, `split`/`join`, the decimal
  digits of `\d`, `next(...)`), and the one failure outcome `Err`.
- `Ast`: the syntax tree of `ast_nodes.py`.
- `Parser`: the recursive-descent parser of `parser.py`. Every production
  is a function from a token stream and a position to the tree it read and
  the position after it.
- `Syntax`: what each production accepts and rejects, stated over the
  printed token fragments, and the set of trees the parser can return.
- `Unparse`, `Layout`, `RoundTrip`: a printer from syntax trees to tokens.
  It is the reference partner of the parser: parsing a printed program
  gives the program back.
- `Expansion`: the inlining of subcircuit instances (`_expand_instances`).
- `Nets`: net numbering (`build_node_mapping`).
- `Netlist`: the netlist text (`generate_netlist`, `_format_sim`).
- `Pipeline`: source text to netlist, as `main.py` and `cli.py` chain the
  stages.

## Model

| member | source | states |
|---|---|---|
| Tokens.Tokenize | lexer.py:42-57 | A successful tokenization is a token list that ends in exactly one EOF token. Every other token carries text. |
| Tokens.Scan | lexer.py:44-56 | The loop over the remaining code yields a well-formed list, and the list is just `[EOF]` exactly when no code is left. |
| Tokens.Step | lexer.py:45-53 | One pass of the rule loop consumes a non-empty prefix of the code (for a valid table) and never produces an EOF token. |
| Tokens.FirstRule | lexer.py:46-53 | The rule chosen is the first in table order whose regex matches at the front; when none matches, no rule matches. |
| Tokens.StepProduces | lexer.py:46-51 | The token text of a step is a whitespace-free, complete match of a rule of the token's type, and no earlier rule could start there. |
| Tokens.MatchWordsSound | lexer.py:17-22 | An alternation of literal words matches exactly when some alternative is a prefix. It then takes the first such alternative in list order, not the longest. |
| Tokens.MatchLenSound | lexer.py:17-25 | A pattern matches exactly when a match can begin at the front. The matched prefix is a complete match, non-empty and whitespace-free. An identifier match cannot be extended. |
| Tokens.NumberMatchFits | lexer.py:24 | The greedy match of `\d+(\.\d+)?([eE][+-]?\d+)?` is a number lexeme. |
| Tokens.NumberMatchIsLongest | lexer.py:24 | No number lexeme at the front is longer than the greedy match. |
| Tokens.TokenizeKeepsSolid | lexer.py:42-57 | The token texts, concatenated, are the source with its whitespace removed: no character is lost or invented. |
| Tokens.TokenizeBlank | lexer.py:43-57 | The result is just `[EOF]` exactly when the source is empty or all whitespace. |
| Tokens.TokenizeRejectsStrayCharacter | lexer.py:54-55 | A non-whitespace character that no rule's match can contain makes tokenizing fail, wherever it stands. |
| Tokens.TokenizedCharacter | lexer.py:44-55 | Every non-whitespace character of a source that tokenizes belongs to the alphabet of some rule. |
| Tokens.TokenizeNumberTexts | lexer.py:24 | When the table's NUMBER rules use the number regex, every NUMBER token is a number lexeme, which the parser's `float` conversion (`parser.py` line 63) accepts. |
| Tokens.TokenizeKinds | Lexer.py:48-63 | A token type whose every rule is shadowed by an earlier rule never appears in the output. |
| Tokens.LetterWordsShadowed | Lexer.py:19-32 | A word rule placed after the identifier rule is shadowed when all its words begin with a letter. |
| Tokens.FirstRuleNotShadowed | Lexer.py:52-59 | The rule that wins a step is never a shadowed one. |
| Tokens.StepNotShadowed | Lexer.py:52-59 | The token type a step yields belongs to some rule that is not shadowed. |
| Strings.LStripSpec | lexer.py:52 | `lstrip` keeps a suffix, removes only whitespace and leaves no leading whitespace. |
| Strings.RStripSpec | lexer.py:43 | `rstrip` keeps a prefix, removes only whitespace and leaves no trailing whitespace. |
| Strings.StripEmptyIff | lexer.py:43-44 | `strip` yields the empty text exactly on all-whitespace input, which is when the loop does not run. |
| Strings.StripKeepsSolid | lexer.py:43 | `strip` loses no non-whitespace character. |
| Strings.Lower | interpreter.py:82 | Lower-casing keeps the length and maps each character on its own. |
| Strings.Upper | interpreter.py:91 | Upper-casing keeps the length and maps each character on its own. |
| Strings.UpperDeterminedByLower | interpreter.py:82-91 | Two command types equal after lower-casing are equal after upper-casing. |
| Strings.NatToStringRoundTrip | interpreter.py:75 | The decimal text of a net id reads back as that id. |
| Strings.NatToString | interpreter.py:75 | The text of a net id is non-empty decimal digits without a leading zero. |
| Strings.SplitJoin | interpreter.py:79 | Joining lines that contain no separator and then splitting at it gives the lines back. |
| Lexer.Tokenize | lexer.py:16-57 | `lexer.py`'s tokenizer: its output is a well-formed token stream. |
| Lexer.TokenTexts | lexer.py:16-26 | A keyword, component, unit, `Connect`, `Subcircuit` or `Simulate` token is spelled as one of its rule's words. An identifier token is an identifier that begins with none of those words. |
| Lexer.UnitShadowsIdentifier | lexer.py:22-24 | With no word boundary in the rules, `V1` tokenizes as the unit `V` followed by the number `1`. |
| Lexer.UnitPrefixSplitsIdentifier | lexer.py:22-23 | `Vout` tokenizes as the unit `V` followed by the identifier `out`. |
| Lexer.NonAsciiDigitIsNumber | lexer.py:24 | `\d` is Unicode-aware: an Arabic-Indic digit alone is a NUMBER token. |
| Lexer.StrayCharacterFails | lexer.py:54-55 | Any of `@`, `/`, `=` or `#` outside whitespace makes tokenizing fail. |
| Lexer.BlankSource | lexer.py:43-56 | Only empty or whitespace-only source tokenizes to `[EOF]`. |
| Lexer.TextsAreSourceWithoutWhitespace | lexer.py:42-57 | The token texts spell the source without its whitespace. |
| ExtendedLexer.Tokenize | Lexer.py:19-63 | `Lexer.py`'s tokenizer: its output is a well-formed token stream. |
| ExtendedLexer.UnreachableRulesShadowed | Lexer.py:19-32 | Every rule after the identifier rule whose type is not identifier, number, operator or symbol is shadowed. |
| ExtendedLexer.OnlyReachableKinds | Lexer.py:19-32 | This tokenizer yields only identifier, number, operator, symbol and EOF tokens. |
| ExtendedLexer.ComponentNameIsIdentifier | Lexer.py:20-22 | `Resistor` comes out as an identifier, not a component keyword. |
| ExtendedLexer.EqualsIsOperator | Lexer.py:29 | `=` is an operator token in this table, while `lexer.py` rejects it. |
| Parser.ParseEndpoints | parser.py:72-86 | The endpoint loop reads at least one endpoint and moves forward. |
| Parser.ParseParams | parser.py:103-111 | The parameter loop stops exactly at a `)` token. |
| Parser.ParseCommands | parser.py:96-114 | The command loop stops exactly at a `}` token. |
| Parser.ParseMembers | parser.py:127-136 | The body loop stops exactly at a `}` token and keeps the subcircuit's name. |
| Parser.CollectMembersPerKind | parser.py:127-139 | The body's components, connections and blocks are each kept in the order read, whatever the interleaving of kinds. |
| Parser.CollectPerKind | parser.py:36-57 | The program's five lists each keep the items of their kind in the order read, whatever the interleaving of kinds. |
| Syntax.ComponentShape | parser.py:59-67 | A component is read exactly when the next seven tokens are its keyword, name, `(`, a number, a unit, `)` and `;`. Any other first token fails, and the value read is a number lexeme. |
| Syntax.EndpointShape | parser.py:73-82 | An endpoint at EOF fails. A terminal is read exactly from `IDENT . IDENT`. Any other token, of any type, is taken alone as a node name. |
| Syntax.ConnectionShape | parser.py:69-89 | A connection is CONNECT, `(`, the endpoint list and then `)` and `;`. Any other first token fails. |
| Syntax.ParamsReadable | parser.py:103-111 | Every parameter read is a number lexeme, or a keyword text other than `)`. |
| Syntax.CommandShape | parser.py:97-114 | A command is a KEYWORD and `;`, with `( params )` between them exactly when `(` follows the keyword. Any other first token fails. |
| Syntax.CommandsReadable | parser.py:96-114 | Every command read before the `}` is one the printer can reproduce. |
| Syntax.SimulationShape | parser.py:91-120 | A block is SIMULATE, `{`, the commands up to `}`, and a `;` that is consumed exactly when it is there. Any other first token fails. |
| Syntax.SimulationWithoutSemicolon | parser.py:116-120 | A block may end at its `}`, leaving a following non-`;` token to the next production. |
| Syntax.MemberShape | parser.py:129-136 | A member is chosen by its first token's type. A token other than a component, CONNECT or SIMULATE keyword fails. |
| Syntax.MembersReadable | parser.py:127-136 | The body loop fails on a token that neither closes the body nor starts a member, and builds a body the printer can reproduce. |
| Syntax.SubcircuitShape | parser.py:123-139 | A subcircuit is SUBCIRCUIT, its name, `{`, the members up to `}`, and `;`. Any other first token fails. |
| Syntax.SubcircuitNeedsSemicolon | parser.py:137-138 | A subcircuit whose `}` is not followed by `;` fails, whatever its body. |
| Syntax.InstanceShape | parser.py:46-51 | An instantiation is read exactly from `IDENT IDENT ;`. Any other first token fails. |
| Syntax.ItemShape | parser.py:37-56 | An item is chosen by its first token's type. Any type but the four keywords and IDENTIFIER is an unexpected token. |
| Syntax.ItemsReadable | parser.py:37-57 | The main loop fails on a token that neither ends the stream nor starts an item, and builds a program the printer can reproduce. |
| Syntax.ParseReadable | parser.py:35-57 | A stream of just EOF parses to the empty program. A first token that starts no item fails. Every program returned is built from trees the printer can reproduce. |
| Syntax.PrintableIffReadable | parser.py:35-57 | A program prints in order exactly when each of its trees is one the parser can build. |
| Syntax.ParsedIsPrintable | parser.py:35-57 | Every program `parse` returns is printable, so by RoundTrip.ParseRender it parses back from its printed tokens. |
| Syntax.ParserImage | parser.py:35-57 | The programs `parse` can return are exactly the printable ones. |
| Pipeline.LexerFeedsParser | main.py:84-85 | Whatever `lexer.py` produces meets the parser's input requirement: one trailing EOF, and number lexemes in the NUMBER tokens. |
| Pipeline.Run | main.py:84-91 | Source to netlist succeeds exactly when the source tokenizes, the tokens parse, every instance names a subcircuit of the parsed program and every simulation command formats. |
| Pipeline.RunBlank | main.py:84-91 | Empty or whitespace-only source gives the empty netlist. |
| Pipeline.RunStray | main.py:84-91 | Source containing `@`, `/`, `=` or `#` fails. |
| RoundTrip.ParseRender | parser.py:35-57 | Parsing the tokens of any printable program gives that program back, and those tokens form a valid stream. |
| RoundTrip.ParseRenderItems | parser.py:35-57 | Parsing printed items, in any order, gathers them per kind in the order printed. |
| RoundTrip.ParseItemsLaid | parser.py:37-57 | The main loop reads laid-out items up to EOF and gathers them per kind. |
| RoundTrip.ParseComponentLaid | parser.py:59-67 | A printed component is read back whole, and the parse stops right after it. |
| RoundTrip.ParseEndpointsLaid | parser.py:72-86 | A printed endpoint list is read back whole, and the parse stops right after it. |
| RoundTrip.ParseConnectionLaid | parser.py:69-89 | A printed connection is read back whole, and the parse stops right after it. |
| RoundTrip.ParseParamsLaid | parser.py:100-112 | A printed parameter list is read back whole, and the parse stops right after it. |
| RoundTrip.ParseCommandLaid | parser.py:97-114 | A printed command is read back whole, and the parse stops right after it. |
| RoundTrip.ParseSimulationLaid | parser.py:91-120 | A printed simulation block is read back whole, and the parse stops right after it. |
| RoundTrip.ParseMembersLaid | parser.py:128-136 | A printed subcircuit body is read back with its members gathered per kind. |
| RoundTrip.ParseSubcircuitLaid | parser.py:123-139 | A printed subcircuit is read back whole, and the parse stops right after it. |
| RoundTrip.ParseInstanceLaid | parser.py:46-51 | A printed instance is read back whole, and the parse stops right after it. |
| Seqs.FirstWhere | interpreter.py:18 | The index found is that of the first element meeting the test. None means no element meets it. |
| Expansion.UnqualifyQualify | interpreter.py:25 | The `instance.` prefix given to a cloned name can be removed again to recover the template's name. |
| Expansion.CloneComponentInverse | interpreter.py:22-29 | A cloned component keeps its type, value and unit, and the template component can be recovered from it. |
| Expansion.CloneConnectionInverse | interpreter.py:31-44 | The template connection can be recovered from its clone. |
| Expansion.ClonedEndpoints | interpreter.py:33-43 | Endpoint by endpoint, a terminal gets the instance prefix on its component and keeps its terminal. A node name (`ground` included) is copied unchanged. |
| Expansion.ClonedComponents | interpreter.py:22-29 | One clone per template component, in order, and each clone gives back its template component. |
| Expansion.ClonedConnections | interpreter.py:31-44 | One clone per template connection, in order, and each clone gives back its template connection. |
| Expansion.TemplateIndex | interpreter.py:18 | The template found is the first subcircuit with the instance's template name. There is none exactly when no subcircuit has that name. |
| Expansion.Template | interpreter.py:18-20 | The template is one of the program's subcircuits and carries the requested name. |
| Expansion.Inline | interpreter.py:17-44 | Inlining only appends: the members already present stay, in place. |
| Expansion.ExpandInstances | interpreter.py:16-45 | Expansion succeeds exactly when every instance names a known subcircuit. Original components and connections stay in front, and simulations, subcircuits and instances are unchanged. |
| Expansion.InlineResolves | interpreter.py:17-20 | The loop fails exactly when some instance names no subcircuit. |
| Expansion.ExpandInline | interpreter.py:16-45 | The expanded lists are the originals followed by each instance's clones, instance by instance, in order. |
| Expansion.ExpandCounts | interpreter.py:22-44 | Expansion adds exactly as many components and connections as the templates of all instances hold. |
| Expansion.ExpandedComponents | interpreter.py:22-29 | An added component is exactly a clone of a component of some instance's template. |
| Expansion.ExpandedConnections | interpreter.py:31-44 | An added connection is exactly a clone of a connection of some instance's template. |
| Expansion.ClonedTerminalsNameClones | interpreter.py:25-37 | When each template's connections refer only to its own components, every renamed terminal names a cloned component. |
| Nets.Step | interpreter.py:48-66 | A connection either allocates nothing or takes the counter as its id and moves the counter up by one. |
| Nets.Build | interpreter.py:47-66 | One id per connection, and the counter grows by at most one per connection. |
| Nets.BuildSteps | interpreter.py:48-66 | The id of each connection is what one step gives it from the state the connections before it leave. |
| Nets.NodeNames | interpreter.py:53 | The names listed are exactly the connection's plain node names other than `ground`. |
| Nets.TerminalKeys | interpreter.py:64-66 | The keys listed are exactly the connection's component terminals. |
| Nets.Overwrite | interpreter.py:62-63 | After the assignments the listed keys map to the new id, and every other key keeps its old binding. |
| Nets.StepGround | interpreter.py:49-51 | A connection containing `ground` is net 0. It allocates nothing and leaves the node-name table alone. |
| Nets.StepNonGround | interpreter.py:49-61 | From a valid state, a connection gets net 0 exactly when it contains `ground`. |
| Nets.StepKnown | interpreter.py:54-58 | Without `ground`, a connection takes the id of its first node name that already has one, and allocates nothing. |
| Nets.StepFresh | interpreter.py:59-61 | With no known node name, a connection takes the counter, an id bound to nothing yet, and the counter grows by one. |
| Nets.TerminalsOnlyFresh | interpreter.py:53-61 | A connection of terminals alone always gets a new net: nets are never merged through terminals. |
| Nets.StepBinds | interpreter.py:62-66 | Afterwards the connection's terminals, and its node names if there is no `ground`, are bound to its id. Every other binding is unchanged. |
| Nets.StepValid | interpreter.py:47-66 | A step keeps node ids in 1..counter-1 and terminal ids below the counter. The id handed out is below the new counter, which grows by at most one. |
| Nets.BuildValid | interpreter.py:47-66 | After all connections the tables stay valid and every id handed out is below the final counter. The counter grows by at most one per connection. |
| Nets.BuildGroundIds | interpreter.py:48-61 | Connection by connection, the net is 0 exactly for those that contain `ground`. |
| Nets.FreshIdsInOrder | interpreter.py:59-61 | Newly allocated ids are consecutive from the starting counter, in connection order. The counter ends one past the last of them. |
| Nets.InitialFreshIds | interpreter.py:10-61 | From the interpreter's initial state the new nets are 1, 2, 3, ... in allocation order. |
| Nets.TerminalLastWins | interpreter.py:64-66 | A terminal is bound to the net of the last connection that names it. |
| Nets.TerminalUntouched | interpreter.py:64-66 | A terminal no connection names keeps its binding, or stays unbound. |
| Nets.NameLastWins | interpreter.py:62-63 | A node name is bound to the net of the last connection without `ground` that names it. |
| Netlist.FormatSim | interpreter.py:81-91 | Formatting fails exactly for a `transient` command, in any case, whose parameter count is not three. Otherwise the line starts with `.`. |
| Netlist.ComponentLine | interpreter.py:71-75 | The line starts with the component's name and a space, and ends with its value followed by its unit. |
| Netlist.GenerateNetlist | interpreter.py:68-79 | The netlist is produced exactly when every simulation command formats. |
| Netlist.Interpret | interpreter.py:8-79 | The interpreter succeeds exactly when every instance names a subcircuit and every simulation command formats. |
| Netlist.ParamTexts | interpreter.py:89 | One printed text per parameter, each the text of the parameter at the same position. |
| Netlist.FormatAll | interpreter.py:76-78 | The command lines are produced exactly when every command formats, one line per command, in order. |
| Netlist.FormatSimIgnoresCase | interpreter.py:82-91 | Command types that agree after lower-casing print the same line. |
| Netlist.TranFields | interpreter.py:85-87 | A `.TRAN` line splits into `.TRAN` followed by the step, stop and start parameters, in that order. |
| Netlist.ComponentLineFields | interpreter.py:71-75 | A component line splits into the name, the positive net, the negative net and the value with its unit. |
| Netlist.ComponentLineNets | interpreter.py:72-75 | The net fields read back as the ids bound to the `positive` and `negative` terminals, or 0 when unbound. |
| Netlist.TerminalNet | interpreter.py:64-75 | The net printed for a component terminal is that of the last connection naming it, or 0 when no connection names it. |
| Netlist.NetlistLinesInOrder | interpreter.py:68-79 | The netlist's lines are one per component in program order, then one per simulation command in block and command order. |

## Left out

- Netlist.ComponentLine / Netlist.ParamText / Netlist.GenerateNetlist: numbers stay as their lexemes. Python converts them with `float` and prints `str(float)`, so `1e3` prints as `1000.0` and `10` as `10.0`. That rendering is the parameter `num` of every printing operation, and float parsing and formatting are not modelled.
- Expansion.ExpandInstances: it returns a new program. The source appends to the caller's `Program` object in place, so code that reads `program.components` after building an interpreter sees the expanded lists. `Interpret` passes the expanded program on; the callers' later uses of the mutated object (drawing, JSON output) are outside the core.
- Results.Result: one failure outcome `Err` stands for every exception the core raises, and the exception classes differ in the source:
  - `SyntaxError` from the tokenizer (`lexer.py` line 55) and from a stray token in a subcircuit body (`parser.py` line 136);
  - `AttributeError` from every other parse failure: `consume` (`parser.py` line 32) and the main loop (`parser.py` line 55) build their message from `line` and `column`, which tokens do not have, so the message itself fails. `main.py` catches only `SyntaxError`, so these escape its handler; `cli.py` catches every exception;
  - `TypeError` from the four-argument `Token(...)` built when an endpoint is read at EOF and the parser steps past the last token;
  - `ValueError` from an unknown subcircuit and from a `transient` command without three parameters.
  The `IndexError` of `parser.py` line 75 cannot happen on a stream that ends in EOF, which `Parser.Stream` requires. Messages are not modelled, and neither is the partly built `lines` list when `_format_sim` raises.
- Lexer.Tokenize: each call models a fresh `Lexer` instance. The source's `self.tokens` grows across repeated `tokenize()` calls on one instance, and no caller does that.
- Netlist.GenerateNetlist: models one call on a freshly built interpreter, as `run` makes it. A second `generate_netlist` call on the same interpreter, which renumbers on top of the old tables, is not modelled.
- Strings.Lower / Strings.Upper: ASCII case mapping only. Python's `str.lower`/`str.upper` also map non-ASCII letters, which can reach `_format_sim` only through keyword tokens, and those are ASCII.
- Strings.IsDecimalDigit: the digit set of `\d` is Unicode 15.0's category Nd, as in Python 3.12. Other Python versions use other Unicode versions.
- `Interpreter.run` (printing), `main.py`'s drawing and file handling, and `cli.py`'s web server and semantic analysis are outside the core.
- `Lexer.py`'s tokenizer is modelled but not connected to the parser: `main.py` and `cli.py` use `lexer.py`'s tokenizer.
- The token stream's EOF token carries no text (`None` in the source). Tokens carry no line or column (`lexer.py` lines 28-31), so the parser's error messages, which read them, themselves fail; see Results.Result above.
- Parser: each production is stated as one acceptance test over the tokens at fixed offsets, instead of consume by consume. The first failing consume and the combined test fail on the same inputs.
- Nets.NetState: the terminal table is keyed by (component, terminal) pairs instead of nested dictionaries. Every access in the source goes through both levels.
