/** The recursive-descent parser of `parser.py`, as functions over a token
    stream and a position.

    The Python parser keeps a cursor `index` into the token list; here every
    production takes the position of the current token and returns what it
    built together with the position after it. Advancing past the last token
    makes the Python code construct a four-argument token that the two-field
    token class rejects, so it fails; a mismatch in `consume` and an
    unexpected token fail too. All of these are `Err`. The parser is only
    ever given tokenizer output, so its input is a `Stream`: it ends with the
    one EOF token and its NUMBER tokens are number lexemes. */
module Parser {
  import opened Results
  import opened Tokens
  import opened Seqs
  import opened Ast

  /** The token streams the tokenizer hands to the parser. */
  predicate Stream(toks: seq<Token>) {
    WellFormed(toks) && NumberTexts(toks)
  }

  function Word(kind: TokenType, text: string): Token {
    Token(kind, Some(text))
  }

  function Sym(s: string): Token {
    Token(Symbol, Some(s))
  }

  /** The test `consume(kind, value)` makes of the current token: its type is
      `kind` and, when a value is given, its text is that value. */
  predicate Accepts(tok: Token, kind: TokenType, value: Option<string>) {
    tok.kind == kind && (value.None? || tok.value == value)
  }

  // ---------------------------------------------------------------------------
  // The trees the parser can build

  /** The value was read from a NUMBER token, so it is a number lexeme. */
  predicate ReadableComponent(c: ComponentDeclaration) {
    IsNumberLexeme(c.value)
  }

  /** The endpoint loop reads at least one endpoint. */
  predicate ReadableConnection(c: Connection) {
    |c.endpoints| > 0
  }

  /** A token spelled `)` ends the parameter list instead of being read. */
  predicate ReadableParam(p: Param) {
    match p
    case NumberParam(l) => l != ")" && IsNumberLexeme(l)
    case WordParam(w) => w != ")"
  }

  /** A keyword spelled `}` ends the block instead of starting a command. */
  predicate ReadableCommand(c: SimulationCommand) {
    c.kind != "}" && forall i :: 0 <= i < |c.params| ==> ReadableParam(c.params[i])
  }

  predicate ReadableBlock(b: SimulationBlock) {
    forall c | c in b.commands :: ReadableCommand(c)
  }

  /** Inside a subcircuit body a component type spelled `}` ends the body. */
  predicate ReadableSubcircuit(s: Subcircuit) {
    && (forall c | c in s.components :: ReadableComponent(c) && c.kind != "}")
    && (forall c | c in s.connections :: ReadableConnection(c))
    && (forall b | b in s.simulations :: ReadableBlock(b))
  }

  predicate Readable(p: Program) {
    && (forall c | c in p.components :: ReadableComponent(c))
    && (forall c | c in p.connections :: ReadableConnection(c))
    && (forall b | b in p.simulations :: ReadableBlock(b))
    && (forall s | s in p.subcircuits :: ReadableSubcircuit(s))
  }

  // ---------------------------------------------------------------------------
  // Productions

  /** `parse_component`: `COMPONENT IDENT ( NUMBER UNIT ) ;`. The seven
      consumes read fixed positions and the first that rejects its token
      ends the parse, so the production succeeds exactly when all accept. */
  function ParseComponent(toks: seq<Token>, pos: nat): (r: Result<(ComponentDeclaration, nat)>)
    requires Stream(toks) && pos < |toks|
    ensures r.Ok? ==> pos < r.value.1 < |toks|
  {
    if && pos + 7 < |toks|
       && Accepts(toks[pos], ComponentKeyword, None) && Accepts(toks[pos + 1], Identifier, None)
       && Accepts(toks[pos + 2], Symbol, Some("(")) && Accepts(toks[pos + 3], Number, None)
       && Accepts(toks[pos + 4], Unit, None) && Accepts(toks[pos + 5], Symbol, Some(")"))
       && Accepts(toks[pos + 6], Symbol, Some(";"))
    then
      var c := ComponentDeclaration(toks[pos].value.value, toks[pos + 1].value.value,
                                    toks[pos + 3].value.value, toks[pos + 4].value.value);
      Ok((c, pos + 7))
    else
      Err
  }

  /** One endpoint of `parse_connection`: an identifier followed by `.` starts
      `comp . terminal`; any other token is taken, whatever its type, as a
      bare node name, and stepping past the EOF token fails. */
  function ParseEndpoint(toks: seq<Token>, pos: nat): (r: Result<(Endpoint, nat)>)
    requires Stream(toks) && pos < |toks|
    ensures r.Ok? ==> pos < r.value.1 < |toks|
  {
    if toks[pos].kind == Identifier && toks[pos + 1].value == Some(".") then
      // consuming the identifier itself cannot fail
      if pos + 3 < |toks| && Accepts(toks[pos + 1], Symbol, Some(".")) && Accepts(toks[pos + 2], Identifier, None) then
        Ok((Terminal(toks[pos].value.value, toks[pos + 2].value.value), pos + 3))
      else
        Err
    else if pos + 1 < |toks| then
      Ok((Node(toks[pos].value.value), pos + 1))
    else
      Err
  }

  /** The endpoint loop of `parse_connection`: endpoints separated by `,`. */
  function ParseEndpoints(toks: seq<Token>, pos: nat): (r: Result<(seq<Endpoint>, nat)>)
    requires Stream(toks) && pos < |toks|
    ensures r.Ok? ==> pos < r.value.1 < |toks| && |r.value.0| > 0
    decreases |toks| - pos
  {
    var first :- ParseEndpoint(toks, pos);
    var n := first.1;
    if toks[n].value == Some(",") then
      if n + 1 < |toks| && Accepts(toks[n], Symbol, Some(",")) then
        var rest :- ParseEndpoints(toks, n + 1);
        Ok(([first.0] + rest.0, rest.1))
      else
        Err
    else
      Ok(([first.0], n))
  }

  /** `parse_connection`: `CONNECT ( endpoint , ... ) ;`. */
  function ParseConnection(toks: seq<Token>, pos: nat): (r: Result<(Connection, nat)>)
    requires Stream(toks) && pos < |toks|
    ensures r.Ok? ==> pos < r.value.1 < |toks| && |r.value.0.endpoints| > 0
  {
    if pos + 2 < |toks| && Accepts(toks[pos], ConnectKeyword, None) && Accepts(toks[pos + 1], Symbol, Some("(")) then
      var endpoints :- ParseEndpoints(toks, pos + 2);
      var close := endpoints.1;
      if close + 2 < |toks| && Accepts(toks[close], Symbol, Some(")")) && Accepts(toks[close + 1], Symbol, Some(";")) then
        Ok((Connection(endpoints.0), close + 2))
      else
        Err
    else
      Err
  }

  /** The parameter loop of `parse_simulation`, up to (not including) the
      closing `)`: a NUMBER or else a KEYWORD, each optionally followed by `,`. */
  function ParseParams(toks: seq<Token>, pos: nat): (r: Result<(seq<Param>, nat)>)
    requires Stream(toks) && pos < |toks|
    ensures r.Ok? ==> pos <= r.value.1 < |toks| && toks[r.value.1].value == Some(")")
    decreases |toks| - pos
  {
    if toks[pos].value == Some(")") then Ok(([], pos))
    else if pos + 1 < |toks| && (toks[pos].kind == Number || Accepts(toks[pos], Keyword, None)) then
      var param := if toks[pos].kind == Number then NumberParam(toks[pos].value.value)
                   else WordParam(toks[pos].value.value);
      var n := pos + 1;
      if toks[n].value == Some(",") then
        if n + 1 < |toks| && Accepts(toks[n], Symbol, Some(",")) then
          var rest :- ParseParams(toks, n + 1);
          Ok(([param] + rest.0, rest.1))
        else
          Err
      else
        var rest :- ParseParams(toks, n);
        Ok(([param] + rest.0, rest.1))
    else
      Err
  }

  /** One command of `parse_simulation`: `KEYWORD [( params )] ;`. */
  function ParseCommand(toks: seq<Token>, pos: nat): (r: Result<(SimulationCommand, nat)>)
    requires Stream(toks) && pos < |toks|
    ensures r.Ok? ==> pos < r.value.1 < |toks|
  {
    if pos + 1 < |toks| && Accepts(toks[pos], Keyword, None) then
      var kind := toks[pos].value.value;
      if toks[pos + 1].value == Some("(") then
        if pos + 2 < |toks| && Accepts(toks[pos + 1], Symbol, Some("(")) then
          var params :- ParseParams(toks, pos + 2);
          var close := params.1;
          if close + 2 < |toks| && Accepts(toks[close], Symbol, Some(")")) && Accepts(toks[close + 1], Symbol, Some(";")) then
            Ok((SimulationCommand(kind, params.0), close + 2))
          else
            Err
        else
          Err
      else if pos + 2 < |toks| && Accepts(toks[pos + 1], Symbol, Some(";")) then
        Ok((SimulationCommand(kind, []), pos + 2))
      else
        Err
    else
      Err
  }

  /** The command loop of `parse_simulation`, up to (not including) the `}`. */
  function ParseCommands(toks: seq<Token>, pos: nat): (r: Result<(seq<SimulationCommand>, nat)>)
    requires Stream(toks) && pos < |toks|
    ensures r.Ok? ==> pos <= r.value.1 < |toks| && toks[r.value.1].value == Some("}")
    decreases |toks| - pos
  {
    if toks[pos].value == Some("}") then Ok(([], pos))
    else
      var cmd :- ParseCommand(toks, pos);
      var rest :- ParseCommands(toks, cmd.1);
      Ok(([cmd.0] + rest.0, rest.1))
  }

  /** `parse_simulation`: `SIMULATE { command ... } [;]`; the `;` is
      consumed only when it is there. */
  function ParseSimulation(toks: seq<Token>, pos: nat): (r: Result<(SimulationBlock, nat)>)
    requires Stream(toks) && pos < |toks|
    ensures r.Ok? ==> pos < r.value.1 < |toks|
  {
    if pos + 2 < |toks| && Accepts(toks[pos], SimulateKeyword, None) && Accepts(toks[pos + 1], Symbol, Some("{")) then
      var cmds :- ParseCommands(toks, pos + 2);
      var close := cmds.1;
      if close + 1 < |toks| && Accepts(toks[close], Symbol, Some("}")) then
        var next := if toks[close + 1] == Sym(";") then close + 2 else close + 1;
        Ok((SimulationBlock(cmds.0), next))
      else
        Err
    else
      Err
  }

  /** A member of a subcircuit body, as one step of its loop reads it. */
  datatype Member =
    | ComponentMember(component: ComponentDeclaration)
    | ConnectionMember(connection: Connection)
    | SimulationMember(simulation: SimulationBlock)

  /** The token type a member starts with. */
  function MemberStart(m: Member): TokenType {
    match m
    case ComponentMember(_) => ComponentKeyword
    case ConnectionMember(_) => ConnectKeyword
    case SimulationMember(_) => SimulateKeyword
  }

  predicate ReadableMember(m: Member) {
    match m
    case ComponentMember(c) => ReadableComponent(c) && c.kind != "}"
    case ConnectionMember(c) => ReadableConnection(c)
    case SimulationMember(b) => ReadableBlock(b)
  }

  /** One pass of the member loop of `parse_subcircuit`: the production
      chosen by the type of the current token. */
  function ParseMember(toks: seq<Token>, pos: nat): (r: Result<(Member, nat)>)
    requires Stream(toks) && pos < |toks|
    ensures r.Ok? ==> pos < r.value.1 < |toks|
  {
    if toks[pos].kind == ComponentKeyword then
      var c :- ParseComponent(toks, pos);
      Ok((ComponentMember(c.0), c.1))
    else if toks[pos].kind == ConnectKeyword then
      var c :- ParseConnection(toks, pos);
      Ok((ConnectionMember(c.0), c.1))
    else if toks[pos].kind == SimulateKeyword then
      var s :- ParseSimulation(toks, pos);
      Ok((SimulationMember(s.0), s.1))
    else
      Err
  }

  /** Puts a member in front of the list of its kind. */
  function AddMember(m: Member, s: Subcircuit): Subcircuit {
    match m
    case ComponentMember(c) => s.(components := [c] + s.components)
    case ConnectionMember(c) => s.(connections := [c] + s.connections)
    case SimulationMember(b) => s.(simulations := [b] + s.simulations)
  }

  lemma ReadableAddMember(m: Member, s: Subcircuit)
    ensures ReadableSubcircuit(AddMember(m, s)) <==> ReadableMember(m) && ReadableSubcircuit(s)
  {
    var t := AddMember(m, s);
    match m
    case ComponentMember(c) => assert c in t.components;
    case ConnectionMember(c) => assert c in t.connections;
    case SimulationMember(b) => assert b in t.simulations;
  }

  function MemberComponents(m: Member): seq<ComponentDeclaration> {
    if m.ComponentMember? then [m.component] else []
  }

  function MemberConnections(m: Member): seq<Connection> {
    if m.ConnectionMember? then [m.connection] else []
  }

  function MemberSimulations(m: Member): seq<SimulationBlock> {
    if m.SimulationMember? then [m.simulation] else []
  }

  /** The body the member loop builds from members read in this order. */
  function CollectMembers(name: string, ms: seq<Member>): (s: Subcircuit)
    ensures s.name == name
  {
    if |ms| == 0 then Subcircuit(name, [], [], []) else AddMember(ms[0], CollectMembers(name, ms[1..]))
  }

  /** The member loop of `parse_subcircuit`, up to (not including) the `}`:
      components, connections and simulation blocks, collected per kind in
      order of appearance. */
  function ParseMembers(toks: seq<Token>, pos: nat, name: string): (r: Result<(Subcircuit, nat)>)
    requires Stream(toks) && pos < |toks|
    ensures r.Ok? ==> pos <= r.value.1 < |toks| && toks[r.value.1].value == Some("}") && r.value.0.name == name
    decreases |toks| - pos
  {
    if toks[pos].value == Some("}") then Ok((Subcircuit(name, [], [], []), pos))
    else
      var m :- ParseMember(toks, pos);
      var rest :- ParseMembers(toks, m.1, name);
      Ok((AddMember(m.0, rest.0), rest.1))
  }

  /** `parse_subcircuit`: `SUBCIRCUIT IDENT { member ... } ;`. */
  function ParseSubcircuit(toks: seq<Token>, pos: nat): (r: Result<(Subcircuit, nat)>)
    requires Stream(toks) && pos < |toks|
    ensures r.Ok? ==> pos < r.value.1 < |toks|
  {
    if && pos + 3 < |toks| && Accepts(toks[pos], SubcircuitKeyword, None)
       && Accepts(toks[pos + 1], Identifier, None) && Accepts(toks[pos + 2], Symbol, Some("{"))
    then
      var body :- ParseMembers(toks, pos + 3, toks[pos + 1].value.value);
      var close := body.1;
      if close + 2 < |toks| && Accepts(toks[close], Symbol, Some("}")) && Accepts(toks[close + 1], Symbol, Some(";")) then
        Ok((body.0, close + 2))
      else
        Err
    else
      Err
  }

  /** `OpAmp U1;`: a subcircuit instantiation, two identifiers and a `;`. */
  function ParseInstance(toks: seq<Token>, pos: nat): (r: Result<(SubcircuitInstance, nat)>)
    requires Stream(toks) && pos < |toks|
    ensures r.Ok? ==> pos < r.value.1 < |toks|
  {
    if && pos + 3 < |toks| && Accepts(toks[pos], Identifier, None)
       && Accepts(toks[pos + 1], Identifier, None) && Accepts(toks[pos + 2], Symbol, Some(";"))
    then
      Ok((SubcircuitInstance(toks[pos].value.value, toks[pos + 1].value.value), pos + 3))
    else
      Err
  }

  /** A top-level item of a program, as one pass of the main loop reads it. */
  datatype Item =
    | ComponentItem(component: ComponentDeclaration)
    | ConnectionItem(connection: Connection)
    | SimulationItem(simulation: SimulationBlock)
    | SubcircuitItem(subcircuit: Subcircuit)
    | InstanceItem(instance: SubcircuitInstance)

  /** The token type an item starts with. */
  function ItemStart(it: Item): TokenType {
    match it
    case ComponentItem(_) => ComponentKeyword
    case ConnectionItem(_) => ConnectKeyword
    case SimulationItem(_) => SimulateKeyword
    case SubcircuitItem(_) => SubcircuitKeyword
    case InstanceItem(_) => Identifier
  }

  predicate ReadableItem(it: Item) {
    match it
    case ComponentItem(c) => ReadableComponent(c)
    case ConnectionItem(c) => ReadableConnection(c)
    case SimulationItem(b) => ReadableBlock(b)
    case SubcircuitItem(s) => ReadableSubcircuit(s)
    case InstanceItem(_) => true
  }

  /** One pass of the main loop of `parse`: the production chosen by the type
      of the current token; any other type is an unexpected token. */
  function ParseItem(toks: seq<Token>, pos: nat): (r: Result<(Item, nat)>)
    requires Stream(toks) && pos < |toks|
    ensures r.Ok? ==> pos < r.value.1 < |toks|
  {
    var kind := toks[pos].kind;
    if kind == ComponentKeyword then
      var c :- ParseComponent(toks, pos);
      Ok((ComponentItem(c.0), c.1))
    else if kind == ConnectKeyword then
      var c :- ParseConnection(toks, pos);
      Ok((ConnectionItem(c.0), c.1))
    else if kind == SimulateKeyword then
      var s :- ParseSimulation(toks, pos);
      Ok((SimulationItem(s.0), s.1))
    else if kind == SubcircuitKeyword then
      var s :- ParseSubcircuit(toks, pos);
      Ok((SubcircuitItem(s.0), s.1))
    else if kind == Identifier then
      var i :- ParseInstance(toks, pos);
      Ok((InstanceItem(i.0), i.1))
    else
      Err
  }

  /** Puts an item in front of the list of its kind. */
  function AddItem(it: Item, p: Program): Program {
    match it
    case ComponentItem(c) => p.(components := [c] + p.components)
    case ConnectionItem(c) => p.(connections := [c] + p.connections)
    case SimulationItem(b) => p.(simulations := [b] + p.simulations)
    case SubcircuitItem(s) => p.(subcircuits := [s] + p.subcircuits)
    case InstanceItem(i) => p.(instances := [i] + p.instances)
  }

  lemma ReadableAddItem(it: Item, p: Program)
    ensures Readable(AddItem(it, p)) <==> ReadableItem(it) && Readable(p)
  {
    var q := AddItem(it, p);
    match it
    case ComponentItem(c) => assert c in q.components;
    case ConnectionItem(c) => assert c in q.connections;
    case SimulationItem(b) => assert b in q.simulations;
    case SubcircuitItem(s) => assert s in q.subcircuits;
    case InstanceItem(_) =>
  }

  function ItemComponents(it: Item): seq<ComponentDeclaration> {
    if it.ComponentItem? then [it.component] else []
  }

  function ItemConnections(it: Item): seq<Connection> {
    if it.ConnectionItem? then [it.connection] else []
  }

  function ItemSimulations(it: Item): seq<SimulationBlock> {
    if it.SimulationItem? then [it.simulation] else []
  }

  function ItemSubcircuits(it: Item): seq<Subcircuit> {
    if it.SubcircuitItem? then [it.subcircuit] else []
  }

  function ItemInstances(it: Item): seq<SubcircuitInstance> {
    if it.InstanceItem? then [it.instance] else []
  }

  /** The program the main loop builds from items read in this order. */
  function Collect(items: seq<Item>): Program {
    if |items| == 0 then EmptyProgram else AddItem(items[0], Collect(items[1..]))
  }

  /** The member loop collects per kind: each list of the body holds the
      members of its kind in the order they were read. */
  lemma {:induction false} CollectMembersPerKind(name: string, ms: seq<Member>)
    ensures CollectMembers(name, ms)
            == Subcircuit(name, FlatMap(ms, MemberComponents), FlatMap(ms, MemberConnections), FlatMap(ms, MemberSimulations))
    decreases |ms|
  {
    if |ms| > 0 {
      CollectMembersPerKind(name, ms[1..]);
    }
  }

  /** The main loop collects per kind: each list of the program holds the
      items of its kind in the order they were read. */
  lemma {:induction false} CollectPerKind(items: seq<Item>)
    ensures Collect(items)
            == Program(FlatMap(items, ItemComponents), FlatMap(items, ItemConnections), FlatMap(items, ItemSimulations),
                       FlatMap(items, ItemSubcircuits), FlatMap(items, ItemInstances))
    decreases |items|
  {
    if |items| > 0 {
      CollectPerKind(items[1..]);
    }
  }

  /** The main loop of `parse`, from `pos` to EOF. */
  function ParseItems(toks: seq<Token>, pos: nat): (r: Result<Program>)
    requires Stream(toks) && pos < |toks|
    decreases |toks| - pos
  {
    if toks[pos].kind == Eof then Ok(EmptyProgram)
    else
      var it :- ParseItem(toks, pos);
      var rest :- ParseItems(toks, it.1);
      Ok(AddItem(it.0, rest))
  }

  /** `Parser(tokens).parse()`. */
  function Parse(toks: seq<Token>): (r: Result<Program>)
    requires Stream(toks)
  {
    ParseItems(toks, 0)
  }

  // ---------------------------------------------------------------------------
  // Single steps of the loops, stated over the results of the parts

  lemma EndpointsLast(toks: seq<Token>, pos: nat, e: Endpoint, n: nat)
    requires Stream(toks) && pos < |toks| && ParseEndpoint(toks, pos) == Ok((e, n))
    requires toks[n].value != Some(",")
    ensures ParseEndpoints(toks, pos) == Ok(([e], n))
  {
  }

  lemma EndpointsCons(toks: seq<Token>, pos: nat, e: Endpoint, n: nat, rest: seq<Endpoint>, m: nat)
    requires Stream(toks) && pos < |toks| && ParseEndpoint(toks, pos) == Ok((e, n))
    requires toks[n] == Sym(",") && n + 1 < |toks| && ParseEndpoints(toks, n + 1) == Ok((rest, m))
    ensures ParseEndpoints(toks, pos) == Ok(([e] + rest, m))
  {
  }

  /** A parameter token, an optional `,`, then the rest of the list. */
  lemma ParamsCons(toks: seq<Token>, pos: nat, p: Param, n: nat, rest: seq<Param>, m: nat)
    requires Stream(toks) && pos + 1 < |toks| && toks[pos].value != Some(")")
    requires match p
             case NumberParam(l) => toks[pos] == Token(Number, Some(l))
             case WordParam(w) => toks[pos] == Token(Keyword, Some(w))
    requires (toks[pos + 1] == Sym(",") && n == pos + 2) || (toks[pos + 1].value != Some(",") && n == pos + 1)
    requires n < |toks| && ParseParams(toks, n) == Ok((rest, m))
    ensures ParseParams(toks, pos) == Ok(([p] + rest, m))
  {
  }

  lemma CommandsCons(toks: seq<Token>, pos: nat, c: SimulationCommand, n: nat, rest: seq<SimulationCommand>, m: nat)
    requires Stream(toks) && pos < |toks| && toks[pos].value != Some("}")
    requires ParseCommand(toks, pos) == Ok((c, n)) && ParseCommands(toks, n) == Ok((rest, m))
    ensures ParseCommands(toks, pos) == Ok(([c] + rest, m))
  {
  }

  lemma MembersCons(toks: seq<Token>, pos: nat, name: string, m: Member, n: nat, rest: Subcircuit, k: nat)
    requires Stream(toks) && pos < |toks| && toks[pos].value != Some("}")
    requires ParseMember(toks, pos) == Ok((m, n)) && ParseMembers(toks, n, name) == Ok((rest, k))
    ensures ParseMembers(toks, pos, name) == Ok((AddMember(m, rest), k))
  {
  }

  lemma ItemsCons(toks: seq<Token>, pos: nat, it: Item, n: nat, rest: Program)
    requires Stream(toks) && pos < |toks| && toks[pos].kind != Eof
    requires ParseItem(toks, pos) == Ok((it, n)) && ParseItems(toks, n) == Ok(rest)
    ensures ParseItems(toks, pos) == Ok(AddItem(it, rest))
  {
  }
}
