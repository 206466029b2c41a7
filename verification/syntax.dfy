/** What the parser accepts and rejects, stated over printed token
    fragments: the exact shape of the fixed-length productions, the optional
    `;` after a simulation block against the mandatory one after a
    subcircuit, and the set of trees the parser can return, which is exactly
    the set the printer can reproduce. */
module Syntax {
  import opened Results
  import opened Tokens
  import opened Ast
  import opened Parser
  import opened Unparse
  import opened RoundTrip

  // ---------------------------------------------------------------------------
  // What each production reads, and what it rejects

  /** `parse_component` succeeds exactly on the seven tokens of a
      declaration, so on any first token but a component keyword it fails;
      the value it keeps is the text of a NUMBER token. */
  lemma ComponentShape(toks: seq<Token>, pos: nat, c: ComponentDeclaration, n: nat)
    requires Stream(toks) && pos < |toks|
    ensures ParseComponent(toks, pos) == Ok((c, n)) <==> n == pos + 7 && n <= |toks| && toks[pos..n] == ComponentTokens(c)
    ensures toks[pos].kind != ComponentKeyword ==> ParseComponent(toks, pos).Err?
    ensures ParseComponent(toks, pos).Ok? ==> ReadableComponent(ParseComponent(toks, pos).value.0)
  {
    var want := ComponentTokens(c);
    if n == pos + 7 && n <= |toks| && toks[pos..n] == want {
      forall k | 0 <= k < 7
        ensures toks[pos + k] == want[k]
      {
        assert toks[pos..n][k] == toks[pos + k];
      }
      assert toks[pos + 6] != EofToken;
    }
    if ParseComponent(toks, pos) == Ok((c, n)) {
      assert toks[pos..n] == want;
    }
    if ParseComponent(toks, pos).Ok? {
      assert NumberTextAt(toks, pos + 3);
    }
  }

  /** An endpoint past the last token fails. A terminal is exactly
      `IDENT . IDENT`; any other token, whatever its type, is taken as a
      node name on its own. */
  lemma EndpointShape(toks: seq<Token>, pos: nat, comp: string, term: string, n: nat)
    requires Stream(toks) && pos < |toks|
    ensures toks[pos].kind == Eof ==> ParseEndpoint(toks, pos).Err?
    ensures toks[pos].kind != Eof && !(toks[pos].kind == Identifier && toks[pos + 1].value == Some(".")) ==>
              ParseEndpoint(toks, pos) == Ok((Node(toks[pos].value.value), pos + 1))
    ensures ParseEndpoint(toks, pos) == Ok((Terminal(comp, term), n))
            <==> n == pos + 3 && n <= |toks| && toks[pos..n] == EndpointTokens(Terminal(comp, term))
  {
    var want := EndpointTokens(Terminal(comp, term));
    if n == pos + 3 && n <= |toks| && toks[pos..n] == want {
      forall k | 0 <= k < 3
        ensures toks[pos + k] == want[k]
      {
        assert toks[pos..n][k] == toks[pos + k];
      }
      assert toks[pos + 2] != EofToken;
    }
    if ParseEndpoint(toks, pos) == Ok((Terminal(comp, term), n)) {
      assert toks[pos..n] == want;
    }
  }

  /** A connection is a CONNECT token, `(`, the endpoint list and `) ;`;
      any other first token fails. */
  lemma ConnectionShape(toks: seq<Token>, pos: nat)
    requires Stream(toks) && pos < |toks|
    ensures toks[pos].kind != ConnectKeyword ==> ParseConnection(toks, pos).Err?
    ensures ParseConnection(toks, pos).Ok? ==>
              var (c, n) := ParseConnection(toks, pos).value;
              && pos + 5 <= n < |toks| && toks[pos + 1] == Sym("(")
              && ParseEndpoints(toks, pos + 2) == Ok((c.endpoints, n - 2))
              && toks[n - 2] == Sym(")") && toks[n - 1] == Sym(";")
              && ReadableConnection(c)
  {
  }

  /** Every parameter read is a number lexeme or a keyword, neither of them
      `)`. */
  lemma {:induction false} ParamsReadable(toks: seq<Token>, pos: nat)
    requires Stream(toks) && pos < |toks|
    ensures ParseParams(toks, pos).Ok? ==>
              var ps := ParseParams(toks, pos).value.0;
              forall i :: 0 <= i < |ps| ==> ReadableParam(ps[i])
    decreases |toks| - pos
  {
    if && ParseParams(toks, pos).Ok? && toks[pos].value != Some(")") {
      assert NumberTextAt(toks, pos);
      var param := if toks[pos].kind == Number then NumberParam(toks[pos].value.value) else WordParam(toks[pos].value.value);
      assert ReadableParam(param);
      var next := if toks[pos + 1].value == Some(",") then pos + 2 else pos + 1;
      ParamsReadable(toks, next);
      assert ParseParams(toks, next).Ok?;
      var rest := ParseParams(toks, next).value.0;
      assert forall i :: 0 <= i < |rest| ==> ReadableParam(rest[i]);
      var ps := ParseParams(toks, pos).value.0;
      assert ps == [param] + rest;
      forall i | 0 <= i < |ps|
        ensures ReadableParam(ps[i])
      {
        if i > 0 {
          assert ReadableParam(rest[i - 1]);
          assert ps[i] == rest[i - 1];
        } else {
          assert ps[0] == param;
        }
      }
    }
  }

  /** A command is a KEYWORD token and `;`, with `( params )` in between
      exactly when the token after the keyword is `(`; any other first
      token fails. */
  lemma CommandShape(toks: seq<Token>, pos: nat)
    requires Stream(toks) && pos < |toks|
    ensures toks[pos].kind != Keyword ==> ParseCommand(toks, pos).Err?
    ensures ParseCommand(toks, pos).Ok? ==>
              var (c, n) := ParseCommand(toks, pos).value;
              && pos + 2 <= n < |toks| && toks[pos] == Word(Keyword, c.kind) && toks[n - 1] == Sym(";")
              && (toks[pos + 1].value != Some("(") ==> n == pos + 2 && c.params == [])
              && (toks[pos + 1].value == Some("(") ==>
                    && pos + 4 <= n && toks[pos + 1] == Sym("(") && toks[n - 2] == Sym(")")
                    && ParseParams(toks, pos + 2) == Ok((c.params, n - 2)))
              && (toks[pos].value != Some("}") ==> ReadableCommand(c))
  {
    if pos + 2 < |toks| {
      ParamsReadable(toks, pos + 2);
    }
  }

  /** Every command read before the `}` is readable. */
  lemma {:induction false} CommandsReadable(toks: seq<Token>, pos: nat)
    requires Stream(toks) && pos < |toks|
    ensures ParseCommands(toks, pos).Ok? ==> forall c | c in ParseCommands(toks, pos).value.0 :: ReadableCommand(c)
    decreases |toks| - pos
  {
    if toks[pos].value != Some("}") {
      CommandShape(toks, pos);
      if ParseCommand(toks, pos).Ok? {
        CommandsReadable(toks, ParseCommand(toks, pos).value.1);
      }
    }
  }

  /** A block is a SIMULATE token, `{`, the commands up to `}`, and a `;`
      that is consumed exactly when it is there; any other first token
      fails. */
  lemma SimulationShape(toks: seq<Token>, pos: nat)
    requires Stream(toks) && pos < |toks|
    ensures toks[pos].kind != SimulateKeyword ==> ParseSimulation(toks, pos).Err?
    ensures ParseSimulation(toks, pos).Ok? ==>
              var (b, n) := ParseSimulation(toks, pos).value;
              pos + 3 <= n < |toks| &&
              var close := if toks[n - 1] == Sym(";") then n - 2 else n - 1;
              && pos + 2 <= close && toks[pos + 1] == Sym("{") && toks[close] == Sym("}")
              && ParseCommands(toks, pos + 2) == Ok((b.commands, close))
              && (n == close + 2 <==> toks[close + 1] == Sym(";"))
              && ReadableBlock(b)
  {
    if pos + 2 < |toks| {
      CommandsReadable(toks, pos + 2);
    }
  }

  // ---------------------------------------------------------------------------
  // The closing `;`

  /** A simulation block may end at its `}`: the token after it, when it is
      not `;`, is left for the next production. */
  lemma SimulationWithoutSemicolon(toks: seq<Token>, pos: nat, cs: seq<SimulationCommand>, close: nat)
    requires Stream(toks) && pos + 2 < |toks| && toks[pos].kind == SimulateKeyword && toks[pos + 1] == Sym("{")
    requires ParseCommands(toks, pos + 2) == Ok((cs, close))
    requires close + 1 < |toks| && toks[close] == Sym("}") && toks[close + 1] != Sym(";")
    ensures ParseSimulation(toks, pos) == Ok((SimulationBlock(cs), close + 1))
  {
  }

  /** A subcircuit must end with `};`: whatever its body, a token other than
      `;` after the closing `}` fails the parse. */
  lemma SubcircuitNeedsSemicolon(toks: seq<Token>, pos: nat, body: Subcircuit, close: nat)
    requires Stream(toks) && pos + 3 < |toks| && toks[pos + 1].kind == Identifier
    requires ParseMembers(toks, pos + 3, toks[pos + 1].value.value) == Ok((body, close))
    requires close + 1 < |toks| && toks[close + 1] != Sym(";")
    ensures ParseSubcircuit(toks, pos).Err?
  {
  }

  // ---------------------------------------------------------------------------
  // Subcircuits and programs

  /** A member is chosen by its first token; any token but a component,
      CONNECT or SIMULATE keyword fails. */
  lemma MemberShape(toks: seq<Token>, pos: nat)
    requires Stream(toks) && pos < |toks|
    ensures toks[pos].kind !in {ComponentKeyword, ConnectKeyword, SimulateKeyword} ==> ParseMember(toks, pos).Err?
    ensures ParseMember(toks, pos).Ok? ==>
              var m := ParseMember(toks, pos).value.0;
              MemberStart(m) == toks[pos].kind && (toks[pos].value != Some("}") ==> ReadableMember(m))
  {
    ComponentShape(toks, pos, ComponentDeclaration("", "", "", ""), 0);
    ConnectionShape(toks, pos);
    SimulationShape(toks, pos);
    if ParseMember(toks, pos).Ok? && toks[pos].kind == ComponentKeyword {
      var (c, n) := ParseComponent(toks, pos).value;
      ComponentShape(toks, pos, c, n);
      assert toks[pos] == ComponentTokens(c)[0] by {
        assert toks[pos..n][0] == toks[pos];
      }
    }
  }

  /** The member loop keeps the subcircuit's name, builds a readable body,
      and fails on a token that neither closes the body nor starts a
      member. */
  lemma {:induction false} MembersReadable(toks: seq<Token>, pos: nat, name: string)
    requires Stream(toks) && pos < |toks|
    ensures toks[pos].value != Some("}") && toks[pos].kind !in {ComponentKeyword, ConnectKeyword, SimulateKeyword} ==>
              ParseMembers(toks, pos, name).Err?
    ensures ParseMembers(toks, pos, name).Ok? ==> ReadableSubcircuit(ParseMembers(toks, pos, name).value.0)
    decreases |toks| - pos
  {
    if toks[pos].value != Some("}") {
      MemberShape(toks, pos);
      if ParseMember(toks, pos).Ok? {
        var (m, n) := ParseMember(toks, pos).value;
        MembersReadable(toks, n, name);
        if ParseMembers(toks, n, name).Ok? {
          ReadableAddMember(m, ParseMembers(toks, n, name).value.0);
        }
      }
    }
  }

  /** A subcircuit is SUBCIRCUIT, its name, `{`, the members up to `}`, and
      a mandatory `;`; any other first token fails. */
  lemma SubcircuitShape(toks: seq<Token>, pos: nat)
    requires Stream(toks) && pos < |toks|
    ensures toks[pos].kind != SubcircuitKeyword ==> ParseSubcircuit(toks, pos).Err?
    ensures ParseSubcircuit(toks, pos).Ok? ==>
              var (s, n) := ParseSubcircuit(toks, pos).value;
              && pos + 5 <= n < |toks| && toks[pos + 1] == Word(Identifier, s.name) && toks[pos + 2] == Sym("{")
              && ParseMembers(toks, pos + 3, s.name) == Ok((s, n - 2))
              && toks[n - 2] == Sym("}") && toks[n - 1] == Sym(";")
              && ReadableSubcircuit(s)
  {
    if pos + 3 < |toks| && toks[pos + 1].kind == Identifier {
      MembersReadable(toks, pos + 3, toks[pos + 1].value.value);
    }
  }

  /** An instantiation is exactly `IDENT IDENT ;`. */
  lemma InstanceShape(toks: seq<Token>, pos: nat, i: SubcircuitInstance, n: nat)
    requires Stream(toks) && pos < |toks|
    ensures ParseInstance(toks, pos) == Ok((i, n)) <==> n == pos + 3 && n <= |toks| && toks[pos..n] == InstanceTokens(i)
    ensures toks[pos].kind != Identifier ==> ParseInstance(toks, pos).Err?
  {
    var want := InstanceTokens(i);
    if n == pos + 3 && n <= |toks| && toks[pos..n] == want {
      forall k | 0 <= k < 3
        ensures toks[pos + k] == want[k]
      {
        assert toks[pos..n][k] == toks[pos + k];
      }
      assert toks[pos + 2] != EofToken;
    }
    if ParseInstance(toks, pos) == Ok((i, n)) {
      assert toks[pos..n] == want;
    }
  }

  /** An item is chosen by its first token; any token type but the four
      keywords and an identifier is an unexpected token. */
  lemma ItemShape(toks: seq<Token>, pos: nat)
    requires Stream(toks) && pos < |toks|
    ensures toks[pos].kind !in {ComponentKeyword, ConnectKeyword, SimulateKeyword, SubcircuitKeyword, Identifier} ==>
              ParseItem(toks, pos).Err?
    ensures ParseItem(toks, pos).Ok? ==>
              var it := ParseItem(toks, pos).value.0;
              ItemStart(it) == toks[pos].kind && ReadableItem(it)
  {
    ComponentShape(toks, pos, ComponentDeclaration("", "", "", ""), 0);
    ConnectionShape(toks, pos);
    SimulationShape(toks, pos);
    SubcircuitShape(toks, pos);
  }

  /** The main loop builds a readable program and fails on a token that
      neither ends the stream nor starts an item. */
  lemma {:induction false} ItemsReadable(toks: seq<Token>, pos: nat)
    requires Stream(toks) && pos < |toks|
    ensures toks[pos].kind !in {Eof, ComponentKeyword, ConnectKeyword, SimulateKeyword, SubcircuitKeyword, Identifier} ==>
              ParseItems(toks, pos).Err?
    ensures ParseItems(toks, pos).Ok? ==> Readable(ParseItems(toks, pos).value)
    decreases |toks| - pos
  {
    if toks[pos].kind != Eof {
      ItemShape(toks, pos);
      if ParseItem(toks, pos).Ok? {
        var (it, n) := ParseItem(toks, pos).value;
        ItemsReadable(toks, n);
        if ParseItems(toks, n).Ok? {
          ReadableAddItem(it, ParseItems(toks, n).value);
        }
      }
    }
  }

  /** `parse` gives the empty program for a stream that is only EOF, fails
      when the first token starts no item, and returns readable programs. */
  lemma ParseReadable(toks: seq<Token>)
    requires Stream(toks)
    ensures toks[0].kind == Eof ==> Parse(toks) == Ok(EmptyProgram)
    ensures toks[0].kind !in {Eof, ComponentKeyword, ConnectKeyword, SimulateKeyword, SubcircuitKeyword, Identifier} ==>
              Parse(toks).Err?
    ensures Parse(toks).Ok? ==> Readable(Parse(toks).value)
  {
    ItemsReadable(toks, 0);
  }

  // ---------------------------------------------------------------------------
  // The trees the parser returns are the printable ones

  lemma PrintableMembersCons(m: Member, ms: seq<Member>)
    ensures PrintableMembers([m] + ms) <==> ReadableMember(m) && PrintableMembers(ms)
  {
    assert m in [m] + ms;
    assert forall x | x in ms :: x in [m] + ms;
  }

  lemma PrintableItemsCons(it: Item, items: seq<Item>)
    ensures PrintableItems([it] + items) <==> PrintableItem(it) && PrintableItems(items)
  {
    assert it in [it] + items;
    assert forall x | x in items :: x in [it] + items;
  }

  /** A body prints in order exactly when each of its lists is readable. */
  lemma {:induction false} PrintableMembersReadable(s: Subcircuit)
    ensures PrintableMembers(SubcircuitMembers(s)) <==> ReadableSubcircuit(s)
    decreases MemberCount(s)
  {
    if MemberCount(s) > 0 {
      var (m, t) := FirstMember(s);
      PrintableMembersReadable(t);
      ReadableAddMember(m, t);
      assert SubcircuitMembers(s) == [m] + SubcircuitMembers(t);
      PrintableMembersCons(m, SubcircuitMembers(t));
    }
  }

  lemma PrintableItemReadable(it: Item)
    ensures PrintableItem(it) <==> ReadableItem(it)
  {
    if it.SubcircuitItem? {
      PrintableMembersReadable(it.subcircuit);
    }
  }

  /** The order of printing does not matter: a program is printable exactly
      when every tree in it is one the parser can build. */
  lemma {:induction false} PrintableIffReadable(p: Program)
    ensures Printable(p) <==> Readable(p)
    decreases ItemCount(p)
  {
    if ItemCount(p) > 0 {
      var (it, q) := FirstItem(p);
      PrintableIffReadable(q);
      ReadableAddItem(it, q);
      PrintableItemReadable(it);
      assert ProgramItems(p) == [it] + ProgramItems(q);
      PrintableItemsCons(it, ProgramItems(q));
    }
  }

  /** Everything `parse` returns can be printed and read back. */
  lemma ParsedIsPrintable(toks: seq<Token>)
    requires Stream(toks) && Parse(toks).Ok?
    ensures Printable(Parse(toks).value)
  {
    ParseReadable(toks);
    PrintableIffReadable(Parse(toks).value);
  }

  /** The programs `parse` can return are exactly the printable ones. */
  lemma ParserImage(p: Program)
    ensures Printable(p) <==> exists toks :: Stream(toks) && Parse(toks) == Ok(p)
  {
    if Printable(p) {
      ParseRender(p);
    }
    if exists toks :: Stream(toks) && Parse(toks) == Ok(p) {
      var toks :| Stream(toks) && Parse(toks) == Ok(p);
      ParsedIsPrintable(toks);
    }
  }
}
