/** Parsing what the printer writes gives the tree back.

    Each lemma here starts from a layout (`Layout`): the tokens of a tree,
    placed index by index in a stream. It shows that the matching
    production of the parser reads exactly that tree and stops right after
    it. The lists are taken one element at a time: a step lemma combines
    the element's production with the parser's single-step lemmas, and the
    lemma for the list does the recursion. */
module RoundTrip {
  import opened Results
  import opened Tokens
  import opened Ast
  import opened Parser
  import opened Unparse
  import opened Layout

  // ---------------------------------------------------------------------------
  // Induction along a row

  /** A property of a position and a list that holds where a row ends and
      that every laid element extends backwards holds at the start of the
      row. */
  lemma {:induction false} RowInduction<T>(toks: seq<Token>, pos: nat, xs: seq<T>,
      laid: (seq<Token>, nat, T) -> bool, width: T -> nat, stop: Token -> bool, parsed: (nat, seq<T>) -> bool)
    requires Row(toks, pos, xs, laid, width, stop)
    requires forall p: nat | p < |toks| && stop(toks[p]) :: parsed(p, [])
    requires forall p: nat, ys: seq<T> | && |ys| > 0 && laid(toks, p, ys[0]) && p + width(ys[0]) < |toks|
                                         && parsed(p + width(ys[0]), ys[1..]) :: parsed(p, ys)
    ensures parsed(pos, xs)
    decreases |xs|
  {
    if |xs| > 0 {
      RowInduction(toks, pos + width(xs[0]), xs[1..], laid, width, stop, parsed);
    }
  }

  // ---------------------------------------------------------------------------
  // Components and connections

  lemma ParseComponentLaid(toks: seq<Token>, pos: nat, c: ComponentDeclaration)
    requires Stream(toks) && ComponentLaid(toks, pos, c)
    ensures ParseComponent(toks, pos) == Ok((c, pos + ComponentWidth))
  {
  }

  /** An endpoint, when the token after it is not `.`. */
  lemma ParseEndpointLaid(toks: seq<Token>, pos: nat, e: Endpoint)
    requires Stream(toks) && EndpointLaid(toks, pos, e)
    requires pos + EndpointWidth(e) < |toks| && toks[pos + EndpointWidth(e)].value != Some(".")
    ensures ParseEndpoint(toks, pos) == Ok((e, pos + EndpointWidth(e)))
  {
  }

  lemma {:induction false} ParseEndpointsLaid(toks: seq<Token>, pos: nat, es: seq<Endpoint>)
    requires Stream(toks) && EndpointsLaid(toks, pos, es)
    ensures ParseEndpoints(toks, pos) == Ok((es, pos + EndpointListWidth(es)))
    decreases |es|
  {
    var n := pos + EndpointWidth(es[0]);
    ParseEndpointLaid(toks, pos, es[0]);
    if |es| == 1 {
      EndpointsLast(toks, pos, es[0], n);
      assert [es[0]] == es;
    } else {
      ParseEndpointsLaid(toks, n + 1, es[1..]);
      EndpointsCons(toks, pos, es[0], n, es[1..], n + 1 + EndpointListWidth(es[1..]));
      assert [es[0]] + es[1..] == es;
    }
  }

  lemma ParseConnectionLaid(toks: seq<Token>, pos: nat, c: Connection)
    requires Stream(toks) && ConnectionLaid(toks, pos, c)
    ensures ParseConnection(toks, pos) == Ok((c, pos + ConnectionWidth(c)))
  {
    ParseEndpointsLaid(toks, pos + 2, c.endpoints);
  }

  // ---------------------------------------------------------------------------
  // Simulation blocks

  lemma {:induction false} ParseParamsLaid(toks: seq<Token>, pos: nat, ps: seq<Param>)
    requires Stream(toks) && ParamsLaid(toks, pos, ps)
    ensures ParseParams(toks, pos) == Ok((ps, pos + ParamListWidth(ps)))
    decreases |ps|
  {
    if |ps| == 1 {
      ParamsCons(toks, pos, ps[0], pos + 1, [], pos + 1);
      assert [ps[0]] + [] == ps;
    } else if |ps| > 1 {
      ParseParamsLaid(toks, pos + 2, ps[1..]);
      ParseParamsLaidStep(toks, pos, ps);
    }
  }

  /** The first parameter and its comma read, then the rest of the list read
      after them. */
  lemma ParseParamsLaidStep(toks: seq<Token>, pos: nat, ps: seq<Param>)
    requires Stream(toks) && |ps| > 1 && ParamToken(ps[0]).value != Some(")")
    requires pos + 2 < |toks| && toks[pos] == ParamToken(ps[0]) && toks[pos + 1] == Sym(",")
    requires ParseParams(toks, pos + 2) == Ok((ps[1..], pos + 2 + ParamListWidth(ps[1..])))
    ensures ParseParams(toks, pos) == Ok((ps, pos + ParamListWidth(ps)))
  {
    ParamsCons(toks, pos, ps[0], pos + 2, ps[1..], pos + 2 + ParamListWidth(ps[1..]));
    assert [ps[0]] + ps[1..] == ps;
    assert ParamListWidth(ps) == 2 + ParamListWidth(ps[1..]);
  }

  lemma ParseCommandLaid(toks: seq<Token>, pos: nat, c: SimulationCommand)
    requires Stream(toks) && CommandLaid(toks, pos, c) && pos + CommandWidth(c) < |toks|
    ensures ParseCommand(toks, pos) == Ok((c, pos + CommandWidth(c)))
  {
    if |c.params| > 0 {
      ParseParamsLaid(toks, pos + 2, c.params);
    }
  }

  lemma {:induction false} ParseCommandsLaid(toks: seq<Token>, pos: nat, cs: seq<SimulationCommand>)
    requires Stream(toks) && CommandsLaid(toks, pos, cs)
    ensures ParseCommands(toks, pos) == Ok((cs, pos + CommandListWidth(cs)))
    decreases |cs|
  {
    if |cs| > 0 {
      ParseCommandsLaid(toks, pos + CommandWidth(cs[0]), cs[1..]);
      ParseCommandsLaidStep(toks, pos, cs);
    }
  }

  /** The first command read, then the rest of the list read after it. */
  lemma ParseCommandsLaidStep(toks: seq<Token>, pos: nat, cs: seq<SimulationCommand>)
    requires Stream(toks) && |cs| > 0 && CommandLaid(toks, pos, cs[0]) && pos + CommandWidth(cs[0]) < |toks|
    requires var n := pos + CommandWidth(cs[0]);
             ParseCommands(toks, n) == Ok((cs[1..], n + CommandListWidth(cs[1..])))
    ensures ParseCommands(toks, pos) == Ok((cs, pos + CommandListWidth(cs)))
  {
    var n := pos + CommandWidth(cs[0]);
    ParseCommandLaid(toks, pos, cs[0]);
    CommandsCons(toks, pos, cs[0], n, cs[1..], n + CommandListWidth(cs[1..]));
    assert [cs[0]] + cs[1..] == cs;
    assert CommandListWidth(cs) == CommandWidth(cs[0]) + CommandListWidth(cs[1..]);
  }

  lemma ParseSimulationLaid(toks: seq<Token>, pos: nat, b: SimulationBlock)
    requires Stream(toks) && SimulationLaid(toks, pos, b)
    ensures ParseSimulation(toks, pos) == Ok((b, pos + SimulationWidth(b)))
  {
    ParseCommandsLaid(toks, pos + 2, b.commands);
    SimulationClosed(toks, pos, b.commands, pos + 2 + CommandListWidth(b.commands));
  }

  /** Header, commands read up to `close`, then `};`. */
  lemma SimulationClosed(toks: seq<Token>, pos: nat, cs: seq<SimulationCommand>, close: nat)
    requires Stream(toks) && pos + 2 < |toks| && toks[pos] == Word(SimulateKeyword, "Simulate")
    requires toks[pos + 1] == Sym("{") && ParseCommands(toks, pos + 2) == Ok((cs, close))
    requires close + 1 < |toks| && toks[close] == Sym("}") && toks[close + 1] == Sym(";")
    ensures ParseSimulation(toks, pos) == Ok((SimulationBlock(cs), close + 2))
  {
  }

  // ---------------------------------------------------------------------------
  // Subcircuits

  lemma ParseMemberLaid(toks: seq<Token>, pos: nat, m: Member)
    requires Stream(toks) && MemberLaid(toks, pos, m) && pos + MemberWidth(m) < |toks|
    ensures ParseMember(toks, pos) == Ok((m, pos + MemberWidth(m)))
  {
    match m
    case ComponentMember(c) => ParseComponentLaid(toks, pos, c);
    case ConnectionMember(c) => ParseConnectionLaid(toks, pos, c);
    case SimulationMember(b) => ParseSimulationLaid(toks, pos, b);
  }

  /** The member loop, from `p`, reads the members `ys` and stops at `}`. */
  predicate MembersParsed(toks: seq<Token>, p: nat, name: string, ys: seq<Member>) {
    && Stream(toks) && p < |toks|
    && ParseMembers(toks, p, name) == Ok((CollectMembers(name, ys), p + MemberListWidth(ys)))
  }

  /** The member loop reads laid-out members and collects them per kind. */
  lemma ParseMembersLaid(toks: seq<Token>, pos: nat, name: string, ms: seq<Member>)
    requires Stream(toks) && MembersLaid(toks, pos, ms)
    ensures ParseMembers(toks, pos, name) == Ok((CollectMembers(name, ms), pos + MemberListWidth(ms)))
  {
    MembersParsedEnds(toks, name);
    MembersParsedSteps(toks, name);
    RowInduction(toks, pos, ms, MemberLaid, MemberWidth, ClosesBody,
                 (p: nat, ys: seq<Member>) => MembersParsed(toks, p, name, ys));
  }

  lemma MembersParsedEnds(toks: seq<Token>, name: string)
    requires Stream(toks)
    ensures forall p: nat | p < |toks| && ClosesBody(toks[p]) :: MembersParsed(toks, p, name, [])
  {
    forall p: nat | p < |toks| && ClosesBody(toks[p])
      ensures MembersParsed(toks, p, name, [])
    {
      MembersParsedEnd(toks, p, name);
    }
  }

  lemma MembersParsedSteps(toks: seq<Token>, name: string)
    requires Stream(toks)
    ensures forall p: nat, ys: seq<Member> | && |ys| > 0 && MemberLaid(toks, p, ys[0]) && p + MemberWidth(ys[0]) < |toks|
                                           && MembersParsed(toks, p + MemberWidth(ys[0]), name, ys[1..])
              :: MembersParsed(toks, p, name, ys)
  {
    forall p: nat, ys: seq<Member> | && |ys| > 0 && MemberLaid(toks, p, ys[0]) && p + MemberWidth(ys[0]) < |toks|
                                     && MembersParsed(toks, p + MemberWidth(ys[0]), name, ys[1..])
      ensures MembersParsed(toks, p, name, ys)
    {
      ParseMemberLaid(toks, p, ys[0]);
      MembersParsedStep(toks, p, name, ys);
    }
  }

  lemma MembersParsedEnd(toks: seq<Token>, p: nat, name: string)
    requires Stream(toks) && p < |toks| && ClosesBody(toks[p])
    ensures MembersParsed(toks, p, name, [])
  {
  }

  lemma MembersParsedStep(toks: seq<Token>, p: nat, name: string, ys: seq<Member>)
    requires Stream(toks) && |ys| > 0 && p < |toks| && toks[p].value != Some("}")
    requires ParseMember(toks, p) == Ok((ys[0], p + MemberWidth(ys[0])))
    requires MembersParsed(toks, p + MemberWidth(ys[0]), name, ys[1..])
    ensures MembersParsed(toks, p, name, ys)
  {
    var n := p + MemberWidth(ys[0]);
    MembersCons(toks, p, name, ys[0], n, CollectMembers(name, ys[1..]), n + MemberListWidth(ys[1..]));
    MembersParsedCons(toks, p, name, ys);
  }

  lemma MembersParsedCons(toks: seq<Token>, p: nat, name: string, ys: seq<Member>)
    requires Stream(toks) && p < |toks| && |ys| > 0
    requires ParseMembers(toks, p, name)
             == Ok((AddMember(ys[0], CollectMembers(name, ys[1..])), p + MemberWidth(ys[0]) + MemberListWidth(ys[1..])))
    ensures MembersParsed(toks, p, name, ys)
  {
    assert CollectMembers(name, ys) == AddMember(ys[0], CollectMembers(name, ys[1..]));
    assert MemberListWidth(ys) == MemberWidth(ys[0]) + MemberListWidth(ys[1..]);
  }

  lemma ParseSubcircuitLaid(toks: seq<Token>, pos: nat, s: Subcircuit)
    requires Stream(toks) && SubcircuitLaid(toks, pos, s)
    ensures ParseSubcircuit(toks, pos) == Ok((s, pos + SubcircuitWidth(s)))
  {
    ParseBodyLaid(toks, pos, s.name, SubcircuitMembers(s));
    CollectSubcircuitMembers(s);
  }

  lemma ParseBodyLaid(toks: seq<Token>, pos: nat, name: string, ms: seq<Member>)
    requires Stream(toks) && pos + 3 < |toks| && toks[pos] == Word(SubcircuitKeyword, "Subcircuit")
    requires toks[pos + 1] == Word(Identifier, name) && toks[pos + 2] == Sym("{")
    requires MembersLaid(toks, pos + 3, ms)
    requires pos + 4 + MemberListWidth(ms) < |toks|
    requires toks[pos + 3 + MemberListWidth(ms)] == Sym("}") && toks[pos + 4 + MemberListWidth(ms)] == Sym(";")
    ensures ParseSubcircuit(toks, pos) == Ok((CollectMembers(name, ms), pos + 5 + MemberListWidth(ms)))
  {
    ParseMembersLaid(toks, pos + 3, name, ms);
    SubcircuitClosed(toks, pos, name, CollectMembers(name, ms), pos + 3 + MemberListWidth(ms));
  }

  /** Header, members read up to `close`, then `};`. */
  lemma SubcircuitClosed(toks: seq<Token>, pos: nat, name: string, body: Subcircuit, close: nat)
    requires Stream(toks) && pos + 3 < |toks| && toks[pos] == Word(SubcircuitKeyword, "Subcircuit")
    requires toks[pos + 1] == Word(Identifier, name) && toks[pos + 2] == Sym("{")
    requires ParseMembers(toks, pos + 3, name) == Ok((body, close))
    requires close + 1 < |toks| && toks[close] == Sym("}") && toks[close + 1] == Sym(";")
    ensures ParseSubcircuit(toks, pos) == Ok((body, close + 2))
  {
  }

  // ---------------------------------------------------------------------------
  // Programs

  lemma ParseInstanceLaid(toks: seq<Token>, pos: nat, i: SubcircuitInstance)
    requires Stream(toks) && InstanceLaid(toks, pos, i)
    ensures ParseInstance(toks, pos) == Ok((i, pos + InstanceWidth))
  {
  }

  lemma ParseItemLaid(toks: seq<Token>, pos: nat, it: Item)
    requires Stream(toks) && ItemLaid(toks, pos, it) && pos + ItemWidth(it) < |toks|
    ensures ParseItem(toks, pos) == Ok((it, pos + ItemWidth(it))) && toks[pos].kind != Eof
  {
    match it
    case ComponentItem(c) => ComponentItemLaid(toks, pos, it);
    case ConnectionItem(c) => ConnectionItemLaid(toks, pos, it);
    case SimulationItem(b) => SimulationItemLaid(toks, pos, it);
    case SubcircuitItem(s) => SubcircuitItemLaid(toks, pos, it);
    case InstanceItem(i) => InstanceItemLaid(toks, pos, it);
  }

  // One lemma per item kind, so that each proof sees only its own branch of
  // the dispatch on the first token.

  lemma ComponentItemLaid(toks: seq<Token>, pos: nat, it: Item)
    requires it.ComponentItem? && Stream(toks) && ItemLaid(toks, pos, it) && pos + ItemWidth(it) < |toks|
    ensures ParseItem(toks, pos) == Ok((it, pos + ItemWidth(it))) && toks[pos].kind != Eof
  {
    ParseComponentLaid(toks, pos, it.component);
  }

  lemma ConnectionItemLaid(toks: seq<Token>, pos: nat, it: Item)
    requires it.ConnectionItem? && Stream(toks) && ItemLaid(toks, pos, it) && pos + ItemWidth(it) < |toks|
    ensures ParseItem(toks, pos) == Ok((it, pos + ItemWidth(it))) && toks[pos].kind != Eof
  {
    ParseConnectionLaid(toks, pos, it.connection);
  }

  lemma SimulationItemLaid(toks: seq<Token>, pos: nat, it: Item)
    requires it.SimulationItem? && Stream(toks) && ItemLaid(toks, pos, it) && pos + ItemWidth(it) < |toks|
    ensures ParseItem(toks, pos) == Ok((it, pos + ItemWidth(it))) && toks[pos].kind != Eof
  {
    ParseSimulationLaid(toks, pos, it.simulation);
  }

  lemma SubcircuitItemLaid(toks: seq<Token>, pos: nat, it: Item)
    requires it.SubcircuitItem? && Stream(toks) && ItemLaid(toks, pos, it) && pos + ItemWidth(it) < |toks|
    ensures ParseItem(toks, pos) == Ok((it, pos + ItemWidth(it))) && toks[pos].kind != Eof
  {
    assert toks[pos].kind == SubcircuitKeyword;
    ParseSubcircuitLaid(toks, pos, it.subcircuit);
  }

  lemma InstanceItemLaid(toks: seq<Token>, pos: nat, it: Item)
    requires it.InstanceItem? && Stream(toks) && ItemLaid(toks, pos, it) && pos + ItemWidth(it) < |toks|
    ensures ParseItem(toks, pos) == Ok((it, pos + ItemWidth(it))) && toks[pos].kind != Eof
  {
    ParseInstanceLaid(toks, pos, it.instance);
  }

  /** The main loop, from `p`, reads the items `ys` and stops at EOF. */
  predicate ItemsParsed(toks: seq<Token>, p: nat, ys: seq<Item>) {
    Stream(toks) && p < |toks| && ParseItems(toks, p) == Ok(Collect(ys))
  }

  /** The main loop reads laid-out items, up to EOF, and collects them per
      kind. */
  lemma ParseItemsLaid(toks: seq<Token>, pos: nat, items: seq<Item>)
    requires Stream(toks) && ItemsLaid(toks, pos, items)
    ensures ParseItems(toks, pos) == Ok(Collect(items))
  {
    ItemsParsedEnds(toks);
    ItemsParsedSteps(toks);
    RowInduction(toks, pos, items, ItemLaid, ItemWidth, EndsStream, (p: nat, ys: seq<Item>) => ItemsParsed(toks, p, ys));
  }

  lemma ItemsParsedEnds(toks: seq<Token>)
    requires Stream(toks)
    ensures forall p: nat | p < |toks| && EndsStream(toks[p]) :: ItemsParsed(toks, p, [])
  {
    forall p: nat | p < |toks| && EndsStream(toks[p])
      ensures ItemsParsed(toks, p, [])
    {
      ItemsParsedEnd(toks, p);
    }
  }

  lemma ItemsParsedSteps(toks: seq<Token>)
    requires Stream(toks)
    ensures forall p: nat, ys: seq<Item> | && |ys| > 0 && ItemLaid(toks, p, ys[0]) && p + ItemWidth(ys[0]) < |toks|
                                         && ItemsParsed(toks, p + ItemWidth(ys[0]), ys[1..])
              :: ItemsParsed(toks, p, ys)
  {
    forall p: nat, ys: seq<Item> | && |ys| > 0 && ItemLaid(toks, p, ys[0]) && p + ItemWidth(ys[0]) < |toks|
                                   && ItemsParsed(toks, p + ItemWidth(ys[0]), ys[1..])
      ensures ItemsParsed(toks, p, ys)
    {
      ItemsParsedStep(toks, p, ys);
    }
  }

  lemma ItemsParsedEnd(toks: seq<Token>, p: nat)
    requires Stream(toks) && p < |toks| && EndsStream(toks[p])
    ensures ItemsParsed(toks, p, [])
  {
  }

  lemma ItemsParsedStep(toks: seq<Token>, p: nat, ys: seq<Item>)
    requires Stream(toks) && |ys| > 0 && ItemLaid(toks, p, ys[0]) && p + ItemWidth(ys[0]) < |toks|
    requires ItemsParsed(toks, p + ItemWidth(ys[0]), ys[1..])
    ensures ItemsParsed(toks, p, ys)
  {
    ItemsStep(toks, p, ys[0], Collect(ys[1..]));
    ItemsParsedCons(toks, p, ys);
  }

  lemma ItemsParsedCons(toks: seq<Token>, p: nat, ys: seq<Item>)
    requires Stream(toks) && p < |toks| && |ys| > 0
    requires ParseItems(toks, p) == Ok(AddItem(ys[0], Collect(ys[1..])))
    ensures ItemsParsed(toks, p, ys)
  {
    assert Collect(ys) == AddItem(ys[0], Collect(ys[1..]));
  }

  lemma ItemsStep(toks: seq<Token>, pos: nat, it: Item, rest: Program)
    requires Stream(toks) && ItemLaid(toks, pos, it) && pos + ItemWidth(it) < |toks|
    requires ParseItems(toks, pos + ItemWidth(it)) == Ok(rest)
    ensures ParseItems(toks, pos) == Ok(AddItem(it, rest))
  {
    ParseItemLaid(toks, pos, it);
    ItemsConsWidth(toks, pos, it, ItemWidth(it), rest);
  }

  /** `ItemsCons` with the item's width kept abstract. */
  lemma ItemsConsWidth(toks: seq<Token>, pos: nat, it: Item, w: nat, rest: Program)
    requires Stream(toks) && pos + w < |toks| && toks[pos].kind != Eof
    requires ParseItem(toks, pos) == Ok((it, pos + w)) && ParseItems(toks, pos + w) == Ok(rest)
    ensures ParseItems(toks, pos) == Ok(AddItem(it, rest))
  {
    ItemsCons(toks, pos, it, pos + w, rest);
  }

  /** Parsing any printed sequence of items collects them per kind, in the
      order they were printed. */
  lemma ParseRenderItems(items: seq<Item>)
    requires PrintableItems(items)
    ensures Stream(RenderItems(items)) && Parse(RenderItems(items)) == Ok(Collect(items))
  {
    RenderIsStream(items);
    RenderLaid(items);
    ParseItemsLaid(RenderItems(items), 0, items);
  }

  /** Printing a program and parsing the tokens gives the program back. */
  lemma ParseRender(p: Program)
    requires Printable(p)
    ensures Stream(Render(p)) && Parse(Render(p)) == Ok(p)
  {
    ParseRenderItems(ProgramItems(p));
    CollectProgramItems(p);
  }
}
