/** A printer for syntax trees, used as the partner of the parser: printing a
    program to tokens and parsing those tokens gives the program back.

    The printer writes each top-level list in turn (components, connections,
    simulation blocks, subcircuits, instances), which is also the order in
    which the parser collects them; it separates endpoints and parameters with
    `,`, always closes a simulation block with the optional `;`, and writes
    no parentheses for a command without parameters. */
module Unparse {
  import opened Results
  import opened Seqs
  import opened Tokens
  import opened Ast
  import opened Parser

  // ---------------------------------------------------------------------------
  // Printing

  function ComponentTokens(c: ComponentDeclaration): seq<Token> {
    [Word(ComponentKeyword, c.kind), Word(Identifier, c.name), Sym("("), Word(Number, c.value),
     Word(Unit, c.unit), Sym(")"), Sym(";")]
  }

  function EndpointTokens(e: Endpoint): seq<Token> {
    match e
    case Terminal(c, t) => [Word(Identifier, c), Sym("."), Word(Identifier, t)]
    case Node(n) => [Word(Identifier, n)]
  }

  function EndpointListTokens(es: seq<Endpoint>): seq<Token> {
    if |es| == 0 then []
    else if |es| == 1 then EndpointTokens(es[0])
    else EndpointTokens(es[0]) + [Sym(",")] + EndpointListTokens(es[1..])
  }

  function ConnectionTokens(c: Connection): seq<Token> {
    [Word(ConnectKeyword, "Connect"), Sym("(")] + EndpointListTokens(c.endpoints) + [Sym(")"), Sym(";")]
  }

  function ParamToken(p: Param): Token {
    match p
    case NumberParam(l) => Word(Number, l)
    case WordParam(w) => Word(Keyword, w)
  }

  function ParamListTokens(ps: seq<Param>): seq<Token> {
    if |ps| == 0 then []
    else if |ps| == 1 then [ParamToken(ps[0])]
    else [ParamToken(ps[0]), Sym(",")] + ParamListTokens(ps[1..])
  }

  function CommandTokens(c: SimulationCommand): seq<Token> {
    var params := if |c.params| == 0 then [] else [Sym("(")] + ParamListTokens(c.params) + [Sym(")")];
    [Word(Keyword, c.kind)] + params + [Sym(";")]
  }

  function CommandListTokens(cs: seq<SimulationCommand>): seq<Token> {
    FlatMap(cs, CommandTokens)
  }

  function SimulationTokens(b: SimulationBlock): seq<Token> {
    [Word(SimulateKeyword, "Simulate"), Sym("{")] + CommandListTokens(b.commands) + [Sym("}"), Sym(";")]
  }

  function MemberTokens(m: Member): seq<Token> {
    match m
    case ComponentMember(c) => ComponentTokens(c)
    case ConnectionMember(c) => ConnectionTokens(c)
    case SimulationMember(b) => SimulationTokens(b)
  }

  function MemberListTokens(ms: seq<Member>): seq<Token> {
    FlatMap(ms, MemberTokens)
  }

  function MemberCount(s: Subcircuit): nat {
    |s.components| + |s.connections| + |s.simulations|
  }

  /** The first member the printer writes for a non-empty body, and the body
      that remains: its components first, then its connections, then its
      simulation blocks. */
  function FirstMember(s: Subcircuit): (r: (Member, Subcircuit))
    requires MemberCount(s) > 0
    ensures AddMember(r.0, r.1) == s && MemberCount(r.1) == MemberCount(s) - 1
  {
    if |s.components| > 0 then
      assert [s.components[0]] + s.components[1..] == s.components;
      (ComponentMember(s.components[0]), s.(components := s.components[1..]))
    else if |s.connections| > 0 then
      assert [s.connections[0]] + s.connections[1..] == s.connections;
      (ConnectionMember(s.connections[0]), s.(connections := s.connections[1..]))
    else
      assert [s.simulations[0]] + s.simulations[1..] == s.simulations;
      (SimulationMember(s.simulations[0]), s.(simulations := s.simulations[1..]))
  }

  /** The members of a subcircuit in the order they are printed. */
  function SubcircuitMembers(s: Subcircuit): seq<Member>
    decreases MemberCount(s)
  {
    if MemberCount(s) == 0 then [] else [FirstMember(s).0] + SubcircuitMembers(FirstMember(s).1)
  }

  function SubcircuitTokens(s: Subcircuit): seq<Token> {
    [Word(SubcircuitKeyword, "Subcircuit"), Word(Identifier, s.name), Sym("{")]
    + MemberListTokens(SubcircuitMembers(s)) + [Sym("}"), Sym(";")]
  }

  function InstanceTokens(i: SubcircuitInstance): seq<Token> {
    [Word(Identifier, i.template), Word(Identifier, i.name), Sym(";")]
  }

  function ItemTokens(it: Item): seq<Token> {
    match it
    case ComponentItem(c) => ComponentTokens(c)
    case ConnectionItem(c) => ConnectionTokens(c)
    case SimulationItem(b) => SimulationTokens(b)
    case SubcircuitItem(s) => SubcircuitTokens(s)
    case InstanceItem(i) => InstanceTokens(i)
  }

  function ItemListTokens(items: seq<Item>): seq<Token> {
    FlatMap(items, ItemTokens)
  }

  /** The number of top-level items of a program. */
  function ItemCount(p: Program): nat {
    |p.components| + |p.connections| + |p.simulations| + |p.subcircuits| + |p.instances|
  }

  /** The first item the printer writes for a non-empty program, and the
      program that remains: one list after the other, in the order of the
      fields. */
  function FirstItem(p: Program): (r: (Item, Program))
    requires ItemCount(p) > 0
    ensures AddItem(r.0, r.1) == p && ItemCount(r.1) == ItemCount(p) - 1
  {
    if |p.components| > 0 then
      assert [p.components[0]] + p.components[1..] == p.components;
      (ComponentItem(p.components[0]), p.(components := p.components[1..]))
    else if |p.connections| > 0 then
      assert [p.connections[0]] + p.connections[1..] == p.connections;
      (ConnectionItem(p.connections[0]), p.(connections := p.connections[1..]))
    else if |p.simulations| > 0 then
      assert [p.simulations[0]] + p.simulations[1..] == p.simulations;
      (SimulationItem(p.simulations[0]), p.(simulations := p.simulations[1..]))
    else if |p.subcircuits| > 0 then
      assert [p.subcircuits[0]] + p.subcircuits[1..] == p.subcircuits;
      (SubcircuitItem(p.subcircuits[0]), p.(subcircuits := p.subcircuits[1..]))
    else
      assert [p.instances[0]] + p.instances[1..] == p.instances;
      (InstanceItem(p.instances[0]), p.(instances := p.instances[1..]))
  }

  /** The items of a program in the order they are printed. */
  function ProgramItems(p: Program): seq<Item>
    decreases ItemCount(p)
  {
    if ItemCount(p) == 0 then [] else [FirstItem(p).0] + ProgramItems(FirstItem(p).1)
  }

  /** Items printed one after the other, terminated by EOF as the tokenizer
      terminates its output. */
  function RenderItems(items: seq<Item>): seq<Token> {
    ItemListTokens(items) + [EofToken]
  }

  function Render(p: Program): seq<Token> {
    RenderItems(ProgramItems(p))
  }

  // ---------------------------------------------------------------------------
  // The order of printing is the order of collecting

  lemma {:induction false} CollectSubcircuitMembers(s: Subcircuit)
    ensures CollectMembers(s.name, SubcircuitMembers(s)) == s
    decreases MemberCount(s)
  {
    if MemberCount(s) > 0 {
      var ms := SubcircuitMembers(s);
      var (m, t) := FirstMember(s);
      CollectSubcircuitMembers(t);
      assert ms[0] == m && ms[1..] == SubcircuitMembers(t);
    }
  }

  lemma {:induction false} CollectProgramItems(p: Program)
    ensures Collect(ProgramItems(p)) == p
    decreases ItemCount(p)
  {
    if ItemCount(p) > 0 {
      var items := ProgramItems(p);
      var (it, q) := FirstItem(p);
      CollectProgramItems(q);
      assert items[0] == it && items[1..] == ProgramItems(q);
    }
  }

  // ---------------------------------------------------------------------------
  // Which trees the printer can reproduce

  /** The printer can reproduce exactly the readable trees; what is printed
      in order has to be readable member by member and item by item. */
  predicate PrintableMembers(ms: seq<Member>) {
    forall m | m in ms :: ReadableMember(m)
  }

  predicate PrintableItem(it: Item) {
    match it
    case ComponentItem(c) => ReadableComponent(c)
    case ConnectionItem(c) => ReadableConnection(c)
    case SimulationItem(b) => ReadableBlock(b)
    case SubcircuitItem(s) => PrintableMembers(SubcircuitMembers(s))
    case InstanceItem(_) => true
  }

  predicate PrintableItems(items: seq<Item>) {
    forall it | it in items :: PrintableItem(it)
  }

  predicate Printable(p: Program) {
    PrintableItems(ProgramItems(p))
  }

  // ---------------------------------------------------------------------------
  // Printed tokens form a stream

  /** A token the tokenizer could have produced before EOF. */
  predicate SolidToken(t: Token) {
    t.kind != Eof && t.value.Some? && NumberText(t)
  }

  predicate Solid(frag: seq<Token>) {
    forall i :: 0 <= i < |frag| ==> SolidToken(frag[i])
  }

  lemma SolidAppend(a: seq<Token>, b: seq<Token>)
    requires Solid(a) && Solid(b)
    ensures Solid(a + b)
  {
    forall i | 0 <= i < |a + b|
      ensures SolidToken((a + b)[i])
    {
      if i < |a| {
        assert (a + b)[i] == a[i];
      } else {
        assert (a + b)[i] == b[i - |a|];
      }
    }
  }

  lemma {:induction false} EndpointListSolid(es: seq<Endpoint>)
    ensures Solid(EndpointListTokens(es))
  {
    if |es| > 1 {
      EndpointListSolid(es[1..]);
      SolidAppend(EndpointTokens(es[0]), [Sym(",")]);
      SolidAppend(EndpointTokens(es[0]) + [Sym(",")], EndpointListTokens(es[1..]));
    }
  }

  lemma {:induction false} ParamListSolid(ps: seq<Param>)
    requires forall i :: 0 <= i < |ps| ==> ReadableParam(ps[i])
    ensures Solid(ParamListTokens(ps))
  {
    if |ps| > 1 {
      ParamListSolid(ps[1..]);
      SolidAppend([ParamToken(ps[0]), Sym(",")], ParamListTokens(ps[1..]));
    }
  }

  lemma CommandSolid(c: SimulationCommand)
    requires ReadableCommand(c)
    ensures Solid(CommandTokens(c))
  {
    var params := if |c.params| == 0 then [] else [Sym("(")] + ParamListTokens(c.params) + [Sym(")")];
    if |c.params| > 0 {
      ParamListSolid(c.params);
      SolidAppend([Sym("(")], ParamListTokens(c.params));
      SolidAppend([Sym("(")] + ParamListTokens(c.params), [Sym(")")]);
    }
    SolidAppend([Word(Keyword, c.kind)], params);
    SolidAppend([Word(Keyword, c.kind)] + params, [Sym(";")]);
  }

  lemma {:induction false} FlatMapSolid<T>(xs: seq<T>, f: T -> seq<Token>)
    requires forall x | x in xs :: Solid(f(x))
    ensures Solid(FlatMap(xs, f))
    decreases |xs|
  {
    if |xs| > 0 {
      FlatMapSolid(xs[1..], f);
      SolidAppend(f(xs[0]), FlatMap(xs[1..], f));
    }
  }

  lemma CommandListSolid(cs: seq<SimulationCommand>)
    requires forall c | c in cs :: ReadableCommand(c)
    ensures Solid(CommandListTokens(cs))
  {
    forall c | c in cs
      ensures Solid(CommandTokens(c))
    {
      CommandSolid(c);
    }
    FlatMapSolid(cs, CommandTokens);
  }

  lemma ConnectionSolid(c: Connection)
    ensures Solid(ConnectionTokens(c))
  {
    EndpointListSolid(c.endpoints);
    SolidAppend([Word(ConnectKeyword, "Connect"), Sym("(")], EndpointListTokens(c.endpoints));
    SolidAppend([Word(ConnectKeyword, "Connect"), Sym("(")] + EndpointListTokens(c.endpoints), [Sym(")"), Sym(";")]);
  }

  lemma SimulationSolid(b: SimulationBlock)
    requires ReadableBlock(b)
    ensures Solid(SimulationTokens(b))
  {
    CommandListSolid(b.commands);
    SolidAppend([Word(SimulateKeyword, "Simulate"), Sym("{")], CommandListTokens(b.commands));
    SolidAppend([Word(SimulateKeyword, "Simulate"), Sym("{")] + CommandListTokens(b.commands), [Sym("}"), Sym(";")]);
  }

  lemma MemberSolid(m: Member)
    requires ReadableMember(m)
    ensures Solid(MemberTokens(m))
  {
    match m
    case ComponentMember(c) =>
    case ConnectionMember(c) => ConnectionSolid(c);
    case SimulationMember(b) => SimulationSolid(b);
  }

  lemma MemberListSolid(ms: seq<Member>)
    requires PrintableMembers(ms)
    ensures Solid(MemberListTokens(ms))
  {
    forall m | m in ms
      ensures Solid(MemberTokens(m))
    {
      MemberSolid(m);
    }
    FlatMapSolid(ms, MemberTokens);
  }

  lemma SubcircuitSolid(s: Subcircuit)
    requires PrintableMembers(SubcircuitMembers(s))
    ensures Solid(SubcircuitTokens(s))
  {
    var head := [Word(SubcircuitKeyword, "Subcircuit"), Word(Identifier, s.name), Sym("{")];
    var members := MemberListTokens(SubcircuitMembers(s));
    MemberListSolid(SubcircuitMembers(s));
    SolidAppend(head, members);
    SolidAppend(head + members, [Sym("}"), Sym(";")]);
  }

  lemma ItemSolid(it: Item)
    requires PrintableItem(it)
    ensures Solid(ItemTokens(it))
  {
    match it
    case ComponentItem(c) =>
    case ConnectionItem(c) => ConnectionSolid(c);
    case SimulationItem(b) => SimulationSolid(b);
    case SubcircuitItem(s) => SubcircuitSolid(s);
    case InstanceItem(i) =>
  }

  lemma ItemListSolid(items: seq<Item>)
    requires PrintableItems(items)
    ensures Solid(ItemListTokens(items))
  {
    forall it | it in items
      ensures Solid(ItemTokens(it))
    {
      ItemSolid(it);
    }
    FlatMapSolid(items, ItemTokens);
  }

  /** Printable items print to a token stream of the shape the tokenizer
      produces. */
  lemma RenderIsStream(items: seq<Item>)
    requires PrintableItems(items)
    ensures Stream(RenderItems(items))
  {
    var body := ItemListTokens(items);
    ItemListSolid(items);
    var toks := RenderItems(items);
    forall i | 0 <= i < |toks|
      ensures (i < |toks| - 1 ==> toks[i].kind != Eof && toks[i].value.Some?) && NumberText(toks[i])
    {
      if i < |body| {
        assert toks[i] == body[i];
      }
    }
  }

  // ---------------------------------------------------------------------------
  // Printed fragments inside a token stream

  /** The tokens from `pos` on begin with `frag`. Stated one token at a time,
      so that a proof only looks at the positions it asks about. */
  predicate At(toks: seq<Token>, pos: nat, frag: seq<Token>)
    decreases |frag|
  {
    pos + |frag| <= |toks| && (|frag| == 0 || (toks[pos] == frag[0] && At(toks, pos + 1, frag[1..])))
  }

  lemma {:induction false} AtIndex(toks: seq<Token>, pos: nat, frag: seq<Token>, i: nat)
    requires At(toks, pos, frag) && i < |frag|
    ensures pos + i < |toks| && toks[pos + i] == frag[i]
    decreases i
  {
    if i > 0 {
      AtIndex(toks, pos + 1, frag[1..], i - 1);
    }
  }

  lemma {:induction false} AtSplit(toks: seq<Token>, pos: nat, a: seq<Token>, b: seq<Token>)
    requires At(toks, pos, a + b)
    ensures At(toks, pos, a) && At(toks, pos + |a|, b)
    decreases |a|
  {
    if |a| == 0 {
      assert a + b == b;
    } else {
      assert (a + b)[1..] == a[1..] + b;
      AtSplit(toks, pos + 1, a[1..], b);
    }
  }

  /** The whole stream begins with itself. */
  lemma {:induction false} AtSuffix(toks: seq<Token>, pos: nat)
    requires pos <= |toks|
    ensures At(toks, pos, toks[pos..])
    decreases |toks| - pos
  {
    if pos < |toks| {
      assert toks[pos..][1..] == toks[pos + 1..];
      AtSuffix(toks, pos + 1);
    }
  }

  lemma AtFrame(toks: seq<Token>, pos: nat, a: seq<Token>, mid: seq<Token>, b: seq<Token>)
    requires At(toks, pos, a + mid + b)
    ensures At(toks, pos, a) && At(toks, pos + |a|, mid) && At(toks, pos + |a| + |mid|, b)
  {
    AtSplit(toks, pos, a + mid, b);
    AtSplit(toks, pos, a, mid);
  }
}
