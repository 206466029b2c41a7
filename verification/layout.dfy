/** Where the printer's tokens lie in a stream, stated token by token.

    For each kind of syntax tree, a width says how many tokens the printer
    writes for it and a `...Laid` predicate says which token sits at which
    index, down to the token that must follow a list for the parser to stop
    there. The `...LaidOf` lemmas derive these facts from a printed fragment
    found at a position (`Unparse.At`); the parser side of the round trip
    then works from the index facts alone. */
module Layout {
  import opened Results
  import opened Seqs
  import opened Tokens
  import opened Ast
  import opened Parser
  import opened Unparse

  // ---------------------------------------------------------------------------
  // Widths of the printed forms

  const ComponentWidth: nat := 7
  const InstanceWidth: nat := 3

  function EndpointWidth(e: Endpoint): nat {
    if e.Terminal? then 3 else 1
  }

  function EndpointListWidth(es: seq<Endpoint>): nat {
    if |es| == 0 then 0
    else if |es| == 1 then EndpointWidth(es[0])
    else EndpointWidth(es[0]) + 1 + EndpointListWidth(es[1..])
  }

  function ConnectionWidth(c: Connection): nat {
    EndpointListWidth(c.endpoints) + 4
  }

  function ParamListWidth(ps: seq<Param>): nat {
    if |ps| == 0 then 0 else if |ps| == 1 then 1 else 2 + ParamListWidth(ps[1..])
  }

  function CommandWidth(c: SimulationCommand): nat {
    if |c.params| == 0 then 2 else ParamListWidth(c.params) + 4
  }

  /** The width of a list printed with `FlatMap`. */
  function RowWidth<T>(xs: seq<T>, width: T -> nat): nat
    decreases |xs|
  {
    if |xs| == 0 then 0 else width(xs[0]) + RowWidth(xs[1..], width)
  }

  function CommandListWidth(cs: seq<SimulationCommand>): nat {
    RowWidth(cs, CommandWidth)
  }

  function SimulationWidth(b: SimulationBlock): nat {
    CommandListWidth(b.commands) + 4
  }

  function MemberWidth(m: Member): nat {
    match m
    case ComponentMember(_) => ComponentWidth
    case ConnectionMember(c) => ConnectionWidth(c)
    case SimulationMember(b) => SimulationWidth(b)
  }

  function MemberListWidth(ms: seq<Member>): nat {
    RowWidth(ms, MemberWidth)
  }

  function SubcircuitWidth(s: Subcircuit): nat {
    MemberListWidth(SubcircuitMembers(s)) + 5
  }

  function ItemWidth(it: Item): nat {
    match it
    case ComponentItem(_) => ComponentWidth
    case ConnectionItem(c) => ConnectionWidth(c)
    case SimulationItem(b) => SimulationWidth(b)
    case SubcircuitItem(s) => SubcircuitWidth(s)
    case InstanceItem(_) => InstanceWidth
  }

  // ---------------------------------------------------------------------------
  // Token-by-token layouts

  predicate ComponentLaid(toks: seq<Token>, pos: nat, c: ComponentDeclaration) {
    && pos + 6 < |toks|
    && toks[pos] == Word(ComponentKeyword, c.kind) && toks[pos + 1] == Word(Identifier, c.name)
    && toks[pos + 2] == Sym("(") && toks[pos + 3] == Word(Number, c.value)
    && toks[pos + 4] == Word(Unit, c.unit) && toks[pos + 5] == Sym(")") && toks[pos + 6] == Sym(";")
  }

  predicate EndpointLaid(toks: seq<Token>, pos: nat, e: Endpoint) {
    match e
    case Terminal(c, t) =>
      pos + 2 < |toks| && toks[pos] == Word(Identifier, c) && toks[pos + 1] == Sym(".")
      && toks[pos + 2] == Word(Identifier, t)
    case Node(n) => pos < |toks| && toks[pos] == Word(Identifier, n)
  }

  /** A non-empty endpoint list, each endpoint followed by `,` or, after the
      last one, by `)`. */
  predicate EndpointsLaid(toks: seq<Token>, pos: nat, es: seq<Endpoint>)
    decreases |es|
  {
    && |es| > 0 && EndpointLaid(toks, pos, es[0]) && pos + EndpointWidth(es[0]) < |toks|
    && if |es| == 1 then toks[pos + EndpointWidth(es[0])].value == Some(")")
       else toks[pos + EndpointWidth(es[0])] == Sym(",")
            && EndpointsLaid(toks, pos + EndpointWidth(es[0]) + 1, es[1..])
  }

  predicate ConnectionLaid(toks: seq<Token>, pos: nat, c: Connection) {
    && pos + 1 < |toks| && toks[pos] == Word(ConnectKeyword, "Connect") && toks[pos + 1] == Sym("(")
    && EndpointsLaid(toks, pos + 2, c.endpoints)
    && var close := pos + 2 + EndpointListWidth(c.endpoints);
       close + 1 < |toks| && toks[close] == Sym(")") && toks[close + 1] == Sym(";")
  }

  /** A parameter list, each parameter followed by `,` or, after the last
      one, by `)`. */
  predicate ParamsLaid(toks: seq<Token>, pos: nat, ps: seq<Param>)
    decreases |ps|
  {
    if |ps| == 0 then pos < |toks| && toks[pos].value == Some(")")
    else
      && ParamToken(ps[0]).value != Some(")") && pos + 1 < |toks| && toks[pos] == ParamToken(ps[0])
      && if |ps| == 1 then toks[pos + 1].value == Some(")")
         else toks[pos + 1] == Sym(",") && ParamsLaid(toks, pos + 2, ps[1..])
  }

  predicate CommandLaid(toks: seq<Token>, pos: nat, c: SimulationCommand) {
    && c.kind != "}" && pos + 1 < |toks| && toks[pos] == Word(Keyword, c.kind)
    && if |c.params| == 0 then toks[pos + 1] == Sym(";")
       else
         && toks[pos + 1] == Sym("(") && ParamsLaid(toks, pos + 2, c.params)
         && var close := pos + 2 + ParamListWidth(c.params);
            close + 1 < |toks| && toks[close] == Sym(")") && toks[close + 1] == Sym(";")
  }

  /** The elements of a list laid one after the other, each as `laid` says
      and `width` tokens wide, followed by a token that `stop` accepts. */
  predicate Row<T>(toks: seq<Token>, pos: nat, xs: seq<T>, laid: (seq<Token>, nat, T) -> bool,
                   width: T -> nat, stop: Token -> bool)
    decreases |xs|
  {
    if |xs| == 0 then pos < |toks| && stop(toks[pos])
    else
      && laid(toks, pos, xs[0]) && pos + width(xs[0]) < |toks|
      && Row(toks, pos + width(xs[0]), xs[1..], laid, width, stop)
  }

  predicate ClosesBody(t: Token) {
    t.value == Some("}")
  }

  predicate EndsStream(t: Token) {
    t == EofToken
  }

  /** The commands of a block, then `}`. */
  predicate CommandsLaid(toks: seq<Token>, pos: nat, cs: seq<SimulationCommand>) {
    Row(toks, pos, cs, CommandLaid, CommandWidth, ClosesBody)
  }

  predicate SimulationLaid(toks: seq<Token>, pos: nat, b: SimulationBlock) {
    && pos + 1 < |toks| && toks[pos] == Word(SimulateKeyword, "Simulate") && toks[pos + 1] == Sym("{")
    && CommandsLaid(toks, pos + 2, b.commands)
    && var close := pos + 2 + CommandListWidth(b.commands);
       close + 1 < |toks| && toks[close] == Sym("}") && toks[close + 1] == Sym(";")
  }

  /** A member, which does not start with `}`. */
  predicate MemberLaid(toks: seq<Token>, pos: nat, m: Member) {
    && pos < |toks| && toks[pos].value != Some("}")
    && match m
       case ComponentMember(c) => ComponentLaid(toks, pos, c)
       case ConnectionMember(c) => ConnectionLaid(toks, pos, c)
       case SimulationMember(b) => SimulationLaid(toks, pos, b)
  }

  /** Members one after the other, then `}`. */
  predicate MembersLaid(toks: seq<Token>, pos: nat, ms: seq<Member>) {
    Row(toks, pos, ms, MemberLaid, MemberWidth, ClosesBody)
  }

  predicate SubcircuitLaid(toks: seq<Token>, pos: nat, s: Subcircuit) {
    && pos + 3 < |toks| && toks[pos] == Word(SubcircuitKeyword, "Subcircuit")
    && toks[pos + 1] == Word(Identifier, s.name) && toks[pos + 2] == Sym("{")
    && MembersLaid(toks, pos + 3, SubcircuitMembers(s))
    && var close := pos + 3 + MemberListWidth(SubcircuitMembers(s));
       close + 1 < |toks| && toks[close] == Sym("}") && toks[close + 1] == Sym(";")
  }

  predicate InstanceLaid(toks: seq<Token>, pos: nat, i: SubcircuitInstance) {
    && pos + 2 < |toks| && toks[pos] == Word(Identifier, i.template)
    && toks[pos + 1] == Word(Identifier, i.name) && toks[pos + 2] == Sym(";")
  }

  predicate ItemLaid(toks: seq<Token>, pos: nat, it: Item) {
    match it
    case ComponentItem(c) => ComponentLaid(toks, pos, c)
    case ConnectionItem(c) => ConnectionLaid(toks, pos, c)
    case SimulationItem(b) => SimulationLaid(toks, pos, b)
    case SubcircuitItem(s) => SubcircuitLaid(toks, pos, s)
    case InstanceItem(i) => InstanceLaid(toks, pos, i)
  }

  /** Items one after the other, then EOF. */
  predicate ItemsLaid(toks: seq<Token>, pos: nat, items: seq<Item>) {
    Row(toks, pos, items, ItemLaid, ItemWidth, EndsStream)
  }

  // ---------------------------------------------------------------------------
  // From printed fragments to layouts

  lemma ComponentLaidOf(toks: seq<Token>, pos: nat, c: ComponentDeclaration)
    requires At(toks, pos, ComponentTokens(c))
    ensures ComponentLaid(toks, pos, c) && |ComponentTokens(c)| == ComponentWidth
  {
    var frag := ComponentTokens(c);
    AtIndex(toks, pos, frag, 0);
    AtIndex(toks, pos, frag, 1);
    AtIndex(toks, pos, frag, 2);
    AtIndex(toks, pos, frag, 3);
    AtIndex(toks, pos, frag, 4);
    AtIndex(toks, pos, frag, 5);
    AtIndex(toks, pos, frag, 6);
  }

  lemma EndpointLaidOf(toks: seq<Token>, pos: nat, e: Endpoint)
    requires At(toks, pos, EndpointTokens(e))
    ensures EndpointLaid(toks, pos, e) && |EndpointTokens(e)| == EndpointWidth(e)
  {
    var frag := EndpointTokens(e);
    AtIndex(toks, pos, frag, 0);
    if e.Terminal? {
      AtIndex(toks, pos, frag, 1);
      AtIndex(toks, pos, frag, 2);
    }
  }

  lemma {:induction false} EndpointsLaidOf(toks: seq<Token>, pos: nat, es: seq<Endpoint>)
    requires |es| > 0 && At(toks, pos, EndpointListTokens(es))
    requires pos + |EndpointListTokens(es)| < |toks| && toks[pos + |EndpointListTokens(es)|].value == Some(")")
    ensures EndpointsLaid(toks, pos, es) && |EndpointListTokens(es)| == EndpointListWidth(es)
    decreases |es|
  {
    if |es| == 1 {
      EndpointLaidOf(toks, pos, es[0]);
    } else {
      AtFrame(toks, pos, EndpointTokens(es[0]), [Sym(",")], EndpointListTokens(es[1..]));
      AtIndex(toks, pos + |EndpointTokens(es[0])|, [Sym(",")], 0);
      EndpointLaidOf(toks, pos, es[0]);
      EndpointsLaidOf(toks, pos + EndpointWidth(es[0]) + 1, es[1..]);
    }
  }

  lemma ConnectionLaidOf(toks: seq<Token>, pos: nat, c: Connection)
    requires ReadableConnection(c) && At(toks, pos, ConnectionTokens(c))
    ensures ConnectionLaid(toks, pos, c) && |ConnectionTokens(c)| == ConnectionWidth(c)
  {
    var head := [Word(ConnectKeyword, "Connect"), Sym("(")];
    var es := EndpointListTokens(c.endpoints);
    var tail := [Sym(")"), Sym(";")];
    AtFrame(toks, pos, head, es, tail);
    AtIndex(toks, pos, head, 0);
    AtIndex(toks, pos, head, 1);
    AtIndex(toks, pos + 2 + |es|, tail, 0);
    AtIndex(toks, pos + 2 + |es|, tail, 1);
    EndpointsLaidOf(toks, pos + 2, c.endpoints);
  }

  lemma {:induction false} ParamsLaidOf(toks: seq<Token>, pos: nat, ps: seq<Param>)
    requires (forall i :: 0 <= i < |ps| ==> ReadableParam(ps[i])) && At(toks, pos, ParamListTokens(ps))
    requires pos + |ParamListTokens(ps)| < |toks| && toks[pos + |ParamListTokens(ps)|].value == Some(")")
    ensures ParamsLaid(toks, pos, ps) && |ParamListTokens(ps)| == ParamListWidth(ps)
    decreases |ps|
  {
    if |ps| == 1 {
      AtIndex(toks, pos, ParamListTokens(ps), 0);
    } else if |ps| > 1 {
      var pair := [ParamToken(ps[0]), Sym(",")];
      AtSplit(toks, pos, pair, ParamListTokens(ps[1..]));
      AtIndex(toks, pos, pair, 0);
      AtIndex(toks, pos, pair, 1);
      assert forall i :: 0 <= i < |ps[1..]| ==> ps[1..][i] == ps[i + 1];
      ParamsLaidOf(toks, pos + 2, ps[1..]);
    }
  }

  lemma CommandLaidOf(toks: seq<Token>, pos: nat, c: SimulationCommand)
    requires ReadableCommand(c) && At(toks, pos, CommandTokens(c))
    ensures CommandLaid(toks, pos, c) && |CommandTokens(c)| == CommandWidth(c)
  {
    var kind := [Word(Keyword, c.kind)];
    if |c.params| == 0 {
      assert CommandTokens(c) == kind + [Sym(";")];
      AtSplit(toks, pos, kind, [Sym(";")]);
      AtIndex(toks, pos, kind, 0);
      AtIndex(toks, pos + 1, [Sym(";")], 0);
    } else {
      var list := ParamListTokens(c.params);
      var open := kind + [Sym("(")];
      var close := [Sym(")"), Sym(";")];
      assert CommandTokens(c) == open + list + close;
      AtFrame(toks, pos, open, list, close);
      AtIndex(toks, pos, open, 0);
      AtIndex(toks, pos, open, 1);
      AtIndex(toks, pos + 2 + |list|, close, 0);
      AtIndex(toks, pos + 2 + |list|, close, 1);
      ParamsLaidOf(toks, pos + 2, c.params);
    }
  }

  /** A list printed with `FlatMap` lies in the stream as `Row` says, given that
      each printed element lies as `laid` says. */
  lemma {:induction false} RowOf<T>(toks: seq<Token>, pos: nat, xs: seq<T>, f: T -> seq<Token>,
                                    laid: (seq<Token>, nat, T) -> bool, width: T -> nat, stop: Token -> bool)
    requires forall x, p: nat | x in xs && At(toks, p, f(x)) :: laid(toks, p, x) && |f(x)| == width(x)
    requires At(toks, pos, FlatMap(xs, f))
    requires pos + |FlatMap(xs, f)| < |toks| && stop(toks[pos + |FlatMap(xs, f)|])
    ensures Row(toks, pos, xs, laid, width, stop) && |FlatMap(xs, f)| == RowWidth(xs, width)
    decreases |xs|
  {
    if |xs| > 0 {
      AtSplit(toks, pos, f(xs[0]), FlatMap(xs[1..], f));
      RowOf(toks, pos + width(xs[0]), xs[1..], f, laid, width, stop);
    }
  }

  lemma CommandsLaidOf(toks: seq<Token>, pos: nat, cs: seq<SimulationCommand>)
    requires (forall c | c in cs :: ReadableCommand(c)) && At(toks, pos, CommandListTokens(cs))
    requires pos + |CommandListTokens(cs)| < |toks| && toks[pos + |CommandListTokens(cs)|].value == Some("}")
    ensures CommandsLaid(toks, pos, cs) && |CommandListTokens(cs)| == CommandListWidth(cs)
  {
    forall c, p: nat | c in cs && At(toks, p, CommandTokens(c))
      ensures CommandLaid(toks, p, c) && |CommandTokens(c)| == CommandWidth(c)
    {
      CommandLaidOf(toks, p, c);
    }
    RowOf(toks, pos, cs, CommandTokens, CommandLaid, CommandWidth, ClosesBody);
  }

  lemma SimulationLaidOf(toks: seq<Token>, pos: nat, b: SimulationBlock)
    requires ReadableBlock(b) && At(toks, pos, SimulationTokens(b))
    ensures SimulationLaid(toks, pos, b) && |SimulationTokens(b)| == SimulationWidth(b)
  {
    var head := [Word(SimulateKeyword, "Simulate"), Sym("{")];
    var cmds := CommandListTokens(b.commands);
    var tail := [Sym("}"), Sym(";")];
    AtFrame(toks, pos, head, cmds, tail);
    AtIndex(toks, pos, head, 0);
    AtIndex(toks, pos, head, 1);
    AtIndex(toks, pos + 2 + |cmds|, tail, 0);
    AtIndex(toks, pos + 2 + |cmds|, tail, 1);
    CommandsLaidOf(toks, pos + 2, b.commands);
  }

  lemma MemberLaidOf(toks: seq<Token>, pos: nat, m: Member)
    requires ReadableMember(m) && At(toks, pos, MemberTokens(m))
    ensures MemberLaid(toks, pos, m) && |MemberTokens(m)| == MemberWidth(m)
  {
    match m
    case ComponentMember(c) => ComponentLaidOf(toks, pos, c);
    case ConnectionMember(c) => ConnectionLaidOf(toks, pos, c);
    case SimulationMember(b) => SimulationLaidOf(toks, pos, b);
  }

  lemma MembersLaidOf(toks: seq<Token>, pos: nat, ms: seq<Member>)
    requires PrintableMembers(ms) && At(toks, pos, MemberListTokens(ms))
    requires pos + |MemberListTokens(ms)| < |toks| && toks[pos + |MemberListTokens(ms)|].value == Some("}")
    ensures MembersLaid(toks, pos, ms) && |MemberListTokens(ms)| == MemberListWidth(ms)
  {
    forall m, p: nat | m in ms && At(toks, p, MemberTokens(m))
      ensures MemberLaid(toks, p, m) && |MemberTokens(m)| == MemberWidth(m)
    {
      MemberLaidOf(toks, p, m);
    }
    RowOf(toks, pos, ms, MemberTokens, MemberLaid, MemberWidth, ClosesBody);
  }

  lemma SubcircuitLaidOf(toks: seq<Token>, pos: nat, s: Subcircuit)
    requires PrintableMembers(SubcircuitMembers(s)) && At(toks, pos, SubcircuitTokens(s))
    ensures SubcircuitLaid(toks, pos, s) && |SubcircuitTokens(s)| == SubcircuitWidth(s)
  {
    var head := [Word(SubcircuitKeyword, "Subcircuit"), Word(Identifier, s.name), Sym("{")];
    var members := MemberListTokens(SubcircuitMembers(s));
    var tail := [Sym("}"), Sym(";")];
    AtFrame(toks, pos, head, members, tail);
    AtIndex(toks, pos, head, 0);
    AtIndex(toks, pos, head, 1);
    AtIndex(toks, pos, head, 2);
    AtIndex(toks, pos + 3 + |members|, tail, 0);
    AtIndex(toks, pos + 3 + |members|, tail, 1);
    MembersLaidOf(toks, pos + 3, SubcircuitMembers(s));
  }

  lemma InstanceLaidOf(toks: seq<Token>, pos: nat, i: SubcircuitInstance)
    requires At(toks, pos, InstanceTokens(i))
    ensures InstanceLaid(toks, pos, i) && |InstanceTokens(i)| == InstanceWidth
  {
    var frag := InstanceTokens(i);
    AtIndex(toks, pos, frag, 0);
    AtIndex(toks, pos, frag, 1);
    AtIndex(toks, pos, frag, 2);
  }

  lemma ItemLaidOf(toks: seq<Token>, pos: nat, it: Item)
    requires PrintableItem(it) && At(toks, pos, ItemTokens(it))
    ensures ItemLaid(toks, pos, it) && |ItemTokens(it)| == ItemWidth(it)
  {
    match it
    case ComponentItem(c) => ComponentLaidOf(toks, pos, c);
    case ConnectionItem(c) => ConnectionLaidOf(toks, pos, c);
    case SimulationItem(b) => SimulationLaidOf(toks, pos, b);
    case SubcircuitItem(s) => SubcircuitLaidOf(toks, pos, s);
    case InstanceItem(i) => InstanceLaidOf(toks, pos, i);
  }

  lemma ItemsLaidOf(toks: seq<Token>, pos: nat, items: seq<Item>)
    requires PrintableItems(items) && At(toks, pos, ItemListTokens(items))
    requires pos + |ItemListTokens(items)| < |toks| && toks[pos + |ItemListTokens(items)|] == EofToken
    ensures ItemsLaid(toks, pos, items)
  {
    forall it, p: nat | it in items && At(toks, p, ItemTokens(it))
      ensures ItemLaid(toks, p, it) && |ItemTokens(it)| == ItemWidth(it)
    {
      ItemLaidOf(toks, p, it);
    }
    RowOf(toks, pos, items, ItemTokens, ItemLaid, ItemWidth, EndsStream);
  }

  /** Printed items lie in their own rendering. */
  lemma RenderLaid(items: seq<Item>)
    requires PrintableItems(items)
    ensures ItemsLaid(RenderItems(items), 0, items)
  {
    var toks := RenderItems(items);
    AtSuffix(toks, 0);
    assert toks[0..] == ItemListTokens(items) + [EofToken];
    AtSplit(toks, 0, ItemListTokens(items), [EofToken]);
    ItemsLaidOf(toks, 0, items);
  }
}
