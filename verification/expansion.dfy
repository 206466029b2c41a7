/** Inlining of subcircuit instances (`Interpreter._expand_instances`).

    Each instance `Name Inst;` looks up the first subcircuit called `Name`
    and appends a renamed copy of its components and connections to the
    top level; the subcircuit's simulation blocks are not copied. */
module Expansion {
  import opened Results
  import opened Seqs
  import opened Ast

  // ---------------------------------------------------------------------------
  // Renaming

  /** The name a template member gets inside instance `inst`. */
  function Qualify(inst: string, name: string): string {
    inst + "." + name
  }

  /** Drops the `inst.` prefix again; names without it are kept. */
  function Unqualify(inst: string, name: string): string {
    if |name| > |inst| && name[..|inst| + 1] == inst + "." then name[|inst| + 1..] else name
  }

  lemma UnqualifyQualify(inst: string, name: string)
    ensures Unqualify(inst, Qualify(inst, name)) == name
  {
    var q := Qualify(inst, name);
    assert q[..|inst| + 1] == inst + ".";
    assert q[|inst| + 1..] == name;
  }

  function CloneComponent(inst: string, c: ComponentDeclaration): ComponentDeclaration {
    c.(name := Qualify(inst, c.name))
  }

  /** Terminals get the instance prefix; plain node names, `ground`
      included, are copied as they are. */
  function CloneEndpoint(inst: string, e: Endpoint): Endpoint {
    match e
    case Terminal(c, t) => Terminal(Qualify(inst, c), t)
    case Node(_) => e
  }

  function CloneConnection(inst: string, conn: Connection): Connection {
    Connection(Map(conn.endpoints, (e: Endpoint) => CloneEndpoint(inst, e)))
  }

  function UncloneComponent(inst: string, c: ComponentDeclaration): ComponentDeclaration {
    c.(name := Unqualify(inst, c.name))
  }

  function UncloneEndpoint(inst: string, e: Endpoint): Endpoint {
    match e
    case Terminal(c, t) => Terminal(Unqualify(inst, c), t)
    case Node(_) => e
  }

  function UncloneConnection(inst: string, conn: Connection): Connection {
    Connection(Map(conn.endpoints, (e: Endpoint) => UncloneEndpoint(inst, e)))
  }

  /** A clone keeps the type, value and unit, and the original name can be
      read back from the clone's. */
  lemma CloneComponentInverse(inst: string, c: ComponentDeclaration)
    ensures UncloneComponent(inst, CloneComponent(inst, c)) == c
    ensures CloneComponent(inst, c).kind == c.kind && CloneComponent(inst, c).value == c.value
    ensures CloneComponent(inst, c).unit == c.unit
  {
    UnqualifyQualify(inst, c.name);
  }

  /** A cloned connection has the same endpoints in the same order, up to the
      renaming of terminals. */
  lemma CloneConnectionInverse(inst: string, conn: Connection)
    ensures UncloneConnection(inst, CloneConnection(inst, conn)) == conn
  {
    var eps := conn.endpoints;
    var back := UncloneConnection(inst, CloneConnection(inst, conn)).endpoints;
    forall i | 0 <= i < |eps|
      ensures back[i] == eps[i]
    {
      if eps[i].Terminal? {
        UnqualifyQualify(inst, eps[i].component);
      }
    }
  }

  lemma ClonesComponentsInverse(inst: string, cs: seq<ComponentDeclaration>)
    ensures forall i | 0 <= i < |cs| :: UncloneComponent(inst, CloneComponent(inst, cs[i])) == cs[i]
  {
    forall i | 0 <= i < |cs|
      ensures UncloneComponent(inst, CloneComponent(inst, cs[i])) == cs[i]
    {
      CloneComponentInverse(inst, cs[i]);
    }
  }

  lemma ClonesConnectionsInverse(inst: string, ns: seq<Connection>)
    ensures forall i | 0 <= i < |ns| :: UncloneConnection(inst, CloneConnection(inst, ns[i])) == ns[i]
  {
    forall i | 0 <= i < |ns|
      ensures UncloneConnection(inst, CloneConnection(inst, ns[i])) == ns[i]
    {
      CloneConnectionInverse(inst, ns[i]);
    }
  }

  /** Endpoint by endpoint: same count and order, terminals renamed with the
      terminal kept, node names (including `ground`) verbatim. */
  lemma ClonedEndpoints(inst: string, conn: Connection, i: nat)
    requires i < |conn.endpoints|
    ensures |CloneConnection(inst, conn).endpoints| == |conn.endpoints|
    ensures conn.endpoints[i].Node? ==> CloneConnection(inst, conn).endpoints[i] == conn.endpoints[i]
    ensures conn.endpoints[i].Terminal? ==>
              CloneConnection(inst, conn).endpoints[i]
              == Terminal(Qualify(inst, conn.endpoints[i].component), conn.endpoints[i].terminal)
  {
  }

  // ---------------------------------------------------------------------------
  // Expansion

  /** Where the first subcircuit called `name` sits, if there is one. */
  function TemplateIndex(subs: seq<Subcircuit>, name: string): (r: Option<nat>)
    ensures r.Some? ==> r.value < |subs| && subs[r.value].name == name
    ensures r.Some? ==> forall j | 0 <= j < r.value :: subs[j].name != name
    ensures r.None? <==> forall j | 0 <= j < |subs| :: subs[j].name != name
  {
    FirstWhere(subs, (s: Subcircuit) => s.name == name)
  }

  /** Every instance names a known subcircuit. */
  predicate Resolves(subs: seq<Subcircuit>, insts: seq<SubcircuitInstance>) {
    forall k | 0 <= k < |insts| :: TemplateIndex(subs, insts[k].template).Some?
  }

  function Template(subs: seq<Subcircuit>, inst: SubcircuitInstance): (t: Subcircuit)
    requires TemplateIndex(subs, inst.template).Some?
    ensures t in subs && t.name == inst.template
  {
    subs[TemplateIndex(subs, inst.template).value]
  }

  /** The template's components in order, each renamed for the instance
      and otherwise unchanged. */
  function ClonedComponents(inst: SubcircuitInstance, t: Subcircuit): (r: seq<ComponentDeclaration>)
    ensures |r| == |t.components|
    ensures forall i | 0 <= i < |r| :: UncloneComponent(inst.name, r[i]) == t.components[i]
  {
    ClonesComponentsInverse(inst.name, t.components);
    Map(t.components, (c: ComponentDeclaration) => CloneComponent(inst.name, c))
  }

  /** The template's connections in order, each with its terminals renamed
      for the instance. */
  function ClonedConnections(inst: SubcircuitInstance, t: Subcircuit): (r: seq<Connection>)
    ensures |r| == |t.connections|
    ensures forall i | 0 <= i < |r| :: UncloneConnection(inst.name, r[i]) == t.connections[i]
  {
    ClonesConnectionsInverse(inst.name, t.connections);
    Map(t.connections, (c: Connection) => CloneConnection(inst.name, c))
  }

  /** The loop of `_expand_instances` for one kind of member: for each
      instance in order, the template's members cloned by `clone` are
      appended to `acc`. The source appends components and connections in
      the same pass and fails on the same instance for both. */
  function Inline<T>(subs: seq<Subcircuit>, insts: seq<SubcircuitInstance>, acc: seq<T>,
                     clone: (SubcircuitInstance, Subcircuit) -> seq<T>): (r: Result<seq<T>>)
    ensures r.Ok? ==> |acc| <= |r.value| && r.value[..|acc|] == acc
    decreases |insts|
  {
    if |insts| == 0 then Ok(acc)
    else
      match TemplateIndex(subs, insts[0].template)
      case None => Err
      case Some(k) => Inline(subs, insts[1..], acc + clone(insts[0], subs[k]), clone)
  }

  /** `Interpreter.__init__`'s expansion step: the program with every
      instance inlined, or a failure for an unknown subcircuit. The instance
      list, the subcircuits and the simulations stay as they were. */
  function ExpandInstances(p: Program): (r: Result<Program>)
    ensures r.Ok? <==> Resolves(p.subcircuits, p.instances)
    ensures r.Ok? ==> && r.value.simulations == p.simulations && r.value.subcircuits == p.subcircuits
                      && r.value.instances == p.instances
    ensures r.Ok? ==> && |p.components| <= |r.value.components| && r.value.components[..|p.components|] == p.components
                      && |p.connections| <= |r.value.connections| && r.value.connections[..|p.connections|] == p.connections
  {
    InlineResolves(p.subcircuits, p.instances, p.components, ClonedComponents);
    InlineResolves(p.subcircuits, p.instances, p.connections, ClonedConnections);
    match (Inline(p.subcircuits, p.instances, p.components, ClonedComponents),
           Inline(p.subcircuits, p.instances, p.connections, ClonedConnections))
    case (Ok(cs), Ok(ns)) => Ok(p.(components := cs, connections := ns))
    case _ => Err
  }

  // ---------------------------------------------------------------------------
  // Reference definition: the clones, instance by instance

  function Clones<T>(subs: seq<Subcircuit>, insts: seq<SubcircuitInstance>,
                     clone: (SubcircuitInstance, Subcircuit) -> seq<T>): (r: seq<seq<T>>)
    requires Resolves(subs, insts)
  {
    seq(|insts|, k requires 0 <= k < |insts| => clone(insts[k], Template(subs, insts[k])))
  }

  function InstanceComponents(subs: seq<Subcircuit>, insts: seq<SubcircuitInstance>): seq<seq<ComponentDeclaration>>
    requires Resolves(subs, insts)
  {
    Clones(subs, insts, ClonedComponents)
  }

  function InstanceConnections(subs: seq<Subcircuit>, insts: seq<SubcircuitInstance>): seq<seq<Connection>>
    requires Resolves(subs, insts)
  {
    Clones(subs, insts, ClonedConnections)
  }

  lemma ResolvesCons(subs: seq<Subcircuit>, insts: seq<SubcircuitInstance>)
    requires |insts| > 0
    ensures Resolves(subs, insts) <==> TemplateIndex(subs, insts[0].template).Some? && Resolves(subs, insts[1..])
  {
    var tail := insts[1..];
    if TemplateIndex(subs, insts[0].template).Some? && Resolves(subs, tail) {
      forall k | 0 <= k < |insts|
        ensures TemplateIndex(subs, insts[k].template).Some?
      {
        if k > 0 {
          assert insts[k] == tail[k - 1];
        }
      }
    }
    if Resolves(subs, insts) {
      forall k | 0 <= k < |tail|
        ensures TemplateIndex(subs, tail[k].template).Some?
      {
        assert tail[k] == insts[k + 1];
      }
    }
  }

  /** The loop fails exactly when some instance names no subcircuit. */
  lemma {:induction false} InlineResolves<T>(subs: seq<Subcircuit>, insts: seq<SubcircuitInstance>, acc: seq<T>,
                                             clone: (SubcircuitInstance, Subcircuit) -> seq<T>)
    ensures Inline(subs, insts, acc, clone).Ok? <==> Resolves(subs, insts)
    decreases |insts|
  {
    if |insts| > 0 {
      ResolvesCons(subs, insts);
      match TemplateIndex(subs, insts[0].template)
      case None =>
      case Some(i) =>
        InlineResolves(subs, insts[1..], acc + clone(insts[0], subs[i]), clone);
    }
  }

  /** The loop appends the clones of each instance in turn. */
  lemma {:induction false} InlineValue<T>(subs: seq<Subcircuit>, insts: seq<SubcircuitInstance>, acc: seq<T>,
                                          clone: (SubcircuitInstance, Subcircuit) -> seq<T>)
    requires Resolves(subs, insts)
    ensures Inline(subs, insts, acc, clone) == Ok(acc + Concat(Clones(subs, insts, clone)))
    decreases |insts|
  {
    var cl := Clones(subs, insts, clone);
    if |insts| == 0 {
      assert cl == [];
      assert acc + [] == acc;
    } else {
      var tail := insts[1..];
      ResolvesCons(subs, insts);
      var i := TemplateIndex(subs, insts[0].template).value;
      var acc' := acc + clone(insts[0], subs[i]);
      InlineValue(subs, tail, acc', clone);
      assert Template(subs, insts[0]) == subs[i];
      assert cl[0] == clone(insts[0], subs[i]);
      assert cl[1..] == Clones(subs, tail, clone);
      assert Concat(cl) == cl[0] + Concat(cl[1..]);
      assert acc' + Concat(cl[1..]) == acc + Concat(cl);
    }
  }

  /** Expansion fails exactly when some instance names no subcircuit; when it
      succeeds the original components and connections come first, followed
      by each instance's clones in instance order. */
  lemma ExpandInline(p: Program)
    ensures ExpandInstances(p).Ok? <==> Resolves(p.subcircuits, p.instances)
    ensures Resolves(p.subcircuits, p.instances) ==>
              && ExpandInstances(p).value.components
                 == p.components + Concat(InstanceComponents(p.subcircuits, p.instances))
              && ExpandInstances(p).value.connections
                 == p.connections + Concat(InstanceConnections(p.subcircuits, p.instances))
  {
    if Resolves(p.subcircuits, p.instances) {
      InlineValue(p.subcircuits, p.instances, p.components, ClonedComponents);
      InlineValue(p.subcircuits, p.instances, p.connections, ClonedConnections);
    }
  }

  function TemplateComponents(subs: seq<Subcircuit>, insts: seq<SubcircuitInstance>): seq<seq<ComponentDeclaration>>
    requires Resolves(subs, insts)
  {
    seq(|insts|, k requires 0 <= k < |insts| => Template(subs, insts[k]).components)
  }

  function TemplateConnections(subs: seq<Subcircuit>, insts: seq<SubcircuitInstance>): seq<seq<Connection>>
    requires Resolves(subs, insts)
  {
    seq(|insts|, k requires 0 <= k < |insts| => Template(subs, insts[k]).connections)
  }

  /** The top level grows by exactly the templates' sizes, one template per
      instance. */
  lemma ExpandCounts(p: Program)
    requires Resolves(p.subcircuits, p.instances)
    ensures |ExpandInstances(p).value.components|
            == |p.components| + TotalLength(TemplateComponents(p.subcircuits, p.instances))
    ensures |ExpandInstances(p).value.connections|
            == |p.connections| + TotalLength(TemplateConnections(p.subcircuits, p.instances))
  {
    ExpandInline(p);
    var ics := InstanceComponents(p.subcircuits, p.instances);
    var ins := InstanceConnections(p.subcircuits, p.instances);
    forall k | 0 <= k < |p.instances|
      ensures |ics[k]| == |TemplateComponents(p.subcircuits, p.instances)[k]|
      ensures |ins[k]| == |TemplateConnections(p.subcircuits, p.instances)[k]|
    {
      assert ics[k] == ClonedComponents(p.instances[k], Template(p.subcircuits, p.instances[k]));
      assert ins[k] == ClonedConnections(p.instances[k], Template(p.subcircuits, p.instances[k]));
    }
    ConcatLength(InstanceComponents(p.subcircuits, p.instances));
    ConcatLength(InstanceConnections(p.subcircuits, p.instances));
    TotalLengthPointwise(InstanceComponents(p.subcircuits, p.instances), TemplateComponents(p.subcircuits, p.instances));
    TotalLengthPointwise(InstanceConnections(p.subcircuits, p.instances), TemplateConnections(p.subcircuits, p.instances));
  }

  /** A component after the original ones is one of some instance's clones,
      and every instance's clones are there. */
  lemma ExpandedComponents(p: Program, c: ComponentDeclaration)
    requires Resolves(p.subcircuits, p.instances)
    ensures c in ExpandInstances(p).value.components[|p.components|..]
            <==> exists k | 0 <= k < |p.instances| :: c in ClonedComponents(p.instances[k], Template(p.subcircuits, p.instances[k]))
  {
    ExpandInline(p);
    var ics := InstanceComponents(p.subcircuits, p.instances);
    ConcatMembers(ics, c);
    assert ExpandInstances(p).value.components[|p.components|..] == Concat(ics);
    forall k | 0 <= k < |p.instances|
      ensures ics[k] == ClonedComponents(p.instances[k], Template(p.subcircuits, p.instances[k]))
    {
    }
  }

  /** The same for connections. */
  lemma ExpandedConnections(p: Program, n: Connection)
    requires Resolves(p.subcircuits, p.instances)
    ensures n in ExpandInstances(p).value.connections[|p.connections|..]
            <==> exists k | 0 <= k < |p.instances| :: n in ClonedConnections(p.instances[k], Template(p.subcircuits, p.instances[k]))
  {
    ExpandInline(p);
    var ins := InstanceConnections(p.subcircuits, p.instances);
    ConcatMembers(ins, n);
    assert ExpandInstances(p).value.connections[|p.connections|..] == Concat(ins);
    forall k | 0 <= k < |p.instances|
      ensures ins[k] == ClonedConnections(p.instances[k], Template(p.subcircuits, p.instances[k]))
    {
    }
  }

  /** The clones of one template are its components, each renamed. */
  lemma ClonedComponentsMembers(inst: SubcircuitInstance, t: Subcircuit, c: ComponentDeclaration)
    ensures c in ClonedComponents(inst, t) <==> exists d | d in t.components :: c == CloneComponent(inst.name, d)
  {
    MapMembers(t.components, (d: ComponentDeclaration) => CloneComponent(inst.name, d), c);
  }

  lemma ClonedConnectionsMembers(inst: SubcircuitInstance, t: Subcircuit, n: Connection)
    ensures n in ClonedConnections(inst, t) <==> exists m | m in t.connections :: n == CloneConnection(inst.name, m)
  {
    MapMembers(t.connections, (m: Connection) => CloneConnection(inst.name, m), n);
  }

  /** The template's connections only name terminals of its own components.
      The interpreter does not check this. */
  predicate SelfContained(t: Subcircuit) {
    forall n, e | n in t.connections && e in n.endpoints && e.Terminal? ::
      exists c | c in t.components :: c.name == e.component
  }

  /** When every subcircuit is self-contained, every renamed terminal names a
      cloned component. */
  lemma ClonedTerminalsNameClones(p: Program, n: Connection, e: Endpoint)
    requires Resolves(p.subcircuits, p.instances)
    requires forall t | t in p.subcircuits :: SelfContained(t)
    requires n in ExpandInstances(p).value.connections[|p.connections|..]
    requires e in n.endpoints && e.Terminal?
    ensures exists c | c in ExpandInstances(p).value.components[|p.components|..] :: c.name == e.component
  {
    ExpandedConnections(p, n);
    var k :| 0 <= k < |p.instances| && n in ClonedConnections(p.instances[k], Template(p.subcircuits, p.instances[k]));
    var inst := p.instances[k];
    var t := Template(p.subcircuits, inst);
    ClonedConnectionsMembers(inst, t, n);
    var m :| m in t.connections && n == CloneConnection(inst.name, m);
    var i :| 0 <= i < |n.endpoints| && n.endpoints[i] == e;
    ClonedEndpoints(inst.name, m, i);
    var oe := m.endpoints[i];
    assert oe in m.endpoints;
    var oc :| oc in t.components && oc.name == oe.component;
    var clone := CloneComponent(inst.name, oc);
    ClonedComponentsMembers(inst, t, clone);
    ExpandedComponents(p, clone);
    assert clone.name == e.component;
  }
}
