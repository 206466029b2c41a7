/** Net numbering (`Interpreter.build_node_mapping`).

    Connections are visited in order. A connection that mentions the node
    `ground` is net 0. Any other connection reuses the id of the first of
    its node names that already has one, or else takes the next fresh id;
    all its node names are then (re)bound to that id. Every terminal of the
    connection is bound to the connection's id, later connections
    overwriting earlier ones. Nets are not merged transitively. */
module Nets {
  import opened Results
  import opened Seqs
  import opened Ast

  const GroundName: string := "ground"

  /** The interpreter's numbering state: the next fresh id, the node-name
      table and the terminal table. The source nests the terminal table by
      component, then terminal; every access goes through both levels, so it
      is keyed here by the pair. */
  datatype NetState = NetState(counter: nat, names: map<string, nat>, terminals: map<(string, string), nat>)

  /** The state `Interpreter.__init__` sets up. */
  const Initial := NetState(1, map[], map[])

  /** The source compares each endpoint with the string `'ground'`; only a
      plain node can equal it. */
  predicate HasGround(conn: Connection) {
    Node(GroundName) in conn.endpoints
  }

  /** The plain node names of a connection other than `ground`, in endpoint
      order. */
  function NodeNames(eps: seq<Endpoint>): (r: seq<string>)
    ensures forall n :: n in r <==> Node(n) in eps && n != GroundName
    decreases |eps|
  {
    if |eps| == 0 then []
    else
      var here := match eps[0]
        case Node(n) => if n == GroundName then [] else [n]
        case Terminal(_, _) => [];
      here + NodeNames(eps[1..])
  }

  /** The (component, terminal) pairs of a connection, in endpoint order. */
  function TerminalKeys(eps: seq<Endpoint>): (r: seq<(string, string)>)
    ensures forall c, t :: (c, t) in r <==> Terminal(c, t) in eps
    decreases |eps|
  {
    if |eps| == 0 then []
    else
      var here := match eps[0]
        case Terminal(c, t) => [(c, t)]
        case Node(_) => [];
      here + TerminalKeys(eps[1..])
  }

  /** Binds every key in `keys` to `id`, one assignment after the other. */
  function Overwrite<K(!new)>(m: map<K, nat>, keys: seq<K>, id: nat): (r: map<K, nat>)
    ensures forall k :: k in r <==> k in m || k in keys
    ensures forall k | k in r :: r[k] == if k in keys then id else m[k]
    decreases |keys|
  {
    if |keys| == 0 then m else Overwrite(m[keys[0] := id], keys[1..], id)
  }

  /** One iteration of the loop over connections: the new state and the id
      the connection gets. The counter either stays or moves by one, and
      when it moves the connection gets its old value as a fresh id. */
  function Step(st: NetState, conn: Connection): (r: (NetState, nat))
    ensures r.0.counter == st.counter || (r.0.counter == st.counter + 1 && r.1 == st.counter)
  {
    var eps := conn.endpoints;
    if HasGround(conn) then
      (st.(terminals := Overwrite(st.terminals, TerminalKeys(eps), 0)), 0)
    else
      var names := NodeNames(eps);
      var (id, counter) :=
        match FirstWhere(names, (n: string) => n in st.names)
        case Some(i) => (st.names[names[i]], st.counter)
        case None => (st.counter, st.counter + 1);
      (NetState(counter, Overwrite(st.names, names, id), Overwrite(st.terminals, TerminalKeys(eps), id)), id)
  }

  /** `build_node_mapping` from state `st`: the final state and the id each
      connection got, in order. */
  function Build(st: NetState, conns: seq<Connection>): (r: (NetState, seq<nat>))
    ensures |r.1| == |conns|
    ensures st.counter <= r.0.counter <= st.counter + |conns|
    decreases |conns|
  {
    if |conns| == 0 then (st, [])
    else
      var (s0, ids) := Build(st, conns[..|conns| - 1]);
      var (s1, id) := Step(s0, conns[|conns| - 1]);
      (s1, ids + [id])
  }

  // ---------------------------------------------------------------------------
  // One connection

  /** Node names are bound to ids 1 and up, terminals to 0 or more, and every
      id handed out so far is below the counter. */
  predicate Valid(st: NetState) {
    && st.counter >= 1
    && (forall n | n in st.names :: 1 <= st.names[n] < st.counter)
    && (forall k | k in st.terminals :: st.terminals[k] < st.counter)
  }

  /** A connection with `ground` is net 0, allocates nothing and leaves the
      node-name table alone. */
  lemma StepGround(st: NetState, conn: Connection)
    requires HasGround(conn)
    ensures Step(st, conn).1 == 0
    ensures Step(st, conn).0.counter == st.counter && Step(st, conn).0.names == st.names
  {
  }

  /** Without `ground`, a connection takes the id of its first node name that
      already has one, and allocates nothing. */
  lemma StepKnown(st: NetState, conn: Connection, i: nat)
    requires !HasGround(conn)
    requires i < |NodeNames(conn.endpoints)| && NodeNames(conn.endpoints)[i] in st.names
    requires forall j | 0 <= j < i :: NodeNames(conn.endpoints)[j] !in st.names
    ensures Step(st, conn).1 == st.names[NodeNames(conn.endpoints)[i]]
    ensures Step(st, conn).0.counter == st.counter
  {
    var names := NodeNames(conn.endpoints);
    var r := FirstWhere(names, (n: string) => n in st.names);
    assert r.Some?;
  }

  /** Without `ground` and with none of its node names known, a connection
      takes the counter as a fresh id, one that nothing is bound to yet. */
  lemma StepFresh(st: NetState, conn: Connection)
    requires Valid(st)
    requires !HasGround(conn)
    requires forall n | n in NodeNames(conn.endpoints) :: n !in st.names
    ensures Step(st, conn).1 == st.counter && Step(st, conn).0.counter == st.counter + 1
    ensures forall n | n in st.names :: st.names[n] != Step(st, conn).1
    ensures forall k | k in st.terminals :: st.terminals[k] != Step(st, conn).1
  {
  }

  /** A connection of terminals only always gets a fresh net, even if the
      terminals were bound before: no nets are merged through terminals. */
  lemma TerminalsOnlyFresh(st: NetState, conn: Connection)
    requires Valid(st)
    requires forall e | e in conn.endpoints :: e.Terminal?
    ensures Step(st, conn).1 == st.counter && Step(st, conn).0.counter == st.counter + 1
  {
    assert !HasGround(conn);
    StepFresh(st, conn);
  }

  /** Afterwards every node name (without `ground`) and every terminal of the
      connection is bound to its id; everything else keeps its binding. */
  lemma StepBinds(st: NetState, conn: Connection)
    ensures forall c, t | Terminal(c, t) in conn.endpoints ::
              (c, t) in Step(st, conn).0.terminals && Step(st, conn).0.terminals[(c, t)] == Step(st, conn).1
    ensures forall k | k in st.terminals && Terminal(k.0, k.1) !in conn.endpoints ::
              k in Step(st, conn).0.terminals && Step(st, conn).0.terminals[k] == st.terminals[k]
    ensures forall k | k in Step(st, conn).0.terminals :: k in st.terminals || Terminal(k.0, k.1) in conn.endpoints
    ensures !HasGround(conn) ==>
              forall n | Node(n) in conn.endpoints ::
                n in Step(st, conn).0.names && Step(st, conn).0.names[n] == Step(st, conn).1
    ensures forall n | n in st.names && (HasGround(conn) || Node(n) !in conn.endpoints) ::
              n in Step(st, conn).0.names && Step(st, conn).0.names[n] == st.names[n]
    ensures forall n | n in Step(st, conn).0.names :: n in st.names || (!HasGround(conn) && Node(n) in conn.endpoints)
  {
    var keys := TerminalKeys(conn.endpoints);
    forall k | k in st.terminals && Terminal(k.0, k.1) !in conn.endpoints
      ensures k !in keys
    {
      assert k == (k.0, k.1);
    }
  }

  /** Validity survives a step, and the id given out is below the new
      counter, which grows by at most one. */
  lemma StepValid(st: NetState, conn: Connection)
    requires Valid(st)
    ensures Valid(Step(st, conn).0)
    ensures Step(st, conn).1 < Step(st, conn).0.counter
    ensures Step(st, conn).0.counter == st.counter || Step(st, conn).0.counter == st.counter + 1
  {
    var (s1, id) := Step(st, conn);
    StepBinds(st, conn);
    if !HasGround(conn) {
      var names := NodeNames(conn.endpoints);
      match FirstWhere(names, (n: string) => n in st.names)
      case Some(i) =>
        assert id == st.names[names[i]];
      case None =>
    }
  }

  /** From a valid state, a connection gets net 0 exactly when it mentions
      `ground`: node names and fresh ids are all 1 or more. */
  lemma StepNonGround(st: NetState, conn: Connection)
    requires Valid(st)
    ensures Step(st, conn).1 == 0 <==> HasGround(conn)
  {
    if !HasGround(conn) {
      var names := NodeNames(conn.endpoints);
      match FirstWhere(names, (n: string) => n in st.names)
      case Some(i) =>
        assert Step(st, conn).1 == st.names[names[i]];
      case None =>
    }
  }

  // ---------------------------------------------------------------------------
  // All connections

  /** The ids of the connections that took a fresh id, in connection order. */
  function FreshIds(st: NetState, conns: seq<Connection>): seq<nat>
    decreases |conns|
  {
    if |conns| == 0 then []
    else
      var s0 := Build(st, conns[..|conns| - 1]).0;
      var (s1, id) := Step(s0, conns[|conns| - 1]);
      FreshIds(st, conns[..|conns| - 1]) + (if s1.counter != s0.counter then [id] else [])
  }

  /** Each connection gets the id that one step gives it from the state the
      connections before it left. */
  lemma {:induction false} BuildSteps(st: NetState, conns: seq<Connection>)
    ensures forall k | 0 <= k < |conns| :: Build(st, conns).1[k] == Step(Build(st, conns[..k]).0, conns[k]).1
    decreases |conns|
  {
    if |conns| > 0 {
      var init := conns[..|conns| - 1];
      BuildSteps(st, init);
      forall k | 0 <= k < |conns|
        ensures Build(st, conns).1[k] == Step(Build(st, conns[..k]).0, conns[k]).1
      {
        if k < |init| {
          assert init[..k] == conns[..k] && init[k] == conns[k];
        } else {
          assert conns[..k] == init;
        }
      }
    }
  }

  lemma {:induction false} BuildValid(st: NetState, conns: seq<Connection>)
    requires Valid(st)
    ensures Valid(Build(st, conns).0)
    ensures forall k | 0 <= k < |conns| :: Build(st, conns).1[k] < Build(st, conns).0.counter
    ensures st.counter <= Build(st, conns).0.counter <= st.counter + |conns|
    decreases |conns|
  {
    if |conns| > 0 {
      var init := conns[..|conns| - 1];
      BuildValid(st, init);
      StepValid(Build(st, init).0, conns[|conns| - 1]);
    }
  }

  /** The last connection naming a terminal decides its net. */
  lemma {:induction false} TerminalLastWins(st: NetState, conns: seq<Connection>, k: nat, c: string, t: string)
    requires k < |conns| && Terminal(c, t) in conns[k].endpoints
    requires forall j | k < j < |conns| :: Terminal(c, t) !in conns[j].endpoints
    ensures (c, t) in Build(st, conns).0.terminals
    ensures Build(st, conns).0.terminals[(c, t)] == Build(st, conns).1[k]
    decreases |conns|
  {
    var init := conns[..|conns| - 1];
    var (s0, ids) := Build(st, init);
    StepBinds(s0, conns[|conns| - 1]);
    if k < |conns| - 1 {
      TerminalLastWins(st, init, k, c, t);
    }
  }

  /** A terminal no connection names keeps its binding, or stays unbound. */
  lemma {:induction false} TerminalUntouched(st: NetState, conns: seq<Connection>, c: string, t: string)
    requires forall j | 0 <= j < |conns| :: Terminal(c, t) !in conns[j].endpoints
    ensures (c, t) in Build(st, conns).0.terminals <==> (c, t) in st.terminals
    ensures (c, t) in st.terminals ==> Build(st, conns).0.terminals[(c, t)] == st.terminals[(c, t)]
    decreases |conns|
  {
    if |conns| > 0 {
      var init := conns[..|conns| - 1];
      TerminalUntouched(st, init, c, t);
      StepBinds(Build(st, init).0, conns[|conns| - 1]);
    }
  }

  /** The last connection without `ground` that names a node decides the
      node's binding. */
  lemma {:induction false} NameLastWins(st: NetState, conns: seq<Connection>, k: nat, n: string)
    requires k < |conns| && Node(n) in conns[k].endpoints && !HasGround(conns[k])
    requires forall j | k < j < |conns| :: HasGround(conns[j]) || Node(n) !in conns[j].endpoints
    ensures n in Build(st, conns).0.names
    ensures Build(st, conns).0.names[n] == Build(st, conns).1[k]
    decreases |conns|
  {
    var init := conns[..|conns| - 1];
    var (s0, ids) := Build(st, init);
    StepBinds(s0, conns[|conns| - 1]);
    if k < |conns| - 1 {
      NameLastWins(st, init, k, n);
    }
  }

  /** Connection by connection, from a valid state: net 0 exactly for the
      connections that mention `ground`. */
  lemma {:induction false} BuildGroundIds(st: NetState, conns: seq<Connection>)
    requires Valid(st)
    ensures forall k | 0 <= k < |conns| :: Build(st, conns).1[k] == 0 <==> HasGround(conns[k])
    decreases |conns|
  {
    if |conns| > 0 {
      var init := conns[..|conns| - 1];
      var (s0, ids) := Build(st, init);
      BuildGroundIds(st, init);
      BuildValid(st, init);
      StepNonGround(s0, conns[|conns| - 1]);
      assert Build(st, conns).1 == ids + [Step(s0, conns[|conns| - 1]).1];
      forall k | 0 <= k < |conns|
        ensures Build(st, conns).1[k] == 0 <==> HasGround(conns[k])
      {
        if k < |init| {
          assert conns[k] == init[k];
        }
      }
    }
  }

  /** Fresh ids are handed out as consecutive numbers from the starting
      counter, in connection order, one per counter increment. */
  lemma {:induction false} FreshIdsInOrder(st: NetState, conns: seq<Connection>)
    ensures Build(st, conns).0.counter == st.counter + |FreshIds(st, conns)|
    ensures forall i | 0 <= i < |FreshIds(st, conns)| :: FreshIds(st, conns)[i] == st.counter + i
    decreases |conns|
  {
    if |conns| > 0 {
      var init := conns[..|conns| - 1];
      FreshIdsInOrder(st, init);
    }
  }

  /** Starting from `Interpreter.__init__`'s state, the fresh nets are
      1, 2, 3, ... in the order they are allocated, and the counter ends one
      past the last of them. */
  lemma InitialFreshIds(conns: seq<Connection>)
    ensures |FreshIds(Initial, conns)| == Build(Initial, conns).0.counter - 1
    ensures forall i | 0 <= i < |FreshIds(Initial, conns)| :: FreshIds(Initial, conns)[i] == i + 1
  {
    FreshIdsInOrder(Initial, conns);
  }
}
