/** SPICE-style output (`Interpreter.generate_netlist` and `_format_sim`).

    One line per component, `name n+ n- <value><unit>`, with the nets bound
    to its `positive` and `negative` terminals (0 when unbound); then one
    line per simulation command, blocks and commands in order; the lines
    joined with newlines. */
module Netlist {
  import opened Results
  import opened Strings
  import opened Seqs
  import opened Ast
  import opened Nets
  import opened Expansion

  /** How a NUMBER lexeme is printed once Python has converted it with
      `float` (`str(float(lexeme))`). Float formatting is not modelled, so
      the rendering is a parameter of every operation that prints numbers. */
  type NumberText = string -> string

  function ParamText(p: Param, num: NumberText): string {
    match p
    case NumberParam(l) => num(l)
    case WordParam(w) => w
  }

  function ParamTexts(ps: seq<Param>, num: NumberText): (r: seq<string>)
    ensures |r| == |ps|
    ensures forall i | 0 <= i < |ps| :: r[i] == ParamText(ps[i], num)
  {
    Map(ps, (p: Param) => ParamText(p, num))
  }

  /** `_format_sim`: the command type is compared after lower-casing. A
      `transient` command unpacks exactly three parameters (start, stop,
      step) and prints them in reverse; any other count fails. Every line
      printed is a dot command. */
  function FormatSim(cmd: SimulationCommand, num: NumberText): (r: Result<string>)
    ensures r.Err? <==> Lower(cmd.kind) == "transient" && |cmd.params| != 3
    ensures r.Ok? ==> |r.value| > 1 && r.value[0] == '.'
  {
    var kind := Lower(cmd.kind);
    if kind == "dc" then Ok(".OP")
    else if kind == "transient" then
      if |cmd.params| == 3 then
        Ok(".TRAN " + ParamText(cmd.params[2], num) + " " + ParamText(cmd.params[1], num)
           + " " + ParamText(cmd.params[0], num))
      else Err
    else if kind == "ac" then Ok(".AC " + Join(ParamTexts(cmd.params, num), " "))
    else Ok("." + Upper(cmd.kind) + " " + Join(ParamTexts(cmd.params, num), " "))
  }

  /** The net bound to a terminal, 0 when there is none
      (`terminal_map.get(name, {}).get(terminal, 0)`). */
  function NetOf(terms: map<(string, string), nat>, comp: string, terminal: string): nat {
    if (comp, terminal) in terms then terms[(comp, terminal)] else 0
  }

  /** The line of a component starts with its name and ends with its value
      and unit. */
  function ComponentLine(c: ComponentDeclaration, terms: map<(string, string), nat>, num: NumberText): (r: string)
    ensures |r| > |c.name| && r[..|c.name| + 1] == c.name + " "
    ensures |r| >= |num(c.value) + c.unit| && r[|r| - |num(c.value) + c.unit|..] == num(c.value) + c.unit
  {
    c.name + " " + NatToString(NetOf(terms, c.name, "positive")) + " " + NatToString(NetOf(terms, c.name, "negative"))
    + " " + num(c.value) + c.unit
  }

  /** Every command of every block, in order. */
  function Commands(blocks: seq<SimulationBlock>): seq<SimulationCommand> {
    FlatMap(blocks, (b: SimulationBlock) => b.commands)
  }

  /** Formats the commands one after the other; the first failure fails the
      whole netlist. */
  function FormatAll(cmds: seq<SimulationCommand>, num: NumberText): (r: Result<seq<string>>)
    ensures r.Ok? <==> forall i | 0 <= i < |cmds| :: FormatSim(cmds[i], num).Ok?
    ensures r.Ok? ==> |r.value| == |cmds| && forall i | 0 <= i < |cmds| :: r.value[i] == FormatSim(cmds[i], num).value
    decreases |cmds|
  {
    if |cmds| == 0 then Ok([])
    else
      var first :- FormatSim(cmds[0], num);
      var rest :- FormatAll(cmds[1..], num);
      Ok([first] + rest)
  }

  function NetlistLines(p: Program, terms: map<(string, string), nat>, num: NumberText): Result<seq<string>> {
    var sims :- FormatAll(Commands(p.simulations), num);
    Ok(Map(p.components, (c: ComponentDeclaration) => ComponentLine(c, terms, num)) + sims)
  }

  /** Every command formats, stated over the list and over its positions. */
  lemma AllFormat(cmds: seq<SimulationCommand>, num: NumberText)
    ensures (forall cmd | cmd in cmds :: FormatSim(cmd, num).Ok?) <==> forall i | 0 <= i < |cmds| :: FormatSim(cmds[i], num).Ok?
  {
    if forall i | 0 <= i < |cmds| :: FormatSim(cmds[i], num).Ok? {
      forall cmd | cmd in cmds
        ensures FormatSim(cmd, num).Ok?
      {
        var i :| 0 <= i < |cmds| && cmds[i] == cmd;
      }
    }
  }

  /** `generate_netlist` on a freshly built interpreter: number the nets,
      then print. It fails exactly when some simulation command fails to
      format. */
  function GenerateNetlist(p: Program, num: NumberText): (r: Result<string>)
    ensures r.Ok? <==> forall cmd | cmd in Commands(p.simulations) :: FormatSim(cmd, num).Ok?
  {
    AllFormat(Commands(p.simulations), num);
    var st := Build(Initial, p.connections).0;
    var lines :- NetlistLines(p, st.terminals, num);
    Ok(Join(lines, "\n"))
  }

  /** The whole interpreter: expand the instances, then print. It fails
      exactly when an instance names no subcircuit or a simulation command
      cannot be formatted. */
  function Interpret(p: Program, num: NumberText): (r: Result<string>)
    ensures r.Ok? <==>
              && Resolves(p.subcircuits, p.instances)
              && forall cmd | cmd in Commands(p.simulations) :: FormatSim(cmd, num).Ok?
  {
    var q :- ExpandInstances(p);
    GenerateNetlist(q, num)
  }

  // ---------------------------------------------------------------------------
  // Simulation commands

  /** The command type is matched without regard to case: two spellings that
      agree after lower-casing print the same line. */
  lemma FormatSimIgnoresCase(k1: string, k2: string, ps: seq<Param>, num: NumberText)
    requires Lower(k1) == Lower(k2)
    ensures FormatSim(SimulationCommand(k1, ps), num) == FormatSim(SimulationCommand(k2, ps), num)
  {
    UpperDeterminedByLower(k1, k2);
  }

  lemma JoinCons(a: string, xs: seq<string>, sep: string)
    requires |xs| > 0
    ensures Join([a] + xs, sep) == a + sep + Join(xs, sep)
  {
    assert ([a] + xs)[1..] == xs;
  }

  /** Four space-free fields joined by single spaces split back apart. */
  lemma SplitFour(a: string, b: string, c: string, d: string)
    requires ' ' !in a && ' ' !in b && ' ' !in c && ' ' !in d
    ensures Split(a + " " + b + " " + c + " " + d, ' ') == [a, b, c, d]
  {
    JoinCons(c, [d], " ");
    JoinCons(b, [c, d], " ");
    JoinCons(a, [b, c, d], " ");
    assert [c] + [d] == [c, d] && [b] + [c, d] == [b, c, d] && [a] + [b, c, d] == [a, b, c, d];
    var parts := [a, b, c, d];
    assert a + " " + b + " " + c + " " + d == Join(parts, " ");
    SplitJoin(parts, ' ');
  }

  /** Splitting a `.TRAN` line at the spaces gives the step, stop and start
      parameters, in that order. */
  lemma TranFields(cmd: SimulationCommand, num: NumberText)
    requires Lower(cmd.kind) == "transient" && |cmd.params| == 3
    requires forall i | 0 <= i < 3 :: ' ' !in ParamText(cmd.params[i], num)
    ensures FormatSim(cmd, num).Ok?
    ensures Split(FormatSim(cmd, num).value, ' ')
            == [".TRAN", ParamText(cmd.params[2], num), ParamText(cmd.params[1], num), ParamText(cmd.params[0], num)]
  {
    var a, b, c := ParamText(cmd.params[2], num), ParamText(cmd.params[1], num), ParamText(cmd.params[0], num);
    assert ' ' !in ".TRAN";
    assert ".TRAN " == ".TRAN" + " ";
    assert FormatSim(cmd, num).value == ".TRAN" + " " + a + " " + b + " " + c;
    SplitFour(".TRAN", a, b, c);
  }

  // ---------------------------------------------------------------------------
  // Component lines

  /** Splitting a component line at the spaces gives the name, the two nets
      in decimal and the value with its unit. */
  lemma ComponentLineFields(c: ComponentDeclaration, terms: map<(string, string), nat>, num: NumberText)
    requires ' ' !in c.name && ' ' !in num(c.value) + c.unit
    ensures Split(ComponentLine(c, terms, num), ' ')
            == [c.name, NatToString(NetOf(terms, c.name, "positive")), NatToString(NetOf(terms, c.name, "negative")),
                num(c.value) + c.unit]
  {
    var np, nn := NatToString(NetOf(terms, c.name, "positive")), NatToString(NetOf(terms, c.name, "negative"));
    assert AllDigits(np) && AllDigits(nn);
    assert ComponentLine(c, terms, num) == c.name + " " + np + " " + nn + " " + (num(c.value) + c.unit);
    SplitFour(c.name, np, nn, num(c.value) + c.unit);
  }

  /** The net fields of a component line read back as the bound ids, or 0
      for an unbound terminal. */
  lemma ComponentLineNets(c: ComponentDeclaration, terms: map<(string, string), nat>)
    ensures DecimalValue(NatToString(NetOf(terms, c.name, "positive")))
            == if (c.name, "positive") in terms then terms[(c.name, "positive")] else 0
    ensures DecimalValue(NatToString(NetOf(terms, c.name, "negative")))
            == if (c.name, "negative") in terms then terms[(c.name, "negative")] else 0
  {
    NatToStringRoundTrip(NetOf(terms, c.name, "positive"));
    NatToStringRoundTrip(NetOf(terms, c.name, "negative"));
  }

  /** The net printed for a component's terminal (`positive` or `negative`
      in a component line) is the id of the last connection naming that
      terminal, or 0 when no connection names it. */
  lemma TerminalNet(p: Program, c: ComponentDeclaration, terminal: string)
    ensures var (st, ids) := Build(Initial, p.connections);
            && ((forall j | 0 <= j < |p.connections| :: Terminal(c.name, terminal) !in p.connections[j].endpoints)
                ==> NetOf(st.terminals, c.name, terminal) == 0)
            && (forall k | 0 <= k < |p.connections| && Terminal(c.name, terminal) in p.connections[k].endpoints
                  && (forall j | k < j < |p.connections| :: Terminal(c.name, terminal) !in p.connections[j].endpoints)
                  :: NetOf(st.terminals, c.name, terminal) == ids[k])
  {
    var conns := p.connections;
    if forall j | 0 <= j < |conns| :: Terminal(c.name, terminal) !in conns[j].endpoints {
      TerminalUntouched(Initial, conns, c.name, terminal);
    }
    forall k | 0 <= k < |conns| && Terminal(c.name, terminal) in conns[k].endpoints
                && (forall j | k < j < |conns| :: Terminal(c.name, terminal) !in conns[j].endpoints)
      ensures NetOf(Build(Initial, conns).0.terminals, c.name, terminal) == Build(Initial, conns).1[k]
    {
      TerminalLastWins(Initial, conns, k, c.name, terminal);
    }
  }

  // ---------------------------------------------------------------------------
  // The whole netlist

  /** No part of the program's output can contain a line break. */
  predicate SingleLines(p: Program, num: NumberText) {
    && (forall c | c in p.components :: '\n' !in ComponentLine(c, Build(Initial, p.connections).0.terminals, num))
    && (forall cmd | cmd in Commands(p.simulations) && FormatSim(cmd, num).Ok? :: '\n' !in FormatSim(cmd, num).value)
  }

  /** When the netlist succeeds and has at least one line, splitting it at
      the line breaks gives one line per component, in program order,
      followed by one line per simulation command, in order. */
  lemma NetlistLinesInOrder(p: Program, num: NumberText)
    ensures GenerateNetlist(p, num).Ok? && SingleLines(p, num) && |p.components| + |Commands(p.simulations)| > 0 ==>
              var lines := Split(GenerateNetlist(p, num).value, '\n');
              var terms := Build(Initial, p.connections).0.terminals;
              var cmds := Commands(p.simulations);
              && |lines| == |p.components| + |cmds|
              && (forall i | 0 <= i < |p.components| :: lines[i] == ComponentLine(p.components[i], terms, num))
              && (forall i | 0 <= i < |cmds| :: lines[|p.components| + i] == FormatSim(cmds[i], num).value)
  {
    var cmds := Commands(p.simulations);
    var terms := Build(Initial, p.connections).0.terminals;
    var fa := FormatAll(cmds, num);
    if fa.Ok? && SingleLines(p, num) && |p.components| + |cmds| > 0 {
      var comps := Map(p.components, (c: ComponentDeclaration) => ComponentLine(c, terms, num));
      var all := comps + fa.value;
      assert GenerateNetlist(p, num) == Ok(Join(all, "\n"));
      forall k | 0 <= k < |all|
        ensures '\n' !in all[k]
      {
        if k < |comps| {
          assert p.components[k] in p.components;
        } else {
          assert cmds[k - |comps|] in cmds;
        }
      }
      SplitJoin(all, '\n');
    }
  }
}
