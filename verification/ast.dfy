/** The syntax tree the parser builds (`ast_nodes.py`).

    Numeric values stay as the NUMBER lexeme the tokenizer matched; the
    Python code converts them with `float`, which every such lexeme survives,
    and only the netlist emitter ever looks at the number again. */
module Ast {

  /** `Resistor R1(10 ohm);`: the component type, its name, value and unit. */
  datatype ComponentDeclaration = ComponentDeclaration(kind: string, name: string, value: string, unit: string)

  /** An endpoint of a connection: a named terminal of a component
      (`R1.positive`) or a bare node name such as `ground`. */
  datatype Endpoint =
    | Terminal(component: string, terminal: string)
    | Node(name: string)

  datatype Connection = Connection(endpoints: seq<Endpoint>)

  /** A simulation parameter: a number (kept as its lexeme) or a keyword. */
  datatype Param =
    | NumberParam(lexeme: string)
    | WordParam(word: string)

  datatype SimulationCommand = SimulationCommand(kind: string, params: seq<Param>)

  datatype SimulationBlock = SimulationBlock(commands: seq<SimulationCommand>)

  datatype Subcircuit = Subcircuit(
    name: string,
    components: seq<ComponentDeclaration>,
    connections: seq<Connection>,
    simulations: seq<SimulationBlock>)

  /** `OpAmp U1;`: an instance `name` of the subcircuit `template`. */
  datatype SubcircuitInstance = SubcircuitInstance(template: string, name: string)

  datatype Program = Program(
    components: seq<ComponentDeclaration>,
    connections: seq<Connection>,
    simulations: seq<SimulationBlock>,
    subcircuits: seq<Subcircuit>,
    instances: seq<SubcircuitInstance>)

  const EmptyProgram := Program([], [], [], [], [])
}
