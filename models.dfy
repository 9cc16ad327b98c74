/** The value types exchanged between the backend and the canvas: the two
    literal enumerations and the node and edge records the backend builds. */
module Models {

  /** The six 5W1H classification axes. */
  datatype Category = Who | What | When | Where | Why | How

  /** Whether a unit describes a problem or a solution. */
  datatype Phase = Problem | Solution

  /** The literal string a category stands for. */
  function CategoryName(c: Category): string
  {
    match c
    case Who => "Who"
    case What => "What"
    case When => "When"
    case Where => "Where"
    case Why => "Why"
    case How => "How"
  }

  /** A canvas coordinate. Every coordinate the backend produces is a whole
      number, so it is kept as an integer. */
  datatype Position = Position(x: int, y: int)

  /** The `data` part of a node as the backend builds it; `title` is the
      JSON field `label` (a reserved word in Dafny). */
  datatype NodeData = NodeData(
    title: string,
    content: string,
    category: Category,
    phase: Phase,
    isAiGenerated: bool)

  /** A node as the backend returns it; `kind` is the JSON field `type`. */
  datatype Node = Node(id: string, kind: string, data: NodeData, position: Position)

  /** A directed edge between two node ids; `relation` is the JSON field
      `label`. */
  datatype Edge = Edge(id: string, source: string, target: string, relation: string)

  /** The `{nodes, edges}` payload of one analysis response. */
  datatype Graph = Graph(nodes: seq<Node>, edges: seq<Edge>)
}
