/** LangGraph `StateGraph` wiring as data: an entry node, fixed edges, and
    conditional branches whose router value is looked up in a path map (or,
    without a path map, names the next node itself). */
module Graph {
  import opened Wrappers

  /** LangGraph's `END` (and `START`) node names. */
  const END: string := "__end__"
  const START: string := "__start__"

  datatype PathMap = Direct | Mapped(paths: map<string, string>)

  datatype Graph = Graph(
    entry: string,
    nodes: set<string>,
    edges: set<(string, string)>,
    branches: map<string, PathMap>)

  /** Where a router's return value leads. */
  function Resolve(p: PathMap, value: string): (r: Option<string>)
    ensures p.Direct? ==> r == Some(value)
    ensures p.Mapped? ==> (r.Some? <==> value in p.paths)
  {
    match p
    case Direct => Some(value)
    case Mapped(paths) => if value in paths then Some(paths[value]) else None
  }

  /** The fixed successors of a node. */
  function Fixed(g: Graph, node: string): set<string> {
    set e | e in g.edges && e.0 == node :: e.1
  }

  /** The nodes scheduled after `node` ran and its router (if any) returned
      `route`. */
  function Next(g: Graph, node: string, route: string): set<string> {
    Fixed(g, node)
      + (if node in g.branches && Resolve(g.branches[node], route).Some?
         then {Resolve(g.branches[node], route).value} else {})
  }

  /** A node with no fixed edge and no branch: the run stops after it. */
  predicate Dead(g: Graph, node: string) {
    Fixed(g, node) == {} && node !in g.branches
  }
}
