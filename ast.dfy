/**
 * The parsed DOT statements the generator walks: the shapes of gonum's
 * graph/formats/dot/ast package (not part of this model) that
 * dfd/generator.go inspects.
 */
module Ast {
  import opened Wrappers

  /** A port reference; the compass point is kept as the text its String method gives. */
  datatype Port = Port(id: string, compass: string)

  /** A `key=value` attribute as written in the DOT text. */
  datatype Attr = Attr(key: string, val: string)

  /** Which default block an attribute statement sets. */
  datatype Kind = GraphKind | NodeKind | EdgeKind

  /** A node reference: its identifier and an optional port. */
  datatype Node = Node(id: string, port: Option<Port>)

  /** An edge end: a single node or a whole subgraph. */
  datatype Vertex = NodeVertex(node: Node) | SubgraphVertex(sub: Subgraph)

  datatype Subgraph = Subgraph(id: string, stmts: seq<Stmt>)

  /** One hop of an edge chain `a -> b -> c`: its target and the rest of the chain. */
  datatype Edge = Edge(directed: bool, vertex: Vertex, next: Option<Edge>)

  datatype Stmt =
    | NodeStmt(node: Node, attrs: seq<Attr>)
    | EdgeStmt(from: Vertex, to: Edge, attrs: seq<Attr>)
    | AttrStmt(kind: Kind, attrs: seq<Attr>)
    | AttrAssign(attr: Attr)
    | SubgraphStmt(sub: Subgraph)
}
