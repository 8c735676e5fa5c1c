# go-dfd core in Dafny

go-dfd builds data-flow diagrams (DFDs) for threat modelling and reads them
back from Graphviz DOT. A diagram holds three kinds of node: processes,
external services and data stores. It groups them in trust boundaries
(DOT subgraphs) and joins them with flows (labelled, directed edges).

This project models the package's core, one Dafny module per Go file or
concern:

- `Utilities` covers `genID` and `idToID64`. The random draw behind
  `genID` becomes a parameter `x`. Go's `strconv.FormatInt` and
  `strconv.ParseInt` are written out, including the syntax error, the
  clamped range error and the int64 bounds.
- `GoStrings` covers the Go library string functions the core relies on:
  `strconv.Quote` and its inverse, `strings.Split` and `strings.Replace`
  with count -1.
- `Attributes` is the `attributes` list type. `SetAttribute` appends and
  never deduplicates.
- `DotNodes` is the `dotNode` type and the three node kinds, as one class
  `DotNode` with a kind tag. The kind decides the shape and the
  `process_` / `externalservice_` / `datastore_` prefix of the DOT id.
- `DotEdges` is `dotEdge`: label, direction and port labels.
- `Graph` is `dfdGraph` from `graph.go` and `directed.go`. This is the
  adjacency store: `nodes` keyed by handle, and the mirrored tables
  `from[u][v]` and `to[v][u]`. Every operation is proved to keep the
  store invariant `StoreValid` and is specified by its effect on those
  tables.
- `Dfd` covers `dfd.go`: `DataFlowDiagram`, `TrustBoundary`, flows and
  the fixed DOT attribute tables. The kind maps and their add, remove and
  find code are the same in both diagram types, so they live once, in the
  class `Scope`.
- `Ast` is the part of the DOT syntax tree that the generator reads.
- `Generator` covers `generator.go`: it rebuilds a diagram from parsed
  DOT statements. It has the `kind_id` identifier parsing, the node
  registry, the subgraph stack with `unique`, `Int64s`, the port and
  attribute application, and the nested loops that add a flow for every
  (from, to) pair of an edge statement.

Node identifiers are handled in two steps, and the model proves both.
`idToID64("process_123")` is 0 (`PrefixedDotIdIsZero`). That is why the
generator splits an identifier at `_` before it parses the number
(`NodeIdentRoundTrip`).

Flow keys are ambiguous. `genFlowID` concatenates the two decimal handles
with no separator, so the pairs (1, 23) and (12, 3) share the key "123"
(`FlowKeysCollide`). One `AddFlow` can then overwrite another flow's entry
in `Flows`. A later hop of an edge chain can also leave `Flows` stale: it
stores a bare edge over a pair's flow, but keeps that flow's `Flows` entry.
The model keeps both behaviours as written.

## Model

| member | source | states |
|---|---|---|
| `Utilities.FormatNat` | dfd/utilities.go:12 | the decimal text of n is non-empty, all digits, and reads back as n |
| `Utilities.ParseInt` | dfd/utilities.go:16 | strconv.ParseInt(s, 10, 64) always yields an int64; a syntax error yields 0 |
| `Utilities.IdToID64` | dfd/utilities.go:15-18 | idToID64 drops the error and always gives a value in the int64 range |
| `Utilities.GenID` | dfd/utilities.go:10-13 | a generated id is a non-empty string of digits whose idToID64 is the non-negative draw x |
| `Utilities.ParseFormatInt` | dfd/utilities.go:10-18 | for every int64, ParseInt(FormatInt(x)) succeeds and gives x back, so idToID64 inverts the formatting genID uses |
| `Utilities.NonNumericIdIsZero` | dfd/utilities.go:15-18 | an id starting with neither a digit nor a sign is a syntax error, and idToID64 maps it to 0 |
| `Utilities.PrefixedDotIdIsZero` | dfd/utilities.go:15-18 | idToID64 of a prefixed DOT id such as "process_123" is 0, not 123 |
| `GoStrings.Quote` | dfd/dfd.go:408-410 | a quoted value starts and ends with a double quote |
| `GoStrings.UnquoteQuote` | dfd/dfd.go:408-410 | unquoting a quoted string gives the original string back |
| `GoStrings.QuoteInjective` | dfd/dfd.go:408-410 | different strings never quote to the same value |
| `GoStrings.QuotePlain` | dfd/dfd.go:263-288 | a value with no quote, backslash, newline, tab or carriage return quotes to itself between two double quotes |
| `GoStrings.Split` | dfd/generator.go:44 | strings.Split gives one more part than there are separators, and no part holds the separator |
| `GoStrings.JoinSplit` | dfd/generator.go:44-50 | joining the parts of a split with the separator rebuilds the input |
| `GoStrings.SplitNoSeparator` | dfd/generator.go:44-47 | a string without the separator splits into itself alone, which node treats as a malformed id |
| `GoStrings.SplitPair` | dfd/generator.go:44-50 | a + "_" + b with no "_" in a or b splits into exactly [a, b] |
| `GoStrings.ReplaceAllAbsent` | dfd/generator.go:134 | a string in which the pattern occurs at no position is left unchanged, whatever the replacement |
| `GoStrings.StripPrefix` | dfd/generator.go:134 | removing the pattern from pattern + s, where s holds no occurrence of it, gives back exactly s |
| `Attributes.AttributeList.constructor` | dfd/attributes.go:7 | a new attribute list is empty |
| `Attributes.AttributeList.Attributes` | dfd/attributes.go:9-11 | Attributes returns the stored list itself, in insertion order |
| `Attributes.AttributeList.SetAttribute` | dfd/attributes.go:12-15 | SetAttribute appends the attribute at the end and keeps every earlier entry, duplicate keys included |
| `DotNodes.SetNodeAttribute` | dfd/dot_node.go:32-47 | a node accepts exactly the keys label, shape, style and dir; the named field takes the value and the other three are kept; any other key is an error |
| `DotNodes.NodeAttributesExact` | dfd/dot_node.go:50-68 | Attributes is empty iff all four fields are empty; it lists exactly the non-empty fields, each under its own key, in the order label, shape, style, dir |
| `DotNodes.ReplayAttributes` | dfd/dot_node.go:32-68 | setting a node's Attributes one by one on a blank node rebuilds the same fields, so writing and reading node attributes round-trips |
| `DotNodes.SetNodeAttributeIdempotent` | dfd/dot_node.go:32-47 | setting the same node attribute twice has the effect of setting it once |
| `DotNodes.DotNode.FromHandle` | dfd/graph.go:40-45 | the bare node NewNode makes has the given handle, no DOT id and all attribute fields empty |
| `DotNodes.DotNode.New` | dfd/dfd_node_test.go:23-33 | a new node of a kind has the given name, the label Quote(name), its kind's shape, and a generated id whose handle is the draw x |
| `DotNodes.DotNode.Deserialize` | dfd/dfd_node_test.go:107-110 | a node read from DOT keeps the given id, its handle is idToID64(id), and only its kind's shape is set (an assumption about the constructor, see "Left out") |
| `DotNodes.DotNode.ExternalID` | dfd/dot_node.go:22-24 | ExternalID is the node's DOT id |
| `DotNodes.DotNode.DOTID` | dfd/dfd_node_test.go:155-173 | the DOT identifier is the kind word, "_", then the external id |
| `DotNodes.DotNode.SetDOTID` | dfd/dot_node.go:27-29 | SetDOTID changes the external id and nothing else |
| `DotNodes.DotNode.UpdateName` | dfd/dfd_node_test.go:196-211 | UpdateName sets the name and the label Quote(name) and keeps the id, shape, style and dir |
| `DotNodes.DotNode.SetAttribute` | dfd/dot_node.go:32-47 | the method fails iff the key is not a node key; on success the fields are those SetNodeAttribute gives, and on failure they are unchanged; the id and name are never touched |
| `DotNodes.DotNode.Attributes` | dfd/dot_node.go:50-68 | a node reports the attribute list NodeAttributesExact characterises |
| `DotEdges.SetEdgeAttribute` | dfd/dot_edge.go:21-31 | an edge accepts exactly the keys label and dir; each sets its own field and leaves the rest; any other key is an error |
| `DotEdges.PortSettersSeparate` | dfd/dot_edge.go:33-43 | SetFromPort sets only the from-port labels and SetToPort only the to-port labels; label and dir are untouched |
| `DotEdges.SetEdgeAttributeKeepsPorts` | dfd/dot_edge.go:21-31 | setting an edge attribute never changes its ports |
| `DotEdges.PortsCommuteWithAttribute` | dfd/dot_edge.go:21-43 | setting a port and setting an attribute give the same edge in either order |
| `DotEdges.PortSettersCommute` | dfd/dot_edge.go:33-43 | setting the from-port and the to-port give the same edge in either order |
| `DotEdges.DotEdge.constructor` | dfd/dot_edge.go:12-18 | a new edge joins the given endpoints, carries the given label, and has no dir and no ports |
| `DotEdges.DotEdge.SetAttribute` | dfd/dot_edge.go:21-31 | the method fails iff the key is neither label nor dir; the fields become those SetEdgeAttribute gives, or stay unchanged on failure |
| `DotEdges.DotEdge.SetFromPort` | dfd/dot_edge.go:33-37 | SetFromPort never fails and records the port and compass point as the from-port |
| `DotEdges.DotEdge.SetToPort` | dfd/dot_edge.go:39-43 | SetToPort never fails and records the port and compass point as the to-port |
| `DotEdges.DotEdge.FromPort` | dfd/dot_edge.go:45-47 | FromPort reads back the port and compass point stored as the from-port |
| `DotEdges.DotEdge.ToPort` | dfd/dot_edge.go:49-51 | ToPort reads back the port and compass point stored as the to-port |
| `Graph.LinkEntries` | dfd/directed.go:168-169 | storing an edge under (a, b) puts it there and leaves every other entry of the table as it was |
| `Graph.UnlinkEntries` | dfd/directed.go:117-118 | deleting (a, b) removes that entry only |
| `Graph.DropNodeEntries` | dfd/directed.go:127-137 | dropping a node removes exactly the entries that start or end at it |
| `Graph.EdgePairsLink` | dfd/directed.go:168 | storing an edge adds exactly its endpoint pair to the edge set |
| `Graph.RemoveNodeTables` | dfd/directed.go:129-137 | RemoveNode's two row-stripping loops give the from and to tables with the node's row and every entry pointing at it removed |
| `Graph.StripLoop` | dfd/directed.go:129-131 | the loop deleting id from the rows of its neighbours computes StripRows |
| `Graph.AddNodeValid` | dfd/directed.go:16-18 | adding a new node with empty rows keeps the store invariant |
| `Graph.SetEdgeValid` | dfd/directed.go:153-169 | storing a non-loop edge, with its endpoints added or replaced, keeps the store invariant |
| `Graph.RemoveEdgeValid` | dfd/directed.go:117-118 | deleting an edge from both tables keeps the store invariant |
| `Graph.DropNodeValid` | dfd/directed.go:127-137 | removing a node with its rows and every edge touching it keeps the store invariant |
| `Graph.DfdGraph.constructor` | dfd/graph.go:24-33 | NewDfdGraph gives a valid empty store with three distinct empty attribute lists and the generated id |
| `Graph.DfdGraph.WithID` | dfd/dfd.go:82-84 | a store made for a deserialized diagram is valid, empty, and carries the given id |
| `Graph.DfdGraph.SetDOTID` | dfd/graph.go:36-38 | SetDOTID changes the graph id and leaves nodes and edges alone |
| `Graph.DfdGraph.NewNode` | dfd/graph.go:40-45 | NewNode gives a fresh bare node whose handle is the parsed generated id |
| `Graph.DfdGraph.DOTAttributers` | dfd/graph.go:48-50 | DOTAttributers reports the graph, node and edge attribute lists in that order |
| `Graph.DfdGraph.DOTAttributeSetters` | dfd/graph.go:53-55 | DOTAttributeSetters hands out the store's own three lists, so writes through them show in DOTAttributers |
| `Graph.DfdGraph.SetGraphAttributeThroughSetter` | dfd/graph.go:53-55 | an attribute set through the graph setter appears at the end of the graph attributes; node and edge attributes are unchanged |
| `Graph.DfdGraph.AddNode` | dfd/directed.go:12-20 | AddNode of a new handle adds the node with empty rows, keeps every edge, and keeps the store valid |
| `Graph.DfdGraph.HasEdgeFromTo` | dfd/directed.go:73-78 | HasEdgeFromTo holds iff from[u][v] exists |
| `Graph.DfdGraph.Edge` | dfd/directed.go:24-32 | Edge finds an edge iff HasEdgeFromTo, and the edge it finds runs from u to a different v |
| `Graph.DfdGraph.HasEdgeBetween` | dfd/directed.go:64-70 | HasEdgeBetween holds iff there is an edge in one direction or the other |
| `Graph.DfdGraph.Node` | dfd/directed.go:87-89 | Node finds a node iff the handle is stored, and the node found has that handle |
| `Graph.DfdGraph.Nodes` | dfd/directed.go:92-105 | Nodes is nil iff the store is empty, and otherwise holds exactly the stored nodes |
| `Graph.DfdGraph.Edges` | dfd/directed.go:35-43 | Edges holds exactly the stored edges, each one being what Edge returns for its endpoints |
| `Graph.DfdGraph.From` | dfd/directed.go:46-60 | From is nil iff the node is unknown, and otherwise holds exactly the nodes with an edge from it |
| `Graph.DfdGraph.To` | dfd/directed.go:173-185 | To is nil iff the node is unknown, and otherwise holds exactly the nodes with an edge to it |
| `Graph.DfdGraph.NewEdge` | dfd/directed.go:81-83 | NewEdge runs from the first given node to the second |
| `Graph.DfdGraph.RemoveEdge` | dfd/directed.go:109-119 | RemoveEdge is a no-op when an endpoint is unknown; otherwise it removes exactly the edge fid -> tid; nodes stay, and the store stays valid |
| `Graph.DfdGraph.RemoveNode` | dfd/directed.go:123-140 | RemoveNode of an unknown handle is a no-op; otherwise the node and exactly the edges touching it go, and the store stays valid |
| `Graph.DfdGraph.SetEdge` | dfd/directed.go:145-170 | SetEdge of a non-loop edge stores both endpoints (added or replaced) and the edge in both tables; it adds exactly that endpoint pair and keeps every other edge and the store invariant |
| `Graph.HasEdgeBetweenSymmetric` | dfd/directed.go:64-70 | HasEdgeBetween does not depend on argument order |
| `Graph.EdgeMirrored` | dfd/directed.go:168-169 | in a valid store an edge u -> v is recorded in from[u] iff it is in to[v], and joins two stored, distinct nodes |
| `Dfd.MakeAttributeReadable` | dfd/dfd.go:408-410 | makeAttribute keeps the key, and its quoted value unquotes back to the original value |
| `Dfd.DiagramGraphAttributes` | dfd/dfd.go:263-273 | the diagram's graph attributes are seven entries led by the quoted diagram name, with fontsize given twice |
| `Dfd.DiagramNodeAttributes` | dfd/dfd.go:275-280 | the diagram's node defaults are fontname then fontsize |
| `Dfd.DiagramEdgeAttributes` | dfd/dfd.go:282-288 | the diagram's edge defaults are shape, fontname, fontsize |
| `Dfd.BoundaryGraphAttributes` | dfd/dfd.go:308-316 | a boundary's graph attributes are five entries led by its quoted name |
| `Dfd.DiagramGraphAttributesMade` | dfd/dfd.go:263-273 | the table is exactly the seven makeAttribute calls of graphAttributes, in order |
| `Dfd.DiagramNodeAttributesMade` | dfd/dfd.go:275-280 | the table is exactly the two makeAttribute calls of nodeAttributes |
| `Dfd.DiagramEdgeAttributesMade` | dfd/dfd.go:282-288 | the table is exactly the three makeAttribute calls of edgeAttributes |
| `Dfd.BoundaryGraphAttributesMade` | dfd/dfd.go:308-316 | the table is exactly the five makeAttribute calls of the boundary's graphAttributes |
| `Dfd.FormatFlowLabel` | dfd/dfd.go:416-418 | a flow label is the fixed HTML-like table prefix, the name, then the fixed suffix, so the name can be cut back out |
| `Dfd.FlowLabelInjective` | dfd/dfd.go:416-418 | distinct flow names give distinct labels |
| `Dfd.RemoveFlowMatchesAddFlow` | dfd/dfd.go:390-396 | for the decimal ids of a flow's endpoints, RemoveFlow deletes the very key AddFlow stored, and the ids parse back to the handles of the stored edge |
| `Dfd.FlowKeysCollide` | dfd/dfd.go:412-414 | genFlowID maps the distinct pairs (1, 23) and (12, 3) to the same key "123" |
| `Dfd.FlowAttributes` | dfd/dfd.go:398-406 | a flow reports nothing iff its label is empty, and otherwise exactly its label |
| `Dfd.SetAll` | dfd/dfd.go:249-259 | the setAttributes loops append the whole table through the setter, in order, after what was there |
| `Dfd.Scope.constructor` | dfd/dfd.go:61-63 | a diagram or boundary starts with empty kind maps over a valid store |
| `Dfd.Scope.FindNode` | dfd/dfd.go:136-145 | FindNode looks in Processes, then ExternalServices, then DataStores, and returns nothing iff none holds the id |
| `Dfd.Scope.FoundInOwnKind` | dfd/dfd.go:117-124 | a node FindNode returns is a process, service or store, and sits in its own kind's map under the id |
| `Dfd.Scope.AddKindEntry` | dfd/dfd.go:168-174 | addProcess, addExternalService or addDataStore by the node's kind: its own kind's map gets it under its external id, replacing any entry there, and the other maps and the store are unchanged |
| `Dfd.Scope.AddNodeElem` | dfd/dfd.go:165-180 | the node goes into its own kind's map under its external id, the other maps are unchanged, the store gains it with no edges, and FindNode then finds it |
| `Dfd.Scope.RemoveElem` | dfd/dfd.go:187-193 | Remove* deletes the id from its own kind's map only, and the store loses the node idToID64(id) and exactly the edges touching it |
| `Dfd.TrustBoundary.Initialize` | dfd/dfd.go:100-112 | a new boundary has the name, a generated id, no nodes, and graph attributes equal to its table with no node or edge defaults |
| `Dfd.TrustBoundary.Deserialize` | dfd/dfd.go:89-98 | a boundary read from DOT has the given id, no name, no nodes and no attributes |
| `Dfd.TrustBoundary.SetAttributes` | dfd/dfd.go:297-306 | setAttributes resets the graph attributes to the boundary's table for its current name and clears node and edge defaults |
| `Dfd.TrustBoundary.FillAttributes` | dfd/dfd.go:297-306 | the attribute lists are cleared and refilled with the boundary table, and nothing else in the store changes |
| `Dfd.TrustBoundary.UpdateName` | dfd/dfd.go:318-322 | UpdateName sets the name and the graph attributes become the table for the new name |
| `Dfd.DataFlowDiagram.Initialize` | dfd/dfd.go:58-72 | a new diagram has the name, a generated id, empty kind, boundary and flow maps, an empty store, and the three default tables as its attributes |
| `Dfd.DataFlowDiagram.Deserialize` | dfd/dfd.go:75-86 | a diagram read from DOT has the given id, no name, empty maps and store, and no attributes |
| `Dfd.DataFlowDiagram.GetTrustBoundary` | dfd/dfd.go:151-153 | GetTrustBoundary finds a boundary iff its id is registered, and returns the registered one |
| `Dfd.DataFlowDiagram.Structure` | dfd/dfd.go:236-242 | Structure holds exactly the registered trust boundaries |
| `Dfd.DataFlowDiagram.SetAttributes` | dfd/dfd.go:244-261 | setAttributes resets the three attribute lists to the diagram's tables for its current name |
| `Dfd.DataFlowDiagram.FillAttributes` | dfd/dfd.go:244-261 | the three lists are cleared and refilled with the diagram tables, and nothing else in the store changes |
| `Dfd.DataFlowDiagram.UpdateName` | dfd/dfd.go:159-163 | UpdateName sets the name, the graph attributes follow it, and boundaries and flows are unchanged |
| `Dfd.DataFlowDiagram.FindNode` | dfd/dfd.go:117-131 | the diagram's own kind maps win; failing them the result comes from some boundary whose FindNode succeeds; nil iff no map anywhere holds the id |
| `Dfd.DataFlowDiagram.AddTrustBoundary` | dfd/dfd.go:221-227 | a new named boundary is registered under its generated id and returned; GetTrustBoundary then finds it; flows and name are unchanged |
| `Dfd.DataFlowDiagram.RemoveTrustBoundary` | dfd/dfd.go:229-234 | only the boundary's map entry is removed |
| `Dfd.DataFlowDiagram.AddFlow` | dfd/dfd.go:380-388 | a fresh flow labelled formatFlowLabel(name) is the store's edge f -> t and Flows[genFlowID] holds it; the store's from and to tables are the old ones with that edge linked in, exactly that edge pair is added, the endpoints are stored, and the kind maps are unchanged |
| `Dfd.DataFlowDiagram.RemoveFlow` | dfd/dfd.go:390-396 | RemoveFlow deletes the key srcId+destId; the store's tables are unchanged when either parsed handle is unknown, and otherwise lose exactly the edge between the parsed handles; nodes and kind maps stay |
| `Generator.SplitIdent` | dfd/generator.go:44-50 | an identifier splits iff it holds exactly one "_", into two parts free of "_" that rejoin to it |
| `Generator.PrefixKind` | dfd/generator.go:58-67 | the kind words process, externalservice and datastore name the kind whose prefix they are; any other word is unknown |
| `Generator.NodeIdentRoundTrip` | dfd/generator.go:44-67 | the DOT identifier written for a node (kind word, "_", id) parses back to the same kind and id |
| `Generator.ToAttributes` | dfd/generator.go:87-90 | each statement attribute becomes the encoding attribute with the same key and value, in order |
| `Generator.Int64s.constructor` | dfd/generator.go:258 | a new set is empty |
| `Generator.Int64s.Add` | dfd/generator.go:277-279 | Add inserts the element |
| `Generator.Int64s.Has` | dfd/generator.go:282-285 | Has reports membership |
| `Generator.Int64s.Remove` | dfd/generator.go:288-290 | Remove deletes the element |
| `Generator.Int64s.Count` | dfd/generator.go:293-295 | Count is the number of elements |
| `Generator.Int64sEqual` | dfd/generator.go:299-315 | Int64sEqual is true iff the two sets hold the same elements |
| `Generator.DedupFacts` | dfd/generator.go:256-269 | unique keeps, in their original order, the first node of each handle: no handle twice, and every input handle present |
| `Generator.Unique` | dfd/generator.go:256-269 | the seen-set loop of unique computes Dedup |
| `Generator.AddOneFlow` | dfd/generator.go:164-166 | one pair's flow is recorded and the diagram only grows; attributes succeed iff every key is an edge key, and the flow then holds the ports and attributes applied to a blank flow label; the store's edge for the pair is that flow, and every other store edge is kept |
| `Generator.DecorateFlow` | dfd/generator.go:165-166 | ports then attributes are applied to the flow; it fails iff some key is not an edge key |
| `Generator.AddFlowsFrom` | dfd/generator.go:163-167 | on success the flow from f to every target is recorded, and the store's edge to each target is a flow with the blank flow label, the statement's ports and its attributes; the diagram only grows |
| `Generator.AddFlows` | dfd/generator.go:162-168 | on success every (from, to) pair is linked by a flow in the store and in Flows, and the store's edge for each pair is a flow with the blank flow label, the statement's ports and its attributes |
| `Generator.AddPlainEdgesFrom` | dfd/generator.go:197-202 | it succeeds iff no target is f itself, and then every store edge f -> t is a bare edge (replacing any flow there); every store edge that does not start at f or does not end at a target is kept |
| `Generator.AddPlainEdges` | dfd/generator.go:196-203 | it succeeds iff no pair is a self edge, and then every (from, to) store edge is a bare edge (replacing any flow there); every store edge off the grid of sources and targets is kept, on failure too |
| `Generator.Generator.constructor` | dfd/generator.go:14-20 | initGenerator is directed, has an empty registry and subgraph stack, and uses the builder's own three attribute lists as setters |
| `Generator.Generator.AppendSubgraphNode` | dfd/generator.go:154-156 | the node is appended to the nodes of the open subgraph |
| `Generator.Generator.PushSubgraph` | dfd/generator.go:234-236 | a subgraph opens at the current end of the node list |
| `Generator.Generator.PopSubgraph` | dfd/generator.go:240-253 | the innermost subgraph closes, returning the distinct nodes recorded since it opened; the node list empties when no subgraph is left |
| `Generator.Generator.Node` | dfd/generator.go:41-76 | node succeeds iff the id is registered or the kind word is known and the handle is free; a registered id is returned unchanged; otherwise a fresh node of that kind is added to the builder and registered |
| `Generator.Generator.Register` | dfd/generator.go:58-75 | a fresh deserialized node of the kind goes into the builder and the registry, unless its handle collides; on a collision the registry and the store are unchanged but the kind map already holds the fresh node |
| `Generator.Generator.AddDeserialized` | dfd/generator.go:58-73 | the fresh deserialized node always goes into its own kind's map under the id, the other maps unchanged; the store gains it iff the handle is free, and is unchanged otherwise (AddNodeElem writes the map before AddNode panics) |
| `Generator.Generator.ClusterIdRoundTrip` | dfd/generator.go:134 | a boundary with a generated id, written out as subgraph "cluster_" + id, is read back under that same id |
| `Generator.Generator.ApplyNodeAttrs` | dfd/generator.go:86-93 | a node statement's attributes apply in order; it fails iff some key is not a node key |
| `Generator.Generator.AddNodeStmt` | dfd/generator.go:81-94 | a node statement succeeds iff the id resolves and every key is a node key; the node then holds its attributes applied in order |
| `Generator.Generator.AddAttrStmt` | dfd/generator.go:97-130 | a default-attribute statement appends its attributes to the list of its kind, when that list exists, and leaves the other two lists |
| `Generator.Generator.ApplyPortsToEdge` | dfd/generator.go:210-230 | a diagram edge takes the port of each end that names one; a bare edge is left alone |
| `Generator.Generator.AddEdgeAttrs` | dfd/generator.go:327-341 | a bare edge ignores attributes; a diagram edge takes them in order and fails iff some key is not an edge key |
| `Generator.Generator.AddStmt` | dfd/generator.go:79-144 | node statements succeed as AddNodeStmt says, and the node then has the statement's attributes applied on top of its old (or fresh) fields; an edge between two nodes links them by a flow whose fields are the statement's ports and attributes applied to a blank flow label; attribute statements always succeed and append their attributes to the graph, node or edge default list; a subgraph statement registers the trust boundary "cluster_"-stripped and needs a diagram |
| `Generator.Generator.AddStmts` | dfd/generator.go:138-140 | running a subgraph's statements keeps the builder valid and only grows it |
| `Generator.Generator.AddSubgraphStmt` | dfd/generator.go:133-140 | on a diagram the subgraph becomes a fresh boundary registered under its "cluster_"-stripped id; on a boundary it fails |
| `Generator.Generator.AddBoundary` | dfd/generator.go:134-140 | the new boundary, with the stripped id, replaces any earlier entry with that id; the diagram only grows |
| `Generator.Generator.RunBoundary` | dfd/generator.go:137-140 | running a subgraph's statements keeps the boundary valid and its id |
| `Generator.Generator.AddVertex` | dfd/generator.go:172-186 | a node vertex succeeds iff its id resolves and gives that one node; a subgraph vertex gives no nodes |
| `Generator.Generator.AddEdgeStmt` | dfd/generator.go:159-169 | on success, every (from, to) pair of the statement is linked by a flow with the statement's ports and attributes; between two nodes, those two nodes are linked by such a flow |
| `Generator.Generator.AddFlowTargets` | dfd/generator.go:161-168 | on success, every source is linked to every target of the edge chain by a flow with the statement's ports and attributes |
| `Generator.Generator.AddStmtFlows` | dfd/generator.go:162-168 | with no sources or no targets nothing is needed; otherwise success needs a diagram and links every pair by a flow with the statement's ports and attributes |
| `Generator.Generator.AddEdge` | dfd/generator.go:189-206 | addEdge returns the nodes of its vertex; when the next hop is a node, the store's edge between the two is a bare edge |
| `Generator.Generator.AddNextHop` | dfd/generator.go:194-203 | on success, every source's store edge to the next hop's node is a bare edge |
| `Generator.JoinHops` | dfd/generator.go:196-203 | on success, the store edge of every (from, to) pair is a bare edge; every store edge off that grid is kept |

## Left out

- `client.go` is not part of this model. It reads and writes the DOT file and calls the gonum DOT parser and marshaller. The DOT parser and marshaller, and the gonum `iterator` and `simple` packages, are foreign code.
- `ToDOT` is a stub that returns nil, and `TrustBoundary.Subgraph` returns its receiver, so neither is modelled.
- Mutexes and concurrency are left out. Every operation is modelled as if it ran alone.
- `genID` reads `crypto/rand`; the drawn number is the parameter `x`, with `0 <= x < MaxInt64`.
- Go map iteration order is not modelled. `Nodes`, `Edges`, `From`, `To` and `Structure` return sets, not ordered iterators or slices.
- `Dfd.DataFlowDiagram.FindNode`: when several trust boundaries hold the id, which one answers depends on map order in Go; the model says only that some boundary holding the id answers.
- `GoStrings.Quote` escapes only `"`, `\`, newline, tab and carriage return. Other control characters and non-printable code points are kept as they are, where `strconv.Quote` writes `\x`/`\u` escapes. The properties above need only that quoting is injective and that unquoting reverses it, which holds for both.
- The `nodeIDs` set of `dfdGraph` in `graph.go` (with `Use` and `Release`) is not part of this model. Its type is defined outside these files, and nothing reads it.
- `Graph.DfdGraph.SetEdge` adds a missing endpoint directly (new rows, as `AddNode` does) instead of calling `AddNode`. AddNode is called only for a missing handle, so it cannot panic there, and the effect is the same.
- Panics of the store and diagram API are preconditions: `AddNode` on an existing handle, `SetEdge`/`AddFlow` on a self edge, `AddNodeElem` on a bare node. In the generator, a panic is a `false`/`None` result, and the state reached before it stays as it is. For a node whose handle is already stored, that state includes the kind map entry AddNodeElem writes before `AddNode` panics.
- `Generator.Generator.AddStmt`: when a statement succeeds is stated for node, attribute and attribute-assignment statements only. For edge and subgraph statements the contract states what success implies, not when it happens. For example, `process_1 -> datastore_1` resolves both ends to the same registered node and fails on the self edge, and the contract does not say so. The state left by a failed statement is not given.
- `Generator.Generator.AddStmts` states only that the builder stays valid and grows, not which statements were applied.
- `Generator.Generator.RunBoundary` states only that the boundary stays valid and keeps its id, not what its statements add.
- `Generator.Generator.AddNextHop` and `Generator.Generator.AddEdge` do not state which other store edges are kept, because the rest of the chain, joined first, adds edges of its own. `JoinHops` states it for the last join.
- `Generator.AddFlowsFrom` and `Generator.AddFlows` state the result only on success. On failure, only that the diagram stays valid and grows is stated.
- The flow-field facts of `AddFlowsFrom`, `AddFlows`, `AddStmtFlows`, `AddFlowTargets`, `AddEdgeStmt` and `AddStmt` are stated on the store's `from` table. They are not stated on the `Flows` entries of earlier pairs, because a later pair whose key collides (`FlowKeysCollide`) can overwrite such an entry.
- The undirected-graph panic of `addEdge` is modelled as a `None` result in `AddEdge`, but it cannot fire, because `initGenerator` always sets `directed`. The `dst.AddNode` branch of `node` is unreachable, because both builders are `DfdGraph`s, and it is not modelled.
- `appendSubgraphNode` has no caller in the source, so `subNodes` stays empty. A subgraph vertex therefore yields no nodes, and edges to or from it add nothing.
- `int64sSame` compares map headers with `unsafe`; it is modelled as identity of the two `Int64s` objects.
- The compass point of a port is kept as the string the parser gives. Its enumeration is not modelled.
- The three node kinds share one class, `DotNode`, with a kind tag. Their constructors live outside these files. `New`, `Deserialize`, `UpdateName` and `DOTID` follow what `dfd_node_test.go` checks of them. That `Deserialize` sets no field except the kind's shape is an assumption about those constructors: the tests check only that the ID is idToID64(id). `Node`, `Register`, `AddDeserialized` and `AddNodeStmt` state the fields of a new node under this assumption.
- The fixed attribute tables are written with their values already quoted. The `*Made` lemmas prove each table equal to its `makeAttribute` calls.
- Generator methods require the generator's three attribute lists to be other objects than the builder itself, its scope and its store. `initGenerator` always gives it the store's own lists, which are such objects.
