/**
 * dfd/graph.go and dfd/directed.go: the adjacency store under every
 * diagram. Nodes are kept by handle in `nodes`; an edge u -> v is kept
 * twice, as from[u][v] and as to[v][u], and every operation keeps those two
 * tables mirror images of each other.
 */
module Graph {
  import opened Wrappers
  import opened Attributes
  import opened Utilities
  import opened DotNodes
  import opened DotEdges

  /**
   * A graph.Edge as the store holds it: either the bare edge NewEdge makes
   * (just its two endpoints) or a diagram edge with DOT attributes.
   */
  datatype EdgeRef = PlainEdge(f: DotNode, t: DotNode) | FlowEdge(e: DotEdge) {
    function From(): DotNode {
      match this
      case PlainEdge(f, _) => f
      case FlowEdge(e) => e.src
    }

    function To(): DotNode {
      match this
      case PlainEdge(_, t) => t
      case FlowEdge(e) => e.dst
    }
  }

  type Row = map<int, EdgeRef>
  type Table = map<int, Row>

  /** The row of `k`, or the empty row a fresh node gets. */
  function RowOf(t: Table, k: int): Row {
    if k in t then t[k] else map[]
  }

  predicate InTable(t: Table, u: int, v: int) {
    u in t && v in t[u]
  }

  /**
   * The store invariant: the three tables share their key set, each node
   * sits under its own handle, from[u][v] exists exactly when to[v][u] does
   * and holds the same edge, and that edge runs from handle u to a
   * different handle v.
   */
  ghost predicate StoreValid(nodes: map<int, DotNode>, from: Table, to: Table) {
    && (forall k :: k in nodes <==> k in from)
    && (forall k :: k in from <==> k in to)
    && (forall k :: k in nodes ==> nodes[k].handle == k)
    && (forall u, v :: InTable(from, u, v) ==> InTable(to, v, u) && to[v][u] == from[u][v])
    && (forall u, v :: InTable(to, v, u) ==> InTable(from, u, v))
    && (forall u, v :: InTable(from, u, v) ==> u != v && from[u][v].From().handle == u && from[u][v].To().handle == v)
  }

  /** AddNode's effect on one table: a row for k, empty if it had none. */
  function EnsureRow(t: Table, k: int): (r: Table)
    ensures r.Keys == t.Keys + {k}
  {
    if k in t then t else t[k := map[]]
  }

  /**
   * SetEdge's effect on one table: rows for its endpoints x and y, made in
   * that order, then `e` stored at [a][b] (one of the two orientations),
   * added or overwriting.
   */
  function Link(t: Table, x: int, y: int, a: int, b: int, e: EdgeRef): (r: Table)
    requires a == x || a == y
    ensures r.Keys == t.Keys + {x, y}
  {
    var t' := EnsureRow(EnsureRow(t, x), y);
    t'[a := t'[a][b := e]]
  }

  /** One table after deleting the entry [a][b] (row a must exist). */
  function Unlink(t: Table, a: int, b: int): (r: Table)
    requires a in t
    ensures r.Keys == t.Keys
  {
    t[a := t[a] - {b}]
  }

  /** The tables after RemoveNode(id): the row of id gone, and id gone from every other row. */
  function DropNode(t: Table, id: int): (r: Table)
    ensures r.Keys == t.Keys - {id}
  {
    map k | k in t && k != id :: t[k] - {id}
  }

  /** Link adds exactly the entry [a][b] and changes no other entry. */
  lemma LinkEntries(t: Table, x: int, y: int, a: int, b: int, e: EdgeRef)
    requires (a == x && b == y) || (a == y && b == x)
    ensures InTable(Link(t, x, y, a, b, e), a, b) && Link(t, x, y, a, b, e)[a][b] == e
    ensures forall u, v :: (u, v) != (a, b) ==> (InTable(Link(t, x, y, a, b, e), u, v) <==> InTable(t, u, v))
    ensures forall u, v :: (u, v) != (a, b) && InTable(t, u, v) ==> Link(t, x, y, a, b, e)[u][v] == t[u][v]
  {
  }

  /** The (u, v) handle pairs that have an entry [u][v]. */
  ghost function EdgePairs(t: Table): set<(int, int)> {
    set u, v | u in t && v in t[u] :: (u, v)
  }

  /** A pair is in EdgePairs exactly when the table has that entry. */
  lemma EdgePairsMember(t: Table, u: int, v: int)
    ensures (u, v) in EdgePairs(t) <==> InTable(t, u, v)
  {
    if InTable(t, u, v) {
      assert (u, v) in EdgePairs(t);
    }
  }

  /** Link adds exactly the pair (a, b). */
  lemma EdgePairsLink(t: Table, x: int, y: int, a: int, b: int, e: EdgeRef)
    requires (a == x && b == y) || (a == y && b == x)
    ensures EdgePairs(Link(t, x, y, a, b, e)) == EdgePairs(t) + {(a, b)}
  {
    var l := Link(t, x, y, a, b, e);
    LinkEntries(t, x, y, a, b, e);
    forall p | p in EdgePairs(l)
      ensures p in EdgePairs(t) + {(a, b)}
    {
      var (u, v) := p;
      if p != (a, b) {
        assert InTable(t, u, v);
        EdgePairsMember(t, u, v);
      }
    }
    forall p | p in EdgePairs(t) + {(a, b)}
      ensures p in EdgePairs(l)
    {
      var (u, v) := p;
      if p != (a, b) {
        EdgePairsMember(t, u, v);
      }
      assert InTable(l, u, v);
      EdgePairsMember(l, u, v);
    }
  }

  /** A new empty row adds no pair. */
  lemma EdgePairsNewRow(t: Table, k: int)
    requires k !in t
    ensures EdgePairs(t[k := map[]]) == EdgePairs(t)
  {
    forall p | p in EdgePairs(t[k := map[]])
      ensures p in EdgePairs(t)
    {
      var (u, v) := p;
      EdgePairsMember(t[k := map[]], u, v);
      EdgePairsMember(t, u, v);
    }
  }

  /** Unlink removes exactly the entry [a][b]. */
  lemma UnlinkEntries(t: Table, a: int, b: int)
    requires a in t
    ensures !InTable(Unlink(t, a, b), a, b)
    ensures forall u, v :: (u, v) != (a, b) ==> (InTable(Unlink(t, a, b), u, v) <==> InTable(t, u, v))
  {
  }

  /** DropNode removes exactly the entries that mention id. */
  lemma DropNodeEntries(t: Table, id: int)
    ensures forall u, v :: InTable(DropNode(t, id), u, v) <==> InTable(t, u, v) && u != id && v != id
  {
  }

  /** Some element of a non-empty set. */
  method Pick<T>(s: set<T>) returns (x: T)
    requires s != {}
    ensures x in s
  {
    x :| x in s;
  }

  /** Every row whose key is in `keys` loses its entry for h; other rows are kept. */
  function StripRows(t: Table, keys: set<int>, h: int): (r: Table)
    ensures r.Keys == t.Keys
  {
    map k | k in t :: if k in keys then t[k] - {h} else t[k]
  }

  /**
   * RemoveNode's two passes (clearing h from the reverse rows of its
   * successors, then from the forward rows of its predecessors) leave
   * exactly DropNode of each table, because in a valid store no other row
   * mentions h.
   */
  lemma RemoveNodeTables(nodes: map<int, DotNode>, from: Table, to: Table, h: int)
    requires StoreValid(nodes, from, to) && h in nodes
    ensures h !in from[h] && h !in to[h]
    ensures StripRows(to, from[h].Keys, h) - {h} == DropNode(to, h)
    ensures StripRows(from - {h}, to[h].Keys, h) == DropNode(from, h)
  {
    assert !InTable(from, h, h);
    assert !InTable(to, h, h);
    var t1, t2 := StripRows(to, from[h].Keys, h) - {h}, DropNode(to, h);
    forall k | k in t1
      ensures t1[k] == t2[k]
    {
      assert InTable(to, k, h) ==> InTable(from, h, k);
    }
    assert t1 == t2;
    var f1, f2 := StripRows(from - {h}, to[h].Keys, h), DropNode(from, h);
    forall k | k in f1
      ensures f1[k] == f2[k]
    {
      assert InTable(from, k, h) ==> InTable(to, h, k);
    }
    assert f1 == f2;
  }

  /** The loop behind RemoveNode's two passes: h deleted from the rows listed in `keys`. */
  method StripLoop(t: Table, keys: set<int>, h: int) returns (r: Table)
    requires keys <= t.Keys
    ensures r == StripRows(t, keys, h)
  {
    r := t;
    var rest := keys;
    while rest != {}
      invariant rest <= keys && r.Keys == t.Keys
      invariant forall k :: k in r ==> r[k] == if k in keys - rest then t[k] - {h} else t[k]
      decreases rest
    {
      var k := Pick(rest);
      r := r[k := r[k] - {h}];
      rest := rest - {k};
    }
    forall k | k in r
      ensures r[k] == StripRows(t, keys, h)[k]
    {
    }
  }

  lemma AddNodeValid(nodes: map<int, DotNode>, from: Table, to: Table, n: DotNode)
    requires StoreValid(nodes, from, to) && n.handle !in nodes
    ensures StoreValid(nodes[n.handle := n], from[n.handle := map[]], to[n.handle := map[]])
  {
    var h := n.handle;
    var from', to' := from[h := map[]], to[h := map[]];
    forall u, v | InTable(from', u, v)
      ensures InTable(to', v, u) && to'[v][u] == from'[u][v]
    {
      assert InTable(from, u, v);
    }
    forall u, v | InTable(to', v, u)
      ensures InTable(from', u, v)
    {
      assert InTable(to, v, u);
    }
  }

  lemma ReplaceNodeValid(nodes: map<int, DotNode>, from: Table, to: Table, n: DotNode)
    requires StoreValid(nodes, from, to) && n.handle in nodes
    ensures StoreValid(nodes[n.handle := n], from, to)
  {
  }

  /** After SetEdge, every from-entry is mirrored in `to` and runs between its own handles. */
  lemma SetEdgeForward(from: Table, to: Table, e: EdgeRef)
    requires (forall u, v :: InTable(from, u, v) ==> InTable(to, v, u) && to[v][u] == from[u][v])
    requires (forall u, v :: InTable(from, u, v) ==> u != v && from[u][v].From().handle == u && from[u][v].To().handle == v)
    requires e.From().handle != e.To().handle
    ensures var fid, tid := e.From().handle, e.To().handle;
      var from', to' := Link(from, fid, tid, fid, tid, e), Link(to, fid, tid, tid, fid, e);
      forall u, v :: InTable(from', u, v) ==>
        && InTable(to', v, u) && to'[v][u] == from'[u][v]
        && u != v && from'[u][v].From().handle == u && from'[u][v].To().handle == v
  {
    var fid, tid := e.From().handle, e.To().handle;
    var from', to' := Link(from, fid, tid, fid, tid, e), Link(to, fid, tid, tid, fid, e);
    LinkEntries(from, fid, tid, fid, tid, e);
    LinkEntries(to, fid, tid, tid, fid, e);
    forall u, v | InTable(from', u, v)
      ensures InTable(to', v, u) && to'[v][u] == from'[u][v]
      ensures u != v && from'[u][v].From().handle == u && from'[u][v].To().handle == v
    {
      if (u, v) != (fid, tid) {
        assert InTable(from, u, v);
      }
    }
  }

  /** After SetEdge, every to-entry has its from-entry. */
  lemma SetEdgeBackward(from: Table, to: Table, e: EdgeRef)
    requires (forall u, v :: InTable(to, v, u) ==> InTable(from, u, v))
    ensures var fid, tid := e.From().handle, e.To().handle;
      forall u, v :: InTable(Link(to, fid, tid, tid, fid, e), v, u) ==> InTable(Link(from, fid, tid, fid, tid, e), u, v)
  {
    var fid, tid := e.From().handle, e.To().handle;
    LinkEntries(from, fid, tid, fid, tid, e);
    LinkEntries(to, fid, tid, tid, fid, e);
    forall u, v | InTable(Link(to, fid, tid, tid, fid, e), v, u)
      ensures InTable(Link(from, fid, tid, fid, tid, e), u, v)
    {
      if (u, v) != (fid, tid) {
        assert InTable(to, v, u);
      }
    }
  }

  /** After SetEdge, the three tables still share their keys and each node sits under its handle. */
  lemma SetEdgeRows(nodes: map<int, DotNode>, from: Table, to: Table, e: EdgeRef)
    requires forall k :: k in nodes <==> k in from
    requires forall k :: k in from <==> k in to
    requires forall k :: k in nodes ==> nodes[k].handle == k
    ensures var fid, tid := e.From().handle, e.To().handle;
      var nodes', from', to' := nodes[fid := e.From()][tid := e.To()], Link(from, fid, tid, fid, tid, e), Link(to, fid, tid, tid, fid, e);
      && (forall k :: k in nodes' <==> k in from')
      && (forall k :: k in from' <==> k in to')
      && (forall k :: k in nodes' ==> nodes'[k].handle == k)
  {
  }

  lemma SetEdgeValid(nodes: map<int, DotNode>, from: Table, to: Table, e: EdgeRef)
    requires StoreValid(nodes, from, to) && e.From().handle != e.To().handle
    ensures var fid, tid := e.From().handle, e.To().handle;
      StoreValid(nodes[fid := e.From()][tid := e.To()], Link(from, fid, tid, fid, tid, e), Link(to, fid, tid, tid, fid, e))
  {
    var fid, tid := e.From().handle, e.To().handle;
    var nodes' := nodes[fid := e.From()][tid := e.To()];
    var from', to' := Link(from, fid, tid, fid, tid, e), Link(to, fid, tid, tid, fid, e);
    SetEdgeForward(from, to, e);
    SetEdgeBackward(from, to, e);
    SetEdgeRows(nodes, from, to, e);
  }

  lemma RemoveEdgeValid(nodes: map<int, DotNode>, from: Table, to: Table, fid: int, tid: int)
    requires StoreValid(nodes, from, to) && fid in nodes && tid in nodes
    ensures StoreValid(nodes, Unlink(from, fid, tid), Unlink(to, tid, fid))
  {
    var from', to' := Unlink(from, fid, tid), Unlink(to, tid, fid);
    UnlinkEntries(from, fid, tid);
    UnlinkEntries(to, tid, fid);
    forall u, v | InTable(from', u, v)
      ensures InTable(to', v, u) && to'[v][u] == from'[u][v]
    {
      assert InTable(from, u, v);
    }
    forall u, v | InTable(to', v, u)
      ensures InTable(from', u, v)
    {
      assert InTable(to, v, u);
    }
  }

  lemma DropNodeValid(nodes: map<int, DotNode>, from: Table, to: Table, id: int)
    requires StoreValid(nodes, from, to) && id in nodes
    ensures StoreValid(nodes - {id}, DropNode(from, id), DropNode(to, id))
  {
    var from', to' := DropNode(from, id), DropNode(to, id);
    forall u, v | InTable(from', u, v)
      ensures InTable(to', v, u) && to'[v][u] == from'[u][v]
    {
      assert InTable(from, u, v);
    }
    forall u, v | InTable(to', v, u)
      ensures InTable(from', u, v)
    {
      assert InTable(to, v, u);
    }
  }

  /** In a valid store every row holds handles of stored nodes, each under its own handle. */
  lemma RowsHoldNodes(nodes: map<int, DotNode>, from: Table, to: Table, h: int)
    requires StoreValid(nodes, from, to) && h in nodes
    ensures forall v :: v in from[h] ==> v in nodes && nodes[v].handle == v && InTable(from, h, v)
    ensures forall u :: u in to[h] ==> u in nodes && nodes[u].handle == u && InTable(from, u, h)
    ensures from[h].Keys <= to.Keys && to[h].Keys <= from.Keys - {h}
  {
    forall v | v in from[h]
      ensures v in nodes
    {
      assert InTable(from, h, v);
    }
    forall u | u in to[h]
      ensures u in nodes && InTable(from, u, h) && u != h
    {
      assert InTable(to, h, u);
    }
    assert forall v :: v in from[h].Keys ==> v in to.Keys;
    assert forall u :: u in to[h].Keys ==> u in from.Keys - {h};
  }

  /**
   * dfdGraph: the graph id, the graph/node/edge default attribute lists and
   * the adjacency tables. The attribute lists are objects of their own so
   * that the setters DOTAttributeSetters hands out alias them.
   */
  class DfdGraph {
    var id: string
    const graphAttrs: AttributeList
    const nodeAttrs: AttributeList
    const edgeAttrs: AttributeList
    var nodes: map<int, DotNode>
    var from: Table
    var to: Table

    ghost predicate Valid()
      reads this
    {
      StoreValid(nodes, from, to)
    }

    /** The three attribute lists are distinct objects. */
    predicate ListsDistinct() {
      graphAttrs != nodeAttrs && graphAttrs != edgeAttrs && nodeAttrs != edgeAttrs
    }

    /** The objects a change to the store may touch. */
    function Repr(): set<object> {
      {this, graphAttrs, nodeAttrs, edgeAttrs}
    }

    /**
     * NewDfdGraph, with the random draw `x` behind genID made a parameter:
     * empty tables, empty attribute lists, the generated id.
     */
    constructor (x: int)
      requires 0 <= x < MaxInt64
      ensures Valid() && ListsDistinct()
      ensures id == GenID(x)
      ensures nodes == map[] && from == map[] && to == map[]
      ensures fresh(graphAttrs) && fresh(nodeAttrs) && fresh(edgeAttrs)
      ensures graphAttrs.items == [] && nodeAttrs.items == [] && edgeAttrs.items == []
    {
      id := GenID(x);
      graphAttrs := new AttributeList();
      nodeAttrs := new AttributeList();
      edgeAttrs := new AttributeList();
      nodes, from, to := map[], map[], map[];
    }

    /** An empty store under a given id (the Deserialize constructors). */
    constructor WithID(gid: string)
      ensures Valid() && ListsDistinct()
      ensures id == gid
      ensures nodes == map[] && from == map[] && to == map[]
      ensures fresh(graphAttrs) && fresh(nodeAttrs) && fresh(edgeAttrs)
      ensures graphAttrs.items == [] && nodeAttrs.items == [] && edgeAttrs.items == []
    {
      id := gid;
      graphAttrs := new AttributeList();
      nodeAttrs := new AttributeList();
      edgeAttrs := new AttributeList();
      nodes, from, to := map[], map[], map[];
    }

    /** SetDOTID replaces the graph id and nothing else. */
    method SetDOTID(gid: string)
      modifies this
      ensures id == gid
      ensures nodes == old(nodes) && from == old(from) && to == old(to)
    {
      id := gid;
    }

    /**
     * NewNode: a bare node with empty fields whose handle is the parse of
     * a generated id (the draw `x`). It is not added to the store.
     */
    method NewNode(x: int) returns (n: DotNode)
      requires 0 <= x < MaxInt64
      ensures fresh(n)
      ensures n.kind == PlainNode && n.Fields() == Blank
      ensures n.handle == IdToID64(GenID(x)) && n.handle == x
    {
      var xid := GenID(x);
      n := new DotNode.FromHandle(IdToID64(xid));
    }

    /** DOTAttributers: the graph, node and edge attribute lists, in that order. */
    function DOTAttributers(): (r: (seq<Attribute>, seq<Attribute>, seq<Attribute>))
      reads graphAttrs, nodeAttrs, edgeAttrs
      ensures r.0 == graphAttrs.Attributes() && r.1 == nodeAttrs.Attributes() && r.2 == edgeAttrs.Attributes()
    {
      (graphAttrs.items, nodeAttrs.items, edgeAttrs.items)
    }

    /** DOTAttributeSetters: setters that are the store's own three lists. */
    function DOTAttributeSetters(): (r: (AttributeList, AttributeList, AttributeList))
      ensures r.0 == graphAttrs && r.1 == nodeAttrs && r.2 == edgeAttrs
    {
      (graphAttrs, nodeAttrs, edgeAttrs)
    }

    /**
     * A graph attribute set through the graph setter shows up at the end of
     * DOTAttributers' first list; the other two are unchanged.
     */
    method SetGraphAttributeThroughSetter(a: Attribute)
      requires ListsDistinct()
      modifies graphAttrs
      ensures DOTAttributers().0 == old(DOTAttributers().0) + [a]
      ensures DOTAttributers().1 == old(DOTAttributers().1) && DOTAttributers().2 == old(DOTAttributers().2)
    {
      var (graphSetter, _, _) := DOTAttributeSetters();
      graphSetter.SetAttribute(a);
    }

    /** AddNode: registers a node whose handle is not yet used, with empty adjacency. */
    method AddNode(n: DotNode)
      requires Valid() && n.handle !in nodes
      modifies this
      ensures Valid()
      ensures nodes == old(nodes)[n.handle := n]
      ensures from == old(from)[n.handle := map[]] && to == old(to)[n.handle := map[]]
      ensures id == old(id)
      ensures EdgePairs(from) == old(EdgePairs(from))
    {
      AddNodeValid(nodes, from, to, n);
      EdgePairsNewRow(from, n.handle);
      nodes := nodes[n.handle := n];
      from := from[n.handle := map[]];
      to := to[n.handle := map[]];
    }

    /** HasEdgeFromTo: whether there is an edge u -> v. */
    function HasEdgeFromTo(u: int, v: int): (r: bool)
      reads this
      ensures r <==> InTable(from, u, v)
    {
      u in from && v in from[u]
    }

    /** Edge: the edge u -> v, or None when there is none. */
    function Edge(u: int, v: int): (r: Option<EdgeRef>)
      requires Valid()
      reads this
      ensures r.Some? <==> HasEdgeFromTo(u, v)
      ensures r.Some? ==> r.value.From().handle == u && r.value.To().handle == v && u != v
    {
      if u in from && v in from[u] then Some(from[u][v]) else None
    }

    /** HasEdgeBetween: an edge in either direction. */
    function HasEdgeBetween(x: int, y: int): (r: bool)
      reads this
      ensures r <==> HasEdgeFromTo(x, y) || HasEdgeFromTo(y, x)
    {
      if x in from && y in from[x] then true
      else y in from && x in from[y]
    }

    /** Node: the node under a handle, or None. */
    function Node(h: int): (r: Option<DotNode>)
      requires Valid()
      reads this
      ensures r.Some? <==> h in nodes
      ensures r.Some? ==> r.value.handle == h
    {
      if h in nodes then Some(nodes[h]) else None
    }

    /** Nodes: None (nil) on an empty store, otherwise every node held. */
    function Nodes(): (r: Option<set<DotNode>>)
      requires Valid()
      reads this
      ensures r.None? <==> nodes == map[]
      ensures r.Some? ==> forall h :: h in nodes ==> nodes[h] in r.value
      ensures r.Some? ==> forall n :: n in r.value ==> n.handle in nodes && nodes[n.handle] == n
    {
      if |nodes| == 0 then None else Some(set h | h in nodes :: nodes[h])
    }

    /** Edges: every edge held, each under its own endpoints. */
    function Edges(): (r: set<EdgeRef>)
      requires Valid()
      reads this
      ensures forall e :: e in r ==> HasEdgeFromTo(e.From().handle, e.To().handle) && Edge(e.From().handle, e.To().handle) == Some(e)
      ensures forall u, v :: HasEdgeFromTo(u, v) ==> from[u][v] in r
    {
      set u, v | u in from && v in from[u] :: from[u][v]
    }

    /** From: None for an unknown handle, otherwise the nodes reachable by one edge. */
    function From(h: int): (r: Option<set<DotNode>>)
      requires Valid()
      reads this
      ensures r.None? <==> h !in nodes
      ensures r.Some? ==> forall v :: HasEdgeFromTo(h, v) ==> nodes[v] in r.value
      ensures r.Some? ==> forall n :: n in r.value ==> HasEdgeFromTo(h, n.handle) && nodes[n.handle] == n
    {
      if h !in from then None
      else
        RowsHoldNodes(nodes, from, to, h);
        Some(set v | v in from[h] :: nodes[v])
    }

    /**
     * To: None for an unknown handle (the source tests the forward table),
     * otherwise the nodes with an edge into it.
     */
    function To(h: int): (r: Option<set<DotNode>>)
      requires Valid()
      reads this
      ensures r.None? <==> h !in nodes
      ensures r.Some? ==> forall u :: HasEdgeFromTo(u, h) ==> nodes[u] in r.value
      ensures r.Some? ==> forall n :: n in r.value ==> HasEdgeFromTo(n.handle, h) && nodes[n.handle] == n
    {
      if h !in from then None
      else
        RowsHoldNodes(nodes, from, to, h);
        Some(set u | u in to[h] :: nodes[u])
    }

    /** NewEdge: a bare edge between two nodes. */
    function NewEdge(f: DotNode, t: DotNode): (r: EdgeRef)
      ensures r.From() == f && r.To() == t
    {
      PlainEdge(f, t)
    }

    /**
     * RemoveEdge: a no-op when either endpoint is absent; otherwise removes
     * the edge fid -> tid and no other.
     */
    method RemoveEdge(fid: int, tid: int)
      requires Valid()
      modifies this
      ensures Valid()
      ensures nodes == old(nodes) && id == old(id)
      ensures fid !in old(nodes) || tid !in old(nodes) ==> from == old(from) && to == old(to)
      ensures fid in old(nodes) && tid in old(nodes) ==>
        from == Unlink(old(from), fid, tid) && to == Unlink(old(to), tid, fid)
      ensures !HasEdgeFromTo(fid, tid)
      ensures forall u, v :: (u, v) != (fid, tid) ==> (HasEdgeFromTo(u, v) <==> old(HasEdgeFromTo(u, v)))
    {
      if fid !in nodes {
        return;
      }
      if tid !in nodes {
        return;
      }
      RemoveEdgeValid(nodes, from, to, fid, tid);
      UnlinkEntries(from, fid, tid);
      from := from[fid := from[fid] - {tid}];
      to := to[tid := to[tid] - {fid}];
    }

    /**
     * RemoveNode: a no-op for an absent handle; otherwise removes the node
     * and every edge into or out of it, and no other edge.
     */
    method RemoveNode(h: int)
      requires Valid()
      modifies this
      ensures Valid()
      ensures id == old(id)
      ensures h !in old(nodes) ==> nodes == old(nodes) && from == old(from) && to == old(to)
      ensures h in old(nodes) ==>
        nodes == old(nodes) - {h} && from == DropNode(old(from), h) && to == DropNode(old(to), h)
      ensures forall u, v :: HasEdgeFromTo(u, v) <==> old(HasEdgeFromTo(u, v)) && u != h && v != h
    {
      if h !in nodes {
        return;
      }
      DropNodeValid(nodes, from, to, h);
      RemoveNodeTables(nodes, from, to, h);
      DropNodeEntries(from, h);
      RowsHoldNodes(nodes, from, to, h);
      nodes := nodes - {h};
      to := StripLoop(to, from[h].Keys, h);
      from := from - {h};
      from := StripLoop(from, to[h].Keys, h);
      to := to - {h};
    }

    /**
     * SetEdge: adds missing endpoints, replaces present ones with the
     * edge's own endpoint nodes, and stores the edge under fid -> tid,
     * overwriting any edge already there. A self edge is a panic.
     */
    method SetEdge(e: EdgeRef)
      requires Valid() && e.From().handle != e.To().handle
      modifies this
      ensures Valid()
      ensures id == old(id)
      ensures nodes == old(nodes)[e.From().handle := e.From()][e.To().handle := e.To()]
      ensures from == Link(old(from), e.From().handle, e.To().handle, e.From().handle, e.To().handle, e)
      ensures to == Link(old(to), e.From().handle, e.To().handle, e.To().handle, e.From().handle, e)
      ensures HasEdgeFromTo(e.From().handle, e.To().handle) && Edge(e.From().handle, e.To().handle) == Some(e)
      ensures forall u, v :: (u, v) != (e.From().handle, e.To().handle) ==> (HasEdgeFromTo(u, v) <==> old(HasEdgeFromTo(u, v)))
      ensures EdgePairs(from) == old(EdgePairs(from)) + {(e.From().handle, e.To().handle)}
    {
      var f, t := e.From(), e.To();
      var fid, tid := f.handle, t.handle;
      SetEdgeValid(nodes, from, to, e);
      LinkEntries(from, fid, tid, fid, tid, e);
      EdgePairsLink(from, fid, tid, fid, tid, e);
      // Each endpoint is added (AddNode: empty rows) when new, and its node
      // entry replaced otherwise; EnsureRow leaves an existing row alone.
      nodes := nodes[fid := f];
      from, to := EnsureRow(from, fid), EnsureRow(to, fid);
      nodes := nodes[tid := t];
      from, to := EnsureRow(from, tid), EnsureRow(to, tid);
      from := from[fid := from[fid][tid := e]];
      to := to[tid := to[tid][fid := e]];
    }
  }

  /** HasEdgeBetween does not depend on the order of its arguments. */
  lemma HasEdgeBetweenSymmetric(g: DfdGraph, x: int, y: int)
    ensures g.HasEdgeBetween(x, y) == g.HasEdgeBetween(y, x)
  {
  }

  /** In a valid store an edge u -> v is also recorded in the reverse table, between two held nodes. */
  lemma EdgeMirrored(g: DfdGraph, u: int, v: int)
    requires g.Valid()
    ensures g.HasEdgeFromTo(u, v) <==> InTable(g.to, v, u)
    ensures g.HasEdgeFromTo(u, v) ==> u in g.nodes && v in g.nodes && u != v
  {
  }
}
