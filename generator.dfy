/**
 * dfd/generator.go: rebuilds a diagram from parsed DOT statements.
 *
 * A panic of the source is an early return with a failure result here
 * (`None` or `false`); the state reached up to that point is left as it is.
 */
module Generator {
  import opened Wrappers
  import opened Attributes
  import opened Utilities
  import opened GoStrings
  import opened DotNodes
  import opened DotEdges
  import opened Graph
  import opened Dfd
  import Ast

  // ---------------------------------------------------------------------
  // Node identifiers
  // ---------------------------------------------------------------------

  /**
   * strings.Split(ident, "_") when it gives exactly two parts: the kind
   * word and the id. Both parts are free of '_' and join back to ident.
   */
  function SplitIdent(ident: string): (r: Option<(string, string)>)
    ensures r.Some? <==> Count(ident, '_') == 1
    ensures r.Some? ==> '_' !in r.value.0 && '_' !in r.value.1 && ident == r.value.0 + "_" + r.value.1
  {
    var parts := Split(ident, '_');
    if |parts| == 2 then
      JoinSplit(ident, '_');
      assert Join(parts[1..], '_') == parts[1];
      Some((parts[0], parts[1]))
    else None
  }

  /** The id part of a well-formed identifier. */
  function Num(ident: string): string
    requires SplitIdent(ident).Some?
  {
    SplitIdent(ident).value.1
  }

  /** The node kind a kind word names, if any. */
  function PrefixKind(prefix: string): (r: Option<NodeKind>)
    ensures r.Some? ==> r.value != PlainNode && KindPrefix(r.value) == prefix
  {
    match prefix
    case "process" => Some(Process)
    case "externalservice" => Some(ExternalService)
    case "datastore" => Some(DataStore)
    case _ => None
  }

  /**
   * The DOT identifier a node is written under (kind word, '_', id) is
   * parsed back by the generator into the same kind and id, for any id
   * without '_' (a generated id is all digits).
   */
  lemma NodeIdentRoundTrip(k: NodeKind, num: string)
    requires k != PlainNode && '_' !in num
    ensures SplitIdent(KindPrefix(k) + "_" + num) == Some((KindPrefix(k), num))
    ensures PrefixKind(KindPrefix(k)) == Some(k)
  {
    assert '_' !in KindPrefix(k);
    SplitPair(KindPrefix(k), num, '_');
  }

  /**
   * Whether node(dst, ident) returns instead of panicking: the identifier
   * has two parts, and either its id is registered already or the kind
   * word is known and the id's handle is not yet in the store.
   */
  predicate Resolves(ids: map<string, DotNode>, nodes: map<int, DotNode>, ident: string) {
    match SplitIdent(ident)
    case None => false
    case Some((prefix, num)) => num in ids || (PrefixKind(prefix).Some? && IdToID64(num) !in nodes)
  }

  /** The attributes of a statement as the setters receive them. */
  function ToAttributes(attrs: seq<Ast.Attr>): (r: seq<Attribute>)
    ensures |r| == |attrs|
    ensures forall i :: 0 <= i < |attrs| ==> r[i] == Attribute(attrs[i].key, attrs[i].val)
  {
    seq(|attrs|, i requires 0 <= i < |attrs| => Attribute(attrs[i].key, attrs[i].val))
  }

  /** The port fields an edge gets from the two ends of its hop (applyPortsToEdge). */
  function WithPorts(f: EdgeFields, from: Ast.Vertex, to: Ast.Edge): EdgeFields {
    var f1 :=
      if from.NodeVertex? && from.node.port.Some? then WithFromPort(f, from.node.port.value.id, from.node.port.value.compass)
      else f;
    if to.vertex.NodeVertex? && to.vertex.node.port.Some? then WithToPort(f1, to.vertex.node.port.value.id, to.vertex.node.port.value.compass)
    else f1
  }

  // ---------------------------------------------------------------------
  // Builders
  // ---------------------------------------------------------------------

  /** The graph statements are added to: a diagram or one of its trust boundaries. */
  datatype Builder = Diagram(d: DataFlowDiagram) | Boundary(t: TrustBoundary) {
    function Elements(): Scope {
      if Diagram? then d.scope else t.scope
    }

    function Store(): DfdGraph {
      Elements().store
    }

    function Repr(): set<object> {
      if Diagram? then d.Repr() else t.Repr()
    }

    /** The three objects validity and the footprint depend on. */
    function Core(): set<object> {
      if Diagram? then {d, d.scope, d.scope.store} else {t, t.scope, t.scope.store}
    }

    ghost predicate Valid()
      reads Core()
    {
      if Diagram? then d.Valid() else t.Valid()
    }
  }

  // ---------------------------------------------------------------------
  // unique and Int64s
  // ---------------------------------------------------------------------

  /** Int64s: a mutable set of handles. */
  class Int64s {
    var elems: set<int>

    constructor ()
      ensures elems == {}
    {
      elems := {};
    }

    /** Add inserts e. */
    method Add(e: int)
      modifies this
      ensures elems == old(elems) + {e}
    {
      elems := elems + {e};
    }

    /** Has reports membership. */
    function Has(e: int): (r: bool)
      reads this
      ensures r <==> e in elems
    {
      e in elems
    }

    /** Remove deletes e. */
    method Remove(e: int)
      modifies this
      ensures elems == old(elems) - {e}
    {
      elems := elems - {e};
    }

    /** Count is the number of elements. */
    function Count(): (r: nat)
      reads this
      ensures r == |elems|
    {
      |elems|
    }
  }

  /** A finite set included in another of the same size is equal to it. */
  lemma SubsetSameSize<T>(a: set<T>, b: set<T>)
    requires forall e :: e in a ==> e in b
    requires |a| == |b|
    ensures a == b
  {
    var d := b - a;
    assert b == a + d;
    assert a * d == {};
    assert |b| == |a| + |d|;
    assert d == {};
  }

  /**
   * Int64sEqual: true iff the two sets hold the same elements. The first
   * test, int64sSame, asks whether both are the same set object.
   */
  method Int64sEqual(a: Int64s, b: Int64s) returns (r: bool)
    ensures r <==> a.elems == b.elems
  {
    if a == b {
      return true;
    }
    if a.Count() != b.Count() {
      return false;
    }
    var rest := a.elems;
    while rest != {}
      invariant rest <= a.elems
      invariant forall e :: e in a.elems && e !in rest ==> e in b.elems
      decreases |rest|
    {
      var e := Pick(rest);
      if !b.Has(e) {
        return false;
      }
      rest := rest - {e};
    }
    forall e | e in a.elems
      ensures e in b.elems
    {
      assert e !in rest;
    }
    SubsetSameSize(a.elems, b.elems);
    return true;
  }

  /** Index of the first node in ns with handle h (|ns| if there is none). */
  function FirstIndex(ns: seq<DotNode>, h: int): (i: nat)
    ensures i <= |ns|
    ensures i < |ns| ==> ns[i].handle == h
    ensures forall k :: 0 <= k < i ==> ns[k].handle != h
    decreases |ns|
  {
    if ns == [] then 0 else if ns[0].handle == h then 0 else 1 + FirstIndex(ns[1..], h)
  }

  /** ns without every node whose handle is in `seen` or occurred earlier. */
  function DedupFrom(ns: seq<DotNode>, seen: set<int>): seq<DotNode>
    decreases |ns|
  {
    if ns == [] then []
    else if ns[0].handle in seen then DedupFrom(ns[1..], seen)
    else [ns[0]] + DedupFrom(ns[1..], seen + {ns[0].handle})
  }

  /** The first occurrence of each handle, in order of occurrence. */
  function Dedup(ns: seq<DotNode>): seq<DotNode> {
    DedupFrom(ns, {})
  }

  /**
   * Each node DedupFrom keeps has a handle outside `seen` and is the first
   * node of ns with that handle.
   */
  lemma {:induction false} DedupFromFirst(ns: seq<DotNode>, seen: set<int>)
    ensures forall j :: 0 <= j < |DedupFrom(ns, seen)| ==>
      && DedupFrom(ns, seen)[j].handle !in seen
      && FirstIndex(ns, DedupFrom(ns, seen)[j].handle) < |ns|
      && ns[FirstIndex(ns, DedupFrom(ns, seen)[j].handle)] == DedupFrom(ns, seen)[j]
    decreases |ns|
  {
    if ns != [] {
      var tail, h := ns[1..], ns[0].handle;
      var seen' := if h in seen then seen else seen + {h};
      var r := DedupFrom(tail, seen');
      DedupFromFirst(tail, seen');
      forall j | 0 <= j < |r|
        ensures FirstIndex(ns, r[j].handle) == 1 + FirstIndex(tail, r[j].handle)
      {
        assert r[j].handle != h;
      }
      if h !in seen {
        var out := [ns[0]] + r;
        assert DedupFrom(ns, seen) == out;
        forall j | 0 <= j < |out|
          ensures out[j].handle !in seen && FirstIndex(ns, out[j].handle) < |ns| && ns[FirstIndex(ns, out[j].handle)] == out[j]
        {
          if j > 0 {
            assert out[j] == r[j - 1];
          }
        }
      }
    }
  }

  /** DedupFrom keeps the order of first occurrences in ns. */
  lemma {:induction false} DedupFromOrdered(ns: seq<DotNode>, seen: set<int>)
    ensures forall i, j :: 0 <= i < j < |DedupFrom(ns, seen)| ==>
      FirstIndex(ns, DedupFrom(ns, seen)[i].handle) < FirstIndex(ns, DedupFrom(ns, seen)[j].handle)
    decreases |ns|
  {
    if ns != [] {
      var tail, h := ns[1..], ns[0].handle;
      var seen' := if h in seen then seen else seen + {h};
      var r := DedupFrom(tail, seen');
      DedupFromOrdered(tail, seen');
      DedupFromFirst(tail, seen');
      forall j | 0 <= j < |r|
        ensures FirstIndex(ns, r[j].handle) == 1 + FirstIndex(tail, r[j].handle)
      {
        assert r[j].handle != h;
      }
      if h !in seen {
        var out := [ns[0]] + r;
        assert DedupFrom(ns, seen) == out;
        forall i, j | 0 <= i < j < |out|
          ensures FirstIndex(ns, out[i].handle) < FirstIndex(ns, out[j].handle)
        {
          assert out[j] == r[j - 1];
          if i > 0 {
            assert out[i] == r[i - 1];
          }
        }
      }
    }
  }

  /** Every handle of ns outside `seen` is kept by DedupFrom. */
  lemma {:induction false} DedupFromCovers(ns: seq<DotNode>, seen: set<int>)
    ensures forall i :: 0 <= i < |ns| && ns[i].handle !in seen ==>
      exists j :: 0 <= j < |DedupFrom(ns, seen)| && DedupFrom(ns, seen)[j].handle == ns[i].handle
    decreases |ns|
  {
    if ns != [] {
      var tail, h := ns[1..], ns[0].handle;
      var seen' := if h in seen then seen else seen + {h};
      var r := DedupFrom(tail, seen');
      DedupFromCovers(tail, seen');
      if h in seen {
        assert DedupFrom(ns, seen) == r;
        forall i | 0 <= i < |ns| && ns[i].handle !in seen
          ensures exists j :: 0 <= j < |r| && r[j].handle == ns[i].handle
        {
          assert ns[i] == tail[i - 1];
        }
      } else {
        var out := [ns[0]] + r;
        assert DedupFrom(ns, seen) == out;
        forall i | 0 <= i < |ns| && ns[i].handle !in seen
          ensures exists j :: 0 <= j < |out| && out[j].handle == ns[i].handle
        {
          if ns[i].handle == h {
            assert out[0].handle == ns[i].handle;
          } else {
            assert ns[i] == tail[i - 1];
            var j :| 0 <= j < |r| && r[j].handle == ns[i].handle;
            assert out[j + 1] == r[j];
          }
        }
      }
    }
  }

  /**
   * Dedup keeps, for each handle in ns, exactly its first occurrence, in
   * the order those first occurrences appear; so its handles are distinct.
   */
  lemma DedupFacts(ns: seq<DotNode>)
    ensures forall j :: 0 <= j < |Dedup(ns)| ==>
      FirstIndex(ns, Dedup(ns)[j].handle) < |ns| && ns[FirstIndex(ns, Dedup(ns)[j].handle)] == Dedup(ns)[j]
    ensures forall i, j :: 0 <= i < j < |Dedup(ns)| ==>
      FirstIndex(ns, Dedup(ns)[i].handle) < FirstIndex(ns, Dedup(ns)[j].handle)
    ensures forall i, j :: 0 <= i < j < |Dedup(ns)| ==> Dedup(ns)[i].handle != Dedup(ns)[j].handle
    ensures forall i :: 0 <= i < |ns| ==> exists j :: 0 <= j < |Dedup(ns)| && Dedup(ns)[j].handle == ns[i].handle
  {
    DedupFromFirst(ns, {});
    DedupFromOrdered(ns, {});
    DedupFromCovers(ns, {});
    forall i, j | 0 <= i < j < |Dedup(ns)|
      ensures Dedup(ns)[i].handle != Dedup(ns)[j].handle
    {
      assert FirstIndex(ns, Dedup(ns)[i].handle) != FirstIndex(ns, Dedup(ns)[j].handle);
    }
    forall i | 0 <= i < |ns|
      ensures exists j :: 0 <= j < |Dedup(ns)| && Dedup(ns)[j].handle == ns[i].handle
    {
      assert ns[i].handle !in {};
      var j :| 0 <= j < |DedupFrom(ns, {})| && DedupFrom(ns, {})[j].handle == ns[i].handle;
      assert Dedup(ns)[j].handle == ns[i].handle;
    }
  }

  /** unique: the first node of each handle, in order, tracked with a seen-set. */
  method Unique(ns: seq<DotNode>) returns (nodes: seq<DotNode>)
    ensures nodes == Dedup(ns)
  {
    nodes := [];
    var seen := new Int64s();
    for i := 0 to |ns|
      invariant Dedup(ns) == nodes + DedupFrom(ns[i..], seen.elems)
    {
      var id := ns[i].handle;
      assert ns[i..][1..] == ns[i + 1..];
      if seen.Has(id) {
        continue;
      }
      seen.Add(id);
      nodes := nodes + [ns[i]];
    }
  }

  // ---------------------------------------------------------------------
  // The pair loops of addEdgeStmt and addEdge
  // ---------------------------------------------------------------------

  /** The flow AddFlow made for the pair (f, t) is in the diagram and its store. */
  predicate Linked(d: DataFlowDiagram, f: DotNode, t: DotNode)
    reads d, d.scope, d.scope.store
  {
    d.scope.store.HasEdgeFromTo(f.handle, t.handle) && GenFlowID(f.handle, t.handle) in d.Flows
  }

  /**
   * The fields each flow of an edge statement ends with: the blank flow
   * label, the statement's ports, then its attributes in order.
   */
  function FlowFields(from: Ast.Vertex, to: Ast.Edge, attrs: seq<Ast.Attr>): Option<EdgeFields> {
    ApplyEdgeAll(WithPorts(BlankEdge.(Label := FormatFlowLabel("")), from, to), ToAttributes(attrs))
  }

  /** The table's edge u -> v is a flow whose fields are `want`. */
  predicate Carries(t: Table, u: int, v: int, want: Option<EdgeFields>)
    reads if InTable(t, u, v) && t[u][v].FlowEdge? then {t[u][v].e} else {}
  {
    InTable(t, u, v) && t[u][v].FlowEdge? && want == Some(t[u][v].e.Fields())
  }

  /**
   * The parts of a builder that statements keep or only ever extend: its
   * store's id, the keys of its trust boundaries, kind maps and flows, its
   * store's node handles and its store's edges as handle pairs.
   */
  datatype Footprint = Footprint(
    id: string, boundaries: set<string>, processes: set<string>, services: set<string>, stores: set<string>,
    flows: set<string>, nodes: set<int>, edges: set<(int, int)>)

  ghost function ScopeFootprint(s: Scope, boundaries: set<string>, flows: set<string>): Footprint
    reads s, s.store
  {
    Footprint(s.store.id, boundaries, s.Processes.Keys, s.ExternalServices.Keys, s.DataStores.Keys,
              flows, s.store.nodes.Keys, EdgePairs(s.store.from))
  }

  ghost function FootprintOf(d: DataFlowDiagram): Footprint
    reads d, d.scope, d.scope.store
  {
    ScopeFootprint(d.scope, d.TrustBoundaries.Keys, d.Flows.Keys)
  }

  ghost function BuilderFootprint(dst: Builder): Footprint
    reads dst.Core()
  {
    if dst.Diagram? then FootprintOf(dst.d) else ScopeFootprint(dst.t.scope, {}, {})
  }

  /** b keeps everything a has. */
  ghost predicate Extends(a: Footprint, b: Footprint) {
    && a.id == b.id
    && a.boundaries <= b.boundaries
    && a.processes <= b.processes && a.services <= b.services && a.stores <= b.stores
    && a.flows <= b.flows && a.nodes <= b.nodes && a.edges <= b.edges
  }

  /** The edge u -> v and the flow key genFlowID gives it are both recorded. */
  ghost predicate Recorded(fp: Footprint, u: int, v: int) {
    (u, v) in fp.edges && GenFlowID(u, v) in fp.flows
  }

  lemma ExtendsTrans(a: Footprint, b: Footprint, c: Footprint)
    requires Extends(a, b) && Extends(b, c)
    ensures Extends(a, c)
  {
  }

  lemma RecordedKept(a: Footprint, b: Footprint, u: int, v: int)
    requires Extends(a, b) && Recorded(a, u, v)
    ensures Recorded(b, u, v)
  {
  }

  /** One more pair of a row recorded on top of the ones an extended footprint keeps. */
  lemma RowKept(fp: Footprint, fp': Footprint, f: DotNode, ts: seq<DotNode>, j: int)
    requires Extends(fp, fp') && 0 <= j < |ts|
    requires forall j' :: 0 <= j' < j ==> Recorded(fp, f.handle, ts[j'].handle)
    requires Recorded(fp', f.handle, ts[j].handle)
    ensures forall j' :: 0 <= j' <= j ==> Recorded(fp', f.handle, ts[j'].handle)
  {
    forall j' | 0 <= j' < j
      ensures Recorded(fp', f.handle, ts[j'].handle)
    {
      RecordedKept(fp, fp', f.handle, ts[j'].handle);
    }
  }

  /** One more row of the grid recorded on top of the rows an extended footprint keeps. */
  lemma GridKept(fp: Footprint, fp': Footprint, fs: seq<DotNode>, ts: seq<DotNode>, i: int)
    requires Extends(fp, fp') && 0 <= i < |fs|
    requires forall i', j' :: 0 <= i' < i && 0 <= j' < |ts| ==> Recorded(fp, fs[i'].handle, ts[j'].handle)
    requires forall j' :: 0 <= j' < |ts| ==> Recorded(fp', fs[i].handle, ts[j'].handle)
    ensures forall i', j' :: 0 <= i' <= i && 0 <= j' < |ts| ==> Recorded(fp', fs[i'].handle, ts[j'].handle)
  {
    forall i', j' | 0 <= i' < i && 0 <= j' < |ts|
      ensures Recorded(fp', fs[i'].handle, ts[j'].handle)
    {
      RecordedKept(fp, fp', fs[i'].handle, ts[j'].handle);
    }
  }

  /**
   * Every entry of t0 is still in t1, either unchanged or replaced by one
   * of the flows in made.
   */
  ghost predicate KeptOrMade(t0: Table, t1: Table, made: set<DotEdge>) {
    forall u, v :: InTable(t0, u, v) ==>
      InTable(t1, u, v) && (t1[u][v] == t0[u][v] || (t1[u][v].FlowEdge? && t1[u][v].e in made))
  }

  /** The table's edge u -> v is one of the flows in made. */
  ghost predicate MadeAt(t: Table, u: int, v: int, made: set<DotEdge>) {
    InTable(t, u, v) && t[u][v].FlowEdge? && t[u][v].e in made
  }

  /**
   * One flow written at a -> b over t0, every other entry kept: what was
   * kept or made stays so, with the new flow added to made.
   */
  lemma MadeStep(t0: Table, t1: Table, t2: Table, f: int, ts: seq<DotNode>, j: int, made: set<DotEdge>, flow: DotEdge)
    requires 0 <= j < |ts|
    requires KeptOrMade(t0, t1, made)
    requires forall j' :: 0 <= j' < j ==> MadeAt(t1, f, ts[j'].handle, made)
    requires MadeAt(t2, f, ts[j].handle, {flow})
    requires forall x, y :: (x, y) != (f, ts[j].handle) && InTable(t1, x, y) ==> InTable(t2, x, y) && t2[x][y] == t1[x][y]
    ensures KeptOrMade(t0, t2, made + {flow})
    ensures forall j' :: 0 <= j' <= j ==> MadeAt(t2, f, ts[j'].handle, made + {flow})
  {
  }

  /** One more row of the grid made on top of the rows made before it. */
  lemma GridMadeStep(t1: Table, t2: Table, fs: seq<DotNode>, ts: seq<DotNode>, i: int,
                     made: set<DotEdge>, row: set<DotEdge>)
    requires 0 <= i < |fs|
    requires forall i', j' :: 0 <= i' < i && 0 <= j' < |ts| ==> MadeAt(t1, fs[i'].handle, ts[j'].handle, made)
    requires KeptOrMade(t1, t2, row)
    requires forall j :: 0 <= j < |ts| ==> MadeAt(t2, fs[i].handle, ts[j].handle, row)
    ensures forall i', j' :: 0 <= i' <= i && 0 <= j' < |ts| ==> MadeAt(t2, fs[i'].handle, ts[j'].handle, made + row)
  {
  }

  /** Every flow in made has the fields `want`. */
  ghost predicate AllCarry(made: set<DotEdge>, want: Option<EdgeFields>)
    reads made
  {
    forall e :: e in made ==> want == Some(e.Fields())
  }

  lemma AllCarryUnion(m1: set<DotEdge>, m2: set<DotEdge>, want: Option<EdgeFields>)
    requires AllCarry(m1, want) && AllCarry(m2, want)
    ensures AllCarry(m1 + m2, want)
  {
  }

  /** A made entry, all of whose made flows carry `want`, carries it. */
  lemma MadeCarries(t: Table, u: int, v: int, made: set<DotEdge>, want: Option<EdgeFields>)
    requires MadeAt(t, u, v, made) && AllCarry(made, want)
    ensures Carries(t, u, v, want)
  {
  }

  /**
   * One pair of addEdgeStmt's loop: AddFlow, then the statement's ports,
   * then its attributes. The flows made before it (`earlier`) keep their
   * fields.
   */
  method AddOneFlow(d: DataFlowDiagram, from: Ast.Vertex, to: Ast.Edge, attrs: seq<Ast.Attr>,
                    f: DotNode, t: DotNode, ghost earlier: set<DotEdge>) returns (ok: bool, ghost flow: DotEdge)
    requires d.Valid() && f.handle != t.handle
    modifies d, d.scope.store
    ensures d.Valid() && Extends(old(FootprintOf(d)), FootprintOf(d))
    ensures Recorded(FootprintOf(d), f.handle, t.handle)
    ensures ok <==> forall k :: 0 <= k < |attrs| ==> IsEdgeKey(attrs[k].key)
    ensures ok ==>
      var flow := d.Flows[GenFlowID(f.handle, t.handle)];
      ApplyEdgeAll(WithPorts(BlankEdge.(Label := FormatFlowLabel("")), from, to), ToAttributes(attrs)) == Some(flow.Fields())
    ensures ok ==> Carries(d.scope.store.from, f.handle, t.handle, FlowFields(from, to, attrs))
    ensures fresh(flow) && MadeAt(d.scope.store.from, f.handle, t.handle, {flow})
    ensures ok ==> AllCarry({flow}, FlowFields(from, to, attrs))
    ensures unchanged(earlier)
    ensures forall u, v :: (u, v) != (f.handle, t.handle) && InTable(old(d.scope.store.from), u, v) ==>
      InTable(d.scope.store.from, u, v) && d.scope.store.from[u][v] == old(d.scope.store.from)[u][v]
  {
    var made := d.AddFlow(f, t, "");
    assert unchanged(earlier);
    LinkEntries(old(d.scope.store.from), f.handle, t.handle, f.handle, t.handle, FlowEdge(made));
    label Decorate:
    ok := DecorateFlow(made, from, to, attrs);
    assert unchanged@Decorate(earlier);
    flow := made;
  }

  /** The statement's ports, then its attributes, on one new flow edge. */
  method DecorateFlow(flow: DotEdge, from: Ast.Vertex, to: Ast.Edge, attrs: seq<Ast.Attr>) returns (ok: bool)
    modifies flow
    ensures ok <==> forall k :: 0 <= k < |attrs| ==> IsEdgeKey(attrs[k].key)
    ensures ok ==> ApplyEdgeAll(WithPorts(old(flow.Fields()), from, to), ToAttributes(attrs)) == Some(flow.Fields())
  {
    Generator.ApplyPortsToEdge(from, to, FlowEdge(flow));
    ok := Generator.AddEdgeAttrs(FlowEdge(flow), attrs);
  }

  /**
   * The inner loop of addEdgeStmt: the flows from f to each node of ts.
   * `made` holds the flows it created; every other entry is kept.
   */
  method AddFlowsFrom(d: DataFlowDiagram, from: Ast.Vertex, to: Ast.Edge, attrs: seq<Ast.Attr>,
                      f: DotNode, ts: seq<DotNode>) returns (ok: bool, ghost made: set<DotEdge>)
    requires d.Valid()
    modifies d, d.scope.store
    ensures d.Valid() && Extends(old(FootprintOf(d)), FootprintOf(d))
    ensures ok ==> forall j :: 0 <= j < |ts| ==> Recorded(FootprintOf(d), f.handle, ts[j].handle)
    ensures KeptOrMade(old(d.scope.store.from), d.scope.store.from, made)
    ensures ok ==> AllCarry(made, FlowFields(from, to, attrs))
    ensures ok ==> forall j :: 0 <= j < |ts| ==> MadeAt(d.scope.store.from, f.handle, ts[j].handle, made)
    ensures ok ==> forall j :: 0 <= j < |ts| ==> Carries(d.scope.store.from, f.handle, ts[j].handle, FlowFields(from, to, attrs))
  {
    ghost var fp := FootprintOf(d);
    ghost var want := FlowFields(from, to, attrs);
    made := {};
    for j := 0 to |ts|
      invariant d.Valid() && fp == FootprintOf(d) && Extends(old(FootprintOf(d)), fp)
      invariant forall j' :: 0 <= j' < j ==> Recorded(fp, f.handle, ts[j'].handle)
      invariant KeptOrMade(old(d.scope.store.from), d.scope.store.from, made)
      invariant AllCarry(made, want)
      invariant forall j' :: 0 <= j' < j ==> MadeAt(d.scope.store.from, f.handle, ts[j'].handle, made)
    {
      if f.handle == ts[j].handle {
        return false, made;
      }
      ghost var t1 := d.scope.store.from;
      var okPair, flow := AddOneFlow(d, from, to, attrs, f, ts[j], made);
      ghost var fp' := FootprintOf(d);
      ExtendsTrans(old(FootprintOf(d)), fp, fp');
      MadeStep(old(d.scope.store.from), t1, d.scope.store.from, f.handle, ts, j, made, flow);
      ghost var before := made;
      made := made + {flow};
      if !okPair {
        return false, made;
      }
      AllCarryUnion(before, {flow}, want);
      RowKept(fp, fp', f, ts, j);
      fp := fp';
    }
    forall j | 0 <= j < |ts|
      ensures Carries(d.scope.store.from, f.handle, ts[j].handle, want)
    {
      MadeCarries(d.scope.store.from, f.handle, ts[j].handle, made, want);
    }
    return true, made;
  }

  /**
   * The loop of addEdgeStmt: one Flow per pair of fs and ts, in order.
   * SetEdge panics on a pair sharing one handle, addEdgeAttrs on a key an
   * edge does not take. On success every pair's store edge is a flow with
   * the statement's ports and attributes.
   */
  method AddFlows(d: DataFlowDiagram, from: Ast.Vertex, to: Ast.Edge, attrs: seq<Ast.Attr>,
                  fs: seq<DotNode>, ts: seq<DotNode>) returns (ok: bool)
    requires d.Valid()
    modifies d, d.scope.store
    ensures d.Valid() && Extends(old(FootprintOf(d)), FootprintOf(d))
    ensures ok ==> forall i, j :: 0 <= i < |fs| && 0 <= j < |ts| ==> Linked(d, fs[i], ts[j])
    ensures ok ==> forall i, j :: 0 <= i < |fs| && 0 <= j < |ts| ==>
      Carries(d.scope.store.from, fs[i].handle, ts[j].handle, FlowFields(from, to, attrs))
  {
    ghost var fp := FootprintOf(d);
    ghost var want := FlowFields(from, to, attrs);
    ghost var made: set<DotEdge> := {};
    for i := 0 to |fs|
      invariant d.Valid() && fp == FootprintOf(d) && Extends(old(FootprintOf(d)), fp)
      invariant forall i', j' :: 0 <= i' < i && 0 <= j' < |ts| ==> Recorded(fp, fs[i'].handle, ts[j'].handle)
      invariant AllCarry(made, want)
      invariant forall i', j' :: 0 <= i' < i && 0 <= j' < |ts| ==> MadeAt(d.scope.store.from, fs[i'].handle, ts[j'].handle, made)
    {
      ghost var t0 := d.scope.store.from;
      var okRow, row := AddFlowsFrom(d, from, to, attrs, fs[i], ts);
      ghost var fp' := FootprintOf(d);
      ExtendsTrans(old(FootprintOf(d)), fp, fp');
      if !okRow {
        return false;
      }
      GridKept(fp, fp', fs, ts, i);
      fp := fp';
      GridMadeStep(t0, d.scope.store.from, fs, ts, i, made, row);
      AllCarryUnion(made, row, want);
      made := made + row;
    }
    forall i, j | 0 <= i < |fs| && 0 <= j < |ts|
      ensures Linked(d, fs[i], ts[j])
      ensures Carries(d.scope.store.from, fs[i].handle, ts[j].handle, want)
    {
      assert Recorded(FootprintOf(d), fs[i].handle, ts[j].handle);
      EdgePairsMember(d.scope.store.from, fs[i].handle, ts[j].handle);
      MadeCarries(d.scope.store.from, fs[i].handle, ts[j].handle, made, want);
    }
    return true;
  }

  /** The table's edge u -> v is a bare edge, as NewEdge makes it. */
  predicate PlainAt(t: Table, u: int, v: int) {
    InTable(t, u, v) && t[u][v].PlainEdge?
  }

  /** u is no handle of fs, or v is no handle of ts. */
  predicate OffGrid(fs: seq<DotNode>, ts: seq<DotNode>, u: int, v: int) {
    (forall i :: 0 <= i < |fs| ==> u != fs[i].handle) || (forall j :: 0 <= j < |ts| ==> v != ts[j].handle)
  }

  /** Every entry of t0 off the grid of fs's and ts's handles is in t1, unchanged. */
  ghost predicate KeptOffGrid(t0: Table, t1: Table, fs: seq<DotNode>, ts: seq<DotNode>) {
    forall u, v {:trigger InTable(t0, u, v)} :: InTable(t0, u, v) && OffGrid(fs, ts, u, v) ==> InTable(t1, u, v) && t1[u][v] == t0[u][v]
  }

  /** One bare edge f -> ts[j] stored: the row stays bare up to j and the rest is kept. */
  lemma PlainRowStep(t0: Table, t1: Table, f: DotNode, ts: seq<DotNode>, j: int)
    requires 0 <= j < |ts|
    requires KeptOffGrid(t0, t1, [f], ts)
    requires forall j' :: 0 <= j' < j ==> PlainAt(t1, f.handle, ts[j'].handle)
    ensures KeptOffGrid(t0, Link(t1, f.handle, ts[j].handle, f.handle, ts[j].handle, PlainEdge(f, ts[j])), [f], ts)
    ensures forall j' :: 0 <= j' <= j ==>
      PlainAt(Link(t1, f.handle, ts[j].handle, f.handle, ts[j].handle, PlainEdge(f, ts[j])), f.handle, ts[j'].handle)
  {
    var t2 := Link(t1, f.handle, ts[j].handle, f.handle, ts[j].handle, PlainEdge(f, ts[j]));
    LinkEntries(t1, f.handle, ts[j].handle, f.handle, ts[j].handle, PlainEdge(f, ts[j]));
    forall u, v | InTable(t0, u, v) && OffGrid([f], ts, u, v)
      ensures InTable(t2, u, v) && t2[u][v] == t0[u][v]
    {
      if u == f.handle {
        assert !(forall i :: 0 <= i < 1 ==> u != [f][i].handle);
        assert v != ts[j].handle;
      }
    }
  }

  /** One more row's changes: what is off the first i + 1 rows' grid is kept. */
  lemma KeptGridStep(t0: Table, t1: Table, t2: Table, fs: seq<DotNode>, ts: seq<DotNode>, i: int)
    requires 0 <= i < |fs|
    requires KeptOffGrid(t0, t1, fs[..i], ts)
    requires KeptOffGrid(t1, t2, [fs[i]], ts)
    ensures KeptOffGrid(t0, t2, fs[..i+1], ts)
  {
    forall u, v | InTable(t0, u, v) && OffGrid(fs[..i+1], ts, u, v)
      ensures InTable(t2, u, v) && t2[u][v] == t0[u][v]
    {
      if forall j :: 0 <= j < |ts| ==> v != ts[j].handle {
      } else {
        assert forall k :: 0 <= k < i ==> u != fs[..i][k].handle by {
          forall k | 0 <= k < i ensures u != fs[..i][k].handle {
            assert fs[..i][k] == fs[..i+1][k];
          }
        }
        assert u != [fs[i]][0].handle by { assert fs[..i+1][i] == fs[i]; }
      }
    }
  }

  /** Kept off the grid of some rows is kept off the grid of all of them. */
  lemma KeptOffPrefix(t0: Table, t1: Table, fs: seq<DotNode>, ts: seq<DotNode>, n: int)
    requires 0 <= n <= |fs|
    requires KeptOffGrid(t0, t1, fs[..n], ts)
    ensures KeptOffGrid(t0, t1, fs, ts)
  {
    forall u, v | InTable(t0, u, v) && OffGrid(fs, ts, u, v)
      ensures InTable(t1, u, v) && t1[u][v] == t0[u][v]
    {
      if forall k :: 0 <= k < |fs| ==> u != fs[k].handle {
        assert forall k :: 0 <= k < n ==> u != fs[..n][k].handle;
      }
    }
  }

  /** A row of bare edges leaves the earlier rows' pairs bare. */
  lemma PlainGridStep(t1: Table, t2: Table, fs: seq<DotNode>, ts: seq<DotNode>, i: int)
    requires 0 <= i < |fs|
    requires forall i', j' :: 0 <= i' < i && 0 <= j' < |ts| ==> PlainAt(t1, fs[i'].handle, ts[j'].handle)
    requires KeptOffGrid(t1, t2, [fs[i]], ts)
    requires forall j :: 0 <= j < |ts| ==> PlainAt(t2, fs[i].handle, ts[j].handle)
    ensures forall i', j' :: 0 <= i' <= i && 0 <= j' < |ts| ==> PlainAt(t2, fs[i'].handle, ts[j'].handle)
  {
    forall i', j' | 0 <= i' < i && 0 <= j' < |ts|
      ensures PlainAt(t2, fs[i'].handle, ts[j'].handle)
    {
      if fs[i'].handle != fs[i].handle {
        assert forall k :: 0 <= k < 1 ==> fs[i'].handle != [fs[i]][k].handle;
      }
    }
  }

  /** The inner loop of addEdge: a bare store edge from f to each node of ts. */
  method AddPlainEdgesFrom(g: DfdGraph, f: DotNode, ts: seq<DotNode>) returns (ok: bool)
    requires g.Valid()
    modifies g
    ensures g.Valid() && g.id == old(g.id)
    ensures old(g.nodes.Keys) <= g.nodes.Keys && old(EdgePairs(g.from)) <= EdgePairs(g.from)
    ensures ok <==> forall j :: 0 <= j < |ts| ==> f.handle != ts[j].handle
    ensures ok ==> forall j :: 0 <= j < |ts| ==> (f.handle, ts[j].handle) in EdgePairs(g.from)
    ensures ok ==> forall j :: 0 <= j < |ts| ==> PlainAt(g.from, f.handle, ts[j].handle)
    ensures KeptOffGrid(old(g.from), g.from, [f], ts)
  {
    for j := 0 to |ts|
      invariant g.Valid() && g.id == old(g.id)
      invariant old(g.nodes.Keys) <= g.nodes.Keys && old(EdgePairs(g.from)) <= EdgePairs(g.from)
      invariant forall j' :: 0 <= j' < j ==> f.handle != ts[j'].handle && (f.handle, ts[j'].handle) in EdgePairs(g.from)
      invariant forall j' :: 0 <= j' < j ==> PlainAt(g.from, f.handle, ts[j'].handle)
      invariant KeptOffGrid(old(g.from), g.from, [f], ts)
    {
      if f.handle == ts[j].handle {
        return false;
      }
      var edge := g.NewEdge(f, ts[j]);
      PlainRowStep(old(g.from), g.from, f, ts, j);
      g.SetEdge(edge);
    }
    return true;
  }

  /**
   * The loop of addEdge: a bare store edge (NewEdge, then SetEdge) for
   * each pair of fs and ts. A bare edge has no port or attribute setters,
   * so the applyPortsToEdge and addEdgeAttrs calls after it leave it
   * alone. SetEdge panics on a pair sharing one handle.
   */
  method AddPlainEdges(g: DfdGraph, fs: seq<DotNode>, ts: seq<DotNode>) returns (ok: bool)
    requires g.Valid()
    modifies g
    ensures g.Valid() && g.id == old(g.id)
    ensures old(g.nodes.Keys) <= g.nodes.Keys && old(EdgePairs(g.from)) <= EdgePairs(g.from)
    ensures ok <==> forall i, j :: 0 <= i < |fs| && 0 <= j < |ts| ==> fs[i].handle != ts[j].handle
    ensures ok ==> forall i, j :: 0 <= i < |fs| && 0 <= j < |ts| ==> g.HasEdgeFromTo(fs[i].handle, ts[j].handle)
    ensures ok ==> forall i, j :: 0 <= i < |fs| && 0 <= j < |ts| ==> PlainAt(g.from, fs[i].handle, ts[j].handle)
    ensures KeptOffGrid(old(g.from), g.from, fs, ts)
  {
    for i := 0 to |fs|
      invariant g.Valid() && g.id == old(g.id)
      invariant old(g.nodes.Keys) <= g.nodes.Keys && old(EdgePairs(g.from)) <= EdgePairs(g.from)
      invariant forall i', j' :: 0 <= i' < i && 0 <= j' < |ts| ==>
        fs[i'].handle != ts[j'].handle && (fs[i'].handle, ts[j'].handle) in EdgePairs(g.from)
      invariant forall i', j' :: 0 <= i' < i && 0 <= j' < |ts| ==> PlainAt(g.from, fs[i'].handle, ts[j'].handle)
      invariant KeptOffGrid(old(g.from), g.from, fs[..i], ts)
    {
      ghost var t1 := g.from;
      var okRow := AddPlainEdgesFrom(g, fs[i], ts);
      KeptGridStep(old(g.from), t1, g.from, fs, ts, i);
      if !okRow {
        KeptOffPrefix(old(g.from), g.from, fs, ts, i + 1);
        return false;
      }
      PlainGridStep(t1, g.from, fs, ts, i);
    }
    assert fs[..|fs|] == fs;
    forall i, j | 0 <= i < |fs| && 0 <= j < |ts|
      ensures g.HasEdgeFromTo(fs[i].handle, ts[j].handle)
    {
      EdgePairsMember(g.from, fs[i].handle, ts[j].handle);
    }
    return true;
  }

  /** What statements only ever extend: the registry and the builder's footprint. */
  datatype Snapshot = Snapshot(ids: map<string, DotNode>, fp: Footprint)

  /** b keeps every registry entry of a and extends a's footprint. */
  ghost predicate SnapshotGrows(a: Snapshot, b: Snapshot) {
    && (forall k :: k in a.ids ==> k in b.ids && b.ids[k] == a.ids[k])
    && Extends(a.fp, b.fp)
  }

  lemma SnapshotGrowsTrans(a: Snapshot, b: Snapshot, c: Snapshot)
    requires SnapshotGrows(a, b) && SnapshotGrows(b, c)
    ensures SnapshotGrows(a, c)
  {
  }

  // ---------------------------------------------------------------------
  // The generator
  // ---------------------------------------------------------------------

  class Generator {
    const directed: bool
    /** The registry: the id part of a node identifier to the node made for it. */
    var ids: map<string, DotNode>
    var subNodes: seq<DotNode>
    var subStart: seq<int>
    const graphAttr: Option<AttributeList>
    const nodeAttr: Option<AttributeList>
    const edgeAttr: Option<AttributeList>

    /** The default-attribute lists this generator forwards to. */
    function Setters(): set<object> {
      (if graphAttr.Some? then {graphAttr.value} else {})
      + (if nodeAttr.Some? then {nodeAttr.value} else {})
      + (if edgeAttr.Some? then {edgeAttr.value} else {})
    }

    /** Every start offset on the stack lies within subNodes. */
    ghost predicate StackValid()
      reads this
    {
      forall i :: 0 <= i < |subStart| ==> 0 <= subStart[i] <= |subNodes|
    }

    /**
     * initGenerator: directed, an empty registry and stack, and the
     * builder's own attribute lists as setters (both builders provide them).
     */
    constructor (dst: Builder)
      ensures directed && ids == map[] && subNodes == [] && subStart == []
      ensures graphAttr == Some(dst.Store().graphAttrs) && nodeAttr == Some(dst.Store().nodeAttrs)
      ensures edgeAttr == Some(dst.Store().edgeAttrs)
    {
      directed := true;
      ids := map[];
      subNodes, subStart := [], [];
      var (g, n, e) := dst.Store().DOTAttributeSetters();
      graphAttr, nodeAttr, edgeAttr := Some(g), Some(n), Some(e);
    }

    /** isInSubgraph: some subgraph is open. */
    predicate IsInSubgraph()
      reads this
    {
      |subStart| > 0
    }

    /** appendSubgraphNode: records a node of the open subgraph. */
    method AppendSubgraphNode(n: DotNode)
      requires StackValid()
      modifies this
      ensures StackValid()
      ensures subNodes == old(subNodes) + [n] && subStart == old(subStart) && ids == old(ids)
    {
      subNodes := subNodes + [n];
    }

    /** pushSubgraph: opens a subgraph starting at the current end of subNodes. */
    method PushSubgraph()
      requires StackValid()
      modifies this
      ensures StackValid() && IsInSubgraph()
      ensures subStart == old(subStart) + [|subNodes|] && subNodes == old(subNodes) && ids == old(ids)
    {
      subStart := subStart + [|subNodes|];
    }

    /**
     * popSubgraph: closes the innermost subgraph and returns the distinct
     * nodes recorded since it was opened; when no subgraph is left open
     * subNodes is emptied.
     */
    method PopSubgraph() returns (nodes: seq<DotNode>)
      requires StackValid() && IsInSubgraph()
      modifies this
      ensures StackValid()
      ensures nodes == Dedup(old(subNodes)[old(subStart)[|old(subStart)| - 1]..])
      ensures subStart == old(subStart)[..|old(subStart)| - 1]
      ensures subNodes == (if subStart == [] then [] else old(subNodes))
      ensures ids == old(ids)
    {
      var start := subStart[|subStart| - 1];
      nodes := Unique(subNodes[start..]);
      subStart := subStart[..|subStart| - 1];
      if |subStart| == 0 {
        subNodes := subNodes[..0];
      }
    }

    /**
     * What every statement leaves behind: registry entries are kept and
     * new ones are fresh nodes, and the builder's footprint only grows.
     */
    twostate predicate Grows(dst: Builder)
      reads this, dst.Core()
    {
      && SnapshotGrows(old(SnapshotOf(dst)), SnapshotOf(dst))
      && (forall n :: n in ids.Values ==> n in old(ids.Values) || fresh(n))
    }

    ghost function SnapshotOf(dst: Builder): Snapshot
      reads this, dst.Core()
    {
      Snapshot(ids, BuilderFootprint(dst))
    }

    /**
     * node: resolves a `kind_id` identifier. A registered id gives its node
     * back whatever the kind word; otherwise a node of the named kind is
     * made from the id, added to the builder with AddNodeElem and
     * registered. A malformed identifier, an unknown kind word and a
     * handle already in the store are the source's panics (None).
     */
    method Node(dst: Builder, ident: string) returns (r: Option<DotNode>)
      requires dst.Valid()
      modifies this, dst.Elements(), dst.Store()
      ensures dst.Valid() && Grows(dst) && subNodes == old(subNodes) && subStart == old(subStart)
      ensures r.Some? <==> Resolves(old(ids), old(dst.Store().nodes), ident)
      ensures r.Some? ==> Num(ident) in ids && ids[Num(ident)] == r.value
      ensures r.Some? && Num(ident) in old(ids) ==>
        ids == old(ids) && dst.Store().nodes == old(dst.Store().nodes)
      ensures r.Some? && Num(ident) !in old(ids) ==>
        var k := PrefixKind(SplitIdent(ident).value.0).value;
        && fresh(r.value)
        && r.value.kind == k
        && r.value.dotID == Num(ident) && r.value.handle == IdToID64(Num(ident))
        && r.value.Fields() == NodeFields("", KindShape(k), "", "")
        && ids == old(ids)[Num(ident) := r.value]
        && dst.Elements().Table(k) == old(dst.Elements().Table(k))[Num(ident) := r.value]
        && dst.Store().nodes == old(dst.Store().nodes)[r.value.handle := r.value]
    {
      var split := SplitIdent(ident);
      if split.None? {
        return None;
      }
      var (prefix, num) := split.value;
      if num in ids {
        return Some(ids[num]);
      }
      var known := PrefixKind(prefix);
      if known.None? {
        return None;
      }
      r := Register(dst, known.value, num);
    }

    /** The unregistered branch of node: make, add and register the node for num. */
    method Register(dst: Builder, k: NodeKind, num: string) returns (r: Option<DotNode>)
      requires dst.Valid() && k != PlainNode && num !in ids
      modifies this, dst.Elements(), dst.Store()
      ensures dst.Valid() && Grows(dst) && subNodes == old(subNodes) && subStart == old(subStart)
      ensures r.Some? <==> IdToID64(num) !in old(dst.Store().nodes)
      ensures r.None? ==>
        && ids == old(ids) && unchanged(dst.Store())
        && num in dst.Elements().Table(k) && fresh(dst.Elements().Table(k)[num])
        && dst.Elements().Table(k) == old(dst.Elements().Table(k))[num := dst.Elements().Table(k)[num]]
      ensures r.Some? ==>
        && fresh(r.value)
        && r.value.kind == k && r.value.dotID == num && r.value.handle == IdToID64(num)
        && r.value.Fields() == NodeFields("", KindShape(k), "", "")
        && ids == old(ids)[num := r.value]
        && dst.Elements().Table(k) == old(dst.Elements().Table(k))[num := r.value]
        && dst.Store().nodes == old(dst.Store().nodes)[r.value.handle := r.value]
    {
      r := AddDeserialized(dst, k, num);
      if r.Some? {
        ids := ids[num := r.value];
      }
    }

    /**
     * The creating half of node: the deserialised node of kind k and id
     * num goes into the builder's own kind map and its store. Both
     * builders are DfdGraphs, so AddNodeElem is the branch the source
     * takes: it writes the kind map, then its AddNode panics on a handle
     * the store already holds, so that failure keeps the kind map entry.
     */
    static method AddDeserialized(dst: Builder, k: NodeKind, num: string) returns (r: Option<DotNode>)
      requires dst.Valid() && k != PlainNode
      modifies dst.Elements(), dst.Store()
      ensures dst.Valid()
      ensures r.Some? <==> IdToID64(num) !in old(dst.Store().nodes)
      ensures num in dst.Elements().Table(k)
      ensures dst.Elements().Table(k) == old(dst.Elements().Table(k))[num := dst.Elements().Table(k)[num]]
      ensures forall j :: j != k ==> dst.Elements().Table(j) == old(dst.Elements().Table(j))
      ensures
        var n := dst.Elements().Table(k)[num];
        && fresh(n)
        && n.kind == k && n.dotID == num && n.handle == IdToID64(num)
        && n.Fields() == NodeFields("", KindShape(k), "", "")
      ensures r.None? ==> unchanged(dst.Store())
      ensures r.Some? ==>
        && r.value == dst.Elements().Table(k)[num]
        && dst.Store().nodes == old(dst.Store().nodes)[r.value.handle := r.value]
      ensures Extends(old(BuilderFootprint(dst)), BuilderFootprint(dst))
    {
      var n := new DotNode.Deserialize(k, num);
      var s := dst.Elements();
      if n.handle in dst.Store().nodes {
        s.AddKindEntry(n);
        r := None;
      } else {
        s.AddNodeElem(n);
        r := Some(n);
      }
    }

    /**
     * The attribute loop of a node statement: the attributes in order,
     * failing at the first key a node does not accept.
     */
    static method ApplyNodeAttrs(n: DotNode, attrs: seq<Ast.Attr>) returns (ok: bool)
      modifies n
      ensures ok <==> forall i :: 0 <= i < |attrs| ==> IsNodeKey(attrs[i].key)
      ensures ok ==> ApplyAll(old(n.Fields()), ToAttributes(attrs)) == Some(n.Fields())
      ensures n.dotID == old(n.dotID)
    {
      var xs := ToAttributes(attrs);
      for i := 0 to |xs|
        invariant ApplyAll(old(n.Fields()), xs[..i]) == Some(n.Fields())
        invariant forall j :: 0 <= j < i ==> IsNodeKey(attrs[j].key)
        invariant n.dotID == old(n.dotID)
      {
        ghost var before := n.Fields();
        var err := n.SetAttribute(xs[i]);
        if err.Fail? {
          return false;
        }
        ApplyAllConcat(old(n.Fields()), xs[..i], [xs[i]]);
        assert xs[..i + 1] == xs[..i] + [xs[i]];
        assert ApplyAll(before, [xs[i]]) == SetNodeAttribute(before, xs[i]) by {
          assert [xs[i]][1..] == [];
        }
      }
      assert xs[..|xs|] == xs;
      return true;
    }

    /** A node statement: resolve the node, then apply its attributes. */
    method AddNodeStmt(dst: Builder, node: Ast.Node, attrs: seq<Ast.Attr>) returns (ok: bool)
      requires dst.Valid()
      modifies this, dst.Elements(), dst.Store(), ids.Values
      ensures dst.Valid() && Grows(dst) && subNodes == old(subNodes) && subStart == old(subStart)
      ensures ok <==> Resolves(old(ids), old(dst.Store().nodes), node.id)
                      && forall i :: 0 <= i < |attrs| ==> IsNodeKey(attrs[i].key)
      ensures ok ==> Num(node.id) in ids
      ensures ok && Num(node.id) in old(ids) ==>
        ApplyAll(old(ids[Num(node.id)].Fields()), ToAttributes(attrs)) == Some(ids[Num(node.id)].Fields())
      ensures ok && Num(node.id) !in old(ids) ==>
        ApplyAll(NodeFields("", KindShape(ids[Num(node.id)].kind), "", ""), ToAttributes(attrs))
          == Some(ids[Num(node.id)].Fields())
    {
      var r := Node(dst, node.id);
      if r.None? {
        return false;
      }
      ok := ApplyNodeAttrs(r.value, attrs);
    }

    /**
     * The attributes of a statement of this kind were appended, in order,
     * to the graph, node or edge default list, when that list is set.
     */
    twostate predicate Appended(kind: Ast.Kind, attrs: seq<Ast.Attr>)
      reads Setters()
    {
      && (kind.GraphKind? && graphAttr.Some? ==> graphAttr.value.items == old(graphAttr.value.items) + ToAttributes(attrs))
      && (kind.NodeKind? && nodeAttr.Some? ==> nodeAttr.value.items == old(nodeAttr.value.items) + ToAttributes(attrs))
      && (kind.EdgeKind? && edgeAttr.Some? ==> edgeAttr.value.items == old(edgeAttr.value.items) + ToAttributes(attrs))
    }

    /**
     * An attribute statement: its attributes appended, in order, to the
     * graph, node or edge default list; dropped when that setter is nil.
     * Appending never fails, so the source's panic cannot happen.
     */
    method AddAttrStmt(kind: Ast.Kind, attrs: seq<Ast.Attr>)
      modifies Setters()
      ensures Appended(kind, attrs)
      ensures forall s :: s in Setters() && s !in SetterOf(kind) ==> unchanged(s)
    {
      var setter := match kind
        case GraphKind => graphAttr
        case NodeKind => nodeAttr
        case EdgeKind => edgeAttr;
      if setter.None? {
        return;
      }
      SetAll(setter.value, ToAttributes(attrs));
    }

    /** The setter an attribute statement of this kind goes to, as a set. */
    function SetterOf(kind: Ast.Kind): set<object> {
      var s := match kind
        case GraphKind => graphAttr
        case NodeKind => nodeAttr
        case EdgeKind => edgeAttr;
      if s.Some? then {s.value} else {}
    }

    /**
     * applyPortsToEdge: a diagram edge takes the port of each end that is a
     * node with a port. A bare edge has no port setters and is left alone.
     * SetFromPort and SetToPort never fail, so the panics cannot happen.
     */
    static method ApplyPortsToEdge(from: Ast.Vertex, to: Ast.Edge, edge: EdgeRef)
      modifies if edge.FlowEdge? then {edge.e} else {}
      ensures edge.FlowEdge? ==> edge.e.Fields() == WithPorts(old(edge.e.Fields()), from, to)
    {
      if edge.FlowEdge? {
        var e := edge.e;
        if from.NodeVertex? && from.node.port.Some? {
          var _ := e.SetFromPort(from.node.port.value.id, from.node.port.value.compass);
        }
        if to.vertex.NodeVertex? && to.vertex.node.port.Some? {
          var _ := e.SetToPort(to.vertex.node.port.value.id, to.vertex.node.port.value.compass);
        }
      }
    }

    /**
     * addEdgeAttrs: a diagram edge takes the attributes in order, failing
     * at the first key an edge does not accept. A bare edge is not an
     * attribute setter and is left alone.
     */
    static method AddEdgeAttrs(edge: EdgeRef, attrs: seq<Ast.Attr>) returns (ok: bool)
      modifies if edge.FlowEdge? then {edge.e} else {}
      ensures edge.PlainEdge? ==> ok
      ensures edge.FlowEdge? ==> (ok <==> forall i :: 0 <= i < |attrs| ==> IsEdgeKey(attrs[i].key))
      ensures edge.FlowEdge? && ok ==> ApplyEdgeAll(old(edge.e.Fields()), ToAttributes(attrs)) == Some(edge.e.Fields())
    {
      if edge.PlainEdge? {
        return true;
      }
      var e := edge.e;
      var xs := ToAttributes(attrs);
      for i := 0 to |xs|
        invariant ApplyEdgeAll(old(e.Fields()), xs[..i]) == Some(e.Fields())
        invariant forall j :: 0 <= j < i ==> IsEdgeKey(attrs[j].key)
      {
        var err := e.SetAttribute(xs[i]);
        if err.Fail? {
          return false;
        }
        ApplyEdgeAllSnoc(old(e.Fields()), xs[..i], xs[i]);
        assert xs[..i + 1] == xs[..i] + [xs[i]];
      }
      assert xs[..|xs|] == xs;
      return true;
    }

    /**
     * addStmt: dispatches on the statement kind. An `a=b` statement at
     * graph level is ignored.
     */
    method AddStmt(dst: Builder, stmt: Ast.Stmt) returns (ok: bool)
      requires dst.Valid() && Setters() !! dst.Core() && StackValid() && subNodes == []
      modifies this, dst.Repr(), ids.Values, Setters()
      ensures dst.Valid() && Grows(dst) && StackValid() && subNodes == []
      ensures ok ==> subStart == old(subStart)
      ensures stmt.NodeStmt? ==>
        (ok <==> Resolves(old(ids), old(dst.Store().nodes), stmt.node.id)
                 && forall i :: 0 <= i < |stmt.attrs| ==> IsNodeKey(stmt.attrs[i].key))
      ensures stmt.NodeStmt? && ok ==> Num(stmt.node.id) in ids
      ensures stmt.NodeStmt? && ok && Num(stmt.node.id) in old(ids) ==>
        ApplyAll(old(ids[Num(stmt.node.id)].Fields()), ToAttributes(stmt.attrs)) == Some(ids[Num(stmt.node.id)].Fields())
      ensures stmt.NodeStmt? && ok && Num(stmt.node.id) !in old(ids) ==>
        ApplyAll(NodeFields("", KindShape(ids[Num(stmt.node.id)].kind), "", ""), ToAttributes(stmt.attrs))
          == Some(ids[Num(stmt.node.id)].Fields())
      ensures ok && stmt.EdgeStmt? && stmt.from.NodeVertex? && stmt.to.vertex.NodeVertex? ==>
        && SplitIdent(stmt.from.node.id).Some? && Num(stmt.from.node.id) in ids
        && SplitIdent(stmt.to.vertex.node.id).Some? && Num(stmt.to.vertex.node.id) in ids
        && dst.Diagram? && Linked(dst.d, ids[Num(stmt.from.node.id)], ids[Num(stmt.to.vertex.node.id)])
        && Carries(dst.d.scope.store.from, ids[Num(stmt.from.node.id)].handle, ids[Num(stmt.to.vertex.node.id)].handle,
                   FlowFields(stmt.from, stmt.to, stmt.attrs))
      ensures stmt.AttrStmt? ==> ok && ids == old(ids)
      ensures stmt.AttrStmt? ==> Appended(stmt.kind, stmt.attrs)
      ensures stmt.AttrAssign? ==> ok && ids == old(ids) && unchanged(dst.Repr())
      ensures stmt.SubgraphStmt? && ok ==>
        dst.Diagram? && ReplaceAll(stmt.sub.id, "cluster_", "") in dst.d.TrustBoundaries
      ensures stmt.SubgraphStmt? && !dst.Diagram? ==> !ok
      decreases stmt, 3
    {
      match stmt {
        case NodeStmt(node, attrs) =>
          ok := AddNodeStmt(dst, node, attrs);
        case EdgeStmt(from, to, _) =>
          var r := AddEdgeStmt(dst, stmt);
          ok := r.Some?;
        case AttrStmt(kind, attrs) =>
          AddAttrStmt(kind, attrs);
          ok := true;
        case AttrAssign(_) =>
          ok := true;
        case SubgraphStmt(sub) =>
          ok := AddSubgraphStmt(dst, sub);
      }
    }

    /**
     * The statement loop of a subgraph: its statements in order through
     * this generator, stopping at the first that fails.
     */
    method AddStmts(dst: Builder, sub: Ast.Subgraph) returns (ok: bool)
      requires dst.Valid() && Setters() !! dst.Core() && StackValid() && subNodes == []
      modifies this, dst.Repr(), ids.Values, Setters()
      ensures dst.Valid() && Grows(dst) && StackValid() && subNodes == []
      ensures ok ==> subStart == old(subStart)
      decreases sub, 1
    {
      for i := 0 to |sub.stmts|
        invariant dst.Valid() && Grows(dst) && StackValid() && subNodes == [] && subStart == old(subStart)
      {
        ghost var s0 := SnapshotOf(dst);
        var okStmt := AddStmt(dst, sub.stmts[i]);
        SnapshotGrowsTrans(old(SnapshotOf(dst)), s0, SnapshotOf(dst));
        if !okStmt {
          return false;
        }
      }
      return true;
    }

    /**
     * A subgraph statement: its id with every "cluster_" removed names a
     * fresh trust boundary, registered in the diagram's TrustBoundaries,
     * whose statements run through a new generator (empty registry). The
     * source's cast to a diagram panics when the builder is a trust boundary.
     */
    method AddSubgraphStmt(dst: Builder, sub: Ast.Subgraph) returns (ok: bool)
      requires dst.Valid() && Setters() !! dst.Core() && StackValid() && subNodes == []
      modifies this, dst.Repr(), ids.Values, Setters()
      ensures dst.Valid() && Grows(dst) && StackValid() && subNodes == [] && subStart == old(subStart)
      ensures ok ==> dst.Diagram?
      ensures dst.Diagram? ==>
        var tbId := ReplaceAll(sub.id, "cluster_", "");
        && tbId in dst.d.TrustBoundaries
        && dst.d.TrustBoundaries == old(dst.d.TrustBoundaries)[tbId := dst.d.TrustBoundaries[tbId]]
        && fresh(dst.d.TrustBoundaries[tbId])
        && dst.d.TrustBoundaries[tbId].ExternalID() == tbId
      decreases sub, 4
    {
      if !dst.Diagram? {
        return false;
      }
      ok := AddBoundary(dst.d, sub);
    }

    /** The diagram half of a subgraph statement: register the boundary, run its statements. */
    static method AddBoundary(d: DataFlowDiagram, sub: Ast.Subgraph) returns (ok: bool)
      requires d.Valid()
      modifies d
      ensures d.Valid() && Extends(old(FootprintOf(d)), FootprintOf(d))
      ensures
        var tbId := ReplaceAll(sub.id, "cluster_", "");
        && tbId in d.TrustBoundaries
        && d.TrustBoundaries == old(d.TrustBoundaries)[tbId := d.TrustBoundaries[tbId]]
        && fresh(d.TrustBoundaries[tbId])
        && d.TrustBoundaries[tbId].ExternalID() == tbId
      decreases sub, 3
    {
      var tbId := ReplaceAll(sub.id, "cluster_", "");
      var tb := new TrustBoundary.Deserialize(tbId);
      d.TrustBoundaries := d.TrustBoundaries[tbId := tb];
      ok := RunBoundary(tb, sub);
    }

    /**
     * A boundary whose generated id is written out as the subgraph id
     * "cluster_" + id is read back under that same id: a generated id is all
     * digits, so the only "cluster_" in the subgraph id is its prefix.
     */
    static lemma ClusterIdRoundTrip(x: int)
      requires 0 <= x < MaxInt64
      ensures ReplaceAll("cluster_" + GenID(x), "cluster_", "") == GenID(x)
    {
      var id := GenID(x);
      forall i ensures !At(id, "cluster_", i)
      {
        if 0 <= i && i + |"cluster_"| <= |id| {
          assert id[i..i + |"cluster_"|][0] == id[i];
          assert IsDigit(id[i]);
        }
      }
      StripPrefix(id, "cluster_");
    }

    /** The statements of a subgraph, through a new generator building tb. */
    static method RunBoundary(tb: TrustBoundary, sub: Ast.Subgraph) returns (ok: bool)
      requires tb.Valid()
      modifies tb.Repr()
      ensures tb.Valid() && tb.ExternalID() == old(tb.ExternalID())
      decreases sub, 2
    {
      var inner := Boundary(tb);
      var nextGen := new Generator(inner);
      ok := nextGen.AddStmts(inner, sub);
    }

    /**
     * addVertex: a node vertex gives its one node; a subgraph vertex runs
     * its statements inside a pushed subgraph and gives the nodes recorded
     * since, which is none, as nothing records subgraph nodes.
     */
    method AddVertex(dst: Builder, v: Ast.Vertex) returns (r: Option<seq<DotNode>>)
      requires dst.Valid() && Setters() !! dst.Core() && StackValid() && subNodes == []
      modifies this, dst.Repr(), ids.Values, Setters()
      ensures dst.Valid() && Grows(dst) && StackValid() && subNodes == []
      ensures r.Some? ==> subStart == old(subStart)
      ensures v.NodeVertex? ==> (r.Some? <==> Resolves(old(ids), old(dst.Store().nodes), v.node.id))
      ensures r.Some? && v.NodeVertex? ==> Num(v.node.id) in ids && r.value == [ids[Num(v.node.id)]]
      ensures r.Some? && v.SubgraphVertex? ==> r.value == []
      decreases v, 0
    {
      match v {
        case NodeVertex(node) =>
          var n := Node(dst, node.id);
          if n.None? {
            return None;
          }
          return Some([n.value]);
        case SubgraphVertex(sub) =>
          PushSubgraph();
          ghost var s0 := SnapshotOf(dst);
          var ok := AddStmts(dst, sub);
          SnapshotGrowsTrans(old(SnapshotOf(dst)), s0, SnapshotOf(dst));
          if !ok {
            return None;
          }
          ghost var s1 := SnapshotOf(dst);
          var nodes := PopSubgraph();
          assert SnapshotOf(dst) == s1;
          assert nodes == Dedup([]);
          return Some(nodes);
      }
    }

    /**
     * addEdgeStmt: adds the from-vertex and the chain after it, then one
     * Flow (AddFlow with an empty name) for each pair of the from-vertex's
     * nodes and the first hop's nodes. Returns the two node lists. The
     * source's cast to a diagram panics in a trust boundary once a pair
     * exists.
     */
    method AddEdgeStmt(dst: Builder, stmt: Ast.Stmt) returns (r: Option<(seq<DotNode>, seq<DotNode>)>)
      requires stmt.EdgeStmt?
      requires dst.Valid() && Setters() !! dst.Core() && StackValid() && subNodes == []
      modifies this, dst.Repr(), ids.Values, Setters()
      ensures dst.Valid() && Grows(dst) && StackValid() && subNodes == []
      ensures r.Some? ==> subStart == old(subStart)
      ensures r.Some? && stmt.from.NodeVertex? ==>
        SplitIdent(stmt.from.node.id).Some? && Num(stmt.from.node.id) in ids && r.value.0 == [ids[Num(stmt.from.node.id)]]
      ensures r.Some? && stmt.to.vertex.NodeVertex? ==>
        SplitIdent(stmt.to.vertex.node.id).Some? && Num(stmt.to.vertex.node.id) in ids
        && r.value.1 == [ids[Num(stmt.to.vertex.node.id)]]
      ensures r.Some? && r.value.0 != [] && r.value.1 != [] ==> dst.Diagram?
      ensures r.Some? && dst.Diagram? ==> forall i, j :: 0 <= i < |r.value.0| && 0 <= j < |r.value.1| ==>
        Linked(dst.d, r.value.0[i], r.value.1[j])
      ensures r.Some? && dst.Diagram? ==> forall i, j :: 0 <= i < |r.value.0| && 0 <= j < |r.value.1| ==>
        Carries(dst.d.scope.store.from, r.value.0[i].handle, r.value.1[j].handle, FlowFields(stmt.from, stmt.to, stmt.attrs))
      ensures r.Some? && stmt.from.NodeVertex? && stmt.to.vertex.NodeVertex? ==>
        && dst.Diagram? && Linked(dst.d, ids[Num(stmt.from.node.id)], ids[Num(stmt.to.vertex.node.id)])
        && Carries(dst.d.scope.store.from, ids[Num(stmt.from.node.id)].handle, ids[Num(stmt.to.vertex.node.id)].handle,
                   FlowFields(stmt.from, stmt.to, stmt.attrs))
      decreases stmt, 1
    {
      var fsR := AddVertex(dst, stmt.from);
      if fsR.None? {
        return None;
      }
      ghost var s1 := SnapshotOf(dst);
      var tsR := AddFlowTargets(dst, stmt, fsR.value);
      SnapshotGrowsTrans(old(SnapshotOf(dst)), s1, SnapshotOf(dst));
      if tsR.None? {
        return None;
      }
      if stmt.from.NodeVertex? {
        assert s1.ids[Num(stmt.from.node.id)] == fsR.value[0];
        if stmt.to.vertex.NodeVertex? {
          assert Linked(dst.d, fsR.value[0], tsR.value[0]);
          assert Carries(dst.d.scope.store.from, fsR.value[0].handle, tsR.value[0].handle, FlowFields(stmt.from, stmt.to, stmt.attrs));
        }
      }
      return Some((fsR.value, tsR.value));
    }

    /**
     * The rest of addEdgeStmt once the from-vertex's nodes fs are known:
     * the chain after it, then the flows from fs to the first hop's nodes.
     */
    method AddFlowTargets(dst: Builder, stmt: Ast.Stmt, fs: seq<DotNode>) returns (r: Option<seq<DotNode>>)
      requires stmt.EdgeStmt?
      requires dst.Valid() && Setters() !! dst.Core() && StackValid() && subNodes == []
      modifies this, dst.Repr(), ids.Values, Setters()
      ensures dst.Valid() && Grows(dst) && StackValid() && subNodes == []
      ensures r.Some? ==> subStart == old(subStart)
      ensures r.Some? && stmt.to.vertex.NodeVertex? ==>
        SplitIdent(stmt.to.vertex.node.id).Some? && Num(stmt.to.vertex.node.id) in ids
        && r.value == [ids[Num(stmt.to.vertex.node.id)]]
      ensures r.Some? && fs != [] && r.value != [] ==> dst.Diagram?
      ensures r.Some? && dst.Diagram? ==> forall i, j :: 0 <= i < |fs| && 0 <= j < |r.value| ==>
        Linked(dst.d, fs[i], r.value[j])
      ensures r.Some? && dst.Diagram? ==> forall i, j :: 0 <= i < |fs| && 0 <= j < |r.value| ==>
        Carries(dst.d.scope.store.from, fs[i].handle, r.value[j].handle, FlowFields(stmt.from, stmt.to, stmt.attrs))
      decreases stmt, 0
    {
      var tsR := AddEdge(dst, stmt.to, stmt.attrs);
      if tsR.None? {
        return None;
      }
      ghost var s1 := SnapshotOf(dst);
      var ok := AddStmtFlows(dst, stmt, fs, tsR.value);
      assert SnapshotOf(dst).ids == s1.ids;
      SnapshotGrowsTrans(old(SnapshotOf(dst)), s1, SnapshotOf(dst));
      if !ok {
        return None;
      }
      return tsR;
    }

    /**
     * The flow loop of addEdgeStmt, run only when both node lists are
     * non-empty; the builder must then be a diagram.
     */
    static method AddStmtFlows(dst: Builder, stmt: Ast.Stmt, fs: seq<DotNode>, ts: seq<DotNode>) returns (ok: bool)
      requires stmt.EdgeStmt? && dst.Valid()
      modifies if dst.Diagram? then {dst.d, dst.d.scope.store} else {}
      ensures dst.Valid() && Extends(old(BuilderFootprint(dst)), BuilderFootprint(dst))
      ensures fs == [] || ts == [] ==> ok
      ensures fs != [] && ts != [] ==> (ok ==> dst.Diagram?)
      ensures ok && dst.Diagram? ==> forall i, j :: 0 <= i < |fs| && 0 <= j < |ts| ==>
        Linked(dst.d, fs[i], ts[j])
      ensures ok && dst.Diagram? ==> forall i, j :: 0 <= i < |fs| && 0 <= j < |ts| ==>
        Carries(dst.d.scope.store.from, fs[i].handle, ts[j].handle, FlowFields(stmt.from, stmt.to, stmt.attrs))
    {
      if fs == [] || ts == [] {
        return true;
      }
      if !dst.Diagram? {
        return false;
      }
      ok := AddFlows(dst.d, stmt.from, stmt.to, stmt.attrs, fs, ts);
    }

    /**
     * addEdge: adds one hop's vertex and, recursively, the rest of the
     * chain, joining each pair of this hop's nodes and the next hop's
     * nodes by a bare store edge. Returns this hop's nodes. The undirected
     * check never fires, the generator being directed.
     */
    method AddEdge(dst: Builder, e: Ast.Edge, attrs: seq<Ast.Attr>) returns (r: Option<seq<DotNode>>)
      requires dst.Valid() && Setters() !! dst.Core() && StackValid() && subNodes == []
      modifies this, dst.Repr(), ids.Values, Setters()
      ensures dst.Valid() && Grows(dst) && StackValid() && subNodes == []
      ensures r.Some? ==> subStart == old(subStart)
      ensures r.Some? && e.vertex.NodeVertex? ==>
        SplitIdent(e.vertex.node.id).Some? && Num(e.vertex.node.id) in ids && r.value == [ids[Num(e.vertex.node.id)]]
      ensures r.Some? && e.vertex.SubgraphVertex? ==> r.value == []
      ensures r.Some? && e.vertex.NodeVertex? && e.next.Some? && e.next.value.vertex.NodeVertex? ==>
        && SplitIdent(e.next.value.vertex.node.id).Some? && Num(e.next.value.vertex.node.id) in ids
        && dst.Store().HasEdgeFromTo(ids[Num(e.vertex.node.id)].handle, ids[Num(e.next.value.vertex.node.id)].handle)
        && PlainAt(dst.Store().from, ids[Num(e.vertex.node.id)].handle, ids[Num(e.next.value.vertex.node.id)].handle)
      decreases e, 1
    {
      if !directed && e.directed {
        return None;
      }
      var fsR := AddVertex(dst, e.vertex);
      if fsR.None? {
        return None;
      }
      if e.next.Some? {
        ghost var s1 := SnapshotOf(dst);
        var ok := AddNextHop(dst, e, fsR.value, attrs);
        SnapshotGrowsTrans(old(SnapshotOf(dst)), s1, SnapshotOf(dst));
        if !ok {
          return None;
        }
        if e.vertex.NodeVertex? {
          assert s1.ids[Num(e.vertex.node.id)] == fsR.value[0];
        }
      }
      return Some(fsR.value);
    }

    /**
     * The rest of addEdge once this hop's nodes fs are known: the next hop
     * (recursively), then a bare store edge from each node of fs to each of
     * the next hop's nodes.
     */
    method AddNextHop(dst: Builder, e: Ast.Edge, fs: seq<DotNode>, attrs: seq<Ast.Attr>) returns (ok: bool)
      requires e.next.Some?
      requires dst.Valid() && Setters() !! dst.Core() && StackValid() && subNodes == []
      modifies this, dst.Repr(), ids.Values, Setters()
      ensures dst.Valid() && Grows(dst) && StackValid() && subNodes == []
      ensures ok ==> subStart == old(subStart)
      ensures ok && e.next.value.vertex.NodeVertex? ==>
        && SplitIdent(e.next.value.vertex.node.id).Some? && Num(e.next.value.vertex.node.id) in ids
        && forall i :: 0 <= i < |fs| ==>
             dst.Store().HasEdgeFromTo(fs[i].handle, ids[Num(e.next.value.vertex.node.id)].handle)
      ensures ok && e.next.value.vertex.NodeVertex? ==>
        forall i :: 0 <= i < |fs| ==> PlainAt(dst.Store().from, fs[i].handle, ids[Num(e.next.value.vertex.node.id)].handle)
      decreases e, 0
    {
      var tsR := AddEdge(dst, e.next.value, attrs);
      if tsR.None? {
        return false;
      }
      ghost var s1 := SnapshotOf(dst);
      ok := JoinHops(dst, fs, tsR.value);
      assert SnapshotOf(dst).ids == s1.ids;
      SnapshotGrowsTrans(old(SnapshotOf(dst)), s1, SnapshotOf(dst));
      if ok && e.next.value.vertex.NodeVertex? {
        ghost var w := tsR.value[0];
        assert w == ids[Num(e.next.value.vertex.node.id)];
        forall i | 0 <= i < |fs|
          ensures dst.Store().HasEdgeFromTo(fs[i].handle, w.handle) && PlainAt(dst.Store().from, fs[i].handle, w.handle)
        {
        }
      }
    }

    /** The bare store edges between two hops, in the builder's terms. */
    static method JoinHops(dst: Builder, fs: seq<DotNode>, ts: seq<DotNode>) returns (ok: bool)
      requires dst.Valid()
      modifies dst.Store()
      ensures dst.Valid() && Extends(old(BuilderFootprint(dst)), BuilderFootprint(dst))
      ensures ok ==> forall i, j :: 0 <= i < |fs| && 0 <= j < |ts| ==> dst.Store().HasEdgeFromTo(fs[i].handle, ts[j].handle)
      ensures ok ==> forall i, j :: 0 <= i < |fs| && 0 <= j < |ts| ==> PlainAt(dst.Store().from, fs[i].handle, ts[j].handle)
      ensures KeptOffGrid(old(dst.Store().from), dst.Store().from, fs, ts)
    {
      ok := AddPlainEdges(dst.Store(), fs, ts);
    }
  }
}
