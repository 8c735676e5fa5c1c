/**
 * dfd/dfd.go: the data-flow diagram and its trust boundaries, both layered
 * over the adjacency store of module Graph.
 *
 * DataFlowDiagram and TrustBoundary carry the same three kind maps
 * (Processes, ExternalServices, DataStores) over a store of their own, and
 * their AddNodeElem, add*, Remove* and FindNode are the same code. That
 * shared part is the class Scope, which each of the two owns.
 */
module Dfd {
  import opened Wrappers
  import opened Attributes
  import opened Utilities
  import opened GoStrings
  import opened DotNodes
  import opened DotEdges
  import opened Graph

  // ---------------------------------------------------------------------
  // Attribute lists and flow labels
  // ---------------------------------------------------------------------

  /** makeAttribute: the value is stored Go-quoted. */
  function MakeAttribute(key: string, value: string): Attribute {
    Attribute(key, Quote(value))
  }

  /** The quoted value of makeAttribute reads back as the original value. */
  lemma MakeAttributeReadable(key: string, value: string)
    ensures MakeAttribute(key, value).key == key
    ensures Unquote(MakeAttribute(key, value).value) == Some(value)
  {
    UnquoteQuote(value);
  }

  /**
   * DataFlowDiagram.graphAttributes: seven entries, the first being the
   * quoted diagram name. "fontsize" is listed twice (14, then 20) and both
   * entries are kept, since attribute lists never deduplicate.
   */
  function DiagramGraphAttributes(name: string): (r: seq<Attribute>)
    ensures |r| == 7 && r[0] == Attribute("label", Quote(name))
    ensures r[2].key == "fontsize" && r[4].key == "fontsize"
  {
    [ MakeAttribute("label", name), Attribute("fontname", "\"Arial\""), Attribute("fontsize", "\"14\""),
      Attribute("labelloc", "\"t\""), Attribute("fontsize", "\"20\""), Attribute("nodesep", "\"1\""),
      Attribute("rankdir", "\"t\"") ]
  }

  /** DataFlowDiagram.nodeAttributes: two fixed entries. */
  function DiagramNodeAttributes(): (r: seq<Attribute>)
    ensures |r| == 2 && r[0].key == "fontname" && r[1].key == "fontsize"
  {
    [Attribute("fontname", "\"Arial\""), Attribute("fontsize", "\"14\"")]
  }

  /** DataFlowDiagram.edgeAttributes: three fixed entries. */
  function DiagramEdgeAttributes(): (r: seq<Attribute>)
    ensures |r| == 3 && r[0].key == "shape" && r[1].key == "fontname" && r[2].key == "fontsize"
  {
    [Attribute("shape", "\"none\""), Attribute("fontname", "\"Arial\""), Attribute("fontsize", "\"12\"")]
  }

  /** TrustBoundary.graphAttributes: five entries, the first being the quoted name. */
  function BoundaryGraphAttributes(name: string): (r: seq<Attribute>)
    ensures |r| == 5 && r[0] == Attribute("label", Quote(name))
  {
    [ MakeAttribute("label", name), Attribute("fontsize", "\"10\""), Attribute("style", "\"dashed\""),
      Attribute("color", "\"grey35\""), Attribute("fontcolor", "\"grey35\"") ]
  }

  /** makeAttribute on a value of plain characters: the value between two double quotes. */
  lemma MakePlainAttribute(key: string, value: string, quoted: string)
    requires forall i :: 0 <= i < |value| ==> PlainChar(value[i])
    requires quoted == ['"'] + value + ['"']
    ensures MakeAttribute(key, value) == Attribute(key, quoted)
  {
    QuotePlain(value);
  }

  /*
   * The fixed entries of the four tables above are spelled out already
   * quoted; the next four lemmas show each is the makeAttribute call the
   * source makes for it.
   */

  lemma DiagramGraphAttributesMade(name: string)
    ensures DiagramGraphAttributes(name) ==
      [ MakeAttribute("label", name), MakeAttribute("fontname", "Arial"), MakeAttribute("fontsize", "14"),
        MakeAttribute("labelloc", "t"), MakeAttribute("fontsize", "20"), MakeAttribute("nodesep", "1"),
        MakeAttribute("rankdir", "t") ]
  {
    MakePlainAttribute("fontname", "Arial", "\"Arial\"");
    MakePlainAttribute("fontsize", "14", "\"14\"");
    MakePlainAttribute("labelloc", "t", "\"t\"");
    MakePlainAttribute("fontsize", "20", "\"20\"");
    MakePlainAttribute("nodesep", "1", "\"1\"");
    MakePlainAttribute("rankdir", "t", "\"t\"");
  }

  lemma DiagramNodeAttributesMade()
    ensures DiagramNodeAttributes() == [MakeAttribute("fontname", "Arial"), MakeAttribute("fontsize", "14")]
  {
    MakePlainAttribute("fontname", "Arial", "\"Arial\"");
    MakePlainAttribute("fontsize", "14", "\"14\"");
  }

  lemma DiagramEdgeAttributesMade()
    ensures DiagramEdgeAttributes() ==
      [MakeAttribute("shape", "none"), MakeAttribute("fontname", "Arial"), MakeAttribute("fontsize", "12")]
  {
    MakePlainAttribute("shape", "none", "\"none\"");
    MakePlainAttribute("fontname", "Arial", "\"Arial\"");
    MakePlainAttribute("fontsize", "12", "\"12\"");
  }

  lemma BoundaryGraphAttributesMade(name: string)
    ensures BoundaryGraphAttributes(name) ==
      [ MakeAttribute("label", name), MakeAttribute("fontsize", "10"), MakeAttribute("style", "dashed"),
        MakeAttribute("color", "grey35"), MakeAttribute("fontcolor", "grey35") ]
  {
    MakePlainAttribute("fontsize", "10", "\"10\"");
    MakePlainAttribute("style", "dashed", "\"dashed\"");
    MakePlainAttribute("color", "grey35", "\"grey35\"");
    MakePlainAttribute("fontcolor", "grey35", "\"grey35\"");
  }

  const FlowLabelPrefix: string := "<<table border=\"0\" cellborder=\"0\" cellpadding=\"2\"><tr><td><b>"
  const FlowLabelSuffix: string := "</b></td></tr></table>>"

  /** formatFlowLabel: the flow name inside a one-cell bold HTML-like table; the name can be cut back out. */
  function FormatFlowLabel(name: string): (r: string)
    ensures |r| == |FlowLabelPrefix| + |name| + |FlowLabelSuffix|
    ensures r[..|FlowLabelPrefix|] == FlowLabelPrefix && r[|r| - |FlowLabelSuffix|..] == FlowLabelSuffix
    ensures r[|FlowLabelPrefix|..|r| - |FlowLabelSuffix|] == name
  {
    FlowLabelPrefix + name + FlowLabelSuffix
  }

  /** Distinct flow names give distinct labels. */
  lemma FlowLabelInjective(a: string, b: string)
    requires FormatFlowLabel(a) == FormatFlowLabel(b)
    ensures a == b
  {
    var r := FormatFlowLabel(a);
    assert a == r[|FlowLabelPrefix|..|r| - |FlowLabelSuffix|];
  }

  /** genFlowID: the two endpoint IDs in decimal, concatenated with no separator. */
  function GenFlowID(u: int, v: int): string {
    FormatInt(u) + FormatInt(v)
  }

  /**
   * The key RemoveFlow deletes for the decimal ids of a flow's endpoints is
   * the key AddFlow stored it under, and those ids parse back to the
   * endpoints' handles, so the store edge removed is the flow's edge.
   */
  lemma RemoveFlowMatchesAddFlow(u: int, v: int)
    requires InInt64(u) && InInt64(v)
    ensures FormatInt(u) + FormatInt(v) == GenFlowID(u, v)
    ensures IdToID64(FormatInt(u)) == u && IdToID64(FormatInt(v)) == v
  {
    ParseFormatInt(u);
    ParseFormatInt(v);
  }

  /**
   * Flow keys are ambiguous: with no separator, the endpoint pairs (1, 23)
   * and (12, 3) share the key "123", so AddFlow for one overwrites the
   * Flows entry of the other.
   */
  lemma FlowKeysCollide()
    ensures GenFlowID(1, 23) == GenFlowID(12, 3) == "123"
  {
    assert FormatNat(1) == "1" by { assert DigitChar(1) == '1'; }
    assert FormatNat(3) == "3" by { assert DigitChar(3) == '3'; }
    assert FormatNat(12) == "12" by { assert FormatNat(1) == "1"; assert DigitChar(2) == '2'; }
    assert FormatNat(23) == "23" by { assert FormatNat(2) == "2" by { assert DigitChar(2) == '2'; } assert DigitChar(3) == '3'; }
  }

  /** Flow.Attributes: nothing for an empty label, otherwise exactly the label. */
  function FlowAttributes(e: DotEdge): (r: seq<Attribute>)
    reads e
    ensures r == [] <==> e.Label == ""
    ensures r != [] ==> r == [Attribute("label", e.Label)]
  {
    if |e.Label| == 0 then [] else [Attribute("label", e.Label)]
  }

  /** The loops of setAttributes: each attribute appended through the setter, in order. */
  method SetAll(setter: AttributeList, attrs: seq<Attribute>)
    modifies setter
    ensures setter.items == old(setter.items) + attrs
  {
    for i := 0 to |attrs|
      invariant setter.items == old(setter.items) + attrs[..i]
    {
      setter.SetAttribute(attrs[i]);
      assert attrs[..i + 1] == attrs[..i] + [attrs[i]];
    }
    assert attrs[..|attrs|] == attrs;
  }

  // ---------------------------------------------------------------------
  // The part shared by a diagram and a trust boundary
  // ---------------------------------------------------------------------

  /**
   * A store plus the three kind maps, keyed by each node's external id at
   * the time it was added.
   */
  class Scope {
    const store: DfdGraph
    var Processes: map<string, DotNode>
    var ExternalServices: map<string, DotNode>
    var DataStores: map<string, DotNode>

    /** The kind map for one kind (none for a bare node). */
    function Table(k: NodeKind): map<string, DotNode>
      reads this
    {
      match k
      case Process => Processes
      case ExternalService => ExternalServices
      case DataStore => DataStores
      case PlainNode => map[]
    }

    /** The store is consistent and each kind map holds only nodes of its kind. */
    ghost predicate Valid()
      reads this, store
    {
      && store.Valid()
      && (forall id :: id in Processes ==> Processes[id].kind == Process)
      && (forall id :: id in ExternalServices ==> ExternalServices[id].kind == ExternalService)
      && (forall id :: id in DataStores ==> DataStores[id].kind == DataStore)
    }

    constructor (s: DfdGraph)
      requires s.Valid()
      ensures store == s && Valid()
      ensures Processes == map[] && ExternalServices == map[] && DataStores == map[]
    {
      store := s;
      Processes, ExternalServices, DataStores := map[], map[], map[];
    }

    /**
     * FindNode: Processes, then ExternalServices, then DataStores; None
     * when no kind map holds the id.
     */
    function FindNode(id: string): (r: Option<DotNode>)
      reads this
      ensures r.None? <==> id !in Processes && id !in ExternalServices && id !in DataStores
      ensures id in Processes ==> r == Some(Processes[id])
      ensures id !in Processes && id in ExternalServices ==> r == Some(ExternalServices[id])
      ensures id !in Processes && id !in ExternalServices && id in DataStores ==> r == Some(DataStores[id])
    {
      if id in Processes then Some(Processes[id])
      else if id in ExternalServices then Some(ExternalServices[id])
      else if id in DataStores then Some(DataStores[id])
      else None
    }

    /** Under Valid, a found node sits in the map of its own kind. */
    lemma FoundInOwnKind(id: string)
      requires Valid() && FindNode(id).Some?
      ensures FindNode(id).value.kind != PlainNode
      ensures id in Table(FindNode(id).value.kind) && Table(FindNode(id).value.kind)[id] == FindNode(id).value
    {
    }

    /**
     * addProcess, addExternalService and addDataStore: the node goes into
     * its kind's map under its external id, replacing any entry there, and
     * the other kind maps and the store are unchanged.
     */
    method AddKindEntry(n: DotNode)
      requires Valid() && n.kind != PlainNode
      modifies this
      ensures Valid()
      ensures Table(n.kind) == old(Table(n.kind))[n.dotID := n]
      ensures forall k :: k != n.kind ==> Table(k) == old(Table(k))
      ensures FindNode(n.ExternalID()).Some?
      ensures old(Processes.Keys) <= Processes.Keys && old(ExternalServices.Keys) <= ExternalServices.Keys
      ensures old(DataStores.Keys) <= DataStores.Keys
    {
      match n.kind {
        case Process => Processes := Processes[n.ExternalID() := n];
        case ExternalService => ExternalServices := ExternalServices[n.ExternalID() := n];
        case DataStore => DataStores := DataStores[n.ExternalID() := n];
      }
    }

    /**
     * AddNodeElem: the kind map entry first, then the store gains the node
     * with no edges. A bare node panics in the source; a handle already in
     * the store panics in AddNode, after the kind map was written. Both are
     * excluded here; the panicking case is taken apart by its caller.
     */
    method AddNodeElem(n: DotNode)
      requires Valid() && n.kind != PlainNode && n.handle !in store.nodes
      modifies this, store
      ensures Valid()
      ensures Table(n.kind) == old(Table(n.kind))[n.dotID := n]
      ensures forall k :: k != n.kind ==> Table(k) == old(Table(k))
      ensures store.nodes == old(store.nodes)[n.handle := n]
      ensures store.from == old(store.from)[n.handle := map[]] && store.to == old(store.to)[n.handle := map[]]
      ensures store.id == old(store.id)
      ensures EdgePairs(store.from) == old(EdgePairs(store.from))
      ensures FindNode(n.ExternalID()).Some?
      ensures old(Processes.Keys) <= Processes.Keys && old(ExternalServices.Keys) <= ExternalServices.Keys
      ensures old(DataStores.Keys) <= DataStores.Keys
    {
      AddKindEntry(n);
      store.AddNode(n);
    }

    /**
     * RemoveProcess, RemoveExternalService and RemoveDataStore: the id
     * leaves its own kind's map only, and the store drops the node with
     * handle idToID64(id) and every edge touching it.
     */
    method RemoveElem(k: NodeKind, id: string)
      requires Valid() && k != PlainNode
      modifies this, store
      ensures Valid()
      ensures Table(k) == old(Table(k)) - {id}
      ensures forall j :: j != k ==> Table(j) == old(Table(j))
      ensures store.id == old(store.id)
      ensures store.nodes == old(store.nodes) - {IdToID64(id)}
      ensures forall u, v :: store.HasEdgeFromTo(u, v) <==> old(store.HasEdgeFromTo(u, v)) && u != IdToID64(id) && v != IdToID64(id)
    {
      match k {
        case Process => Processes := Processes - {id};
        case ExternalService => ExternalServices := ExternalServices - {id};
        case DataStore => DataStores := DataStores - {id};
      }
      store.RemoveNode(IdToID64(id));
    }
  }

  // ---------------------------------------------------------------------
  // TrustBoundary
  // ---------------------------------------------------------------------

  /** A trust boundary: a subgraph with a name and nodes of its own. */
  class TrustBoundary {
    const scope: Scope
    var Name: string

    function Repr(): set<object> {
      {this, scope} + scope.store.Repr()
    }

    ghost predicate Valid()
      reads this, scope, scope.store
    {
      scope.Valid() && scope.store.ListsDistinct()
    }

    /** InitializeTrustBoundary, with the draw behind genID as `x`. */
    constructor Initialize(name: string, x: int)
      requires 0 <= x < MaxInt64
      ensures Valid() && fresh(Repr())
      ensures Name == name && ExternalID() == GenID(x)
      ensures scope.Processes == map[] && scope.ExternalServices == map[] && scope.DataStores == map[]
      ensures scope.store.nodes == map[]
      ensures scope.store.DOTAttributers() == (BoundaryGraphAttributes(name), [], [])
    {
      var s := new DfdGraph(x);
      FillAttributes(s, name);
      scope := new Scope(s);
      Name := name;
    }

    /** DeserializeTrustBoundary: empty maps and store under the given id, no name, no attributes. */
    constructor Deserialize(id: string)
      ensures Valid() && fresh(Repr())
      ensures Name == "" && ExternalID() == id
      ensures scope.Processes == map[] && scope.ExternalServices == map[] && scope.DataStores == map[]
      ensures scope.store.nodes == map[]
      ensures scope.store.DOTAttributers() == ([], [], [])
    {
      var s := new DfdGraph.WithID(id);
      scope := new Scope(s);
      Name := "";
    }

    function ExternalID(): string
      reads scope.store
    {
      scope.store.id
    }

    /** setAttributes: the three lists are emptied, then the graph list gets graphAttributes. */
    method SetAttributes()
      requires scope.store.ListsDistinct()
      modifies scope.store.graphAttrs, scope.store.nodeAttrs, scope.store.edgeAttrs
      ensures scope.store.DOTAttributers() == (BoundaryGraphAttributes(Name), [], [])
    {
      FillAttributes(scope.store, Name);
    }

    /** The body of setAttributes, on the store alone (so the constructor can run it before the scope exists). */
    static method FillAttributes(store: DfdGraph, name: string)
      requires store.ListsDistinct()
      modifies store.graphAttrs, store.nodeAttrs, store.edgeAttrs
      ensures unchanged(store)
      ensures store.DOTAttributers() == (BoundaryGraphAttributes(name), [], [])
    {
      store.graphAttrs.items := [];
      store.nodeAttrs.items := [];
      store.edgeAttrs.items := [];
      var (graphSetter, _, _) := store.DOTAttributeSetters();
      SetAll(graphSetter, BoundaryGraphAttributes(name));
      assert store.DOTAttributers().0 == BoundaryGraphAttributes(name);
      assert store.DOTAttributers().1 == [];
      assert store.DOTAttributers().2 == [];
    }

    /** UpdateName: the lists are rebuilt from the new name, not appended to. */
    method UpdateName(newName: string)
      requires scope.store.ListsDistinct()
      modifies this, scope.store.graphAttrs, scope.store.nodeAttrs, scope.store.edgeAttrs
      ensures Name == newName
      ensures scope.store.DOTAttributers() == (BoundaryGraphAttributes(newName), [], [])
    {
      Name := newName;
      SetAttributes();
    }
  }

  // ---------------------------------------------------------------------
  // DataFlowDiagram
  // ---------------------------------------------------------------------

  /** The top-level diagram: its own nodes, its trust boundaries and its flows. */
  class DataFlowDiagram {
    const scope: Scope
    var Name: string
    var TrustBoundaries: map<string, TrustBoundary>
    var Flows: map<string, DotEdge>

    function Repr(): set<object> {
      {this, scope} + scope.store.Repr()
    }

    ghost predicate Valid()
      reads this, scope, scope.store
    {
      scope.Valid() && scope.store.ListsDistinct()
    }

    /** InitializeDFD, with the draw behind genID as `x`. */
    constructor Initialize(name: string, x: int)
      requires 0 <= x < MaxInt64
      ensures Valid() && fresh(Repr())
      ensures Name == name && ExternalID() == GenID(x)
      ensures scope.Processes == map[] && scope.ExternalServices == map[] && scope.DataStores == map[]
      ensures TrustBoundaries == map[] && Flows == map[] && scope.store.nodes == map[]
      ensures scope.store.DOTAttributers() == (DiagramGraphAttributes(name), DiagramNodeAttributes(), DiagramEdgeAttributes())
    {
      var s := new DfdGraph(x);
      FillAttributes(s, name);
      scope := new Scope(s);
      Name := name;
      TrustBoundaries, Flows := map[], map[];
    }

    /** DeserializeDFD: everything empty under the given id, no name, no attributes. */
    constructor Deserialize(id: string)
      ensures Valid() && fresh(Repr())
      ensures Name == "" && ExternalID() == id
      ensures scope.Processes == map[] && scope.ExternalServices == map[] && scope.DataStores == map[]
      ensures TrustBoundaries == map[] && Flows == map[] && scope.store.nodes == map[]
      ensures scope.store.DOTAttributers() == ([], [], [])
    {
      var s := new DfdGraph.WithID(id);
      scope := new Scope(s);
      Name := "";
      TrustBoundaries, Flows := map[], map[];
    }

    function ExternalID(): string
      reads scope.store
    {
      scope.store.id
    }

    /** GetTrustBoundary: the boundary registered under id, or None (nil). */
    function GetTrustBoundary(id: string): (r: Option<TrustBoundary>)
      reads this
      ensures r.Some? <==> id in TrustBoundaries
      ensures r.Some? ==> r.value == TrustBoundaries[id]
    {
      if id in TrustBoundaries then Some(TrustBoundaries[id]) else None
    }

    /** Structure: the trust boundaries (in no particular order). */
    function Structure(): (r: set<TrustBoundary>)
      reads this
      ensures forall id :: id in TrustBoundaries ==> TrustBoundaries[id] in r
      ensures forall tb :: tb in r ==> exists id :: id in TrustBoundaries && TrustBoundaries[id] == tb
    {
      set id | id in TrustBoundaries :: TrustBoundaries[id]
    }

    /** setAttributes: the three lists are emptied, then refilled from the fixed tables. */
    method SetAttributes()
      requires scope.store.ListsDistinct()
      modifies scope.store.graphAttrs, scope.store.nodeAttrs, scope.store.edgeAttrs
      ensures scope.store.DOTAttributers() == (DiagramGraphAttributes(Name), DiagramNodeAttributes(), DiagramEdgeAttributes())
    {
      FillAttributes(scope.store, Name);
    }

    /** The body of setAttributes, on the store alone (so the constructor can run it before the scope exists). */
    static method FillAttributes(store: DfdGraph, name: string)
      requires store.ListsDistinct()
      modifies store.graphAttrs, store.nodeAttrs, store.edgeAttrs
      ensures unchanged(store)
      ensures store.DOTAttributers() == (DiagramGraphAttributes(name), DiagramNodeAttributes(), DiagramEdgeAttributes())
    {
      var (graphSetter, nodeSetter, edgeSetter) := store.DOTAttributeSetters();
      store.graphAttrs.items := [];
      store.nodeAttrs.items := [];
      store.edgeAttrs.items := [];
      SetAll(graphSetter, DiagramGraphAttributes(name));
      SetAll(nodeSetter, DiagramNodeAttributes());
      SetAll(edgeSetter, DiagramEdgeAttributes());
      assert store.DOTAttributers().0 == DiagramGraphAttributes(name);
      assert store.DOTAttributers().1 == DiagramNodeAttributes();
      assert store.DOTAttributers().2 == DiagramEdgeAttributes();
    }

    /** UpdateName: the lists are rebuilt from the new name, not appended to. */
    method UpdateName(newName: string)
      requires scope.store.ListsDistinct()
      modifies this, scope.store.graphAttrs, scope.store.nodeAttrs, scope.store.edgeAttrs
      ensures Name == newName
      ensures TrustBoundaries == old(TrustBoundaries) && Flows == old(Flows)
      ensures scope.store.DOTAttributers() == (DiagramGraphAttributes(newName), DiagramNodeAttributes(), DiagramEdgeAttributes())
    {
      Name := newName;
      SetAttributes();
    }

    /**
     * FindNode: the diagram's own kind maps first; failing that, the first
     * trust boundary (in map order, here an arbitrary one) whose FindNode
     * succeeds; None when no map anywhere holds the id.
     */
    method FindNode(id: string) returns (r: Option<DotNode>)
      ensures scope.FindNode(id).Some? ==> r == scope.FindNode(id)
      ensures scope.FindNode(id).None? ==>
        (r.None? <==> forall k :: k in TrustBoundaries ==> TrustBoundaries[k].scope.FindNode(id).None?)
      ensures scope.FindNode(id).None? && r.Some? ==>
        exists k :: k in TrustBoundaries && TrustBoundaries[k].scope.FindNode(id) == r
    {
      r := scope.FindNode(id);
      if r.Some? {
        return;
      }
      var rest := TrustBoundaries.Keys;
      while rest != {}
        invariant rest <= TrustBoundaries.Keys
        invariant forall k :: k in TrustBoundaries && k !in rest ==> TrustBoundaries[k].scope.FindNode(id).None?
        invariant r.None?
        decreases |rest|
      {
        var k := Pick(rest);
        r := TrustBoundaries[k].scope.FindNode(id);
        if r.Some? {
          return;
        }
        rest := rest - {k};
      }
    }

    /** AddTrustBoundary: a new named boundary registered under its generated id. */
    method AddTrustBoundary(name: string, x: int) returns (tb: TrustBoundary)
      requires 0 <= x < MaxInt64
      modifies this
      ensures fresh(tb.Repr()) && tb.Valid()
      ensures tb.Name == name && tb.ExternalID() == GenID(x)
      ensures tb.scope.store.DOTAttributers() == (BoundaryGraphAttributes(name), [], [])
      ensures TrustBoundaries == old(TrustBoundaries)[GenID(x) := tb]
      ensures Flows == old(Flows) && Name == old(Name)
      ensures GetTrustBoundary(GenID(x)) == Some(tb)
    {
      tb := new TrustBoundary.Initialize(name, x);
      TrustBoundaries := TrustBoundaries[tb.ExternalID() := tb];
      tb := TrustBoundaries[tb.ExternalID()];
    }

    /** RemoveTrustBoundary: only the map entry goes; nothing else changes. */
    method RemoveTrustBoundary(id: string)
      modifies this
      ensures TrustBoundaries == old(TrustBoundaries) - {id}
      ensures GetTrustBoundary(id).None?
      ensures Flows == old(Flows) && Name == old(Name)
    {
      TrustBoundaries := TrustBoundaries - {id};
    }

    /**
     * AddFlow: a new edge from f to t labelled formatFlowLabel(name),
     * stored in the store (SetEdge) and in Flows under genFlowID. Equal
     * endpoint handles panic in SetEdge and are excluded.
     */
    method AddFlow(f: DotNode, t: DotNode, name: string) returns (flow: DotEdge)
      requires Valid() && f.handle != t.handle
      modifies this, scope.store
      ensures Valid()
      ensures fresh(flow) && flow.src == f && flow.dst == t
      ensures flow.Fields() == BlankEdge.(Label := FormatFlowLabel(name))
      ensures Flows == old(Flows)[GenFlowID(f.handle, t.handle) := flow]
      ensures TrustBoundaries == old(TrustBoundaries) && Name == old(Name)
      ensures scope.Processes == old(scope.Processes) && scope.ExternalServices == old(scope.ExternalServices)
      ensures scope.DataStores == old(scope.DataStores)
      ensures scope.store.nodes == old(scope.store.nodes)[f.handle := f][t.handle := t]
      ensures scope.store.from == Link(old(scope.store.from), f.handle, t.handle, f.handle, t.handle, FlowEdge(flow))
      ensures scope.store.to == Link(old(scope.store.to), f.handle, t.handle, t.handle, f.handle, FlowEdge(flow))
      ensures scope.store.Edge(f.handle, t.handle) == Some(FlowEdge(flow))
      ensures forall u, v :: (u, v) != (f.handle, t.handle) ==>
        (scope.store.HasEdgeFromTo(u, v) <==> old(scope.store.HasEdgeFromTo(u, v)))
      ensures EdgePairs(scope.store.from) == old(EdgePairs(scope.store.from)) + {(f.handle, t.handle)}
      ensures scope.store.id == old(scope.store.id)
    {
      flow := new DotEdge(f, t, FormatFlowLabel(name));
      var key := GenFlowID(f.handle, t.handle);
      scope.store.SetEdge(FlowEdge(flow));
      Flows := Flows[key := flow];
    }

    /**
     * RemoveFlow: deletes Flows[srcId + destId] and the store edge between
     * the handles the two ids parse to; nothing else.
     */
    method RemoveFlow(srcId: string, destId: string)
      requires Valid()
      modifies this, scope.store
      ensures Valid()
      ensures Flows == old(Flows) - {srcId + destId}
      ensures TrustBoundaries == old(TrustBoundaries) && Name == old(Name)
      ensures scope.store.nodes == old(scope.store.nodes) && scope.store.id == old(scope.store.id)
      ensures scope.Processes == old(scope.Processes) && scope.ExternalServices == old(scope.ExternalServices)
      ensures scope.DataStores == old(scope.DataStores)
      ensures IdToID64(srcId) !in old(scope.store.nodes) || IdToID64(destId) !in old(scope.store.nodes) ==>
        scope.store.from == old(scope.store.from) && scope.store.to == old(scope.store.to)
      ensures IdToID64(srcId) in old(scope.store.nodes) && IdToID64(destId) in old(scope.store.nodes) ==>
        && scope.store.from == Unlink(old(scope.store.from), IdToID64(srcId), IdToID64(destId))
        && scope.store.to == Unlink(old(scope.store.to), IdToID64(destId), IdToID64(srcId))
      ensures !scope.store.HasEdgeFromTo(IdToID64(srcId), IdToID64(destId))
      ensures forall u, v :: (u, v) != (IdToID64(srcId), IdToID64(destId)) ==>
        (scope.store.HasEdgeFromTo(u, v) <==> old(scope.store.HasEdgeFromTo(u, v)))
    {
      Flows := Flows - {srcId + destId};
      scope.store.RemoveEdge(IdToID64(srcId), IdToID64(destId));
    }
  }
}
