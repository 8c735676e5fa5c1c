/**
 * dfd/dot_node.go: a graph node carrying the DOT attributes Label, Shape,
 * Style and Dir, plus the external id it was serialized under.
 *
 * The node kinds Process, ExternalService and DataStore embed this node;
 * they are folded into the one class below through a constant kind tag,
 * `PlainNode` standing for a bare dotNode (what the graph's NewNode makes).
 */
module DotNodes {
  import opened Wrappers
  import opened Attributes
  import opened Utilities
  import opened GoStrings

  datatype NodeKind = PlainNode | Process | ExternalService | DataStore

  const Circle: string := "circle"
  const Diamond: string := "diamond"
  const Cylinder: string := "cylinder"

  /** The Shape each node kind is drawn with. */
  function KindShape(k: NodeKind): string {
    match k
    case Process => Circle
    case ExternalService => Diamond
    case DataStore => Cylinder
    case PlainNode => ""
  }

  /** The kind word that starts a node's DOT identifier. */
  function KindPrefix(k: NodeKind): string {
    match k
    case Process => "process"
    case ExternalService => "externalservice"
    case DataStore => "datastore"
    case PlainNode => ""
  }

  /** The four attribute-backed fields of a node, as one value. */
  datatype NodeFields = NodeFields(Label: string, Shape: string, Style: string, Dir: string)

  const Blank: NodeFields := NodeFields("", "", "", "")

  /** The keys a node accepts. */
  predicate IsNodeKey(key: string) {
    key == "label" || key == "shape" || key == "style" || key == "dir"
  }

  /** The field a node key addresses (empty for any other key). */
  function FieldValue(f: NodeFields, key: string): string {
    if key == "label" then f.Label
    else if key == "shape" then f.Shape
    else if key == "style" then f.Style
    else if key == "dir" then f.Dir
    else ""
  }

  /** Position of a node key in the emission order Label, Shape, Style, Dir. */
  function KeyRank(key: string): nat {
    if key == "label" then 0 else if key == "shape" then 1 else if key == "style" then 2 else 3
  }

  /**
   * dotNode.SetAttribute on the field values: a supported key overwrites
   * exactly its own field; any other key is an error (None).
   */
  function SetNodeAttribute(f: NodeFields, a: Attribute): (r: Option<NodeFields>)
    ensures r.None? <==> !IsNodeKey(a.key)
    ensures r.Some? ==> FieldValue(r.value, a.key) == a.value
    ensures r.Some? ==> forall k :: IsNodeKey(k) && k != a.key ==> FieldValue(r.value, k) == FieldValue(f, k)
  {
    if a.key == "label" then Some(f.(Label := a.value))
    else if a.key == "shape" then Some(f.(Shape := a.value))
    else if a.key == "style" then Some(f.(Style := a.value))
    else if a.key == "dir" then Some(f.(Dir := a.value))
    else None
  }

  /**
   * Applies a list of attributes in order, stopping with None at the first
   * unsupported key (the generator's node-statement loop).
   */
  function ApplyAll(f: NodeFields, attrs: seq<Attribute>): Option<NodeFields>
    decreases |attrs|
  {
    if attrs == [] then Some(f)
    else
      match SetNodeAttribute(f, attrs[0])
      case None => None
      case Some(g) => ApplyAll(g, attrs[1..])
  }

  /** The node keys in the order Attributes emits them. */
  const NodeKeys: seq<string> := ["label", "shape", "style", "dir"]

  /** One attribute per listed key whose field is non-empty, in list order. */
  function EmitKeys(keys: seq<string>, f: NodeFields): seq<Attribute>
    decreases |keys|
  {
    if keys == [] then []
    else
      (if FieldValue(f, keys[0]) != "" then [Attribute(keys[0], FieldValue(f, keys[0]))] else [])
      + EmitKeys(keys[1..], f)
  }

  /** dotNode.Attributes on the field values. */
  function NodeAttributes(f: NodeFields): seq<Attribute> {
    EmitKeys(NodeKeys, f)
  }

  lemma {:induction false} EmitKeysFacts(keys: seq<string>, f: NodeFields)
    requires forall i, j :: 0 <= i < j < |keys| ==> KeyRank(keys[i]) < KeyRank(keys[j])
    ensures forall a :: a in EmitKeys(keys, f) ==> a.key in keys && a.value == FieldValue(f, a.key) && a.value != ""
    ensures forall k :: k in keys && FieldValue(f, k) != "" ==> Attribute(k, FieldValue(f, k)) in EmitKeys(keys, f)
    ensures forall i, j :: 0 <= i < j < |EmitKeys(keys, f)| ==> KeyRank(EmitKeys(keys, f)[i].key) < KeyRank(EmitKeys(keys, f)[j].key)
    decreases |keys|
  {
    if keys != [] {
      var rest := EmitKeys(keys[1..], f);
      EmitKeysFacts(keys[1..], f);
      forall a | a in rest
        ensures KeyRank(keys[0]) < KeyRank(a.key)
      {
        var i :| 1 <= i < |keys| && keys[i] == a.key;
      }
    }
  }

  /**
   * dotNode.Attributes lists exactly the non-empty fields with their values,
   * in the order label, shape, style, dir, and is empty exactly when all
   * four fields are.
   */
  lemma NodeAttributesExact(f: NodeFields)
    ensures NodeAttributes(f) == [] <==> f.Label == "" && f.Shape == "" && f.Style == "" && f.Dir == ""
    ensures forall a :: a in NodeAttributes(f) ==> IsNodeKey(a.key) && a.value == FieldValue(f, a.key) && a.value != ""
    ensures forall k :: IsNodeKey(k) && FieldValue(f, k) != "" ==> Attribute(k, FieldValue(f, k)) in NodeAttributes(f)
    ensures forall i, j :: 0 <= i < j < |NodeAttributes(f)| ==> KeyRank(NodeAttributes(f)[i].key) < KeyRank(NodeAttributes(f)[j].key)
  {
    EmitKeysFacts(NodeKeys, f);
    if f.Label != "" {
      assert Attribute("label", f.Label) in NodeAttributes(f);
    } else if f.Shape != "" {
      assert Attribute("shape", f.Shape) in NodeAttributes(f);
    } else if f.Style != "" {
      assert Attribute("style", f.Style) in NodeAttributes(f);
    } else if f.Dir != "" {
      assert Attribute("dir", f.Dir) in NodeAttributes(f);
    }
  }

  /** NodeAttributes as four optional pieces, label to dir. */
  lemma NodeAttributesPieces(f: NodeFields)
    ensures NodeAttributes(f)
      == (if f.Label != "" then [Attribute("label", f.Label)] else [])
       + (if f.Shape != "" then [Attribute("shape", f.Shape)] else [])
       + (if f.Style != "" then [Attribute("style", f.Style)] else [])
       + (if f.Dir != "" then [Attribute("dir", f.Dir)] else [])
  {
    assert NodeKeys[1..] == ["shape", "style", "dir"];
    assert NodeKeys[1..][1..] == ["style", "dir"];
    assert NodeKeys[1..][1..][1..] == ["dir"];
    assert NodeKeys[1..][1..][1..][1..] == [];
  }

  lemma {:induction false} ApplyAllConcat(f: NodeFields, xs: seq<Attribute>, ys: seq<Attribute>)
    ensures ApplyAll(f, xs + ys) == (match ApplyAll(f, xs) case None => None case Some(g) => ApplyAll(g, ys))
    decreases |xs|
  {
    if xs == [] {
      assert xs + ys == ys;
    } else {
      assert (xs + ys)[0] == xs[0];
      assert (xs + ys)[1..] == xs[1..] + ys;
      match SetNodeAttribute(f, xs[0])
      case None =>
      case Some(g) =>
        ApplyAllConcat(g, xs[1..], ys);
    }
  }

  /**
   * Round trip: replaying a node's emitted attributes on a blank node
   * rebuilds exactly that node, hence emits the same attributes again.
   */
  lemma ReplayAttributes(f: NodeFields)
    ensures ApplyAll(Blank, NodeAttributes(f)) == Some(f)
    ensures NodeAttributes(ApplyAll(Blank, NodeAttributes(f)).value) == NodeAttributes(f)
  {
    var l := if f.Label != "" then [Attribute("label", f.Label)] else [];
    var s := if f.Shape != "" then [Attribute("shape", f.Shape)] else [];
    var t := if f.Style != "" then [Attribute("style", f.Style)] else [];
    var d := if f.Dir != "" then [Attribute("dir", f.Dir)] else [];
    var f1 := Blank.(Label := f.Label);
    var f2 := f1.(Shape := f.Shape);
    var f3 := f2.(Style := f.Style);
    assert ApplyAll(Blank, l) == Some(f1);
    assert ApplyAll(f1, s) == Some(f2);
    assert ApplyAll(f2, t) == Some(f3);
    assert ApplyAll(f3, d) == Some(f);
    ApplyAllConcat(Blank, l, s);
    ApplyAllConcat(Blank, l + s, t);
    ApplyAllConcat(Blank, l + s + t, d);
    NodeAttributesPieces(f);
  }

  /** Setting the same attribute twice is the same as setting it once. */
  lemma SetNodeAttributeIdempotent(f: NodeFields, a: Attribute)
    requires IsNodeKey(a.key)
    ensures SetNodeAttribute(SetNodeAttribute(f, a).value, a) == SetNodeAttribute(f, a)
  {
  }

  /**
   * A node of the diagram. `handle` is the graph.Node ID the adjacency store
   * keys it by; `dotID` the external id; `name` belongs to the three node
   * kinds, which keep `Label` equal to the quoted name when named through
   * their constructors or UpdateName.
   */
  class DotNode {
    const kind: NodeKind
    const handle: int
    var dotID: string
    var name: string
    var Label: string
    var Shape: string
    var Style: string
    var Dir: string

    function Fields(): NodeFields
      reads this
    {
      NodeFields(Label, Shape, Style, Dir)
    }

    /** The graph's NewNode: a bare dotNode with the given handle and empty fields. */
    constructor FromHandle(h: int)
      ensures kind == PlainNode && handle == h && dotID == "" && name == ""
      ensures Fields() == Blank
    {
      kind, handle := PlainNode, h;
      dotID, name := "", "";
      Label, Shape, Style, Dir := "", "", "", "";
    }

    /**
     * NewProcess, NewExternalService, NewDataStore with the random draw `x`
     * of genID made a parameter: the Label is the quoted name, the Shape
     * follows the kind, and the handle is the parse of the generated id.
     */
    constructor New(k: NodeKind, n: string, x: int)
      requires k != PlainNode && 0 <= x < MaxInt64
      ensures kind == k && name == n && dotID == GenID(x)
      ensures handle == IdToID64(dotID) && handle == x
      ensures Fields() == NodeFields(Quote(n), KindShape(k), "", "")
    {
      kind, handle := k, x;
      dotID, name := GenID(x), n;
      Label, Shape, Style, Dir := Quote(n), KindShape(k), "", "";
    }

    /**
     * DeserializeProcess, DeserializeExternalService, DeserializeDataStore:
     * a node of the given kind under a given external id, its handle the
     * parse of that id.
     */
    constructor Deserialize(k: NodeKind, id: string)
      requires k != PlainNode
      ensures kind == k && dotID == id && handle == IdToID64(id) && name == ""
      ensures Fields() == NodeFields("", KindShape(k), "", "")
    {
      kind, handle := k, IdToID64(id);
      dotID, name := id, "";
      Label, Shape, Style, Dir := "", KindShape(k), "", "";
    }

    /** ExternalID: the id last given to SetDOTID (or a constructor). */
    function ExternalID(): (r: string)
      reads this
      ensures r == dotID
    {
      dotID
    }

    /** DOTID: the identifier a node is written under, `<kind>_<external id>`. */
    function DOTID(): (r: string)
      reads this
      ensures r == KindPrefix(kind) + "_" + ExternalID()
    {
      KindPrefix(kind) + "_" + dotID
    }

    /** SetDOTID replaces the external id and nothing else. */
    method SetDOTID(id: string)
      modifies this
      ensures dotID == id && ExternalID() == id
      ensures name == old(name) && Fields() == old(Fields())
    {
      dotID := id;
    }

    /** UpdateName: the name, and the Label as its quoted form. */
    method UpdateName(n: string)
      modifies this
      ensures name == n && Label == Quote(n)
      ensures dotID == old(dotID) && Shape == old(Shape) && Style == old(Style) && Dir == old(Dir)
    {
      name := n;
      Label := Quote(n);
    }

    /**
     * SetAttribute: Label, Shape, Style or Dir overwrite that one field;
     * any other key fails and changes nothing.
     */
    method SetAttribute(a: Attribute) returns (err: Outcome)
      modifies this
      ensures err.Fail? <==> !IsNodeKey(a.key)
      ensures Fields() == SetNodeAttribute(old(Fields()), a).GetOr(old(Fields()))
      ensures dotID == old(dotID) && name == old(name)
    {
      match a.key {
        case "label" => Label := a.value;
        case "shape" => Shape := a.value;
        case "style" => Style := a.value;
        case "dir" => Dir := a.value;
        case _ => return Fail("unable to unmarshal node DOT attribute with key " + Quote(a.key));
      }
      return Pass;
    }

    /** Attributes: the non-empty fields in the order Label, Shape, Style, Dir. */
    function Attributes(): (r: seq<Attribute>)
      reads this
      ensures r == NodeAttributes(Fields())
    {
      NodeAttributesPieces(Fields());
      if |Label| == 0 && |Shape| == 0 && |Style| == 0 && |Dir| == 0 then []
      else
        var attrs := if |Label| != 0 then [Attribute("label", Label)] else [];
        var attrs := if |Shape| != 0 then attrs + [Attribute("shape", Shape)] else attrs;
        var attrs := if |Style| != 0 then attrs + [Attribute("style", Style)] else attrs;
        if |Dir| != 0 then attrs + [Attribute("dir", Dir)] else attrs
    }
  }
}
