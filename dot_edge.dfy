/**
 * dfd/dot_edge.go: an edge carrying the DOT attributes Label and Dir and
 * the port/compass pair at each end. The embedded graph.Edge (its two
 * endpoint nodes) never changes after construction.
 */
module DotEdges {
  import opened Wrappers
  import opened Attributes
  import opened GoStrings
  import opened DotNodes

  /** The mutable part of an edge, as one value. */
  datatype EdgeFields = EdgeFields(Label: string, Dir: string, FromPort: PortLabels, ToPort: PortLabels)

  const NoPort: PortLabels := PortLabels("", "")

  const BlankEdge: EdgeFields := EdgeFields("", "", NoPort, NoPort)

  /** The keys an edge accepts. */
  predicate IsEdgeKey(key: string) {
    key == "label" || key == "dir"
  }

  /**
   * dotEdge.SetAttribute on the field values: "label" and "dir" overwrite
   * their own field; any other key is an error (None).
   */
  function SetEdgeAttribute(f: EdgeFields, a: Attribute): (r: Option<EdgeFields>)
    ensures r.None? <==> !IsEdgeKey(a.key)
    ensures a.key == "label" ==> r == Some(EdgeFields(a.value, f.Dir, f.FromPort, f.ToPort))
    ensures a.key == "dir" ==> r == Some(EdgeFields(f.Label, a.value, f.FromPort, f.ToPort))
  {
    if a.key == "label" then Some(f.(Label := a.value))
    else if a.key == "dir" then Some(f.(Dir := a.value))
    else None
  }

  /**
   * Applies a list of attributes in order, stopping with None at the first
   * unsupported key (the generator's addEdgeAttrs loop).
   */
  function ApplyEdgeAll(f: EdgeFields, attrs: seq<Attribute>): Option<EdgeFields>
    decreases |attrs|
  {
    if attrs == [] then Some(f)
    else
      match SetEdgeAttribute(f, attrs[0])
      case None => None
      case Some(g) => ApplyEdgeAll(g, attrs[1..])
  }

  /** Applying one more attribute continues from where the list left off. */
  lemma {:induction false} ApplyEdgeAllSnoc(f: EdgeFields, xs: seq<Attribute>, a: Attribute)
    ensures ApplyEdgeAll(f, xs + [a])
      == (match ApplyEdgeAll(f, xs) case None => None case Some(g) => SetEdgeAttribute(g, a))
    decreases |xs|
  {
    if xs == [] {
      assert xs + [a] == [a];
    } else {
      assert (xs + [a])[0] == xs[0];
      assert (xs + [a])[1..] == xs[1..] + [a];
      match SetEdgeAttribute(f, xs[0])
      case None =>
      case Some(g) =>
        ApplyEdgeAllSnoc(g, xs[1..], a);
    }
  }

  /** SetFromPort on the field values. */
  function WithFromPort(f: EdgeFields, port: string, compass: string): EdgeFields {
    f.(FromPort := PortLabels(port, compass))
  }

  /** SetToPort on the field values. */
  function WithToPort(f: EdgeFields, port: string, compass: string): EdgeFields {
    f.(ToPort := PortLabels(port, compass))
  }

  /**
   * The port setters touch only their own end, and the last value set is
   * the one read back.
   */
  lemma PortSettersSeparate(f: EdgeFields, port: string, compass: string)
    ensures WithFromPort(f, port, compass).FromPort == PortLabels(port, compass)
    ensures WithFromPort(f, port, compass).ToPort == f.ToPort
    ensures WithToPort(f, port, compass).ToPort == PortLabels(port, compass)
    ensures WithToPort(f, port, compass).FromPort == f.FromPort
    ensures WithFromPort(f, port, compass).Label == f.Label && WithFromPort(f, port, compass).Dir == f.Dir
    ensures WithToPort(f, port, compass).Label == f.Label && WithToPort(f, port, compass).Dir == f.Dir
  {
  }

  /** SetAttribute never touches a port. */
  lemma SetEdgeAttributeKeepsPorts(f: EdgeFields, a: Attribute)
    requires IsEdgeKey(a.key)
    ensures SetEdgeAttribute(f, a).value.FromPort == f.FromPort
    ensures SetEdgeAttribute(f, a).value.ToPort == f.ToPort
  {
  }

  /** Port setters and SetAttribute touch disjoint fields, so they commute. */
  lemma PortsCommuteWithAttribute(f: EdgeFields, a: Attribute, port: string, compass: string)
    ensures SetEdgeAttribute(WithFromPort(f, port, compass), a)
      == (match SetEdgeAttribute(f, a) case None => None case Some(g) => Some(WithFromPort(g, port, compass)))
    ensures SetEdgeAttribute(WithToPort(f, port, compass), a)
      == (match SetEdgeAttribute(f, a) case None => None case Some(g) => Some(WithToPort(g, port, compass)))
  {
  }

  /** The two port setters commute with each other. */
  lemma PortSettersCommute(f: EdgeFields, p1: string, c1: string, p2: string, c2: string)
    ensures WithToPort(WithFromPort(f, p1, c1), p2, c2) == WithFromPort(WithToPort(f, p2, c2), p1, c1)
  {
  }

  /**
   * An edge of the diagram. `src` and `dst` are the endpoints of the
   * embedded graph.Edge.
   */
  class DotEdge {
    const src: DotNode
    const dst: DotNode
    var Dir: string
    var Label: string
    var FromPortLabels: PortLabels
    var ToPortLabels: PortLabels

    function Fields(): EdgeFields
      reads this
    {
      EdgeFields(Label, Dir, FromPortLabels, ToPortLabels)
    }

    /** An edge between two nodes with the given label and nothing else set. */
    constructor (f: DotNode, t: DotNode, lbl: string)
      ensures src == f && dst == t
      ensures Fields() == BlankEdge.(Label := lbl)
    {
      src, dst := f, t;
      Dir, Label := "", lbl;
      FromPortLabels, ToPortLabels := NoPort, NoPort;
    }

    /**
     * SetAttribute: "label" and "dir" overwrite that field; any other key
     * fails and leaves the edge unchanged.
     */
    method SetAttribute(a: Attribute) returns (err: Outcome)
      modifies this
      ensures err.Fail? <==> !IsEdgeKey(a.key)
      ensures Fields() == SetEdgeAttribute(old(Fields()), a).GetOr(old(Fields()))
    {
      match a.key {
        case "label" => Label := a.value;
        case "dir" => Dir := a.value;
        case _ => return Fail("unable to unmarshal edge DOT attribute with key " + Quote(a.key));
      }
      return Pass;
    }

    /** SetFromPort: sets the source end's port and compass; never fails. */
    method SetFromPort(port: string, compass: string) returns (err: Outcome)
      modifies this
      ensures err == Pass
      ensures Fields() == WithFromPort(old(Fields()), port, compass)
    {
      FromPortLabels := PortLabels(port, compass);
      return Pass;
    }

    /** SetToPort: sets the destination end's port and compass; never fails. */
    method SetToPort(port: string, compass: string) returns (err: Outcome)
      modifies this
      ensures err == Pass
      ensures Fields() == WithToPort(old(Fields()), port, compass)
    {
      ToPortLabels := PortLabels(port, compass);
      return Pass;
    }

    /** FromPort: the port and compass of the source end. */
    function FromPort(): (r: (string, string))
      reads this
      ensures PortLabels(r.0, r.1) == Fields().FromPort
    {
      (FromPortLabels.port, FromPortLabels.compass)
    }

    /** ToPort: the port and compass of the destination end. */
    function ToPort(): (r: (string, string))
      reads this
      ensures PortLabels(r.0, r.1) == Fields().ToPort
    {
      (ToPortLabels.port, ToPortLabels.compass)
    }
  }
}
