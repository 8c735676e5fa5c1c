/**
 * dfd/attributes.go: the key/value attribute record, the append-only
 * attribute list kept for the graph, node and edge default blocks, and
 * the port/compass pair carried by edges.
 */
module Attributes {

  /** encoding.Attribute: one `key=value` pair. */
  datatype Attribute = Attribute(key: string, value: string)

  /** dotPortLabels: a named attachment point and its compass direction. */
  datatype PortLabels = PortLabels(port: string, compass: string)

  /**
   * `attributes`: a list that only ever grows, in insertion order. The
   * source appends through a pointer receiver, so every holder of the same
   * list object sees every append; here that is one object shared by all.
   */
  class AttributeList {
    var items: seq<Attribute>

    constructor ()
      ensures items == []
    {
      items := [];
    }

    /** Attributes: the accumulated list as it is, in insertion order. */
    function Attributes(): (r: seq<Attribute>)
      reads this
      ensures r == items
    {
      items
    }

    /**
     * SetAttribute: appends `a` at the end, with no deduplication (setting
     * a key twice leaves two entries). The source's error result is always
     * nil, so the method has none.
     */
    method SetAttribute(a: Attribute)
      modifies this
      ensures items == old(items) + [a]
      ensures |items| == |old(items)| + 1 && items[..|old(items)|] == old(items)
    {
      items := items + [a];
    }
  }
}
