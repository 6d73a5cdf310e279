/** Pictures of JSON in memory: objects are mutable maps reached by reference. */
module JsonMemory {
  import opened Trim

  /** A mutable JSON object. */
  class Node {
    var fields: map<string, Value>

    constructor (fields: map<string, Value>)
      ensures this.fields == fields
    {
      this.fields := fields;
    }
  }

  /** A value as it sits in memory: objects are references. */
  datatype Value = Scalar(json: Json) | List(elems: seq<Value>) | Ref(node: Node)

  /** A picture of the memory behind a value: which node holds which fields. */
  datatype Shape = Flat(json: Json) | Row(elems: seq<Shape>) | Map(node: Node, kids: map<string, Shape>)

  ghost function Nodes(s: Shape): set<Node> {
    match s
    case Flat(_) => {}
    case Row(ss) => set i, n | 0 <= i < |ss| && n in Nodes(ss[i]) :: n
    case Map(node, kids) => {node} + set k, n | k in kids && n in Nodes(kids[k]) :: n
  }

  ghost function ValueOf(s: Shape): Json {
    match s
    case Flat(j) => j
    case Row(ss) => Array(seq(|ss|, i requires 0 <= i < |ss| => ValueOf(ss[i])))
    case Map(_, kids) => Object(map k | k in kids :: ValueOf(kids[k]))
  }

  /** No node occurs twice: decoded JSON is a tree. */
  ghost predicate Tree(s: Shape) {
    match s
    case Flat(j) => !j.Array? && !j.Object?
    case Row(ss) =>
      && (forall i :: 0 <= i < |ss| ==> Tree(ss[i]))
      && (forall i, j :: 0 <= i < j < |ss| ==> Nodes(ss[i]) !! Nodes(ss[j]))
    case Map(node, kids) =>
      && (forall k :: k in kids ==> Tree(kids[k]) && node !in Nodes(kids[k]))
      && (forall k, l :: k in kids && l in kids && k != l ==> Nodes(kids[k]) !! Nodes(kids[l]))
  }

  /** The memory behind `v` is as `s` pictures it. */
  ghost predicate Pictures(v: Value, s: Shape)
    reads Nodes(s)
    decreases s
  {
    match s
    case Flat(j) => v == Scalar(j)
    case Row(ss) => v.List? && |v.elems| == |ss| && forall i :: 0 <= i < |ss| ==> Pictures(v.elems[i], ss[i])
    case Map(node, kids) =>
      v == Ref(node) && node.fields.Keys == kids.Keys && forall k :: k in kids ==> Pictures(node.fields[k], kids[k])
  }
}
