/** The in-place trim on mutable nested maps computes `Trimmed`. */
module TrimInPlace {
  import opened Trim
  import opened JsonMemory

  /** delete(m, key) */
  method Delete(n: Node, key: string, ghost s: Shape) returns (ghost t: Shape)
    requires s.Map? && s.node == n && Pictures(Ref(n), s) && Tree(s)
    modifies n
    ensures t == Map(n, s.kids - {key}) && Pictures(Ref(n), t) && Tree(t) && Nodes(t) <= Nodes(s)
    ensures n.fields == old(n.fields) - {key} && ValueOf(t).fields == ValueOf(s).fields - {key}
  {
    n.fields := n.fields - {key};
    t := Map(n, s.kids - {key});
  }

  /** Replacing one subtree by a picture of the same or fewer nodes keeps a tree. */
  lemma Replaced(n: Node, kids: map<string, Shape>, key: string, t: Shape)
    requires Tree(Map(n, kids)) && key in kids && Tree(t) && Nodes(t) <= Nodes(kids[key])
    ensures Tree(Map(n, kids[key := t])) && Nodes(Map(n, kids[key := t])) <= Nodes(Map(n, kids))
  {
  }

  lemma Reassembled(n: Node, kids: map<string, Shape>, key: string, t: Shape)
    requires n.fields.Keys == kids.Keys && key in kids && Pictures(n.fields[key], t)
    requires forall k :: k in kids && k != key ==> Pictures(n.fields[k], kids[k])
    ensures Pictures(Ref(n), Map(n, kids[key := t]))
  {
  }

  lemma ValueOfReplaced(n: Node, kids: map<string, Shape>, key: string, t: Shape)
    ensures ValueOf(Map(n, kids[key := t])).fields == ValueOf(Map(n, kids)).fields[key := ValueOf(t)]
  {
  }

  /** delete(m[field], key): works on the value of one field and leaves the rest of the object alone. */
  method DeleteInside(n: Node, field: string, key: string, ghost s: Shape) returns (inner: Node, ghost t: Shape)
    requires s.Map? && s.node == n && Pictures(Ref(n), s) && Tree(s)
    requires field in s.kids && s.kids[field].Map?
    modifies s.kids[field].node
    ensures inner == s.kids[field].node
    ensures t == Map(n, s.kids[field := Map(inner, s.kids[field].kids - {key})])
    ensures Pictures(Ref(n), t) && Tree(t) && Nodes(t) <= Nodes(s)
    ensures inner.fields.Keys == s.kids[field].kids.Keys - {key}
    ensures ValueOf(t).fields == ValueOf(s).fields[field := Object(ValueOf(s.kids[field]).fields - {key})]
  {
    ghost var a, kids := s.kids[field], s.kids;
    assert Pictures(n.fields[field], a) && a.node in Nodes(a);
    inner := n.fields[field].node;
    forall k | k in kids && k != field ensures inner !in Nodes(kids[k]) && Pictures(n.fields[k], kids[k]) {
      assert Nodes(kids[k]) !! Nodes(a);
    }
    ghost var b := Delete(inner, key, a);
    Replaced(n, kids, field, b);
    t := Map(n, kids[field := b]);
    assert n != inner && n.fields == old(n.fields);
    forall k | k in kids && k != field ensures Pictures(n.fields[k], kids[k]) {
      assert inner !in Nodes(kids[k]) && old(allocated(Nodes(kids[k])));
      assert Pictures(n.fields[k], kids[k]) == old(Pictures(n.fields[k], kids[k]));
    }
    Reassembled(n, kids, field, b);
    ValueOfReplaced(n, kids, field, b);
  }

  lemma UpdateThenRemove(m: map<string, Json>, key: string, j: Json)
    ensures m[key := j] - {key} == m - {key}
  {
  }

  /** A field holds an object exactly when its picture is a node. */
  lemma FieldValue(s: Shape, key: string)
    requires s.Map? && Tree(s)
    ensures key in ValueOf(s).fields <==> key in s.kids
    ensures key in s.kids ==>
              && ValueOf(s).fields[key] == ValueOf(s.kids[key])
              && (ValueOf(s.kids[key]).Object? <==> s.kids[key].Map?)
              && (ValueOf(s.kids[key]).Array? <==> s.kids[key].Row?)
  {
  }

  method TrimAnnotationsMap(md: Node, ghost s: Shape) returns (ghost t: Shape)
    requires s.Map? && s.node == md && Pictures(Ref(md), s) && Tree(s)
    modifies Nodes(s)
    ensures t.Map? && t.node == md && Pictures(Ref(md), t) && Tree(t) && Nodes(t) <= Nodes(s)
    ensures ValueOf(t).fields == TrimAnnotations(ValueOf(s).fields)
  {
    t := s;
    FieldValue(s, "annotations");
    if "annotations" in md.fields && md.fields["annotations"].Ref? {
      var ann;
      ghost var a := s.kids["annotations"];
      assert Nodes(a) <= Nodes(s) && a.node in Nodes(a) && ValueOf(a).fields.Keys == a.kids.Keys;
      hide ValueOf, Tree;
      ann, t := DeleteInside(md, "annotations", LastApplied, s);
      ghost var rest := ValueOf(a).fields - {LastApplied};
      assert rest.Keys == ann.fields.Keys;
      if |ann.fields| == 0 {
        ghost var mid := t;
        t := Delete(md, "annotations", mid);
        assert Nodes(t) <= Nodes(mid) <= Nodes(s);
        UpdateThenRemove(ValueOf(s).fields, "annotations", Object(rest));
      }
    }
  }

  method TrimMetadataMap(md: Node, ghost s: Shape) returns (ghost t: Shape)
    requires s.Map? && s.node == md && Pictures(Ref(md), s) && Tree(s)
    modifies Nodes(s)
    ensures t.Map? && t.node == md && Pictures(Ref(md), t) && Tree(t) && Nodes(t) <= Nodes(s)
    ensures ValueOf(t).fields == TrimMetadata(ValueOf(s).fields)
  {
    t := Delete(md, "managedFields", s);
    ghost var mid := t;
    t := TrimAnnotationsMap(md, mid);
    assert Nodes(t) <= Nodes(mid) <= Nodes(s);
  }

  /** Works on the metadata object, if there is one, and leaves the other fields alone. */
  method TrimMetadataField(n: Node, ghost s: Shape) returns (ghost t: Shape)
    requires s.Map? && s.node == n && Pictures(Ref(n), s) && Tree(s)
    modifies Nodes(s)
    ensures t.Map? && t.node == n && Pictures(Ref(n), t) && Tree(t) && Nodes(t) <= Nodes(s)
    ensures ValueOf(t).fields == TrimOwn(ValueOf(s).fields, false)
    ensures "items" in t.kids <==> "items" in s.kids
    ensures "items" in s.kids ==> t.kids["items"] == s.kids["items"]
  {
    t := s;
    FieldValue(s, "metadata");
    if "metadata" in n.fields && n.fields["metadata"].Ref? {
      ghost var a, kids := s.kids["metadata"], s.kids;
      var md := n.fields["metadata"].node;
      assert Pictures(Ref(md), a) && Nodes(a) <= Nodes(s) && n !in Nodes(a);
      forall k | k in kids && k != "metadata" ensures Nodes(kids[k]) !! Nodes(a) && Pictures(n.fields[k], kids[k]) {}
      ghost var b := TrimMetadataMap(md, a);
      Replaced(n, kids, "metadata", b);
      t := Map(n, kids["metadata" := b]);
      assert n.fields == old(n.fields);
      forall k | k in kids && k != "metadata" ensures Pictures(n.fields[k], kids[k]) {
        assert Nodes(kids[k]) !! Nodes(a) && old(allocated(Nodes(kids[k])));
        assert Pictures(n.fields[k], kids[k]) == old(Pictures(n.fields[k], kids[k]));
      }
      Reassembled(n, kids, "metadata", b);
      ValueOfReplaced(n, kids, "metadata", b);
    }
  }

  method TrimOwnFields(n: Node, stripStatus: bool, ghost s: Shape) returns (ghost t: Shape)
    requires s.Map? && s.node == n && Pictures(Ref(n), s) && Tree(s)
    modifies Nodes(s)
    ensures t.Map? && t.node == n && Pictures(Ref(n), t) && Tree(t) && Nodes(t) <= Nodes(s)
    ensures ValueOf(t).fields == TrimOwn(ValueOf(s).fields, stripStatus)
    ensures "items" in t.kids <==> "items" in s.kids
    ensures "items" in s.kids ==> t.kids["items"] == s.kids["items"]
  {
    t := TrimMetadataField(n, s);
    if stripStatus {
      ghost var mid := t;
      t := Delete(n, "status", mid);
      assert Nodes(t) <= Nodes(mid) <= Nodes(s);
    }
  }

  lemma RowReplaced(elems: seq<Value>, ss: seq<Shape>, i: nat, t: Shape)
    requires i < |ss| == |elems| && Tree(Row(ss)) && Tree(t) && Nodes(t) <= Nodes(ss[i]) && Pictures(elems[i], t)
    requires forall j :: 0 <= j < |ss| && j != i ==> Pictures(elems[j], ss[j])
    ensures Tree(Row(ss[i := t])) && Pictures(List(elems), Row(ss[i := t]))
  {
  }

  lemma RowNodes(ss: seq<Shape>, tt: seq<Shape>)
    requires |ss| == |tt| && forall i :: 0 <= i < |ss| ==> Nodes(tt[i]) <= Nodes(ss[i])
    ensures Nodes(Row(tt)) <= Nodes(Row(ss))
  {
  }

  /** Trims one element of the list, if it is an object, and leaves the others alone. */
  method TrimElement(elems: seq<Value>, i: nat, stripStatus: bool, ghost ss: seq<Shape>) returns (ghost t: Shape)
    requires i < |ss| == |elems| && Pictures(List(elems), Row(ss)) && Tree(Row(ss))
    modifies Nodes(ss[i])
    ensures Tree(t) && Nodes(t) <= Nodes(ss[i])
    ensures Pictures(List(elems), Row(ss[i := t])) && Tree(Row(ss[i := t]))
    ensures ValueOf(t) == Trimmed(ValueOf(ss[i]), stripStatus)
    decreases ss[i], 1
  {
    t := ss[i];
    assert Pictures(elems[i], t);
    if elems[i].Ref? {
      t := TrimObjectMap(elems[i].node, stripStatus, t);
      forall j | 0 <= j < |ss| && j != i ensures Pictures(elems[j], ss[j]) {
        assert Nodes(ss[j]) !! Nodes(ss[i]) && old(allocated(Nodes(ss[j])));
        assert Pictures(elems[j], ss[j]) == old(Pictures(elems[j], ss[j]));
      }
      RowReplaced(elems, ss, i, t);
    } else {
      assert ss[i := t] == ss && !ValueOf(t).Object?;
    }
  }

  /** The range loop over `items`. */
  method TrimElements(elems: seq<Value>, stripStatus: bool, ghost row: Shape) returns (ghost t: Shape)
    requires row.Row? && Pictures(List(elems), row) && Tree(row)
    modifies Nodes(row)
    ensures t.Row? && Pictures(List(elems), t) && Tree(t) && Nodes(t) <= Nodes(row) && |t.elems| == |row.elems|
    ensures forall i :: 0 <= i < |t.elems| ==> ValueOf(t.elems[i]) == Trimmed(ValueOf(row.elems[i]), stripStatus)
    decreases row, 0
  {
    ghost var cur := row.elems;
    var i := 0;
    while i < |elems|
      invariant 0 <= i <= |elems| == |cur| == |row.elems|
      invariant Pictures(List(elems), Row(cur)) && Tree(Row(cur))
      invariant forall j :: i <= j < |cur| ==> cur[j] == row.elems[j]
      invariant forall j :: 0 <= j < |cur| ==> Nodes(cur[j]) <= Nodes(row.elems[j])
      invariant forall j :: 0 <= j < i ==> ValueOf(cur[j]) == Trimmed(ValueOf(row.elems[j]), stripStatus)
    {
      assert Nodes(cur[i]) <= Nodes(row);
      ghost var u := TrimElement(elems, i, stripStatus, cur);
      cur := cur[i := u];
      i := i + 1;
    }
    RowNodes(row.elems, cur);
    t := Row(cur);
  }

  lemma RowValue(before: seq<Shape>, after: seq<Shape>, stripStatus: bool)
    requires |after| == |before|
    requires forall i :: 0 <= i < |after| ==> ValueOf(after[i]) == Trimmed(ValueOf(before[i]), stripStatus)
    ensures ValueOf(Row(after)) ==
            Array(seq(|before|, i requires 0 <= i < |before| => Trimmed(ValueOf(before[i]), stripStatus)))
  {
    hide Trimmed;
    var elems := seq(|before|, i requires 0 <= i < |before| => Trimmed(ValueOf(before[i]), stripStatus));
    assert forall i :: 0 <= i < |after| ==> ValueOf(Row(after)).elems[i] == elems[i];
  }

  /** The definition of `Trimmed`, read off a picture. */
  lemma TrimmedValue(s: Shape, stripStatus: bool)
    requires s.Map? && Tree(s)
    ensures var own := TrimOwn(ValueOf(s).fields, stripStatus);
            Trimmed(ValueOf(s), stripStatus) ==
            if "items" in s.kids && s.kids["items"].Row? then
              var row := s.kids["items"].elems;
              Object(own["items" := Array(seq(|row|, i requires 0 <= i < |row| =>
                                                Trimmed(ValueOf(row[i]), stripStatus)))])
            else Object(own)
  {
    FieldValue(s, "items");
    if "items" in s.kids && s.kids["items"].Row? {
      var row := s.kids["items"].elems;
      var items := ValueOf(s).fields["items"];
      assert |items.elems| == |row| && forall i :: 0 <= i < |row| ==> items.elems[i] == ValueOf(row[i]);
      assert seq(|row|, i requires 0 <= i < |row| => Trimmed(ValueOf(row[i]), stripStatus))
          == seq(|items.elems|, i requires 0 <= i < |items.elems| => Trimmed(items.elems[i], stripStatus));
    }
  }

  /** trimObjectMap: afterwards the object's value is the trimmed value, in the same nodes. */
  method TrimObjectMap(n: Node, stripStatus: bool, ghost s: Shape) returns (ghost t: Shape)
    requires s.Map? && s.node == n && Pictures(Ref(n), s) && Tree(s)
    modifies Nodes(s)
    ensures t.Map? && t.node == n && Pictures(Ref(n), t) && Tree(t) && Nodes(t) <= Nodes(s)
    ensures ValueOf(t) == Trimmed(ValueOf(s), stripStatus)
    decreases s, 0
  {
    TrimmedValue(s, stripStatus);
    ghost var own := TrimOwnFields(n, stripStatus, s);
    t := own;
    if "items" in n.fields && n.fields["items"].List? {
      t := TrimItems(n, stripStatus, own, s);
      assert Nodes(t) <= Nodes(own) <= Nodes(s);
    }
  }

  method TrimItems(n: Node, stripStatus: bool, ghost own: Shape, ghost s: Shape) returns (ghost t: Shape)
    requires own.Map? && own.node == n && Pictures(Ref(n), own) && Tree(own)
    requires s.Map? && "items" in own.kids && "items" in s.kids
    requires own.kids["items"] == s.kids["items"] && s.kids["items"].Row?
    modifies Nodes(own)
    ensures t.Map? && t.node == n && Pictures(Ref(n), t) && Tree(t) && Nodes(t) <= Nodes(own)
    ensures var row := s.kids["items"].elems;
            ValueOf(t).fields == ValueOf(own).fields["items" :=
              Array(seq(|row|, i requires 0 <= i < |row| => Trimmed(ValueOf(row[i]), stripStatus)))]
    decreases s.kids["items"], 1
  {
    ghost var a, kids := own.kids["items"], own.kids;
    assert Pictures(n.fields["items"], a) && Nodes(a) <= Nodes(own) && n !in Nodes(a);
    ghost var b := TrimElements(n.fields["items"].elems, stripStatus, a);
    assert n.fields == old(n.fields);
    forall k | k in kids && k != "items" ensures Pictures(n.fields[k], kids[k]) {
      assert Nodes(kids[k]) !! Nodes(a) && old(allocated(Nodes(kids[k])));
      assert Pictures(n.fields[k], kids[k]) == old(Pictures(n.fields[k], kids[k]));
    }
    Replaced(n, kids, "items", b);
    Reassembled(n, kids, "items", b);
    ValueOfReplaced(n, kids, "items", b);
    t := Map(n, kids["items" := b]);
    RowValue(a.elems, b.elems, stripStatus);
  }
}
