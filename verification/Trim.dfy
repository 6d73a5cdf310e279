/** Trimming of Kubernetes JSON as a function on JSON values, and what it removes, keeps and leaves in place. */
module Trim {

  datatype Json =
    | Null | Bool(b: bool) | Number(text: string) | Text(s: string)
    | Array(elems: seq<Json>)
    | Object(fields: map<string, Json>)

  const LastApplied := "kubectl.kubernetes.io/last-applied-configuration"

  // ----- Specification --------------------------------------------------------------------------

  function TrimAnnotations(md: map<string, Json>): map<string, Json> {
    if "annotations" in md && md["annotations"].Object? then
      var ann := md["annotations"].fields - {LastApplied};
      if ann == map[] then md - {"annotations"} else md["annotations" := Object(ann)]
    else md
  }

  function TrimMetadata(md: map<string, Json>): map<string, Json> {
    TrimAnnotations(md - {"managedFields"})
  }

  function TrimOwn(fields: map<string, Json>, stripStatus: bool): map<string, Json> {
    var f := if "metadata" in fields && fields["metadata"].Object?
             then fields["metadata" := Object(TrimMetadata(fields["metadata"].fields))] else fields;
    if stripStatus then f - {"status"} else f
  }

  /** Values other than objects stay as they are. */
  function Trimmed(j: Json, stripStatus: bool): Json
    decreases j
  {
    if !j.Object? then j
    else
      var own := TrimOwn(j.fields, stripStatus);
      if "items" in j.fields && j.fields["items"].Array? then
        var items := j.fields["items"];
        Object(own["items" := Array(seq(|items.elems|, i requires 0 <= i < |items.elems| =>
                                          Trimmed(items.elems[i], stripStatus)))])
      else Object(own)
  }

  // ----- What trimming removes and what it keeps ------------------------------------------------

  datatype Step = Field(name: string) | Index(i: nat)

  /** What is found at a path, without what lies below it. */
  datatype Form = Absent | Leaf(json: Json) | Elements(count: nat) | Fields

  function FormOf(j: Json): Form {
    match j
    case Array(elems) => Elements(|elems|)
    case Object(_) => Fields
    case _ => Leaf(j)
  }

  function At(j: Json, path: seq<Step>): Form
    decreases |path|
  {
    if path == [] then FormOf(j)
    else match path[0]
      case Field(k) => if j.Object? && k in j.fields then At(j.fields[k], path[1..]) else Absent
      case Index(i) => if j.Array? && i < |j.elems| then At(j.elems[i], path[1..]) else Absent
  }

  /** The path leads into what is deleted from the metadata object: annotations go when nothing else is left in them. */
  predicate MetadataHit(md: Json, path: seq<Step>) {
    && md.Object? && path != []
    && (|| path[0] == Field("managedFields")
        || (&& path[0] == Field("annotations") && "annotations" in md.fields && md.fields["annotations"].Object?
            && (|| md.fields["annotations"].fields.Keys <= {"kubectl.kubernetes.io/last-applied-configuration"}
                || (|path| >= 2 && path[1] == Field("kubectl.kubernetes.io/last-applied-configuration")))))
  }

  /** The path runs through nested `items` to an object, and from there into something that is deleted. */
  predicate Hit(j: Json, path: seq<Step>, stripStatus: bool)
    decreases |path|
  {
    && j.Object? && path != []
    && (|| (stripStatus && path[0] == Field("status"))
        || (path[0] == Field("metadata") && "metadata" in j.fields && MetadataHit(j.fields["metadata"], path[1..]))
        || (&& |path| >= 2
            && path[0] == Field("items") && path[1].Index? && "items" in j.fields && j.fields["items"].Array?
            && path[1].i < |j.fields["items"].elems|
            && Hit(j.fields["items"].elems[path[1].i], path[2..], stripStatus)))
  }

  lemma MetadataPaths(md: map<string, Json>, path: seq<Step>)
    ensures At(Object(TrimMetadata(md)), path) == if MetadataHit(Object(md), path) then Absent else At(Object(md), path)
  {
    if path != [] && path[0] == Field("annotations") && "annotations" in md && md["annotations"].Object? {
      var ann := md["annotations"].fields;
      var rest := path[1..];
      var kept := ann - {LastApplied};
      assert kept.Keys == ann.Keys - {LastApplied};
      if ann.Keys <= {LastApplied} {
        assert kept == map[];
      } else {
        var k :| k in ann && k != LastApplied;
        assert k in kept;
      }
      assert At(Object(md), path) == At(Object(ann), rest);
      assert At(Object(kept), rest) ==
             if rest != [] && rest[0] == Field(LastApplied) then Absent else At(Object(ann), rest);
    }
  }

  /**
   For every JSON value and every path: the result has there exactly what was there before, a leaf, an array of that
   length or an object, except that what `Hit` marks is gone. Nothing is added, moved or replaced.
   */
  lemma {:induction false} TrimRemovesExactly(j: Json, path: seq<Step>, stripStatus: bool)
    ensures At(Trimmed(j, stripStatus), path) == if Hit(j, path, stripStatus) then Absent else At(j, path)
    decreases |path|
  {
    if j.Object? && path != [] {
      if path[0] == Field("metadata") && "metadata" in j.fields && j.fields["metadata"].Object? {
        MetadataPaths(j.fields["metadata"].fields, path[1..]);
      } else if path[0] == Field("items") && |path| >= 2 && "items" in j.fields && j.fields["items"].Array? {
        assert path[1..][0] == path[1] && path[1..][1..] == path[2..];
        if path[1].Index? && path[1].i < |j.fields["items"].elems| {
          TrimRemovesExactly(j.fields["items"].elems[path[1].i], path[2..], stripStatus);
        }
      }
    }
  }

  /** `resourceVersion` of an object survives wherever the object does. */
  lemma ResourceVersionKept(j: Json, path: seq<Step>, stripStatus: bool)
    requires !Hit(j, path, stripStatus)
    ensures var version := path + [Field("metadata"), Field("resourceVersion")];
            At(Trimmed(j, stripStatus), version) == At(j, version)
  {
    TrimRemovesExactly(j, path + [Field("metadata"), Field("resourceVersion")], stripStatus);
    HitNotExtended(j, path, stripStatus);
  }

  lemma {:induction false} HitNotExtended(j: Json, path: seq<Step>, stripStatus: bool)
    requires !Hit(j, path, stripStatus)
    ensures !Hit(j, path + [Field("metadata"), Field("resourceVersion")], stripStatus)
    decreases |path|
  {
    var long := path + [Field("metadata"), Field("resourceVersion")];
    if |path| >= 2 && path[0] == Field("items") && path[1].Index? && j.Object? && "items" in j.fields
       && j.fields["items"].Array? && path[1].i < |j.fields["items"].elems| {
      assert long[2..] == path[2..] + [Field("metadata"), Field("resourceVersion")];
      HitNotExtended(j.fields["items"].elems[path[1].i], path[2..], stripStatus);
    } else if |path| == 1 {
      assert long[1..] == [Field("metadata"), Field("resourceVersion")];
    } else if path == [] {
      assert long[1..] == [Field("resourceVersion")];
    }
  }

  lemma TrimOwnIdempotent(fields: map<string, Json>, stripStatus: bool)
    ensures TrimOwn(TrimOwn(fields, stripStatus), stripStatus) == TrimOwn(fields, stripStatus)
  {
    if "metadata" in fields && fields["metadata"].Object? {
      var md := fields["metadata"].fields;
      var t := TrimMetadata(md);
      assert t - {"managedFields"} == t;
      if "annotations" in t && t["annotations"].Object? {
        var ann := t["annotations"].fields;
        assert ann - {LastApplied} == ann;
        assert t["annotations" := Object(ann)] == t;
      }
      assert TrimMetadata(t) == t;
    }
  }

  lemma {:induction false} TrimIdempotent(j: Json, stripStatus: bool)
    ensures Trimmed(Trimmed(j, stripStatus), stripStatus) == Trimmed(j, stripStatus)
    decreases j
  {
    if j.Object? {
      var t := Trimmed(j, stripStatus);
      TrimOwnIdempotent(j.fields, stripStatus);
      if "items" in j.fields && j.fields["items"].Array? {
        var items := j.fields["items"];
        forall i | 0 <= i < |items.elems|
          ensures Trimmed(Trimmed(items.elems[i], stripStatus), stripStatus) == Trimmed(items.elems[i], stripStatus)
        {
          TrimIdempotent(items.elems[i], stripStatus);
        }
        assert TrimOwn(t.fields, stripStatus) == t.fields;
        assert Trimmed(t, stripStatus).fields["items"] == t.fields["items"];
      }
    }
  }
}
