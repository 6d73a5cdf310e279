/** The parser of kube-apiserver paths, a printer for the paths it understands, and how far they are inverse. */
module ApiPath {
  import opened Foundation
  import opened Text

  datatype Request = Request(method_: string, path: string, verb: string, group: string, version: string,
                             kind: string, namespace: string, name: string, isSecret: bool)

  datatype Error =
    | Required
    | UnsupportedPath(path: string)
    | UnsupportedApisPath(path: string)
    | UnsupportedPrefix(prefix: string)

  /** `Panic`: slicing the first character off an empty string. */
  datatype Outcome = Ok(request: Request) | Err(error: Error) | Panic

  // ----- String helpers -------------------------------------------------------------------------

  function UpperChar(c: char): char {
    if 'a' <= c <= 'z' then c - 'a' + 'A' else c
  }

  function LowerChar(c: char): char {
    if 'A' <= c <= 'Z' then c - 'A' + 'a' else c
  }

  function ToUpper(s: string): string {
    seq(|s|, i requires 0 <= i < |s| => UpperChar(s[i]))
  }

  function ToLower(s: string): string {
    seq(|s|, i requires 0 <= i < |s| => LowerChar(s[i]))
  }

  function CutQuery(s: string): string {
    if s == "" || s[0] == '?' then "" else [s[0]] + CutQuery(s[1..])
  }

  function TrimLeftSlashes(s: string): string {
    if s != "" && s[0] == '/' then TrimLeftSlashes(s[1..]) else s
  }

  function TrimRightSlashes(s: string): string {
    if s != "" && s[|s| - 1] == '/' then TrimRightSlashes(s[..|s| - 1]) else s
  }

  /** strings.Split on '/'. */
  function Split(s: string): (parts: seq<string>)
    ensures |parts| >= 1
  {
    if s == "" then [""]
    else if s[0] == '/' then [""] + Split(s[1..])
    else var rest := Split(s[1..]); [[s[0]] + rest[0]] + rest[1..]
  }

  function Join(parts: seq<string>): string
    requires parts != []
  {
    if |parts| == 1 then parts[0] else parts[0] + "/" + Join(parts[1..])
  }

  // ----- The parser -----------------------------------------------------------------------------

  function Verb(method_: string): string {
    if method_ in {"GET", "HEAD"} then "get"
    else if method_ == "POST" then "create"
    else if method_ == "PUT" then "update"
    else if method_ == "PATCH" then "patch"
    else if method_ == "DELETE" then "delete"
    else ToLower(method_)
  }

  /** None where the program panics. */
  function KindOf(resource: string): Option<string> {
    if resource in {"pods", "pod"} then Some("Pod")
    else if resource in {"services", "service"} then Some("Service")
    else if resource in {"configmaps", "configmap"} then Some("ConfigMap")
    else if resource in {"secrets", "secret"} then Some("Secret")
    else if resource in {"events", "event"} then Some("Event")
    else if resource in {"deployments", "deployment"} then Some("Deployment")
    else if resource in {"deploymentconfigs", "deploymentconfig"} then Some("DeploymentConfig")
    else if resource in {"virtualservices", "virtualservice"} then Some("VirtualService")
    else if resource in {"destinationrules", "destinationrule"} then Some("DestinationRule")
    else if resource in {"gateways", "gateway"} then Some("Gateway")
    else if resource in {"authorizationpolicies", "authorizationpolicy"} then Some("AuthorizationPolicy")
    else if resource in {"rolebindings", "rolebinding"} then Some("RoleBinding")
    else if resource in {"roles", "role"} then Some("Role")
    else if resource in {"namespaces", "namespace"} then Some("Namespace")
    else DefaultKind(resource)
  }

  function DefaultKind(resource: string): Option<string> {
    if resource == "" then Some("")
    else
      var r := if resource[|resource| - 1] == 's' then resource[..|resource| - 1] else resource;
      if r == "" then None else Some([UpperChar(r[0])] + r[1..])
  }

  function WithKind(req: Request, resource: string): Outcome {
    match KindOf(resource)
    case None => Panic
    case Some(kind) => Ok(req.(kind := kind, isSecret := req.isSecret || resource == "secrets"))
  }

  function ParseResources(req: Request, parts: seq<string>): Outcome {
    if parts == [] then Ok(req)
    else if parts[0] == "namespaces" then
      if |parts| == 1 then Ok(req.(kind := "Namespace"))
      else if |parts| == 2 then Ok(req.(kind := "Namespace", name := parts[1], namespace := parts[1]))
      else WithKind(req.(namespace := parts[1], name := if |parts| >= 4 then parts[3] else req.name), parts[2])
    else
      match WithKind(req, parts[0])
      case Ok(r) =>
        if |parts| >= 2 && parts[1] == "namespaces" then
          if |parts| < 3 then Ok(r)
          else
            var q := r.(namespace := parts[2], name := if |parts| >= 5 then parts[4] else r.name);
            if |parts| >= 4 then WithKind(q, parts[3]) else Ok(q)
        else Ok(r.(name := if |parts| >= 2 then parts[1] else r.name))
      case failed => failed
  }

  function AddSlash(path: string): string {
    if path != "" && path[0] == '/' then path else "/" + path
  }

  /** What of the path argument reaches the parser proper. */
  function CleanPath(path: string): string {
    CutQuery(AddSlash(TrimSpace(path)))
  }

  function ParseParts(method_: string, path: string, parts: seq<string>): Outcome {
    var req := Request(method_, path, Verb(method_), "", "", "", "", "", false);
    if |parts| < 2 then Err(UnsupportedPath(path))
    else if parts[0] == "api" then ParseResources(req.(version := parts[1]), parts[2..])
    else if parts[0] == "apis" then
      if |parts| < 3 then Err(UnsupportedApisPath(path))
      else ParseResources(req.(group := parts[1], version := parts[2]), parts[3..])
    else Err(UnsupportedPrefix(parts[0]))
  }

  function PathParts(path: string): seq<string> {
    Split(TrimRightSlashes(TrimLeftSlashes(CleanPath(path))))
  }

  function Parse(method_: string, path: string): Outcome {
    if TrimSpace(method_) == "" || TrimSpace(path) == "" then Err(Required)
    else ParseParts(ToUpper(TrimSpace(method_)), CleanPath(path), PathParts(path))
  }

  // ----- Round trip -----------------------------------------------------------------------------

  /** The address of a list (no name) or of an object, at cluster scope (no namespace) or inside a namespace. */
  datatype Address = Address(group: string, version: string, namespace: Option<string>,
                             resource: string, name: Option<string>)

  predicate Segment(s: string) {
    s != "" && '/' !in s && '?' !in s && !IsSpace(s[|s| - 1])
  }

  predicate WellFormed(a: Address) {
    && (a.group == "" || Segment(a.group)) && Segment(a.version) && Segment(a.resource)
    && (a.namespace.Some? ==> Segment(a.namespace.value)) && (a.name.Some? ==> Segment(a.name.value))
  }

  function Tail(a: Address): seq<string> {
    (if a.namespace.Some? then ["namespaces", a.namespace.value] else [])
    + [a.resource] + (if a.name.Some? then [a.name.value] else [])
  }

  function Parts(a: Address): seq<string> {
    (if a.group == "" then ["api"] else ["apis", a.group]) + [a.version] + Tail(a)
  }

  function Print(a: Address): string {
    "/" + Join(Parts(a))
  }

  function Described(a: Address, method_: string, kind: string): Request {
    Request(ToUpper(TrimSpace(method_)), Print(a), Verb(ToUpper(TrimSpace(method_))), a.group, a.version, kind,
            if a.namespace.Some? then a.namespace.value else "", if a.name.Some? then a.name.value else "",
            a.resource == "secrets")
  }

  predicate SegmentsOnly(parts: seq<string>) {
    forall i :: 0 <= i < |parts| ==> Segment(parts[i])
  }

  lemma {:induction false} SplitSegment(s: string, rest: string)
    requires '/' !in s
    ensures Split(s) == [s] && Split(s + "/" + rest) == [s] + Split(rest)
  {
    if s == "" {
      assert s + "/" + rest == "/" + rest && ("/" + rest)[1..] == rest;
    } else {
      assert '/' !in s[1..];
      SplitSegment(s[1..], rest);
      var whole := s + "/" + rest;
      assert whole[1..] == s[1..] + "/" + rest;
      assert [s[0]] + s[1..] == s;
    }
  }

  lemma {:induction false} SplitJoin(parts: seq<string>)
    requires parts != [] && SegmentsOnly(parts)
    ensures Split(Join(parts)) == parts
    ensures Join(parts) != "" && Join(parts)[0] == parts[0][0]
    ensures !IsSpace(Join(parts)[|Join(parts)| - 1]) && Join(parts)[|Join(parts)| - 1] != '/'
    ensures '?' !in Join(parts)
    decreases |parts|
  {
    if |parts| == 1 {
      SplitSegment(parts[0], "");
    } else {
      SplitJoin(parts[1..]);
      SplitSegment(parts[0], Join(parts[1..]));
    }
  }

  lemma {:induction false} CutQueryNone(s: string)
    requires '?' !in s
    ensures CutQuery(s) == s
  {
    if s != "" {
      CutQueryNone(s[1..]);
    }
  }

  lemma SlashesTrimmed(s: string)
    requires s != "" && s[0] != '/' && s[|s| - 1] != '/'
    ensures TrimRightSlashes(TrimLeftSlashes("/" + s)) == s
  {
    assert ("/" + s)[1..] == s && TrimLeftSlashes(s) == s;
  }

  lemma NothingToTrim(s: string)
    requires s != "" && !IsSpace(s[|s| - 1])
    ensures TrimSpace("/" + s) == "/" + s && !IsSpace('/')
  {
    assert ("/" + s)[|s|] == s[|s| - 1];
  }

  lemma PartsAreSegments(a: Address)
    requires WellFormed(a)
    ensures SegmentsOnly(Parts(a)) && Parts(a)[0] in {"api", "apis"}
  {
  }

  /** Segments joined by slashes are what the parser gets to see. */
  lemma JoinedParts(parts: seq<string>)
    requires parts != [] && SegmentsOnly(parts)
    ensures var path := "/" + Join(parts);
            CleanPath(path) == path && TrimSpace(path) != "" && PathParts(path) == parts
  {
    hide IsSpace, TrimSpace, CutQuery, Join, Split, TrimLeftSlashes, TrimRightSlashes;
    var p := Join(parts);
    SplitJoin(parts);
    NothingToTrim(p);
    CutQueryNone("/" + p);
    SlashesTrimmed(p);
  }

  lemma PrintedParts(a: Address)
    requires WellFormed(a)
    ensures CleanPath(Print(a)) == Print(a) && TrimSpace(Print(a)) != "" && PathParts(Print(a)) == Parts(a)
  {
    PartsAreSegments(a);
    hide Parts, CleanPath, PathParts, TrimSpace, SegmentsOnly;
    JoinedParts(Parts(a));
  }

  /** Not a cluster-scoped object called "namespaces", nor a namespace by name, nor the resource "s". */
  predicate Faithful(a: Address) {
    && a.resource != "s"
    && (a.namespace.Some? || ((a.resource == "namespaces" ==> a.name.None?) && a.name != Some("namespaces")))
  }

  lemma OnlySPanics(resource: string)
    requires resource != ""
    ensures KindOf(resource).None? <==> resource == "s"
  {
  }

  lemma TailParses(a: Address, req: Request)
    requires WellFormed(a) && req.name == "" && req.namespace == "" && !req.isSecret
    ensures var done := req.(namespace := if a.namespace.Some? then a.namespace.value else "",
                             name := if a.name.Some? then a.name.value else "",
                             isSecret := a.resource == "secrets");
            (&& KindOf(a.resource).Some?
             && ParseResources(req, Tail(a)) == Ok(done.(kind := KindOf(a.resource).value))) <==> Faithful(a)
  {
    OnlySPanics(a.resource);
    var t := Tail(a);
    if a.namespace.Some? {
      assert t[0] == "namespaces" && t[1] == a.namespace.value && t[2] == a.resource;
      assert a.name.Some? ==> t[3] == a.name.value;
    } else {
      assert t[0] == a.resource && (a.name.Some? ==> t[1] == a.name.value);
    }
  }

  /** For every well-formed address and every method, parsing what was printed gives it back iff `Faithful`. */
  lemma RoundTrip(a: Address, method_: string)
    requires WellFormed(a) && TrimSpace(method_) != ""
    ensures (&& KindOf(a.resource).Some?
             && Parse(method_, Print(a)) == Ok(Described(a, method_, KindOf(a.resource).value))) <==> Faithful(a)
  {
    PrintedParts(a);
    var m := ToUpper(TrimSpace(method_));
    var req := Request(m, Print(a), Verb(m), a.group, a.version, "", "", "", false);
    var parts := Parts(a);
    if a.group == "" {
      assert parts[2..] == Tail(a);
    } else {
      assert parts[3..] == Tail(a);
    }
    TailParses(a, req);
  }

  // ----- Totality -------------------------------------------------------------------------------

  /** The segments the parser maps to a kind, given those after the version. */
  function Mapped(parts: seq<string>): set<string> {
    if parts == [] then {}
    else if parts[0] == "namespaces" then if |parts| >= 3 then {parts[2]} else {}
    else {parts[0]} + if |parts| >= 4 && parts[1] == "namespaces" then {parts[3]} else {}
  }

  function AfterVersion(parts: seq<string>): seq<string> {
    if |parts| >= 2 && parts[0] == "api" then parts[2..]
    else if |parts| >= 3 && parts[0] == "apis" then parts[3..]
    else []
  }

  /** A segment that is mapped to a kind is the single letter "s". */
  predicate Trips(parts: seq<string>) {
    "s" in Mapped(AfterVersion(parts))
  }

  lemma KindOutcome(req: Request, resource: string)
    ensures var r := WithKind(req, resource);
            !r.Err? && (r.Panic? <==> resource == "s") && (r.Ok? ==> r.request.path == req.path)
  {
    if resource != "" {
      OnlySPanics(resource);
    }
  }

  lemma ResourcesOutcome(req: Request, parts: seq<string>)
    ensures var r := ParseResources(req, parts);
            !r.Err? && (r.Panic? <==> "s" in Mapped(parts)) && (r.Ok? ==> r.request.path == req.path)
  {
    forall q: Request, r: string
      ensures !WithKind(q, r).Err? && (WithKind(q, r).Panic? <==> r == "s")
      ensures WithKind(q, r).Ok? ==> WithKind(q, r).request.path == q.path
    {
      KindOutcome(q, r);
    }
    hide WithKind;
  }

  /** The parser panics exactly when a segment it takes for a resource is the letter "s"; it is total otherwise. */
  lemma PanicsIff(method_: string, path: string)
    ensures Parse(method_, path).Panic? <==>
            TrimSpace(method_) != "" && TrimSpace(path) != "" && Trips(PathParts(path))
  {
    hide ParseResources, Split, CleanPath, TrimSpace, TrimLeftSlashes, TrimRightSlashes, Verb, Mapped;
    var parts, m := PathParts(path), ToUpper(TrimSpace(method_));
    var req := Request(m, CleanPath(path), Verb(m), "", "", "", "", "", false);
    if |parts| >= 2 && parts[0] == "api" {
      ResourcesOutcome(req.(version := parts[1]), parts[2..]);
    } else if |parts| >= 3 && parts[0] == "apis" {
      ResourcesOutcome(req.(group := parts[1], version := parts[2]), parts[3..]);
    } else {
      assert Mapped([]) == {} by {
        NothingMapped();
      }
    }
  }

  lemma NothingMapped()
    ensures Mapped([]) == {}
  {
  }

  /** It does so on the printed form of every well-formed address of the resource "s". */
  lemma PrintedPanics(a: Address, method_: string)
    requires WellFormed(a) && TrimSpace(method_) != "" && a.resource == "s"
    ensures Parse(method_, Print(a)).Panic?
  {
    PrintedParts(a);
    PanicsIff(method_, Print(a));
    var parts := Parts(a);
    assert AfterVersion(parts) == Tail(a);
    assert "s" in Mapped(Tail(a));
  }

  // ----- Query strings --------------------------------------------------------------------------

  lemma {:induction false} TrimLeftAppend(s: string, t: string)
    requires TrimLeft(s) != ""
    ensures TrimLeft(s + t) == TrimLeft(s) + t
  {
    if IsSpace(s[0]) {
      assert (s + t)[1..] == s[1..] + t;
      TrimLeftAppend(s[1..], t);
    }
  }

  lemma {:induction false} TrimRightQuery(s: string, q: string)
    ensures TrimRight(s + "?" + q) == s + "?" + TrimRight(q)
    decreases |q|
  {
    var whole := s + "?" + q;
    assert !IsSpace('?');
    if q != "" && IsSpace(q[|q| - 1]) {
      assert whole[..|whole| - 1] == s + "?" + q[..|q| - 1];
      TrimRightQuery(s, q[..|q| - 1]);
    }
  }

  lemma {:induction false} CutQueryAppend(s: string, q: string)
    ensures CutQuery(s + "?" + q) == CutQuery(s)
  {
    var whole := s + "?" + q;
    if s != "" && s[0] != '?' {
      assert whole[1..] == s[1..] + "?" + q;
      CutQueryAppend(s[1..], q);
    }
  }

  lemma {:induction false} CutQueryOfTrimRight(s: string)
    requires '?' in s
    ensures CutQuery(TrimRight(s)) == CutQuery(s) && '?' in TrimRight(s)
    decreases |s|
  {
    if IsSpace(s[|s| - 1]) {
      var init := s[..|s| - 1];
      assert s == init + [s[|s| - 1]] && !IsSpace('?');
      assert '?' in init;
      CutQueryOfTrimRight(init);
      CutQueryPrefix(init, [s[|s| - 1]]);
    }
  }

  lemma {:induction false} CutQueryPrefix(s: string, t: string)
    requires '?' in s
    ensures CutQuery(s + t) == CutQuery(s)
  {
    if s[0] != '?' {
      assert (s + t)[1..] == s[1..] + t;
      CutQueryPrefix(s[1..], t);
    }
  }

  lemma {:induction false} TrimLeftKeepsEnd(s: string)
    ensures TrimLeft(s) != "" ==> s != "" && TrimLeft(s)[|TrimLeft(s)| - 1] == s[|s| - 1]
    ensures s != "" && !IsSpace(s[|s| - 1]) ==> TrimLeft(s) != ""
    ensures '?' in s ==> '?' in TrimLeft(s)
  {
    if s != "" && IsSpace(s[0]) {
      assert !IsSpace('?') && ('?' in s ==> '?' in s[1..]);
      TrimLeftKeepsEnd(s[1..]);
    }
  }

  /** The path with a query appended, cleaned. */
  lemma CleanWithQuery(path: string, q: string)
    requires TrimLeft(path) != ""
    ensures TrimSpace(path + "?" + q) != "" && CleanPath(path + "?" + q) == CutQuery(AddSlash(TrimLeft(path)))
  {
    hide TrimLeft, TrimRight, CutQuery, IsSpace;
    var y := TrimLeft(path);
    TrimLeftAppend(path, "?" + q);
    assert path + "?" + q == path + ("?" + q) && y + ("?" + q) == y + "?" + q;
    TrimRightQuery(y, q);
    var z := TrimRight(q);
    assert y + "?" + z != "" && (y + "?" + z)[0] == y[0];
    assert AddSlash(y + "?" + z) == AddSlash(y) + "?" + z;
    CutQueryAppend(AddSlash(y), z);
  }

  /** A query string appended to a path that does not end in white space, or has a query already, changes nothing. */
  lemma QueryIgnored(method_: string, path: string, q: string)
    requires '?' in path || (path != "" && !IsSpace(path[|path| - 1]))
    ensures Parse(method_, path + "?" + q) == Parse(method_, path)
  {
    var y := TrimLeft(path);
    TrimLeftKeepsEnd(path);
    CleanWithQuery(path, q);
    if '?' in path {
      CutQueryOfTrimRight(y);
      if y[0] != '/' {
        assert ("/" + y)[1..] == y && ("/" + TrimRight(y))[1..] == TrimRight(y);
        assert '?' in "/" + y;
      }
      TrimRightHead(y);
    } else {
      assert TrimRight(y) == y;
    }
  }

  lemma {:induction false} TrimRightHead(s: string)
    ensures TrimRight(s) != "" ==> s != "" && TrimRight(s)[0] == s[0]
    ensures TrimRight(s) != "" ==> !IsSpace(TrimRight(s)[|TrimRight(s)| - 1])
    decreases |s|
  {
    if s != "" && IsSpace(s[|s| - 1]) {
      TrimRightHead(s[..|s| - 1]);
    }
  }

  /** White space at the end is cut off, but not in front of a query. */
  lemma QueryChangesPath(path: string, q: string)
    requires '?' !in path && path != "" && IsSpace(path[|path| - 1]) && TrimLeft(path) != "" && TrimSpace(path) != ""
    ensures CleanPath(path + "?" + q) != CleanPath(path)
  {
    hide TrimLeft, TrimRight, CutQuery, IsSpace;
    var y := TrimLeft(path);
    var z := TrimRight(y);
    TrimLeftKeepsEnd(path);
    CleanWithQuery(path, q);
    TrimRightHead(y);
    TrimLeftNoQuery(path);
    TrimRightNoQuery(y);
    var dirty, clean := AddSlash(y), AddSlash(z);
    CutQueryNone(dirty);
    CutQueryNone(clean);
    assert dirty[|dirty| - 1] == y[|y| - 1] && clean[|clean| - 1] == z[|z| - 1];
  }

  // ----- Exactly when a query is ignored ---------------------------------------------------------

  /** The segments when white space is cut off in front only. */
  function Untrimmed(path: string): seq<string> {
    Split(TrimRightSlashes(TrimLeftSlashes(AddSlash(TrimLeft(path)))))
  }

  /** Neither of the two prefixes the parser knows, which is all its error reports. */
  predicate OddPrefix(parts: seq<string>) {
    |parts| >= 2 && parts[0] !in {"api", "apis"}
  }

  lemma {:induction false} SplitFirst(s: string, t: string)
    requires '/' in s
    ensures |Split(s)| >= 2 && |Split(s + t)| >= 2 && Split(s + t)[0] == Split(s)[0]
  {
    assert (s + t)[1..] == s[1..] + t;
    if s[0] != '/' {
      SplitFirst(s[1..], t);
    }
  }

  lemma {:induction false} TrimLeftSlashesAppend(s: string, t: string)
    requires TrimLeftSlashes(s) != ""
    ensures TrimLeftSlashes(s + t) == TrimLeftSlashes(s) + t
  {
    if s[0] == '/' {
      assert (s + t)[1..] == s[1..] + t;
      TrimLeftSlashesAppend(s[1..], t);
    }
  }

  lemma {:induction false} TrimRightSlashesPrefix(s: string)
    ensures TrimRightSlashes(s) <= s
    decreases |s|
  {
    if s != "" && s[|s| - 1] == '/' {
      TrimRightSlashesPrefix(s[..|s| - 1]);
    }
  }

  lemma {:induction false} TrimRightPrefix(s: string)
    ensures TrimRight(s) <= s
    decreases |s|
  {
    if s != "" && IsSpace(s[|s| - 1]) {
      TrimRightPrefix(s[..|s| - 1]);
    }
  }

  /** White space behind a text with two segments or more leaves its first segment alone. */
  lemma FirstSegmentKept(s: string, spaces: string)
    requires spaces != "" && spaces[|spaces| - 1] != '/'
    requires |Split(TrimRightSlashes(TrimLeftSlashes(s)))| >= 2
    ensures var before := Split(TrimRightSlashes(TrimLeftSlashes(s)));
            var after := Split(TrimRightSlashes(TrimLeftSlashes(s + spaces)));
            |after| >= 2 && after[0] == before[0]
  {
    var x := TrimLeftSlashes(s);
    var y := TrimRightSlashes(x);
    TrimRightSlashesPrefix(x);
    if '/' !in y {
      SplitSegment(y, "");
    }
    assert x == y + x[|y|..];
    SplitFirst(y, x[|y|..]);
    SplitFirst(x, spaces);
    TrimLeftSlashesAppend(s, spaces);
    assert (x + spaces)[|x + spaces| - 1] == spaces[|spaces| - 1];
  }

  /** What is parsed when a query is appended to a path without one. */
  lemma ParseWithQuery(method_: string, path: string, q: string)
    requires '?' !in path && TrimSpace(path) != "" && TrimSpace(method_) != ""
    ensures Parse(method_, path + "?" + q) ==
            ParseParts(ToUpper(TrimSpace(method_)), AddSlash(TrimLeft(path)), Untrimmed(path))
  {
    hide TrimRight, IsSpace, CutQuery, ParseParts, Split, TrimLeftSlashes, TrimRightSlashes, ToUpper;
    assert TrimLeft(path) != "" by {
      NotBlank(path);
    }
    CleanWithQuery(path, q);
    TrimLeftNoQuery(path);
    CutQueryNone(AddSlash(TrimLeft(path)));
  }

  lemma NotBlank(path: string)
    requires TrimSpace(path) != ""
    ensures TrimLeft(path) != ""
  {
  }

  /** What trimming leaves of a text without a query, and the white space it cuts off behind. */
  lemma TrailingSpaces(path: string) returns (spaces: string)
    requires '?' !in path && TrimSpace(path) != "" && IsSpace(path[|path| - 1])
    ensures spaces != "" && IsSpace(spaces[|spaces| - 1])
    ensures CleanPath(path) == AddSlash(TrimSpace(path)) && AddSlash(TrimLeft(path)) == CleanPath(path) + spaces
  {
    NotBlank(path);
    hide IsSpace, TrimLeft, TrimRight, CutQuery;
    var y := TrimLeft(path);
    var z := TrimRight(y);
    TrimRightPrefix(y);
    TrimRightHead(y);
    TrimLeftKeepsEnd(path);
    TrimLeftNoQuery(path);
    TrimRightNoQuery(y);
    CutQueryNone(AddSlash(z));
    spaces := y[|z|..];
    SlashKept(z, spaces);
    assert y == z + spaces;
    hide AddSlash;
    assert spaces != "" by {
      assert z != y;
    }
  }

  lemma SlashKept(s: string, t: string)
    requires s != ""
    ensures AddSlash(s + t) == AddSlash(s) + t
  {
    assert (s + t)[0] == s[0] && "/" + (s + t) == ("/" + s) + t;
  }

  lemma PrefixKept(path: string)
    requires '?' !in path && TrimSpace(path) != "" && IsSpace(path[|path| - 1]) && |PathParts(path)| >= 2
    ensures |Untrimmed(path)| >= 2 && Untrimmed(path)[0] == PathParts(path)[0]
  {
    assert !IsSpace('/');
    hide IsSpace, TrimLeft, CleanPath, Split, TrimLeftSlashes, TrimRightSlashes, AddSlash;
    var spaces := TrailingSpaces(path);
    FirstSegmentKept(CleanPath(path), spaces);
  }

  /** Two parses that record different paths agree only on an unknown prefix or in a panic. */
  lemma AgreeIff(method_: string, p: string, q: string, parts: seq<string>, others: seq<string>)
    requires p != q && (|parts| >= 2 ==> |others| >= 2 && others[0] == parts[0])
    ensures ParseParts(method_, p, parts) == ParseParts(method_, q, others) <==>
            OddPrefix(parts) || (Trips(parts) && Trips(others))
  {
    PartsOutcome(method_, p, parts);
    PartsOutcome(method_, q, others);
    hide ParseParts, Trips;
  }

  /** Every result but the complaint about the prefix tells the path, or is a panic. */
  lemma PartsOutcome(method_: string, path: string, parts: seq<string>)
    ensures var r := ParseParts(method_, path, parts);
            match r
            case Ok(request) => request.path == path && !OddPrefix(parts) && !Trips(parts)
            case Panic => Trips(parts) && !OddPrefix(parts)
            case Err(UnsupportedPrefix(prefix)) => OddPrefix(parts) && prefix == parts[0] && !Trips(parts)
            case Err(UnsupportedPath(it)) => it == path && !OddPrefix(parts) && !Trips(parts)
            case Err(UnsupportedApisPath(it)) => it == path && !OddPrefix(parts) && !Trips(parts)
            case Err(Required) => false
  {
    hide ParseResources, Verb, Mapped;
    NothingMapped();
    var req := Request(method_, path, Verb(method_), "", "", "", "", "", false);
    if |parts| >= 2 && parts[0] == "api" {
      ResourcesOutcome(req.(version := parts[1]), parts[2..]);
    } else if |parts| >= 3 && parts[0] == "apis" {
      ResourcesOutcome(req.(group := parts[1], version := parts[2]), parts[3..]);
    }
  }

  lemma {:induction false} BlankThenQuery(s: string, q: string)
    requires TrimLeft(s) == ""
    ensures TrimLeft(s + "?" + q) == "?" + q
  {
    if s == "" {
      assert s + "?" + q == "?" + q && !IsSpace('?');
    } else {
      assert (s + "?" + q)[1..] == s[1..] + "?" + q;
      BlankThenQuery(s[1..], q);
    }
  }

  lemma BlankPathSeen(method_: string, path: string, q: string)
    requires TrimSpace(path) == "" && TrimSpace(method_) != ""
    ensures Parse(method_, path + "?" + q) != Parse(method_, path) == Err(Required)
  {
    hide TrimLeft, TrimRight, ParseParts, CleanPath, Split, ToUpper;
    if TrimLeft(path) == "" {
      BlankThenQuery(path, q);
      TrimRightQuery("", q);
      assert "" + "?" + q == "?" + q;
    } else {
      CleanWithQuery(path, q);
    }
    var whole := path + "?" + q;
    PartsOutcome(ToUpper(TrimSpace(method_)), CleanPath(whole), PathParts(whole));
  }

  /** No white space at the end, or a query already, or a result that does not depend on that white space. */
  predicate QuerySafe(path: string) {
    '?' in path ||
    (&& TrimSpace(path) != "" && path != ""
     && (|| !IsSpace(path[|path| - 1])
         || OddPrefix(PathParts(path))
         || (Trips(PathParts(path)) && Trips(Untrimmed(path)))))
  }

  /** For every method and every path at all. */
  lemma QueryIgnoredIff(method_: string, path: string, q: string)
    ensures Parse(method_, path + "?" + q) == Parse(method_, path) <==> TrimSpace(method_) == "" || QuerySafe(path)
  {
    hide CleanPath, PathParts, Untrimmed, TrimSpace, IsSpace, ParseParts, Trips, OddPrefix;
    if TrimSpace(method_) == "" {
    } else if '?' in path {
      QueryIgnored(method_, path, q);
    } else if TrimSpace(path) == "" {
      BlankPathSeen(method_, path, q);
    } else {
      NonEmpty(path);
      if !IsSpace(path[|path| - 1]) {
        QueryIgnored(method_, path, q);
      } else {
        TrailingSpaceIff(method_, path, q);
      }
    }
  }

  lemma NonEmpty(path: string)
    requires TrimSpace(path) != ""
    ensures path != ""
  {
  }

  lemma TrailingSpaceIff(method_: string, path: string, q: string)
    requires TrimSpace(path) != "" && TrimSpace(method_) != ""
    requires '?' !in path && path != "" && IsSpace(path[|path| - 1])
    ensures Parse(method_, path + "?" + q) == Parse(method_, path) <==>
            OddPrefix(PathParts(path)) || (Trips(PathParts(path)) && Trips(Untrimmed(path)))
  {
    NotBlank(path);
    hide PathParts, Untrimmed, TrimSpace, IsSpace, ParseParts, Trips, OddPrefix, ToUpper, TrimLeft, TrimRight, CutQuery;
    ParseWithQuery(method_, path, q);
    QueryChangesPath(path, q);
    CleanWithQuery(path, q);
    TrimLeftNoQuery(path);
    CutQueryNone(AddSlash(TrimLeft(path)));
    if |PathParts(path)| >= 2 {
      PrefixKept(path);
    }
    AgreeIff(ToUpper(TrimSpace(method_)), CleanPath(path), AddSlash(TrimLeft(path)), PathParts(path), Untrimmed(path));
  }

  lemma SpaceCutOff(s: string)
    requires TrimSpace(s) == s != ""
    ensures TrimSpace(s + " ") == s
  {
    assert (s + " ")[..|s|] == s && IsSpace(' ');
    TrimLeftAppend(s, " ");
    TrimLeftKeepsEnd(s);
  }

  /** A space behind a printed path is cut off, but a query behind that space makes it part of the last segment. */
  lemma SpaceBeforeQuery(a: Address, method_: string, q: string)
    requires WellFormed(a) && Faithful(a) && TrimSpace(method_) != ""
    ensures Parse(method_, Print(a) + " ") == Parse(method_, Print(a)) != Parse(method_, Print(a) + " " + "?" + q)
  {
    var path := Print(a) + " ";
    PrintedTrimmed(a);
    SpaceCutOff(Print(a));
    RoundTrip(a, method_);
    PanicsIff(method_, path);
    PrintedParts(a);
    QueryIgnoredIff(method_, path, q);
    PartsAreSegments(a);
    assert IsSpace(path[|path| - 1]) && PathParts(path) == Parts(a);
  }

  lemma PrintedTrimmed(a: Address)
    requires WellFormed(a)
    ensures TrimSpace(Print(a)) == Print(a) != "" && '?' !in Print(a)
  {
    PartsAreSegments(a);
    hide IsSpace, TrimSpace, Join, Split, Parts;
    SplitJoin(Parts(a));
    NothingToTrim(Join(Parts(a)));
  }

  lemma {:induction false} TrimLeftNoQuery(s: string)
    requires '?' !in s
    ensures '?' !in TrimLeft(s)
  {
    if s != "" && IsSpace(s[0]) {
      TrimLeftNoQuery(s[1..]);
    }
  }

  lemma {:induction false} TrimRightNoQuery(s: string)
    requires '?' !in s
    ensures '?' !in TrimRight(s)
    decreases |s|
  {
    if s != "" && IsSpace(s[|s| - 1]) {
      TrimRightNoQuery(s[..|s| - 1]);
    }
  }

  // ----- Verbs and kinds ------------------------------------------------------------------------

  /** The resources whose kind is written in two words. */
  function Known(resource: string): Option<string> {
    match resource
    case "configmaps" => Some("ConfigMap")
    case "configmap" => Some("ConfigMap")
    case "deploymentconfigs" => Some("DeploymentConfig")
    case "deploymentconfig" => Some("DeploymentConfig")
    case "virtualservices" => Some("VirtualService")
    case "virtualservice" => Some("VirtualService")
    case "destinationrules" => Some("DestinationRule")
    case "destinationrule" => Some("DestinationRule")
    case "authorizationpolicies" => Some("AuthorizationPolicy")
    case "authorizationpolicy" => Some("AuthorizationPolicy")
    case "rolebindings" => Some("RoleBinding")
    case "rolebinding" => Some("RoleBinding")
    case _ => None
  }

  /** The name with a capital letter and without a final "s". */
  function Capitalised(resource: string): string
    requires resource != "" && resource != "s"
  {
    var bare := if resource[|resource| - 1] == 's' then resource[..|resource| - 1] else resource;
    ToUpper(bare[..1]) + bare[1..]
  }

  lemma Regular(c: char, rest: string, kind: string, resource: string)
    requires rest != "" && rest[|rest| - 1] != 's' && kind == [UpperChar(c)] + rest
    requires resource == [c] + rest || resource == [c] + rest + "s"
    ensures resource != "s" && Capitalised(resource) == kind
  {
    var bare := [c] + rest;
    assert resource == bare + "s" ==> resource[..|resource| - 1] == bare;
    assert bare[..1] == [c] && bare[1..] == rest && ToUpper([c]) == [UpperChar(c)];
  }

  lemma SpelledCore()
    ensures Capitalised("pod") == "Pod" == Capitalised("pods")
    ensures Capitalised("service") == "Service" == Capitalised("services")
    ensures Capitalised("secret") == "Secret" == Capitalised("secrets")
    ensures Capitalised("event") == "Event" == Capitalised("events")
  {
    hide Capitalised;
    Regular('p', "od", "Pod", "pod");
    Regular('p', "od", "Pod", "pods");
    Regular('s', "ervice", "Service", "service");
    Regular('s', "ervice", "Service", "services");
    Regular('s', "ecret", "Secret", "secret");
    Regular('s', "ecret", "Secret", "secrets");
    Regular('e', "vent", "Event", "event");
    Regular('e', "vent", "Event", "events");
  }

  lemma SpelledOthers()
    ensures Capitalised("deployment") == "Deployment" == Capitalised("deployments")
    ensures Capitalised("gateway") == "Gateway" == Capitalised("gateways")
    ensures Capitalised("role") == "Role" == Capitalised("roles")
    ensures Capitalised("namespace") == "Namespace" == Capitalised("namespaces")
  {
    hide Capitalised;
    Regular('d', "eployment", "Deployment", "deployment");
    Regular('d', "eployment", "Deployment", "deployments");
    Regular('g', "ateway", "Gateway", "gateway");
    Regular('g', "ateway", "Gateway", "gateways");
    Regular('r', "ole", "Role", "role");
    Regular('r', "ole", "Role", "roles");
    Regular('n', "amespace", "Namespace", "namespace");
    Regular('n', "amespace", "Namespace", "namespaces");
  }

  lemma RegularKinds(resource: string)
    requires resource != "" && resource != "s" && Known(resource).None? && KindOf(resource) != DefaultKind(resource)
    ensures KindOf(resource) == Some(Capitalised(resource))
  {
    hide Capitalised, DefaultKind;
    SpelledCore();
    SpelledOthers();
  }

  /** Two-word kinds are spelled out; the kind of every other resource is its name, capitalised, in the singular. */
  lemma KindByRule(resource: string)
    requires resource != "" && resource != "s"
    ensures KindOf(resource) == if Known(resource).Some? then Known(resource) else Some(Capitalised(resource))
  {
    if Known(resource).None? && KindOf(resource) == DefaultKind(resource) {
      var bare := if resource[|resource| - 1] == 's' then resource[..|resource| - 1] else resource;
      assert ToUpper(bare[..1]) == [UpperChar(bare[0])];
    } else if Known(resource).None? {
      RegularKinds(resource);
    }
  }

  /** What a caller reads from the printed path of a faithful address, method by method. */
  lemma ReadsVerb(a: Address, method_: string)
    requires WellFormed(a) && Faithful(a) && TrimSpace(method_) != ""
    ensures var r, m := Parse(method_, Print(a)), ToUpper(TrimSpace(method_));
            && r.Ok? && r.request.method_ == m && r.request.path == Print(a)
            && (m == "GET" || m == "HEAD" ==> r.request.verb == "get")
            && (m == "POST" ==> r.request.verb == "create") && (m == "PUT" ==> r.request.verb == "update")
            && (m == "PATCH" ==> r.request.verb == "patch") && (m == "DELETE" ==> r.request.verb == "delete")
            && (m !in {"GET", "HEAD", "POST", "PUT", "PATCH", "DELETE"} ==> r.request.verb == ToLower(m))
  {
    RoundTrip(a, method_);
    hide Parse, Print, ToUpper, TrimSpace, ToLower, KindOf;
  }

  /** A namespace by name is both the name and the namespace of the request. */
  lemma NamespaceByName(method_: string, version: string, name: string)
    requires TrimSpace(method_) != "" && Segment(version) && Segment(name)
    ensures var path, m := "/" + Join(["api", version, "namespaces", name]), ToUpper(TrimSpace(method_));
            Parse(method_, path) == Ok(Request(m, path, Verb(m), "", version, "Namespace", name, name, false))
  {
    var parts := ["api", version, "namespaces", name];
    JoinedParts(parts);
    assert parts[2..] == ["namespaces", name];
    hide Join, CleanPath, PathParts, TrimSpace, ToUpper, Verb;
  }

  /** With a resource in front of the namespace, the last resource names the kind and either makes it a secret. */
  lemma ResourceFirst(method_: string, version: string, outer: string, ns: string, resource: string, name: string)
    requires TrimSpace(method_) != "" && Segment(version) && Segment(outer) && Segment(ns) && Segment(resource)
    requires Segment(name) && outer != "namespaces" && outer != "s" && resource != "s"
    ensures KindOf(resource).Some?
    ensures var path := "/" + Join(["api", version, outer, "namespaces", ns, resource, name]);
            var m, kind := ToUpper(TrimSpace(method_)), KindOf(resource).value;
            var secret := outer == "secrets" || resource == "secrets";
            Parse(method_, path) == Ok(Request(m, path, Verb(m), "", version, kind, ns, name, secret))
  {
    var parts := ["api", version, outer, "namespaces", ns, resource, name];
    JoinedParts(parts);
    assert parts[2..] == [outer, "namespaces", ns, resource, name];
    hide Join, CleanPath, PathParts, TrimSpace, ToUpper, Verb, KindOf, ParseResources;
    var m := ToUpper(TrimSpace(method_));
    var req := Request(m, "/" + Join(parts), Verb(m), "", version, "", "", "", false);
    ResourceFirstParts(req, outer, ns, resource, name);
  }

  lemma ResourceFirstParts(req: Request, outer: string, ns: string, resource: string, name: string)
    requires outer != "" && outer != "namespaces" && outer != "s" && resource != "" && resource != "s" && !req.isSecret
    ensures KindOf(resource).Some?
    ensures ParseResources(req, [outer, "namespaces", ns, resource, name]) ==
            Ok(req.(namespace := ns, name := name, kind := KindOf(resource).value,
                    isSecret := outer == "secrets" || resource == "secrets"))
  {
    OnlySPanics(outer);
    OnlySPanics(resource);
    hide KindOf;
  }
}
