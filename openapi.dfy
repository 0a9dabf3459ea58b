/** Endpoint extraction from an OpenAPI document given as a decoded JSON
    object (the dictionary form; the Paths Object and Path Item Object of
    sections 4.7.8 and 4.7.9 of the OpenAPI Specification 3.0.3): one
    endpoint per operation under one of seven HTTP method keys, sorted by
    path and then method. */
module OpenApi {
  import opened Wrappers
  import opened Json
  import Text
  import Seqs

  /** `EndpointInfo`. A dataclass does not check its field types, so the
      fields hold whatever JSON value the document has; Python's `None` and
      JSON `null` are one value, so an absent description or operation id
      is `Null`. */
  datatype EndpointInfo = EndpointInfo(
    httpMethod: string,
    path: string,
    summary: Value,
    description: Value,
    operationId: Value)

  /** The recognised method keys; `trace` is not among them. */
  const HttpMethods: seq<string> := ["get", "post", "put", "delete", "patch", "head", "options"]
  const UpperMethods: seq<string> := ["GET", "POST", "PUT", "DELETE", "PATCH", "HEAD", "OPTIONS"]

  /** Whether an entry of a path item is an operation that yields an
      endpoint. A key is recognised when its lower-case form is one of the
      seven methods; `str.lower` reaches those ASCII words only from ASCII
      letters, so ASCII case folding decides it exactly. */
  predicate IsOperation(entry: (string, Value))
  {
    Text.AsciiLower(entry.0) in HttpMethods && entry.1.Obj?
  }

  /** The endpoint built from an operation entry. */
  function MakeEndpoint(path: string, key: string, operation: Value): EndpointInfo
  {
    EndpointInfo(
      Text.AsciiUpper(key),
      path,
      Get(operation, "summary").GetOr(Str("")),
      Get(operation, "description").GetOr(Null),
      Get(operation, "operationId").GetOr(Null))
  }

  /** A missing summary becomes the empty string, a missing description or
      operation id becomes null, and a present field is copied from the
      operation's first member of that name. */
  lemma EndpointDefaults(path: string, key: string, operation: Value, field: string)
    requires operation.Obj?
    requires field in {"summary", "description", "operationId"}
    ensures var e := MakeEndpoint(path, key, operation);
      var got := if field == "summary" then e.summary
                 else if field == "description" then e.description
                 else e.operationId;
      && e.path == path
      && e.httpMethod == Text.AsciiUpper(key)
      && ((forall i :: 0 <= i < |operation.members| ==> operation.members[i].0 != field) ==>
            got == (if field == "summary" then Str("") else Null))
      && (forall i :: 0 <= i < |operation.members| && FirstNamed(operation.members, field, i) ==>
            got == operation.members[i].1)
  {
    forall i | 0 <= i < |operation.members| && FirstNamed(operation.members, field, i)
      ensures Lookup(operation.members, field) == Some(operation.members[i].1)
    {
      LookupFirst(operation.members, field, i);
    }
  }

  /** The endpoints of one path item, in key order. */
  function ItemEndpoints(path: string, entries: seq<(string, Value)>): (r: seq<EndpointInfo>)
    ensures forall k :: 0 <= k < |r| ==> r[k].path == path
    decreases |entries|
  {
    if entries == [] then []
    else
      var last := entries[|entries| - 1];
      ItemEndpoints(path, entries[..|entries| - 1])
        + (if IsOperation(last) then [MakeEndpoint(path, last.0, last.1)] else [])
  }

  /** A path's endpoints; a path item that is not an object is skipped. */
  function PathEndpoints(path: string, item: Value): seq<EndpointInfo>
  {
    if item.Obj? then ItemEndpoints(path, item.members) else []
  }

  /** All endpoints in document order, before sorting. */
  function Collect(paths: seq<(string, Value)>): seq<EndpointInfo>
    decreases |paths|
  {
    if paths == [] then []
    else
      var last := paths[|paths| - 1];
      Collect(paths[..|paths| - 1]) + PathEndpoints(last.0, last.1)
  }

  /** The number of qualifying (path item, method, operation) triples,
      counted independently of how endpoints are built. */
  function PathOperationCount(item: Value): nat
  {
    if item.Obj? then Seqs.Count(item.members, IsOperation) else 0
  }

  function OperationCount(paths: seq<(string, Value)>): nat
    decreases |paths|
  {
    if paths == [] then 0
    else OperationCount(paths[..|paths| - 1]) + PathOperationCount(paths[|paths| - 1].1)
  }

  lemma {:induction false} ItemEndpointsCount(path: string, entries: seq<(string, Value)>)
    ensures |ItemEndpoints(path, entries)| == Seqs.Count(entries, IsOperation)
    decreases |entries|
  {
    if entries != [] {
      var init := entries[..|entries| - 1];
      ItemEndpointsCount(path, init);
      assert entries == init + [entries[|entries| - 1]];
      Seqs.CountAppend(init, [entries[|entries| - 1]], IsOperation);
    }
  }

  /** One endpoint per qualifying triple. */
  lemma {:induction false} CollectCount(paths: seq<(string, Value)>)
    ensures |Collect(paths)| == OperationCount(paths)
    decreases |paths|
  {
    if paths != [] {
      CollectCount(paths[..|paths| - 1]);
      var last := paths[|paths| - 1];
      if last.1.Obj? {
        ItemEndpointsCount(last.0, last.1.members);
      }
    }
  }

  /** Entry builds endpoint e of the given path. */
  predicate Builds(path: string, entry: (string, Value), e: EndpointInfo)
  {
    IsOperation(entry) && e == MakeEndpoint(path, entry.0, entry.1)
  }

  ghost predicate ItemBuilds(path: string, entries: seq<(string, Value)>, e: EndpointInfo)
  {
    exists j :: 0 <= j < |entries| && Builds(path, entries[j], e)
  }

  /** An endpoint is collected exactly when some operation entry of some
      path item that is an object builds it. */
  ghost predicate FromDocument(e: EndpointInfo, paths: seq<(string, Value)>)
  {
    exists i :: 0 <= i < |paths| && paths[i].1.Obj? && ItemBuilds(paths[i].0, paths[i].1.members, e)
  }

  lemma {:induction false} ItemEndpointsSound(path: string, entries: seq<(string, Value)>, e: EndpointInfo)
    requires e in ItemEndpoints(path, entries)
    ensures ItemBuilds(path, entries, e)
    decreases |entries|
  {
    var init := entries[..|entries| - 1];
    var last := entries[|entries| - 1];
    if e in ItemEndpoints(path, init) {
      ItemEndpointsSound(path, init, e);
      var j :| 0 <= j < |init| && Builds(path, init[j], e);
      assert entries[j] == init[j];
    } else {
      assert Builds(path, entries[|entries| - 1], e);
    }
  }

  lemma {:induction false} ItemEndpointsComplete(path: string, entries: seq<(string, Value)>, j: nat, e: EndpointInfo)
    requires j < |entries| && Builds(path, entries[j], e)
    ensures e in ItemEndpoints(path, entries)
    decreases |entries|
  {
    var init := entries[..|entries| - 1];
    if j < |init| {
      assert init[j] == entries[j];
      ItemEndpointsComplete(path, init, j, e);
    }
  }

  lemma ItemEndpointsMembers(path: string, entries: seq<(string, Value)>, e: EndpointInfo)
    ensures e in ItemEndpoints(path, entries) <==> ItemBuilds(path, entries, e)
  {
    if e in ItemEndpoints(path, entries) {
      ItemEndpointsSound(path, entries, e);
    }
    if ItemBuilds(path, entries, e) {
      var j :| 0 <= j < |entries| && Builds(path, entries[j], e);
      ItemEndpointsComplete(path, entries, j, e);
    }
  }

  lemma {:induction false} CollectSound(paths: seq<(string, Value)>, e: EndpointInfo)
    requires e in Collect(paths)
    ensures FromDocument(e, paths)
    decreases |paths|
  {
    var init := paths[..|paths| - 1];
    var last := paths[|paths| - 1];
    if e in Collect(init) {
      CollectSound(init, e);
      var i :| 0 <= i < |init| && init[i].1.Obj? && ItemBuilds(init[i].0, init[i].1.members, e);
      assert paths[i] == init[i];
    } else {
      ItemEndpointsSound(last.0, last.1.members, e);
      assert paths[|paths| - 1] == last;
    }
  }

  /** Whatever one path item contributes is collected. */
  lemma {:induction false} CollectHas(paths: seq<(string, Value)>, i: nat, e: EndpointInfo)
    requires i < |paths| && e in PathEndpoints(paths[i].0, paths[i].1)
    ensures e in Collect(paths)
    decreases |paths|
  {
    var init := paths[..|paths| - 1];
    var last := paths[|paths| - 1];
    var front := Collect(init);
    var back := PathEndpoints(last.0, last.1);
    assert Collect(paths) == front + back;
    if i < |init| {
      assert init[i] == paths[i];
      CollectHas(init, i, e);
      assert e in front;
    } else {
      assert paths[i] == last;
      assert e in back;
    }
  }

  lemma CollectComplete(paths: seq<(string, Value)>, i: nat, j: nat, e: EndpointInfo)
    requires i < |paths| && paths[i].1.Obj?
    requires j < |paths[i].1.members| && Builds(paths[i].0, paths[i].1.members[j], e)
    ensures e in Collect(paths)
  {
    ItemEndpointsComplete(paths[i].0, paths[i].1.members, j, e);
    CollectHas(paths, i, e);
  }

  lemma CollectMembers(paths: seq<(string, Value)>, e: EndpointInfo)
    ensures e in Collect(paths) <==> FromDocument(e, paths)
  {
    if e in Collect(paths) {
      CollectSound(paths, e);
    }
    if FromDocument(e, paths) {
      var i :| 0 <= i < |paths| && paths[i].1.Obj? && ItemBuilds(paths[i].0, paths[i].1.members, e);
      var j :| 0 <= j < |paths[i].1.members| && Builds(paths[i].0, paths[i].1.members[j], e);
      CollectComplete(paths, i, j, e);
    }
  }

  lemma UpperOfLower(s: string)
    ensures Text.AsciiUpper(Text.AsciiLower(s)) == Text.AsciiUpper(s)
  {
  }

  /** A recognised key is reported as one of the seven upper-case names. */
  lemma RecognisedMethodUpper(key: string)
    requires Text.AsciiLower(key) in HttpMethods
    ensures Text.AsciiUpper(key) in UpperMethods
  {
    UpperOfLower(key);
    var m := Text.AsciiLower(key);
    assert Text.AsciiUpper("get") == "GET";
    assert Text.AsciiUpper("post") == "POST";
    assert Text.AsciiUpper("put") == "PUT";
    assert Text.AsciiUpper("delete") == "DELETE";
    assert Text.AsciiUpper("patch") == "PATCH";
    assert Text.AsciiUpper("head") == "HEAD";
    assert Text.AsciiUpper("options") == "OPTIONS";
  }

  // ---------------------------------------------------------------------
  // Ordering by (path, method) and the stable sort
  // ---------------------------------------------------------------------

  /** Python's tuple order on `(x.path, x.httpMethod)`. */
  predicate KeyLt(a: EndpointInfo, b: EndpointInfo)
  {
    Text.StrLt(a.path, b.path) || (a.path == b.path && Text.StrLt(a.httpMethod, b.httpMethod))
  }

  predicate SameKey(a: EndpointInfo, b: EndpointInfo)
  {
    a.path == b.path && a.httpMethod == b.httpMethod
  }

  /** No later element has a smaller key than an earlier one. */
  predicate Sorted(s: seq<EndpointInfo>)
  {
    forall i, j :: 0 <= i < j < |s| ==> !KeyLt(s[j], s[i])
  }

  lemma KeyLtIrreflexive(a: EndpointInfo)
    ensures !KeyLt(a, a)
  {
    Text.StrLtIrreflexive(a.path);
    Text.StrLtIrreflexive(a.httpMethod);
  }

  lemma KeyLtTransitive(a: EndpointInfo, b: EndpointInfo, c: EndpointInfo)
    requires KeyLt(a, b) && KeyLt(b, c)
    ensures KeyLt(a, c)
  {
    if Text.StrLt(a.path, b.path) && Text.StrLt(b.path, c.path) {
      Text.StrLtTransitive(a.path, b.path, c.path);
    } else if a.path == b.path && b.path == c.path {
      Text.StrLtTransitive(a.httpMethod, b.httpMethod, c.httpMethod);
    }
  }

  lemma KeyLtTotal(a: EndpointInfo, b: EndpointInfo)
    ensures SameKey(a, b) || KeyLt(a, b) || KeyLt(b, a)
  {
    Text.StrLtTotal(a.path, b.path);
    Text.StrLtTotal(a.httpMethod, b.httpMethod);
  }

  lemma KeyLtAsymmetric(a: EndpointInfo, b: EndpointInfo)
    requires KeyLt(a, b)
    ensures !KeyLt(b, a) && !SameKey(a, b)
  {
    if KeyLt(b, a) {
      KeyLtTransitive(a, b, a);
      KeyLtIrreflexive(a);
    }
    if SameKey(a, b) {
      KeyLtIrreflexive(a);
    }
  }

  /** Inserts x after every element whose key is not larger, so that an
      element inserted later stays behind equal keys. */
  function Insert(x: EndpointInfo, s: seq<EndpointInfo>): (r: seq<EndpointInfo>)
    ensures multiset(r) == multiset(s) + multiset{x}
    ensures |r| == |s| + 1
    decreases |s|
  {
    if s == [] then [x]
    else if KeyLt(x, s[0]) then [x] + s
    else
      assert s == [s[0]] + s[1..];
      [s[0]] + Insert(x, s[1..])
  }

  /** `list.sort` with `key=lambda x: (x.path, x.httpMethod)`: a stable sort,
      given here as insertion of each element in turn. */
  function SortByKey(s: seq<EndpointInfo>): seq<EndpointInfo>
    decreases |s|
  {
    if s == [] then [] else Insert(s[|s| - 1], SortByKey(s[..|s| - 1]))
  }

  lemma {:induction false} InsertSorted(x: EndpointInfo, s: seq<EndpointInfo>)
    requires Sorted(s)
    ensures Sorted(Insert(x, s))
    decreases |s|
  {
    if s != [] {
      if KeyLt(x, s[0]) {
        var r := [x] + s;
        forall i, j | 0 <= i < j < |r|
          ensures !KeyLt(r[j], r[i])
        {
          if i == 0 {
            if j > 1 {
              if KeyLt(s[j - 1], x) {
                KeyLtTransitive(s[j - 1], x, s[0]);
              }
            } else {
              KeyLtAsymmetric(x, s[0]);
            }
          }
        }
      } else {
        InsertSorted(x, s[1..]);
        var t := Insert(x, s[1..]);
        var r := [s[0]] + t;
        forall i, j | 0 <= i < j < |r|
          ensures !KeyLt(r[j], r[i])
        {
          if i == 0 {
            assert r[j] in multiset(t);
            assert r[j] == x || r[j] in multiset(s[1..]);
            if r[j] != x {
              var k :| 0 <= k < |s[1..]| && s[1..][k] == r[j];
              assert s[k + 1] == r[j];
            }
          }
        }
      }
    }
  }

  lemma {:induction false} SortByKeySorted(s: seq<EndpointInfo>)
    ensures Sorted(SortByKey(s))
    decreases |s|
  {
    if s != [] {
      SortByKeySorted(s[..|s| - 1]);
      InsertSorted(s[|s| - 1], SortByKey(s[..|s| - 1]));
    }
  }

  lemma {:induction false} SortByKeyPermutation(s: seq<EndpointInfo>)
    ensures multiset(SortByKey(s)) == multiset(s)
    ensures |SortByKey(s)| == |s|
    decreases |s|
  {
    if s != [] {
      SortByKeyPermutation(s[..|s| - 1]);
      Seqs.MultisetLast(s);
    }
  }

  /** The elements with one given key. */
  function WithKey(path: string, httpMethod: string): EndpointInfo -> bool
  {
    (e: EndpointInfo) => e.path == path && e.httpMethod == httpMethod
  }

  /** Inserting an element with another key leaves a key's run alone;
      inserting one with this key appends it to the run. */
  lemma {:induction false} InsertStable(x: EndpointInfo, s: seq<EndpointInfo>, path: string, httpMethod: string)
    requires Sorted(s)
    ensures Seqs.Filter(Insert(x, s), WithKey(path, httpMethod))
         == Seqs.Filter(s, WithKey(path, httpMethod)) + Seqs.Filter([x], WithKey(path, httpMethod))
    decreases |s|
  {
    if s == [] {
    } else if KeyLt(x, s[0]) {
      InsertStableAhead(x, s, path, httpMethod);
    } else {
      SortedTail(s);
      InsertStable(x, s[1..], path, httpMethod);
      InsertStableBehind(x, s, path, httpMethod);
    }
  }

  /** x goes in front: a run with x's key is empty in s, so x alone leads it. */
  lemma InsertStableAhead(x: EndpointInfo, s: seq<EndpointInfo>, path: string, httpMethod: string)
    requires Sorted(s) && s != [] && KeyLt(x, s[0])
    ensures Seqs.Filter(Insert(x, s), WithKey(path, httpMethod))
         == Seqs.Filter(s, WithKey(path, httpMethod)) + Seqs.Filter([x], WithKey(path, httpMethod))
  {
    var p := WithKey(path, httpMethod);
    assert Insert(x, s) == [x] + s;
    Seqs.FilterAppend([x], s, p);
    if p(x) {
      NoneWithKey(x, s, path, httpMethod);
    }
  }

  /** x goes behind the head: the head's part of the run comes first, then
      what inserting into the tail gives. */
  lemma InsertStableBehind(x: EndpointInfo, s: seq<EndpointInfo>, path: string, httpMethod: string)
    requires s != [] && !KeyLt(x, s[0])
    requires Seqs.Filter(Insert(x, s[1..]), WithKey(path, httpMethod))
          == Seqs.Filter(s[1..], WithKey(path, httpMethod)) + Seqs.Filter([x], WithKey(path, httpMethod))
    ensures Seqs.Filter(Insert(x, s), WithKey(path, httpMethod))
         == Seqs.Filter(s, WithKey(path, httpMethod)) + Seqs.Filter([x], WithKey(path, httpMethod))
  {
    var t := s[1..];
    assert Insert(x, s) == [s[0]] + Insert(x, t);
    assert s == [s[0]] + t;
    var p := WithKey(path, httpMethod);
    Seqs.FilterConsShift(s[0], Insert(x, t), t, Seqs.Filter([x], p), p);
  }

  lemma SortedTail(s: seq<EndpointInfo>)
    requires Sorted(s) && s != []
    ensures Sorted(s[1..])
  {
    forall i, j | 0 <= i < j < |s| - 1
      ensures !KeyLt(s[1..][j], s[1..][i])
    {
      assert s[1..][j] == s[j + 1] && s[1..][i] == s[i + 1];
    }
  }

  /** In a sorted sequence whose head is above x, nothing has x's key. */
  lemma {:induction false} NoneWithKey(x: EndpointInfo, s: seq<EndpointInfo>, path: string, httpMethod: string)
    requires Sorted(s) && s != [] && KeyLt(x, s[0])
    requires x.path == path && x.httpMethod == httpMethod
    ensures Seqs.Filter(s, WithKey(path, httpMethod)) == []
  {
    var p := WithKey(path, httpMethod);
    forall k | 0 <= k < |s|
      ensures !p(s[k])
    {
      if k == 0 {
        KeyLtAsymmetric(x, s[0]);
      }
    }
    FilterNone(s, p);
  }

  lemma {:induction false} FilterNone(s: seq<EndpointInfo>, p: EndpointInfo -> bool)
    requires forall k :: 0 <= k < |s| ==> !p(s[k])
    ensures Seqs.Filter(s, p) == []
    decreases |s|
  {
    if s != [] {
      FilterNone(s[1..], p);
    }
  }

  /** Stability: endpoints with equal (path, method) keep their document
      order. */
  lemma {:induction false} SortByKeyStable(s: seq<EndpointInfo>, path: string, httpMethod: string)
    ensures Seqs.Filter(SortByKey(s), WithKey(path, httpMethod)) == Seqs.Filter(s, WithKey(path, httpMethod))
    decreases |s|
  {
    if s != [] {
      var init := s[..|s| - 1];
      SortByKeyStable(init, path, httpMethod);
      SortByKeySorted(init);
      InsertStable(s[|s| - 1], SortByKey(init), path, httpMethod);
      assert s == init + [s[|s| - 1]];
      Seqs.FilterAppend(init, [s[|s| - 1]], WithKey(path, httpMethod));
    }
  }

  // ---------------------------------------------------------------------
  // parse_openapi_endpoints, dict branch
  // ---------------------------------------------------------------------

  /** What `parse_openapi_endpoints` returns for a dictionary document (a
      Python dict, so every object in it binds each key once): an error
      when `paths` is present but not a mapping (`.items()` fails),
      otherwise the sorted endpoints. */
  function ParseEndpoints(spec: seq<(string, Value)>): Result<seq<EndpointInfo>, string>
    requires Json.UniqueKeys(Obj(spec))
  {
    var paths := Lookup(spec, "paths").GetOr(Obj([]));
    if !paths.Obj? then Err(NoItems(paths))
    else Ok(SortByKey(Collect(paths.members)))
  }

  /** Python's name for the type of a value that is not a mapping. */
  function PyTypeName(v: Value): string
    requires !v.Obj?
  {
    match v
    case Null => "NoneType"
    case Bool(_) => "bool"
    case Num(_) => "int"
    case Str(_) => "str"
    case Arr(_) => "list"
  }

  /** The `AttributeError` text of `paths.items()` on such a value. */
  function NoItems(paths: Value): string
    requires !paths.Obj?
  {
    "'" + PyTypeName(paths) + "' object has no attribute 'items'"
  }

  /** The inner loop of the extraction: appends the endpoints of one path
      item's entries, in order. */
  method AppendOperations(endpoints: seq<EndpointInfo>, path: string, entries: seq<(string, Value)>)
    returns (r: seq<EndpointInfo>)
    ensures r == endpoints + ItemEndpoints(path, entries)
  {
    r := endpoints;
    var j := 0;
    while j < |entries|
      invariant 0 <= j <= |entries|
      invariant r == endpoints + ItemEndpoints(path, entries[..j])
    {
      var key := entries[j].0;
      var operation := entries[j].1;
      assert entries[..j + 1][..j] == entries[..j];
      assert ItemEndpoints(path, entries[..j + 1]) == ItemEndpoints(path, entries[..j])
        + (if IsOperation((key, operation)) then [MakeEndpoint(path, key, operation)] else []);
      if Text.AsciiLower(key) in HttpMethods && operation.Obj? {
        r := r + [MakeEndpoint(path, key, operation)];
      }
      j := j + 1;
    }
    assert entries[..j] == entries;
  }

  /** Collecting one more path item appends that item's endpoints. */
  lemma CollectSnoc(paths: seq<(string, Value)>, i: nat)
    requires i < |paths|
    ensures Collect(paths[..i + 1]) == Collect(paths[..i]) + PathEndpoints(paths[i].0, paths[i].1)
  {
    assert paths[..i + 1][..i] == paths[..i];
  }

  /** The extraction with the source's nested loops and final sort. */
  method ParseOpenApiEndpoints(spec: seq<(string, Value)>) returns (r: Result<seq<EndpointInfo>, string>)
    requires Json.UniqueKeys(Obj(spec))
    ensures r == ParseEndpoints(spec)
  {
    var paths := Lookup(spec, "paths").GetOr(Obj([]));
    if !paths.Obj? {
      return Err(NoItems(paths));
    }
    var endpoints: seq<EndpointInfo> := [];
    var i := 0;
    while i < |paths.members|
      invariant 0 <= i <= |paths.members|
      invariant endpoints == Collect(paths.members[..i])
    {
      var path := paths.members[i].0;
      var item := paths.members[i].1;
      CollectSnoc(paths.members, i);
      if item.Obj? {
        endpoints := AppendOperations(endpoints, path, item.members);
      }
      i := i + 1;
    }
    assert paths.members[..i] == paths.members;
    endpoints := SortByKey(endpoints);
    return Ok(endpoints);
  }

  // ---------------------------------------------------------------------
  // What parse_openapi_endpoints promises
  // ---------------------------------------------------------------------

  /** The only failure: `paths` is present but is not a mapping. A missing
      `paths` or an empty one yields no endpoints. */
  lemma ParseEndpointsOutcome(spec: seq<(string, Value)>)
    requires Json.UniqueKeys(Obj(spec))
    ensures ParseEndpoints(spec).Err? ==> ParseEndpoints(spec).error == NoItems(Lookup(spec, "paths").value)
    ensures ParseEndpoints(spec).Err? <==> Lookup(spec, "paths").Some? && !Lookup(spec, "paths").value.Obj?
    ensures Lookup(spec, "paths").None? ==> ParseEndpoints(spec) == Ok([])
    ensures Lookup(spec, "paths") == Some(Obj([])) ==> ParseEndpoints(spec) == Ok([])
  {
  }

  /** The result is sorted by (path, method), is a permutation of the
      endpoints in document order, and has one entry per qualifying
      (path item, method, operation) triple. */
  lemma ParseEndpointsSorted(spec: seq<(string, Value)>)
    requires Json.UniqueKeys(Obj(spec)) && ParseEndpoints(spec).Ok?
    ensures var paths := Lookup(spec, "paths").GetOr(Obj([]));
      var r := ParseEndpoints(spec).value;
      && Sorted(r)
      && multiset(r) == multiset(Collect(paths.members))
      && |r| == OperationCount(paths.members)
  {
    var paths := Lookup(spec, "paths").GetOr(Obj([]));
    SortByKeySorted(Collect(paths.members));
    SortByKeyPermutation(Collect(paths.members));
    CollectCount(paths.members);
  }

  /** Endpoints sharing a path and method stay in document order. */
  lemma ParseEndpointsStable(spec: seq<(string, Value)>, path: string, httpMethod: string)
    requires Json.UniqueKeys(Obj(spec)) && ParseEndpoints(spec).Ok?
    ensures var paths := Lookup(spec, "paths").GetOr(Obj([]));
      Seqs.Filter(ParseEndpoints(spec).value, WithKey(path, httpMethod))
        == Seqs.Filter(Collect(paths.members), WithKey(path, httpMethod))
  {
    var paths := Lookup(spec, "paths").GetOr(Obj([]));
    SortByKeyStable(Collect(paths.members), path, httpMethod);
  }

  /** An endpoint is reported exactly when an operation of the document
      builds it, and its method is one of the seven upper-case names. */
  lemma ParseEndpointsMembers(spec: seq<(string, Value)>, e: EndpointInfo)
    requires Json.UniqueKeys(Obj(spec)) && ParseEndpoints(spec).Ok?
    ensures var paths := Lookup(spec, "paths").GetOr(Obj([]));
      e in ParseEndpoints(spec).value <==> FromDocument(e, paths.members)
    ensures e in ParseEndpoints(spec).value ==> e.httpMethod in UpperMethods
  {
    var paths := Lookup(spec, "paths").GetOr(Obj([]));
    var c := Collect(paths.members);
    SortByKeyPermutation(c);
    assert e in SortByKey(c) <==> e in multiset(SortByKey(c));
    assert e in c <==> e in multiset(c);
    CollectMembers(paths.members, e);
    if e in c {
      var i :| 0 <= i < |paths.members| && paths.members[i].1.Obj?
        && ItemBuilds(paths.members[i].0, paths.members[i].1.members, e);
      var j :| 0 <= j < |paths.members[i].1.members| && Builds(paths.members[i].0, paths.members[i].1.members[j], e);
      RecognisedMethodUpper(paths.members[i].1.members[j].0);
    }
  }

  /** `trace`, `parameters` and other keys outside the seven methods add
      nothing to a path item. */
  lemma IgnoredKeys(path: string, entries: seq<(string, Value)>, key: string, v: Value)
    requires Text.AsciiLower(key) !in HttpMethods
    ensures ItemEndpoints(path, entries + [(key, v)]) == ItemEndpoints(path, entries)
  {
    assert (entries + [(key, v)])[..|entries|] == entries;
  }

  lemma TraceAndParametersIgnored()
    ensures Text.AsciiLower("trace") !in HttpMethods
    ensures Text.AsciiLower("parameters") !in HttpMethods
    ensures Text.AsciiLower("TRACE") !in HttpMethods
  {
    assert Text.AsciiLower("trace") == "trace";
    assert Text.AsciiLower("parameters") == "parameters";
    assert Text.AsciiLower("TRACE") == "trace";
  }

  // ---------------------------------------------------------------------
  // format_endpoints_list
  // ---------------------------------------------------------------------

  const NoEndpoints := "No endpoints found in the OpenAPI specification."
  const NoSummary := "No summary available"

  /** Python truthiness of a decoded JSON value. */
  predicate Truthy(v: Value)
  {
    match v
    case Null => false
    case Bool(b) => b
    case Num(n) => n != 0
    case Str(t) => t != ""
    case Arr(items) => items != []
    case Obj(members) => members != []
  }

  /** The colour of a method cell; unknown methods are plain white. */
  function MethodStyle(m: string): (style: string)
    ensures m in UpperMethods <==> style != "white"
  {
    if m == "GET" then "bright_blue"
    else if m == "POST" then "bright_green"
    else if m == "PUT" then "bright_yellow"
    else if m == "DELETE" then "bright_red"
    else if m == "PATCH" then "bright_magenta"
    else if m == "HEAD" then "bright_cyan"
    else if m == "OPTIONS" then "bright_white"
    else "white"
  }

  /** One table row: the method in its colour's markup, the path and the
      summary (or a placeholder when the summary is falsy). */
  datatype TableRow = TableRow(methodCell: string, path: string, summary: Value)

  function RowOf(e: EndpointInfo): (row: TableRow)
    ensures row.path == e.path
    ensures Truthy(e.summary) ==> row.summary == e.summary
    ensures !Truthy(e.summary) ==> row.summary == Str(NoSummary)
    ensures row.methodCell == "[" + MethodStyle(e.httpMethod) + "]" + e.httpMethod + "[/" + MethodStyle(e.httpMethod) + "]"
  {
    var style := MethodStyle(e.httpMethod);
    TableRow("[" + style + "]" + e.httpMethod + "[/" + style + "]", e.path,
             if Truthy(e.summary) then e.summary else Str(NoSummary))
  }

  /** The table rows, one per endpoint, in the endpoints' order. */
  function Rows(endpoints: seq<EndpointInfo>): (rows: seq<TableRow>)
    ensures |rows| == |endpoints|
    ensures forall k :: 0 <= k < |endpoints| ==> rows[k] == RowOf(endpoints[k])
  {
    seq(|endpoints|, k requires 0 <= k < |endpoints| => RowOf(endpoints[k]))
  }

  /** The rich table is drawn by `renderTable`, a parameter; an empty list
      is reported with a fixed sentence instead. */
  function FormatEndpointsList(endpoints: seq<EndpointInfo>, renderTable: seq<TableRow> -> string): (text: string)
    ensures endpoints == [] ==> text == NoEndpoints
    ensures endpoints != [] ==> text == renderTable(Rows(endpoints))
  {
    if endpoints == [] then NoEndpoints
    else renderTable(Rows(endpoints))
  }

  /** Listing what parsing returns gives one row per endpoint, ordered by
      path, and within one path by method. */
  lemma ParsedRowsSorted(spec: seq<(string, Value)>)
    requires Json.UniqueKeys(Obj(spec)) && ParseEndpoints(spec).Ok?
    ensures var r := ParseEndpoints(spec).value;
      var rows := Rows(r);
      && |rows| == |r|
      && (forall i, j :: 0 <= i < j < |rows| ==> !Text.StrLt(rows[j].path, rows[i].path))
      && (forall i, j :: 0 <= i < j < |rows| && rows[i].path == rows[j].path ==> !Text.StrLt(r[j].httpMethod, r[i].httpMethod))
  {
    ParseEndpointsSorted(spec);
  }
}
