/** api_helper.ts: the path matcher that binds `id` at the FIRST `{id}`
    segment of the route template, the dotted operation name, the walk over
    the OpenAPI document that collects operation ids, and the request-to-event
    translation that copies every request header. */
module ApiHelper {
  import opened Common
  import opened JsText
  import opened Events

  /** The placeholder segment and the parameter name it binds. */
  const IdMarker: string := "{id}"
  const IdName: string := "id"

  /** A path as the matcher sees it: leading and trailing `/` trimmed, then
      split on `/`. */
  function Segments(s: string): (segs: seq<string>)
    ensures |segs| >= 1
    ensures Join(segs, '/') == TrimSlashes(s)
    ensures forall i :: 0 <= i < |segs| ==> '/' !in segs[i]
  {
    Split(TrimSlashes(s), '/')
  }

  /** The 1-based `position`-th segment, or `null` past the end. */
  function SegmentAt(segs: seq<string>, position: int): (r: Option<string>)
    requires position >= 1
    ensures r.Some? <==> position <= |segs|
    ensures r.Some? ==> r.value == segs[position - 1]
  {
    if |segs| > position - 1 then Some(segs[position - 1]) else None
  }

  /** The parameters a freshly made `Path` holds after `Parse(resource, path)`:
      none when the template has no `{id}` segment, otherwise `id` bound to
      the request segment at the position of the first `{id}`. */
  function ParamsFor(resource: string, path: string): (r: Option<PathParams>)
    ensures r.None? <==> IdMarker !in Segments(resource)
  {
    match IndexOf(Segments(resource), IdMarker)
    case None => None
    case Some(i) => Some(map[IdName := SegmentAt(Segments(path), i + 1)])
  }

  /** The general rule: when the first `{id}` of the template is its
      segment `k` (0-based), `id` is bound to the request's segment `k`, or
      to `null` when the request has no such segment. */
  lemma FirstMarkerRule(resource: string, path: string, k: nat)
    requires k < |Segments(resource)| && Segments(resource)[k] == IdMarker
    requires IdMarker !in Segments(resource)[..k]
    ensures ParamsFor(resource, path)
            == Some(map[IdName := if k < |Segments(path)| then Some(Segments(path)[k]) else None])
  {
    var res := Segments(resource);
    assert res == res[..k] + [IdMarker] + res[k + 1..];
    IndexOfAfter(res[..k], IdMarker, res[k + 1..]);
  }

  /** A request that stops before the template's `{id}` segment binds `id`
      to `null`: a template segmented as `pre + [{id}] + post` against a
      request segmented as `pre`. */
  lemma ShortRequestUnbound(resource: string, path: string, pre: seq<string>, post: seq<string>)
    requires Segments(resource) == pre + [IdMarker] + post
    requires Segments(path) == pre && IdMarker !in pre
    ensures ParamsFor(resource, path) == Some(map[IdName := None])
  {
    assert Segments(resource)[..|pre|] == pre;
    FirstMarkerRule(resource, path, |pre|);
  }

  /** The matcher object; the fields are `undefined` (None, false) until
      `Parse` is called. */
  class Path {
    var parts: Option<seq<string>>
    var partsRes: Option<seq<string>>
    var pathParams: Option<PathParams>
    var hasPathParam: bool

    constructor ()
      ensures parts == None && partsRes == None
      ensures pathParams == None && !hasPathParam
    {
      parts := None;
      partsRes := None;
      pathParams := None;
      hasPathParam := false;
    }

    function PathParams(): Option<PathParams>
      reads this
    {
      pathParams
    }

    function HasPathParam(): bool
      reads this
    {
      hasPathParam
    }

    /** `Part(position)`: the 1-based segment of the request path, `null`
        before `Parse` or past the last segment. */
    function Part(position: int): (r: Option<string>)
      reads this
      requires position >= 1
      ensures parts.None? ==> r.None?
      ensures parts.Some? ==> r == SegmentAt(parts.value, position)
    {
      if parts.Some? then SegmentAt(parts.value, position) else None
    }

    /** Splits both strings and, when the template has an `{id}` segment,
        binds `id` to the request segment at its first position; when it has
        none, the earlier `pathParams` and `hasPathParam` are kept. */
    method Parse(eventResource: string, eventPath: string)
      modifies this
      ensures partsRes == Some(Segments(eventResource))
      ensures parts == Some(Segments(eventPath))
      ensures hasPathParam == (IdMarker in Segments(eventResource) || old(hasPathParam))
      ensures pathParams ==
                if IdMarker in Segments(eventResource) then ParamsFor(eventResource, eventPath)
                else old(pathParams)
    {
      partsRes := Some(Segments(eventResource));
      parts := Some(Segments(eventPath));
      if IdMarker in partsRes.value {
        hasPathParam := true;
        var idIndex := IndexOf(partsRes.value, IdMarker).value;
        pathParams := Some(map[IdName := Part(idIndex + 1)]);
      }
    }
  }

  /** A `Join` of non-empty, slash-free segments neither starts nor ends with `/`. */
  lemma {:induction false} JoinEnds(segs: seq<string>)
    requires |segs| >= 1
    requires forall i :: 0 <= i < |segs| ==> segs[i] != "" && '/' !in segs[i]
    ensures var j := Join(segs, '/'); j != [] && j[0] != '/' && j[|j| - 1] != '/'
  {
    var j := Join(segs, '/');
    if |segs| > 1 {
      JoinEnds(segs[1..]);
      var tail := Join(segs[1..], '/');
      assert j == segs[0] + ([ '/' ] + tail);
      assert j[0] == segs[0][0];
      assert j[|j| - 1] == tail[|tail| - 1];
    }
  }

  /** The segments of a `/`-prefixed join of non-empty, slash-free segments
      are those segments. */
  lemma SegmentsOfJoin(segs: seq<string>)
    requires |segs| >= 1
    requires forall i :: 0 <= i < |segs| ==> segs[i] != "" && '/' !in segs[i]
    ensures Segments("/" + Join(segs, '/')) == segs
  {
    JoinEnds(segs);
    TrimSlashesLeading(Join(segs, '/'));
    SplitJoin(segs, '/');
  }

  /** Filling the first `{id}` slot of a route template with a value and
      parsing the resulting request path gives back exactly that value. */
  lemma BindsTemplateSlot(pre: seq<string>, post: seq<string>, rest: seq<string>, v: string)
    requires forall i :: 0 <= i < |pre| ==> pre[i] != "" && '/' !in pre[i] && pre[i] != IdMarker
    requires forall i :: 0 <= i < |post| ==> post[i] != "" && '/' !in post[i]
    requires forall i :: 0 <= i < |rest| ==> rest[i] != "" && '/' !in rest[i]
    requires v != "" && '/' !in v
    ensures ParamsFor("/" + Join(pre + [IdMarker] + post, '/'), "/" + Join(pre + [v] + rest, '/'))
            == Some(map[IdName := Some(v)])
  {
    var tmpl := pre + [IdMarker] + post;
    var req := pre + [v] + rest;
    SlotSegments(pre, IdMarker, post);
    SlotSegments(pre, v, rest);
    assert IdMarker !in pre;
    IndexOfAfter(pre, IdMarker, post);
    assert req[|pre|] == v;
    assert SegmentAt(Segments("/" + Join(req, '/')), |pre| + 1) == Some(v);
  }

  /** Non-empty, slash-free segments around a non-empty, slash-free slot. */
  predicate CleanSegments(segs: seq<string>) {
    forall i :: 0 <= i < |segs| ==> segs[i] != "" && '/' !in segs[i]
  }

  lemma CleanSlot(pre: seq<string>, x: string, post: seq<string>)
    requires CleanSegments(pre) && CleanSegments(post)
    requires x != "" && '/' !in x
    ensures CleanSegments(pre + [x] + post)
  {
    var xs := pre + [x] + post;
    forall i | 0 <= i < |xs|
      ensures xs[i] != "" && '/' !in xs[i]
    {
      if i < |pre| {
        assert xs[i] == pre[i];
      } else if i > |pre| {
        assert xs[i] == post[i - |pre| - 1];
      }
    }
  }

  /** The segments of a template (or request) with one slot filled in. */
  lemma SlotSegments(pre: seq<string>, x: string, post: seq<string>)
    requires CleanSegments(pre) && CleanSegments(post)
    requires x != "" && '/' !in x
    ensures Segments("/" + Join(pre + [x] + post, '/')) == pre + [x] + post
  {
    CleanSlot(pre, x, post);
    SegmentsOfJoin(pre + [x] + post);
  }

  /** A template without an `{id}` segment binds nothing. */
  lemma NoMarkerNoParams(resource: string, path: string)
    requires forall i :: 0 <= i < |Segments(resource)| ==> Segments(resource)[i] != IdMarker
    ensures ParamsFor(resource, path).None?
  {
  }

  /** The route-template example `/widgets/{id}` against `/widgets/42`. */
  lemma WidgetsExample()
    ensures ParamsFor("/widgets/{id}", "/widgets/42") == Some(map["id" := Some("42")])
  {
    assert "/widgets/{id}" == "/" + Join(["widgets"] + [IdMarker] + [], '/');
    assert "/widgets/42" == "/" + Join(["widgets"] + ["42"] + [], '/');
    BindsTemplateSlot(["widgets"], [], [], "42");
  }

  // -----------------------------------------------------------------------
  // Operation names

  /** An operation name `Class.method` (or just `method`) split on `.`. */
  datatype Operation = Operation(operationName: string) {

    function Parts(): (parts: seq<string>)
      ensures |parts| >= 1
    {
      Split(operationName, '.')
    }

    /** There is a class part exactly when the name has a dot. */
    predicate HasClassName()
      ensures HasClassName() <==> '.' in operationName
    {
      |Parts()| > 1
    }

    /** The text before the first dot, or `""` without a dot. */
    function GetClassName(): (c: string)
      ensures '.' !in operationName ==> c == ""
      ensures '.' in operationName ==> c == operationName[..IndexOf(operationName, '.').value]
      ensures '.' !in c
    {
      SplitFirst(operationName, '.');
      if HasClassName() then Parts()[0] else ""
    }

    /** The whole name without a dot; otherwise the text between the first
        dot and the next dot (or the end). */
    function GetMethodName(): (m: string)
      ensures '.' !in operationName ==> m == operationName
      ensures '.' in operationName ==>
                var rest := operationName[IndexOf(operationName, '.').value + 1..];
                m == if '.' in rest then rest[..IndexOf(rest, '.').value] else rest
      ensures '.' !in m
    {
      SplitFirst(operationName, '.');
      if HasClassName() then
        SplitSecond(operationName, '.');
        Parts()[1]
      else Parts()[0]
    }
  }

  /** `Class.method` is read back as class `Class` and method `method`, and a
      dot-free name as a method without class. */
  lemma {:induction false} OperationNameRoundTrip(c: string, m: string)
    requires '.' !in c && '.' !in m
    ensures Operation(c + "." + m).GetClassName() == c
    ensures Operation(c + "." + m).GetMethodName() == m
    ensures Operation(c + "." + m).HasClassName()
    ensures !Operation(m).HasClassName() && Operation(m).GetMethodName() == m
    ensures Operation(m).GetClassName() == ""
  {
    var name := c + "." + m;
    SplitJoin([c, m], '.');
    assert Join([c, m], '.') == name by {
      assert [c, m][1..] == [m];
    }
  }

  // -----------------------------------------------------------------------
  // Operation discovery

  /** A value under a path key of the document; operation objects carry an
      `operationId`, and the other object members (path-level `parameters`,
      `summary`) read as one without it. A `null` member is not modelled. */
  datatype OperationObject = OperationObject(operationId: Option<string>)

  /** One entry of `paths`: the path key and its members in key order. */
  datatype PathEntry = PathEntry(key: string, members: seq<(string, OperationObject)>)

  /** The member values of a path entry, in order. */
  function MemberValues(members: seq<(string, OperationObject)>): (r: seq<OperationObject>)
    ensures |r| == |members|
    ensures forall i :: 0 <= i < |r| ==> r[i] == members[i].1
  {
    seq(|members|, i requires 0 <= i < |members| => members[i].1)
  }

  /** Every member value of every path, paths first, then members in order. */
  function AllOperations(paths: seq<PathEntry>): (ops: seq<OperationObject>)
    ensures forall p, i :: 0 <= p < |paths| && 0 <= i < |paths[p].members| ==> paths[p].members[i].1 in ops
  {
    if paths == [] then []
    else AllOperations(paths[..|paths| - 1]) + MemberValues(paths[|paths| - 1].members)
  }

  /** The truthy operation ids of `ops`, in order. */
  function IdsOf(ops: seq<OperationObject>): (ids: seq<string>)
    ensures |ids| <= |ops|
  {
    if ops == [] then []
    else
      var last := ops[|ops| - 1];
      IdsOf(ops[..|ops| - 1]) + (if Truthy(last.operationId) then [last.operationId.value] else [])
  }

  /** An id is collected exactly when some operation carries it and it is
      not empty. */
  lemma {:induction false} IdsOfMembers(ops: seq<OperationObject>)
    ensures forall x :: x in IdsOf(ops) <==> exists k :: 0 <= k < |ops| && ops[k].operationId == Some(x) && x != ""
  {
    if ops != [] {
      var init := ops[..|ops| - 1];
      IdsOfMembers(init);
      assert forall k :: 0 <= k < |init| ==> init[k] == ops[k];
      forall x | exists k :: 0 <= k < |ops| && ops[k].operationId == Some(x) && x != ""
        ensures x in IdsOf(ops)
      {
        var k :| 0 <= k < |ops| && ops[k].operationId == Some(x) && x != "";
        if k < |init| {
          assert init[k].operationId == Some(x);
        }
      }
    }
  }

  /** Ids of concatenated operation lists are concatenated: document order
      is kept. */
  lemma {:induction false} IdsOfAppend(a: seq<OperationObject>, b: seq<OperationObject>)
    ensures IdsOf(a + b) == IdsOf(a) + IdsOf(b)
    decreases |b|
  {
    if b != [] {
      var b' := b[..|b| - 1];
      assert (a + b)[..|a + b| - 1] == a + b';
      IdsOfAppend(a, b');
    } else {
      assert a + b == a;
    }
  }

  /** When every operation has a non-empty id, none is dropped. */
  lemma {:induction false} IdsOfAllNamed(ops: seq<OperationObject>)
    requires forall k :: 0 <= k < |ops| ==> Truthy(ops[k].operationId)
    ensures |IdsOf(ops)| == |ops|
    ensures forall k :: 0 <= k < |ops| ==> Some(IdsOf(ops)[k]) == ops[k].operationId
  {
    if ops != [] {
      var init := ops[..|ops| - 1];
      IdsOfAllNamed(init);
      assert IdsOf(ops) == IdsOf(init) + [ops[|ops| - 1].operationId.value];
      forall k | 0 <= k < |ops|
        ensures Some(IdsOf(ops)[k]) == ops[k].operationId
      {
        if k < |init| {
          assert init[k] == ops[k];
        }
      }
    }
  }

  /** One more path adds its member values at the end. */
  lemma AllOperationsStep(paths: seq<PathEntry>, i: nat)
    requires i < |paths|
    ensures AllOperations(paths[..i + 1]) == AllOperations(paths[..i]) + MemberValues(paths[i].members)
  {
    assert paths[..i + 1][..i] == paths[..i];
  }

  /** One more member adds its value at the end. */
  lemma MemberValuesStep(members: seq<(string, OperationObject)>, j: nat)
    requires j < |members|
    ensures MemberValues(members[..j + 1]) == MemberValues(members[..j]) + [members[j].1]
  {
  }

  /** One more operation adds its id, if truthy, at the end. */
  lemma IdsOfSnoc(ops: seq<OperationObject>, op: OperationObject)
    ensures IdsOf(ops + [op]) == IdsOf(ops) + (if Truthy(op.operationId) then [op.operationId.value] else [])
  {
    assert (ops + [op])[..|ops|] == ops;
  }

  /** `extractOperations`: walks every path and every member in document
      order and collects the truthy `operationId`s. */
  method ExtractOperations(paths: seq<PathEntry>) returns (operationNames: seq<string>)
    ensures operationNames == IdsOf(AllOperations(paths))
  {
    operationNames := [];
    for i := 0 to |paths|
      invariant operationNames == IdsOf(AllOperations(paths[..i]))
    {
      var pathObj := paths[i].members;
      ghost var before := AllOperations(paths[..i]);
      assert before + MemberValues(pathObj[..0]) == before;
      for j := 0 to |pathObj|
        invariant operationNames == IdsOf(before + MemberValues(pathObj[..j]))
      {
        var operation := pathObj[j].1;
        MemberValuesStep(pathObj, j);
        assert before + MemberValues(pathObj[..j + 1]) == before + MemberValues(pathObj[..j]) + [operation];
        IdsOfSnoc(before + MemberValues(pathObj[..j]), operation);
        if Truthy(operation.operationId) {
          operationNames := operationNames + [operation.operationId.value];
        }
      }
      assert pathObj[..|pathObj|] == pathObj;
      AllOperationsStep(paths, i);
    }
    assert paths[..|paths|] == paths;
  }

  // -----------------------------------------------------------------------
  // Request to event

  /** `getAwsRequestEvent`: a copy of the empty-event template with every
      request header copied in (overwriting a template header of the same
      name), method, path, resource, path parameters, query and JSON body
      set; `isBase64Encoded` stays as in the template. */
  method GetAwsRequestEvent(template: ApiEvent, request: Request, operationPath: string)
    returns (ev: ApiEvent)
    ensures forall k :: k in request.headers ==> k in ev.headers && ev.headers[k] == Some(request.headers[k])
    ensures forall k :: k in template.headers && k !in request.headers ==>
              k in ev.headers && ev.headers[k] == template.headers[k]
    ensures forall k :: k in ev.headers ==> k in template.headers || k in request.headers
    ensures ev.httpMethod == request.httpMethod && ev.path == request.path
    ensures ev.resource == operationPath
    ensures ev.pathParameters == ParamsFor(operationPath, request.path)
    ensures ev.queryStringParameters == Some(request.query)
    ensures ev.body == Some(request.bodyJson)
    ensures ev.isBase64Encoded == template.isBase64Encoded
  {
    ev := template;
    var todo := request.headers.Keys;
    while todo != {}
      invariant todo <= request.headers.Keys
      invariant forall k :: k in request.headers && k !in todo ==>
                  k in ev.headers && ev.headers[k] == Some(request.headers[k])
      invariant forall k :: k in template.headers && (k !in request.headers || k in todo) ==>
                  k in ev.headers && ev.headers[k] == template.headers[k]
      invariant forall k :: k in ev.headers ==> k in template.headers || k in request.headers
      invariant ev.isBase64Encoded == template.isBase64Encoded
      decreases todo
    {
      var key :| key in todo;
      ev := ev.(headers := ev.headers[key := Some(request.headers[key])]);
      todo := todo - {key};
    }
    ev := ev.(httpMethod := request.httpMethod);
    ev := ev.(path := request.path);
    var pathParts := new Path();
    pathParts.Parse(operationPath, request.path);
    ev := ev.(resource := operationPath);
    ev := ev.(pathParameters := pathParts.PathParams());
    ev := ev.(queryStringParameters := Some(request.query));
    ev := ev.(body := Some(request.bodyJson));
  }
}
