/** api_path.ts: the path matcher that server.ts and index.ts use. It
    recognises `{id}` only as the SECOND segment of the route template and
    names the parameter by stripping the braces from that segment. Its
    `Operation` class and `extractOperations` are the same text as in
    api_helper.ts and are modelled once, in ApiHelper. */
module ApiPath {
  import opened Common
  import opened JsText
  import opened Events
  import ApiHelper

  /** `s.replace(/{|}/g, '')`: every brace removed, nothing else touched. */
  function RemoveBraces(s: string): (r: string)
    ensures |r| <= |s|
  {
    if s == [] then []
    else (if s[0] == '{' || s[0] == '}' then [] else [s[0]]) + RemoveBraces(s[1..])
  }

  /** Every brace goes: no brace is left, the result is no longer, and a
      brace-free string comes back unchanged. */
  lemma {:induction false} RemoveBracesSpec(s: string)
    ensures '{' !in RemoveBraces(s) && '}' !in RemoveBraces(s)
    ensures |RemoveBraces(s)| <= |s|
    ensures '{' !in s && '}' !in s ==> RemoveBraces(s) == s
  {
    if s != [] {
      RemoveBracesSpec(s[1..]);
      if '{' !in s && '}' !in s {
        assert s == [s[0]] + s[1..];
      }
    }
  }

  /** The replace works piecewise: removing the braces of a concatenation
      removes those of each part. */
  lemma {:induction false} RemoveBracesAppend(a: string, b: string)
    ensures RemoveBraces(a + b) == RemoveBraces(a) + RemoveBraces(b)
    decreases |a|
  {
    if a != [] {
      assert (a + b)[1..] == a[1..] + b;
      RemoveBracesAppend(a[1..], b);
    } else {
      assert a + b == b;
    }
  }

  /** Nothing but braces goes: every other character survives, in its place
      among the rest. */
  lemma RemoveBracesKeeps(a: string, c: char, b: string)
    requires c != '{' && c != '}'
    ensures RemoveBraces(a + [c] + b) == RemoveBraces(a) + [c] + RemoveBraces(b)
  {
    RemoveBracesAppend(a + [c], b);
    RemoveBracesAppend(a, [c]);
    assert [c][1..] == [];
  }

  /** The parameters a freshly made `Path` holds after `Parse(resource, path)`:
      none unless the second template segment is `{id}`, otherwise the brace-
      stripped name bound to the second request segment. */
  function ParamsFor(resource: string, path: string): (r: Option<PathParams>)
    ensures r.Some? <==> |ApiHelper.Segments(resource)| >= 2 && ApiHelper.Segments(resource)[1] == ApiHelper.IdMarker
    ensures r.Some? ==> r.value.Keys == {ApiHelper.IdName}
  {
    var res := ApiHelper.Segments(resource);
    if ApiHelper.SegmentAt(res, 2) == Some(ApiHelper.IdMarker) then
      MarkerName();
      Some(map[RemoveBraces(res[1]) := ApiHelper.SegmentAt(ApiHelper.Segments(path), 2)])
    else None
  }

  /** The matcher object; the fields are `undefined` (None, false) until
      `Parse` is called. */
  class Path {
    var parts: Option<seq<string>>
    var partsRes: Option<seq<string>>
    var pathParams: Option<PathParams>
    var hasPathParam: bool

    constructor ()
      ensures parts == None && partsRes == None
      ensures pathParams == None && !hasPathParam
    {
      parts := None;
      partsRes := None;
      pathParams := None;
      hasPathParam := false;
    }

    function PathParams(): Option<PathParams>
      reads this
    {
      pathParams
    }

    function HasPathParam(): bool
      reads this
    {
      hasPathParam
    }

    /** `Part(position)`: the 1-based request segment, `null` before `Parse`
        or past the last segment. */
    function Part(position: int): (r: Option<string>)
      reads this
      requires position >= 1
      ensures parts.None? ==> r.None?
      ensures parts.Some? ==> r == ApiHelper.SegmentAt(parts.value, position)
    {
      if parts.Some? then ApiHelper.SegmentAt(parts.value, position) else None
    }

    /** `PartRes(position)`: the 1-based template segment, `null` before
        `Parse` or past the last segment. */
    function PartRes(position: int): (r: Option<string>)
      reads this
      requires position >= 1
      ensures partsRes.None? ==> r.None?
      ensures partsRes.Some? ==> r == ApiHelper.SegmentAt(partsRes.value, position)
    {
      if partsRes.Some? then ApiHelper.SegmentAt(partsRes.value, position) else None
    }

    /** Splits both strings; `hasPathParam` is set to whether the second
        template segment is `{id}`, and only then are the parameters
        replaced. */
    method Parse(eventResource: string, eventPath: string)
      modifies this
      ensures partsRes == Some(ApiHelper.Segments(eventResource))
      ensures parts == Some(ApiHelper.Segments(eventPath))
      ensures hasPathParam <==> PartRes(2) == Some(ApiHelper.IdMarker)
      ensures pathParams == if hasPathParam then Some(map[ApiHelper.IdName := Part(2)]) else old(pathParams)
    {
      var res := ApiHelper.Segments(eventResource);
      var req := ApiHelper.Segments(eventPath);
      partsRes := Some(res);
      parts := Some(req);
      hasPathParam := PartRes(2) == Some(ApiHelper.IdMarker);
      if hasPathParam {
        var name := RemoveBraces(PartRes(2).value);
        MarkerName();
        assert name == ApiHelper.IdName;
        pathParams := Some(map[name := Part(2)]);
      }
    }
  }

  /** Stripping the braces of the marker names the parameter `id`. */
  lemma MarkerName()
    ensures RemoveBraces(ApiHelper.IdMarker) == ApiHelper.IdName
  {
    assert ApiHelper.IdMarker[1..] == "id}";
    assert "id}"[1..] == "d}";
    assert "d}"[1..] == "}";
    assert "}"[1..] == "";
  }

  /** With `{id}` as the second template segment the parameter map is
      `{id: Part(2)}`, `null` inside when the request has one segment; in
      every other case there is none. */
  lemma {:induction false} SecondSegmentRule(resource: string, path: string)
    ensures var res := ApiHelper.Segments(resource);
            var req := ApiHelper.Segments(path);
            ParamsFor(resource, path) ==
              if |res| >= 2 && res[1] == ApiHelper.IdMarker then
                Some(map[ApiHelper.IdName := if |req| >= 2 then Some(req[1]) else None])
              else None
  {
    MarkerName();
  }

  /** Where the first `{id}` is the second template segment, both matchers
      bind the same parameter. */
  lemma {:induction false} AgreesWithApiHelper(resource: string, path: string)
    requires |ApiHelper.Segments(resource)| >= 2
    requires ApiHelper.Segments(resource)[0] != ApiHelper.IdMarker
    requires ApiHelper.Segments(resource)[1] == ApiHelper.IdMarker
    ensures ParamsFor(resource, path) == ApiHelper.ParamsFor(resource, path)
  {
    var res := ApiHelper.Segments(resource);
    assert res == [res[0]] + [ApiHelper.IdMarker] + res[2..];
    IndexOfAfter([res[0]], ApiHelper.IdMarker, res[2..]);
    SecondSegmentRule(resource, path);
  }

  /** A template whose `{id}` is the first segment binds it in api_helper.ts
      but binds nothing here. */
  lemma FirstSegmentDiverges(v: string)
    requires v != "" && '/' !in v
    ensures ParamsFor("/" + ApiHelper.IdMarker, "/" + v).None?
    ensures ApiHelper.ParamsFor("/" + ApiHelper.IdMarker, "/" + v) == Some(map[ApiHelper.IdName := Some(v)])
  {
    var m := ApiHelper.IdMarker;
    ApiHelper.SlotSegments([], m, []);
    ApiHelper.SlotSegments([], v, []);
    assert [] + [m] + [] == [m] && [] + [v] + [] == [v];
    assert Join([m], '/') == m && Join([v], '/') == v;
    SecondSegmentRule("/" + m, "/" + v);
    IndexOfAfter([], m, []);
  }

  /** Filling the `{id}` slot of a two-segment template `/<entity>/{id}` and
      parsing the request binds the value. */
  lemma BindsSecondSegment(entity: string, post: seq<string>, rest: seq<string>, v: string)
    requires entity != "" && '/' !in entity && entity != ApiHelper.IdMarker
    requires ApiHelper.CleanSegments(post) && ApiHelper.CleanSegments(rest)
    requires v != "" && '/' !in v
    ensures ParamsFor("/" + Join([entity] + [ApiHelper.IdMarker] + post, '/'),
                      "/" + Join([entity] + [v] + rest, '/'))
            == Some(map[ApiHelper.IdName := Some(v)])
  {
    var pre := [entity];
    assert ApiHelper.CleanSegments(pre);
    var ts := pre + [ApiHelper.IdMarker] + post;
    var rs := pre + [v] + rest;
    FilledSegments(pre, post, rest, v);
    SecondSegmentRule("/" + Join(ts, '/'), "/" + Join(rs, '/'));
  }

  /** The segments of a template and of a request filled in at the same slot. */
  lemma FilledSegments(pre: seq<string>, post: seq<string>, rest: seq<string>, v: string)
    requires ApiHelper.CleanSegments(pre) && ApiHelper.CleanSegments(post) && ApiHelper.CleanSegments(rest)
    requires v != "" && '/' !in v
    ensures ApiHelper.Segments("/" + Join(pre + [ApiHelper.IdMarker] + post, '/')) == pre + [ApiHelper.IdMarker] + post
    ensures ApiHelper.Segments("/" + Join(pre + [v] + rest, '/')) == pre + [v] + rest
    ensures (pre + [ApiHelper.IdMarker] + post)[|pre|] == ApiHelper.IdMarker
    ensures (pre + [v] + rest)[|pre|] == v
  {
    ApiHelper.SlotSegments(pre, ApiHelper.IdMarker, post);
    ApiHelper.SlotSegments(pre, v, rest);
  }
}
