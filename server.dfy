/** server.ts: the local gateway. The region code and the bucket name it
    derives when no `.env` file exists, the middleware that decides when a
    request is handed to the router (at once, or after a multipart body has
    been buffered), the event it builds for the handler (only the
    `content-type` header is copied, parameters follow the position-2 rule of
    api_path.ts), the base 64 override for a buffered body, and the reply. */
module Server {
  import opened Common
  import opened JsText
  import opened Events
  import Base64
  import ApiPath

  // ---------------------------------------------------------------------
  // region code and bucket name

  /** Every region the `regionShort` switch lists. */
  const KnownRegions: set<string> := {
    "us-east-1", "us-east-2", "us-west-1", "us-west-2",
    "af-south-1", "ap-east-1", "ap-south-1",
    "ap-northeast-3", "ap-northeast-2", "ap-northeast-1",
    "ap-southeast-1", "ap-southeast-2", "ca-central-1",
    "eu-central-1", "eu-west-1", "eu-west-2", "eu-west-3", "eu-north-1", "eu-south-1",
    "il-central-1", "me-south-1", "sa-east-1"}

  /** The region the gateway runs as. */
  const Region: string := "il-central-1"

  /** `regionShort`: the short code of a listed region, `""` for any other. */
  function RegionShort(region: string): (r: string)
    ensures r == "" <==> region !in KnownRegions
  {
    match region
    case "us-east-1" | "us-east-2" => "us-e"
    case "us-west-1" | "us-west-2" => "us-w"
    case "af-south-1" => "af"
    case "ap-east-1" => "ap-e"
    case "ap-south-1" => "ap-s"
    case "ap-northeast-3" | "ap-northeast-2" | "ap-northeast-1" => "ap-ne"
    case "ap-southeast-1" | "ap-southeast-2" => "ap-se"
    case "ca-central-1" => "ca"
    case "eu-central-1" | "eu-west-1" | "eu-west-2" | "eu-west-3" | "eu-north-1" | "eu-south-1" => "eu"
    case "il-central-1" => "il"
    case "me-south-1" => "me"
    case "sa-east-1" => "sa"
    case _ => ""
  }

  /** The grouped cases of the switch: regions sharing a code. */
  lemma RegionGroups()
    ensures RegionShort("us-east-1") == RegionShort("us-east-2") == "us-e"
    ensures RegionShort("us-west-1") == RegionShort("us-west-2") == "us-w"
    ensures RegionShort("ap-northeast-1") == RegionShort("ap-northeast-2") == RegionShort("ap-northeast-3") == "ap-ne"
    ensures RegionShort("ap-southeast-1") == RegionShort("ap-southeast-2") == "ap-se"
    ensures RegionShort("eu-central-1") == RegionShort("eu-west-1") == RegionShort("eu-west-2")
            == RegionShort("eu-west-3") == RegionShort("eu-north-1") == RegionShort("eu-south-1") == "eu"
    ensures RegionShort("il-central-1") == "il"
  {
  }

  /** The bucket domain suffix. */
  const BucketDomain: string := ".oxymoron-tech.com"

  /** `web${shortReg ? `.${shortReg}` : ""}.oxymoron-tech.com`: the code is
      inserted as its own label when it is non-empty. */
  function BucketName(short: string): (r: string)
    ensures StartsWith(r, "web")
    ensures |r| == |"web" + BucketDomain| + (if short == "" then 0 else |short| + 1)
    ensures r[|r| - |BucketDomain|..] == BucketDomain
    ensures short == "" ==> r == "web" + BucketDomain
    ensures short != "" ==> r[3..4 + |short|] == "." + short
  {
    "web" + (if short != "" then "." + short else "") + BucketDomain
  }

  /** Different codes give different buckets. */
  lemma BucketNameInjective(a: string, b: string)
    requires BucketName(a) == BucketName(b)
    ensures a == b
  {
    if a != "" && b != "" {
      assert |a| == |b|;
      var s := BucketName(a);
      assert s[4..4 + |a|] == a;
      assert BucketName(b)[4..4 + |b|] == b;
    }
  }

  /** The gateway's own region gives the bucket `web.il.oxymoron-tech.com`. */
  lemma GatewayBucket()
    ensures BucketName(RegionShort(Region)) == "web.il.oxymoron-tech.com"
  {
    RegionGroups();
  }

  /** An unlisted region gives the bare `web.oxymoron-tech.com`. */
  lemma UnlistedRegionBucket(other: string)
    requires other !in KnownRegions
    ensures BucketName(RegionShort(other)) == "web.oxymoron-tech.com"
  {
    assert RegionShort(other) == "";
  }

  // ---------------------------------------------------------------------
  // the dispatch middleware

  const MultipartFormData: string := "multipart/form-data"

  /** `req.headers["content-type"]?.startsWith("multipart/form-data")`; a
      missing header is not multipart. */
  predicate IsMultipart(contentType: Option<string>)
    ensures contentType.None? ==> !IsMultipart(contentType)
    ensures contentType.Some? && contentType.value == MultipartFormData ==> IsMultipart(contentType)
  {
    contentType.Some? && StartsWith(contentType.value, MultipartFormData)
  }

  /** `Buffer.concat(chunks)`. */
  function Concat(chunks: seq<seq<byte>>): (r: seq<byte>)
    ensures chunks == [] ==> r == []
  {
    if chunks == [] then [] else Concat(chunks[..|chunks| - 1]) + chunks[|chunks| - 1]
  }

  /** Concatenation distributes over appending chunk lists. */
  lemma {:induction false} ConcatAppend(a: seq<seq<byte>>, b: seq<seq<byte>>)
    ensures Concat(a + b) == Concat(a) + Concat(b)
    decreases |b|
  {
    if b != [] {
      var b' := b[..|b| - 1];
      assert (a + b)[..|a + b| - 1] == a + b';
      ConcatAppend(a, b');
    } else {
      assert a + b == a;
    }
  }

  /** A single chunk concatenates to its own bytes. */
  lemma ConcatOne(c: seq<byte>)
    ensures Concat([c]) == c
  {
    assert [c][..0] == [];
  }

  /** What happens to a request, in order: a body chunk arriving, or the
      request being handed to the router, with the buffered body or without. */
  datatype Step = Received(chunk: seq<byte>) | Dispatched(data: Option<seq<byte>>)

  /** The arrival of each chunk, in order. */
  function Receipts(chunks: seq<seq<byte>>): (r: seq<Step>)
    ensures |r| == |chunks|
    ensures forall i :: 0 <= i < |r| ==> r[i] == Received(chunks[i])
  {
    seq(|chunks|, i requires 0 <= i < |chunks| => Received(chunks[i]))
  }

  /** How many times the request is handed to the router. */
  function Dispatches(trace: seq<Step>): nat {
    if trace == [] then 0
    else (if trace[0].Dispatched? then 1 else 0) + Dispatches(trace[1..])
  }

  /** Chunk arrivals hand nothing over. */
  lemma {:induction false} ReceiptsDispatchNothing(chunks: seq<seq<byte>>)
    ensures Dispatches(Receipts(chunks)) == 0
    decreases |chunks|
  {
    if chunks != [] {
      assert Receipts(chunks)[1..] == Receipts(chunks[1..]);
      ReceiptsDispatchNothing(chunks[1..]);
    }
  }

  /** Counting over a concatenation of traces. */
  lemma {:induction false} DispatchesAppend(s: seq<Step>, t: seq<Step>)
    ensures Dispatches(s + t) == Dispatches(s) + Dispatches(t)
    decreases |s|
  {
    if s != [] {
      assert (s + t)[1..] == s[1..] + t;
      DispatchesAppend(s[1..], t);
    } else {
      assert s + t == t;
    }
  }

  /** The middleware on one request whose body arrives as `chunks`: a
      request that is not multipart is handed over at once, without data,
      before any chunk is read; a multipart request is handed over once the
      body has ended, with all chunks concatenated. Either way it is handed
      over exactly once. */
  method Middleware(contentType: Option<string>, chunks: seq<seq<byte>>) returns (trace: seq<Step>)
    ensures !IsMultipart(contentType) ==> trace == [Dispatched(None)] + Receipts(chunks)
    ensures IsMultipart(contentType) ==> trace == Receipts(chunks) + [Dispatched(Some(Concat(chunks)))]
    ensures Dispatches(trace) == 1
  {
    var rawData: seq<seq<byte>> := [];
    trace := [];
    if !IsMultipart(contentType) {
      trace := trace + [Dispatched(None)];
    }
    var start := trace;
    var i := 0;
    while i < |chunks|
      invariant 0 <= i <= |chunks|
      invariant rawData == chunks[..i]
      invariant trace == start + Receipts(chunks[..i])
    {
      rawData := rawData + [chunks[i]];
      assert Receipts(chunks[..i + 1]) == Receipts(chunks[..i]) + [Received(chunks[i])];
      trace := trace + [Received(chunks[i])];
      i := i + 1;
    }
    assert chunks[..i] == chunks;
    if IsMultipart(contentType) {
      trace := trace + [Dispatched(Some(Concat(rawData)))];
    }
    ReceiptsDispatchNothing(chunks);
    assert Dispatches([Dispatched(None)]) == 1;
    assert Dispatches([Dispatched(Some(Concat(chunks)))]) == 1;
    DispatchesAppend(start, Receipts(chunks));
    DispatchesAppend(Receipts(chunks), [Dispatched(Some(Concat(chunks)))]);
  }

  // ---------------------------------------------------------------------
  // the event and the registered handler

  const ContentType: string := "content-type"

  /** The request's `content-type` header, `undefined` when it has none. */
  function ContentTypeOf(request: Request): (r: Option<string>)
    ensures r.Some? <==> ContentType in request.headers
    ensures r.Some? ==> r.value == request.headers[ContentType]
  {
    if ContentType in request.headers then Some(request.headers[ContentType]) else None
  }

  /** `ev` is the event server.ts builds from a copy of `template`: the
      template's headers with `content-type` set (to `undefined` when the
      request has none), method, path, the operation path as resource, the
      position-2 parameters, the query and the JSON body; the base 64 flag
      as in the template. */
  ghost predicate ServerEventOf(ev: ApiEvent, template: ApiEvent, request: Request, operationPath: string) {
    && ev.headers == template.headers[ContentType := ContentTypeOf(request)]
    && ev.httpMethod == request.httpMethod
    && ev.path == request.path
    && ev.resource == operationPath
    && ev.pathParameters == ApiPath.ParamsFor(operationPath, request.path)
    && ev.queryStringParameters == Some(request.query)
    && ev.body == Some(request.bodyJson)
    && ev.isBase64Encoded == template.isBase64Encoded
  }

  /** `getAwsRequestEvent` of server.ts. */
  method GetAwsRequestEvent(template: ApiEvent, request: Request, operationPath: string)
    returns (ev: ApiEvent)
    ensures ServerEventOf(ev, template, request, operationPath)
    ensures forall k :: k in ev.headers && k != ContentType ==> k in template.headers && ev.headers[k] == template.headers[k]
  {
    ev := template;
    ev := ev.(headers := ev.headers[ContentType := ContentTypeOf(request)]);
    ev := ev.(httpMethod := request.httpMethod);
    ev := ev.(path := request.path);
    var pathParts := new ApiPath.Path();
    pathParts.Parse(operationPath, request.path);
    ApiPath.SecondSegmentRule(operationPath, request.path);
    ev := ev.(resource := operationPath);
    ev := ev.(pathParameters := pathParts.PathParams());
    ev := ev.(queryStringParameters := Some(request.query));
    ev := ev.(body := Some(request.bodyJson));
  }

  /** A content type with parameters after the media type, such as the
      boundary, still counts as multipart. */
  lemma MultipartWithParameters(rest: string)
    ensures IsMultipart(Some(MultipartFormData + rest))
  {
    assert (MultipartFormData + rest)[..|MultipartFormData|] == MultipartFormData;
  }

  /** `data && data.length`: a buffer was passed and it is not empty. */
  predicate HasData(data: Option<seq<byte>>)
    ensures data == None || data == Some([]) ==> !HasData(data)
    ensures HasData(data) ==> data.Some? && |data.value| >= 1
  {
    data.Some? && |data.value| > 0
  }

  /** The handler registered for every operation: build the event, replace
      its body by the base 64 text of a non-empty buffer, call the service
      handler and turn its outcome into the reply. The handler sees the
      buffer losslessly: decoding its body gives back the bytes. */
  method Handle<J>(template: ApiEvent, request: Request, operationPath: string, data: Option<seq<byte>>,
                   handler: ApiEvent -> Outcome<HandlerResult>, parse: string -> Outcome<J>)
    returns (event: ApiEvent, reply: Reply<J>)
    ensures !HasData(data) ==> ServerEventOf(event, template, request, operationPath)
    ensures HasData(data) ==>
              ServerEventOf(event.(body := Some(request.bodyJson), isBase64Encoded := template.isBase64Encoded),
                            template, request, operationPath)
    ensures HasData(data) ==> event.isBase64Encoded && event.body == Some(Base64.Encode(data.value))
    ensures HasData(data) ==> Base64.Decode(event.body.value) == Some(data.value)
    ensures reply == Respond(handler(event), parse)
  {
    event := GetAwsRequestEvent(template, request, operationPath);
    if HasData(data) {
      event := event.(body := Some(Base64.Encode(data.value)));
      event := event.(isBase64Encoded := true);
      Base64.DecodeEncode(data.value);
    }
    reply := Respond(handler(event), parse);
  }

  /** The buffer handed to the router by the first dispatch of a trace
      (None when the dispatch carries no buffer, or there is none). */
  function Handed(trace: seq<Step>): Option<seq<byte>> {
    if trace == [] then None
    else if trace[0].Dispatched? then trace[0].data
    else Handed(trace[1..])
  }

  /** Chunk arrivals in front of a dispatch do not change what it hands
      over. */
  lemma {:induction false} HandedAfterReceipts(chunks: seq<seq<byte>>, rest: seq<Step>)
    ensures Handed(Receipts(chunks) + rest) == Handed(rest)
    decreases |chunks|
  {
    if chunks != [] {
      assert (Receipts(chunks) + rest)[1..] == Receipts(chunks[1..]) + rest;
      HandedAfterReceipts(chunks[1..], rest);
    } else {
      assert Receipts(chunks) + rest == rest;
    }
  }

  /** What the middleware hands over: nothing for a request that is not
      multipart, the concatenated chunks for a multipart one. */
  lemma MiddlewareHands(contentType: Option<string>, chunks: seq<seq<byte>>, trace: seq<Step>)
    requires !IsMultipart(contentType) ==> trace == [Dispatched(None)] + Receipts(chunks)
    requires IsMultipart(contentType) ==> trace == Receipts(chunks) + [Dispatched(Some(Concat(chunks)))]
    ensures Handed(trace) == if IsMultipart(contentType) then Some(Concat(chunks)) else None
  {
    if IsMultipart(contentType) {
      HandedAfterReceipts(chunks, [Dispatched(Some(Concat(chunks)))]);
    }
  }

  /** One request from arrival to reply: the middleware hands it over, and
      the registered handler builds the event from whatever it was handed.
      A multipart request with a non-empty body reaches the service as base
      64; any other request carries its JSON body. */
  method Serve<J>(template: ApiEvent, request: Request, operationPath: string, chunks: seq<seq<byte>>,
                  handler: ApiEvent -> Outcome<HandlerResult>, parse: string -> Outcome<J>)
    returns (event: ApiEvent, reply: Reply<J>)
    ensures IsMultipart(ContentTypeOf(request)) && |Concat(chunks)| > 0 ==>
              && event.isBase64Encoded && event.body == Some(Base64.Encode(Concat(chunks)))
              && Base64.Decode(event.body.value) == Some(Concat(chunks))
              && ServerEventOf(event.(body := Some(request.bodyJson), isBase64Encoded := template.isBase64Encoded),
                               template, request, operationPath)
    ensures !(IsMultipart(ContentTypeOf(request)) && |Concat(chunks)| > 0) ==>
              ServerEventOf(event, template, request, operationPath)
    ensures reply == Respond(handler(event), parse)
  {
    var trace := Middleware(ContentTypeOf(request), chunks);
    MiddlewareHands(ContentTypeOf(request), chunks, trace);
    var data := Handed(trace);
    event, reply := Handle(template, request, operationPath, data, handler, parse);
  }
}
