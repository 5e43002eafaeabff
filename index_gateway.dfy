/** index.ts: a second gateway entry point. Its event keeps the template's
    headers and query untouched, takes parameters from the api_path.ts
    matcher, and its registered handler has the same 500 fallback as
    server.ts. Its `extractOperations` is the same loop as the one in
    api_helper.ts and is modelled there. */
module IndexGateway {
  import opened Common
  import opened Events
  import ApiPath
  import Server

  /** `ev` is the event index.ts builds from a copy of `template`: method,
      path, the operation path as resource, the position-2 parameters and the
      JSON body; headers, query and the base 64 flag as in the template. */
  ghost predicate IndexEventOf(ev: ApiEvent, template: ApiEvent, request: Request, operationPath: string) {
    && ev.headers == template.headers
    && ev.httpMethod == request.httpMethod
    && ev.path == request.path
    && ev.resource == operationPath
    && ev.pathParameters == ApiPath.ParamsFor(operationPath, request.path)
    && ev.queryStringParameters == template.queryStringParameters
    && ev.body == Some(request.bodyJson)
    && ev.isBase64Encoded == template.isBase64Encoded
  }

  /** `getAwsRequestEvent` of index.ts. */
  method GetAwsRequestEvent(template: ApiEvent, request: Request, operationPath: string)
    returns (ev: ApiEvent)
    ensures IndexEventOf(ev, template, request, operationPath)
  {
    ev := template;
    ev := ev.(httpMethod := request.httpMethod);
    ev := ev.(path := request.path);
    var pathParts := new ApiPath.Path();
    pathParts.Parse(operationPath, request.path);
    ApiPath.SecondSegmentRule(operationPath, request.path);
    ev := ev.(resource := operationPath);
    ev := ev.(pathParameters := pathParts.PathParams());
    ev := ev.(body := Some(request.bodyJson));
  }

  /** The two gateways build the same event up to the `content-type` header
      and the query, which only server.ts copies. */
  lemma SameEventUpToHeadersAndQuery(e1: ApiEvent, e2: ApiEvent, template: ApiEvent, request: Request,
                                     operationPath: string)
    requires Server.ServerEventOf(e1, template, request, operationPath)
    requires IndexEventOf(e2, template, request, operationPath)
    ensures e1.(headers := template.headers, queryStringParameters := template.queryStringParameters) == e2
    ensures e1.headers == e2.headers[Server.ContentType := Server.ContentTypeOf(request)]
    ensures e1.queryStringParameters == Some(request.query)
  {
  }

  /** The handler registered for every operation: build the event, call the
      service handler, reply with its status and parsed body, or with 500 and
      the generic error object if anything throws. */
  method Handle<J>(template: ApiEvent, request: Request, operationPath: string,
                   handler: ApiEvent -> Outcome<HandlerResult>, parse: string -> Outcome<J>)
    returns (event: ApiEvent, reply: Reply<J>)
    ensures IndexEventOf(event, template, request, operationPath)
    ensures reply == Respond(handler(event), parse)
  {
    event := GetAwsRequestEvent(template, request, operationPath);
    reply := Respond(handler(event), parse);
  }
}
