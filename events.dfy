/** The API Gateway proxy event handed to the Lambda-style handler, the
    request as the OpenAPI router hands it over, and the translation of the
    handler's outcome into the HTTP reply (the `try`/`catch` shared by the
    registered handlers of server.ts and index.ts). */
module Events {
  import opened Common

  /** Event headers; `None` is a key that was assigned `undefined`. */
  type Headers = map<string, Option<string>>

  /** Path parameters: parameter name to segment, `None` for `null`. */
  type PathParams = map<string, Option<string>>

  /** The fields of the proxy event that the gateway writes; every other
      field of the empty-event template is copied through untouched and is
      not represented. */
  datatype ApiEvent = ApiEvent(
    resource: string,
    path: string,
    httpMethod: string,
    headers: Headers,
    queryStringParameters: Option<map<string, string>>,
    pathParameters: Option<PathParams>,
    body: Option<string>,
    isBase64Encoded: bool)

  /** A routed request: method, path, header map, query map and the JSON
      text of its parsed body (`JSON.stringify(request.body)`, computed by
      the library and taken as given). */
  datatype Request = Request(
    httpMethod: string,
    path: string,
    headers: map<string, string>,
    query: map<string, string>,
    bodyJson: string)

  /** What the handler resolves to. */
  datatype HandlerResult = HandlerResult(statusCode: int, body: string)

  /** The JSON written to the client: the handler's parsed body, or the
      generic error object `{error: ...}`. */
  datatype Payload<J> = HandlerJson(json: J) | ErrorJson(error: string)

  /** An HTTP reply: status code and JSON payload. */
  datatype Reply<J> = Reply(status: int, payload: Payload<J>)

  const InternalServerError: string := "Internal server error"

  /** The reply for a handler outcome: the handler's status code and its
      body parsed as JSON; any error (the handler throwing, or its body not
      being JSON) becomes status 500 with the generic error object. */
  function Respond<J>(outcome: Outcome<HandlerResult>, parse: string -> Outcome<J>): (r: Reply<J>)
    ensures r.payload.ErrorJson? <==> outcome.Threw? || parse(outcome.value.body).Threw?
    ensures r.payload.ErrorJson? ==> r.status == 500 && r.payload.error == InternalServerError
    ensures r.payload.HandlerJson? ==>
              r.status == outcome.value.statusCode && parse(outcome.value.body) == Returned(r.payload.json)
  {
    match outcome
    case Threw => Reply(500, ErrorJson(InternalServerError))
    case Returned(response) =>
      match parse(response.body)
      case Threw => Reply(500, ErrorJson(InternalServerError))
      case Returned(json) => Reply(response.statusCode, HandlerJson(json))
  }
}
