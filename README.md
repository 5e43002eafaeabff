# ExpressBackend gateway, modelled in Dafny

ExpressBackend is a local stand-in for AWS API Gateway. It serves an AWS
Lambda microservice from a developer machine. It does three things:

- It reads the service's OpenAPI document and collects the `operationId` of
  every operation. It registers one handler per id.
- For each request, the handler turns the routed request into an API Gateway
  proxy event. It starts from a copy of an empty-event template. It sets the
  method, path, resource, path parameters, query and JSON body. It calls the
  service's `handler(event)` and replies with the handler's status and
  parsed body. When anything throws, it replies with 500 and
  `{ error: "Internal server error" }`.
- When asked, it writes the service's OpenAPI document itself. JSON schemas
  are generated from the service's TypeScript models, and their
  `#/definitions` references are rewritten. It also adds CRUD paths for the
  main entity, the AWS integration, optional Auth0 security and a
  query-string validator.

The model has these modules:

- `Common`: Option, Result, Outcome, byte.
- `JsText`: the JavaScript string built-ins the code relies on:
  - `split`, which always returns at least one piece.
  - The `/^\/+|\/+$/g` trim.
  - `replace` with a string pattern, which replaces the first occurrence only.
  - `includes`, `findIndex`, ASCII `toLowerCase` and `path.join`.
- `Events`: the proxy event, the routed request, and the reply with its 500
  fallback.
- `ApiHelper`: the matcher in api_helper.ts. It binds `id` at the first
  `{id}` segment of the template. The module also holds `Operation`,
  `extractOperations`, and the event builder that copies every header.
- `ApiPath`: the matcher in api_path.ts. It binds `id` only when the second
  template segment is `{id}`. server.ts and index.ts use this matcher.
- `Base64`: the encoding of section 4 of RFC 4648. server.ts uses it to pass
  a multipart body to the handler.
- `Server`: server.ts:
  - Region short names and the bucket name.
  - The multipart middleware, as a trace of chunk receipts and dispatches.
  - The event builder that copies only `content-type`.
  - The registered handler, and the composition of middleware and handler.
- `IndexGateway`: index.ts, a second gateway script. Its event keeps the
  template's headers and query.
- `ModelExp`: swagger/model_exp.ts:
  - `ModelRequest` and its paths.
  - Schema post-processing and the `$ref` rewriting.
  - `GenerateAll` over the model files.
- `SwaggerGen`: swagger/swagger_gen.ts, the OpenAPI document generator.

Some things are parameters rather than modelled code:

- The empty-event template (`API_Event_empty.json`) is a parameter.
- The service's handler is a function from event to `Outcome`. `Threw`
  stands for a rejected promise.
- `JSON.parse` of the handler's body is a function from string to
  `Outcome`.
- The schema generator (typescript-json-schema) is a function from model
  name to optional schema.
- `swaggerJSDoc`'s output is the input `Document`.

## Model

The `PathParams` and `HasPathParam` getters of both `Path` classes return their field unchanged and are not listed.

| member | source | states |
|---|---|---|
| JsText.IndexOf | api_helper.ts:37-40 | `includes`/`findIndex`: None exactly when the element is absent; otherwise the first index holding it |
| JsText.IndexOfAfter | api_helper.ts:40 | `findIndex` on `pre + [x] + post` with `x` not in `pre` is the length of `pre` |
| JsText.Join | api_helper.ts:34-35 | `join`, the inverse of `split`: the first piece is a prefix of the result, and the separator occurs whenever there are several pieces |
| JsText.Split | api_helper.ts:34-35 | `split('/')` yields at least one piece, none contains the separator, joining them gives the input back, and there is one piece exactly when the separator is absent |
| JsText.SplitJoin | api_helper.ts:34-35 | splitting a join of separator-free pieces gives the pieces back |
| JsText.SplitFirst | api_helper.ts:58-59 | the first piece of `split` is the text before the first separator, or the whole string |
| JsText.SplitSecond | api_helper.ts:61-62 | the second piece of `split` is the text between the first and second separators |
| JsText.TrimLeading | api_helper.ts:34 | the `^\/+` half of the trim removes exactly a run of the character at the front |
| JsText.TrimTrailing | api_helper.ts:34 | the `\/+$` half removes exactly a run of the character at the end |
| JsText.TrimSlashes | api_helper.ts:34 | the trimmed string neither starts nor ends with `/`, is no longer than the input, and equals the input when it had nothing to trim |
| JsText.TrimSlashesLeading | api_path.ts:32-33 | an extra leading `/` makes no difference to the trim |
| JsText.TrimSlashesIdempotent | api_path.ts:32-33 | trimming twice is trimming once |
| JsText.FindSub | swagger/model_exp.ts:94 | the first occurrence of a substring: it occurs there and nowhere before; None means it occurs nowhere |
| JsText.ReplaceFirst | swagger/model_exp.ts:97 | `replace` with a string pattern: unchanged when the pattern is absent; otherwise the first occurrence is replaced and the length changes accordingly |
| JsText.ReplaceFirstAtStart | swagger/model_exp.ts:94 | replacing a pattern at the very front leaves the rest untouched |
| JsText.ReplaceFirstAbsent | swagger/model_exp.ts:97 | replacing an absent pattern changes nothing |
| JsText.OccursShift | swagger/model_exp.ts:111 | dropping the first character shifts every later occurrence by one |
| JsText.StartsWith | server.ts:161 | `startsWith`: a string that starts with a prefix is that prefix followed by the rest |
| JsText.LowerChar | swagger/swagger_gen.ts:252 | `toLowerCase` on one character: an upper-case ASCII letter becomes the lower-case letter 32 code points above it, everything else is kept |
| JsText.ToLowerAscii | swagger/swagger_gen.ts:252-253 | same length, lower-cased character by character, with no upper-case ASCII letter left |
| JsText.NonEmpty | swagger/model_exp.ts:40-51 | `path.join` drops empty segments: the result has no empty segment |
| JsText.NonEmptyAppend | swagger/model_exp.ts:40-51 | dropping empty segments works piecewise, so the non-empty segments are all kept, in order |
| JsText.NonEmptyOne | swagger/model_exp.ts:40-51 | a single segment is kept exactly when it is not empty |
| JsText.PathJoin | swagger/model_exp.ts:40-51 | `path.join` never returns the empty string |
| JsText.PathJoin2 | swagger/model_exp.ts:41 | two non-empty segments join as `a/b` |
| JsText.PathJoin3 | swagger/model_exp.ts:47 | three non-empty segments join as `a/b/c` |
| Events.Respond | server.ts:121-135 | the reply is the error object exactly when the handler or the parse of its body throws; then the status is 500 with the generic message; otherwise it is the handler's status and parsed body |
| ApiHelper.Segments | api_helper.ts:34-35 | the segments of a path: at least one, none contains `/`, and joining them gives the trimmed path |
| ApiHelper.SegmentAt | api_helper.ts:11-13 | `Part(position)`: present exactly when the position is within the segments, and then it is that segment |
| ApiHelper.ParamsFor | api_helper.ts:36-42 | the parameters are undefined exactly when the template has no `{id}` segment |
| ApiHelper.FirstMarkerRule | api_helper.ts:37-41 | when the first `{id}` of the template is at position k, the parameters are `{ id: s }` with s the request's k-th segment, or `{ id: undefined }` when the request is shorter |
| ApiHelper.ShortRequestUnbound | api_helper.ts:37-41 | a request that stops just before the template's `{id}` gives `{ id: undefined }` |
| ApiHelper.Path.Part | api_helper.ts:11-13 | `null` before `Parse`, else the 1-based segment or `null` past the end |
| ApiHelper.Path.constructor | api_helper.ts:15-20 | a new matcher has no segments, `pathParams` null and `hasPathParam` unset (false) |
| ApiHelper.Path.Parse | api_helper.ts:33-45 | both segment lists are stored; with an `{id}` segment, `hasPathParam` is set and `id` is bound at the first `{id}`; without one, the earlier fields are kept |
| ApiHelper.JoinEnds | api_helper.ts:34 | a join of clean segments has nothing for the trim to remove |
| ApiHelper.SegmentsOfJoin | api_helper.ts:34-35 | segmenting `"/" + join(segs)` gives the clean segments back |
| ApiHelper.BindsTemplateSlot | api_helper.ts:37-41 | a request that fills the first `{id}` slot of its template with `v` yields `{ id: v }` |
| ApiHelper.CleanSlot | api_helper.ts:34-35 | a clean segment placed between clean segment lists keeps the list clean |
| ApiHelper.SlotSegments | api_helper.ts:34-35 | a path built from clean segments segments back into exactly those segments |
| ApiHelper.NoMarkerNoParams | api_helper.ts:37 | a template without `{id}` gives no parameters, whatever the path |
| ApiHelper.WidgetsExample | api_helper.ts:33-42 | `/widgets/{id}` against `/widgets/42` gives `{ id: "42" }` |
| ApiHelper.Operation.Parts | api_helper.ts:65-67 | the dotted name splits into at least one part |
| ApiHelper.Operation.HasClassName | api_helper.ts:54-56 | there is a class name exactly when the operation name contains a dot |
| ApiHelper.Operation.GetClassName | api_helper.ts:58-60 | the text before the first dot, or "" without a dot; it never contains a dot |
| ApiHelper.Operation.GetMethodName | api_helper.ts:61-63 | the text between the first and second dots, or the whole name without a dot; it never contains a dot |
| ApiHelper.OperationNameRoundTrip | api_helper.ts:54-67 | `Class.method` gives back its class and method name; an undotted name is its own method name with no class |
| ApiHelper.MemberValues | api_helper.ts:74-75 | the member values of a path object, one per member, in order |
| ApiHelper.IdsOf | api_helper.ts:76-78 | at most one id is collected per operation |
| ApiHelper.IdsOfMembers | api_helper.ts:76-78 | a string is collected exactly when some operation has it as a truthy `operationId` |
| ApiHelper.IdsOfAppend | api_helper.ts:72-80 | the collection keeps document order across concatenation |
| ApiHelper.IdsOfAllNamed | api_helper.ts:76-78 | when every operation has a non-empty id, the k-th id collected is the k-th operation's |
| ApiHelper.AllOperationsStep | api_helper.ts:72-73 | one more path adds its member values at the end |
| ApiHelper.MemberValuesStep | api_helper.ts:74-75 | one more member adds its value at the end |
| ApiHelper.AllOperations | api_helper.ts:72-75 | the member values of every path, in order: every member of every path is among them |
| ApiHelper.IdsOfSnoc | api_helper.ts:76-78 | one more operation adds its id at the end when it is truthy |
| ApiHelper.ExtractOperations | api_helper.ts:69-84 | the nested loop returns the truthy operation ids of every member of every path, in document order (the same loop is at api_path.ts:60-75 and index.ts:71-86) |
| ApiHelper.GetAwsRequestEvent | api_helper.ts:92-111 | every request header is copied over the template's headers, and no other header appears; method, path, resource, first-`{id}` parameters, query and JSON body are set; the base64 flag stays as in the template |
| ApiPath.RemoveBracesSpec | api_path.ts:35 | removing every brace: no brace is left, the result is no longer, and a brace-free name comes back unchanged |
| ApiPath.RemoveBraces | api_path.ts:35 | the global `replace` of the regex that matches `{` or `}` by `''` never lengthens the name |
| ApiPath.RemoveBracesAppend | api_path.ts:35 | the global replace works piecewise: the braces of a concatenation are removed part by part |
| ApiPath.RemoveBracesKeeps | api_path.ts:35 | every character that is not a brace survives, in its place among the rest |
| ApiPath.ParamsFor | api_path.ts:34-35 | the parameters are present exactly when the template has at least two segments and the second is `{id}`, and then their only key is `id` |
| ApiPath.Path.Part | api_path.ts:9-11 | `null` before `Parse`, else the 1-based request segment or `null` past the end |
| ApiPath.Path.constructor | api_path.ts:13-18 | a new matcher has no segments, `pathParams` null and `hasPathParam` unset (false) |
| ApiPath.Path.PartRes | api_path.ts:27-29 | the same for the template's segments |
| ApiPath.Path.Parse | api_path.ts:31-36 | `hasPathParam` holds exactly when the second template segment is `{id}`; then the parameters are exactly `{ id: Part(2) }`, the second request segment or `null`; otherwise the earlier parameters are kept |
| ApiPath.MarkerName | api_path.ts:35 | removing the braces from `{id}` gives the parameter name `id` |
| ApiPath.SecondSegmentRule | api_path.ts:34-35 | the parameters are present exactly when the second template segment is `{id}`, and then hold the second request segment |
| ApiPath.AgreesWithApiHelper | api_path.ts:34-35 | for templates whose first `{id}` is the second segment, the two matchers give the same parameters |
| ApiPath.FirstSegmentDiverges | api_path.ts:34-35 | a template `/{id}` against a request `/v` binds `id` to `v` under the api_helper.ts matcher but binds nothing under the api_path.ts matcher (see also api_helper.ts lines 37-41) |
| ApiPath.BindsSecondSegment | api_path.ts:34-35 | `/entity/{id}/...` against `/entity/v/...` binds `id` to `v` |
| ApiPath.FilledSegments | api_path.ts:32-33 | a template and a path built from clean segments segment back into those segments, with `{id}` and `v` at the same position |
| Base64.SextetOf | server.ts:125 | the padding character is not a digit of the alphabet |
| Base64.CharOf | server.ts:125 | every 6-bit group has an alphabet character that reads back as that group and is not the padding |
| Base64.EncodeGroup | server.ts:125 | three bytes encode as four characters |
| Base64.EncodedLength | server.ts:125 | `data.toString("base64")` has four characters per started group of three bytes |
| Base64.GroupBits | server.ts:125 | the three bytes of a group are recovered from its four 6-bit groups |
| Base64.DecodeOnePadded | server.ts:125 | a group ending in `==` decodes to one byte |
| Base64.DecodeTwoPadded | server.ts:125 | a group ending in `=` decodes to two bytes |
| Base64.DecodeFullGroup | server.ts:125 | four alphabet characters decode to three bytes followed by the rest's decoding |
| Base64.DecodeEncodeOne | server.ts:125 | one byte survives its padded group |
| Base64.DecodeEncodeTwo | server.ts:125 | two bytes survive their padded group |
| Base64.DecodeGroupThen | server.ts:125 | three bytes survive their group in front of any decodable text |
| Base64.DecodeEncodeStep | server.ts:125 | if the bytes after the first three survive the round trip, the whole body does |
| Base64.DecodeEncode | server.ts:123-126 | decoding the event body gives back exactly the buffered multipart bytes |
| Base64.EncodeInjective | server.ts:125 | different bodies give different encoded strings |
| Base64.TwoBytesExample | server.ts:125 | the bytes 0x01 0x02 encode as `AQI=` |
| Server.RegionShort | server.ts:25-69 | the short name is empty exactly for a region outside the 22 listed |
| Server.RegionGroups | server.ts:26-65 | regions listed together share a short name (`us-e`, `us-w`, `ap-ne`, `ap-se`, `eu`), and `il-central-1` is `il` |
| Server.BucketName | server.ts:85 | the bucket is `web.oxymoron-tech.com` for an empty short name; otherwise it starts with `web`, then the short name after a dot, and ends with `.oxymoron-tech.com` |
| Server.BucketNameInjective | server.ts:85 | different short names give different buckets |
| Server.GatewayBucket | server.ts:79-85 | the gateway's region, `il-central-1`, gives the bucket `web.il.oxymoron-tech.com` (see also server.ts line 19) |
| Server.UnlistedRegionBucket | server.ts:66-67 | a region outside the switch gives the bare `web.oxymoron-tech.com` (see also server.ts line 85) |
| Server.Concat | server.ts:163 | no chunks concatenate to no bytes |
| Server.ConcatAppend | server.ts:163 | `Buffer.concat` distributes over concatenated chunk lists |
| Server.ConcatOne | server.ts:163 | a single chunk concatenates to its own bytes; with ConcatAppend, `Buffer.concat` gives the chunks' bytes in order |
| Server.Receipts | server.ts:156-158 | one receipt per chunk, in arrival order |
| Server.ReceiptsDispatchNothing | server.ts:156-158 | receiving chunks never dispatches the request |
| Server.IsMultipart | server.ts:161 | a missing `content-type` is not multipart; `multipart/form-data` itself is |
| Server.MultipartWithParameters | server.ts:161 | a content type that continues after `multipart/form-data`, such as one with a boundary, is multipart |
| Server.HasData | server.ts:123 | no buffer and an empty buffer count as no data; data is a buffer of at least one byte |
| Server.HandedAfterReceipts | server.ts:156-158 | chunk receipts in front of a dispatch do not change what it hands over |
| Server.MiddlewareHands | server.ts:160-171 | the first dispatch hands over nothing for a request that is not multipart and the concatenated chunks for a multipart one |
| Server.DispatchesAppend | server.ts:154-172 | dispatches of a joined trace add up |
| Server.Middleware | server.ts:154-172 | a non-multipart request is dispatched at once with no data, before its chunks are collected; a multipart one after all chunks, with their concatenation; every request is dispatched exactly once |
| Server.ContentTypeOf | server.ts:200 | the request's `content-type`, present exactly when the request has that header |
| Server.GetAwsRequestEvent | server.ts:198-215 | the event is the template with only `content-type` copied from the request, and with method, path, resource, second-segment parameters, query and JSON body set; every other header is the template's |
| Server.Handle | server.ts:115-136 | without data, the event is the one built above; with data, it is that event with its body replaced by `data.toString("base64")`, which decodes back to the data, and its flag set; the reply is the handler's reply or the 500 fallback |
| Server.Serve | server.ts:154-172 | the handler is given what the middleware's dispatch hands over; a multipart request with bytes reaches it as the base64 encoding of the concatenated chunks, which decodes back to them, with every other field as the event builder sets it; any other request gets the built event unchanged; the reply is the handler's or the fallback (see also server.ts lines 115-136) |
| IndexGateway.GetAwsRequestEvent | index.ts:55-69 | the event is the template with method, path, resource, second-segment parameters and JSON body set; headers, query and the base64 flag stay as in the template |
| IndexGateway.SameEventUpToHeadersAndQuery | index.ts:55-69 | the two gateways build the same event except for the `content-type` header and the query, which only server.ts sets (see also server.ts lines 198-215) |
| IndexGateway.Handle | index.ts:24-34 | the event is the one built above, and the reply is the handler's reply or the 500 fallback |
| ModelExp.GetRef | swagger/model_exp.ts:101-106 | with a truthy API id, the base is the REST API models URL for that id; otherwise `#/components/schemas` |
| ModelExp.GetRefInjective | swagger/model_exp.ts:101-106 | different API ids give different reference bases |
| ModelExp.ReplaceDefinition | swagger/model_exp.ts:92-100 | an array property throws exactly when it has no `items` or no `items.$ref`; only `$ref` and `items` may change; a non-array without a truthy `$ref` is untouched |
| ModelExp.ArrayRefRewritten | swagger/model_exp.ts:93-95 | an array whose items point at `#/definitions/Name` gets items pointing at `base/Name`, and nothing else changes |
| ModelExp.DirectRefRewritten | swagger/model_exp.ts:96-97 | a direct `#/definitions/Name` reference becomes `base/Name`, and nothing else changes |
| ModelExp.ForeignRefKept | swagger/model_exp.ts:96-97 | a reference that does not mention `#/definitions` is left as it is |
| ModelExp.ArrayRefValue | swagger/model_exp.ts:94-95 | an array's item reference becomes `base/name`, where name is the reference with its first `#/definitions/` removed, or the whole reference when it has none |
| ModelExp.DirectRefValue | swagger/model_exp.ts:96-97 | a truthy direct reference has its first `#/definitions` replaced by the base, and is kept when it has none; nothing else changes |
| ModelExp.RewriteProperties | swagger/model_exp.ts:80-85 | rewriting succeeds exactly when every property rewrites; the keys and their order are kept and each value is its rewrite |
| ModelExp.RewritePropertiesErrPrefix | swagger/model_exp.ts:82-85 | the first property that throws decides the outcome, whatever follows |
| ModelExp.PostProcess | swagger/model_exp.ts:76-90 | an absent schema stays absent; a produced one loses `definitions` and `$schema`, is titled with the model name, keeps its `required` list, and has its properties rewritten; without properties it is the schema's own `replaceDefinition` result with those fields changed, and it throws exactly when that does |
| ModelExp.Generate | swagger/model_exp.ts:69-91 | the loop over the properties gives the post-processed schema, or the throw of the first failing property |
| ModelExp.ModelNameOfFirstTs | swagger/model_exp.ts:111 | `file.replace('.ts', '')` removes the first `.ts` only, wherever it is |
| ModelExp.ModelNameOf | swagger/model_exp.ts:111 | the file name is kept when it has no `.ts`; otherwise the result is three characters shorter |
| ModelExp.ModelNameOfFileNameTS | swagger/model_exp.ts:56-58 | the model name of `fileNameTS(m)` is `m` (see also swagger/model_exp.ts line 111) |
| ModelExp.FirstOccurrence | swagger/model_exp.ts:111 | an occurrence with none before it is the one `replace` finds |
| ModelExp.GenerateAll | swagger/model_exp.ts:108-115 | one schema per model file, in directory order, each generated for the file's name without `.ts`; it throws exactly when one of them throws |
| ModelExp.Or | swagger/model_exp.ts:33-38 | a field given in the constructor's data wins over its default |
| ModelExp.ModelRequest.constructor | swagger/model_exp.ts:33-38 | without data every field has its initialiser; with data, every field the data gives overrides its initialiser, and the others keep it |
| ModelExp.ModelRequest.ModelsPath | swagger/model_exp.ts:40-42 | throws (None) without a destination, since `path.join` rejects `undefined`; otherwise the destination joined with the models directory |
| ModelExp.ModelRequest.ExportPath | swagger/model_exp.ts:43-45 | the destination joined with the export directory |
| ModelExp.ModelRequest.GeneratePath | swagger/model_exp.ts:46-48 | the destination, generate directory and export directory joined |
| ModelExp.ModelRequest.GenerateTsPath | swagger/model_exp.ts:49-51 | the destination, generate directory and `models` joined |
| ModelExp.DefaultLayout | swagger/model_exp.ts:40-45 | with the default models and export directories, the paths are `d/src/models` and `d/export` (see also swagger/model_exp.ts lines 19-26) |
| ModelExp.DefaultGenerateLayout | swagger/model_exp.ts:46-51 | with the default generate and export directories, the paths are `d/generated/export` and `d/generated/models` (see also swagger/model_exp.ts lines 19-26) |
| ModelExp.FileName | swagger/model_exp.ts:53-55 | the model name followed by `.json` |
| ModelExp.FileNameTS | swagger/model_exp.ts:56-58 | the model name followed by `.ts` |
| ModelExp.FileNamesDistinct | swagger/model_exp.ts:53-58 | each naming is one-to-one, and a JSON file name is never a TypeScript file name |
| SwaggerGen.OnlyAuth0 | swagger/swagger_gen.ts:6-8 | `IsStringInEnum(x, AuthTypes)` holds exactly for `Auth0` (see also swagger/swagger_gen.ts line 27) |
| SwaggerGen.IsStringInEnum | swagger/swagger_gen.ts:27 | holds exactly when the input is one of the enum's values |
| SwaggerGen.BaseSchemas | swagger/swagger_gen.ts:48-54 | missing component schemas are replaced by the single `Empty` schema; existing ones are kept |
| SwaggerGen.SchemaKey | swagger/swagger_gen.ts:62 | a schema is registered under its title, and under `undefined` when it or its title is missing |
| SwaggerGen.RegisterSchemas | swagger/swagger_gen.ts:61-63 | the registered keys are the existing ones plus the key of every model schema |
| SwaggerGen.RegisteredSchema | swagger/swagger_gen.ts:61-63 | a schema not overwritten by a later one with the same key is stored under its key |
| SwaggerGen.KeptSchema | swagger/swagger_gen.ts:61-63 | an existing schema that no model schema's key matches is kept |
| SwaggerGen.AddModelSchemas | swagger/swagger_gen.ts:61-63 | the loop registers every model schema in order |
| SwaggerGen.FindSearchParams | swagger/swagger_gen.ts:192 | a schema found by the search is titled `SearchParams` |
| SwaggerGen.FindSearchParamsFirst | swagger/swagger_gen.ts:192 | no search params exactly when every schema is present and none is titled `SearchParams`; a found one is the first so titled; a throw comes from a missing schema with none titled so before it |
| SwaggerGen.QueryParam | swagger/swagger_gen.ts:197-204 | a query parameter named after the property with its type; `required` is undefined without a required list, else whether the name is in it |
| SwaggerGen.BuildQueryParams | swagger/swagger_gen.ts:194-206 | one query parameter per property, in order |
| SwaggerGen.OperationIds | swagger/swagger_gen.ts:67-189 | the operation ids of a path item, in member order |
| SwaggerGen.MainPath | swagger/swagger_gen.ts:67-108 | the main path literal: `get_all` then `create`, whose request body refers to the entity's schema; no parameters, integration or security yet |
| SwaggerGen.IdPath | swagger/swagger_gen.ts:109-189 | the `{id}` path literal: `get`, `update` and `delete`, `update`'s request body refers to the entity's schema, each has the `id` path parameter; no integration or security yet |
| SwaggerGen.MainKey | swagger/swagger_gen.ts:252 | `/` followed by the lower-cased entity |
| SwaggerGen.IdKey | swagger/swagger_gen.ts:253 | the main key followed by `/{id}` |
| SwaggerGen.KeysDistinct | swagger/swagger_gen.ts:252-253 | the main path and the `{id}` path are different keys |
| SwaggerGen.AttachIntegration | swagger/swagger_gen.ts:218-223 | every operation gets the AWS integration, and nothing else changes |
| SwaggerGen.AttachSecurity | swagger/swagger_gen.ts:227-232 | every operation requires the scheme, and nothing else changes |
| SwaggerGen.SchemeOf | swagger/swagger_gen.ts:225-228 | a security scheme is attached exactly when `auth_type` is truthy, and it is that name |
| SwaggerGen.BuildPaths | swagger/swagger_gen.ts:67-189 | each path is its literal with only parameters, integration and security changed; every operation is integrated and secured as asked; `get_all` has the query parameters, `create` none, and `get`, `update` and `delete` each the `id` path parameter (see also swagger/swagger_gen.ts lines 208-232) |
| SwaggerGen.AddPaths | swagger/swagger_gen.ts:252-253 | the main path and the `{id}` path are stored under their keys; every other path and every other field of the document is kept |
| SwaggerGen.SearchQuery | swagger/swagger_gen.ts:192-206 | it throws exactly when the `SearchParams` search throws or the found model has no properties; otherwise `get_all`'s parameters are one query parameter per property, or none without that model |
| SwaggerGen.AddCrudPaths | swagger/swagger_gen.ts:218-253 | it throws exactly for a truthy but unrecognised auth type; otherwise the Auth0 scheme is set when due, both CRUD paths are stored as their literals with integration, security and the given `get_all` parameters, and nothing else changes |
| SwaggerGen.Generate | swagger/swagger_gen.ts:34-258 | it throws exactly for an unrecognised auth type, a missing model schema before `SearchParams`, or a `SearchParams` model without properties; otherwise servers are emptied, schemas are registered, both CRUD paths are added as their literals with only integration, security and parameters changed (`id` on the `{id}` path, the query parameters on `get_all`), the validator and Auth0 scheme are set when due, and every other path is kept |
| SwaggerGen.AsPathEntry | swagger/swagger_gen.ts:252-253 | a generated path item seen as an entry of `paths`, with its members in order |
| SwaggerGen.EntryIds | swagger/swagger_gen.ts:252-253 | when every operation has a non-empty id, `extractOperations` on one path entry finds its operation ids in member order (see also api_helper.ts lines 74-78) |
| SwaggerGen.DiscoveredOperations | swagger/swagger_gen.ts:252-253 | `extractOperations` on the two generated paths finds the main path's ids followed by the `{id}` path's (see also api_helper.ts lines 69-84) |
| SwaggerGen.DiscoveredCrud | swagger/swagger_gen.ts:252-253 | for the generated CRUD paths it finds exactly `get_all`, `create`, `get`, `update` and `delete`, in that order (see also api_helper.ts lines 69-84) |
| SwaggerGen.LowerKeepsSegment | swagger/swagger_gen.ts:252 | lower-casing a non-empty, slash-free entity name keeps it so |
| SwaggerGen.JoinPair | swagger/swagger_gen.ts:253 | two segments join with one `/` |
| SwaggerGen.IdPathBindsId | swagger/swagger_gen.ts:253 | a request to `/<entity>/v` routed to the generated `{id}` path binds `id` to `v` (see also api_path.ts lines 31-36) |
| SwaggerGen.KeyShapes | swagger/swagger_gen.ts:252-253 | the generated keys are `/` followed by the lower-cased entity, and then `/{id}` or the request segment |

## Left out

- Express plumbing is not modelled: CORS, static files, the Swagger UI route, `listen` and the console logging (server.ts:142-191, index.ts:44-53).
- Command-line arguments, `.env` files and `dotenv_apply.ts` are not modelled. The environment variables are reduced to the region short name and bucket name; reading `package.json` is not modelled.
- File I/O is not modelled: `readdirSync`, `mkdirSync` (so the `ModelExport` constructor is left out), `writeFileSync` and the returned message of `Generate`. The directory listing is a parameter of `GenerateAll`.
- `deepmerge`, `JSON.stringify` and `swaggerJSDoc` are taken as given. The empty-event template is a parameter, and the stringified body is part of the request.
- The typescript-json-schema generator is a function parameter of `ModelExp.GenerateAll`; its compiler settings are not modelled.
- openapi-backend's routing is not modelled. The operation path is the one the router matched, given as a parameter.
- Server.Middleware: the asynchronous interleaving of `data` and `end` events is reduced to one trace. Chunks arrive in order and `end` comes last.
- Server.Handle: the handler's promise is an `Outcome`, so timing and concurrency between requests are not modelled.
- ApiHelper.Path.Part, ApiPath.Path.Part and ApiPath.Path.PartRes: positions below 1 are excluded; the code only calls them with 1 and 2 or an index plus one.
- Headers are single strings. Multi-valued headers and header-name case folding are not modelled.
- Server.GetAwsRequestEvent: a request without `content-type` gets that header stored as an undefined value (None), as the assignment at server.ts:200 does; the JSON serialisation that would then drop it is not modelled.
- JsText.PathJoin joins the non-empty segments with `/`. It does not model `path.join`'s normalisation of `.`, `..` and repeated slashes.
- JsText.ToLowerAscii lower-cases ASCII letters only, not the rest of Unicode.
- ModelExp.DirectRefValue: `$` patterns (`$&`, `` $` ``, `$'`) in the replacement string of `replace` are not expanded. The replacement at swagger/model_exp.ts:97 embeds the API id, so the model assumes an API id without `$`.
- ModelExp.ModelRequest.constructor: the string form of `data` is not modelled; the model takes data that is already parsed. A field given as an explicit `undefined` is modelled as absent, so the default is kept.
- The property order of `Object.keys` is the order of the sequences. JavaScript's rule that integer-like keys come first is not modelled.
- The JSON key order of the written document is not modelled.
- Schema properties that are booleans or `null` are not modelled; every property is an object schema.
- No authorizer is modelled, and neither is a 401 path. The Auth0 scheme is only recorded in the document.
- The `Operation` class exists identically in api_helper.ts and api_path.ts, and index.ts repeats its `extractOperations` loop as a free function. They are modelled once, in `ApiHelper`.
- SwaggerGen.Generate: the auth check is evaluated before the paths are built. The code checks it after the integration is attached, but a throw discards the document either way, so the outcome is the same.
- SwaggerGen.Generate: a package without `main_entity` makes `mainEntity.toLowerCase()` throw at swagger/swagger_gen.ts:252; the model takes the entity as a string that is always present, so this throw is not modelled.
- Events.Respond: Express's `res.status` rejects a status code outside 100-999, which then surfaces as a 500 (server.ts:131, index.ts:28); the model passes any integer status through.
- Base64.Encode: its properties are stated by the lemmas Base64.EncodedLength, Base64.DecodeEncode and Base64.EncodeInjective rather than by its own ensures, because an ensures on it makes the round-trip induction too costly for the solver.
- SwaggerGen.Generate: `ms` stands for the result of a `ModelExp.GenerateAll` run that did not throw (with no API id, so references point under `#/components/schemas`). A throw of `GenerateAll` at swagger/swagger_gen.ts:59 propagates out of `Generate` in the code, but it is outside `GenerateThrows`, and the two are not composed here.
- ApiHelper.ExtractOperations: a `null` member under a path makes `operation.operationId` throw (api_helper.ts:76, index.ts:78). Every member is modelled as an object, so this throw is not modelled.
- Events.Request: query values are single strings. Express can also parse a query value into an array or a nested object; that is not modelled.
