/** swagger/swagger_gen.ts: assembling the OpenAPI document of a service
    from the base document the JSDoc scanner produced, the exported model
    schemas and the service's package description. The CRUD paths of the
    main entity are added, every operation is wired to the Lambda proxy
    integration, `get_all` gets its query parameters from the
    `SearchParams` model, and a recognised authorizer type is attached to
    every operation. */
module SwaggerGen {
  import opened Common
  import opened JsText
  import opened ModelExp
  import ApiHelper
  import ApiPath

  // ---------------------------------------------------------------------
  // authorizer types

  /** `IsStringInEnum(input, enumObj)`: whether `input` is one of the
      enumeration's values. */
  predicate IsStringInEnum(input: string, enumObj: map<string, string>)
    ensures IsStringInEnum(input, enumObj) <==> exists k :: k in enumObj && enumObj[k] == input
  {
    input in enumObj.Values
  }

  /** The `AuthTypes` enumeration. */
  const AuthTypes: map<string, string> := map["Auth0" := "Auth0"]

  /** `Auth0` is the only recognised authorizer type. */
  lemma OnlyAuth0(input: string)
    ensures IsStringInEnum(input, AuthTypes) <==> input == "Auth0"
  {
    assert AuthTypes["Auth0"] == "Auth0";
    assert AuthTypes.Values == {"Auth0"};
  }

  // ---------------------------------------------------------------------
  // the document

  /** A query or path parameter: name, location, `required` (`undefined`
      when the model lists no required keys) and schema type. */
  datatype Param = Param(name: string, location: string, required: Option<bool>, typ: Option<string>)

  /** The `x-amazon-apigateway-integration` block. */
  datatype Integration = Integration(
    httpMethod: string, uri: string, defaultStatusCode: string,
    passthroughBehavior: string, contentHandling: string, typ: string)

  const AwsExt: Integration := Integration(
    "POST",
    "arn:aws:apigateway:${region}:lambda:path/2015-03-31/functions/arn:aws:lambda:${region}:${account}:function:${lambda_name}/invocations",
    "200", "when_no_match", "CONVERT_TO_TEXT", "aws_proxy")

  /** One operation of a path: its id, parameters (absent when the key is
      not set), request and response schema references, the integration and
      the name of the security scheme it requires, if any. */
  datatype OperationDoc = OperationDoc(
    operationId: string,
    parameters: Option<seq<Param>>,
    requestRef: Option<string>,
    responseRef: string,
    integration: Option<Integration>,
    security: Option<string>)

  /** A path: its operations keyed by HTTP method, in key order. */
  type PathItem = seq<(string, OperationDoc)>

  /** The custom authorizer scheme. */
  datatype SecurityScheme = SecurityScheme(
    typ: string, name: string, location: string, authType: string,
    authorizerType: string, authorizerUri: string, resultTtlInSeconds: int)

  const Auth0Scheme: SecurityScheme := SecurityScheme(
    "apiKey", "Authorization", "header", "custom", "token",
    "arn:aws:apigateway:${region}:lambda:path/2015-03-31/functions/arn:aws:lambda:${region}:${account}:function:${auth_name}/invocations",
    300)

  /** A request validator. */
  datatype Validator = Validator(validateRequestParameters: bool, validateRequestBody: bool)

  const ValidatorName: string := "Validate query string parameters and headers"
  const QsValidator: Validator := Validator(true, false)

  /** The parts of the OpenAPI document the assembly touches: servers,
      `components.schemas` (absent or a map; a `null` model is stored as
      `null`), `components.securitySchemes`, the request validators and
      `paths`. */
  datatype Document = Document(
    servers: seq<string>,
    schemas: Option<map<string, Option<Schema>>>,
    securitySchemes: Option<map<string, SecurityScheme>>,
    requestValidators: Option<map<string, Validator>>,
    paths: map<string, PathItem>)

  /** What `Generate` reads from package.json. */
  datatype PackageInfo = PackageInfo(mainEntity: string, authType: Option<string>)

  // ---------------------------------------------------------------------
  // component schemas

  const EmptySchema: Schema :=
    Schema(Some("object"), None, None, None, None, Some("Empty Schema"), false, false)

  /** The schemas the models are added to: the document's own, or just
      `Empty` when it has none. */
  function BaseSchemas(doc: Document): (r: map<string, Option<Schema>>)
    ensures doc.schemas.None? ==> r == map["Empty" := Some(EmptySchema)]
    ensures doc.schemas.Some? ==> r == doc.schemas.value
  {
    if doc.schemas.None? then map["Empty" := Some(EmptySchema)] else doc.schemas.value
  }

  /** `modelSchema?.title` used as a key: `"undefined"` for a missing model
      or a schema without a title. */
  function SchemaKey(s: Option<Schema>): (k: string)
    ensures s.Some? && s.value.title.Some? ==> k == s.value.title.value
    ensures s.None? || s.value.title.None? ==> k == "undefined"
  {
    if s.Some? && s.value.title.Some? then s.value.title.value else "undefined"
  }

  /** `base` with each model stored under its key, in order. */
  function RegisterSchemas(base: map<string, Option<Schema>>, ms: seq<Option<Schema>>): (r: map<string, Option<Schema>>)
    ensures r.Keys == base.Keys + set i | 0 <= i < |ms| :: SchemaKey(ms[i])
    decreases |ms|
  {
    if ms == [] then base
    else
      var front := ms[..|ms| - 1];
      assert forall i :: 0 <= i < |front| ==> front[i] == ms[i];
      assert (set i | 0 <= i < |ms| :: SchemaKey(ms[i]))
             == (set i | 0 <= i < |front| :: SchemaKey(front[i])) + {SchemaKey(ms[|ms| - 1])};
      RegisterSchemas(base, front)[SchemaKey(ms[|ms| - 1]) := ms[|ms| - 1]]
  }

  /** A model is registered under its key unless a later model has the
      same key; a schema no model's key names is kept. */
  lemma {:induction false} RegisteredSchema(base: map<string, Option<Schema>>, ms: seq<Option<Schema>>, i: nat)
    requires i < |ms|
    requires forall j :: i < j < |ms| ==> SchemaKey(ms[j]) != SchemaKey(ms[i])
    ensures RegisterSchemas(base, ms)[SchemaKey(ms[i])] == ms[i]
    decreases |ms|
  {
    if i < |ms| - 1 {
      var front := ms[..|ms| - 1];
      assert SchemaKey(ms[|ms| - 1]) != SchemaKey(ms[i]);
      RegisteredSchema(base, front, i);
    }
  }

  /** A schema of the base whose key no model has survives. */
  lemma {:induction false} KeptSchema(base: map<string, Option<Schema>>, ms: seq<Option<Schema>>, k: string)
    requires k in base
    requires forall j :: 0 <= j < |ms| ==> SchemaKey(ms[j]) != k
    ensures RegisterSchemas(base, ms)[k] == base[k]
    decreases |ms|
  {
    if ms != [] {
      var front := ms[..|ms| - 1];
      assert SchemaKey(ms[|ms| - 1]) != k;
      KeptSchema(base, front, k);
    }
  }

  /** The `forEach` that stores the models. */
  method AddModelSchemas(base: map<string, Option<Schema>>, ms: seq<Option<Schema>>)
    returns (schemas: map<string, Option<Schema>>)
    ensures schemas == RegisterSchemas(base, ms)
  {
    schemas := base;
    var i := 0;
    while i < |ms|
      invariant 0 <= i <= |ms|
      invariant schemas == RegisterSchemas(base, ms[..i])
    {
      assert ms[..i + 1][..i] == ms[..i];
      schemas := schemas[SchemaKey(ms[i]) := ms[i]];
      i := i + 1;
    }
    assert ms[..i] == ms;
  }

  // ---------------------------------------------------------------------
  // the SearchParams model

  const SearchParamsTitle: string := "SearchParams"

  /** `modelSchemas.find(el => el.title == "SearchParams")`: the first model
      titled `SearchParams`, None when there is none; reading the title of a
      `null` model on the way throws. */
  function FindSearchParams(ms: seq<Option<Schema>>): (r: Result<Option<Schema>>)
    ensures r.Ok? && r.value.Some? ==> r.value.value.title == Some(SearchParamsTitle)
    decreases |ms|
  {
    if ms == [] then Ok(None)
    else if ms[0].None? then Err("Cannot read properties of null (reading 'title')")
    else if ms[0].value.title == Some(SearchParamsTitle) then Ok(ms[0])
    else FindSearchParams(ms[1..])
  }

  /** No model before position `i` is `null` or titled `SearchParams`. */
  ghost predicate PassedOver(ms: seq<Option<Schema>>, i: int)
    requires 0 <= i <= |ms|
  {
    forall j :: 0 <= j < i ==> ms[j].Some? && ms[j].value.title != Some(SearchParamsTitle)
  }

  /** What the search finds: nothing exactly when every model is present and
      none is `SearchParams`; otherwise the model at the first position that
      is `null` (a throw) or titled `SearchParams` (found). */
  lemma {:induction false} FindSearchParamsFirst(ms: seq<Option<Schema>>)
    ensures FindSearchParams(ms) == Ok(None) <==> PassedOver(ms, |ms|)
    ensures FindSearchParams(ms).Ok? && FindSearchParams(ms).value.Some? ==>
              exists i :: 0 <= i < |ms| && ms[i] == FindSearchParams(ms).value && PassedOver(ms, i)
    ensures FindSearchParams(ms).Err? ==>
              exists i :: 0 <= i < |ms| && ms[i].None? && PassedOver(ms, i)
    decreases |ms|
  {
    if ms != [] && ms[0].Some? && ms[0].value.title != Some(SearchParamsTitle) {
      var rest := ms[1..];
      FindSearchParamsFirst(rest);
      assert forall i :: 1 <= i < |ms| ==> ms[i] == rest[i - 1];
      assert PassedOver(ms, |ms|) <==> PassedOver(rest, |rest|);
      if FindSearchParams(rest).Ok? && FindSearchParams(rest).value.Some? {
        var i :| 0 <= i < |rest| && rest[i] == FindSearchParams(rest).value && PassedOver(rest, i);
        assert ms[i + 1] == rest[i] && PassedOver(ms, i + 1);
      } else if FindSearchParams(rest).Err? {
        var i :| 0 <= i < |rest| && rest[i].None? && PassedOver(rest, i);
        assert ms[i + 1] == rest[i] && PassedOver(ms, i + 1);
      }
    } else if ms != [] {
      assert PassedOver(ms, 0);
    }
  }

  /** The query parameter for property `key`: required exactly when the key
      is listed, `undefined` when no list is given; the property's type. */
  function QueryParam(key: string, prop: Schema, required: Option<seq<string>>): (p: Param)
    ensures p.name == key && p.location == "query" && p.typ == prop.typ
    ensures required.None? ==> p.required.None?
    ensures required.Some? ==> p.required == Some(key in required.value)
  {
    Param(key, "query", if required.Some? then Some(key in required.value) else None, prop.typ)
  }

  /** The `forEach` over the `SearchParams` properties: one parameter per
      key, in key order. */
  method BuildQueryParams(props: seq<(string, Schema)>, required: Option<seq<string>>)
    returns (params: seq<Param>)
    ensures |params| == |props|
    ensures forall i :: 0 <= i < |props| ==> params[i] == QueryParam(props[i].0, props[i].1, required)
  {
    params := [];
    var i := 0;
    while i < |props|
      invariant 0 <= i <= |props| && |params| == i
      invariant forall j :: 0 <= j < i ==> params[j] == QueryParam(props[j].0, props[j].1, required)
    {
      var param := Param(props[i].0, "query",
                         if required.Some? then Some(props[i].0 in required.value) else None,
                         props[i].1.typ);
      params := params + [param];
      i := i + 1;
    }
  }

  // ---------------------------------------------------------------------
  // the CRUD paths

  const SchemasPrefix: string := "#/components/schemas/"
  const EmptyRef: string := "#/components/schemas/Empty"

  /** The `{id}` path parameter of the item operations. */
  const IdParam: Param := Param("id", "path", Some(true), Some("string"))

  /** `mainPath`: `get_all` (a list of the entity) and `create`. */
  function MainPath(entity: string): (r: PathItem)
    ensures OperationIds(r) == ["get_all", "create"]
    ensures r[1].1.requestRef == Some(SchemasPrefix + entity)
    ensures forall i :: 0 <= i < |r| ==> r[i].1.parameters.None? && r[i].1.integration.None? && r[i].1.security.None?
  {
    [("get", OperationDoc("get_all", None, None, SchemasPrefix + entity + "List", None, None)),
     ("post", OperationDoc("create", None, Some(SchemasPrefix + entity), EmptyRef, None, None))]
  }

  /** `idPath`: `get`, `update` and `delete` of one item. */
  function IdPath(entity: string): (r: PathItem)
    ensures OperationIds(r) == ["get", "update", "delete"]
    ensures r[1].1.requestRef == Some(SchemasPrefix + entity)
    ensures forall i :: 0 <= i < |r| ==>
              r[i].1.parameters == Some([IdParam]) && r[i].1.integration.None? && r[i].1.security.None?
  {
    [("get", OperationDoc("get", Some([IdParam]), None, SchemasPrefix + entity, None, None)),
     ("put", OperationDoc("update", Some([IdParam]), Some(SchemasPrefix + entity), EmptyRef, None, None)),
     ("delete", OperationDoc("delete", Some([IdParam]), None, EmptyRef, None, None))]
  }

  /** The operation ids of a path, in key order. */
  function OperationIds(item: PathItem): (ids: seq<string>)
    ensures |ids| == |item|
    ensures forall i :: 0 <= i < |item| ==> ids[i] == item[i].1.operationId
  {
    seq(|item|, i requires 0 <= i < |item| => item[i].1.operationId)
  }

  /** `/<entity lower-cased>`. */
  function MainKey(entity: string): (k: string)
    ensures |k| == |entity| + 1 && k[0] == '/' && k[1..] == ToLowerAscii(entity)
  {
    "/" + ToLowerAscii(entity)
  }

  /** `/<entity lower-cased>/{id}`. */
  function IdKey(entity: string): (k: string)
    ensures |k| == |MainKey(entity)| + 5 && k[..|MainKey(entity)|] == MainKey(entity)
    ensures k[|MainKey(entity)|..] == "/" + ApiHelper.IdMarker
  {
    MainKey(entity) + "/" + ApiHelper.IdMarker
  }

  /** The two keys differ, so neither assignment hides the other. */
  lemma KeysDistinct(entity: string)
    ensures MainKey(entity) != IdKey(entity)
  {
    assert |IdKey(entity)| > |MainKey(entity)|;
  }

  /** Sets the integration of every operation of a path. */
  method AttachIntegration(item: PathItem) returns (r: PathItem)
    ensures |r| == |item|
    ensures forall i :: 0 <= i < |item| ==> r[i] == (item[i].0, item[i].1.(integration := Some(AwsExt)))
  {
    r := item;
    var i := 0;
    while i < |r|
      invariant 0 <= i <= |r| == |item|
      invariant forall j :: 0 <= j < i ==> r[j] == (item[j].0, item[j].1.(integration := Some(AwsExt)))
      invariant forall j :: i <= j < |r| ==> r[j] == item[j]
    {
      r := r[i := (r[i].0, r[i].1.(integration := Some(AwsExt)))];
      i := i + 1;
    }
  }

  /** Sets the required security scheme of every operation of a path. */
  method AttachSecurity(item: PathItem, scheme: string) returns (r: PathItem)
    ensures |r| == |item|
    ensures forall i :: 0 <= i < |item| ==> r[i] == (item[i].0, item[i].1.(security := Some(scheme)))
  {
    r := item;
    var i := 0;
    while i < |r|
      invariant 0 <= i <= |r| == |item|
      invariant forall j :: 0 <= j < i ==> r[j] == (item[j].0, item[j].1.(security := Some(scheme)))
      invariant forall j :: i <= j < |r| ==> r[j] == item[j]
    {
      r := r[i := (r[i].0, r[i].1.(security := Some(scheme)))];
      i := i + 1;
    }
  }

  // ---------------------------------------------------------------------
  // Generate

  /** The cases in which `Generate` throws: a `null` model before the
      `SearchParams` model, a `SearchParams` model without properties, or
      an authorizer type that is set but not recognised. */
  predicate GenerateThrows(pkg: PackageInfo, ms: seq<Option<Schema>>) {
    var found := FindSearchParams(ms);
    || found.Err?
    || (found.value.Some? && found.value.value.properties.None?)
    || (Truthy(pkg.authType) && !IsStringInEnum(pkg.authType.value, AuthTypes))
  }

  /** Every operation of a path has the integration and requires `scheme`
      (none when `scheme` is None). */
  ghost predicate Wired(item: PathItem, scheme: Option<string>) {
    forall i :: 0 <= i < |item| ==> item[i].1.integration == Some(AwsExt) && item[i].1.security == scheme
  }

  /** The security scheme the package asks for: its authorizer type when
      that is set. */
  function SchemeOf(pkg: PackageInfo): (r: Option<string>)
    ensures r.Some? <==> Truthy(pkg.authType)
    ensures r.Some? ==> r == pkg.authType
  {
    if Truthy(pkg.authType) then pkg.authType else None
  }

  /** `item` is `template` with at most the parameters, the integration and
      the security of its operations changed. */
  ghost predicate Rewired(item: PathItem, template: PathItem) {
    && |item| == |template|
    && forall i :: 0 <= i < |item| ==>
         && item[i].0 == template[i].0
         && item[i].1.(parameters := template[i].1.parameters, integration := template[i].1.integration,
                       security := template[i].1.security) == template[i].1
  }

  /** The two CRUD paths of `entity` as `Generate` stores them: `mainPath`
      and `idPath` with every operation wired and requiring `scheme`, the
      `id` path parameter on every item operation, and no parameters on
      `create`. */
  ghost predicate CrudPaths(mainPath: PathItem, idPath: PathItem, entity: string, scheme: Option<string>) {
    && Rewired(mainPath, MainPath(entity)) && Rewired(idPath, IdPath(entity))
    && Wired(mainPath, scheme) && Wired(idPath, scheme)
    && |mainPath| == 2 && mainPath[1].1.parameters.None?
    && forall i :: 0 <= i < |idPath| ==> idPath[i].1.parameters == Some([IdParam])
  }

  /** The CRUD paths of `entity` as `Generate` leaves them: `get_all` with
      the query parameters `params` when there are any, every operation
      wired to the integration and requiring `scheme` when one is given. */
  method BuildPaths(entity: string, params: Option<seq<Param>>, scheme: Option<string>)
    returns (mainPath: PathItem, idPath: PathItem)
    ensures OperationIds(mainPath) == ["get_all", "create"]
    ensures OperationIds(idPath) == ["get", "update", "delete"]
    ensures Wired(mainPath, scheme) && Wired(idPath, scheme)
    ensures mainPath[0].1.parameters == params
    ensures forall i :: 0 <= i < |idPath| ==> idPath[i].1.parameters == Some([IdParam])
    ensures CrudPaths(mainPath, idPath, entity, scheme)
  {
    mainPath := MainPath(entity);
    idPath := IdPath(entity);
    if params.Some? {
      mainPath := mainPath[0 := (mainPath[0].0, mainPath[0].1.(parameters := params))];
    }
    mainPath := AttachIntegration(mainPath);
    idPath := AttachIntegration(idPath);
    if scheme.Some? {
      mainPath := AttachSecurity(mainPath, scheme.value);
      idPath := AttachSecurity(idPath, scheme.value);
    }
  }

  /** `get_all`'s parameters: one query parameter per property of the
      `SearchParams` model, in key order, or none without that model. */
  ghost predicate GetAllParams(params: Option<seq<Param>>, found: Option<Schema>)
    requires found.Some? ==> found.value.properties.Some?
  {
    && (found.None? ==> params.None?)
    && (found.Some? ==>
          var props := found.value.properties.value;
          && params.Some?
          && |params.value| == |props|
          && forall i :: 0 <= i < |props| ==>
               params.value[i] == QueryParam(props[i].0, props[i].1, found.value.required))
  }

  /** The `SearchParams` step of `Generate`: the `find` throws on a null
      model schema met before one titled `SearchParams`, and `Object.keys`
      throws on a
      `SearchParams` model without properties; otherwise the query
      parameters of `get_all`, none without that model. */
  method SearchQuery(ms: seq<Option<Schema>>) returns (r: Result<Option<seq<Param>>>)
    ensures r.Err? <==> FindSearchParams(ms).Err? ||
                        (FindSearchParams(ms).value.Some? && FindSearchParams(ms).value.value.properties.None?)
    ensures r.Ok? ==> GetAllParams(r.value, FindSearchParams(ms).value)
  {
    var searchParams := FindSearchParams(ms);
    if searchParams.Err? {
      return Err(searchParams.message);
    }
    if searchParams.value.None? {
      return Ok(None);
    }
    var props := searchParams.value.value.properties;
    if props.None? {
      return Err("Cannot convert undefined or null to object");
    }
    var built := BuildQueryParams(props.value, searchParams.value.value.required);
    return Ok(Some(built));
  }

  /** `Generate` from the scanner's document `spec`, the exported models
      `ms` and the package description: it throws exactly in the cases of
      `GenerateThrows`; otherwise servers are emptied, the models are
      registered, the two CRUD paths are added (and no other path is
      touched) with the five operations wired and `get_all`'s query
      parameters, the query-string validator is added with `SearchParams`,
      and the authorizer scheme with a recognised type. */
  method Generate(pkg: PackageInfo, spec: Document, ms: seq<Option<Schema>>) returns (r: Result<Document>)
    ensures r.Err? <==> GenerateThrows(pkg, ms)
    ensures r.Ok? ==> r.value.servers == []
    ensures r.Ok? ==> r.value.schemas == Some(RegisterSchemas(BaseSchemas(spec), ms))
    ensures r.Ok? ==> MainKey(pkg.mainEntity) in r.value.paths && IdKey(pkg.mainEntity) in r.value.paths
    ensures r.Ok? ==> OperationIds(r.value.paths[MainKey(pkg.mainEntity)]) == ["get_all", "create"]
    ensures r.Ok? ==> OperationIds(r.value.paths[IdKey(pkg.mainEntity)]) == ["get", "update", "delete"]
    ensures r.Ok? ==> CrudPaths(r.value.paths[MainKey(pkg.mainEntity)], r.value.paths[IdKey(pkg.mainEntity)],
                                pkg.mainEntity, SchemeOf(pkg))
    ensures r.Ok? ==> GetAllParams(r.value.paths[MainKey(pkg.mainEntity)][0].1.parameters, FindSearchParams(ms).value)
    ensures r.Ok? ==>
              r.value.requestValidators ==
                if FindSearchParams(ms).value.Some? then Some(map[ValidatorName := QsValidator]) else spec.requestValidators
    ensures r.Ok? ==>
              r.value.securitySchemes == if Truthy(pkg.authType) then Some(map["Auth0" := Auth0Scheme]) else spec.securitySchemes
    ensures r.Ok? ==> forall k :: k in spec.paths && k != MainKey(pkg.mainEntity) && k != IdKey(pkg.mainEntity) ==>
                        k in r.value.paths && r.value.paths[k] == spec.paths[k]
  {
    var swaggerSpec := spec;
    swaggerSpec := swaggerSpec.(servers := []);
    var schemas := AddModelSchemas(BaseSchemas(swaggerSpec), ms);
    swaggerSpec := swaggerSpec.(schemas := Some(schemas));

    var params := SearchQuery(ms);
    if params.Err? {
      return Err(params.message);
    }
    if params.value.Some? {
      swaggerSpec := swaggerSpec.(requestValidators := Some(map[ValidatorName := QsValidator]));
    }

    r := AddCrudPaths(pkg, swaggerSpec, params.value);
  }

  /** The rest of `Generate` once `get_all`'s parameters are known: the
      authorizer check (a set but unrecognised type throws), the scheme,
      and the two CRUD paths built and stored. */
  method AddCrudPaths(pkg: PackageInfo, doc: Document, params: Option<seq<Param>>) returns (r: Result<Document>)
    ensures r.Err? <==> Truthy(pkg.authType) && !IsStringInEnum(pkg.authType.value, AuthTypes)
    ensures r.Ok? ==> r.value.(paths := doc.paths, securitySchemes := doc.securitySchemes) == doc
    ensures r.Ok? ==>
              r.value.securitySchemes == if Truthy(pkg.authType) then Some(map["Auth0" := Auth0Scheme]) else doc.securitySchemes
    ensures r.Ok? ==> MainKey(pkg.mainEntity) in r.value.paths && IdKey(pkg.mainEntity) in r.value.paths
    ensures r.Ok? ==> OperationIds(r.value.paths[MainKey(pkg.mainEntity)]) == ["get_all", "create"]
    ensures r.Ok? ==> OperationIds(r.value.paths[IdKey(pkg.mainEntity)]) == ["get", "update", "delete"]
    ensures r.Ok? ==> CrudPaths(r.value.paths[MainKey(pkg.mainEntity)], r.value.paths[IdKey(pkg.mainEntity)],
                                pkg.mainEntity, SchemeOf(pkg))
    ensures r.Ok? ==> r.value.paths[MainKey(pkg.mainEntity)][0].1.parameters == params
    ensures r.Ok? ==> forall k :: k in doc.paths && k != MainKey(pkg.mainEntity) && k != IdKey(pkg.mainEntity) ==>
                        k in r.value.paths && r.value.paths[k] == doc.paths[k]
  {
    var swaggerSpec := doc;
    if Truthy(pkg.authType) {
      if IsStringInEnum(pkg.authType.value, AuthTypes) {
        swaggerSpec := swaggerSpec.(securitySchemes := Some(map["Auth0" := Auth0Scheme]));
      } else {
        return Err("Auth type is not recognized");
      }
    }
    var mainPath, idPath := BuildPaths(pkg.mainEntity, params, SchemeOf(pkg));
    swaggerSpec := AddPaths(swaggerSpec, pkg.mainEntity, mainPath, idPath);
    return Ok(swaggerSpec);
  }

  /** The two CRUD paths stored under their keys; every other path and
      every other part of the document is kept. */
  method AddPaths(doc: Document, entity: string, mainPath: PathItem, idPath: PathItem) returns (d: Document)
    ensures d.(paths := doc.paths) == doc
    ensures MainKey(entity) in d.paths && d.paths[MainKey(entity)] == mainPath
    ensures IdKey(entity) in d.paths && d.paths[IdKey(entity)] == idPath
    ensures forall k :: k in doc.paths && k != MainKey(entity) && k != IdKey(entity) ==>
              k in d.paths && d.paths[k] == doc.paths[k]
  {
    KeysDistinct(entity);
    d := doc.(paths := doc.paths[MainKey(entity) := mainPath]);
    d := d.(paths := d.paths[IdKey(entity) := idPath]);
  }

  // ---------------------------------------------------------------------
  // the generated paths seen by the gateway

  /** A generated path as the gateway's operation discovery sees it. */
  function AsPathEntry(key: string, item: PathItem): (e: ApiHelper.PathEntry)
    ensures e.key == key && |e.members| == |item|
    ensures forall i :: 0 <= i < |item| ==>
              e.members[i] == (item[i].0, ApiHelper.OperationObject(Some(item[i].1.operationId)))
  {
    ApiHelper.PathEntry(key, seq(|item|, i requires 0 <= i < |item| =>
                                   (item[i].0, ApiHelper.OperationObject(Some(item[i].1.operationId)))))
  }

  /** The ids the gateway collects from one generated path are that path's
      operation ids, in order, when none of them is empty. */
  lemma EntryIds(key: string, item: PathItem)
    requires forall i :: 0 <= i < |item| ==> item[i].1.operationId != ""
    ensures ApiHelper.IdsOf(ApiHelper.MemberValues(AsPathEntry(key, item).members)) == OperationIds(item)
  {
    var ops := ApiHelper.MemberValues(AsPathEntry(key, item).members);
    assert forall k :: 0 <= k < |ops| ==> ops[k].operationId == Some(item[k].1.operationId);
    ApiHelper.IdsOfAllNamed(ops);
  }

  /** Operation discovery over the two generated paths finds the main
      path's ids and then the `{id}` path's, when none is empty. */
  lemma DiscoveredOperations(mainItem: PathItem, idItem: PathItem, entity: string)
    requires forall i :: 0 <= i < |mainItem| ==> mainItem[i].1.operationId != ""
    requires forall i :: 0 <= i < |idItem| ==> idItem[i].1.operationId != ""
    ensures ApiHelper.IdsOf(ApiHelper.AllOperations([AsPathEntry(MainKey(entity), mainItem),
                                                     AsPathEntry(IdKey(entity), idItem)]))
            == OperationIds(mainItem) + OperationIds(idItem)
  {
    var e1 := AsPathEntry(MainKey(entity), mainItem);
    var e2 := AsPathEntry(IdKey(entity), idItem);
    var ops1 := ApiHelper.MemberValues(e1.members);
    var ops2 := ApiHelper.MemberValues(e2.members);
    var ps := [e1, e2];
    ApiHelper.AllOperationsStep(ps, 0);
    ApiHelper.AllOperationsStep(ps, 1);
    assert ps[..0] == [] && ps[..2] == ps;
    assert [] + ops1 == ops1;
    EntryIds(MainKey(entity), mainItem);
    EntryIds(IdKey(entity), idItem);
    ApiHelper.IdsOfAppend(ops1, ops2);
  }

  /** The gateway registers exactly the five CRUD operations of the
      generated paths, `get_all` and `create` first. */
  lemma DiscoveredCrud(mainItem: PathItem, idItem: PathItem, entity: string)
    requires OperationIds(mainItem) == ["get_all", "create"]
    requires OperationIds(idItem) == ["get", "update", "delete"]
    ensures ApiHelper.IdsOf(ApiHelper.AllOperations([AsPathEntry(MainKey(entity), mainItem),
                                                     AsPathEntry(IdKey(entity), idItem)]))
            == ["get_all", "create", "get", "update", "delete"]
  {
    forall i | 0 <= i < |mainItem|
      ensures mainItem[i].1.operationId != ""
    {
      assert mainItem[i].1.operationId == OperationIds(mainItem)[i];
    }
    forall i | 0 <= i < |idItem|
      ensures idItem[i].1.operationId != ""
    {
      assert idItem[i].1.operationId == OperationIds(idItem)[i];
    }
    DiscoveredOperations(mainItem, idItem, entity);
    assert OperationIds(mainItem) + OperationIds(idItem) == ["get_all", "create", "get", "update", "delete"];
  }

  /** Lower-casing keeps a string free of `/` and non-empty. */
  lemma LowerKeepsSegment(entity: string)
    requires entity != "" && '/' !in entity
    ensures ToLowerAscii(entity) != "" && '/' !in ToLowerAscii(entity)
  {
    var e := ToLowerAscii(entity);
    forall i | 0 <= i < |e|
      ensures e[i] != '/'
    {
      assert e[i] == LowerChar(entity[i]);
      assert entity[i] in entity;
    }
  }

  /** Two segments joined. */
  lemma JoinPair(a: string, b: string)
    ensures Join([a] + [b] + [], '/') == a + "/" + b
  {
    assert ([a] + [b] + [])[1..] == [b];
  }

  /** A request to the generated item path binds the `id` parameter in the
      gateway's matcher, for an entity name that is a single segment. */
  lemma IdPathBindsId(entity: string, v: string)
    requires entity != "" && '/' !in entity && ToLowerAscii(entity) != ApiHelper.IdMarker
    requires v != "" && '/' !in v
    ensures ApiPath.ParamsFor(IdKey(entity), MainKey(entity) + "/" + v) == Some(map[ApiHelper.IdName := Some(v)])
  {
    var e := ToLowerAscii(entity);
    LowerKeepsSegment(entity);
    JoinPair(e, ApiHelper.IdMarker);
    JoinPair(e, v);
    assert ApiHelper.CleanSegments([]);
    ApiPath.BindsSecondSegment(e, [], [], v);
    KeyShapes(entity, v);
  }

  /** The item key and a request under the main key, regrouped. */
  lemma KeyShapes(entity: string, v: string)
    ensures IdKey(entity) == "/" + (ToLowerAscii(entity) + "/" + ApiHelper.IdMarker)
    ensures MainKey(entity) + "/" + v == "/" + (ToLowerAscii(entity) + "/" + v)
  {
    var e := ToLowerAscii(entity);
    assert "/" + e + "/" + ApiHelper.IdMarker == "/" + (e + "/" + ApiHelper.IdMarker);
    assert "/" + e + "/" + v == "/" + (e + "/" + v);
  }
}
