/** swagger/model_exp.ts: exporting the JSON schema of a TypeScript model as
    an API Gateway model. The schema generator's output is taken as given;
    the module models the post-processing (title set, `definitions` and
    `$schema` dropped, local `#/definitions` references rewritten to the
    model store), the reference base, and the request object's paths and
    file names. */
module ModelExp {
  import opened Common
  import opened JsText

  // ---------------------------------------------------------------------
  // schemas

  /** The part of a generated JSON schema the post-processing and the
      document assembly read or write: `type`, `$ref`, `items`, `properties`
      (in key order), `required`, `title`, and whether `definitions` and
      `$schema` are present. */
  datatype Schema = Schema(
    typ: Option<string>,
    ref: Option<string>,
    items: Option<Schema>,
    properties: Option<seq<(string, Schema)>>,
    required: Option<seq<string>>,
    title: Option<string>,
    hasDefinitions: bool,
    hasSchemaUri: bool)

  const BaseUrlRestApi: string := "https://apigateway.amazonaws.com/restapis"
  const ComponentsRef: string := "#/components/schemas"
  const Definitions: string := "#/definitions"
  const DefinitionsSlash: string := "#/definitions/"
  const ArrayType: string := "array"

  /** `getRef`: the model store of the REST API when an API id is set
      (a non-empty string), otherwise the document's own components. */
  function GetRef(apiId: Option<string>): (r: string)
    ensures Truthy(apiId) ==> StartsWith(r, BaseUrlRestApi + "/") && r[|BaseUrlRestApi| + 1..] == apiId.value + "/models"
    ensures !Truthy(apiId) ==> r == ComponentsRef
  {
    if Truthy(apiId) then BaseUrlRestApi + "/" + apiId.value + "/models" else ComponentsRef
  }

  /** Different API ids give different reference bases. */
  lemma GetRefInjective(a: string, b: string)
    requires a != "" && b != ""
    requires GetRef(Some(a)) == GetRef(Some(b))
    ensures a == b
  {
    var n := |BaseUrlRestApi| + 1;
    assert GetRef(Some(a))[n..] == a + "/models";
    assert GetRef(Some(b))[n..] == b + "/models";
    assert (a + "/models")[..|a|] == a;
    assert (b + "/models")[..|b|] == b;
  }

  /** `replaceDefinition(prop)`, with the reference base `refBase`. An array
      property gets its item reference re-rooted under `refBase` (a missing
      `items` or item `$ref` makes it throw); any other property with a
      non-empty `$ref` gets its first `#/definitions` replaced by `refBase`;
      every other property, and every other field, is left as it is. */
  function ReplaceDefinition(prop: Schema, refBase: string): (r: Result<Schema>)
    ensures r.Err? <==> prop.typ == Some(ArrayType) && (prop.items.None? || prop.items.value.ref.None?)
    ensures r.Ok? ==> r.value.(ref := prop.ref, items := prop.items) == prop
    ensures r.Ok? && prop.typ == Some(ArrayType) ==>
              && r.value.ref == prop.ref
              && r.value.items.Some?
              && r.value.items.value.(ref := prop.items.value.ref) == prop.items.value
              && r.value.items.value.ref.Some?
              && StartsWith(r.value.items.value.ref.value, refBase + "/")
    ensures prop.typ != Some(ArrayType) ==> r.Ok? && r.value.items == prop.items
    ensures prop.typ != Some(ArrayType) && !Truthy(prop.ref) ==> r == Ok(prop)
  {
    if prop.typ == Some(ArrayType) then
      if prop.items.None? then Err("Cannot read properties of undefined (reading '$ref')")
      else if prop.items.value.ref.None? then Err("Cannot read properties of undefined (reading 'replace')")
      else
        var name := ReplaceFirst(prop.items.value.ref.value, DefinitionsSlash, "");
        Ok(prop.(items := Some(prop.items.value.(ref := Some(refBase + "/" + name)))))
    else if Truthy(prop.ref) then
      Ok(prop.(ref := Some(ReplaceFirst(prop.ref.value, Definitions, refBase))))
    else Ok(prop)
  }

  /** An array whose items point at `#/definitions/Name` ends up with items
      pointing at `base/Name`, and nothing else changes. */
  lemma ArrayRefRewritten(prop: Schema, name: string, refBase: string)
    requires prop.typ == Some(ArrayType) && prop.items.Some?
    requires prop.items.value.ref == Some(DefinitionsSlash + name)
    ensures ReplaceDefinition(prop, refBase)
            == Ok(prop.(items := Some(prop.items.value.(ref := Some(refBase + "/" + name)))))
  {
    ReplaceFirstAtStart(DefinitionsSlash, name, "");
  }

  /** A direct `#/definitions/Name` reference becomes `base/Name`, and
      nothing else changes. */
  lemma DirectRefRewritten(prop: Schema, name: string, refBase: string)
    requires prop.typ != Some(ArrayType)
    requires prop.ref == Some(DefinitionsSlash + name)
    ensures ReplaceDefinition(prop, refBase) == Ok(prop.(ref := Some(refBase + "/" + name)))
  {
    assert DefinitionsSlash + name == Definitions + ("/" + name);
    ReplaceFirstAtStart(Definitions, "/" + name, refBase);
    assert refBase + ("/" + name) == refBase + "/" + name;
  }

  /** The rewritten item reference of an array, for any item reference:
      the reference base, a `/`, and the old reference with its first
      `#/definitions/` cut out (the whole old reference when it has none). */
  lemma ArrayRefValue(prop: Schema, refBase: string)
    requires prop.typ == Some(ArrayType) && prop.items.Some? && prop.items.value.ref.Some?
    ensures var v := prop.items.value.ref.value;
            var name := match FindSub(v, DefinitionsSlash)
                        case Some(i) => v[..i] + v[i + |DefinitionsSlash|..]
                        case None => v;
            ReplaceDefinition(prop, refBase)
            == Ok(prop.(items := Some(prop.items.value.(ref := Some(refBase + "/" + name)))))
  {
    var v := prop.items.value.ref.value;
    var r := ReplaceFirst(v, DefinitionsSlash, "");
    if FindSub(v, DefinitionsSlash).Some? {
      var i := FindSub(v, DefinitionsSlash).value;
      assert r == r[..i] + r[i..];
    }
  }

  /** The rewritten `$ref` of any other property with a non-empty `$ref`:
      its first `#/definitions` replaced by the reference base, or the
      reference unchanged when it has none. */
  lemma DirectRefValue(prop: Schema, refBase: string)
    requires prop.typ != Some(ArrayType) && Truthy(prop.ref)
    ensures var v := prop.ref.value;
            ReplaceDefinition(prop, refBase)
            == match FindSub(v, Definitions)
               case Some(i) => Ok(prop.(ref := Some(v[..i] + refBase + v[i + |Definitions|..])))
               case None => Ok(prop)
  {
    var v := prop.ref.value;
    var r := ReplaceFirst(v, Definitions, refBase);
    if FindSub(v, Definitions).Some? {
      var i := FindSub(v, Definitions).value;
      assert r == r[..i] + r[i..];
    } else {
      assert prop.(ref := Some(v)) == prop;
    }
  }

  /** A `$ref` that does not mention `#/definitions` is left alone. */
  lemma ForeignRefKept(prop: Schema, refBase: string)
    requires prop.typ != Some(ArrayType) && prop.ref.Some?
    requires forall j :: 0 <= j <= |prop.ref.value| ==> !OccursAt(prop.ref.value, Definitions, j)
    ensures ReplaceDefinition(prop, refBase) == Ok(prop)
  {
    ReplaceFirstAbsent(prop.ref.value, Definitions, refBase);
  }

  /** Every property rewritten in key order; the first one that throws
      makes the whole rewrite throw. */
  function RewriteProperties(ps: seq<(string, Schema)>, refBase: string): (r: Result<seq<(string, Schema)>>)
    ensures r.Ok? <==> forall i :: 0 <= i < |ps| ==> ReplaceDefinition(ps[i].1, refBase).Ok?
    ensures r.Ok? ==> |r.value| == |ps|
    ensures r.Ok? ==> forall i :: 0 <= i < |ps| ==>
                        r.value[i] == (ps[i].0, ReplaceDefinition(ps[i].1, refBase).value)
    decreases |ps|
  {
    if ps == [] then Ok([])
    else
      match RewriteProperties(ps[..|ps| - 1], refBase)
      case Err(e) => Err(e)
      case Ok(front) =>
        match ReplaceDefinition(ps[|ps| - 1].1, refBase)
        case Err(e) => Err(e)
        case Ok(p) => Ok(front + [(ps[|ps| - 1].0, p)])
  }

  /** A property that throws makes every longer rewrite throw the same
      error. */
  lemma {:induction false} RewritePropertiesErrPrefix(ps: seq<(string, Schema)>, k: nat, refBase: string)
    requires k <= |ps|
    requires RewriteProperties(ps[..k], refBase).Err?
    ensures RewriteProperties(ps, refBase) == RewriteProperties(ps[..k], refBase)
    decreases |ps| - k
  {
    if k < |ps| {
      var front := ps[..|ps| - 1];
      assert front[..k] == ps[..k];
      RewritePropertiesErrPrefix(front, k, refBase);
      assert RewriteProperties(front, refBase).Err?;
    } else {
      assert ps[..k] == ps;
    }
  }

  /** The post-processing in `Generate` of the generator's output
      `generated` (None when it produced nothing): nothing stays nothing;
      otherwise the schema is titled with the model name, loses
      `definitions` and `$schema`, and has each property rewritten, or
      itself when it has no properties. */
  function PostProcess(modelName: string, generated: Option<Schema>, refBase: string): (r: Result<Option<Schema>>)
    ensures generated.None? ==> r == Ok(None)
    ensures r.Ok? && generated.Some? ==>
              && r.value.Some?
              && r.value.value.title == Some(modelName)
              && !r.value.value.hasDefinitions
              && !r.value.value.hasSchemaUri
              && r.value.value.typ == generated.value.typ
              && r.value.value.required == generated.value.required
    ensures generated.Some? && generated.value.properties.None? ==>
              && (r.Ok? <==> ReplaceDefinition(generated.value, refBase).Ok?)
              && (r.Ok? ==> r.value == Some(ReplaceDefinition(generated.value, refBase).value
                                              .(hasDefinitions := false, hasSchemaUri := false, title := Some(modelName))))
    ensures generated.Some? && generated.value.properties.Some? ==>
              && (r.Ok? <==> RewriteProperties(generated.value.properties.value, refBase).Ok?)
              && (r.Ok? ==> r.value.value.properties == Some(RewriteProperties(generated.value.properties.value, refBase).value)
                            && r.value.value.ref == generated.value.ref
                            && r.value.value.items == generated.value.items)
  {
    if generated.None? then Ok(None)
    else
      var s := generated.value.(hasDefinitions := false, hasSchemaUri := false, title := Some(modelName));
      if s.properties.Some? then
        match RewriteProperties(s.properties.value, refBase)
        case Err(e) => Err(e)
        case Ok(ps) => Ok(Some(s.(properties := Some(ps))))
      else
        match ReplaceDefinition(s, refBase)
        case Err(e) => Err(e)
        case Ok(root) => Ok(Some(root))
  }

  /** `Generate(modelName)` after the generator has run: the post-processing
      done on the object in place, property by property. */
  method Generate(modelName: string, generated: Option<Schema>, apiId: Option<string>)
    returns (r: Result<Option<Schema>>)
    ensures r == PostProcess(modelName, generated, GetRef(apiId))
  {
    if generated.None? {
      return Ok(None);
    }
    var schemaObj := generated.value;
    schemaObj := schemaObj.(hasDefinitions := false);
    schemaObj := schemaObj.(hasSchemaUri := false);
    schemaObj := schemaObj.(title := Some(modelName));
    var refBase := GetRef(apiId);
    if schemaObj.properties.Some? {
      var obj := schemaObj.properties.value;
      ghost var original := obj;
      var i := 0;
      while i < |obj|
        invariant 0 <= i <= |obj| == |original|
        invariant RewriteProperties(original[..i], refBase).Ok?
        invariant obj[..i] == RewriteProperties(original[..i], refBase).value
        invariant forall j :: i <= j < |obj| ==> obj[j] == original[j]
      {
        var replaced := ReplaceDefinition(obj[i].1, refBase);
        assert original[..i + 1][..i] == original[..i];
        assert obj[i] == original[i];
        if replaced.Err? {
          assert RewriteProperties(original[..i + 1], refBase) == Err(replaced.message);
          RewritePropertiesErrPrefix(original, i + 1, refBase);
          return Err(replaced.message);
        }
        var next := obj[i := (obj[i].0, replaced.value)];
        assert next[..i + 1] == obj[..i] + [(original[i].0, replaced.value)];
        obj := next;
        i := i + 1;
      }
      assert original[..i] == original;
      schemaObj := schemaObj.(properties := Some(obj));
      assert obj == obj[..i];
    } else {
      var replaced := ReplaceDefinition(schemaObj, refBase);
      if replaced.Err? {
        return Err(replaced.message);
      }
      schemaObj := replaced.value;
    }
    return Ok(Some(schemaObj));
  }

  /** `file.replace('.ts', '')`: the model name `GenerateAll` derives from a
      file of the models directory (the first `.ts` removed). */
  function ModelNameOf(file: string): (m: string)
    ensures FindSub(file, ".ts").None? ==> m == file
    ensures FindSub(file, ".ts").Some? ==> |m| == |file| - 3
  {
    ReplaceFirst(file, ".ts", "")
  }

  /** The first `.ts` of a file name is the one after a model name that
      holds none: it is cut out and whatever follows it is kept, so
      `Widget.tsx.ts` is read as model `Widgetx.ts`. */
  lemma {:induction false} ModelNameOfFirstTs(m: string, x: string)
    requires forall j :: 0 <= j <= |m| ==> !OccursAt(m, ".ts", j)
    ensures ModelNameOf(m + ".ts" + x) == m + x
  {
    var s := m + ".ts" + x;
    assert s[|m|..|m| + 3] == ".ts";
    assert s[|m|] == '.';
    assert '.' !in ".ts"[1..];
    forall j | 0 <= j < |m|
      ensures !OccursAt(s, ".ts", j)
    {
      if j + 3 <= |m| {
        assert m[j..j + 3] == s[j..j + 3];
        assert !OccursAt(m, ".ts", j);
      }
    }
    FirstOccurrence(s, ".ts", |m|);
    assert s[..|m|] == m && s[|m| + 3..] == x;
  }

  /** The model name of a `.ts` file named after a model without `.ts` in
      its name is that model's name. */
  lemma ModelNameOfFileNameTS(m: string)
    requires forall j :: 0 <= j <= |m| ==> !OccursAt(m, ".ts", j)
    ensures ModelNameOf(FileNameTS(m)) == m
  {
    ModelNameOfFirstTs(m, "");
    assert m + ".ts" + "" == FileNameTS(m);
  }

  /** An occurrence with none before it is the one `indexOf` finds. */
  lemma FirstOccurrence(s: string, pat: string, i: nat)
    requires OccursAt(s, pat, i)
    requires forall j :: 0 <= j < i ==> !OccursAt(s, pat, j)
    ensures FindSub(s, pat) == Some(i)
  {
  }

  /** `GenerateAll` over the files of the models directory, with the schema
      generator `tjs`: one entry per file, in order, each the post-processed
      schema of the model the file name names; a rewrite that throws makes
      the whole call throw. */
  method GenerateAll(files: seq<string>, tjs: string -> Option<Schema>, apiId: Option<string>)
    returns (r: Result<seq<Option<Schema>>>)
    ensures r.Ok? <==> forall i :: 0 <= i < |files| ==>
                        PostProcess(ModelNameOf(files[i]), tjs(ModelNameOf(files[i])), GetRef(apiId)).Ok?
    ensures r.Ok? ==> |r.value| == |files|
    ensures r.Ok? ==> forall i :: 0 <= i < |files| ==>
                        r.value[i] == PostProcess(ModelNameOf(files[i]), tjs(ModelNameOf(files[i])), GetRef(apiId)).value
  {
    var resp: seq<Option<Schema>> := [];
    var k := 0;
    while k < |files|
      invariant 0 <= k <= |files| && |resp| == k
      invariant forall i :: 0 <= i < k ==>
                  PostProcess(ModelNameOf(files[i]), tjs(ModelNameOf(files[i])), GetRef(apiId)).Ok?
      invariant forall i :: 0 <= i < k ==>
                  resp[i] == PostProcess(ModelNameOf(files[i]), tjs(ModelNameOf(files[i])), GetRef(apiId)).value
    {
      var name := ModelNameOf(files[k]);
      var schema := Generate(name, tjs(name), apiId);
      if schema.Err? {
        return Err(schema.message);
      }
      resp := resp + [schema.value];
      k := k + 1;
    }
    return Ok(resp);
  }

  // ---------------------------------------------------------------------
  // the request object

  const DefaultModelsDir: string := "src/models"
  const DefaultExportsDir: string := "export"
  const DefaultGenerateDir: string := "generated"
  const DefaultRegion: string := "eu-west-1"
  const TsModelsDir: string := "models"

  /** The fields a `ModelRequest` may be constructed from; a missing field
      keeps its default. */
  datatype ModelRequestData = ModelRequestData(
    destinationDir: Option<string>,
    modelsDir: Option<string>,
    exportDir: Option<string>,
    generateDir: Option<string>,
    model: Option<string>,
    region: Option<string>,
    apiId: Option<string>,
    stageName: Option<string>)

  /** The value of an optional field, or its default. */
  function Or(given: Option<string>, default: string): (r: string)
    ensures given.Some? ==> r == given.value
    ensures given.None? ==> r == default
  {
    if given.Some? then given.value else default
  }

  /** `ModelRequest`: where the models are read from and the schemas
      written to. Fields without a default are `undefined` (None) until
      assigned. */
  class ModelRequest {
    var destinationDir: Option<string>
    var modelsDir: string
    var exportDir: string
    var generateDir: string
    var model: Option<string>
    var region: string
    var apiId: Option<string>
    var stageName: Option<string>

    /** The defaults, then every field `data` carries copied over. */
    constructor (data: Option<ModelRequestData>)
      ensures data.None? ==>
                && destinationDir == None && modelsDir == DefaultModelsDir && exportDir == DefaultExportsDir
                && generateDir == DefaultGenerateDir && model == None && region == DefaultRegion
                && apiId == None && stageName == None
      ensures data.Some? ==>
                && destinationDir == data.value.destinationDir
                && modelsDir == Or(data.value.modelsDir, DefaultModelsDir)
                && exportDir == Or(data.value.exportDir, DefaultExportsDir)
                && generateDir == Or(data.value.generateDir, DefaultGenerateDir)
                && model == data.value.model
                && region == Or(data.value.region, DefaultRegion)
                && apiId == data.value.apiId
                && stageName == data.value.stageName
    {
      var d := if data.Some? then data.value else ModelRequestData(None, None, None, None, None, None, None, None);
      destinationDir := d.destinationDir;
      modelsDir := Or(d.modelsDir, DefaultModelsDir);
      exportDir := Or(d.exportDir, DefaultExportsDir);
      generateDir := Or(d.generateDir, DefaultGenerateDir);
      model := d.model;
      region := Or(d.region, DefaultRegion);
      apiId := d.apiId;
      stageName := d.stageName;
    }

    /** `ModelsPath`: the models directory under the destination; throws
        (None) while the destination is `undefined`. */
    function ModelsPath(): (r: Option<string>)
      reads this
      ensures r.Some? <==> destinationDir.Some?
      ensures r.Some? ==> r.value == PathJoin([destinationDir.value, modelsDir])
    {
      if destinationDir.Some? then Some(PathJoin([destinationDir.value, modelsDir])) else None
    }

    /** `ExportPath`: the export directory under the destination. */
    function ExportPath(): (r: Option<string>)
      reads this
      ensures r.Some? <==> destinationDir.Some?
      ensures r.Some? ==> r.value == PathJoin([destinationDir.value, exportDir])
    {
      if destinationDir.Some? then Some(PathJoin([destinationDir.value, exportDir])) else None
    }

    /** `GeneratePath`: the export directory under the generate directory. */
    function GeneratePath(): (r: Option<string>)
      reads this
      ensures r.Some? <==> destinationDir.Some?
      ensures r.Some? ==> r.value == PathJoin([destinationDir.value, generateDir, exportDir])
    {
      if destinationDir.Some? then Some(PathJoin([destinationDir.value, generateDir, exportDir])) else None
    }

    /** `GenerateTsPath`: `models` under the generate directory. */
    function GenerateTsPath(): (r: Option<string>)
      reads this
      ensures r.Some? <==> destinationDir.Some?
      ensures r.Some? ==> r.value == PathJoin([destinationDir.value, generateDir, TsModelsDir])
    {
      if destinationDir.Some? then Some(PathJoin([destinationDir.value, generateDir, TsModelsDir])) else None
    }
  }

  /** With the default directories and a non-empty destination `d`, the
      models are read from `d/src/models` and exported to `d/export`. */
  lemma DefaultLayout(m: ModelRequest, d: string)
    requires m.destinationDir == Some(d) && d != ""
    requires m.modelsDir == DefaultModelsDir && m.exportDir == DefaultExportsDir
    ensures m.ModelsPath() == Some(d + "/src/models")
    ensures m.ExportPath() == Some(d + "/export")
  {
    PathJoin2(d, DefaultModelsDir);
    assert d + "/" + DefaultModelsDir == d + "/src/models";
    PathJoin2(d, DefaultExportsDir);
    assert d + "/" + DefaultExportsDir == d + "/export";
  }

  /** With the default directories and a non-empty destination `d`, the
      generated files go to `d/generated/export` and `d/generated/models`. */
  lemma DefaultGenerateLayout(m: ModelRequest, d: string)
    requires m.destinationDir == Some(d) && d != ""
    requires m.exportDir == DefaultExportsDir && m.generateDir == DefaultGenerateDir
    ensures m.GeneratePath() == Some(d + "/generated/export")
    ensures m.GenerateTsPath() == Some(d + "/generated/models")
  {
    PathJoin3(d, DefaultGenerateDir, DefaultExportsDir);
    assert d + "/" + DefaultGenerateDir + "/" + DefaultExportsDir == d + "/generated/export";
    PathJoin3(d, DefaultGenerateDir, TsModelsDir);
    assert d + "/" + DefaultGenerateDir + "/" + TsModelsDir == d + "/generated/models";
  }

  /** `fileName(modelName)`: the exported schema's file. */
  function FileName(modelName: string): (r: string)
    ensures |r| == |modelName| + 5 && r[..|modelName|] == modelName && r[|modelName|..] == ".json"
  {
    modelName + ".json"
  }

  /** `fileNameTS(modelName)`: the model's source file. */
  function FileNameTS(modelName: string): (r: string)
    ensures |r| == |modelName| + 3 && r[..|modelName|] == modelName && r[|modelName|..] == ".ts"
  {
    modelName + ".ts"
  }

  /** Different models have different files of either kind, and a schema
      file is never a source file. */
  lemma FileNamesDistinct(a: string, b: string)
    ensures FileName(a) == FileName(b) ==> a == b
    ensures FileNameTS(a) == FileNameTS(b) ==> a == b
    ensures FileName(a) != FileNameTS(b)
  {
    assert FileName(a)[|FileName(a)| - 1] == 'n';
    assert FileNameTS(b)[|FileNameTS(b)| - 1] == 's';
  }
}
