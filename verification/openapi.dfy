/**
 * The OpenAPI 3.0.3 document `Bolt.generate_openapi` builds from the route
 * list (bolt/app.py, lines 66-134), as a fold over the routes, in two
 * versions. `EmitAsWritten` is the code as it stands: lines 123-125 unpack
 * the single dict `msgspec.json.schema` returns, and the `update` that
 * follows raises for every body type. `Emit` is the evidently intended
 * generator, which receives the body schema and its component schemas as a
 * pair. The two agree on every route list without a body route. JSON
 * objects are insertion-ordered dicts; schema contents are opaque.
 */
module OpenApi {
  import opened Wrappers
  import opened OrderedDict
  import opened Runtime
  import opened Signature
  import opened TypeMap
  import opened PyStr
  import Responses

  /**
   * A JSON schema produced by msgspec, its contents not modelled, or the
   * bare string that stands where a schema belongs once a dict has been
   * unpacked into its keys.
   */
  datatype JsonSchema = JsonSchema(id: nat) | DictKey(key: string)

  /**
   * The intended input of lines 123-125: the schema of the body and the
   * component schemas it refers to, by name, as the pair
   * `msgspec.json.schema_components` returns.
   */
  type SchemaGen = nat -> (JsonSchema, Dict<string, JsonSchema>)

  /**
   * What the code actually unpacks: `msgspec.json.schema(T)` returns ONE
   * dict, and iterating a dict yields its keys, so only the key list
   * matters to lines 123-125.
   */
  type SchemaKeys = nat -> seq<string>

  /** The keys of msgspec's schema for a Struct: {"$ref": "#/$defs/T", "$defs": {...}}. */
  const MsgspecSchemaKeys: seq<string> := ["$ref", "$defs"]

  /** The ValueError of `dict.update(s)` for a non-empty str `s`: each character is an element of length 1, not a pair. */
  const UpdateFromStrError: string := "dictionary update sequence element #0 has length 1; 2 is required"

  /** The ValueError of unpacking `n` (not 2) values into two names. */
  function UnpackError(n: nat): Exc {
    if n == 0 then ValueErrorExc("not enough values to unpack (expected 2, got 0)")
    else if n == 1 then ValueErrorExc("not enough values to unpack (expected 2, got 1)")
    else ValueErrorExc("too many values to unpack (expected 2)")
  }

  datatype Location = InPath | InQuery

  /** One entry of an operation's "parameters" list. */
  datatype Parameter = Parameter(name: string, location: Location, required: bool, schemaType: string)

  /** One entry of "responses": the status code and its description. */
  datatype ResponseDoc = ResponseDoc(status: string, description: string)

  /** "requestBody": whether it is required, its media type and its schema. */
  datatype RequestBody = RequestBody(required: bool, mediaType: string, schema: JsonSchema)

  datatype Operation = Operation(
    summary: string,
    parameters: seq<Parameter>,
    responses: seq<ResponseDoc>,
    requestBody: Option<RequestBody>)

  datatype Info = Info(title: string, version: string)

  /** The whole document: "openapi", "info", "paths" (path, then lower-case method) and "components"/"schemas". */
  datatype Document = Document(
    openapi: string,
    info: Info,
    paths: Dict<string, Dict<string, Operation>>,
    schemas: Dict<string, JsonSchema>)

  /** The routes Bolt adds for its own documentation pages (lines 36-38, skipped at line 78). */
  const DocPaths: seq<string> := ["/openapi.json", "/docs", "/redoc"]

  /**
   * The entries the generator documents (lines 76-85): a `Route`, not one of
   * the documentation routes, whose endpoint carries Bolt's metadata.
   */
  predicate Documented(r: RouteEntry) {
    r.HttpRoute? && r.path !in DocPaths && r.endpoint.BoltEndpoint?
  }

  /** The metadata of a documented route's endpoint. */
  function MetaOfRoute(r: RouteEntry): Meta
    requires Documented(r)
  {
    MetaOf(r.endpoint.plan)
  }

  /** The method key of a route's operation: `list(route.methods)[0].lower()`. */
  function MethodKey(r: RouteEntry): string
    requires r.HttpRoute?
  {
    Lower(r.httpMethod)
  }

  /** The summary: underscores become spaces, then `str.title()` (line 95). */
  function Summary(name: string): string {
    Title(ReplaceChar(name, '_', ' '))
  }

  /** A parameter table in order, each entry documented at `loc` with its TYPE_MAP type (lines 101-119). */
  function Parameters(items: seq<(string, Annotation)>, loc: Location): (ps: seq<Parameter>)
    ensures |ps| == |items|
    ensures forall i :: 0 <= i < |items| ==>
      && ps[i].name == items[i].0
      && ps[i].location == loc
      && (ps[i].required <==> loc == InPath)
      && ps[i].schemaType == OpenApiType(items[i].1)
  {
    if items == [] then []
    else [Parameter(items[0].0, loc, loc == InPath, OpenApiType(items[0].1))] + Parameters(items[1..], loc)
  }

  /** The body schema of a route, when its handler has a Struct parameter. */
  function BodySchema(meta: Meta, gen: SchemaGen): Option<JsonSchema> {
    match meta.bodyType
    case None => None
    case Some(t) => Some(gen(t).0)
  }

  /** The component schemas a route contributes; none without a body. */
  function Components(r: RouteEntry, gen: SchemaGen): Dict<string, JsonSchema>
    requires Documented(r)
  {
    match MetaOfRoute(r).bodyType
    case None => Empty()
    case Some(t) => gen(t).1
  }

  /** The operation object of lines 94-130. */
  function OperationOf(meta: Meta, body: Option<JsonSchema>): Operation {
    Operation(
      Summary(meta.name),
      Parameters(meta.pathParams.items, InPath) + Parameters(meta.queryParams.items, InQuery),
      [ResponseDoc("200", "Successful Response")],
      match body
      case None => None
      case Some(s) => Some(RequestBody(true, "application/json", s)))
  }

  function RouteOperation(r: RouteEntry, gen: SchemaGen): Operation
    requires Documented(r)
  {
    var meta := MetaOfRoute(r);
    OperationOf(meta, BodySchema(meta, gen))
  }

  /** The skeleton of lines 68-73. */
  function Initial(title: string): Document {
    Document("3.0.3", Info(title, "1.0.0"), Empty(), Empty())
  }

  /** The components merge of lines 124-125: `update` only when msgspec returned some. */
  function MergeSchemas(schemas: Dict<string, JsonSchema>, components: Dict<string, JsonSchema>): Dict<string, JsonSchema> {
    if components.items != [] then Update(schemas, components) else schemas
  }

  /**
   * Lines 88-89 and 124-132 for a documented route: the components are
   * merged, and the operation is stored under the path and method key.
   */
  function AddOperation(doc: Document, r: RouteEntry, op: Operation, components: Dict<string, JsonSchema>): Document
    requires r.HttpRoute?
  {
    var ops := match Get(doc.paths, r.path) case Some(o) => o case None => Empty();
    doc.(paths := Put(doc.paths, r.path, Put(ops, MethodKey(r), op)),
         schemas := MergeSchemas(doc.schemas, components))
  }

  /** One iteration of the loop over the routes (lines 75-132), as intended. */
  function AddRoute(doc: Document, r: RouteEntry, gen: SchemaGen): Document {
    if !Documented(r) then doc
    else AddOperation(doc, r, RouteOperation(r, gen), Components(r, gen))
  }

  /** The document for a route list: every route folded in, in order. */
  function Emit(title: string, routes: seq<RouteEntry>, gen: SchemaGen): Document
    decreases |routes|
  {
    if routes == [] then Initial(title)
    else AddRoute(Emit(title, routes[..|routes| - 1], gen), routes[|routes| - 1], gen)
  }

  // ---------------------------------------------------------------------
  // The generator as written
  // ---------------------------------------------------------------------

  /**
   * Lines 123-125 as written, for a schema dict with keys `keys`: the keys
   * are unpacked into `js_schema` and `components`, and a non-empty
   * `components` str is passed to `dict.update`. The result is the string
   * `js_schema` became, or the ValueError raised.
   */
  function UnpackAndMerge(keys: seq<string>): (r: Result<string, Exc>)
    ensures r.Ok? <==> |keys| == 2 && keys[1] == ""
    ensures r.Err? ==> r.error.ValueErrorExc?
  {
    if |keys| != 2 then Err(UnpackError(|keys|))
    else if keys[1] != "" then Err(ValueErrorExc(UpdateFromStrError))
    else Ok(keys[0])
  }

  /** One iteration of the loop over the routes (lines 75-132), as written. */
  function AddRouteAsWritten(doc: Document, r: RouteEntry, keysOf: SchemaKeys): Result<Document, Exc> {
    if !Documented(r) then Ok(doc)
    else
      var meta := MetaOfRoute(r);
      match meta.bodyType
      case None => Ok(AddOperation(doc, r, OperationOf(meta, None), Empty()))
      case Some(t) =>
        match UnpackAndMerge(keysOf(t))
        case Err(e) => Err(e)
        case Ok(jsSchema) => Ok(AddOperation(doc, r, OperationOf(meta, Some(DictKey(jsSchema))), Empty()))
  }

  /** `generate_openapi()` as written: the routes folded in, in order, until one raises. */
  function EmitAsWritten(title: string, routes: seq<RouteEntry>, keysOf: SchemaKeys): Result<Document, Exc>
    decreases |routes|
  {
    if routes == [] then Ok(Initial(title))
    else
      match EmitAsWritten(title, routes[..|routes| - 1], keysOf)
      case Err(e) => Err(e)
      case Ok(doc) => AddRouteAsWritten(doc, routes[|routes| - 1], keysOf)
  }

  /** Some documented route's handler takes a Struct body. */
  ghost predicate HasBodyRoute(routes: seq<RouteEntry>) {
    exists i :: 0 <= i < |routes| && Documented(routes[i]) && MetaOfRoute(routes[i]).bodyType.Some?
  }

  /** Once a route raises, the exception escapes whatever routes follow. */
  lemma {:induction false} AsWrittenErrorEscapes(title: string, routes: seq<RouteEntry>, keysOf: SchemaKeys, i: nat)
    requires i <= |routes| && EmitAsWritten(title, routes[..i], keysOf).Err?
    ensures EmitAsWritten(title, routes, keysOf) == EmitAsWritten(title, routes[..i], keysOf)
    decreases |routes|
  {
    if i < |routes| {
      var n := |routes| - 1;
      assert routes[..n][..i] == routes[..i];
      AsWrittenErrorEscapes(title, routes[..n], keysOf, i);
    } else {
      assert routes[..i] == routes;
    }
  }

  /**
   * Without a documented body route the code never reaches line 123, and it
   * builds the intended document, whatever msgspec would return.
   */
  lemma {:induction false} AsWrittenWithoutBodies(title: string, routes: seq<RouteEntry>, keysOf: SchemaKeys, gen: SchemaGen)
    requires !HasBodyRoute(routes)
    ensures EmitAsWritten(title, routes, keysOf) == Ok(Emit(title, routes, gen))
    decreases |routes|
  {
    if routes != [] {
      var n := |routes| - 1;
      var init := routes[..n];
      assert !HasBodyRoute(init);
      AsWrittenWithoutBodies(title, init, keysOf, gen);
      var r := routes[n];
      if Documented(r) {
        assert MetaOfRoute(r).bodyType.None?;
        assert RouteOperation(r, gen) == OperationOf(MetaOfRoute(r), None);
      }
    }
  }

  /** With msgspec's schema dict, the first documented body route makes line 125 raise. */
  lemma {:induction false} AsWrittenRaisesOnBody(title: string, routes: seq<RouteEntry>, keysOf: SchemaKeys)
    requires forall t :: keysOf(t) == MsgspecSchemaKeys
    requires HasBodyRoute(routes)
    ensures EmitAsWritten(title, routes, keysOf) == Err(ValueErrorExc(UpdateFromStrError))
    decreases |routes|
  {
    var n := |routes| - 1;
    var init := routes[..n];
    var r := routes[n];
    if HasBodyRoute(init) {
      AsWrittenRaisesOnBody(title, init, keysOf);
    } else {
      assert Documented(r) && MetaOfRoute(r).bodyType.Some? by {
        var i :| 0 <= i < |routes| && Documented(routes[i]) && MetaOfRoute(routes[i]).bodyType.Some?;
        assert i == n;
      }
      AsWrittenWithoutBodies(title, init, keysOf, (t: nat) => (JsonSchema(0), Empty()));
      assert keysOf(MetaOfRoute(r).bodyType.value) == MsgspecSchemaKeys;
    }
  }

  /**
   * The code as written produces a document exactly when no documented
   * route takes a body, and that document is the intended one; otherwise
   * `dict.update` raises a ValueError, which the `Exception` handler turns
   * into a 500 response for `/openapi.json`.
   */
  lemma GenerateOpenapiRaisesIffBody(title: string, routes: seq<RouteEntry>, keysOf: SchemaKeys, gen: SchemaGen)
    requires forall t :: keysOf(t) == MsgspecSchemaKeys
    ensures var r := EmitAsWritten(title, routes, keysOf);
      && (r.Err? <==> HasBodyRoute(routes))
      && (r.Ok? ==> r.value == Emit(title, routes, gen))
      && (r.Err? ==> r.error == ValueErrorExc(UpdateFromStrError) && Responses.ErrorResponse(r.error).status == 500)
  {
    if HasBodyRoute(routes) {
      AsWrittenRaisesOnBody(title, routes, keysOf);
    } else {
      AsWrittenWithoutBodies(title, routes, keysOf, gen);
    }
  }

  // ---------------------------------------------------------------------
  // Properties of the generated document
  // ---------------------------------------------------------------------

  /** Every dict in the document has distinct keys. */
  ghost predicate WellShaped(doc: Document) {
    && Valid(doc.paths)
    && Valid(doc.schemas)
    && forall i :: 0 <= i < |doc.paths.items| ==> Valid(doc.paths.items[i].1)
  }

  lemma {:induction false} AddRouteWellShaped(doc: Document, r: RouteEntry, gen: SchemaGen)
    requires WellShaped(doc)
    ensures WellShaped(AddRoute(doc, r, gen))
  {
    if Documented(r) {
      var ops := match Get(doc.paths, r.path) case Some(o) => o case None => Empty();
      assert Valid(ops);
      var ops' := Put(ops, MethodKey(r), RouteOperation(r, gen));
      var paths' := Put(doc.paths, r.path, ops');
      forall i | 0 <= i < |paths'.items| ensures Valid(paths'.items[i].1) {
        var k := paths'.items[i].0;
        assert Get(paths', k) == Some(paths'.items[i].1);
        if k != r.path {
          var j :| 0 <= j < |doc.paths.items| && doc.paths.items[j] == (k, paths'.items[i].1);
        }
      }
    }
  }

  /**
   * The header is fixed and the title is the application's (lines 68-73);
   * no path and no schema name is listed twice.
   */
  lemma {:induction false} EmitHeader(title: string, routes: seq<RouteEntry>, gen: SchemaGen)
    ensures Emit(title, routes, gen).openapi == "3.0.3"
    ensures Emit(title, routes, gen).info == Info(title, "1.0.0")
    ensures WellShaped(Emit(title, routes, gen))
    decreases |routes|
  {
    if routes != [] {
      EmitHeader(title, routes[..|routes| - 1], gen);
      AddRouteWellShaped(Emit(title, routes[..|routes| - 1], gen), routes[|routes| - 1], gen);
    }
  }

  /** There is a document path for `p` exactly when some documented route has path `p`. */
  ghost predicate PathOfSome(routes: seq<RouteEntry>, p: string) {
    exists i :: 0 <= i < |routes| && Documented(routes[i]) && routes[i].path == p
  }

  /** There is an operation for `p` and method key `m` exactly when some documented route registered them. */
  ghost predicate OperationOfSome(routes: seq<RouteEntry>, p: string, m: string) {
    exists i :: 0 <= i < |routes| && Documented(routes[i]) && routes[i].path == p && MethodKey(routes[i]) == m
  }

  lemma {:induction false} PathsListed(title: string, routes: seq<RouteEntry>, gen: SchemaGen, p: string)
    ensures HasKey(Emit(title, routes, gen).paths, p) <==> PathOfSome(routes, p)
    ensures HasKey(Emit(title, routes, gen).paths, p) ==> p !in DocPaths
    decreases |routes|
  {
    if routes != [] {
      var n := |routes| - 1;
      var init := routes[..n];
      PathsListed(title, init, gen, p);
      if PathOfSome(init, p) {
        var i :| 0 <= i < |init| && Documented(init[i]) && init[i].path == p;
        assert routes[i] == init[i];
      }
      if PathOfSome(routes, p) && !(Documented(routes[n]) && routes[n].path == p) {
        var i :| 0 <= i < |routes| && Documented(routes[i]) && routes[i].path == p;
        assert init[i] == routes[i];
      }
    }
  }

  /** One route folded in: its own method key is added under its path, and nothing else changes. */
  lemma AddRouteMethods(doc: Document, r: RouteEntry, gen: SchemaGen, p: string, m: string)
    requires HasKey(AddRoute(doc, r, gen).paths, p)
    ensures HasKey(Get(AddRoute(doc, r, gen).paths, p).value, m) <==>
      || (HasKey(doc.paths, p) && HasKey(Get(doc.paths, p).value, m))
      || (Documented(r) && r.path == p && MethodKey(r) == m)
  {
    if Documented(r) {
      var ops := match Get(doc.paths, r.path) case Some(o) => o case None => Empty();
      var ops' := Put(ops, MethodKey(r), RouteOperation(r, gen));
      assert AddRoute(doc, r, gen).paths == Put(doc.paths, r.path, ops');
      if r.path == p {
        assert Get(AddRoute(doc, r, gen).paths, p) == Some(ops');
        assert HasKey(ops', m) <==> HasKey(ops, m) || m == MethodKey(r);
      } else {
        assert Get(AddRoute(doc, r, gen).paths, p) == Get(doc.paths, p);
      }
    }
  }

  /** Splitting off the last route splits the registrations for a path and method. */
  lemma OperationOfSomeSnoc(routes: seq<RouteEntry>, p: string, m: string)
    requires routes != []
    ensures var n := |routes| - 1; var r := routes[n];
      OperationOfSome(routes, p, m) <==>
        OperationOfSome(routes[..n], p, m) || (Documented(r) && r.path == p && MethodKey(r) == m)
  {
    var n := |routes| - 1;
    var init := routes[..n];
    var r := routes[n];
    if OperationOfSome(init, p, m) {
      var i :| 0 <= i < |init| && Documented(init[i]) && init[i].path == p && MethodKey(init[i]) == m;
      assert routes[i] == init[i];
    }
    if OperationOfSome(routes, p, m) && !(Documented(r) && r.path == p && MethodKey(r) == m) {
      var i :| 0 <= i < |routes| && Documented(routes[i]) && routes[i].path == p && MethodKey(routes[i]) == m;
      assert init[i] == routes[i];
    }
  }

  /** A path no route documents has no registration for any method. */
  lemma NoPathNoOperation(routes: seq<RouteEntry>, p: string, m: string)
    requires !PathOfSome(routes, p)
    ensures !OperationOfSome(routes, p, m)
  {
  }

  /** Under a documented path, the method keys are exactly those registered for it. */
  lemma {:induction false} MethodsListed(title: string, routes: seq<RouteEntry>, gen: SchemaGen, p: string, m: string)
    requires HasKey(Emit(title, routes, gen).paths, p)
    ensures HasKey(Get(Emit(title, routes, gen).paths, p).value, m) <==> OperationOfSome(routes, p, m)
    decreases |routes|
  {
    if routes != [] {
      var n := |routes| - 1;
      var init := routes[..n];
      var doc := Emit(title, init, gen);
      AddRouteMethods(doc, routes[n], gen, p, m);
      OperationOfSomeSnoc(routes, p, m);
      if HasKey(doc.paths, p) {
        MethodsListed(title, init, gen, p, m);
      } else {
        PathsListed(title, init, gen, p);
        NoPathNoOperation(init, p, m);
      }
    }
  }

  /**
   * The operation documented for a path and method is built from the LAST
   * documented route registered for them: later registrations overwrite
   * `schema["paths"][path][method]`.
   */
  lemma {:induction false} LastRegistrationWins(title: string, routes: seq<RouteEntry>, gen: SchemaGen, i: nat)
    requires i < |routes| && Documented(routes[i])
    requires forall j :: i < j < |routes| && Documented(routes[j]) ==>
      routes[j].path != routes[i].path || MethodKey(routes[j]) != MethodKey(routes[i])
    ensures HasKey(Emit(title, routes, gen).paths, routes[i].path)
    ensures Get(Get(Emit(title, routes, gen).paths, routes[i].path).value, MethodKey(routes[i]))
         == Some(RouteOperation(routes[i], gen))
    decreases |routes|
  {
    var n := |routes| - 1;
    var doc := Emit(title, routes[..n], gen);
    assert Emit(title, routes, gen) == AddRoute(doc, routes[n], gen);
    if i < n {
      LastInPrefix(routes, i);
      LastRegistrationWins(title, routes[..n], gen, i);
    }
    AddRouteGet(doc, routes[n], gen, routes[i].path, MethodKey(routes[i]));
  }

  /** A last registration stays the last one once later routes are dropped. */
  lemma LastInPrefix(routes: seq<RouteEntry>, i: nat)
    requires i < |routes| - 1 && Documented(routes[i])
    requires forall j :: i < j < |routes| && Documented(routes[j]) ==>
      routes[j].path != routes[i].path || MethodKey(routes[j]) != MethodKey(routes[i])
    ensures var init := routes[..|routes| - 1];
      && init[i] == routes[i]
      && forall j :: i < j < |init| && Documented(init[j]) ==>
           init[j].path != init[i].path || MethodKey(init[j]) != MethodKey(init[i])
  {
    var init := routes[..|routes| - 1];
    forall j | i < j < |init| && Documented(init[j])
      ensures init[j].path != init[i].path || MethodKey(init[j]) != MethodKey(init[i])
    {
      assert init[j] == routes[j];
    }
  }

  /** One route folded in sets its own operation and leaves every other path and method as it was. */
  lemma AddRouteGet(doc: Document, r: RouteEntry, gen: SchemaGen, p: string, m: string)
    ensures var after := AddRoute(doc, r, gen).paths;
      if Documented(r) && r.path == p && MethodKey(r) == m then
        HasKey(after, p) && Get(Get(after, p).value, m) == Some(RouteOperation(r, gen))
      else
        HasKey(doc.paths, p) ==> HasKey(after, p) && Get(Get(after, p).value, m) == Get(Get(doc.paths, p).value, m)
  {
    if Documented(r) {
      var ops := match Get(doc.paths, r.path) case Some(o) => o case None => Empty();
      var ops' := Put(ops, MethodKey(r), RouteOperation(r, gen));
      assert AddRoute(doc, r, gen).paths == Put(doc.paths, r.path, ops');
      if r.path == p {
        assert Get(AddRoute(doc, r, gen).paths, p) == Some(ops');
      } else {
        assert Get(AddRoute(doc, r, gen).paths, p) == Get(doc.paths, p);
      }
    }
  }

  /** A schema name is listed exactly when some documented route's body contributed it. */
  ghost predicate ComponentOfSome(routes: seq<RouteEntry>, gen: SchemaGen, k: string) {
    exists i :: 0 <= i < |routes| && Documented(routes[i]) && HasKey(Components(routes[i], gen), k)
  }

  lemma {:induction false} SchemasListed(title: string, routes: seq<RouteEntry>, gen: SchemaGen, k: string)
    ensures HasKey(Emit(title, routes, gen).schemas, k) <==> ComponentOfSome(routes, gen, k)
    decreases |routes|
  {
    if routes != [] {
      var n := |routes| - 1;
      var r := routes[n];
      SchemasListed(title, routes[..n], gen, k);
      ComponentOfSomeSnoc(routes, gen, k);
      if Documented(r) && Components(r, gen).items == [] {
        assert !HasKey(Components(r, gen), k);
      }
    }
  }

  lemma ComponentOfSomeSnoc(routes: seq<RouteEntry>, gen: SchemaGen, k: string)
    requires routes != []
    ensures var n := |routes| - 1; var r := routes[n];
      ComponentOfSome(routes, gen, k) <==>
        ComponentOfSome(routes[..n], gen, k) || (Documented(r) && HasKey(Components(r, gen), k))
  {
    var n := |routes| - 1;
    var init := routes[..n];
    var r := routes[n];
    if ComponentOfSome(init, gen, k) {
      var i :| 0 <= i < |init| && Documented(init[i]) && HasKey(Components(init[i], gen), k);
      assert routes[i] == init[i];
    }
    if ComponentOfSome(routes, gen, k) && !(Documented(r) && HasKey(Components(r, gen), k)) {
      var i :| 0 <= i < |routes| && Documented(routes[i]) && HasKey(Components(routes[i], gen), k);
      assert init[i] == routes[i];
    }
  }

  /**
   * Component schemas are merged with `dict.update`: the schema kept under a
   * name is the one the last contributing route supplied.
   */
  lemma {:induction false} LastComponentWins(title: string, routes: seq<RouteEntry>, gen: SchemaGen, i: nat, k: string)
    requires forall t :: Valid(gen(t).1)
    requires i < |routes| && Documented(routes[i]) && HasKey(Components(routes[i], gen), k)
    requires forall j :: i < j < |routes| && Documented(routes[j]) ==> !HasKey(Components(routes[j], gen), k)
    ensures Get(Emit(title, routes, gen).schemas, k) == Get(Components(routes[i], gen), k)
    decreases |routes|
  {
    var n := |routes| - 1;
    var init := routes[..n];
    var doc := Emit(title, init, gen);
    var r := routes[n];
    assert Emit(title, routes, gen) == AddRoute(doc, r, gen);
    if i < n {
      assert init[i] == routes[i];
      forall j | i < j < |init| && Documented(init[j]) ensures !HasKey(Components(init[j], gen), k) {
        assert init[j] == routes[j];
      }
      LastComponentWins(title, init, gen, i, k);
      if Documented(r) && Components(r, gen).items != [] {
        UpdateGet(doc.schemas, Components(r, gen), k);
      }
    } else {
      assert Valid(Components(r, gen));
      UpdateGet(doc.schemas, Components(r, gen), k);
    }
  }

  /**
   * The operation object: the summary from the handler's name, the path
   * parameters (required) and then the query parameters (optional) in table
   * order, the single 200 response, and a required JSON request body exactly
   * when the handler takes a Struct.
   */
  lemma OperationShape(r: RouteEntry, gen: SchemaGen)
    requires Documented(r)
    ensures var op := RouteOperation(r, gen);
      var meta := MetaOf(r.endpoint.plan);
      var np := |meta.pathParams.items|;
      && op.summary == Summary(r.endpoint.plan.func.name)
      && |op.parameters| == np + |meta.queryParams.items|
      && (forall i :: 0 <= i < np ==>
            op.parameters[i] == Parameter(meta.pathParams.items[i].0, InPath, true, OpenApiType(meta.pathParams.items[i].1)))
      && (forall i :: 0 <= i < |meta.queryParams.items| ==>
            op.parameters[np + i] == Parameter(meta.queryParams.items[i].0, InQuery, false, OpenApiType(meta.queryParams.items[i].1)))
      && op.responses == [ResponseDoc("200", "Successful Response")]
      && (op.requestBody.Some? <==> r.endpoint.plan.body.Some?)
      && (op.requestBody.Some? ==>
            op.requestBody.value == RequestBody(true, "application/json", gen(r.endpoint.plan.body.value.1).0))
  {
    var meta := MetaOf(r.endpoint.plan);
    var ps := Parameters(meta.pathParams.items, InPath);
    var qs := Parameters(meta.queryParams.items, InQuery);
    assert RouteOperation(r, gen).parameters == ps + qs;
    forall i | 0 <= i < |qs| ensures (ps + qs)[|ps| + i] == qs[i] { }
  }

  /** The summary has no underscore left, keeps the name's length, and is its own summary. */
  lemma SummaryFacts(name: string)
    ensures |Summary(name)| == |name|
    ensures forall i :: 0 <= i < |name| && name[i] == '_' ==> Summary(name)[i] == ' '
    ensures forall i :: 0 <= i < |name| ==> Summary(name)[i] != '_'
    ensures Summary(Summary(name)) == Summary(name)
  {
    var s := ReplaceChar(name, '_', ' ');
    TitleLength(s, false);
    forall i | 0 <= i < |name| ensures Summary(name)[i] != '_' && (name[i] == '_' ==> Summary(name)[i] == ' ') {
      TitleAt(s, false, i);
    }
    var t := Summary(name);
    assert ReplaceChar(t, '_', ' ') == t;
    TitleIdempotent(s);
  }
}
