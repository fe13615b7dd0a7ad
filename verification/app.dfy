/**
 * The `Bolt` application object of bolt/app.py: its title and route list,
 * the registration decorator and its verb shorthands, `include_router`,
 * and `generate_openapi` as the loops it is, proved to compute
 * `OpenApi.EmitAsWritten` of the route list.
 */
module Application {
  import opened Wrappers
  import opened OrderedDict
  import opened Runtime
  import opened Signature
  import opened PathTemplate
  import opened Classifier
  import opened TypeMap
  import opened PyStr
  import opened OpenApi
  import opened Routers

  /** The plain endpoints behind the three documentation routes. */
  const OpenApiPage: nat := 0
  const SwaggerPage: nat := 1
  const RedocPage: nat := 2

  /** The routes `Bolt.__init__` adds (lines 36-38). */
  function DocRoutes(): seq<RouteEntry> {
    [HttpRoute("/openapi.json", "GET", PlainEndpoint(OpenApiPage)),
     HttpRoute("/docs", "GET", PlainEndpoint(SwaggerPage)),
     HttpRoute("/redoc", "GET", PlainEndpoint(RedocPage))]
  }

  /** The route a successful registration of `f` at `path` adds. */
  function CompiledRoute(path: string, httpMethod: string, f: Func): RouteEntry
    requires Compile(path, f).Ok?
  {
    HttpRoute(path, httpMethod, BoltEndpoint(Compile(path, f).value))
  }

  /** The position of the first router entry whose handler fails to register, or the entry count. */
  function FirstRejected(entries: seq<RouterEntry>): (k: nat)
    ensures k <= |entries|
    ensures forall i :: 0 <= i < k ==> Compile(entries[i].path, entries[i].handler).Ok?
    ensures k < |entries| ==> Compile(entries[k].path, entries[k].handler).Err?
  {
    if entries == [] then 0
    else if Compile(entries[0].path, entries[0].handler).Err? then 0
    else
      var k := 1 + FirstRejected(entries[1..]);
      assert forall i :: 1 <= i < |entries| ==> entries[1..][i - 1] == entries[i];
      k
  }

  /** The routes registering every entry of `entries`, in order, adds. */
  function Included(entries: seq<RouterEntry>): seq<RouteEntry>
    requires forall i :: 0 <= i < |entries| ==> Compile(entries[i].path, entries[i].handler).Ok?
  {
    seq(|entries|, i requires 0 <= i < |entries| => CompiledRoute(entries[i].path, entries[i].httpMethod, entries[i].handler))
  }

  /** Including one more entry appends its route. */
  lemma IncludedSnoc(entries: seq<RouterEntry>, i: nat)
    requires i < |entries| && forall j :: 0 <= j <= i ==> Compile(entries[j].path, entries[j].handler).Ok?
    ensures Included(entries[..i + 1]) == Included(entries[..i]) + [CompiledRoute(entries[i].path, entries[i].httpMethod, entries[i].handler)]
  {
    var a := Included(entries[..i + 1]);
    var b := Included(entries[..i]) + [CompiledRoute(entries[i].path, entries[i].httpMethod, entries[i].handler)];
    assert |a| == |b|;
    forall j | 0 <= j <= i ensures a[j] == b[j] {
      assert entries[..i + 1][j] == entries[j];
    }
  }

  class Bolt {
    var title: string
    var routes: seq<RouteEntry>

    /**
     * `Bolt(title)` (lines 24-38). The exception handlers it registers are
     * `Responses.ErrorResponse`; the routes are the three documentation
     * pages. The default title "Bolt API" is the caller's to pass.
     */
    constructor (title: string)
      ensures this.title == title && routes == DocRoutes()
    {
      this.title := title;
      routes := DocRoutes();
    }

    /**
     * `_decorator(path, [httpMethod])(f)` (lines 176-304): compile the
     * signature against the path's placeholders and add the route; a hint
     * `issubclass` refuses raises and adds nothing. The decorator hands back
     * `f` itself, not the endpoint.
     */
    method Decorate(path: string, httpMethod: string, f: Func) returns (r: Result<Func, ConfigError>)
      modifies this
      ensures title == old(title)
      ensures Compile(path, f).Err? ==> r == Err(Compile(path, f).error) && routes == old(routes)
      ensures Compile(path, f).Ok? ==> r == Ok(f) && routes == old(routes) + [CompiledRoute(path, httpMethod, f)]
    {
      var pathParamNames := Placeholders(path);
      var plan := CompileSignature(pathParamNames, f);
      if plan.Err? {
        return Err(plan.error);
      }
      routes := routes + [HttpRoute(path, httpMethod, BoltEndpoint(plan.value))];
      r := Ok(f);
    }

    method Get(path: string, f: Func) returns (r: Result<Func, ConfigError>)
      modifies this
      ensures title == old(title)
      ensures Compile(path, f).Err? ==> r == Err(Compile(path, f).error) && routes == old(routes)
      ensures Compile(path, f).Ok? ==> r == Ok(f) && routes == old(routes) + [CompiledRoute(path, "GET", f)]
    {
      r := Decorate(path, "GET", f);
    }

    method Post(path: string, f: Func) returns (r: Result<Func, ConfigError>)
      modifies this
      ensures title == old(title)
      ensures Compile(path, f).Err? ==> r == Err(Compile(path, f).error) && routes == old(routes)
      ensures Compile(path, f).Ok? ==> r == Ok(f) && routes == old(routes) + [CompiledRoute(path, "POST", f)]
    {
      r := Decorate(path, "POST", f);
    }

    method Put(path: string, f: Func) returns (r: Result<Func, ConfigError>)
      modifies this
      ensures title == old(title)
      ensures Compile(path, f).Err? ==> r == Err(Compile(path, f).error) && routes == old(routes)
      ensures Compile(path, f).Ok? ==> r == Ok(f) && routes == old(routes) + [CompiledRoute(path, "PUT", f)]
    {
      r := Decorate(path, "PUT", f);
    }

    method Delete(path: string, f: Func) returns (r: Result<Func, ConfigError>)
      modifies this
      ensures title == old(title)
      ensures Compile(path, f).Err? ==> r == Err(Compile(path, f).error) && routes == old(routes)
      ensures Compile(path, f).Ok? ==> r == Ok(f) && routes == old(routes) + [CompiledRoute(path, "DELETE", f)]
    {
      r := Decorate(path, "DELETE", f);
    }

    method Patch(path: string, f: Func) returns (r: Result<Func, ConfigError>)
      modifies this
      ensures title == old(title)
      ensures Compile(path, f).Err? ==> r == Err(Compile(path, f).error) && routes == old(routes)
      ensures Compile(path, f).Ok? ==> r == Ok(f) && routes == old(routes) + [CompiledRoute(path, "PATCH", f)]
    {
      r := Decorate(path, "PATCH", f);
    }

    /**
     * `include_router(router)` (lines 165-174): register the router's
     * entries in order; the first that fails raises, and the ones before it
     * stay registered.
     */
    method IncludeRouter(router: Router) returns (r: Result<(), ConfigError>)
      modifies this
      ensures title == old(title)
      ensures var k := FirstRejected(router.routes);
        && routes == old(routes) + Included(router.routes[..k])
        && (k == |router.routes| ==> r == Ok(()))
        && (k < |router.routes| ==> r == Err(Compile(router.routes[k].path, router.routes[k].handler).error))
    {
      var entries := router.routes;
      var k := FirstRejected(entries);
      var i := 0;
      while i < |entries|
        invariant 0 <= i <= k
        invariant title == old(title) && router.routes == entries
        invariant routes == old(routes) + Included(entries[..i])
      {
        var route := entries[i];
        var added := Decorate(route.path, route.httpMethod, route.handler);
        if added.Err? {
          assert i == k;
          return Err(added.error);
        }
        IncludedSnoc(entries, i);
        i := i + 1;
      }
      assert i == k;
      r := Ok(());
    }

    /**
     * `generate_openapi()` (lines 66-134): a new document built from the
     * title and the current route list; the application is not changed.
     * `keysOf` gives the keys of the dict `msgspec.json.schema` returns for
     * a body type; line 123 unpacks that dict into them, and line 125 hands
     * the second to `dict.update`, which raises for a non-empty str.
     */
    method GenerateOpenapi(keysOf: SchemaKeys) returns (r: Result<Document, Exc>)
      ensures r == EmitAsWritten(title, routes, keysOf)
      ensures (forall t :: keysOf(t) == MsgspecSchemaKeys) ==> (r.Err? <==> HasBodyRoute(routes))
    {
      var doc := Document("3.0.3", Info(title, "1.0.0"), Empty(), Empty());
      var i := 0;
      while i < |routes|
        invariant 0 <= i <= |routes|
        invariant EmitAsWritten(title, routes[..i], keysOf) == Ok(doc)
      {
        var route := routes[i];
        assert routes[..i + 1][..i] == routes[..i];
        if route.HttpRoute? && route.path !in DocPaths && route.endpoint.BoltEndpoint? {
          var meta := MetaOf(route.endpoint.plan);
          var path := route.path;
          var before := doc.paths;
          if !HasKey(doc.paths, path) {
            doc := doc.(paths := OrderedDict.Put(doc.paths, path, Empty()));
          }
          var methodKey := Lower(route.httpMethod);
          var operation := DescribeOperation(meta);
          if meta.bodyType.Some? {
            var keys := keysOf(meta.bodyType.value);
            if |keys| != 2 {
              r := Err(UnpackError(|keys|));
              AsWrittenErrorEscapes(title, routes, keysOf, i + 1);
              return;
            }
            var jsSchema, components := keys[0], keys[1];
            if components != "" {
              r := Err(ValueErrorExc(UpdateFromStrError));
              AsWrittenErrorEscapes(title, routes, keysOf, i + 1);
              return;
            }
            operation := operation.(requestBody := Some(RequestBody(true, "application/json", DictKey(jsSchema))));
          }
          var ops := OrderedDict.Get(doc.paths, path).value;
          if !HasKey(before, path) {
            PutPut(before, path, Empty(), OrderedDict.Put(ops, methodKey, operation));
          }
          doc := doc.(paths := OrderedDict.Put(doc.paths, path, OrderedDict.Put(ops, methodKey, operation)));
        }
        i := i + 1;
      }
      assert routes[..i] == routes;
      r := Ok(doc);
      if forall t :: keysOf(t) == MsgspecSchemaKeys {
        GenerateOpenapiRaisesIffBody(title, routes, keysOf, (t: nat) => (JsonSchema(0), Empty()));
      }
    }
  }

  /**
   * The operation object for one route before its request body is added
   * (lines 94-119): the parameter list is filled by two loops.
   */
  method DescribeOperation(meta: Meta) returns (op: Operation)
    ensures op == OperationOf(meta, None)
  {
    var parameters: seq<Parameter> := [];
    var path := meta.pathParams.items;
    var i := 0;
    while i < |path|
      invariant 0 <= i <= |path|
      invariant |parameters| == i
      invariant forall k :: 0 <= k < i ==> parameters[k] == Parameter(path[k].0, InPath, true, OpenApiType(path[k].1))
    {
      var (name, typeCls) := path[i];
      parameters := parameters + [Parameter(name, InPath, true, OpenApiType(typeCls))];
      i := i + 1;
    }
    ParametersAt(path, InPath);
    assert parameters == Parameters(path, InPath);
    var query := meta.queryParams.items;
    var queryParameters: seq<Parameter> := [];
    var j := 0;
    while j < |query|
      invariant 0 <= j <= |query|
      invariant |queryParameters| == j
      invariant forall k :: 0 <= k < j ==> queryParameters[k] == Parameter(query[k].0, InQuery, false, OpenApiType(query[k].1))
    {
      var (name, typeCls) := query[j];
      queryParameters := queryParameters + [Parameter(name, InQuery, false, OpenApiType(typeCls))];
      j := j + 1;
    }
    ParametersAt(query, InQuery);
    assert queryParameters == Parameters(query, InQuery);
    parameters := parameters + queryParameters;
    var summary := Title(ReplaceChar(meta.name, '_', ' '));
    op := Operation(summary, parameters, [ResponseDoc("200", "Successful Response")], None);
  }

  /** Each documented parameter is the entry's own parameter object. */
  lemma ParametersAt(items: seq<(string, Annotation)>, loc: Location)
    ensures forall j :: 0 <= j < |items| ==>
      Parameters(items, loc)[j] == Parameter(items[j].0, loc, loc == InPath, OpenApiType(items[j].1))
  {
  }

  /** Routes the generator skips contribute nothing, wherever they come first. */
  lemma {:induction false} SkippedPrefix(title: string, pre: seq<RouteEntry>, routes: seq<RouteEntry>, gen: SchemaGen)
    requires forall i :: 0 <= i < |pre| ==> !Documented(pre[i])
    ensures Emit(title, pre + routes, gen) == Emit(title, routes, gen)
    decreases |pre| + |routes|
  {
    if routes == [] {
      assert pre + routes == pre;
      if pre != [] {
        assert pre[..|pre| - 1] + [] == pre[..|pre| - 1];
        SkippedPrefix(title, pre[..|pre| - 1], [], gen);
      }
    } else {
      var n := |routes| - 1;
      assert (pre + routes)[..|pre + routes| - 1] == pre + routes[..n];
      SkippedPrefix(title, pre, routes[..n], gen);
    }
  }

  /**
   * A new application's document lists no path and no schema: its own pages
   * are not documented, and the code as written returns that empty document.
   */
  lemma FreshAppDocumentsNothing(title: string, routes: seq<RouteEntry>, gen: SchemaGen, keysOf: SchemaKeys)
    ensures Emit(title, DocRoutes() + routes, gen) == Emit(title, routes, gen)
    ensures Emit(title, DocRoutes(), gen) == Initial(title)
    ensures EmitAsWritten(title, DocRoutes(), keysOf) == Ok(Initial(title))
  {
    SkippedPrefix(title, DocRoutes(), routes, gen);
    SkippedPrefix(title, DocRoutes(), [], gen);
    assert DocRoutes() + [] == DocRoutes();
    assert !HasBodyRoute(DocRoutes());
    AsWrittenWithoutBodies(title, DocRoutes(), keysOf, gen);
  }

  /**
   * Every entry a router recorded and the application included appears in
   * the document under its full path, with its method, unless it shadows
   * one of the documentation routes.
   */
  lemma IncludedRoutesDocumented(title: string, before: seq<RouteEntry>, entries: seq<RouterEntry>, gen: SchemaGen, i: nat)
    requires forall j :: 0 <= j < |entries| ==> Compile(entries[j].path, entries[j].handler).Ok?
    requires i < |entries| && entries[i].path !in DocPaths
    ensures var doc := Emit(title, before + Included(entries), gen);
      && HasKey(doc.paths, entries[i].path)
      && HasKey(Get(doc.paths, entries[i].path).value, Lower(entries[i].httpMethod))
  {
    var routes := before + Included(entries);
    var k := |before| + i;
    assert routes[k] == CompiledRoute(entries[i].path, entries[i].httpMethod, entries[i].handler);
    assert Documented(routes[k]);
    PathsListed(title, routes, gen, entries[i].path);
    MethodsListed(title, routes, gen, entries[i].path, Lower(entries[i].httpMethod));
  }
}
