# bolt-api core in Dafny

Bolt is a small Python web framework layered on Starlette. A handler is
registered with a decorator (`@app.get("/items/{id}")`). At registration
time Bolt inspects the handler's signature once and classifies every
parameter. The parameter named `request` gets the raw request. A parameter
whose default is `Depends(f)` is a dependency. A `msgspec.Struct` is the
JSON body. A name that appears as `{name}` in the path template is a path
parameter. A parameter of type `int`, `str`, `bool` or `float` is a query
parameter. The classification becomes a *plan*, and the plan drives a
per-request *endpoint*. The endpoint binds:

1. path values;
2. query values;
3. dependencies (plain, async, or async generators that must be closed);
4. a fresh `BackgroundTasks` collector for every still-unbound parameter
   annotated with that type;
5. the decoded body.

The endpoint then calls the handler and wraps a plain return value as
JSON. It attaches the collector's tasks as the response's background job.
In every case it closes the generators it opened, newest first, and
swallows errors raised while closing. Three exception handlers turn
`HTTPException`, `msgspec.ValidationError` and any other exception into
JSON error responses. `generate_openapi` walks the registered routes and
builds an OpenAPI 3.0.3 document from the metadata each endpoint carries.
As written it raises for any documented route that takes a body (see
Findings); the model holds both that code and the corrected generator.
A `Router` records `(prefix + path, method, handler)` entries.
`include_router` replays them through the application's decorator.

The model is organised as follows:

- **Pure logic is written as functions with contracts.** This covers the
  classification, the binding phases, the response wrap, the error
  responses and the document builder.
- **Stateful code is written as imperative Dafny.** The `Bolt` application,
  the `Router` and `BackgroundTasks` are classes whose methods update
  `seq` fields. The loops in the source are `while` loops proved equal to
  the specification functions: signature analysis, each binding phase,
  cleanup, task execution, `include_router` and `generate_openapi`.
- **Python dicts become ordered association lists.** They are
  insertion-ordered and assignment keeps a key's position
  (`OrderedDict`), because the plan tables and the OpenAPI `paths` are
  iterated in insertion order.
- **An endpoint's run is an event trace.** It records every binding, the
  handler call and every generator close. Ordering, cleanup and
  short-circuit properties are stated over that trace.

Modules, in dependency order:

- `Wrappers`: Option and Result.
- `OrderedDict`: Python dict semantics.
- `Runtime`: values and exceptions.
- `Signature`: handler signatures, plans and metadata.
- `PathTemplate`: `re.findall(r"{(.*?)}", path)`.
- `PyStr`: `lower`, `replace` and `title` on ASCII.
- `TypeMap`: `TYPE_MAP`.
- `Background`: the `BackgroundTasks` class.
- `Responses`: the response wrap and the three exception handlers.
- `Classifier`: the static analysis in `wrapper`.
- `Binder`: the request-time steps as functions.
- `Endpoints`: the request-time steps as methods.
- `BinderProps` and `HandlerProps`: properties of a request's run.
- `OpenApi`: the document, as the code builds it and as corrected.
- `Routers`: the `Router` class.
- `Application`: the `Bolt` class.

## Model

| member | source | states |
|---|---|---|
| OrderedDict.Get | bolt/app.py:83-89 | `d.get(k)` is defined exactly for present keys; on a dict without duplicate keys it returns the value stored with k |
| OrderedDict.Put | bolt/app.py:132 | `d[k] = v` keeps every other binding, keeps the key order when k is present and appends k otherwise; afterwards k maps to v |
| OrderedDict.Update | bolt/app.py:125 | `dict.update` keeps validity, and the key set becomes the union of both key sets |
| OrderedDict.UpdateGet | bolt/app.py:125 | after `d.update(other)`, k maps to other's value if other has k, and to d's value otherwise |
| OrderedDict.PutPut | bolt/app.py:88-89 | assigning a key twice is the same as assigning the second value once, so the `{}` placeholder for a new path is overwritten |
| PathTemplate.FindAll | bolt/app.py:178 | `re.findall(r"{(.*?)}", path)` as a left-to-right scan: at each `{`, the text up to the first `}` with no newline before it is captured and the scan resumes behind that `}`; a `{` with no such `}` is skipped |
| PathTemplate.Placeholders | bolt/app.py:178 | `set(re.findall(...))` holds exactly the strings the non-greedy scan returns, and each occurs in the path as `{name}`, with no `}` or newline in it |
| PathTemplate.CloseBrace | bolt/app.py:178 | the non-greedy `.*?}` stops at the first `}`, and `.` does not cross a newline |
| PathTemplate.FindAllSound | bolt/app.py:178 | every match has no `}` and no newline, and appears in the path between braces |
| PathTemplate.RenderRoundTrip | bolt/app.py:178 | for a template built from literals without `{` and placeholder names without `}` or newline, the scan returns exactly the names in order |
| Signature.HasDefaultValue | bolt/app.py:236 | `sig.parameters[name].default != empty` holds only for a declared parameter, and, with distinct names, exactly when that parameter has a default |
| Signature.MetaOf | bolt/app.py:294-299 | `_bolt_meta` carries the handler name, the path and query tables, and a body type exactly when the plan has a body parameter |
| Classifier.RoleOf | bolt/app.py:192-213 | first match wins, in the code's order: the name "request" is skipped; a `Depends` default is a dependency; a hint that is not a class raises; a Struct hint is the body; a placeholder name is a path parameter, cast as `str` when unannotated; an int, str, bool or float hint is a query parameter; anything else stays unbound |
| Classifier.Classify | bolt/app.py:186-213 | the tables start empty and each parameter, in signature order, is put by its role into the dependency, path or query dict or the body slot; the first rejected parameter ends the loop with its error |
| Classifier.Compile | bolt/app.py:176-213 | registration classifies the handler's parameters against the placeholder set of the path template |
| Classifier.CompileSignature | bolt/app.py:191-213 | the loop over the signature yields the plan, or the error, of the first-match-wins classification |
| Classifier.ErrorSticks | bolt/app.py:201 | once a parameter makes `issubclass` raise, the rest of the signature does not change the outcome |
| Classifier.FailsIffRejected | bolt/app.py:201 | registration fails exactly when some parameter's annotation is not a class, and it fails with the first such parameter's error |
| Classifier.RejectionIgnoresPlaceholders | bolt/app.py:192-204 | whether a parameter is rejected does not depend on the path template |
| Classifier.TablesAreFilters | bolt/app.py:186-213 | for distinct names, the dependency, path and query tables list the parameters of each role in declaration order, and the body is the last Struct parameter |
| Classifier.ParamPlacement | bolt/app.py:191-213 | each parameter lands in the table of its role, with its value, and in no other table |
| Classifier.BodyPlacement | bolt/app.py:201-204 | a second Struct parameter overwrites the first, so the body is the last Struct parameter |
| Classifier.FiltersDistinct | bolt/app.py:186-188 | with distinct parameter names, each table has distinct keys |
| TypeMap.OpenApiType | bolt/openapi.py:2 | int maps to "integer", bool to "boolean", float to "number", and everything else to "string" (`TYPE_MAP.get(t, "string")`) |
| TypeMap.TypeMapKeys | bolt/openapi.py:2 | `TYPE_MAP` has exactly the four scalar types as keys |
| PyStr.Lower | bolt/app.py:241 | `str.lower` keeps the length and lowers each ASCII letter |
| PyStr.ReplaceChar | bolt/app.py:95 | `replace("_", " ")` keeps the length and changes exactly the underscores |
| PyStr.Title | bolt/app.py:95 | `str.title()` on ASCII: a letter after a letter is lowered, every other letter is raised, and anything else is copied |
| PyStr.TitleIdempotent | bolt/app.py:95 | `title()` applied twice is `title()` applied once |
| PyStr.LowerIsTrue | bolt/app.py:241 | `raw.lower() == "true"` holds exactly for the four letters t, r, u, e in any mix of cases |
| Binder.Prepare | bolt/app.py:216-269 | steps 1 to 5 in the code's order (URL values, dependencies, collectors, body), each starting only when the one before raised nothing |
| Binder.Invoke | bolt/app.py:271-283 | the handler is called with the bound arguments; its exception, or an encoder failure on a plain value, is the result; otherwise the wrapped response with the last collector's tasks |
| Binder.Handle | bolt/app.py:216-291 | one request: binding, then the handler call only if binding raised nothing, and in every case the closes of the `finally` block at the end of the trace |
| Binder.Serve | bolt/app.py:137-147 | what the client receives: the endpoint's response, or the registered exception handler's response to the exception that escaped |
| Binder.PathCast | bolt/app.py:226-230 | a missing value is passed as None, so `str` gives "None" and `bool` gives truthiness; a `ValueError` becomes 422 "Invalid path: name"; any other exception propagates |
| Binder.PathFrom | bolt/app.py:226-230 | the path loop binds every entry before the first failing cast, in table order, and then stops with that cast's exception |
| Binder.QueryCast | bolt/app.py:233-245 | an absent value is skipped when the parameter has a default and otherwise gives 400 "Missing query: name"; bool compares `lower()` with "true"; str is the raw text; a `ValueError` gives 422 "Invalid query: name" |
| Binder.QueryFrom | bolt/app.py:233-245 | the query loop binds or skips every entry before the first failing read, and then stops with that read's exception |
| Binder.DepFrom | bolt/app.py:248-256 | the dependency loop binds every dependency before the first one that raises; exactly the async generators among them join the cleanup list, in order |
| Binder.GenNamesIn | bolt/app.py:249-252 | the cleanup list holds exactly the async-generator dependencies |
| Binder.CollectFrom | bolt/app.py:260-263 | every still-unbound parameter annotated BackgroundTasks gets a collector, in signature order; nothing already bound changes |
| Binder.BodyStep | bolt/app.py:266-269 | the Struct parameter gets the decoded body, or the decoder's exception stops binding |
| Binder.Collected | bolt/app.py:260-281 | the collector that reaches the response is the last one injected, since each injection overwrites `background_tasks` |
| Binder.Closes | bolt/app.py:287-291 | the generators are closed newest first, one close each |
| Endpoints.CastPathParams | bolt/app.py:226-230 | the loop computes `PathFrom` |
| Endpoints.ReadQueryParams | bolt/app.py:233-245 | the loop computes `QueryFrom` |
| Endpoints.ResolveDependencies | bolt/app.py:248-256 | the loop computes `DepFrom` |
| Endpoints.InjectCollectors | bolt/app.py:258-263 | the loop computes `CollectFrom`, and the fresh `BackgroundTasks` object exists exactly when a collector was injected |
| Endpoints.ReplayTasks | bolt/app.py:272 | the handler's `add_task` calls append to the collector in order |
| Endpoints.CloseGenerators | bolt/app.py:285-291 | the cleanup loop computes `Closes` |
| Endpoints.BindArguments | bolt/app.py:216-269 | steps 1 to 5 compute `Prepare`, and the collector object exists exactly when one was injected |
| Endpoints.CallHandler | bolt/app.py:271-283 | the call and the response wrap compute `Invoke` |
| Endpoints.RunEndpoint | bolt/app.py:216-291 | the whole endpoint, with its `finally` block, computes `Handle` |
| BinderProps.PrepareOrdered | bolt/app.py:221-269 | bindings happen in phase order: request, path, query, dependencies, collectors, body |
| BinderProps.TraceFollowsTheCode | bolt/app.py:216-291 | the complete trace is in phase order, and the handler call and the closes come after every binding |
| BinderProps.PathFailureStops | bolt/app.py:226-230 | a failed path cast stops binding, with nothing past the path phase bound, no generator opened and no collector injected |
| BinderProps.QueryFailureStops | bolt/app.py:233-245 | a failed query read stops binding before any dependency runs |
| BinderProps.DependencyFailureStops | bolt/app.py:248-256 | a raising dependency stops binding with its exception, before any collector is injected or the body is read |
| BinderProps.UrlCollectsNothing | bolt/app.py:225-245 | no collector is injected before the dependencies are resolved |
| BinderProps.HandlerRunsOnlyWhenBound | bolt/app.py:221-272 | when binding fails, the handler is never called and that exception is the result; otherwise the handler is called once, right after binding, with the bound arguments |
| BinderProps.GeneratorsClosedNewestFirst | bolt/app.py:248-291 | the cleanup list is the async generators among the dependencies the loop reached (up to the first raising producer, none when a URL phase failed), each of which yielded and was bound; when the loop stopped short, binding failed; those generators, and no others, are closed in reverse order of acquisition at the end of the trace, whether binding or the handler failed |
| BinderProps.OnlyGeneratorsClosed | bolt/app.py:249-289 | only async-generator dependencies are ever closed |
| BinderProps.ClosedOnce | bolt/app.py:287-291 | with distinct dependency names, no generator is closed twice |
| BinderProps.CloseErrorsSwallowed | bolt/app.py:288-291 | whether closes raise changes neither the result nor anything else in the trace |
| BinderProps.BindingIgnoresCloses | bolt/app.py:285-291 | binding does not depend on how closes behave |
| BinderProps.BoolQueryNeverFails | bolt/app.py:240-241 | a present bool query value never fails, and it is true exactly for "true" in any case |
| BinderProps.BoolPathIsTruthiness | bolt/app.py:228-241 | the path value "false" casts to true, while the same query value reads as false |
| BinderProps.FailedBindingServed | bolt/app.py:221-283 | a request whose binding raises is answered with the exception handlers' response to that exception, and the handler never runs |
| BinderProps.InvalidPathServed | bolt/app.py:226-230 | a first path value whose cast raises ValueError is answered 422 `{"error": "Invalid path: name"}`, and the handler never runs |
| HandlerProps.PlanNamesDeclared | bolt/app.py:191-213 | every name in a plan table, and the body name, is a parameter of the handler |
| HandlerProps.HandlerGetsDeclaredNames | bolt/app.py:216-272 | the handler is only ever passed keyword arguments it declares |
| HandlerProps.CollectorsAreUnboundBgTasks | bolt/app.py:258-263 | when binding succeeds, the collectors are exactly the BackgroundTasks parameters that no earlier rule claimed, in signature order; this is independent of the request |
| HandlerProps.ResponseWrap | bolt/app.py:271-283 | a returned Response keeps its status and content, and a plain value becomes a 200 JSON response; the last collector's tasks, if any, become the background job; an unencodable value or an exception from the handler becomes the result |
| Responses.Normalize | bolt/app.py:275-281 | `res if isinstance(res, Response) else FastJSONResponse(res)`, with `background` replaced only when the collector has tasks |
| Responses.ErrorResponse | bolt/app.py:137-147 | an `HTTPException` gives its status and `{"error": detail}`; a `ValidationError` gives 422 with an error and a detail; anything else gives 500 `{"error": "Internal Server Error"}` |
| Responses.ServerErrorHidesDetail | bolt/app.py:145-147 | two unexpected exceptions produce the same response, so no detail reaches the client |
| Background.DispatchOf | bolt/background.py:20-24 | a task is awaited exactly when its function is a coroutine function, and otherwise run in a thread |
| Background.BackgroundTasks.constructor | bolt/background.py:6-7 | a new collector has no tasks |
| Background.BackgroundTasks.AddTask | bolt/background.py:9-13 | `add_task` appends (func, args, kwargs) and runs nothing |
| Background.BackgroundTasks.Execute | bolt/background.py:15-24 | the tasks run in insertion order, each dispatched by its kind, up to and including the first that raises; that exception escapes |
| OpenApi.OperationOf | bolt/app.py:94-130 | the operation object: the summary from the handler name, the path then the query parameter objects, the single 200 response, and a required `application/json` request body exactly when a body schema is given |
| OpenApi.AddRoute | bolt/app.py:75-132 | one route in the corrected generator: a skipped route changes nothing; a documented one has its body's components merged and its operation stored under its path and lower-cased method |
| OpenApi.Emit | bolt/app.py:66-134 | the corrected generator: the skeleton with every route folded in, in route order |
| OpenApi.AddRouteAsWritten | bolt/app.py:75-132 | one route as written: a skipped route changes nothing; a documented route without a body stores its operation; for a body route, the unpack and `update` of lines 123-125 run first and their ValueError is the result |
| OpenApi.EmitAsWritten | bolt/app.py:66-134 | `generate_openapi()` as written: the skeleton with the routes folded in, in order, the first exception escaping |
| OpenApi.Parameters | bolt/app.py:101-119 | one parameter object per table entry, in table order, required exactly for path parameters, typed by `TYPE_MAP` |
| OpenApi.EmitHeader | bolt/app.py:68-73 | the document is version "3.0.3" with info (title, "1.0.0"), and every path entry is a valid dict |
| OpenApi.PathsListed | bolt/app.py:75-89 | a path is in the document exactly when some Bolt endpoint route has it and it is not a documentation path |
| OpenApi.MethodsListed | bolt/app.py:92-132 | under a listed path, a method key is present exactly when some documented route has that path and that lower-cased method |
| OpenApi.LastRegistrationWins | bolt/app.py:92-132 | the operation under (path, method) is that of the last documented route registered with them |
| OpenApi.UnpackAndMerge | bolt/app.py:123-125 | unpacking a dict into `(js_schema, components)` and passing a non-empty str to `dict.update` succeeds exactly when the dict has two keys and the second is empty; every failure is a ValueError |
| OpenApi.AsWrittenErrorEscapes | bolt/app.py:75-134 | once a route raises, the exception escapes `generate_openapi` whatever routes follow |
| OpenApi.AsWrittenWithoutBodies | bolt/app.py:75-134 | without a documented body route, the code as written returns exactly the document the corrected generator builds, whatever msgspec returns |
| OpenApi.AsWrittenRaisesOnBody | bolt/app.py:122-125 | with msgspec's schema dict `{"$ref", "$defs"}`, any documented body route makes `update("$defs")` raise ValueError |
| OpenApi.GenerateOpenapiRaisesIffBody | bolt/app.py:66-134 | the code as written returns a document exactly when no documented route takes a body, and that document is the corrected one; otherwise the ValueError becomes a 500 response |
| OpenApi.SchemasListed | bolt/app.py:122-125 | for the corrected generator: a component name is in the shared schema table exactly when some documented route's body brings it |
| OpenApi.LastComponentWins | bolt/app.py:123-125 | for the corrected generator: a component name shared by several routes keeps the value from the last of them |
| OpenApi.OperationShape | bolt/app.py:94-130 | the summary is the handler name with `_` as space in title case; path parameters come before query parameters; there is the single 200 response; for the corrected generator, a required JSON request body appears exactly when the handler takes a Struct |
| OpenApi.SummaryFacts | bolt/app.py:95 | the summary keeps the name's length, has no underscore left and is its own summary |
| Routers.Router.constructor | bolt/router.py:9-11 | a new router keeps its prefix and has no routes |
| Routers.Router.Register | bolt/router.py:28-36 | `_register` appends (prefix + path, method, handler) and returns the handler unchanged; every recorded path starts with the prefix |
| Routers.Router.Get | bolt/router.py:13-14 | records the entry under "GET" |
| Routers.Router.Post | bolt/router.py:16-17 | records the entry under "POST" |
| Routers.Router.Put | bolt/router.py:19-20 | records the entry under "PUT" |
| Routers.Router.Delete | bolt/router.py:22-23 | records the entry under "DELETE" |
| Routers.Router.Patch | bolt/router.py:25-26 | records the entry under "PATCH" |
| Application.FirstRejected | bolt/app.py:169-174 | the index of the first router entry whose handler fails classification; all entries before it classify |
| Application.Bolt.constructor | bolt/app.py:24-38 | a new application keeps its title and has exactly the three documentation GET routes |
| Application.Bolt.Decorate | bolt/app.py:176-304 | a classification error leaves the routes unchanged and is raised; otherwise the endpoint route with its plan is appended and the handler is returned |
| Application.Bolt.Get | bolt/app.py:150-151 | decorates with "GET" |
| Application.Bolt.Post | bolt/app.py:153-154 | decorates with "POST" |
| Application.Bolt.Put | bolt/app.py:156-157 | decorates with "PUT" |
| Application.Bolt.Delete | bolt/app.py:159-160 | decorates with "DELETE" |
| Application.Bolt.Patch | bolt/app.py:162-163 | decorates with "PATCH" |
| Application.Bolt.IncludeRouter | bolt/app.py:165-174 | the router's entries are registered in order; the first that fails classification raises, and the entries before it stay registered |
| Application.Bolt.GenerateOpenapi | bolt/app.py:66-134 | the loop over the routes computes `EmitAsWritten`, raising at the first documented body route; with msgspec's schema dict it raises exactly when some documented route takes a body; the application is not changed |
| Application.DescribeOperation | bolt/app.py:94-119 | the two parameter loops build the operation's summary, parameters and response, before any request body |
| Application.SkippedPrefix | bolt/app.py:75-85 | routes that are skipped (non-Bolt endpoints, documentation paths) contribute nothing to the document |
| Application.FreshAppDocumentsNothing | bolt/app.py:75-79 | the documentation routes registered by the constructor never appear in the document, and the code as written returns the empty document for a new application |
| Application.IncludedRoutesDocumented | bolt/app.py:165-174 | every included router entry appears in the document under its full path and method, unless it is a documentation path |

## Left out

- Starlette itself is not modelled. This covers routing and matching, the
  ASGI server, the middleware stack, `add_route` internals and the
  `enable_cors` middleware. The route list is a `seq` the application
  appends to.
- The order of `route.methods` is not modelled. Starlette's `Route` adds
  "HEAD" to every route registered with "GET", so a GET route's set is
  {"GET", "HEAD"}, and `list(route.methods)[0]` (bolt/app.py:92) is
  whichever of the two string hashing puts first. The model always takes
  the method the route was registered with, so it does not capture a GET
  operation documented under "head".
- `inspect.signature` and `get_type_hints` are replaced by an explicit
  parameter list. `issubclass` on a non-class annotation (such as
  `Optional[int]`) is modelled as the `NotAClass` annotation, which raises
  at registration. One annotation field stands for both the resolved hint
  (bolt/app.py:201-212) and `param.annotation` (bolt/app.py:261), so the
  model does not capture string annotations (`from __future__ import
  annotations`), under which the collector scan compares a string with
  the `BackgroundTasks` class and injects nothing.
- The handler, the dependency producers, `int()` and `float()`, and the
  msgspec decoder and encoder are abstract: they are parameters of the
  model and may return a value or raise any exception. `str()` and
  `bool()` on a path value are concrete.
- `msgspec.json.schema(T)` returns one dict; for a Struct it is
  `{"$ref": "#/$defs/T", "$defs": {...}}`. The code unpacks that dict, so
  only its keys matter, and the model takes the key list per body type as
  a parameter (`OpenApi.SchemaKeys`, with msgspec's `MsgspecSchemaKeys`).
  The corrected generator instead takes the (schema, components) pair that
  `msgspec.json.schema_components` returns, as a parameter
  (`OpenApi.SchemaGen`). JSON-schema contents are opaque identifiers.
- SchemasListed: states the components merge of the corrected generator
  only. As written, bolt/app.py:125 raises before any merge, so the code
  never lists a component schema (see Findings).
- LastComponentWins: states the later-component-wins merge of the
  corrected generator only; as written, bolt/app.py:125 raises at the
  first body route (see Findings).
- OperationShape: its request-body clause describes the corrected
  generator; as written, the operation of a body route is never completed
  because bolt/app.py:125 raises first. Its other clauses hold for both.
- Async scheduling is not modelled: `await`, `asyncio.to_thread` and
  concurrency between requests. Cancellation is not modelled either: the
  `except Exception` around each close (bolt/app.py:290) does not catch a
  `BaseException` such as `asyncio.CancelledError`, which would escape the
  `finally` and skip the remaining closes; `Exc` has no such kind, so
  `Closes` and `BinderProps.CloseErrorsSwallowed` assume every close error
  is an `Exception`. Background task dispatch is recorded as
  awaited or threaded. When tasks run relative to sending the response is
  Starlette's business.
- `traceback.print_exc()` and the HTML pages of `/docs` and `/redoc`
  (`get_swagger_ui_html`, `get_redoc_html`) are output only; their routes
  are modelled as plain endpoints.
- `bolt/response.py` (`FastJSONResponse`) is not part of this model
  beyond "a JSON response with status 200". Neither is `bolt/__init__.py`.
  `bolt/di.py` (`Depends`) is not part of this model beyond the
  dependency's kind.
- `str.lower` and `str.title` are modelled on ASCII letters only.
  Unicode case mapping is left out.
- A repeated query key (`?a=1&a=2`) is not modelled; the query is a map
  with one value per name.
- The default title "Bolt API" and the router's default prefix "" are
  Python default arguments. The model takes the title and the prefix as
  explicit arguments.

## Behaviour of the code worth knowing

The model follows the code in each case:

- **Query parameters are never marked required.** The code always writes
  `"required": False` for a query parameter (bolt/app.py:116), even when
  a missing value gives 400. `OpenApi.OperationShape` states this.
- **Placeholders are not checked.** Registration compares nothing between
  the template's placeholders and the handler's parameters
  (bolt/app.py:176-213). A placeholder no parameter names is simply absent
  from the plan (`Classifier.RejectionIgnoresPlaceholders`).
- **A second Struct parameter replaces the first.** The body slot is a
  plain assignment (bolt/app.py:202-203), so the last Struct parameter is
  the body (`Classifier.BodyPlacement`).
- **A `bool` path parameter is truthiness.** `bool(raw)` on a path value
  (bolt/app.py:228) gives true for any non-empty text, "false" included
  (`BinderProps.BoolPathIsTruthiness`).
- **A malformed JSON body gives 500.** msgspec raises `DecodeError` for
  malformed JSON, and `DecodeError` is not a `ValidationError`, so only
  the `Exception` handler (bolt/app.py:145-147) matches it. The decoder is
  abstract in the model, and `Responses.ErrorResponse` states which status
  each exception kind gets.
- **Only the last collector gets tasks.** When a handler declares two
  BackgroundTasks parameters, each gets a collector, but the variable
  reassigned at bolt/app.py:262 keeps only the last one, and only its
  tasks are attached to the response (`Binder.Collected`).

## Findings

| source | as written | input that shows it | evidently intended | confidence | as-written member | corrected member |
|---|---|---|---|---|---|---|
| bolt/app.py:123-125 | `(js_schema, components) = msgspec.json.schema(T)` unpacks the single dict msgspec returns, so the names receive its keys "$ref" and "$defs"; `update("$defs")` then raises ValueError, and `/openapi.json` answers 500 | any application with a documented route whose handler takes a `msgspec.Struct`, such as `@app.post("/items")` on `def create(item: Item)` | the body's schema under `requestBody` and its component schemas merged into `components.schemas`, from the pair `msgspec.json.schema_components` returns | high; not executed | OpenApi.GenerateOpenapiRaisesIffBody | OpenApi.SchemasListed |
