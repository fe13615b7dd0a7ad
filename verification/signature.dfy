/**
 * Handler signatures and the binding plan compiled from them (bolt/app.py,
 * lines 176-213 and 294-299). A signature is the explicit parameter list that
 * `inspect.signature` and `get_type_hints` would report.
 */
module Signature {
  import opened Wrappers
  import opened OrderedDict

  /**
   * A parameter's type hint. `Struct` is a msgspec.Struct subclass, `BgTasks`
   * is BackgroundTasks, `Other` any other class, and `NotAClass` a hint that
   * `issubclass` refuses (a typing construct such as `Optional[int]`).
   */
  datatype Annotation = Int | Str | Bool | Float | Struct(id: nat) | BgTasks | Other(id: nat) | NotAClass(id: nat)

  /** What `inspect.isasyncgenfunction` / `iscoroutinefunction` report for a producer. */
  datatype DepKind = Sync | Async | AsyncGen

  /** The producer carried by a `Depends(...)` marker. */
  datatype Dep = Dep(producer: nat, kind: DepKind)

  datatype Default = NoDefault | HasDefault | Depends(dep: Dep)

  /** `annotation` is None when the parameter has no type hint. */
  datatype Param = Param(name: string, annotation: Option<Annotation>, default: Default)

  /** A handler function: its `__name__`, its parameters in declaration order, its identity. */
  datatype Func = Func(name: string, params: seq<Param>, id: nat)

  predicate IsScalar(a: Annotation) {
    a == Int || a == Str || a == Bool || a == Float
  }

  /** Python signatures never repeat a parameter name. */
  ghost predicate DistinctNames(params: seq<Param>) {
    forall i, j :: 0 <= i < j < |params| ==> params[i].name != params[j].name
  }

  /** `name in sig.parameters` */
  predicate Declares(params: seq<Param>, name: string) {
    exists i :: 0 <= i < |params| && params[i].name == name
  }

  /** `sig.parameters[name].default != inspect.Parameter.empty` (the first parameter of that name). */
  function HasDefaultValue(params: seq<Param>, name: string): (r: bool)
    ensures r ==> Declares(params, name)
    ensures DistinctNames(params) ==>
      forall i :: 0 <= i < |params| && params[i].name == name ==> (r <==> !params[i].default.NoDefault?)
  {
    if params == [] then false
    else if params[0].name == name then !params[0].default.NoDefault?
    else
      var r := HasDefaultValue(params[1..], name);
      assert r ==> Declares(params, name) by {
        if r { var i :| 0 <= i < |params[1..]| && params[1..][i].name == name; assert params[i + 1].name == name; }
      }
      r
  }

  /**
   * The plan `wrapper` builds: the dependency, path and query tables (dicts
   * in insertion order) and the body parameter; the handler itself is kept
   * because the request-time code reads its signature again.
   */
  datatype Plan = Plan(
    func: Func,
    deps: Dict<string, Dep>,
    pathParams: Dict<string, Annotation>,
    queryParams: Dict<string, Annotation>,
    body: Option<(string, nat)>)

  /** The `_bolt_meta` record attached to the endpoint (lines 294-299). */
  datatype Meta = Meta(name: string, pathParams: Dict<string, Annotation>, queryParams: Dict<string, Annotation>, bodyType: Option<nat>)

  function MetaOf(plan: Plan): (m: Meta)
    ensures m.name == plan.func.name && m.pathParams == plan.pathParams && m.queryParams == plan.queryParams
    ensures m.bodyType.Some? <==> plan.body.Some?
    ensures plan.body.Some? ==> m.bodyType.value == plan.body.value.1
  {
    Meta(plan.func.name, plan.pathParams, plan.queryParams,
         match plan.body case None => None case Some(b) => Some(b.1))
  }

  /** The endpoint a Starlette route calls: one compiled by Bolt, or a plain one without metadata. */
  datatype Endpoint = BoltEndpoint(plan: Plan) | PlainEndpoint(id: nat)

  /** An entry of the application's route list; `OtherEntry` is a mount or any non-`Route` entry. */
  datatype RouteEntry = HttpRoute(path: string, httpMethod: string, endpoint: Endpoint) | OtherEntry(id: nat)
}
