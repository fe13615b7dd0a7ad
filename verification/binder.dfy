/**
 * The request-time half of a compiled route: the `endpoint` closure of
 * bolt/app.py (lines 216-291), stated as functions of the plan, the request
 * and the behaviour of the code the closure calls. The binder fills
 * `kwargs` in a fixed order (the Request, path casts, query casts,
 * dependencies, background collectors, the decoded body), calls the
 * handler, wraps what it returns, and in every outcome closes the
 * async-generator dependencies it advanced, newest first.
 */
module Binder {
  import opened Wrappers
  import opened OrderedDict
  import opened Runtime
  import opened Background
  import opened Responses
  import opened Signature
  import opened PyStr

  /** What a keyword argument holds: the Request, a computed value, or a new collector. */
  datatype Arg = RequestArg | Val(v: Value) | CollectorArg

  /** The numbered steps of the endpoint that bind arguments. */
  datatype Stage = RequestStage | PathStage | QueryStage | DependencyStage | CollectorStage | BodyStage

  /** What the endpoint did, in the order it did it. */
  datatype Event =
    | Bound(name: string, stage: Stage)
    | Defaulted(name: string)                  // absent query value, left to the handler's default
    | HandlerCalled(kwargs: map<string, Arg>)
    | Closed(name: string, raised: bool)       // `aclose()` of a generator dependency; `raised` is swallowed

  function StageRank(s: Stage): nat {
    match s
    case RequestStage => 0
    case PathStage => 1
    case QueryStage => 2
    case DependencyStage => 3
    case CollectorStage => 4
    case BodyStage => 5
  }

  /** Position of an event's step in the endpoint's code. */
  function Rank(e: Event): nat {
    match e
    case Bound(_, s) => StageRank(s)
    case Defaulted(_) => StageRank(QueryStage)
    case HandlerCalled(_) => 6
    case Closed(_, _) => 7
  }

  /** The parts of a Starlette Request the endpoint reads. */
  datatype Request = Request(path: map<string, string>, query: map<string, string>, body: seq<bv8>)

  /**
   * A handler call either raises or returns; `added` holds, per collector
   * parameter, the tasks the handler passed to that collector's `add_task`.
   */
  datatype HandlerOutcome = Returned(ret: Ret, added: map<string, seq<Task>>) | HandlerRaised(e: Exc)

  /** A type's constructor applied to a raw value (`int(raw)`, a custom class). */
  type Caster = (Annotation, Option<string>) -> Attempt

  /**
   * The code the endpoint calls but that is not part of the core: casters
   * other than `str`, `bool` and BackgroundTasks, the dependency producers
   * (for generators, the first `__anext__`), msgspec's decoder and encoder,
   * the handler, and whether a generator's `aclose()` raises.
   */
  datatype Env = Env(
    cast: Caster,
    produce: (string, Dep) -> Attempt,
    decode: (nat, seq<bv8>) -> Attempt,
    call: (Func, map<string, Arg>) -> HandlerOutcome,
    encodeFails: Value -> bool,
    closeRaises: string -> bool)

  /**
   * The endpoint's locals: `kwargs`, `cleanup_generators` (by dependency
   * name), the names bound to new collectors (the last one is
   * `background_tasks`), the log, and the exception that is propagating.
   */
  datatype St = St(kwargs: map<string, Arg>, cleanup: seq<string>, collectors: seq<string>, trace: seq<Event>, failure: Option<Exc>)

  /** The endpoint's response or escaping exception, with everything it did. */
  datatype Served = Served(result: Result<Response, Exc>, trace: seq<Event>)

  /** The binding events of `items`' names at one stage, in order. */
  function Stamp<V>(items: seq<(string, V)>, stage: Stage): seq<Event> {
    if items == [] then [] else [Bound(items[0].0, stage)] + Stamp(items[1..], stage)
  }

  lemma {:induction false} StampAt<V>(items: seq<(string, V)>, stage: Stage)
    ensures |Stamp(items, stage)| == |items|
    ensures forall k :: 0 <= k < |items| ==> Stamp(items, stage)[k] == Bound(items[k].0, stage)
  {
    if items != [] {
      StampAt(items[1..], stage);
    }
  }

  /** The names `items` bind. */
  function Names<V>(items: seq<(string, V)>): set<string> {
    if items == [] then {} else {items[0].0} + Names(items[1..])
  }

  lemma {:induction false} NamesIn<V>(items: seq<(string, V)>)
    ensures forall n :: n in Names(items) <==> exists k :: 0 <= k < |items| && items[k].0 == n
  {
    if items != [] {
      NamesIn(items[1..]);
      assert forall k :: 0 <= k < |items[1..]| ==> items[1..][k] == items[k + 1];
    }
  }

  /** A non-empty slice starts with its first entry, then the rest of the slice. */
  lemma SliceCons<V>(items: seq<(string, V)>, i: nat, m: nat, stage: Stage)
    requires i < m <= |items|
    ensures items[i..m][1..] == items[i + 1..m]
    ensures Stamp(items[i..m], stage) == [Bound(items[i].0, stage)] + Stamp(items[i + 1..m], stage)
    ensures Names(items[i..m]) == {items[i].0} + Names(items[i + 1..m])
  {
    assert items[i..m][1..] == items[i + 1..m];
  }

  function Bind(st: St, name: string, a: Arg, stage: Stage): St {
    st.(kwargs := st.kwargs[name := a], trace := st.trace + [Bound(name, stage)])
  }

  /** Lines 222-223: the Request is passed when the handler declares a parameter named "request". */
  function Start(params: seq<Param>): St {
    var empty := St(map[], [], [], [], None);
    if Declares(params, "request") then Bind(empty, "request", RequestArg, RequestStage) else empty
  }

  // ---- 1. Path parameters (lines 226-230) ----

  /** `caster(request.path_params.get(name))`, with a ValueError turned into a 422. */
  function PathCast(name: string, caster: Annotation, path: map<string, string>, cast: Caster): (r: Attempt)
    ensures caster == Str ==> r == Done(Text(if name in path then path[name] else "None"))
    ensures caster == Bool ==> r == Done(Flag(name in path && path[name] != ""))
    ensures caster == BgTasks ==> r.Raise? && r.e.OtherExc?
    ensures caster != Str && caster != Bool && caster != BgTasks ==>
      var c := cast(caster, if name in path then Some(path[name]) else None);
      && (c.Done? ==> r == c)
      && (c.Raise? && c.e.ValueErrorExc? ==> r == Raise(HttpExc(422, "Invalid path: " + name)))
      && (c.Raise? && !c.e.ValueErrorExc? ==> r == c)
  {
    var raw := if name in path then Some(path[name]) else None;
    match caster
    case Str => Done(Text(if raw.Some? then raw.value else "None"))
    case Bool => Done(Flag(raw.Some? && |raw.value| > 0))
    case BgTasks => Raise(OtherExc("TypeError: BackgroundTasks() takes no arguments"))
    case _ =>
      match cast(caster, raw)
      case Raise(ValueErrorExc(_)) => Raise(HttpExc(422, "Invalid path: " + name))
      case c => c
  }

  /** Index of the first entry from `from` on whose attempt raises, or `|items|`. */
  function FirstFailure<V>(items: seq<(string, V)>, attempt: (string, V) -> Attempt, from: nat): (k: nat)
    requires from <= |items|
    ensures from <= k <= |items|
    ensures forall j :: from <= j < k ==> attempt(items[j].0, items[j].1).Done?
    ensures k < |items| ==> attempt(items[k].0, items[k].1).Raise?
    decreases |items| - from
  {
    if from == |items| || attempt(items[from].0, items[from].1).Raise? then from
    else FirstFailure(items, attempt, from + 1)
  }

  /**
   * The path loop from entry `i` on, `attempt` being the cast of each entry:
   * every entry before the first failing one binds its name.
   */
  function PathFrom(items: seq<(string, Annotation)>, attempt: (string, Annotation) -> Attempt, st: St, i: nat): (r: St)
    requires i <= |items| && st.failure.None?
    ensures var m := FirstFailure(items, attempt, i);
      && r.trace == st.trace + Stamp(items[i..m], PathStage)
      && r.failure == (if m < |items| then Some(attempt(items[m].0, items[m].1).e) else None)
      && r.kwargs.Keys == st.kwargs.Keys + Names(items[i..m])
      && r.cleanup == st.cleanup && r.collectors == st.collectors
    decreases |items| - i
  {
    if i == |items| then st
    else
      var name := items[i].0;
      var c := attempt(name, items[i].1);
      if c.Raise? then
        assert FirstFailure(items, attempt, i) == i;
        st.(failure := Some(c.e))
      else
        var m := FirstFailure(items, attempt, i);
        assert m == FirstFailure(items, attempt, i + 1);
        var r := PathFrom(items, attempt, Bind(st, name, Val(c.v), PathStage), i + 1);
        SliceCons(items, i, m, PathStage);
        r
  }

  // ---- 2. Query parameters (lines 233-245) ----

  datatype QueryRead = QBound(v: Value) | QDefaulted | QFailed(e: Exc)

  /**
   * One query parameter: an absent value is left to the default if there is
   * one and is a 400 otherwise; `bool` compares the lower-cased text with
   * "true"; `str` keeps the text; any other caster's ValueError is a 422.
   */
  function QueryCast(params: seq<Param>, name: string, caster: Annotation, query: map<string, string>, cast: Caster): (r: QueryRead)
    ensures name !in query ==> (r == QDefaulted <==> HasDefaultValue(params, name))
    ensures name !in query && !HasDefaultValue(params, name) ==> r == QFailed(HttpExc(400, "Missing query: " + name))
    ensures name in query && caster == Bool ==> r == QBound(Flag(Lower(query[name]) == "true"))
    ensures name in query && caster == Str ==> r == QBound(Text(query[name]))
    ensures name in query && caster != Bool && caster != Str ==>
      var c := cast(caster, Some(query[name]));
      && (c.Done? ==> r == QBound(c.v))
      && (c.Raise? && c.e.ValueErrorExc? ==> r == QFailed(HttpExc(422, "Invalid query: " + name)))
      && (c.Raise? && !c.e.ValueErrorExc? ==> r == QFailed(c.e))
  {
    if name !in query then
      if HasDefaultValue(params, name) then QDefaulted else QFailed(HttpExc(400, "Missing query: " + name))
    else
      var raw := query[name];
      if caster == Bool then QBound(Flag(Lower(raw) == "true"))
      else if caster == Str then QBound(Text(raw))
      else match cast(caster, Some(raw))
        case Done(v) => QBound(v)
        case Raise(ValueErrorExc(_)) => QFailed(HttpExc(422, "Invalid query: " + name))
        case Raise(e) => QFailed(e)
  }

  function QueryEvent(name: string, q: QueryRead): Event {
    if q.QBound? then Bound(name, QueryStage) else Defaulted(name)
  }

  function FirstQueryFailure(items: seq<(string, Annotation)>, read: (string, Annotation) -> QueryRead, from: nat): (k: nat)
    requires from <= |items|
    ensures from <= k <= |items|
    ensures forall j :: from <= j < k ==> !read(items[j].0, items[j].1).QFailed?
    ensures k < |items| ==> read(items[k].0, items[k].1).QFailed?
    decreases |items| - from
  {
    if from == |items| || read(items[from].0, items[from].1).QFailed? then from
    else FirstQueryFailure(items, read, from + 1)
  }

  /** The events reading `items` logs, one per entry. */
  function QueryEvents(items: seq<(string, Annotation)>, read: (string, Annotation) -> QueryRead): seq<Event> {
    if items == [] then []
    else [QueryEvent(items[0].0, read(items[0].0, items[0].1))] + QueryEvents(items[1..], read)
  }

  lemma {:induction false} QueryEventsAt(items: seq<(string, Annotation)>, read: (string, Annotation) -> QueryRead)
    ensures |QueryEvents(items, read)| == |items|
    ensures forall k :: 0 <= k < |items| ==> QueryEvents(items, read)[k] == QueryEvent(items[k].0, read(items[k].0, items[k].1))
  {
    if items != [] {
      QueryEventsAt(items[1..], read);
    }
  }

  /** The names among `items` whose value was present (and cast). */
  function QueryNames(items: seq<(string, Annotation)>, read: (string, Annotation) -> QueryRead): set<string> {
    if items == [] then {}
    else (if read(items[0].0, items[0].1).QBound? then {items[0].0} else {}) + QueryNames(items[1..], read)
  }

  lemma {:induction false} QueryNamesIn(items: seq<(string, Annotation)>, read: (string, Annotation) -> QueryRead)
    ensures forall n :: n in QueryNames(items, read) <==>
      exists k :: 0 <= k < |items| && items[k].0 == n && read(items[k].0, items[k].1).QBound?
  {
    if items != [] {
      QueryNamesIn(items[1..], read);
      assert forall k :: 0 <= k < |items[1..]| ==> items[1..][k] == items[k + 1];
    }
  }

  /**
   * The query loop from entry `i` on, `read` being the read of each entry:
   * each entry before the first failing one is bound or left to its default.
   */
  function QueryFrom(items: seq<(string, Annotation)>, read: (string, Annotation) -> QueryRead, st: St, i: nat): (r: St)
    requires i <= |items| && st.failure.None?
    ensures var m := FirstQueryFailure(items, read, i);
      && r.trace == st.trace + QueryEvents(items[i..m], read)
      && r.failure == (if m < |items| then Some(read(items[m].0, items[m].1).e) else None)
      && r.kwargs.Keys == st.kwargs.Keys + QueryNames(items[i..m], read)
      && r.cleanup == st.cleanup && r.collectors == st.collectors
    decreases |items| - i
  {
    if i == |items| then st
    else
      var name := items[i].0;
      var q := read(name, items[i].1);
      if q.QFailed? then
        assert FirstQueryFailure(items, read, i) == i;
        st.(failure := Some(q.e))
      else
        var m := FirstQueryFailure(items, read, i);
        assert m == FirstQueryFailure(items, read, i + 1);
        var next := if q.QBound? then Bind(st, name, Val(q.v), QueryStage) else st.(trace := st.trace + [Defaulted(name)]);
        var r := QueryFrom(items, read, next, i + 1);
        assert items[i..m][1..] == items[i + 1..m];
        assert r.trace == st.trace + QueryEvents(items[i..m], read) by {
          assert QueryEvents(items[i..m], read) == [QueryEvent(name, q)] + QueryEvents(items[i + 1..m], read);
        }
        assert QueryNames(items[i..m], read) == (if q.QBound? then {name} else {}) + QueryNames(items[i + 1..m], read);
        r
  }

  // ---- 3. Dependencies (lines 248-256) ----

  /** Names of the async-generator dependencies among `items`, in order. */
  function GenNames(items: seq<(string, Dep)>): seq<string> {
    if items == [] then []
    else (if items[0].1.kind == AsyncGen then [items[0].0] else []) + GenNames(items[1..])
  }

  lemma {:induction false} GenNamesIn(items: seq<(string, Dep)>)
    ensures |GenNames(items)| <= |items|
    ensures forall n :: n in GenNames(items) <==> exists k :: 0 <= k < |items| && items[k].0 == n && items[k].1.kind == AsyncGen
  {
    if items != [] {
      GenNamesIn(items[1..]);
      assert forall k :: 0 <= k < |items[1..]| ==> items[1..][k] == items[k + 1];
    }
  }

  /** The dependency loop from entry `i` on; generators that yielded join the cleanup list. */
  function DepFrom(items: seq<(string, Dep)>, produce: (string, Dep) -> Attempt, st: St, i: nat): (r: St)
    requires i <= |items| && st.failure.None?
    ensures var m := FirstFailure(items, produce, i);
      && r.trace == st.trace + Stamp(items[i..m], DependencyStage)
      && r.cleanup == st.cleanup + GenNames(items[i..m])
      && r.failure == (if m < |items| then Some(produce(items[m].0, items[m].1).e) else None)
      && r.kwargs.Keys == st.kwargs.Keys + Names(items[i..m])
      && r.collectors == st.collectors
    decreases |items| - i
  {
    if i == |items| then st
    else
      var name := items[i].0;
      var dep := items[i].1;
      var c := produce(name, dep);
      if c.Raise? then
        assert FirstFailure(items, produce, i) == i;
        st.(failure := Some(c.e))
      else
        var bound := Bind(st, name, Val(c.v), DependencyStage);
        var next := if dep.kind == AsyncGen then bound.(cleanup := bound.cleanup + [name]) else bound;
        var r := DepFrom(items, produce, next, i + 1);
        DepStep(items, produce, st, i, next, r);
        r
  }

  /** One dependency that yields a value: the loop's result from the next entry on is its result from this one. */
  lemma DepStep(items: seq<(string, Dep)>, produce: (string, Dep) -> Attempt, st: St, i: nat, next: St, r: St)
    requires i < |items| && st.failure.None?
    requires produce(items[i].0, items[i].1).Done?
    requires next.kwargs.Keys == st.kwargs.Keys + {items[i].0}
    requires next.trace == st.trace + [Bound(items[i].0, DependencyStage)]
    requires next.cleanup == st.cleanup + (if items[i].1.kind == AsyncGen then [items[i].0] else [])
    requires next.collectors == st.collectors
    requires var m := FirstFailure(items, produce, i + 1);
      && r.trace == next.trace + Stamp(items[i + 1..m], DependencyStage)
      && r.cleanup == next.cleanup + GenNames(items[i + 1..m])
      && r.failure == (if m < |items| then Some(produce(items[m].0, items[m].1).e) else None)
      && r.kwargs.Keys == next.kwargs.Keys + Names(items[i + 1..m])
      && r.collectors == next.collectors
    ensures var m := FirstFailure(items, produce, i);
      && r.trace == st.trace + Stamp(items[i..m], DependencyStage)
      && r.cleanup == st.cleanup + GenNames(items[i..m])
      && r.failure == (if m < |items| then Some(produce(items[m].0, items[m].1).e) else None)
      && r.kwargs.Keys == st.kwargs.Keys + Names(items[i..m])
      && r.collectors == st.collectors
  {
    var m := FirstFailure(items, produce, i);
    assert m == FirstFailure(items, produce, i + 1);
    SliceCons(items, i, m, DependencyStage);
    assert GenNames(items[i..m]) == (if items[i].1.kind == AsyncGen then [items[i].0] else []) + GenNames(items[i + 1..m]);
  }

  // ---- 4. Background collectors (lines 260-263) ----

  predicate Collects(p: Param, bound: set<string>) {
    p.name !in bound && p.annotation == Some(BgTasks)
  }

  /**
   * The scan of `params` for collectors when `bound` names are already in
   * `kwargs`: each one found is bound at once, so it counts as bound for the
   * rest of the scan.
   */
  function CollectorScan(params: seq<Param>, bound: set<string>): seq<string> {
    if params == [] then []
    else if Collects(params[0], bound) then [params[0].name] + CollectorScan(params[1..], bound + {params[0].name})
    else CollectorScan(params[1..], bound)
  }

  /** The binding events of collector names, in order. */
  function CollectorEvents(names: seq<string>): seq<Event> {
    if names == [] then [] else [Bound(names[0], CollectorStage)] + CollectorEvents(names[1..])
  }

  /**
   * The collector scan from parameter `i` on: each parameter annotated
   * BackgroundTasks whose name is not yet in `kwargs` gets a new collector;
   * nothing already bound changes.
   */
  function CollectFrom(params: seq<Param>, st: St, i: nat): (r: St)
    requires i <= |params| && st.failure.None?
    ensures var found := CollectorScan(params[i..], st.kwargs.Keys);
      && r.collectors == st.collectors + found
      && r.trace == st.trace + CollectorEvents(found)
      && (forall n :: n in r.kwargs <==> n in st.kwargs || n in found)
      && (forall n :: n in st.kwargs ==> n in r.kwargs && r.kwargs[n] == st.kwargs[n])
      && (forall n :: n in found ==> n in r.kwargs && r.kwargs[n] == CollectorArg)
      && r.failure.None? && r.cleanup == st.cleanup
    decreases |params| - i
  {
    if i == |params| then st
    else
      var p := params[i];
      assert params[i..][1..] == params[i + 1..];
      if Collects(p, st.kwargs.Keys) then
        var next := Bind(st, p.name, CollectorArg, CollectorStage).(collectors := st.collectors + [p.name]);
        assert next.kwargs.Keys == st.kwargs.Keys + {p.name};
        var r := CollectFrom(params, next, i + 1);
        var found := CollectorScan(params[i..], st.kwargs.Keys);
        assert found == [p.name] + CollectorScan(params[i + 1..], next.kwargs.Keys);
        r
      else CollectFrom(params, st, i + 1)
  }

  // ---- 5. Body (lines 266-269) ----

  /** The Struct parameter gets the request body decoded to its type; a decode error propagates. */
  function BodyStep(body: Option<(string, nat)>, raw: seq<bv8>, decode: (nat, seq<bv8>) -> Attempt, st: St): (r: St)
    requires st.failure.None?
    ensures r.cleanup == st.cleanup && r.collectors == st.collectors
    ensures body.None? ==> r == st
    ensures body.Some? && decode(body.value.1, raw).Raise? ==>
      r.failure == Some(decode(body.value.1, raw).e) && r.trace == st.trace
    ensures body.Some? && decode(body.value.1, raw).Done? ==>
      r.failure.None? && r.trace == st.trace + [Bound(body.value.0, BodyStage)]
      && r.kwargs == st.kwargs[body.value.0 := Val(decode(body.value.1, raw).v)]
  {
    match body
    case None => st
    case Some((name, id)) =>
      match decode(id, raw)
      case Raise(e) => st.(failure := Some(e))
      case Done(v) => Bind(st, name, Val(v), BodyStage)
  }

  /** Steps 1-2: the values taken from the URL, path parameters first; the first exception skips the rest. */
  function BindUrl(plan: Plan, req: Request, env: Env): St {
    var s1 := PathFrom(plan.pathParams.items, PathCaster(req.path, env.cast), Start(plan.func.params), 0);
    if s1.failure.Some? then s1 else
    QueryFrom(plan.queryParams.items, QueryReader(plan.func.params, req.query, env.cast), s1, 0)
  }

  /** Steps 3-5 after the URL values are bound: dependencies, collectors, then the body. */
  function BindRest(plan: Plan, req: Request, env: Env, s2: St): St
    requires s2.failure.None?
  {
    var s3 := DepFrom(plan.deps.items, env.produce, s2, 0);
    if s3.failure.Some? then s3 else
    var s4 := CollectFrom(plan.func.params, s3, 0);
    BodyStep(plan.body, req.body, env.decode, s4)
  }

  /** Steps 1-5 in order; the first exception skips the rest. */
  function Prepare(plan: Plan, req: Request, env: Env): St {
    var s2 := BindUrl(plan, req, env);
    if s2.failure.Some? then s2 else BindRest(plan, req, env, s2)
  }

  function PathCaster(path: map<string, string>, cast: Caster): (string, Annotation) -> Attempt {
    (name: string, caster: Annotation) => PathCast(name, caster, path, cast)
  }

  function QueryReader(params: seq<Param>, query: map<string, string>, cast: Caster): (string, Annotation) -> QueryRead {
    (name: string, caster: Annotation) => QueryCast(params, name, caster, query, cast)
  }

  // ---- 6-7. Handler call, response wrap, background (lines 272-283) ----

  /** The task list of `background_tasks`, the collector bound last, if any was injected. */
  function Collected(collectors: seq<string>, added: map<string, seq<Task>>): (r: Option<seq<Task>>)
    ensures r.None? <==> collectors == []
    ensures r.Some? ==> var last := collectors[|collectors| - 1];
      r.value == (if last in added then added[last] else [])
  {
    if collectors == [] then None
    else
      var last := collectors[|collectors| - 1];
      Some(if last in added then added[last] else [])
  }

  /** The handler's outcome once `kwargs` is complete; wrapping a plain value encodes it. */
  function Invoke(plan: Plan, env: Env, st: St): Result<Response, Exc> {
    match env.call(plan.func, st.kwargs)
    case HandlerRaised(e) => Err(e)
    case Returned(ret, added) =>
      if ret.Plain? && env.encodeFails(ret.v) then Err(OtherExc("TypeError: unsupported type"))
      else Ok(Normalize(ret, Collected(st.collectors, added)))
  }

  // ---- 8. Cleanup (lines 285-291) ----

  /** `for gen in reversed(cleanup_generators): aclose()`, each close's error swallowed. */
  function Closes(names: seq<string>, raises: string -> bool): (r: seq<Event>)
    ensures |r| == |names|
    ensures forall k :: 0 <= k < |r| ==> r[k] == Closed(names[|names| - 1 - k], raises(names[|names| - 1 - k]))
  {
    if names == [] then []
    else Closes(names[1..], raises) + [Closed(names[0], raises(names[0]))]
  }

  /** One request through the endpoint: what escapes it, and everything it did. */
  function Handle(plan: Plan, req: Request, env: Env): Served {
    var s := Prepare(plan, req, env);
    var called := if s.failure.Some? then s.trace else s.trace + [HandlerCalled(s.kwargs)];
    var result := if s.failure.Some? then Err(s.failure.value) else Invoke(plan, env, s);
    Served(result, called + Closes(s.cleanup, env.closeRaises))
  }

  /** What the client receives: the endpoint's response, or the exception handlers' answer to what escaped. */
  function Serve(plan: Plan, req: Request, env: Env): Response {
    match Handle(plan, req, env).result
    case Ok(r) => r
    case Err(e) => ErrorResponse(e)
  }
}
