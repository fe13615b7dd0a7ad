/**
 * The `endpoint` closure of bolt/app.py (lines 216-291) as the step-by-step
 * code it is: loops that fill `kwargs` and `cleanup_generators`, the
 * collector objects it creates, and the reversed cleanup loop of its
 * `finally`. Each piece is proved to compute the corresponding function of
 * the Binder module, so the whole run is `Binder.Handle`.
 */
module Endpoints {
  import opened Wrappers
  import opened Runtime
  import opened Background
  import opened Responses
  import opened Signature
  import opened Binder

  /** Step 1 (lines 226-230): cast each path parameter in table order; the first failure propagates. */
  method CastPathParams(items: seq<(string, Annotation)>, req: Request, env: Env, st: St) returns (r: St)
    requires st.failure.None?
    ensures r == PathFrom(items, PathCaster(req.path, env.cast), st, 0)
  {
    r := st;
    var i := 0;
    while i < |items|
      invariant 0 <= i <= |items| && r.failure.None?
      invariant PathFrom(items, PathCaster(req.path, env.cast), r, i) == PathFrom(items, PathCaster(req.path, env.cast), st, 0)
    {
      var (name, caster) := items[i];
      var c := PathCast(name, caster, req.path, env.cast);
      if c.Raise? {
        r := r.(failure := Some(c.e));
        return;
      }
      r := r.(kwargs := r.kwargs[name := Val(c.v)], trace := r.trace + [Bound(name, PathStage)]);
      i := i + 1;
    }
  }

  /** Step 2 (lines 233-245): read each query parameter in table order. */
  method ReadQueryParams(items: seq<(string, Annotation)>, plan: Plan, req: Request, env: Env, st: St) returns (r: St)
    requires st.failure.None?
    ensures r == QueryFrom(items, QueryReader(plan.func.params, req.query, env.cast), st, 0)
  {
    r := st;
    var i := 0;
    while i < |items|
      invariant 0 <= i <= |items| && r.failure.None?
      invariant QueryFrom(items, QueryReader(plan.func.params, req.query, env.cast), r, i) == QueryFrom(items, QueryReader(plan.func.params, req.query, env.cast), st, 0)
    {
      var (name, caster) := items[i];
      var q := QueryCast(plan.func.params, name, caster, req.query, env.cast);
      match q {
        case QFailed(e) =>
          r := r.(failure := Some(e));
          return;
        case QDefaulted =>
          r := r.(trace := r.trace + [Defaulted(name)]);
        case QBound(v) =>
          r := r.(kwargs := r.kwargs[name := Val(v)], trace := r.trace + [Bound(name, QueryStage)]);
      }
      i := i + 1;
    }
  }

  /**
   * Step 3 (lines 248-256): call each dependency in table order; a
   * generator's first value is bound and the generator is remembered for
   * cleanup only once it has yielded.
   */
  method ResolveDependencies(items: seq<(string, Dep)>, produce: (string, Dep) -> Attempt, st: St) returns (r: St)
    requires st.failure.None?
    ensures r == DepFrom(items, produce, st, 0)
  {
    r := st;
    var i := 0;
    while i < |items|
      invariant 0 <= i <= |items| && r.failure.None?
      invariant DepFrom(items, produce, r, i) == DepFrom(items, produce, st, 0)
    {
      var (name, dep) := items[i];
      var c := produce(name, dep);
      if c.Raise? {
        r := r.(failure := Some(c.e));
        return;
      }
      r := r.(kwargs := r.kwargs[name := Val(c.v)], trace := r.trace + [Bound(name, DependencyStage)]);
      if dep.kind == AsyncGen {
        r := r.(cleanup := r.cleanup + [name]);
      }
      i := i + 1;
    }
  }

  /**
   * Step 4 (lines 260-263): every parameter annotated BackgroundTasks that is
   * not yet in `kwargs` gets a new collector; `backgroundTasks` is the last
   * one created, or null when none was.
   */
  method InjectCollectors(params: seq<Param>, st: St) returns (r: St, backgroundTasks: BackgroundTasks?)
    requires st.failure.None? && st.collectors == []
    ensures r == CollectFrom(params, st, 0)
    ensures backgroundTasks == null <==> r.collectors == []
    ensures backgroundTasks != null ==> fresh(backgroundTasks) && backgroundTasks.tasks == []
  {
    r, backgroundTasks := st, null;
    var i := 0;
    while i < |params|
      invariant 0 <= i <= |params| && r.failure.None?
      invariant CollectFrom(params, r, i) == CollectFrom(params, st, 0)
      invariant backgroundTasks == null <==> r.collectors == []
      invariant backgroundTasks != null ==> fresh(backgroundTasks) && backgroundTasks.tasks == []
    {
      var p := params[i];
      if p.name !in r.kwargs && p.annotation == Some(BgTasks) {
        backgroundTasks := new BackgroundTasks();
        r := r.(kwargs := r.kwargs[p.name := CollectorArg], trace := r.trace + [Bound(p.name, CollectorStage)],
                collectors := r.collectors + [p.name]);
      }
      i := i + 1;
    }
  }

  /** The handler's `add_task` calls on the collector it was given, in order. */
  method ReplayTasks(collector: BackgroundTasks, tasks: seq<Task>)
    modifies collector
    ensures collector.tasks == old(collector.tasks) + tasks
  {
    var i := 0;
    while i < |tasks|
      invariant 0 <= i <= |tasks|
      invariant collector.tasks == old(collector.tasks) + tasks[..i]
    {
      collector.AddTask(tasks[i].func, tasks[i].args, tasks[i].kwargs);
      assert tasks[..i + 1] == tasks[..i] + [tasks[i]];
      i := i + 1;
    }
    assert tasks[..i] == tasks;
  }

  /** Step 8 (lines 287-291): close the generators newest first, swallowing what a close raises. */
  method CloseGenerators(names: seq<string>, raises: string -> bool) returns (events: seq<Event>)
    ensures events == Closes(names, raises)
  {
    events := [];
    var i := |names|;
    while i > 0
      invariant 0 <= i <= |names|
      invariant events == Closes(names[i..], raises)
    {
      i := i - 1;
      assert names[i..][1..] == names[i + 1..];
      events := events + [Closed(names[i], raises(names[i]))];
    }
  }

  /** Steps 1-5 (lines 222-269): `kwargs` complete, or the exception that ended binding. */
  method BindArguments(plan: Plan, req: Request, env: Env) returns (st: St, backgroundTasks: BackgroundTasks?)
    ensures st == Prepare(plan, req, env)
    ensures backgroundTasks == null <==> st.collectors == []
    ensures backgroundTasks != null ==> fresh(backgroundTasks) && backgroundTasks.tasks == []
  {
    backgroundTasks := null;
    var s0 := Start(plan.func.params);
    var s1 := CastPathParams(plan.pathParams.items, req, env, s0);
    if s1.failure.Some? {
      return s1, null;
    }
    var s2 := ReadQueryParams(plan.queryParams.items, plan, req, env, s1);
    if s2.failure.Some? {
      return s2, null;
    }
    var s3 := ResolveDependencies(plan.deps.items, env.produce, s2);
    if s3.failure.Some? {
      return s3, null;
    }
    var s4;
    s4, backgroundTasks := InjectCollectors(plan.func.params, s3);
    st := s4;
    if plan.body.Some? {
      var (name, id) := plan.body.value;
      match env.decode(id, req.body) {
        case Raise(e) => st := st.(failure := Some(e));
        case Done(v) => st := st.(kwargs := st.kwargs[name := Val(v)], trace := st.trace + [Bound(name, BodyStage)]);
      }
    }
  }

  /** Steps 6-7 (lines 272-283): call the handler, wrap its value, attach the collected tasks. */
  method CallHandler(plan: Plan, env: Env, st: St, backgroundTasks: BackgroundTasks?) returns (result: Result<Response, Exc>)
    requires backgroundTasks == null <==> st.collectors == []
    requires backgroundTasks != null ==> backgroundTasks.tasks == []
    modifies backgroundTasks
    ensures result == Invoke(plan, env, st)
  {
    match env.call(plan.func, st.kwargs) {
      case HandlerRaised(e) =>
        result := Err(e);
      case Returned(ret, added) =>
        if backgroundTasks != null {
          var last := st.collectors[|st.collectors| - 1];
          ReplayTasks(backgroundTasks, if last in added then added[last] else []);
          assert backgroundTasks.tasks == Collected(st.collectors, added).value;
        }
        if ret.Plain? && env.encodeFails(ret.v) {
          result := Err(OtherExc("TypeError: unsupported type"));
        } else {
          var response := if ret.AResponse? then ret.r else JsonResponse(ret.v);
          if backgroundTasks != null && |backgroundTasks.tasks| > 0 {
            response := response.(background := Some(RunTasks(backgroundTasks.tasks)));
          }
          result := Ok(response);
        }
    }
  }

  /** One request through the endpoint: binding, the handler, and the cleanup of the `finally`. */
  method RunEndpoint(plan: Plan, req: Request, env: Env) returns (served: Served)
    ensures served == Handle(plan, req, env)
  {
    var st, backgroundTasks := BindArguments(plan, req, env);
    var trace := st.trace;
    var result: Result<Response, Exc>;
    if st.failure.Some? {
      result := Err(st.failure.value);
    } else {
      trace := trace + [HandlerCalled(st.kwargs)];
      result := CallHandler(plan, env, st, backgroundTasks);
    }
    var closes := CloseGenerators(st.cleanup, env.closeRaises);
    served := Served(result, trace + closes);
  }
}
