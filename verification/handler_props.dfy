/**
 * What the handler is given and what becomes of its return value
 * (bolt/app.py, lines 222-283): `kwargs` only ever holds parameter names of
 * the handler, the collectors injected at request time are exactly the
 * BackgroundTasks parameters that classification left unbound, and the
 * response carries the last collector's tasks only when there are some.
 */
module HandlerProps {
  import opened Wrappers
  import opened OrderedDict
  import opened Runtime
  import opened Background
  import opened Responses
  import opened Signature
  import opened Classifier
  import opened Binder

  // ---- kwargs holds declared names only ----

  /** Every table entry of a compiled plan names one of the handler's parameters. */
  lemma {:induction false} PlanNamesDeclared(ph: set<string>, f: Func, params: seq<Param>)
    requires Classify(ph, f, params).Ok?
    ensures var plan := Classify(ph, f, params).value;
      && plan.func == f
      && (forall n :: HasKey(plan.deps, n) ==> Declares(params, n))
      && (forall n :: HasKey(plan.pathParams, n) ==> Declares(params, n))
      && (forall n :: HasKey(plan.queryParams, n) ==> Declares(params, n))
      && (plan.body.Some? ==> Declares(params, plan.body.value.0))
  {
    if params != [] {
      var init := params[..|params| - 1];
      var p := params[|params| - 1];
      PlanNamesDeclared(ph, f, init);
      forall n | Declares(init, n) ensures Declares(params, n) {
        var i :| 0 <= i < |init| && init[i].name == n;
        assert params[i] == init[i];
      }
      assert Declares(params, p.name);
    }
  }

  ghost predicate KeysDeclared(st: St, params: seq<Param>) {
    forall n :: n in st.kwargs ==> Declares(params, n)
  }

  ghost predicate ItemsDeclared<V>(items: seq<(string, V)>, params: seq<Param>) {
    forall k :: 0 <= k < |items| ==> Declares(params, items[k].0)
  }

  lemma TableDeclared<V>(d: Dict<string, V>, params: seq<Param>)
    requires forall n :: HasKey(d, n) ==> Declares(params, n)
    ensures ItemsDeclared(d.items, params)
  {
    forall k | 0 <= k < |d.items| ensures Declares(params, d.items[k].0) {
      assert HasKey(d, d.items[k].0);
    }
  }

  lemma NamesDeclared<V>(items: seq<(string, V)>, m: nat, params: seq<Param>)
    requires m <= |items| && ItemsDeclared(items, params)
    ensures forall n :: n in Names(items[0..m]) ==> Declares(params, n)
  {
    NamesIn(items[0..m]);
    forall n | n in Names(items[0..m]) ensures Declares(params, n) {
      var k :| 0 <= k < m && items[0..m][k].0 == n;
      assert items[0..m][k] == items[k];
    }
  }

  lemma QueryNamesDeclared(items: seq<(string, Annotation)>, read: (string, Annotation) -> QueryRead, m: nat, params: seq<Param>)
    requires m <= |items| && ItemsDeclared(items, params)
    ensures forall n :: n in QueryNames(items[0..m], read) ==> Declares(params, n)
  {
    QueryNamesIn(items[0..m], read);
    forall n | n in QueryNames(items[0..m], read) ensures Declares(params, n) {
      var k :| 0 <= k < m && items[0..m][k].0 == n && read(items[0..m][k].0, items[0..m][k].1).QBound?;
      assert items[0..m][k] == items[k];
    }
  }

  /** Every collector the scan finds is a BackgroundTasks parameter not yet bound. */
  lemma {:induction false} ScanFinds(params: seq<Param>, bound: set<string>)
    ensures forall n :: n in CollectorScan(params, bound) ==>
      n !in bound && exists k :: 0 <= k < |params| && params[k].name == n && params[k].annotation == Some(BgTasks)
  {
    if params != [] {
      var rest := params[1..];
      var next := if Collects(params[0], bound) then bound + {params[0].name} else bound;
      ScanFinds(rest, next);
      forall n | n in CollectorScan(rest, next)
        ensures exists k :: 0 <= k < |params| && params[k].name == n && params[k].annotation == Some(BgTasks)
      {
        var k :| 0 <= k < |rest| && rest[k].name == n && rest[k].annotation == Some(BgTasks);
        assert params[k + 1] == rest[k];
      }
    }
  }

  lemma UrlDeclared(plan: Plan, req: Request, env: Env)
    requires ItemsDeclared(plan.pathParams.items, plan.func.params)
    requires ItemsDeclared(plan.queryParams.items, plan.func.params)
    ensures KeysDeclared(BindUrl(plan, req, env), plan.func.params)
  {
    var params := plan.func.params;
    var s0 := Start(params);
    var path := plan.pathParams.items;
    var cast := PathCaster(req.path, env.cast);
    var s1 := PathFrom(path, cast, s0, 0);
    NamesDeclared(path, FirstFailure(path, cast, 0), params);
    if s1.failure.None? {
      var query := plan.queryParams.items;
      var read := QueryReader(params, req.query, env.cast);
      QueryNamesDeclared(query, read, FirstQueryFailure(query, read, 0), params);
    }
  }

  lemma RestDeclared(plan: Plan, req: Request, env: Env, s2: St)
    requires s2.failure.None? && KeysDeclared(s2, plan.func.params)
    requires ItemsDeclared(plan.deps.items, plan.func.params)
    requires plan.body.Some? ==> Declares(plan.func.params, plan.body.value.0)
    ensures KeysDeclared(BindRest(plan, req, env, s2), plan.func.params)
  {
    var params := plan.func.params;
    var deps := plan.deps.items;
    var s3 := DepFrom(deps, env.produce, s2, 0);
    NamesDeclared(deps, FirstFailure(deps, env.produce, 0), params);
    if s3.failure.None? {
      ScanFinds(params[0..], s3.kwargs.Keys);
      forall n | n in CollectorScan(params[0..], s3.kwargs.Keys) ensures Declares(params, n) {
        var k :| 0 <= k < |params[0..]| && params[0..][k].name == n && params[0..][k].annotation == Some(BgTasks);
        assert params[k] == params[0..][k];
      }
    }
  }

  /**
   * `endpoint(**kwargs)` never receives a keyword the handler does not
   * declare: every name bound is a parameter of the compiled function.
   */
  lemma HandlerGetsDeclaredNames(ph: set<string>, f: Func, plan: Plan, req: Request, env: Env)
    requires Classify(ph, f, f.params) == Ok(plan)
    ensures forall n :: n in Prepare(plan, req, env).kwargs ==> Declares(f.params, n)
  {
    PlanNamesDeclared(ph, f, f.params);
    TableDeclared(plan.pathParams, f.params);
    TableDeclared(plan.queryParams, f.params);
    TableDeclared(plan.deps, f.params);
    UrlDeclared(plan, req, env);
    var s2 := BindUrl(plan, req, env);
    if s2.failure.None? {
      RestDeclared(plan, req, env, s2);
    }
  }

  // ---- The collectors found at request time ----

  /**
   * The parameters annotated BackgroundTasks that classification left
   * unbound, in declaration order.
   */
  function UnboundCollectors(ph: set<string>, params: seq<Param>): seq<string> {
    if params == [] then []
    else
      (if params[0].annotation == Some(BgTasks) && RoleOf(ph, params[0]).Unbound? then [params[0].name] else [])
      + UnboundCollectors(ph, params[1..])
  }

  /**
   * With distinct names, the scan, which grows its bound set as it goes,
   * picks the same parameters as a static filter once the bound set agrees
   * with classification on every BackgroundTasks parameter.
   */
  lemma {:induction false} ScanIsStatic(ph: set<string>, params: seq<Param>, bound: set<string>)
    requires DistinctNames(params)
    requires forall k :: 0 <= k < |params| && params[k].annotation == Some(BgTasks) ==>
      (params[k].name in bound <==> !RoleOf(ph, params[k]).Unbound?)
    ensures CollectorScan(params, bound) == UnboundCollectors(ph, params)
  {
    if params != [] {
      var p := params[0];
      var rest := params[1..];
      var next := if Collects(p, bound) then bound + {p.name} else bound;
      assert DistinctNames(rest) by {
        forall i, j | 0 <= i < j < |rest| ensures rest[i].name != rest[j].name {
          assert rest[i] == params[i + 1] && rest[j] == params[j + 1];
        }
      }
      forall k | 0 <= k < |rest| && rest[k].annotation == Some(BgTasks)
        ensures rest[k].name in next <==> !RoleOf(ph, rest[k]).Unbound?
      {
        assert rest[k] == params[k + 1];
        assert rest[k].name != p.name;
      }
      ScanIsStatic(ph, rest, next);
    }
  }

  lemma StartKeys(params: seq<Param>)
    ensures Start(params).kwargs.Keys == (if Declares(params, "request") then {"request"} else {})
    ensures Start(params).cleanup == [] && Start(params).collectors == [] && Start(params).failure.None?
  {
  }

  /**
   * Once the URL values are bound without error: the names are the Request,
   * every path entry and the query entries that were present, and no path
   * entry has the BackgroundTasks caster (that cast always fails).
   */
  lemma UrlBound(plan: Plan, req: Request, env: Env)
    requires BindUrl(plan, req, env).failure.None?
    ensures var read := QueryReader(plan.func.params, req.query, env.cast);
      && BindUrl(plan, req, env).kwargs.Keys ==
           Start(plan.func.params).kwargs.Keys + Names(plan.pathParams.items) + QueryNames(plan.queryParams.items, read)
      && BindUrl(plan, req, env).collectors == []
      && forall j :: 0 <= j < |plan.pathParams.items| ==> plan.pathParams.items[j].1 != BgTasks
  {
    var s0 := Start(plan.func.params);
    StartKeys(plan.func.params);
    var path := plan.pathParams.items;
    var cast := PathCaster(req.path, env.cast);
    var m1 := FirstFailure(path, cast, 0);
    assert m1 == |path|;
    assert path[0..m1] == path;
    forall j | 0 <= j < |path| ensures path[j].1 != BgTasks {
      assert cast(path[j].0, path[j].1).Done?;
    }
    var s1 := PathFrom(path, cast, s0, 0);
    var query := plan.queryParams.items;
    var read := QueryReader(plan.func.params, req.query, env.cast);
    var m2 := FirstQueryFailure(query, read, 0);
    assert m2 == |query|;
    assert query[0..m2] == query;
  }

  lemma WholeSlice<T>(s: seq<T>)
    ensures s[0..|s|] == s
  {
  }

  lemma DepsBound(items: seq<(string, Dep)>, produce: (string, Dep) -> Attempt, st: St)
    requires st.failure.None? && DepFrom(items, produce, st, 0).failure.None?
    ensures DepFrom(items, produce, st, 0).kwargs.Keys == st.kwargs.Keys + Names(items)
    ensures DepFrom(items, produce, st, 0).collectors == st.collectors
  {
    var m := FirstFailure(items, produce, 0);
    var r := DepFrom(items, produce, st, 0);
    assert r.kwargs.Keys == st.kwargs.Keys + Names(items[0..m]);
    assert m == |items|;
    WholeSlice(items);
  }

  /** Two parameters of one signature with the same name are the same parameter. */
  lemma SameNameSameParam(params: seq<Param>, i: nat, k: nat)
    requires DistinctNames(params) && i < |params| && k < |params|
    ensures params[i].name == params[k].name ==> i == k
  {
  }

  /** Each parameter with a table role has its entry in that table. */
  lemma RoleListed(ph: set<string>, params: seq<Param>, k: nat)
    requires k < |params|
    ensures var p := params[k];
      && (RoleOf(ph, p).AsPath? ==> (p.name, RoleOf(ph, p).caster) in PathItems(ph, params))
      && (RoleOf(ph, p).AsDependency? ==> (p.name, RoleOf(ph, p).dep) in DepItems(ph, params))
  {
    PathMembership(ph, params);
    DepMembership(ph, params);
  }

  /** Every name of `names` is the name of an entry of `items`. */
  ghost predicate AllListed<V>(names: set<string>, items: seq<(string, V)>) {
    forall n :: n in names ==> exists j :: 0 <= j < |items| && items[j].0 == n
  }

  /** An unbound parameter's name is in no table. */
  lemma UnboundUnlisted(ph: set<string>, params: seq<Param>, k: nat, qnames: set<string>)
    requires DistinctNames(params) && k < |params| && RoleOf(ph, params[k]).Unbound?
    requires AllListed(qnames, QueryItems(ph, params))
    ensures params[k].name !in Names(PathItems(ph, params))
    ensures params[k].name !in qnames
    ensures params[k].name !in Names(DepItems(ph, params))
  {
    var p := params[k];
    var path := PathItems(ph, params);
    var query := QueryItems(ph, params);
    var deps := DepItems(ph, params);
    NamesIn(path);
    NamesIn(deps);
    PathMembership(ph, params);
    QueryMembership(ph, params);
    DepMembership(ph, params);
    forall j | 0 <= j < |path| ensures path[j].0 != p.name {
      assert path[j] in path;
      var i :| 0 <= i < |params| && params[i].name == path[j].0 && RoleOf(ph, params[i]) == AsPath(path[j].1);
      SameNameSameParam(params, i, k);
    }
    forall j | 0 <= j < |query| ensures query[j].0 != p.name {
      assert query[j] in query;
      var i :| 0 <= i < |params| && params[i].name == query[j].0 && RoleOf(ph, params[i]) == AsQuery(query[j].1);
      SameNameSameParam(params, i, k);
    }
    forall j | 0 <= j < |deps| ensures deps[j].0 != p.name {
      assert deps[j] in deps;
      var i :| 0 <= i < |params| && params[i].name == deps[j].0 && RoleOf(ph, params[i]) == AsDependency(deps[j].1);
      SameNameSameParam(params, i, k);
    }
  }

  /**
   * Before the collector scan, a BackgroundTasks parameter is already bound
   * exactly when classification gave it a role that binds it: the Request
   * or a dependency (a path role would have failed the request). `keys` are
   * the names bound by then.
   */
  lemma BoundBeforeCollectors(ph: set<string>, params: seq<Param>, k: nat, keys: set<string>, qnames: set<string>)
    requires DistinctNames(params) && k < |params| && params[k].annotation == Some(BgTasks)
    requires keys == (if Declares(params, "request") then {"request"} else {})
      + Names(PathItems(ph, params)) + qnames + Names(DepItems(ph, params))
    requires AllListed(qnames, QueryItems(ph, params))
    requires forall j :: 0 <= j < |PathItems(ph, params)| ==> PathItems(ph, params)[j].1 != BgTasks
    ensures params[k].name in keys <==> !RoleOf(ph, params[k]).Unbound?
  {
    var p := params[k];
    RoleListed(ph, params, k);
    assert !RoleOf(ph, p).AsPath?;
    if p.name == "request" {
      assert Declares(params, "request");
    } else if p.default.Depends? {
      var deps := DepItems(ph, params);
      NamesIn(deps);
      var j :| 0 <= j < |deps| && deps[j] == (p.name, p.default.dep);
    } else {
      assert RoleOf(ph, p) == Unbound;
      UnboundUnlisted(ph, params, k, qnames);
    }
  }

  /**
   * The collectors `endpoint` creates by looking at annotations at request
   * time are exactly the BackgroundTasks parameters that `wrapper` left
   * unbound at registration, in declaration order.
   */
  lemma CollectorsAreUnboundBgTasks(ph: set<string>, f: Func, plan: Plan, req: Request, env: Env)
    requires Classify(ph, f, f.params) == Ok(plan) && DistinctNames(f.params)
    ensures Prepare(plan, req, env).failure.None? ==> Prepare(plan, req, env).collectors == UnboundCollectors(ph, f.params)
  {
    var s2 := BindUrl(plan, req, env);
    if s2.failure.Some? {
      return;
    }
    var s3 := DepFrom(plan.deps.items, env.produce, s2, 0);
    if s3.failure.Some? {
      return;
    }
    var params := f.params;
    var read := QueryReader(params, req.query, env.cast);
    var qnames := QueryNames(plan.queryParams.items, read);
    UrlBound(plan, req, env);
    DepsBound(plan.deps.items, env.produce, s2);
    TablesAreFilters(ph, f, params);
    StartKeys(params);
    QueryNamesIn(plan.queryParams.items, read);
    assert AllListed(qnames, QueryItems(ph, params));
    forall k | 0 <= k < |params| && params[k].annotation == Some(BgTasks)
      ensures params[k].name in s3.kwargs.Keys <==> !RoleOf(ph, params[k]).Unbound?
    {
      BoundBeforeCollectors(ph, params, k, s3.kwargs.Keys, qnames);
    }
    assert params[0..] == params;
    ScanIsStatic(ph, params, s3.kwargs.Keys);
  }

  // ---- The response ----

  /**
   * Lines 272-281 once binding succeeded: a returned Response keeps its
   * status and content, any other value becomes a 200 JSON response (or a
   * TypeError when it cannot be encoded); the background becomes the last
   * injected collector's tasks exactly when it holds some, and tasks given
   * to any other collector are dropped.
   */
  lemma ResponseWrap(plan: Plan, req: Request, env: Env)
    ensures var s := Prepare(plan, req, env); var r := Handle(plan, req, env).result;
      s.failure.None? ==>
      match env.call(plan.func, s.kwargs)
      case HandlerRaised(e) => r == Err(e)
      case Returned(ret, added) =>
        if ret.Plain? && env.encodeFails(ret.v) then r == Err(OtherExc("TypeError: unsupported type"))
        else
          var last := if s.collectors == [] then [] else
            (var c := s.collectors[|s.collectors| - 1]; if c in added then added[c] else []);
          && r.Ok?
          && (ret.AResponse? ==> r.value.status == ret.r.status && r.value.content == ret.r.content)
          && (ret.Plain? ==> r.value.status == 200 && r.value.content == Payload(ret.v))
          && r.value.background ==
               (if last != [] then Some(RunTasks(last)) else if ret.AResponse? then ret.r.background else None)
  {
    var s := Prepare(plan, req, env);
    assert Handle(plan, req, env).result == (if s.failure.Some? then Err(s.failure.value) else Invoke(plan, env, s));
  }
}
