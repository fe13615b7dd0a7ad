/**
 * The binding-plan compiler: `_decorator` and its `wrapper` (bolt/app.py,
 * lines 176-213). Each parameter is sorted, first match wins, into the
 * dependency, body, path or query table, or left unbound. Nothing checks
 * that the path table matches the template's placeholders, and a later
 * Struct parameter replaces an earlier one.
 */
module Classifier {
  import opened Wrappers
  import opened OrderedDict
  import opened Signature
  import opened PathTemplate

  /** `issubclass` raised TypeError on the named parameter's hint, so registration failed. */
  datatype ConfigError = NotAClassHint(param: string)

  /** The branch of the loop body a parameter takes. */
  datatype Role =
    | Skipped                      // named "request"
    | AsDependency(dep: Dep)       // default is Depends(...)
    | Rejected                     // hint issubclass cannot take
    | AsBody(id: nat)              // hint is a msgspec.Struct
    | AsPath(caster: Annotation)   // name is a placeholder
    | AsQuery(t: Annotation)       // hint is int, str, bool or float
    | Unbound                      // none of these

  /** Lines 192-213, in their order. */
  function RoleOf(ph: set<string>, p: Param): Role {
    if p.name == "request" then Skipped
    else if p.default.Depends? then AsDependency(p.default.dep)
    else if p.annotation.Some? && p.annotation.value.NotAClass? then Rejected
    else if p.annotation.Some? && p.annotation.value.Struct? then AsBody(p.annotation.value.id)
    else if p.name in ph then AsPath(if p.annotation.Some? then p.annotation.value else Str)
    else if p.annotation.Some? && IsScalar(p.annotation.value) then AsQuery(p.annotation.value)
    else Unbound
  }

  /** The effect of one non-rejected parameter on the tables being built. */
  function Apply(plan: Plan, p: Param, role: Role): Plan {
    match role
    case AsDependency(d) => plan.(deps := Put(plan.deps, p.name, d))
    case AsBody(id) => plan.(body := Some((p.name, id)))
    case AsPath(c) => plan.(pathParams := Put(plan.pathParams, p.name, c))
    case AsQuery(t) => plan.(queryParams := Put(plan.queryParams, p.name, t))
    case _ => plan
  }

  function EmptyPlan(f: Func): Plan {
    Plan(f, Empty(), Empty(), Empty(), None)
  }

  /** The loop after it has seen `params`: the tables so far, or the error that ended it. */
  function Classify(ph: set<string>, f: Func, params: seq<Param>): Result<Plan, ConfigError>
  {
    if params == [] then Ok(EmptyPlan(f))
    else
      var p := params[|params| - 1];
      match Classify(ph, f, params[..|params| - 1])
      case Err(e) => Err(e)
      case Ok(plan) => if RoleOf(ph, p).Rejected? then Err(NotAClassHint(p.name)) else Ok(Apply(plan, p, RoleOf(ph, p)))
  }

  /** What registering `f` at `path` compiles to. */
  function Compile(path: string, f: Func): Result<Plan, ConfigError> {
    Classify(Placeholders(path), f, f.params)
  }

  /**
   * `wrapper`'s loop: fills the three dicts and the body slot parameter by
   * parameter; a TypeError from `issubclass` ends registration.
   */
  method CompileSignature(ph: set<string>, f: Func) returns (r: Result<Plan, ConfigError>)
    ensures r == Classify(ph, f, f.params)
  {
    var deps: Dict<string, Dep> := Empty();
    var pathParams: Dict<string, Annotation> := Empty();
    var queryParams: Dict<string, Annotation> := Empty();
    var body: Option<(string, nat)> := None;
    var i := 0;
    while i < |f.params|
      invariant 0 <= i <= |f.params|
      invariant Classify(ph, f, f.params[..i]) == Ok(Plan(f, deps, pathParams, queryParams, body))
    {
      var p := f.params[i];
      ClassifyStep(ph, f, f.params, i, Plan(f, deps, pathParams, queryParams, body));
      if p.name == "request" {
      } else if p.default.Depends? {
        deps := Put(deps, p.name, p.default.dep);
      } else if p.annotation.Some? && p.annotation.value.NotAClass? {
        ErrorSticks(ph, f, f.params, i + 1);
        return Err(NotAClassHint(p.name));
      } else if p.annotation.Some? && p.annotation.value.Struct? {
        body := Some((p.name, p.annotation.value.id));
      } else if p.name in ph {
        pathParams := Put(pathParams, p.name, if p.annotation.Some? then p.annotation.value else Str);
      } else if p.annotation.Some? && IsScalar(p.annotation.value) {
        queryParams := Put(queryParams, p.name, p.annotation.value);
      }
      i := i + 1;
    }
    assert f.params[..i] == f.params;
    r := Ok(Plan(f, deps, pathParams, queryParams, body));
  }

  /** One more parameter: the loop's state after it, from the state before. */
  lemma ClassifyStep(ph: set<string>, f: Func, params: seq<Param>, i: nat, plan: Plan)
    requires i < |params| && Classify(ph, f, params[..i]) == Ok(plan)
    ensures Classify(ph, f, params[..i + 1]) ==
      if RoleOf(ph, params[i]).Rejected? then Err(NotAClassHint(params[i].name))
      else Ok(Apply(plan, params[i], RoleOf(ph, params[i])))
  {
    assert params[..i + 1][..i] == params[..i];
  }

  /** Once the loop has failed, later parameters change nothing. */
  lemma {:induction false} ErrorSticks(ph: set<string>, f: Func, params: seq<Param>, k: nat)
    requires k <= |params| && Classify(ph, f, params[..k]).Err?
    ensures Classify(ph, f, params) == Classify(ph, f, params[..k])
    decreases |params| - k
  {
    if k < |params| {
      assert params[..k + 1][..k] == params[..k];
      ErrorSticks(ph, f, params, k + 1);
    } else {
      assert params[..k] == params;
    }
  }

  /**
   * Registration fails exactly when some parameter reaches the `issubclass`
   * test with a hint it cannot take, and the error names the first one; the
   * placeholders play no part, so a mismatch between them and the path
   * table never fails registration.
   */
  lemma {:induction false} FailsIffRejected(ph: set<string>, f: Func, params: seq<Param>)
    ensures Classify(ph, f, params).Err? <==> exists i :: 0 <= i < |params| && RoleOf(ph, params[i]).Rejected?
    ensures Classify(ph, f, params).Err? ==>
      exists i :: 0 <= i < |params| && RoleOf(ph, params[i]).Rejected?
        && Classify(ph, f, params).error == NotAClassHint(params[i].name)
        && forall j :: 0 <= j < i ==> !RoleOf(ph, params[j]).Rejected?
  {
    if params != [] {
      var init := params[..|params| - 1];
      FailsIffRejected(ph, f, init);
      forall j | 0 <= j < |init| ensures init[j] == params[j] { }
    }
  }

  /** The role is decided without looking at placeholders except for the path test. */
  lemma RejectionIgnoresPlaceholders(ph1: set<string>, ph2: set<string>, p: Param)
    ensures RoleOf(ph1, p).Rejected? <==> RoleOf(ph2, p).Rejected?
  {
  }

  // ---- The tables as filters of the parameter list ----

  function DepItems(ph: set<string>, params: seq<Param>): seq<(string, Dep)> {
    if params == [] then []
    else
      var p := params[|params| - 1];
      DepItems(ph, params[..|params| - 1]) + (match RoleOf(ph, p) case AsDependency(d) => [(p.name, d)] case _ => [])
  }

  function PathItems(ph: set<string>, params: seq<Param>): seq<(string, Annotation)> {
    if params == [] then []
    else
      var p := params[|params| - 1];
      PathItems(ph, params[..|params| - 1]) + (match RoleOf(ph, p) case AsPath(c) => [(p.name, c)] case _ => [])
  }

  function QueryItems(ph: set<string>, params: seq<Param>): seq<(string, Annotation)> {
    if params == [] then []
    else
      var p := params[|params| - 1];
      QueryItems(ph, params[..|params| - 1]) + (match RoleOf(ph, p) case AsQuery(t) => [(p.name, t)] case _ => [])
  }

  /** The last Struct-annotated parameter that reaches the body test. */
  function LastBody(ph: set<string>, params: seq<Param>): Option<(string, nat)> {
    if params == [] then None
    else
      var p := params[|params| - 1];
      match RoleOf(ph, p)
      case AsBody(id) => Some((p.name, id))
      case _ => LastBody(ph, params[..|params| - 1])
  }

  /** Every entry of a filter comes from a parameter with that role, and every such parameter has an entry. */
  lemma {:induction false} DepMembership(ph: set<string>, params: seq<Param>)
    ensures forall n, d :: (n, d) in DepItems(ph, params) <==>
      exists i :: 0 <= i < |params| && params[i].name == n && RoleOf(ph, params[i]) == AsDependency(d)
  {
    if params != [] {
      var init := params[..|params| - 1];
      DepMembership(ph, init);
      forall j | 0 <= j < |init| ensures init[j] == params[j] { }
    }
  }

  lemma {:induction false} PathMembership(ph: set<string>, params: seq<Param>)
    ensures forall n, c :: (n, c) in PathItems(ph, params) <==>
      exists i :: 0 <= i < |params| && params[i].name == n && RoleOf(ph, params[i]) == AsPath(c)
  {
    if params != [] {
      var init := params[..|params| - 1];
      PathMembership(ph, init);
      forall j | 0 <= j < |init| ensures init[j] == params[j] { }
    }
  }

  lemma {:induction false} QueryMembership(ph: set<string>, params: seq<Param>)
    ensures forall n, t :: (n, t) in QueryItems(ph, params) <==>
      exists i :: 0 <= i < |params| && params[i].name == n && RoleOf(ph, params[i]) == AsQuery(t)
  {
    if params != [] {
      var init := params[..|params| - 1];
      QueryMembership(ph, init);
      forall j | 0 <= j < |init| ensures init[j] == params[j] { }
    }
  }

  lemma {:induction false} BodyMembership(ph: set<string>, params: seq<Param>)
    ensures LastBody(ph, params).Some? <==> exists i :: 0 <= i < |params| && RoleOf(ph, params[i]).AsBody?
    ensures LastBody(ph, params).Some? ==>
      exists i :: 0 <= i < |params| && params[i].name == LastBody(ph, params).value.0
        && RoleOf(ph, params[i]) == AsBody(LastBody(ph, params).value.1)
        && forall j :: i < j < |params| ==> !RoleOf(ph, params[j]).AsBody?
  {
    if params != [] {
      var init := params[..|params| - 1];
      BodyMembership(ph, init);
      forall j | 0 <= j < |init| ensures init[j] == params[j] { }
    }
  }

  /** Names not declared before the last parameter are absent from the filters of the prefix. */
  lemma NewNameAbsent<V>(items: seq<(string, V)>, ph: set<string>, init: seq<Param>, n: string)
    requires forall m, v :: (m, v) in items ==> exists i :: 0 <= i < |init| && init[i].name == m
    requires forall i :: 0 <= i < |init| ==> init[i].name != n
    ensures !HasKey(Dict(items), n)
  {
    forall k | 0 <= k < |items| ensures items[k].0 != n {
      assert items[k] in items;
    }
  }

  /**
   * With distinct parameter names every table is the filter of the
   * parameters with its role, in declaration order, and the body slot holds
   * the last Struct parameter.
   */
  lemma {:induction false} TablesAreFilters(ph: set<string>, f: Func, params: seq<Param>)
    requires DistinctNames(params)
    requires Classify(ph, f, params).Ok?
    ensures var plan := Classify(ph, f, params).value;
      && plan.func == f
      && plan.deps.items == DepItems(ph, params)
      && plan.pathParams.items == PathItems(ph, params)
      && plan.queryParams.items == QueryItems(ph, params)
      && plan.body == LastBody(ph, params)
  {
    if params != [] {
      var init := params[..|params| - 1];
      assert DistinctNames(init) by {
        forall i, j | 0 <= i < j < |init| ensures init[i].name != init[j].name { assert init[i] == params[i] && init[j] == params[j]; }
      }
      TablesAreFilters(ph, f, init);
      FiltersStep(ph, f, params);
    }
  }

  /** The induction step of TablesAreFilters: the last parameter extends exactly its own table. */
  lemma FiltersStep(ph: set<string>, f: Func, params: seq<Param>)
    requires params != [] && DistinctNames(params)
    requires Classify(ph, f, params).Ok?
    requires var init := params[..|params| - 1];
      var plan := Classify(ph, f, init).value;
      && Classify(ph, f, init).Ok?
      && plan.func == f
      && plan.deps.items == DepItems(ph, init)
      && plan.pathParams.items == PathItems(ph, init)
      && plan.queryParams.items == QueryItems(ph, init)
      && plan.body == LastBody(ph, init)
    ensures var plan := Classify(ph, f, params).value;
      && plan.func == f
      && plan.deps.items == DepItems(ph, params)
      && plan.pathParams.items == PathItems(ph, params)
      && plan.queryParams.items == QueryItems(ph, params)
      && plan.body == LastBody(ph, params)
  {
    var init := params[..|params| - 1];
    var p := params[|params| - 1];
    var plan := Classify(ph, f, init).value;
    assert forall i :: 0 <= i < |init| ==> init[i].name != p.name by {
      forall i | 0 <= i < |init| ensures init[i].name != p.name { assert init[i] == params[i]; }
    }
    match RoleOf(ph, p)
    case AsDependency(d) =>
      DepMembership(ph, init);
      NewNameAbsent(DepItems(ph, init), ph, init, p.name);
      PutAppends(plan.deps, p.name, d);
    case AsPath(c) =>
      PathMembership(ph, init);
      NewNameAbsent(PathItems(ph, init), ph, init, p.name);
      PutAppends(plan.pathParams, p.name, c);
    case AsQuery(t) =>
      QueryMembership(ph, init);
      NewNameAbsent(QueryItems(ph, init), ph, init, p.name);
      PutAppends(plan.queryParams, p.name, t);
    case _ =>
  }

  lemma PutAppends<V>(d: Dict<string, V>, k: string, v: V)
    requires !HasKey(d, k)
    ensures Put(d, k, v).items == d.items + [(k, v)]
  {
  }

  function DepOf(r: Role): Option<Dep> { if r.AsDependency? then Some(r.dep) else None }
  function PathOf(r: Role): Option<Annotation> { if r.AsPath? then Some(r.caster) else None }
  function QueryOf(r: Role): Option<Annotation> { if r.AsQuery? then Some(r.t) else None }

  /** A filter of distinct names, looked up by a name it holds. */
  lemma FilterLookup<V>(items: seq<(string, V)>, n: string, v: V)
    requires Valid(Dict(items))
    requires (n, v) in items
    ensures Get(Dict(items), n) == Some(v)
  {
    var k :| 0 <= k < |items| && items[k] == (n, v);
  }

  lemma FilterMiss<V>(items: seq<(string, V)>, n: string)
    requires forall k :: 0 <= k < |items| ==> items[k].0 != n
    ensures Get(Dict(items), n) == None
  {
  }

  /**
   * Where each parameter lands: the dependency table holds it exactly when
   * its default is a Depends marker (and it is not "request"), the path table
   * exactly when it reaches the placeholder test with a placeholder name
   * (unannotated ones with the `str` caster), the query table exactly when it
   * gets past that test with a scalar hint; the body slot names the last
   * Struct parameter, so a later one replaces an earlier one.
   */
  lemma ParamPlacement(ph: set<string>, f: Func, params: seq<Param>, i: nat)
    requires DistinctNames(params)
    requires Classify(ph, f, params).Ok?
    requires i < |params|
    ensures var plan := Classify(ph, f, params).value; var p := params[i];
      && Get(plan.deps, p.name) == DepOf(RoleOf(ph, p))
      && Get(plan.pathParams, p.name) == PathOf(RoleOf(ph, p))
      && Get(plan.queryParams, p.name) == QueryOf(RoleOf(ph, p))
      && (plan.body.Some? && plan.body.value.0 == p.name <==>
            RoleOf(ph, p).AsBody? && forall j :: i < j < |params| ==> !RoleOf(ph, params[j]).AsBody?)
  {
    TablesAreFilters(ph, f, params);
    FiltersDistinct(ph, params);
    DepPlacement(ph, params, i);
    PathPlacement(ph, params, i);
    QueryPlacement(ph, params, i);
    BodyPlacement(ph, params, i);
  }

  lemma DepPlacement(ph: set<string>, params: seq<Param>, i: nat)
    requires i < |params|
    requires Valid(Dict(DepItems(ph, params)))
    requires DistinctNames(params)
    ensures Get(Dict(DepItems(ph, params)), params[i].name) == DepOf(RoleOf(ph, params[i]))
  {
    DepMembership(ph, params);
    var items := DepItems(ph, params);
    var p := params[i];
    match RoleOf(ph, p)
    case AsDependency(x) =>
      assert params[i].name == p.name && RoleOf(ph, params[i]) == AsDependency(x);
      FilterLookup(items, p.name, x);
    case _ =>
      forall k | 0 <= k < |items| ensures items[k].0 != p.name {
        assert items[k] in items;
        var j :| 0 <= j < |params| && params[j].name == items[k].0 && RoleOf(ph, params[j]) == AsDependency(items[k].1);
        assert j != i;
      }
      FilterMiss(items, p.name);
  }

  lemma PathPlacement(ph: set<string>, params: seq<Param>, i: nat)
    requires i < |params|
    requires Valid(Dict(PathItems(ph, params)))
    requires DistinctNames(params)
    ensures Get(Dict(PathItems(ph, params)), params[i].name) == PathOf(RoleOf(ph, params[i]))
  {
    PathMembership(ph, params);
    var items := PathItems(ph, params);
    var p := params[i];
    match RoleOf(ph, p)
    case AsPath(x) =>
      assert params[i].name == p.name && RoleOf(ph, params[i]) == AsPath(x);
      FilterLookup(items, p.name, x);
    case _ =>
      forall k | 0 <= k < |items| ensures items[k].0 != p.name {
        assert items[k] in items;
        var j :| 0 <= j < |params| && params[j].name == items[k].0 && RoleOf(ph, params[j]) == AsPath(items[k].1);
        assert j != i;
      }
      FilterMiss(items, p.name);
  }

  lemma QueryPlacement(ph: set<string>, params: seq<Param>, i: nat)
    requires i < |params|
    requires Valid(Dict(QueryItems(ph, params)))
    requires DistinctNames(params)
    ensures Get(Dict(QueryItems(ph, params)), params[i].name) == QueryOf(RoleOf(ph, params[i]))
  {
    QueryMembership(ph, params);
    var items := QueryItems(ph, params);
    var p := params[i];
    match RoleOf(ph, p)
    case AsQuery(x) =>
      assert params[i].name == p.name && RoleOf(ph, params[i]) == AsQuery(x);
      FilterLookup(items, p.name, x);
    case _ =>
      forall k | 0 <= k < |items| ensures items[k].0 != p.name {
        assert items[k] in items;
        var j :| 0 <= j < |params| && params[j].name == items[k].0 && RoleOf(ph, params[j]) == AsQuery(items[k].1);
        assert j != i;
      }
      FilterMiss(items, p.name);
  }

  lemma BodyPlacement(ph: set<string>, params: seq<Param>, i: nat)
    requires i < |params|
    requires DistinctNames(params)
    ensures var b := LastBody(ph, params);
      b.Some? && b.value.0 == params[i].name <==>
        RoleOf(ph, params[i]).AsBody? && forall j :: i < j < |params| ==> !RoleOf(ph, params[j]).AsBody?
  {
    BodyMembership(ph, params);
    var b := LastBody(ph, params);
    if b.Some? && b.value.0 == params[i].name {
      var k :| 0 <= k < |params| && params[k].name == b.value.0
        && RoleOf(ph, params[k]) == AsBody(b.value.1)
        && forall j :: k < j < |params| ==> !RoleOf(ph, params[j]).AsBody?;
      assert k == i;
    }
    if RoleOf(ph, params[i]).AsBody? && forall j :: i < j < |params| ==> !RoleOf(ph, params[j]).AsBody? {
      var k :| 0 <= k < |params| && params[k].name == b.value.0
        && RoleOf(ph, params[k]) == AsBody(b.value.1)
        && forall j :: k < j < |params| ==> !RoleOf(ph, params[j]).AsBody?;
      assert k == i;
    }
  }

  lemma FiltersDistinct(ph: set<string>, params: seq<Param>)
    requires DistinctNames(params)
    ensures Valid(Dict(DepItems(ph, params)))
    ensures Valid(Dict(PathItems(ph, params)))
    ensures Valid(Dict(QueryItems(ph, params)))
  {
    if params != [] {
      var init := params[..|params| - 1];
      var p := params[|params| - 1];
      assert DistinctNames(init) by {
        forall i, j | 0 <= i < j < |init| ensures init[i].name != init[j].name { assert init[i] == params[i] && init[j] == params[j]; }
      }
      FiltersDistinct(ph, init);
      DepMembership(ph, init);
      PathMembership(ph, init);
      QueryMembership(ph, init);
      forall i | 0 <= i < |init| ensures init[i].name != p.name { assert init[i] == params[i]; }
      var d := DepItems(ph, init);
      forall k | 0 <= k < |d| ensures d[k].0 != p.name { assert d[k] in d; }
      var a := PathItems(ph, init);
      forall k | 0 <= k < |a| ensures a[k].0 != p.name { assert a[k] in a; }
      var q := QueryItems(ph, init);
      forall k | 0 <= k < |q| ensures q[k].0 != p.name { assert q[k] in q; }
    }
  }
}
