/**
 * What one request through the endpoint guarantees (bolt/app.py, lines
 * 216-291): the steps happen in the order of the code, the handler runs
 * only when every argument was bound, every advanced generator is closed
 * once, newest first, whatever happened, and close errors change nothing.
 */
module BinderProps {
  import opened Wrappers
  import opened OrderedDict
  import opened Runtime
  import opened Background
  import opened Responses
  import opened Signature
  import opened PathTemplate
  import opened Classifier
  import opened PyStr
  import opened Binder

  // ---- Order of the steps ----

  /** Events appear in the order of the code that logs them. */
  ghost predicate Ordered(t: seq<Event>) {
    forall i, j :: 0 <= i < j < |t| ==> Rank(t[i]) <= Rank(t[j])
  }

  ghost predicate RanksAtMost(t: seq<Event>, r: nat) {
    forall k :: 0 <= k < |t| ==> Rank(t[k]) <= r
  }

  ghost predicate RanksAre(t: seq<Event>, r: nat) {
    forall k :: 0 <= k < |t| ==> Rank(t[k]) == r
  }

  lemma AppendOrdered(t: seq<Event>, u: seq<Event>, r: nat)
    requires Ordered(t) && RanksAtMost(t, r) && RanksAre(u, r)
    ensures Ordered(t + u) && RanksAtMost(t + u, r)
  {
    forall i, j | 0 <= i < j < |t + u| ensures Rank((t + u)[i]) <= Rank((t + u)[j]) {
      if j < |t| {
        assert (t + u)[i] == t[i] && (t + u)[j] == t[j];
      } else if i < |t| {
        assert (t + u)[i] == t[i] && (t + u)[j] == u[j - |t|];
      } else {
        assert (t + u)[i] == u[i - |t|] && (t + u)[j] == u[j - |t|];
      }
    }
  }

  lemma {:induction false} CollectorEventsAt(names: seq<string>)
    ensures |CollectorEvents(names)| == |names|
    ensures forall k :: 0 <= k < |names| ==> CollectorEvents(names)[k] == Bound(names[k], CollectorStage)
  {
    if names != [] {
      CollectorEventsAt(names[1..]);
    }
  }

  lemma PathOrdered(items: seq<(string, Annotation)>, attempt: (string, Annotation) -> Attempt, st: St)
    requires st.failure.None? && Ordered(st.trace) && RanksAtMost(st.trace, 1)
    ensures Ordered(PathFrom(items, attempt, st, 0).trace) && RanksAtMost(PathFrom(items, attempt, st, 0).trace, 1)
  {
    var m := FirstFailure(items, attempt, 0);
    StampAt(items[0..m], PathStage);
    AppendOrdered(st.trace, Stamp(items[0..m], PathStage), 1);
  }

  lemma QueryOrdered(items: seq<(string, Annotation)>, read: (string, Annotation) -> QueryRead, st: St)
    requires st.failure.None? && Ordered(st.trace) && RanksAtMost(st.trace, 2)
    ensures Ordered(QueryFrom(items, read, st, 0).trace) && RanksAtMost(QueryFrom(items, read, st, 0).trace, 2)
  {
    var m := FirstQueryFailure(items, read, 0);
    QueryEventsAt(items[0..m], read);
    AppendOrdered(st.trace, QueryEvents(items[0..m], read), 2);
  }

  lemma DepOrdered(items: seq<(string, Dep)>, produce: (string, Dep) -> Attempt, st: St)
    requires st.failure.None? && Ordered(st.trace) && RanksAtMost(st.trace, 3)
    ensures Ordered(DepFrom(items, produce, st, 0).trace) && RanksAtMost(DepFrom(items, produce, st, 0).trace, 3)
  {
    var m := FirstFailure(items, produce, 0);
    StampAt(items[0..m], DependencyStage);
    AppendOrdered(st.trace, Stamp(items[0..m], DependencyStage), 3);
  }

  lemma CollectOrdered(params: seq<Param>, st: St)
    requires st.failure.None? && Ordered(st.trace) && RanksAtMost(st.trace, 4)
    ensures Ordered(CollectFrom(params, st, 0).trace) && RanksAtMost(CollectFrom(params, st, 0).trace, 4)
  {
    var found := CollectorScan(params[0..], st.kwargs.Keys);
    CollectorEventsAt(found);
    AppendOrdered(st.trace, CollectorEvents(found), 4);
  }

  lemma BodyOrdered(body: Option<(string, nat)>, raw: seq<bv8>, decode: (nat, seq<bv8>) -> Attempt, st: St)
    requires st.failure.None? && Ordered(st.trace) && RanksAtMost(st.trace, 5)
    ensures Ordered(BodyStep(body, raw, decode, st).trace) && RanksAtMost(BodyStep(body, raw, decode, st).trace, 5)
  {
    if body.Some? && decode(body.value.1, raw).Done? {
      AppendOrdered(st.trace, [Bound(body.value.0, BodyStage)], 5);
    }
  }

  lemma UrlOrdered(plan: Plan, req: Request, env: Env)
    ensures Ordered(BindUrl(plan, req, env).trace) && RanksAtMost(BindUrl(plan, req, env).trace, 2)
  {
    var s0 := Start(plan.func.params);
    var s1 := PathFrom(plan.pathParams.items, PathCaster(req.path, env.cast), s0, 0);
    PathOrdered(plan.pathParams.items, PathCaster(req.path, env.cast), s0);
    if s1.failure.None? {
      QueryOrdered(plan.queryParams.items, QueryReader(plan.func.params, req.query, env.cast), s1);
    }
  }

  lemma RestOrdered(plan: Plan, req: Request, env: Env, s2: St)
    requires s2.failure.None? && Ordered(s2.trace) && RanksAtMost(s2.trace, 3)
    ensures Ordered(BindRest(plan, req, env, s2).trace) && RanksAtMost(BindRest(plan, req, env, s2).trace, 5)
  {
    var s3 := DepFrom(plan.deps.items, env.produce, s2, 0);
    DepOrdered(plan.deps.items, env.produce, s2);
    if s3.failure.None? {
      var s4 := CollectFrom(plan.func.params, s3, 0);
      CollectOrdered(plan.func.params, s3);
      BodyOrdered(plan.body, req.body, env.decode, s4);
    }
  }

  /** Binding logs the Request, then path, query, dependency, collector and body events, in that order. */
  lemma PrepareOrdered(plan: Plan, req: Request, env: Env)
    ensures Ordered(Prepare(plan, req, env).trace) && RanksAtMost(Prepare(plan, req, env).trace, 5)
  {
    var s2 := BindUrl(plan, req, env);
    UrlOrdered(plan, req, env);
    if s2.failure.None? {
      RestOrdered(plan, req, env, s2);
    }
  }

  /**
   * A failing path cast skips every later step: the exception is the cast's,
   * only the Request and path events are logged, and nothing is acquired.
   */
  lemma PathFailureStops(plan: Plan, req: Request, env: Env)
    requires PathFrom(plan.pathParams.items, PathCaster(req.path, env.cast), Start(plan.func.params), 0).failure.Some?
    ensures var s := Prepare(plan, req, env);
      && s.failure == PathFrom(plan.pathParams.items, PathCaster(req.path, env.cast), Start(plan.func.params), 0).failure
      && RanksAtMost(s.trace, StageRank(PathStage)) && s.cleanup == [] && s.collectors == []
  {
    var s0 := Start(plan.func.params);
    PathOrdered(plan.pathParams.items, PathCaster(req.path, env.cast), s0);
  }

  /** A failing query read skips dependencies, collectors, body and handler. */
  lemma QueryFailureStops(plan: Plan, req: Request, env: Env)
    requires PathFrom(plan.pathParams.items, PathCaster(req.path, env.cast), Start(plan.func.params), 0).failure.None?
    requires BindUrl(plan, req, env).failure.Some?
    ensures var s := Prepare(plan, req, env);
      && s.failure == BindUrl(plan, req, env).failure
      && RanksAtMost(s.trace, StageRank(QueryStage)) && s.cleanup == [] && s.collectors == []
  {
    UrlOrdered(plan, req, env);
    UrlAcquiresNothing(plan, req, env);
    var s0 := Start(plan.func.params);
    var s1 := PathFrom(plan.pathParams.items, PathCaster(req.path, env.cast), s0, 0);
    var s2 := QueryFrom(plan.queryParams.items, QueryReader(plan.func.params, req.query, env.cast), s1, 0);
    assert s2.collectors == [];
  }

  /** A failing dependency skips collectors, body and handler; the generators acquired so far stay listed for cleanup. */
  lemma DependencyFailureStops(plan: Plan, req: Request, env: Env)
    requires BindUrl(plan, req, env).failure.None?
    requires DepFrom(plan.deps.items, env.produce, BindUrl(plan, req, env), 0).failure.Some?
    ensures var s := Prepare(plan, req, env);
      && s.failure == DepFrom(plan.deps.items, env.produce, BindUrl(plan, req, env), 0).failure
      && RanksAtMost(s.trace, StageRank(DependencyStage)) && s.collectors == []
  {
    PrepareAfterDepFailure(plan, req, env);
    DepPhaseFacts(plan, req, env);
  }

  lemma DepPhaseFacts(plan: Plan, req: Request, env: Env)
    requires BindUrl(plan, req, env).failure.None?
    ensures var s3 := DepFrom(plan.deps.items, env.produce, BindUrl(plan, req, env), 0);
      RanksAtMost(s3.trace, StageRank(DependencyStage)) && s3.collectors == []
  {
    UrlOrdered(plan, req, env);
    UrlCollectsNothing(plan, req, env);
    DepFailureFacts(plan.deps.items, env.produce, BindUrl(plan, req, env));
  }

  lemma PrepareAfterDepFailure(plan: Plan, req: Request, env: Env)
    requires BindUrl(plan, req, env).failure.None?
    requires DepFrom(plan.deps.items, env.produce, BindUrl(plan, req, env), 0).failure.Some?
    ensures Prepare(plan, req, env) == DepFrom(plan.deps.items, env.produce, BindUrl(plan, req, env), 0)
  {
  }

  lemma DepFailureFacts(items: seq<(string, Dep)>, produce: (string, Dep) -> Attempt, s2: St)
    requires s2.failure.None? && Ordered(s2.trace) && RanksAtMost(s2.trace, 2) && s2.collectors == []
    ensures RanksAtMost(DepFrom(items, produce, s2, 0).trace, 3) && DepFrom(items, produce, s2, 0).collectors == []
  {
    DepOrdered(items, produce, s2);
  }

  lemma UrlCollectsNothing(plan: Plan, req: Request, env: Env)
    ensures BindUrl(plan, req, env).collectors == []
  {
    var s1 := PathFrom(plan.pathParams.items, PathCaster(req.path, env.cast), Start(plan.func.params), 0);
    if s1.failure.None? {
      var s2 := QueryFrom(plan.queryParams.items, QueryReader(plan.func.params, req.query, env.cast), s1, 0);
    }
  }

  /** The log up to the handler call: the binding log, then the call if binding raised nothing. */
  function Called(s: St): seq<Event> {
    if s.failure.Some? then s.trace else s.trace + [HandlerCalled(s.kwargs)]
  }

  /** Before the `finally`, the log holds no close, and the handler call only right after binding. */
  lemma CalledEvents(s: St)
    requires RanksAtMost(s.trace, 5)
    ensures forall k :: 0 <= k < |Called(s)| ==> !Called(s)[k].Closed? && (Called(s)[k].HandlerCalled? <==> k == |s.trace|)
  {
    forall k | 0 <= k < |Called(s)| ensures !Called(s)[k].Closed? && (Called(s)[k].HandlerCalled? <==> k == |s.trace|) {
      if k < |s.trace| {
        assert Called(s)[k] == s.trace[k];
        assert Rank(s.trace[k]) <= 5;
      }
    }
  }

  lemma FinishOrdered(s: St, raises: string -> bool)
    requires Ordered(s.trace) && RanksAtMost(s.trace, 5)
    ensures Ordered(Called(s) + Closes(s.cleanup, raises))
  {
    if s.failure.None? {
      AppendOrdered(s.trace, [HandlerCalled(s.kwargs)], 6);
    }
    assert RanksAtMost(Called(s), 7);
    AppendOrdered(Called(s), Closes(s.cleanup, raises), 7);
  }

  /**
   * The whole log follows the code: the Request, path casts, query reads,
   * dependencies, collectors, the body, the handler call, then the closes of
   * the `finally`.
   */
  lemma TraceFollowsTheCode(plan: Plan, req: Request, env: Env)
    ensures Ordered(Handle(plan, req, env).trace)
  {
    PrepareOrdered(plan, req, env);
    FinishOrdered(Prepare(plan, req, env), env.closeRaises);
  }

  /**
   * The handler is called exactly when binding raised nothing, once, with
   * the complete `kwargs`; otherwise the binding exception is what escapes.
   */
  lemma HandlerRunsOnlyWhenBound(plan: Plan, req: Request, env: Env)
    ensures var s := Prepare(plan, req, env); var h := Handle(plan, req, env);
      && (s.failure.Some? ==>
            h.result == Err(s.failure.value) && forall k :: 0 <= k < |h.trace| ==> !h.trace[k].HandlerCalled?)
      && (s.failure.None? ==>
            && |s.trace| < |h.trace| && h.trace[|s.trace|] == HandlerCalled(s.kwargs)
            && forall k :: 0 <= k < |h.trace| && k != |s.trace| ==> !h.trace[k].HandlerCalled?)
  {
    var s := Prepare(plan, req, env);
    PrepareRanks(plan, req, env);
    CalledOnce(s, Closes(s.cleanup, env.closeRaises), Handle(plan, req, env));
  }

  lemma PrepareRanks(plan: Plan, req: Request, env: Env)
    ensures RanksAtMost(Prepare(plan, req, env).trace, 5)
  {
    PrepareOrdered(plan, req, env);
  }

  /** A log of binding events, the call if binding succeeded, then closes, holds at most that one call. */
  lemma CalledOnce(s: St, c: seq<Event>, h: Served)
    requires RanksAtMost(s.trace, 5)
    requires forall k :: 0 <= k < |c| ==> c[k].Closed?
    requires h.trace == Called(s) + c
    requires s.failure.Some? ==> h.result == Err(s.failure.value)
    ensures s.failure.Some? ==>
      h.result == Err(s.failure.value) && forall k :: 0 <= k < |h.trace| ==> !h.trace[k].HandlerCalled?
    ensures s.failure.None? ==>
      && |s.trace| < |h.trace| && h.trace[|s.trace|] == HandlerCalled(s.kwargs)
      && forall k :: 0 <= k < |h.trace| && k != |s.trace| ==> !h.trace[k].HandlerCalled?
  {
    CalledEvents(s);
    var t := Called(s) + c;
    forall k | 0 <= k < |t| ensures t[k].HandlerCalled? <==> k == |s.trace| && s.failure.None? {
      if k < |Called(s)| {
        assert t[k] == Called(s)[k];
      } else {
        assert t[k] == c[k - |Called(s)|];
      }
    }
  }

  // ---- Cleanup ----

  /** Names closed by the log, in order. */
  function ClosedNames(t: seq<Event>): seq<string> {
    if t == [] then []
    else (if t[0].Closed? then [t[0].name] else []) + ClosedNames(t[1..])
  }

  lemma {:induction false} ClosedNamesOfCloses(names: seq<string>, raises: string -> bool)
    ensures ClosedNames(Closes(names, raises)) == Reversed(names)
  {
    if names != [] {
      var rest := Closes(names[1..], raises);
      ClosedNamesOfCloses(names[1..], raises);
      ClosedNamesAppend(rest, [Closed(names[0], raises(names[0]))]);
      assert ClosedNames([Closed(names[0], raises(names[0]))]) == [names[0]];
    }
  }

  lemma {:induction false} ClosedNamesAppend(t: seq<Event>, u: seq<Event>)
    ensures ClosedNames(t + u) == ClosedNames(t) + ClosedNames(u)
  {
    if t != [] {
      assert (t + u)[1..] == t[1..] + u;
      ClosedNamesAppend(t[1..], u);
    } else {
      assert t + u == u;
    }
  }

  lemma {:induction false} NoClosedNames(t: seq<Event>)
    requires forall k :: 0 <= k < |t| ==> !t[k].Closed?
    ensures ClosedNames(t) == []
  {
    if t != [] {
      NoClosedNames(t[1..]);
    }
  }

  function Reversed(s: seq<string>): (r: seq<string>)
    ensures |r| == |s|
    ensures forall k :: 0 <= k < |s| ==> r[k] == s[|s| - 1 - k]
  {
    if s == [] then [] else Reversed(s[1..]) + [s[0]]
  }

  /** The closes of the `finally` end the log and are its only closes. */
  lemma FinishCloses(s: St, raises: string -> bool)
    requires RanksAtMost(s.trace, 5)
    ensures var t := Called(s) + Closes(s.cleanup, raises);
      && ClosedNames(t) == Reversed(s.cleanup)
      && |s.cleanup| <= |t| && t[|t| - |s.cleanup|..] == Closes(s.cleanup, raises)
  {
    CalledEvents(s);
    NoClosedNames(Called(s));
    ClosedNamesAppend(Called(s), Closes(s.cleanup, raises));
    ClosedNamesOfCloses(s.cleanup, raises);
    var t := Called(s) + Closes(s.cleanup, raises);
    assert t[|t| - |s.cleanup|..] == Closes(s.cleanup, raises);
  }

  lemma UrlAcquiresNothing(plan: Plan, req: Request, env: Env)
    ensures BindUrl(plan, req, env).cleanup == []
  {
    var s1 := PathFrom(plan.pathParams.items, PathCaster(req.path, env.cast), Start(plan.func.params), 0);
    if s1.failure.None? {
      var s2 := QueryFrom(plan.queryParams.items, QueryReader(plan.func.params, req.query, env.cast), s1, 0);
    }
  }

  lemma RestAcquired(plan: Plan, req: Request, env: Env, s2: St) returns (m: nat)
    requires s2.failure.None?
    ensures m == FirstFailure(plan.deps.items, env.produce, 0)
    ensures m < |plan.deps.items| ==> BindRest(plan, req, env, s2).failure.Some?
    ensures BindRest(plan, req, env, s2).cleanup == s2.cleanup + GenNames(plan.deps.items[..m])
    ensures forall k :: 0 <= k < m ==> Bound(plan.deps.items[k].0, DependencyStage) in BindRest(plan, req, env, s2).trace
  {
    var deps := plan.deps.items;
    var s3 := DepFrom(deps, env.produce, s2, 0);
    m := FirstFailure(deps, env.produce, 0);
    assert deps[0..m] == deps[..m];
    StampAt(deps[..m], DependencyStage);
    assert s3.trace == s2.trace + Stamp(deps[..m], DependencyStage);
    forall k | 0 <= k < m ensures Bound(deps[k].0, DependencyStage) in s3.trace {
      assert s3.trace[|s2.trace| + k] == Bound(deps[k].0, DependencyStage);
    }
    if s3.failure.None? {
      var s4 := CollectFrom(plan.func.params, s3, 0);
      assert s4.trace == s3.trace + CollectorEvents(CollectorScan(plan.func.params[0..], s3.kwargs.Keys));
      var s5 := BodyStep(plan.body, req.body, env.decode, s4);
      assert s5.trace == s4.trace || s5.trace == s4.trace + [Bound(plan.body.value.0, BodyStage)];
    }
  }

  /**
   * How many dependency entries were bound: the generator names among them
   * form the cleanup list, and each left its event in the binding log.
   */
  lemma DependenciesAcquired(plan: Plan, req: Request, env: Env) returns (m: nat)
    ensures m == DepsReached(plan, req, env)
    ensures m < |plan.deps.items| ==> Prepare(plan, req, env).failure.Some?
    ensures Prepare(plan, req, env).cleanup == GenNames(plan.deps.items[..m])
    ensures forall k :: 0 <= k < m ==> Bound(plan.deps.items[k].0, DependencyStage) in Prepare(plan, req, env).trace
  {
    var s2 := BindUrl(plan, req, env);
    UrlAcquiresNothing(plan, req, env);
    if s2.failure.Some? {
      return 0;
    }
    m := RestAcquired(plan, req, env, s2);
  }

  /**
   * How far the dependency loop got: nowhere when a URL phase failed, and
   * otherwise up to, not including, the first producer that raised.
   */
  function DepsReached(plan: Plan, req: Request, env: Env): (m: nat)
    ensures m <= |plan.deps.items|
    ensures forall k :: 0 <= k < m ==> env.produce(plan.deps.items[k].0, plan.deps.items[k].1).Done?
    ensures m < |plan.deps.items| ==>
      BindUrl(plan, req, env).failure.Some? || env.produce(plan.deps.items[m].0, plan.deps.items[m].1).Raise?
  {
    if BindUrl(plan, req, env).failure.Some? then 0 else FirstFailure(plan.deps.items, env.produce, 0)
  }

  /**
   * Whatever the outcome, the generators closed are exactly the
   * async-generator dependencies whose producer ran and yielded, in reverse
   * order of acquisition, and the closes come last. Those dependencies are
   * the prefix the dependency loop reached: each one before it yielded and
   * was bound, and when the loop stopped short, binding failed there, so no
   * later generator was ever advanced.
   */
  lemma GeneratorsClosedNewestFirst(plan: Plan, req: Request, env: Env)
    ensures var s := Prepare(plan, req, env); var t := Handle(plan, req, env).trace; var deps := plan.deps.items;
      var m := DepsReached(plan, req, env);
        && (forall k :: 0 <= k < m ==> Bound(deps[k].0, DependencyStage) in t)
        && (m < |deps| ==> s.failure.Some?)
        && ClosedNames(t) == Reversed(GenNames(deps[..m]))
        && s.cleanup == GenNames(deps[..m])
        && |s.cleanup| <= |t| && t[|t| - |s.cleanup|..] == Closes(s.cleanup, env.closeRaises)
  {
    PrepareRanks(plan, req, env);
    var m := DependenciesAcquired(plan, req, env);
    FinishAcquired(Prepare(plan, req, env), env.closeRaises, plan.deps.items, m);
  }

  lemma FinishAcquired(s: St, raises: string -> bool, deps: seq<(string, Dep)>, m: nat)
    requires RanksAtMost(s.trace, 5) && m <= |deps| && s.cleanup == GenNames(deps[..m])
    requires forall k :: 0 <= k < m ==> Bound(deps[k].0, DependencyStage) in s.trace
    ensures var t := Called(s) + Closes(s.cleanup, raises);
        && (forall k :: 0 <= k < m ==> Bound(deps[k].0, DependencyStage) in t)
        && ClosedNames(t) == Reversed(GenNames(deps[..m]))
        && |s.cleanup| <= |t| && t[|t| - |s.cleanup|..] == Closes(s.cleanup, raises)
  {
    FinishCloses(s, raises);
    var t := Called(s) + Closes(s.cleanup, raises);
    assert forall x :: x in s.trace ==> x in t;
  }

  /** Only async-generator dependencies are ever closed. */
  lemma OnlyGeneratorsClosed(plan: Plan, req: Request, env: Env)
    ensures forall n :: n in ClosedNames(Handle(plan, req, env).trace) ==>
      exists k :: 0 <= k < |plan.deps.items| && plan.deps.items[k].0 == n && plan.deps.items[k].1.kind == AsyncGen
  {
    var deps := plan.deps.items;
    var c := ClosedNames(Handle(plan, req, env).trace);
    GeneratorsClosedNewestFirst(plan, req, env);
    ReversedGenerators(deps, DepsReached(plan, req, env), c);
  }

  lemma ReversedGenerators(deps: seq<(string, Dep)>, m: nat, c: seq<string>)
    requires m <= |deps| && c == Reversed(GenNames(deps[..m]))
    ensures forall n :: n in c ==> exists k :: 0 <= k < |deps| && deps[k].0 == n && deps[k].1.kind == AsyncGen
  {
    var g := GenNames(deps[..m]);
    GenNamesIn(deps[..m]);
    forall n | n in c ensures exists k :: 0 <= k < |deps| && deps[k].0 == n && deps[k].1.kind == AsyncGen {
      var i :| 0 <= i < |c| && c[i] == n;
      assert g[|g| - 1 - i] == n;
      assert n in g;
      var k :| 0 <= k < m && deps[..m][k].0 == n && deps[..m][k].1.kind == AsyncGen;
      assert deps[k] == deps[..m][k];
    }
  }

  /** With distinct dependency names (as every plan has), no generator is closed twice. */
  lemma {:induction false} GenNamesDistinct(items: seq<(string, Dep)>)
    requires Valid(Dict(items))
    ensures forall i, j :: 0 <= i < j < |GenNames(items)| ==> GenNames(items)[i] != GenNames(items)[j]
  {
    if items != [] {
      var rest := items[1..];
      assert Valid(Dict(rest)) by {
        forall i, j | 0 <= i < j < |rest| ensures rest[i].0 != rest[j].0 {
          assert rest[i] == items[i + 1] && rest[j] == items[j + 1];
        }
      }
      GenNamesDistinct(rest);
      GenNamesIn(rest);
      var g := GenNames(items);
      if items[0].1.kind == AsyncGen {
        assert g == [items[0].0] + GenNames(rest);
        forall j | 0 < j < |g| ensures g[0] != g[j] {
          assert g[j] == GenNames(rest)[j - 1];
          assert g[j] in GenNames(rest);
          var k :| 0 <= k < |rest| && rest[k].0 == g[j] && rest[k].1.kind == AsyncGen;
          assert rest[k] == items[k + 1];
        }
        forall i, j | 0 < i < j < |g| ensures g[i] != g[j] {
          assert g[i] == GenNames(rest)[i - 1] && g[j] == GenNames(rest)[j - 1];
        }
      } else {
        assert g == GenNames(rest);
      }
    }
  }

  lemma ClosedOnce(plan: Plan, req: Request, env: Env)
    requires Valid(plan.deps)
    ensures var c := ClosedNames(Handle(plan, req, env).trace);
      forall i, j :: 0 <= i < j < |c| ==> c[i] != c[j]
  {
    var deps := plan.deps.items;
    var c := ClosedNames(Handle(plan, req, env).trace);
    GeneratorsClosedNewestFirst(plan, req, env);
    ReversedGeneratorsDistinct(deps, DepsReached(plan, req, env), c);
  }

  lemma ReversedGeneratorsDistinct(deps: seq<(string, Dep)>, m: nat, c: seq<string>)
    requires Valid(Dict(deps)) && m <= |deps| && c == Reversed(GenNames(deps[..m]))
    ensures forall i, j :: 0 <= i < j < |c| ==> c[i] != c[j]
  {
    assert Valid(Dict(deps[..m])) by {
      forall i, j | 0 <= i < j < m ensures deps[..m][i].0 != deps[..m][j].0 {
        assert deps[..m][i] == deps[i] && deps[..m][j] == deps[j];
      }
    }
    GenNamesDistinct(deps[..m]);
    var g := GenNames(deps[..m]);
    forall i, j | 0 <= i < j < |c| ensures c[i] != c[j] {
      assert c[i] == g[|g| - 1 - i] && c[j] == g[|g| - 1 - j];
    }
  }

  /** Swapping which closes raise relabels the closes and leaves everything before them alone. */
  lemma SwapRaises(c: seq<Event>, names: seq<string>, r1: string -> bool, r2: string -> bool)
    requires forall k :: 0 <= k < |c| ==> !c[k].Closed?
    ensures var t1 := c + Closes(names, r1); var t2 := c + Closes(names, r2);
      && |t1| == |t2|
      && forall k :: 0 <= k < |t1| ==> t2[k] == (if t1[k].Closed? then Closed(t1[k].name, r2(t1[k].name)) else t1[k])
  {
    var t1 := c + Closes(names, r1);
    var t2 := c + Closes(names, r2);
    forall k | 0 <= k < |t1| ensures t2[k] == (if t1[k].Closed? then Closed(t1[k].name, r2(t1[k].name)) else t1[k]) {
      if k < |c| {
        assert t1[k] == c[k] && t2[k] == c[k];
      } else {
        assert t1[k] == Closes(names, r1)[k - |c|] && t2[k] == Closes(names, r2)[k - |c|];
      }
    }
  }

  /**
   * A close that raises is swallowed: changing which closes raise changes
   * only their events, never the response or anything else the endpoint did.
   */
  lemma CloseErrorsSwallowed(plan: Plan, req: Request, env: Env, raises: string -> bool)
    ensures var h1 := Handle(plan, req, env); var h2 := Handle(plan, req, env.(closeRaises := raises));
      && h1.result == h2.result
      && |h1.trace| == |h2.trace|
      && forall k :: 0 <= k < |h1.trace| ==>
           h2.trace[k] == (if h1.trace[k].Closed? then Closed(h1.trace[k].name, raises(h1.trace[k].name)) else h1.trace[k])
  {
    var env2 := env.(closeRaises := raises);
    var s := Prepare(plan, req, env);
    BindingIgnoresCloses(plan, req, env, raises);
    PrepareRanks(plan, req, env);
    SwapServed(s, Handle(plan, req, env), Handle(plan, req, env2), env.closeRaises, raises);
  }

  /** Two runs that bound the same way and differ only in their closes differ only in the closes' events. */
  lemma SwapServed(s: St, h1: Served, h2: Served, r1: string -> bool, r2: string -> bool)
    requires RanksAtMost(s.trace, 5)
    requires h1.trace == Called(s) + Closes(s.cleanup, r1)
    requires h2.trace == Called(s) + Closes(s.cleanup, r2)
    ensures |h1.trace| == |h2.trace|
    ensures forall k :: 0 <= k < |h1.trace| ==>
      h2.trace[k] == (if h1.trace[k].Closed? then Closed(h1.trace[k].name, r2(h1.trace[k].name)) else h1.trace[k])
  {
    CalledEvents(s);
    SwapRaises(Called(s), s.cleanup, r1, r2);
  }

  lemma BindingIgnoresCloses(plan: Plan, req: Request, env: Env, raises: string -> bool)
    ensures Prepare(plan, req, env.(closeRaises := raises)) == Prepare(plan, req, env)
  {
    var env2 := env.(closeRaises := raises);
    var s2 := BindUrl(plan, req, env);
    assert BindUrl(plan, req, env2) == s2;
    if s2.failure.None? {
      assert BindRest(plan, req, env2, s2) == BindRest(plan, req, env, s2);
    }
  }

  // ---- Casts ----

  /** A `bool` query value never fails and is true exactly for "true" in any mix of cases. */
  lemma BoolQueryNeverFails(params: seq<Param>, name: string, query: map<string, string>, cast: Caster)
    requires name in query
    ensures var q := QueryCast(params, name, Bool, query, cast); var raw := query[name];
      && q.QBound?
      && q.v == Flag(|raw| == 4 && (raw[0] == 't' || raw[0] == 'T') && (raw[1] == 'r' || raw[1] == 'R')
                                && (raw[2] == 'u' || raw[2] == 'U') && (raw[3] == 'e' || raw[3] == 'E'))
  {
    LowerIsTrue(query[name]);
  }

  /**
   * A `bool` path parameter is Python truthiness, not the query rule: any
   * non-empty text, "false" included, gives True.
   */
  lemma BoolPathIsTruthiness(name: string, path: map<string, string>, cast: Caster)
    requires name in path && path[name] == "false"
    ensures PathCast(name, Bool, path, cast) == Done(Flag(true))
    ensures QueryCast([], name, Bool, path, cast) == QBound(Flag(false))
  {
    var f := "false";
    assert |f| == 5;
  }

  /**
   * A request whose binding fails is answered by the exception handlers
   * with that exception's response, and the handler never runs.
   */
  lemma FailedBindingServed(plan: Plan, req: Request, env: Env)
    requires Prepare(plan, req, env).failure.Some?
    ensures Serve(plan, req, env) == ErrorResponse(Prepare(plan, req, env).failure.value)
    ensures forall k :: 0 <= k < |Handle(plan, req, env).trace| ==> !Handle(plan, req, env).trace[k].HandlerCalled?
  {
    HandlerRunsOnlyWhenBound(plan, req, env);
  }

  /**
   * A first path value whose cast raises ValueError is served as
   * 422 {"error": "Invalid path: name"}, and the handler never runs.
   */
  lemma InvalidPathServed(plan: Plan, req: Request, env: Env)
    requires plan.pathParams.items != []
    requires var (n, c) := plan.pathParams.items[0];
      var raw := if n in req.path then Some(req.path[n]) else None;
      && c != Str && c != Bool && c != BgTasks
      && env.cast(c, raw).Raise? && env.cast(c, raw).e.ValueErrorExc?
    ensures Serve(plan, req, env).status == 422
    ensures Serve(plan, req, env).content == ErrorObject([("error", "Invalid path: " + plan.pathParams.items[0].0)])
    ensures forall k :: 0 <= k < |Handle(plan, req, env).trace| ==> !Handle(plan, req, env).trace[k].HandlerCalled?
  {
    var items := plan.pathParams.items;
    var attempt := PathCaster(req.path, env.cast);
    assert attempt(items[0].0, items[0].1) == Raise(HttpExc(422, "Invalid path: " + items[0].0));
    assert FirstFailure(items, attempt, 0) == 0;
    PathFailureStops(plan, req, env);
    FailedBindingServed(plan, req, env);
  }
}
