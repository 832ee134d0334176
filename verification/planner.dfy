/**
 * The URL-aware planner rewrite `prepend_web_ingestion_step`: when a query
 * contains a URL, a WEB_INGESTION step numbered `step_counter_start` is put in
 * front of the plan, every existing step and every dependency reference is
 * renumbered by one, and RETRIEVAL steps that had no dependencies are made to
 * wait for the new step.
 */
module Planner {
  import opened Wrappers
  import opened UrlDetection
  import StepIds

  /** The kind of a plan step. `WebIngestion` is the planner's own addition to
      the step types defined elsewhere; those are `Retrieval` and the rest,
      which the rewrite never looks into. */
  datatype StepKind = Retrieval | WebIngestion | OtherKind(name: string)

  datatype ExecutionMode = Sequential | Parallel

  /** The scheduling fields a rewrite copies through unchanged. */
  datatype Scheduling = Scheduling(
    estimatedTimeMs: int,
    estimatedCost: real,
    priority: int,
    required: bool,
    metadata: map<string, string>)

  /** A plan step. `id` is the number `n` of the id string `step_<n>` (see
      `StepIds.StepName`); `dependencies` are step numbers too. */
  datatype Step = Step(
    id: nat,
    kind: StepKind,
    description: string,
    parameters: map<string, string>,
    dependencies: seq<nat>,
    mode: ExecutionMode,
    scheduling: Scheduling)

  /** The pair the rewrite returns: the plan and the id of the inserted step,
      `None` when no step was inserted. */
  datatype Rewrite = Rewrite(plan: seq<Step>, webStepId: Option<nat>)

  // ---------------------------------------------------------------------
  // The plan as a graph
  // ---------------------------------------------------------------------

  /** Some step with id `a` lists `b` among its dependencies. */
  ghost predicate DependsOn(plan: seq<Step>, a: nat, b: nat)
  {
    exists i :: 0 <= i < |plan| && plan[i].id == a && b in plan[i].dependencies
  }

  /** `p` walks along dependency edges. */
  ghost predicate IsPath(plan: seq<Step>, p: seq<nat>)
  {
    forall k :: 0 <= k < |p| - 1 ==> DependsOn(plan, p[k], p[k + 1])
  }

  /** No walk along dependency edges returns to where it started. */
  ghost predicate Acyclic(plan: seq<Step>)
  {
    forall p: seq<nat> :: 2 <= |p| && IsPath(plan, p) ==> p[0] != p[|p| - 1]
  }

  ghost predicate HasId(plan: seq<Step>, d: nat)
  {
    exists j :: 0 <= j < |plan| && plan[j].id == d
  }

  ghost predicate UniqueIds(plan: seq<Step>)
  {
    forall i, j :: 0 <= i < j < |plan| ==> plan[i].id != plan[j].id
  }

  /** Every dependency names a step of the same plan. */
  ghost predicate DependenciesResolve(plan: seq<Step>)
  {
    forall i, d :: 0 <= i < |plan| && d in plan[i].dependencies ==> HasId(plan, d)
  }

  /** Distinct step numbers are distinct `step_<n>` strings, so a plan
      with unique numbers has unique id strings. */
  lemma UniqueIdsAreUniqueNames(plan: seq<Step>)
    requires UniqueIds(plan)
    ensures forall i, j :: 0 <= i < j < |plan| ==> StepIds.StepName(plan[i].id) != StepIds.StepName(plan[j].id)
  {
    forall i, j | 0 <= i < j < |plan|
      ensures StepIds.StepName(plan[i].id) != StepIds.StepName(plan[j].id)
    {
      StepIds.StepNameInjective(plan[i].id, plan[j].id);
    }
  }

  /** Every id was minted at or after `n`. */
  ghost predicate IdsFrom(plan: seq<Step>, n: nat)
  {
    forall i :: 0 <= i < |plan| ==> plan[i].id >= n
  }

  // ---------------------------------------------------------------------
  // The rewrite
  // ---------------------------------------------------------------------

  /** `_bump`: the next step number. */
  function Bump(id: nat): nat
  {
    id + 1
  }

  /** Every dependency moved to its bumped number. */
  function BumpAll(deps: seq<nat>): (r: seq<nat>)
    ensures |r| == |deps| && forall k :: 0 <= k < |deps| ==> r[k] == Bump(deps[k])
  {
    seq(|deps|, k requires 0 <= k < |deps| => Bump(deps[k]))
  }

  /** A RETRIEVAL step that waits for nothing. */
  predicate IsRetrievalRoot(s: Step)
  {
    s.kind == Retrieval && s.dependencies == []
  }

  /** One iteration of the renumbering loop: a new id, dependencies either
      rewired to the web step or renumbered, every other field as it was. */
  function RenumberStep(s: Step, webId: nat): Step
  {
    s.(id := Bump(s.id),
       dependencies := if IsRetrievalRoot(s) then [webId] else BumpAll(s.dependencies))
  }

  /** The list `renumbered` that the loop builds. */
  function Renumbered(steps: seq<Step>, webId: nat): (r: seq<Step>)
    ensures |r| == |steps|
  {
    seq(|steps|, i requires 0 <= i < |steps| => RenumberStep(steps[i], webId))
  }

  /** The inserted step. The scheduling fields it does not set come from the
      step constructor's own defaults, which are passed in. */
  function WebStep(url: string, webId: nat, defaults: Scheduling): Step
  {
    Step(webId, WebIngestion, "Ingest web content from " + url, map["url" := url], [], Sequential, defaults)
  }

  /** The meaning of `prepend_web_ingestion_step(query, steps, counterStart)`. */
  function Prepended(query: string, steps: seq<Step>, counterStart: nat, defaults: Scheduling): Rewrite
  {
    match DetectUrl(query)
    case None => Rewrite(steps, None)
    case Some(url) => Rewrite([WebStep(url, counterStart, defaults)] + Renumbered(steps, counterStart), Some(counterStart))
  }

  /** The rewrite as the source runs it: detect, build the web step, then one
      loop over the input that appends a renumbered copy of each step. */
  method PrependWebIngestionStep(query: string, steps: seq<Step>, counterStart: nat, defaults: Scheduling)
    returns (plan: seq<Step>, webStepId: Option<nat>)
    ensures Rewrite(plan, webStepId) == Prepended(query, steps, counterStart, defaults)
  {
    var urlMatch := DetectUrl(query);
    if urlMatch.None? {
      return steps, None;
    }
    var url := urlMatch.value;
    var webId := counterStart;
    var webStep := WebStep(url, webId, defaults);
    var renumbered: seq<Step> := [];
    var i := 0;
    while i < |steps|
      invariant 0 <= i <= |steps|
      invariant |renumbered| == i
      invariant forall k :: 0 <= k < i ==> renumbered[k] == RenumberStep(steps[k], webId)
    {
      var step := steps[i];
      var deps := if step.kind == Retrieval && step.dependencies == [] then [webId] else BumpAll(step.dependencies);
      assert step.(id := Bump(step.id), dependencies := deps) == RenumberStep(step, webId);
      renumbered := renumbered + [step.(id := Bump(step.id), dependencies := deps)];
      i := i + 1;
    }
    assert renumbered == Renumbered(steps, webId);
    plan := [webStep] + renumbered;
    webStepId := Some(webId);
  }

  // ---------------------------------------------------------------------
  // What the rewrite promises
  // ---------------------------------------------------------------------

  /** Without a URL in the query the plan comes back as it was, and no step
      id; with one, the returned id is `counterStart`. */
  lemma NoUrlLeavesPlanUnchanged(query: string, steps: seq<Step>, n: nat, defaults: Scheduling)
    ensures Prepended(query, steps, n, defaults).webStepId.None? <==> !ContainsUrl(query)
    ensures !ContainsUrl(query) ==> Prepended(query, steps, n, defaults).plan == steps
    ensures ContainsUrl(query) ==> Prepended(query, steps, n, defaults).webStepId == Some(n)
  {
  }

  /** With a URL, the first step is the web step: id `n`, kind WEB_INGESTION,
      no dependencies, sequential, `{"url": url}` with the URL detected. */
  lemma WebStepComesFirst(query: string, steps: seq<Step>, n: nat, defaults: Scheduling)
    requires ContainsUrl(query)
    ensures var r := Prepended(query, steps, n, defaults);
      && |r.plan| == |steps| + 1
      && r.plan[0].id == n
      && r.plan[0].kind == WebIngestion
      && r.plan[0].dependencies == []
      && r.plan[0].mode == Sequential
      && r.plan[0].parameters == map["url" := DetectUrl(query).value]
  {
  }

  /** With a URL, the input steps follow in order, each numbered one higher,
      everything but the dependencies copied; a RETRIEVAL step without
      dependencies now depends on exactly the web step, every other step on
      the renumbered originals. */
  lemma InputStepsFollowRenumbered(query: string, steps: seq<Step>, n: nat, defaults: Scheduling, i: nat)
    requires ContainsUrl(query) && i < |steps|
    ensures var out := Prepended(query, steps, n, defaults).plan[i + 1];
      && out.id == steps[i].id + 1
      && out.kind == steps[i].kind
      && out.description == steps[i].description
      && out.parameters == steps[i].parameters
      && out.mode == steps[i].mode
      && out.scheduling == steps[i].scheduling
      && (IsRetrievalRoot(steps[i]) ==> out.dependencies == [n])
      && (!IsRetrievalRoot(steps[i]) ==>
            |out.dependencies| == |steps[i].dependencies| &&
            forall k :: 0 <= k < |out.dependencies| ==> out.dependencies[k] == steps[i].dependencies[k] + 1)
  {
  }

  /** The plan the rewrite produces when a URL is found, named for the graph
      lemmas below. */
  function Extended(url: string, steps: seq<Step>, n: nat, defaults: Scheduling): (out: seq<Step>)
    ensures |out| == |steps| + 1
  {
    [WebStep(url, n, defaults)] + Renumbered(steps, n)
  }

  /** With a URL in the query, the rewrite's plan is `Extended`. */
  lemma PrependedIsExtended(query: string, steps: seq<Step>, n: nat, defaults: Scheduling)
    requires ContainsUrl(query)
    ensures Prepended(query, steps, n, defaults).plan == Extended(DetectUrl(query).value, steps, n, defaults)
  {
  }

  /** Every edge `a -> b` of the input survives as `a+1 -> b+1`. */
  lemma {:induction false} EdgesArePreserved(url: string, steps: seq<Step>, n: nat, defaults: Scheduling, a: nat, b: nat)
    requires DependsOn(steps, a, b)
    ensures DependsOn(Extended(url, steps, n, defaults), a + 1, b + 1)
  {
    var out := Extended(url, steps, n, defaults);
    var i :| 0 <= i < |steps| && steps[i].id == a && b in steps[i].dependencies;
    var k :| 0 <= k < |steps[i].dependencies| && steps[i].dependencies[k] == b;
    assert out[i + 1].dependencies[k] == b + 1;
  }

  /** Each former RETRIEVAL root now depends on the web step. */
  lemma {:induction false} RootsWaitForWebStep(url: string, steps: seq<Step>, n: nat, defaults: Scheduling, i: nat)
    requires i < |steps| && IsRetrievalRoot(steps[i])
    ensures DependsOn(Extended(url, steps, n, defaults), steps[i].id + 1, n)
  {
    var out := Extended(url, steps, n, defaults);
    assert out[i + 1].id == steps[i].id + 1 && n in out[i + 1].dependencies;
  }

  /** No other edges appear: an edge of the output is an input edge moved up
      by one, or an edge from a former RETRIEVAL root to the web step. */
  lemma {:induction false} EdgesOfExtended(url: string, steps: seq<Step>, n: nat, defaults: Scheduling, a: nat, b: nat)
    requires DependsOn(Extended(url, steps, n, defaults), a, b)
    ensures (exists i :: 0 <= i < |steps| && IsRetrievalRoot(steps[i]) && steps[i].id + 1 == a && b == n)
         || (1 <= a && 1 <= b && DependsOn(steps, a - 1, b - 1))
  {
    var out := Extended(url, steps, n, defaults);
    var i :| 0 <= i < |out| && out[i].id == a && b in out[i].dependencies;
    assert i != 0;
    var s := steps[i - 1];
    if !IsRetrievalRoot(s) {
      var k :| 0 <= k < |out[i].dependencies| && out[i].dependencies[k] == b;
      assert s.dependencies[k] == b - 1;
      assert DependsOn(steps, a - 1, b - 1);
    }
  }

  /** Only renumbered steps have dependencies, so under `IdsFrom(steps, n)`
      every edge starts above `n`. */
  lemma {:induction false} EdgeSourceAboveWebId(url: string, steps: seq<Step>, n: nat, defaults: Scheduling, a: nat, b: nat)
    requires IdsFrom(steps, n)
    requires DependsOn(Extended(url, steps, n, defaults), a, b)
    ensures a >= n + 1
  {
    var out := Extended(url, steps, n, defaults);
    var i :| 0 <= i < |out| && out[i].id == a && b in out[i].dependencies;
    assert i != 0;
    assert out[i].id == steps[i - 1].id + 1;
  }

  /** The rewrite keeps a well-formed plan well formed: when the input's ids
      are distinct and at least `n`, its dependencies resolve and it has no
      cycle, the output's ids are distinct, its dependencies resolve and it
      has no cycle. */
  lemma ExtendedIsWellFormed(url: string, steps: seq<Step>, n: nat, defaults: Scheduling)
    requires UniqueIds(steps) && IdsFrom(steps, n)
    requires DependenciesResolve(steps) && Acyclic(steps)
    ensures var out := Extended(url, steps, n, defaults);
      UniqueIds(out) && DependenciesResolve(out) && Acyclic(out)
  {
    ExtendedHasUniqueIds(url, steps, n, defaults);
    ExtendedDependenciesResolve(url, steps, n, defaults);
    ExtendedIsAcyclic(url, steps, n, defaults);
  }

  /** The rewrite itself keeps a well-formed plan well formed, whether or not
      the query holds a URL. */
  lemma PrependedIsWellFormed(query: string, steps: seq<Step>, n: nat, defaults: Scheduling)
    requires UniqueIds(steps) && IdsFrom(steps, n)
    requires DependenciesResolve(steps) && Acyclic(steps)
    ensures var out := Prepended(query, steps, n, defaults).plan;
      UniqueIds(out) && DependenciesResolve(out) && Acyclic(out)
  {
    if ContainsUrl(query) {
      PrependedIsExtended(query, steps, n, defaults);
      ExtendedIsWellFormed(DetectUrl(query).value, steps, n, defaults);
    }
  }

  /** The web step's id is below every renumbered id, and renumbering keeps
      distinct ids distinct. */
  lemma {:induction false} ExtendedHasUniqueIds(url: string, steps: seq<Step>, n: nat, defaults: Scheduling)
    requires UniqueIds(steps) && IdsFrom(steps, n)
    ensures UniqueIds(Extended(url, steps, n, defaults))
  {
    var out := Extended(url, steps, n, defaults);
    forall i, j | 0 <= i < j < |out| ensures out[i].id != out[j].id {
      if i > 0 {
        assert steps[i - 1].id != steps[j - 1].id;
      }
    }
  }

  /** Every dependency of the output names a step: the web step, or the
      renumbered step its original dependency named. */
  lemma {:induction false} ExtendedDependenciesResolve(url: string, steps: seq<Step>, n: nat, defaults: Scheduling)
    requires DependenciesResolve(steps)
    ensures DependenciesResolve(Extended(url, steps, n, defaults))
  {
    var out := Extended(url, steps, n, defaults);
    forall i, d | 0 <= i < |out| && d in out[i].dependencies ensures HasId(out, d) {
      assert i != 0;
      var s := steps[i - 1];
      if IsRetrievalRoot(s) {
        assert out[0].id == d;
      } else {
        var k :| 0 <= k < |out[i].dependencies| && out[i].dependencies[k] == d;
        assert s.dependencies[k] in s.dependencies;
        assert HasId(steps, s.dependencies[k]);
        var j :| 0 <= j < |steps| && steps[j].id == s.dependencies[k];
        assert out[j + 1].id == d;
      }
    }
  }

  /** No walk of the output closes a cycle. */
  lemma {:induction false} ExtendedIsAcyclic(url: string, steps: seq<Step>, n: nat, defaults: Scheduling)
    requires IdsFrom(steps, n) && Acyclic(steps)
    ensures Acyclic(Extended(url, steps, n, defaults))
  {
    var out := Extended(url, steps, n, defaults);
    forall p: seq<nat> | 2 <= |p| && IsPath(out, p) ensures p[0] != p[|p| - 1] {
      ExtendedPathIsNotCycle(url, steps, n, defaults, p);
    }
  }

  lemma {:induction false} ExtendedPathIsNotCycle(url: string, steps: seq<Step>, n: nat, defaults: Scheduling, p: seq<nat>)
    requires IdsFrom(steps, n) && Acyclic(steps)
    requires 2 <= |p| && IsPath(Extended(url, steps, n, defaults), p)
    ensures p[0] != p[|p| - 1]
  {
    EdgeSourceAboveWebId(url, steps, n, defaults, p[0], p[1]);
    if p[|p| - 1] != n {
      var q := WalkMovesDown(url, steps, n, defaults, p);
      assert q[0] != q[|q| - 1];
    }
  }

  /** A walk of the output that does not end at the web step avoids it
      altogether, so moving it down by one gives a walk of the input. */
  lemma {:induction false} WalkMovesDown(url: string, steps: seq<Step>, n: nat, defaults: Scheduling, p: seq<nat>)
    returns (q: seq<nat>)
    requires IdsFrom(steps, n)
    requires 2 <= |p| && IsPath(Extended(url, steps, n, defaults), p) && p[|p| - 1] != n
    ensures |q| == |p| && IsPath(steps, q)
    ensures forall k :: 0 <= k < |p| ==> q[k] + 1 == p[k]
  {
    q := seq(|p|, k requires 0 <= k < |p| => if p[k] >= 1 then p[k] - 1 else 0);
    forall k | 0 <= k < |q| - 1 ensures DependsOn(steps, q[k], q[k + 1]) && q[k] + 1 == p[k] {
      WalkStepMovesDown(url, steps, n, defaults, p, k);
    }
    WalkStepMovesDown(url, steps, n, defaults, p, |p| - 2);
  }

  /** One edge of a walk of the output that does not end at the web step is
      an input edge moved up by one. */
  lemma {:induction false} WalkStepMovesDown(url: string, steps: seq<Step>, n: nat, defaults: Scheduling, p: seq<nat>, k: nat)
    requires IdsFrom(steps, n)
    requires 2 <= |p| && IsPath(Extended(url, steps, n, defaults), p) && p[|p| - 1] != n
    requires k < |p| - 1
    ensures 1 <= p[k] && 1 <= p[k + 1] && DependsOn(steps, p[k] - 1, p[k + 1] - 1)
  {
    assert DependsOn(Extended(url, steps, n, defaults), p[k], p[k + 1]);
    if k + 1 < |p| - 1 {
      assert DependsOn(Extended(url, steps, n, defaults), p[k + 1], p[k + 2]);
      EdgeSourceAboveWebId(url, steps, n, defaults, p[k + 1], p[k + 2]);
    }
    EdgesOfExtended(url, steps, n, defaults, p[k], p[k + 1]);
  }

  // ---------------------------------------------------------------------
  // Two concrete plans
  // ---------------------------------------------------------------------

  /** The URL of the query below: the match runs up to the comma, and the
      trim removes the comma. */
  lemma SummarizeQueryUrl(q: string, url: string)
    requires url == "https://site.example/page" && q == "Summarize " + url + ", please"
    ensures DetectUrl(q) == Some(url)
  {
    assert url[..8] == "https://";
    assert q == "Summarize " + url + [','] + " please";
    DetectUrlBeforePunct("Summarize ", url, ',', " please");
  }

  /** A one-step retrieval plan and a query whose URL is followed by a comma:
      the web step becomes `step_0` and the retrieval step becomes `step_1`,
      waiting for `step_0`. */
  lemma SummarizeQueryExample(q: string, url: string, d: string, ps: map<string, string>, mode: ExecutionMode, sched: Scheduling, defaults: Scheduling)
    requires url == "https://site.example/page" && q == "Summarize " + url + ", please"
    ensures Prepended(q, [Step(0, Retrieval, d, ps, [], mode, sched)], 0, defaults)
         == Rewrite([WebStep(url, 0, defaults), Step(1, Retrieval, d, ps, [0], mode, sched)], Some(0))
  {
    SummarizeQueryUrl(q, url);
  }

  /** Why `IdsFrom(steps, n)` is needed: a step numbered below the counter is
      renumbered onto the web step's id. */
  lemma WebIdCollidesWithoutIdsFrom(d: string, ps: map<string, string>, mode: ExecutionMode, sched: Scheduling, defaults: Scheduling)
    ensures !UniqueIds(Prepended("http://a", [Step(0, Retrieval, d, ps, [], mode, sched)], 1, defaults).plan)
  {
    assert IsMatch("http://a", 0, 8) by {
      assert "http://a"[0..7] == "http://";
    }
    var r := Prepended("http://a", [Step(0, Retrieval, d, ps, [], mode, sched)], 1, defaults);
    assert r.plan[0].id == 1 && r.plan[1].id == 1;
  }
}
