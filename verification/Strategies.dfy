/** The six plan builders (chain/strategies.py) as producers of well-formed plans. */
module Strategies {
  import opened Collections
  import opened Models
  import opened Text
  import opened ExecutorProperties
  import opened ExecutorMachine
  import opened ExecutorInvariants

  datatype Strategy = Strategy(plan: Plan, policy: Policy)

  function Critical(id: string, deps: seq<string>): StepDef {
    StepDef(id, true, deps, true)
  }

  function Optional(id: string, deps: seq<string>): StepDef {
    StepDef(id, false, deps, true)
  }

  function PolicyOf(maxCalls: nat, retries: nat): Policy {
    Policy(3, retries, true, maxCalls, AllRequired)
  }

  // ---- straight-line builders -----------------------------------------------------------------

  function BuildDirect(): Strategy {
    Strategy([Critical("direct", [])], PolicyOf(4, 1))
  }

  function BuildContextWindow(): Strategy {
    Strategy([Critical("cw_analyze", []), Critical("cw_execute", ["cw_analyze"])], PolicyOf(6, 1))
  }

  function BuildPipeline(includeReview: bool): Strategy {
    var steps := [Critical("pl_scout", []), Critical("pl_plan", ["pl_scout"]), Critical("pl_execute", ["pl_plan"])];
    var totalCalls := if includeReview then 5 else 4;
    Strategy(if includeReview then steps + [Optional("pl_review", ["pl_execute"])] else steps,
             PolicyOf(totalCalls * 3, 2))
  }

  function BuildDelegate(): Strategy {
    Strategy([Critical("dlg_brief", []), Critical("dlg_implement", ["dlg_brief"]),
              Critical("dlg_review", ["dlg_implement"]), Optional("dlg_land", ["dlg_review"])],
             PolicyOf(12, 2))
  }

  // ---- fan-out builders -----------------------------------------------------------------------

  /** `prefix` followed by 0 .. n-1. */
  function Numbered(prefix: string, n: nat): (ids: seq<string>)
    ensures |ids| == n
  {
    seq(n, i requires 0 <= i < n => prefix + Decimal(i))
  }

  /** n independent steps. */
  function Units(prefix: string, n: nat, critical: bool): (plan: Plan)
    ensures |plan| == n
  {
    seq(n, i requires 0 <= i < n => StepDef(prefix + Decimal(i), critical, [], true))
  }

  lemma OneMore(prefix: string, n: nat, critical: bool)
    ensures Units(prefix, n + 1, critical) == Units(prefix, n, critical) + [StepDef(prefix + Decimal(n), critical, [], true)]
    ensures Numbered(prefix, n + 1) == Numbered(prefix, n) + [prefix + Decimal(n)]
  {
  }

  /** n independent steps, one that gathers them all, and one that acts on what was gathered. */
  function FanOut(prefix: string, n: nat, critical: bool, gather: string, act: string): (plan: Plan)
    ensures |plan| == n + 2
  {
    Units(prefix, n, critical)
    + [Critical(gather, Numbered(prefix, n)), Critical(act, [gather])]
  }

  method BuildChunkChain(chunks: seq<string>) returns (s: Strategy)
    ensures s.plan == FanOut("chunk_", |chunks|, true, "cc_plan", "cc_execute")
    ensures s.policy == PolicyOf(|chunks| * 3 + 4, 2)
  {
    var steps, chunkIds := [], [];
    for i := 0 to |chunks|
      invariant chunkIds == Numbered("chunk_", i)
      invariant steps == Units("chunk_", i, true)
    {
      OneMore("chunk_", i, true);
      var chunkId := "chunk_" + Decimal(i);
      chunkIds := chunkIds + [chunkId];
      steps := steps + [Critical(chunkId, [])];
    }
    steps := steps + [Critical("cc_plan", chunkIds)];
    steps := steps + [Critical("cc_execute", ["cc_plan"])];
    return Strategy(steps, PolicyOf(|chunks| * 3 + 4, 2));
  }

  /** Only the number of files matters to the plan; with none, the parallelism written down is zero. */
  method BuildMapReduce(files: seq<string>, maxParallel: nat) returns (s: Strategy)
    ensures s.plan == FanOut("map_", |files|, false, "mr_reduce", "mr_execute")
    ensures s.policy == PolicyOf(|files| * 3 + 4, 2).(maxParallelSteps := Min(maxParallel, |files|))
  {
    var steps, mapIds := [], [];
    for i := 0 to |files|
      invariant mapIds == Numbered("map_", i)
      invariant steps == Units("map_", i, false)
    {
      OneMore("map_", i, false);
      var mapId := "map_" + Decimal(i);
      mapIds := mapIds + [mapId];
      steps := steps + [Optional(mapId, [])];
    }
    steps := steps + [Critical("mr_reduce", mapIds)];
    steps := steps + [Critical("mr_execute", ["mr_reduce"])];
    return Strategy(steps, PolicyOf(|files| * 3 + 4, 2).(maxParallelSteps := Min(maxParallel, |files|)));
  }

  // ---- well-formedness ------------------------------------------------------------------------

  /** A plan whose ids differ and whose dependencies are ids of earlier steps. */
  lemma ForwardFromIndices(plan: Plan)
    requires forall i, j :: 0 <= i < j < |plan| ==> plan[i].id != plan[j].id
    requires forall i, d :: 0 <= i < |plan| && d in plan[i].dependsOn ==> exists j :: 0 <= j < i && plan[j].id == d
    ensures UniqueIds(plan) && Forward(plan)
  {
    UniqueIdsMeaning(plan);
    forall i, d | 0 <= i < |plan| && d in plan[i].dependsOn
      ensures FindStep(plan, d).Some? && FindStep(plan, d).value < i
    {
      var j :| 0 <= j < i && plan[j].id == d;
      assert FindStep(plan, plan[j].id) == Some(j);
    }
  }

  lemma {:induction false} CriticalBefore(plan: Plan, i: nat)
    requires Forward(plan) && i < |plan| && forall j :: 0 <= j < i ==> plan[j].critical
    ensures AncestorsCritical(plan, i)
    decreases i
  {
    forall d | d in plan[i].dependsOn
      ensures var k := FindStep(plan, d).value; plan[k].critical && AncestorsCritical(plan, k)
    {
      CriticalBefore(plan, FindStep(plan, d).value);
    }
  }

  predicate ChainLink(plan: Plan, i: nat)
    requires i < |plan|
  {
    plan[i].dependsOn == if i == 0 then [] else [plan[i - 1].id]
  }

  /** A chain: every step but the first depends on the one before it, and only the last may be optional. */
  lemma ChainWellFormed(plan: Plan)
    requires forall i, j :: 0 <= i < j < |plan| ==> plan[i].id != plan[j].id
    requires forall i :: 0 <= i < |plan| ==> plan[i].policyKnown && (i < |plan| - 1 ==> plan[i].critical)
    requires forall i :: 0 <= i < |plan| ==> ChainLink(plan, i)
    ensures WellFormed(plan)
  {
    forall i, d | 0 <= i < |plan| && d in plan[i].dependsOn ensures exists j :: 0 <= j < i && plan[j].id == d {
      assert ChainLink(plan, i);
      assert d == plan[i - 1].id;
    }
    ForwardFromIndices(plan);
    if plan != [] {
      CriticalBefore(plan, |plan| - 1);
    }
  }

  lemma StraightLinePlansWellFormed(includeReview: bool)
    ensures WellFormed(BuildDirect().plan) && WellFormed(BuildContextWindow().plan)
    ensures WellFormed(BuildPipeline(includeReview).plan) && WellFormed(BuildDelegate().plan)
  {
    ChainWellFormed(BuildDirect().plan);
    ChainWellFormed(BuildContextWindow().plan);
    ChainWellFormed(BuildPipeline(includeReview).plan);
    ChainWellFormed(BuildDelegate().plan);
  }

  lemma PrefixedDiffer(prefix: string, i: nat, j: nat)
    requires i != j
    ensures prefix + Decimal(i) != prefix + Decimal(j)
  {
    if prefix + Decimal(i) == prefix + Decimal(j) {
      assert (prefix + Decimal(i))[|prefix|..] == Decimal(i);
      assert (prefix + Decimal(j))[|prefix|..] == Decimal(j);
      DecimalInjective(i, j);
    }
  }

  /** The fan-out plans settle for every number of parts, critical or not. */
  lemma FanOutWellFormed(prefix: string, n: nat, critical: bool, gather: string, act: string)
    requires |prefix| > 1 && |gather| > 1 && |act| > 1 && gather != act
    requires prefix[1] != gather[1] && prefix[1] != act[1]
    ensures WellFormed(FanOut(prefix, n, critical, gather, act))
  {
    var plan := FanOut(prefix, n, critical, gather, act);
    forall i, j | 0 <= i < j < |plan| ensures plan[i].id != plan[j].id {
      if j < n {
        PrefixedDiffer(prefix, i, j);
      } else if i < n {
        assert plan[i].id[1] == prefix[1];
      }
    }
    forall i, d | 0 <= i < |plan| && d in plan[i].dependsOn ensures exists j :: 0 <= j < i && plan[j].id == d {
      if i == n {
        var j :| 0 <= j < n && Numbered(prefix, n)[j] == d;
        assert plan[j].id == d;
      } else if i == n + 1 {
        assert plan[n].id == d;
      }
    }
    ForwardFromIndices(plan);
    forall i | 0 <= i < |plan| && !plan[i].critical ensures AncestorsCritical(plan, i) {
      assert plan[i].dependsOn == [];
    }
  }

  lemma FanOutPlansWellFormed(n: nat)
    ensures WellFormed(FanOut("chunk_", n, true, "cc_plan", "cc_execute"))
    ensures WellFormed(FanOut("map_", n, false, "mr_reduce", "mr_execute"))
  {
    FanOutWellFormed("chunk_", n, true, "cc_plan", "cc_execute");
    FanOutWellFormed("map_", n, false, "mr_reduce", "mr_execute");
  }

  // ---- enough budget --------------------------------------------------------------------------

  lemma {:induction false} SumBounded(s: seq<nat>, bound: nat, i: nat)
    requires i < |s| && s[i] < bound && forall j :: 0 <= j < |s| ==> s[j] <= bound
    ensures SumBy(s, Itself) < |s| * bound
  {
    if i > 0 {
      SumBounded(s[1..], bound, i - 1);
      assert |s| * bound == (|s| - 1) * bound + bound;
    } else {
      SumAtMost(s[1..], bound);
      assert |s| * bound == (|s| - 1) * bound + bound;
    }
  }

  lemma {:induction false} SumAtMost(s: seq<nat>, bound: nat)
    requires forall j :: 0 <= j < |s| ==> s[j] <= bound
    ensures SumBy(s, Itself) <= |s| * bound
  {
    if s != [] {
      SumAtMost(s[1..], bound);
      assert |s| * bound == (|s| - 1) * bound + bound;
    }
  }

  /** With a call for every attempt of every step, only the clock can turn an attempt away. */
  lemma AmpleBudgetNeverRefuses(m: Machine, i: nat)
    requires Inv(m) && Enabled(m, Reserve(i, false)) && !m.cancelled
    requires |m.plan| * (1 + m.policy.maxRetries) <= m.policy.maxProviderCalls
    ensures Apply(m, Reserve(i, false)).phase[i].Calling?
  {
    SumBounded(m.calls, 1 + m.policy.maxRetries, i);
  }

  /**
   * Every straight-line builder grants a call for every attempt; the fan-out builders are always two calls
   * short of that, so their last retries can be refused.
   */
  lemma WhoseBudgetIsAmple(includeReview: bool, n: nat)
    ensures forall s | s in [BuildDirect(), BuildContextWindow(), BuildPipeline(includeReview), BuildDelegate()] ::
              |s.plan| * (1 + s.policy.maxRetries) <= s.policy.maxProviderCalls
    ensures var p := PolicyOf(n * 3 + 4, 2);
      |FanOut("chunk_", n, true, "cc_plan", "cc_execute")| * (1 + p.maxRetries) == p.maxProviderCalls + 2
  {
  }
}
