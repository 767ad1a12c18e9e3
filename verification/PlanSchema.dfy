/** Validation of a plan proposed by a model (chain/plan_schema.py), and the plan it becomes. */
module PlanSchema {
  import opened Collections
  import opened Models
  import opened Text
  import opened ExecutorProperties

  datatype Json =
    | Null
    | Bool(b: bool)
    | Number(n: int)
    | Str(s: string)
    | Arr(items: seq<Json>)
    | Obj(fields: map<string, Json>)

  datatype ValidatedStep = ValidatedStep(
    id: string, name: string, stage: string, agentRole: string, prompt: string, dependsOn: seq<string>)

  datatype ValidatedPlan = ValidatedPlan(strategy: string, steps: seq<ValidatedStep>)

  /** Why a payload is refused; a broken step is named by its position. */
  datatype SchemaError = UnknownStrategy | StepsNotAList | TooManySteps(count: nat) | BadStep(idx: nat)

  datatype Result<+T> = Ok(value: T) | Err(error: SchemaError)

  const MAX_PLAN_STEPS := 12

  const ALLOWED_STRATEGIES := {"direct", "context_window", "chunk_chain", "map_reduce", "pipeline"}

  const ALLOWED_STAGES := {"analyze", "plan", "execute", "review"}

  // ---- the rules, stated without an order -----------------------------------------------------

  /** `fields[key]` is a string that is not blank. */
  predicate HasText(fields: map<string, Json>, key: string) {
    key in fields && fields[key].Str? && !IsBlank(fields[key].s)
  }

  predicate HasAllTexts(fields: map<string, Json>) {
    && HasText(fields, "id") && HasText(fields, "name") && HasText(fields, "stage")
    && HasText(fields, "agent_role") && HasText(fields, "prompt")
  }

  /** The dependencies a step lists; a missing list is empty. */
  function DepsOf(fields: map<string, Json>): Json {
    if "depends_on" in fields then fields["depends_on"] else Arr([])
  }

  function IdOf(step: Json): Option<string> {
    if step.Obj? && HasText(step.fields, "id") then Some(step.fields["id"].s) else None
  }

  /** Step `i` follows the rules, given the steps before it. */
  predicate StepOk(steps: seq<Json>, i: nat)
    requires i < |steps|
  {
    && steps[i].Obj?
    && HasAllTexts(steps[i].fields)
    && steps[i].fields["stage"].s in ALLOWED_STAGES
    && (forall j :: 0 <= j < i ==> IdOf(steps[j]) != IdOf(steps[i]))
    && DepsOf(steps[i].fields).Arr?
    && forall d | d in DepsOf(steps[i].fields).items ::
         d.Str? && exists j :: 0 <= j < i && IdOf(steps[j]) == Some(d.s)
  }

  predicate PayloadOk(payload: map<string, Json>) {
    && "strategy" in payload && payload["strategy"].Str? && payload["strategy"].s in ALLOWED_STRATEGIES
    && "steps" in payload && payload["steps"].Arr?
    && 0 < |payload["steps"].items| <= MAX_PLAN_STEPS
    && forall i :: 0 <= i < |payload["steps"].items| ==> StepOk(payload["steps"].items, i)
  }

  /** What a step that follows the rules is turned into. */
  predicate Carries(step: Json, v: ValidatedStep) {
    && step.Obj?
    && HasAllTexts(step.fields)
    && v.id == step.fields["id"].s && v.name == step.fields["name"].s && v.stage == step.fields["stage"].s
    && v.agentRole == step.fields["agent_role"].s && v.prompt == step.fields["prompt"].s
    && DepsOf(step.fields).Arr?
    && |v.dependsOn| == |DepsOf(step.fields).items|
    && forall k :: 0 <= k < |v.dependsOn| ==> DepsOf(step.fields).items[k] == Str(v.dependsOn[k])
  }

  // ---- the validator --------------------------------------------------------------------------

  /** `_require_str` */
  method RequireStr(fields: map<string, Json>, key: string) returns (r: Option<string>)
    ensures r.Some? <==> HasText(fields, key)
    ensures r.Some? ==> r.value == fields[key].s
  {
    if key !in fields || !fields[key].Str? || Strip(fields[key].s) == "" {
      if key in fields && fields[key].Str? {
        StripBlank(fields[key].s);
      }
      return None;
    }
    StripBlank(fields[key].s);
    return Some(fields[key].s);
  }

  /** The dependency loop: every entry must name an earlier step. */
  method RequireEarlier(items: seq<Json>, seen: set<string>) returns (deps: Option<seq<string>>)
    ensures deps.Some? <==> forall d | d in items :: d.Str? && d.s in seen
    ensures deps.Some? ==> |deps.value| == |items|
                           && forall k :: 0 <= k < |items| ==> items[k] == Str(deps.value[k])
  {
    var out := [];
    for k := 0 to |items|
      invariant |out| == k
      invariant forall j :: 0 <= j < k ==> items[j] == Str(out[j]) && out[j] in seen
    {
      if !items[k].Str? || items[k].s !in seen {
        assert items[k] in items;
        return None;
      }
      out := out + [items[k].s];
    }
    return Some(out);
  }

  method ValidateStep(steps: seq<Json>, i: nat, seen: set<string>) returns (r: Option<ValidatedStep>)
    requires i < |steps|
    requires forall id :: id in seen <==> exists j :: 0 <= j < i && IdOf(steps[j]) == Some(id)
    ensures r.Some? <==> StepOk(steps, i)
    ensures r.Some? ==> Carries(steps[i], r.value)
  {
    if !steps[i].Obj? {
      return None;
    }
    var raw := steps[i].fields;
    var sid := RequireStr(raw, "id");
    if sid.None? || sid.value in seen {
      return None;
    }
    var stage := RequireStr(raw, "stage");
    if stage.None? || stage.value !in ALLOWED_STAGES {
      return None;
    }
    var depsRaw := if "depends_on" in raw then raw["depends_on"] else Arr([]);
    if !depsRaw.Arr? {
      return None;
    }
    var deps := RequireEarlier(depsRaw.items, seen);
    if deps.None? {
      return None;
    }
    var name := RequireStr(raw, "name");
    var agentRole := RequireStr(raw, "agent_role");
    var prompt := RequireStr(raw, "prompt");
    if name.None? || agentRole.None? || prompt.None? {
      return None;
    }
    return Some(ValidatedStep(sid.value, name.value, stage.value, agentRole.value, prompt.value, deps.value));
  }

  /** The ids of the first `i` steps. */
  predicate AreIdsBelow(raw: seq<Json>, i: nat, seen: set<string>)
    requires i <= |raw|
  {
    && (forall id :: id in seen ==> exists j :: 0 <= j < i && IdOf(raw[j]) == Some(id))
    && (forall j :: 0 <= j < i && IdOf(raw[j]).Some? ==> IdOf(raw[j]).value in seen)
  }

  lemma SeenGrows(raw: seq<Json>, i: nat, seen: set<string>, id: string)
    requires i < |raw| && AreIdsBelow(raw, i, seen) && IdOf(raw[i]) == Some(id)
    ensures AreIdsBelow(raw, i + 1, seen + {id})
  {
  }

  /**
   * `validate_plan_payload`: accepts exactly the payloads that follow the rules, and carries every field of
   * an accepted one over; a refused step is the first broken one.
   */
  method ValidatePlanPayload(payload: map<string, Json>) returns (r: Result<ValidatedPlan>)
    ensures r.Ok? <==> PayloadOk(payload)
    ensures r.Ok? ==> r.value.strategy == payload["strategy"].s
                      && |r.value.steps| == |payload["steps"].items|
                      && forall i :: 0 <= i < |r.value.steps| ==> Carries(payload["steps"].items[i], r.value.steps[i])
    ensures r.Err? && r.error.BadStep? ==>
              "steps" in payload && payload["steps"].Arr? && r.error.idx < |payload["steps"].items|
              && !StepOk(payload["steps"].items, r.error.idx)
              && forall j :: 0 <= j < r.error.idx ==> StepOk(payload["steps"].items, j)
  {
    if "strategy" !in payload || !payload["strategy"].Str? || payload["strategy"].s !in ALLOWED_STRATEGIES {
      return Err(UnknownStrategy);
    }
    if "steps" !in payload || !payload["steps"].Arr? || payload["steps"].items == [] {
      return Err(StepsNotAList);
    }
    var raw := payload["steps"].items;
    if |raw| > MAX_PLAN_STEPS {
      return Err(TooManySteps(|raw|));
    }
    var steps := ValidateSteps(raw);
    return if steps.Err? then Err(steps.error) else Ok(ValidatedPlan(payload["strategy"].s, steps.value));
  }

  /** The first steps follow the rules and are carried over. */
  predicate FollowTheRules(raw: seq<Json>, steps: seq<ValidatedStep>) {
    |steps| <= |raw| && forall j :: 0 <= j < |steps| ==> StepOk(raw, j) && Carries(raw[j], steps[j])
  }

  lemma OneMoreFollows(raw: seq<Json>, steps: seq<ValidatedStep>, v: ValidatedStep)
    requires FollowTheRules(raw, steps) && |steps| < |raw| && StepOk(raw, |steps|) && Carries(raw[|steps|], v)
    ensures FollowTheRules(raw, steps + [v])
  {
    forall j | 0 <= j < |steps| + 1 ensures StepOk(raw, j) && Carries(raw[j], (steps + [v])[j]) {
      if j < |steps| {
        assert (steps + [v])[j] == steps[j];
      } else {
        assert (steps + [v])[j] == v;
      }
    }
  }

  /** The loop over the steps: all of them carried over, or the first broken one. */
  method ValidateSteps(raw: seq<Json>) returns (r: Result<seq<ValidatedStep>>)
    ensures r.Ok? ==> |r.value| == |raw| && forall i :: 0 <= i < |raw| ==> StepOk(raw, i) && Carries(raw[i], r.value[i])
    ensures r.Err? ==> r.error.BadStep? && r.error.idx < |raw| && !StepOk(raw, r.error.idx)
                       && forall j :: 0 <= j < r.error.idx ==> StepOk(raw, j)
  {
    var seen: set<string> := {};
    var steps := [];
    for i := 0 to |raw|
      invariant |steps| == i && FollowTheRules(raw, steps)
      invariant AreIdsBelow(raw, i, seen)
    {
      var step := ValidateStep(raw, i, seen);
      if step.None? {
        return Err(BadStep(i));
      }
      SeenGrows(raw, i, seen, step.value.id);
      OneMoreFollows(raw, steps, step.value);
      steps := steps + [step.value];
      seen := seen + {step.value.id};
    }
    return Ok(steps);
  }

  // ---- the plan -------------------------------------------------------------------------------

  /** `to_strategy_result`: default criticality, default context policy, default execution policy. */
  function ToPlan(v: ValidatedPlan): (plan: Plan)
    ensures |plan| == |v.steps|
  {
    seq(|v.steps|, i requires 0 <= i < |v.steps| => StepDef(v.steps[i].id, true, v.steps[i].dependsOn, true))
  }

  /** An accepted payload becomes a plan on which every run settles: unique ids, earlier dependencies, all critical. */
  lemma AcceptedPlanWellFormed(payload: map<string, Json>, v: ValidatedPlan)
    requires PayloadOk(payload) && |v.steps| == |payload["steps"].items|
    requires forall i :: 0 <= i < |v.steps| ==> Carries(payload["steps"].items[i], v.steps[i])
    ensures WellFormed(ToPlan(v))
  {
    var raw := payload["steps"].items;
    var plan := ToPlan(v);
    forall i | 0 <= i < |raw| ensures IdOf(raw[i]) == Some(plan[i].id) && StepOk(raw, i) {
      assert Carries(raw[i], v.steps[i]);
    }
    UniqueIdsMeaning(plan);
    forall i, d | 0 <= i < |plan| && d in plan[i].dependsOn
      ensures FindStep(plan, d).Some? && FindStep(plan, d).value < i
    {
      assert Carries(raw[i], v.steps[i]) && StepOk(raw, i);
      var j := DependencyBefore(raw, i, v.steps[i], d);
      assert FindStep(plan, plan[j].id) == Some(j);
    }
  }

  lemma DependencyBefore(raw: seq<Json>, i: nat, v: ValidatedStep, d: string) returns (j: nat)
    requires i < |raw| && StepOk(raw, i) && Carries(raw[i], v) && d in v.dependsOn
    ensures j < i && IdOf(raw[j]) == Some(d)
  {
    var k :| 0 <= k < |v.dependsOn| && v.dependsOn[k] == d;
    assert DepsOf(raw[i].fields).items[k] in DepsOf(raw[i].fields).items;
    j :| 0 <= j < i && IdOf(raw[j]) == Some(d);
  }
}
