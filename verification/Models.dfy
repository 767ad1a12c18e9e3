/** Data model of a chain run (chain/models.py): the static plan, the policy and the step statuses. */
module Models {
  import opened Collections

  datatype Status = Pending | Running | Success | Error | Skipped

  datatype RunStatus = RunPending | RunRunning | Completed | Failed | Cancelled

  datatype StopCondition = AllRequired | FirstSuccess | Quorum

  /** The part of a ChainStep that never changes. `policyKnown` says whether its context policy is in the dictionary. */
  datatype StepDef = StepDef(id: string, critical: bool, dependsOn: seq<string>, policyKnown: bool)

  type Plan = seq<StepDef>

  datatype Policy = Policy(
    maxParallelSteps: int,
    maxRetries: nat,
    continueOnOptionalFailure: bool,
    maxProviderCalls: nat,
    stopCondition: StopCondition)

  /** What `to_state_dict` writes to state.json. */
  datatype Saved = Saved(
    runStatus: RunStatus,
    plan: Plan,
    policy: Policy,
    status: seq<Status>,
    providerCalls: seq<nat>,
    results: map<string, string>)

  predicate Terminal(s: Status) {
    s == Success || s == Error || s == Skipped
  }

  predicate FailedStatus(s: Status) {
    s == Error || s == Skipped
  }

  predicate Complete(status: seq<Status>) {
    forall i :: 0 <= i < |status| ==> Terminal(status[i])
  }

  predicate HasCriticalFailure(plan: Plan, status: seq<Status>)
    requires |plan| == |status|
  {
    exists i :: 0 <= i < |plan| && status[i] == Error && plan[i].critical
  }

  predicate HasPending(status: seq<Status>) {
    exists i :: 0 <= i < |status| && status[i] == Pending
  }

  /** `get_step`: the first step with this id. */
  function FindStep(plan: Plan, id: string): (k: Option<nat>)
    ensures k.Some? ==> k.value < |plan| && plan[k.value].id == id
  {
    FindStepFrom(plan, id, 0)
  }

  function FindStepFrom(plan: Plan, id: string, from: nat): (k: Option<nat>)
    requires from <= |plan|
    ensures k.Some? ==> from <= k.value < |plan| && plan[k.value].id == id
    decreases |plan| - from
  {
    if from == |plan| then None
    else if plan[from].id == id then Some(from)
    else FindStepFrom(plan, id, from + 1)
  }

  /** The search finds a step whenever there is one, and never a later one than the first. */
  lemma {:induction false} FindStepFirst(plan: Plan, from: nat, j: nat)
    requires from <= j < |plan|
    ensures var k := FindStepFrom(plan, plan[j].id, from); k.Some? && k.value <= j
    decreases |plan| - from
  {
    if plan[from].id != plan[j].id {
      FindStepFirst(plan, from + 1, j);
    }
  }

  /** The status of the step called `id`, if there is one. */
  function StatusOf(plan: Plan, status: seq<Status>, id: string): Option<Status>
    requires |plan| == |status|
  {
    match FindStep(plan, id)
    case None => None
    case Some(k) => Some(status[k])
  }

  /** Every dependency of step `i` exists and succeeded. */
  predicate DepsMet(plan: Plan, status: seq<Status>, i: nat)
    requires |plan| == |status| && i < |plan|
  {
    forall d | d in plan[i].dependsOn :: StatusOf(plan, status, d) == Some(Success)
  }

  /** Some dependency of step `i` failed or was skipped. */
  predicate DepFailed(plan: Plan, status: seq<Status>, i: nat)
    requires |plan| == |status| && i < |plan|
  {
    exists d | d in plan[i].dependsOn ::
      var s := StatusOf(plan, status, d); s.Some? && FailedStatus(s.value)
  }

  predicate Ready(plan: Plan, status: seq<Status>, i: nat)
    requires |plan| == |status| && i < |plan|
  {
    status[i] == Pending && DepsMet(plan, status, i)
  }

  /** `get_ready_steps`: the ready steps, by position in the plan. */
  function ReadyFrom(plan: Plan, status: seq<Status>, from: nat): (r: seq<nat>)
    requires |plan| == |status| && from <= |plan|
    ensures forall i | i in r :: from <= i < |plan| && Ready(plan, status, i)
    ensures forall i | from <= i < |plan| && Ready(plan, status, i) :: i in r
    ensures forall a, b | 0 <= a < b < |r| :: r[a] < r[b]
    decreases |plan| - from
  {
    if from == |plan| then []
    else if Ready(plan, status, from) then
      var rest := ReadyFrom(plan, status, from + 1);
      assert forall b | 0 < b < |[from] + rest| :: ([from] + rest)[b] in rest;
      [from] + rest
    else ReadyFrom(plan, status, from + 1)
  }

  function ReadySteps(plan: Plan, status: seq<Status>): (r: seq<nat>)
    requires |plan| == |status|
    ensures forall i | i in r :: i < |plan| && Ready(plan, status, i)
    ensures forall i | 0 <= i < |plan| && Ready(plan, status, i) :: i in r
    ensures forall a, b | 0 <= a < b < |r| :: r[a] < r[b]
  {
    ReadyFrom(plan, status, 0)
  }

  /** What happens to every pending step when the round ends early. */
  function SkipPending(status: seq<Status>): (r: seq<Status>)
    ensures |r| == |status|
    ensures forall i :: 0 <= i < |r| ==> r[i] == if status[i] == Pending then Skipped else status[i]
  {
    seq(|status|, i requires 0 <= i < |status| => if status[i] == Pending then Skipped else status[i])
  }

  /** The guard of `_skip_blocked_steps` for one pending step. */
  predicate Skippable(plan: Plan, policy: Policy, i: nat)
    requires i < |plan|
  {
    plan[i].critical || !policy.continueOnOptionalFailure
  }

  predicate Blocked(plan: Plan, policy: Policy, status: seq<Status>, i: nat)
    requires |plan| == |status| && i < |plan|
  {
    status[i] == Pending && Skippable(plan, policy, i) && DepFailed(plan, status, i)
  }

  /** One sweep of `_skip_blocked_steps` over steps from.., updating in place. */
  function SkipSweep(plan: Plan, policy: Policy, status: seq<Status>, from: nat): (r: seq<Status>)
    requires |plan| == |status| && from <= |plan|
    ensures |r| == |status|
    decreases |plan| - from
  {
    if from == |plan| then status
    else if Blocked(plan, policy, status, from) then
      SkipSweep(plan, policy, status[from := Skipped], from + 1)
    else SkipSweep(plan, policy, status, from + 1)
  }

  function IsPending(s: Status): nat {
    if s == Pending then 1 else 0
  }

  function CountPending(status: seq<Status>): nat {
    SumBy(status, IsPending)
  }

  /** A sweep only turns pending into skipped, and stops changing when nothing is blocked. */
  lemma {:induction false} SweepOnlySkips(plan: Plan, policy: Policy, status: seq<Status>, from: nat)
    requires |plan| == |status| && from <= |plan|
    ensures var r := SkipSweep(plan, policy, status, from);
      && (forall i :: 0 <= i < |status| ==> r[i] == status[i] || (status[i] == Pending && r[i] == Skipped && from <= i))
      && (r == status <==> forall i :: from <= i < |plan| ==> !Blocked(plan, policy, status, i))
      && CountPending(r) <= CountPending(status)
      && (r != status ==> CountPending(r) < CountPending(status))
    decreases |plan| - from
  {
    if from < |plan| {
      if Blocked(plan, policy, status, from) {
        var next := status[from := Skipped];
        SweepOnlySkips(plan, policy, next, from + 1);
        SumByUpdate(status, IsPending, from, Skipped);
        assert SkipSweep(plan, policy, status, from)[from] == Skipped;
      } else {
        SweepOnlySkips(plan, policy, status, from + 1);
      }
    }
  }

  /** One step of a sweep. */
  lemma SweepAt(plan: Plan, policy: Policy, status: seq<Status>, i: nat)
    requires |plan| == |status| && i < |plan|
    ensures Blocked(plan, policy, status, i) ==>
              && SkipSweep(plan, policy, status[i := Skipped], i + 1) == SkipSweep(plan, policy, status, i)
              && CountPending(status[i := Skipped]) < CountPending(status)
    ensures !Blocked(plan, policy, status, i) ==>
              SkipSweep(plan, policy, status, i + 1) == SkipSweep(plan, policy, status, i)
  {
    SumByUpdate(status, IsPending, i, Skipped);
  }

  /** `_skip_blocked_steps`: sweep until nothing changes. */
  function SkipBlocked(plan: Plan, policy: Policy, status: seq<Status>): (r: seq<Status>)
    requires |plan| == |status|
    ensures |r| == |status|
    decreases CountPending(status)
  {
    var next := SkipSweep(plan, policy, status, 0);
    SweepOnlySkips(plan, policy, status, 0);
    if next == status then status else SkipBlocked(plan, policy, next)
  }

  /** Looking up a step's id finds that step: no two steps share an id. */
  predicate UniqueIds(plan: Plan) {
    forall i :: 0 <= i < |plan| ==> FindStep(plan, plan[i].id) == Some(i)
  }

  lemma UniqueIdsMeaning(plan: Plan)
    ensures UniqueIds(plan) <==> forall i, j :: 0 <= i < j < |plan| ==> plan[i].id != plan[j].id
  {
    forall j | 0 <= j < |plan| ensures FindStep(plan, plan[j].id).Some? && FindStep(plan, plan[j].id).value <= j {
      FindStepFirst(plan, 0, j);
    }
  }

  /** Dependencies name earlier steps only, so the plan is acyclic. */
  predicate Forward(plan: Plan) {
    forall i, d :: 0 <= i < |plan| && d in plan[i].dependsOn ==>
      var k := FindStep(plan, d); k.Some? && k.value < i
  }

  /** Every ancestor of step `i` is critical. */
  predicate AncestorsCritical(plan: Plan, i: nat)
    requires Forward(plan) && i < |plan|
    decreases i
  {
    forall d | d in plan[i].dependsOn ::
      var k := FindStep(plan, d).value;
      plan[k].critical && AncestorsCritical(plan, k)
  }

  /** Non-critical steps hang below critical ones only. */
  predicate OptionalBelowCritical(plan: Plan)
    requires Forward(plan)
  {
    forall i :: 0 <= i < |plan| && !plan[i].critical ==> AncestorsCritical(plan, i)
  }
}
