/**
 * Runs in which one optional step fails at once and every other step that is called succeeds at once (chain/executor.py):
 * what is left below the failed step, and on which plans every run settles.
 */
module OneFailure {
  import opened Collections
  import opened Models
  import opened ExecutorMachine
  import opened ExecutorInvariants
  import opened ExecutorProperties
  import opened PlayedRuns
  import Blocking
  import Strategies

  /** Only step `e` fails. */
  function Reply(m: Machine, e: nat): Outcome {
    if Busy(m) == Some(e) then Fatal else Answer("")
  }

  /** A step on its way, called at most once; `fails` says whether it is the one that fails. */
  predicate OnceOk(status: Status, phase: Phase, calls: nat, fails: bool) {
    && calls <= 1
    && status != Skipped && (status == Error ==> fails) && (status == Success ==> !fails)
    && match phase
       case Checking(attempt) => attempt == 0
       case HasResult(_, _) => !fails
       case HasFailure(_, _) => fails
       case _ => true
  }

  predicate AllOnceOk(m: Machine, e: nat)
    requires SameLengths(m)
  {
    forall j :: 0 <= j < |m.plan| ==> OnceOk(m.status[j], m.phase[j], m.calls[j], j == e)
  }

  /** What the plan and the policy must give. */
  predicate Suitable(plan: Plan, policy: Policy, e: nat) {
    && UniqueIds(plan) && Forward(plan) && (forall j :: 0 <= j < |plan| ==> plan[j].policyKnown)
    && policy.stopCondition == AllRequired && |plan| <= policy.maxProviderCalls
    && e < |plan| && !plan[e].critical
  }

  /** Still in the loop. */
  predicate Going(m: Machine, e: nat) {
    && SameLengths(m) && Alone(m) && Undisturbed(m) && Suitable(m.plan, m.policy, e)
    && !m.pc.Exiting? && !m.pc.Finished?
    && AllOnceOk(m, e)
  }

  /** Every step that was not started waits for something that did not succeed. */
  predicate OthersWait(plan: Plan, status: seq<Status>)
    requires |plan| == |status|
  {
    forall j :: 0 <= j < |plan| && (status[j] == Pending || status[j] == Skipped) ==> !DepsMet(plan, status, j)
  }

  /** Nothing is left to do, nothing was skipped without need. */
  predicate Exhausted(plan: Plan, policy: Policy, status: seq<Status>, e: nat)
    requires |plan| == |status|
  {
    && (forall j :: 0 <= j < |plan| ==> status[j] != Running && (status[j] == Error ==> j == e))
    && (e < |plan| ==> status[e] != Success)
    && (forall j :: 0 <= j < |plan| && status[j] == Skipped ==> Skippable(plan, policy, j))
    && Blocking.NothingBlocked(plan, policy, status) && OthersWait(plan, status)
  }

  /** Out of the loop. */
  predicate Over(m: Machine, e: nat) {
    && SameLengths(m) && Undisturbed(m) && Suitable(m.plan, m.policy, e)
    && ((m.pc.Exiting? && m.runStatus == RunRunning) || (m.pc.Finished? && m.runStatus == Completed))
    && Exhausted(m.plan, m.policy, m.status, e)
  }

  // ---- one action -----------------------------------------------------------------------------

  lemma OneThreadMoves(m: Machine, n: Machine, e: nat, i: nat)
    requires SameLengths(m) && SameLengths(n) && n.plan == m.plan && i < |m.plan| && AllOnceOk(m, e)
    requires forall j :: 0 <= j < |m.plan| && j != i ==>
               n.status[j] == m.status[j] && n.phase[j] == m.phase[j] && n.calls[j] == m.calls[j]
    requires OnceOk(n.status[i], n.phase[i], n.calls[i], i == e)
    ensures AllOnceOk(n, e)
  {
  }

  /** A step that was not called leaves a call to make. */
  lemma CallLeft(m: Machine, e: nat, i: nat)
    requires Inv(m) && SameLengths(m) && AllOnceOk(m, e) && i < |m.plan| && m.calls[i] == 0
    requires |m.plan| <= m.policy.maxProviderCalls
    ensures m.attempted + m.reserved < m.policy.maxProviderCalls
  {
    Strategies.SumBounded(m.calls, 1, i);
  }

  /** A thread that moves as told leaves its own step on its way. */
  lemma ThreadStepOk(m: Machine, e: nat, i: nat)
    requires Inv(m) && Going(m, e) && Busy(m) == Some(i)
    requires m.phase[i].Checking? ==> m.attempted + m.reserved < m.policy.maxProviderCalls
    ensures Enabled(m, NextAction(m, Reply(m, e)))
    ensures var n := Apply(m, NextAction(m, Reply(m, e)));
      && OnceOk(n.status[i], n.phase[i], n.calls[i], i == e)
      && forall j :: 0 <= j < |m.plan| && j != i ==>
           n.status[j] == m.status[j] && n.phase[j] == m.phase[j] && n.calls[j] == m.calls[j]
  {
    assert LocalOk(m.policy.maxRetries, m.exn, m.status[i], m.phase[i], m.starts[i], m.calls[i]);
    assert OnceOk(m.status[i], m.phase[i], m.calls[i], i == e);
  }

  lemma CheckingUncalled(m: Machine, e: nat, i: nat)
    requires Inv(m) && Going(m, e) && i < |m.plan| && m.phase[i].Checking?
    ensures m.attempted + m.reserved < m.policy.maxProviderCalls
  {
    assert LocalOk(m.policy.maxRetries, m.exn, m.status[i], m.phase[i], m.starts[i], m.calls[i]);
    assert OnceOk(m.status[i], m.phase[i], m.calls[i], i == e);
    CallLeft(m, e, i);
  }

  lemma ThreadGoes(m: Machine, e: nat)
    requires Inv(m) && Going(m, e) && Busy(m).Some?
    ensures Enabled(m, NextAction(m, Reply(m, e))) && Going(Apply(m, NextAction(m, Reply(m, e))), e)
  {
    var i, a := Busy(m).value, NextAction(m, Reply(m, e));
    if m.phase[i].Checking? {
      CheckingUncalled(m, e, i);
    }
    ThreadStepOk(m, e, i);
    ThreadBusy(m, a, i);
    OneThreadMoves(m, Apply(m, a), e, i);
  }

  lemma HeadPlaces(m: Machine, e: nat)
    requires Inv(m) && Going(m, e) && m.pc.Head?
    ensures forall j :: 0 <= j < |m.status| ==> m.status[j] == Pending || m.status[j] == Success || (m.status[j] == Error && j == e)
    ensures !Complete(m.status) ==> m.iteration < 3 * |m.plan| && m.attempted < m.policy.maxProviderCalls && HasPending(m.status)
  {
    SettledPlaces(m);
    if !Complete(m.status) {
      CapNeverDecides(m);
      var i :| 0 <= i < |m.status| && !Terminal(m.status[i]);
      assert LocalOk(m.policy.maxRetries, m.exn, m.status[i], m.phase[i], m.starts[i], m.calls[i]);
      CallLeft(m, e, i);
    }
  }

  /** With nothing ready, what was skipped and what is left wait for something that did not succeed. */
  lemma StuckExhausted(plan: Plan, policy: Policy, status: seq<Status>, e: nat)
    requires |plan| == |status| && e < |plan| && ReadySteps(plan, status) == []
    requires forall j :: 0 <= j < |status| ==> status[j] == Pending || (status[j] == Success && j != e) || (status[j] == Error && j == e)
    ensures Exhausted(plan, policy, SkipBlocked(plan, policy, status), e)
  {
    var r := SkipBlocked(plan, policy, status);
    Blocking.SkipBlockedIsClosure(plan, policy, status);
    forall j | 0 <= j < |plan| && (r[j] == Pending || r[j] == Skipped) ensures !DepsMet(plan, r, j) {
      assert !Ready(plan, status, j);
      var d :| d in plan[j].dependsOn && StatusOf(plan, status, d) != Some(Success);
      assert StatusOf(plan, r, d) != Some(Success);
    }
  }

  lemma CompleteExhausted(plan: Plan, policy: Policy, status: seq<Status>, e: nat)
    requires |plan| == |status| && e < |plan| && Complete(status)
    requires forall j :: 0 <= j < |status| ==> status[j] == Pending || (status[j] == Success && j != e) || (status[j] == Error && j == e)
    ensures Exhausted(plan, policy, status, e)
  {
  }

  lemma HeadGoes(m: Machine, e: nat)
    requires Inv(m) && Going(m, e) && m.pc.Head? && Busy(m).None?
    ensures var n := DoHead(m, false); Going(n, e) || Over(n, e)
  {
    HeadPlaces(m, e);
    if Complete(m.status) {
      CompleteExhausted(m.plan, m.policy, m.status, e);
      assert DoHead(m, false) == Exit(m, NoExn);
    } else {
      assert DoHead(m, false) == Dispatch(m.(iteration := m.iteration + 1));
      DispatchGoes(m.(iteration := m.iteration + 1), e);
    }
  }

  lemma DispatchGoes(m: Machine, e: nat)
    requires SameLengths(m) && Going(m, e) && m.pc.Head? && AllIdle(m) && m.runStatus == RunRunning
    requires HasPending(m.status)
    requires forall j :: 0 <= j < |m.status| ==> m.status[j] == Pending || m.status[j] == Success || (m.status[j] == Error && j == e)
    ensures var n := Dispatch(m); Going(n, e) || Over(n, e)
  {
    var n, ready := Dispatch(m), ReadySteps(m.plan, m.status);
    if ready == [] {
      StuckExhausted(m.plan, m.policy, m.status, e);
    } else if n.pc.Draining? {
      assert ready[0] in ready;
      BusyFirst(m.phase, ready[0]);
    }
  }

  lemma SubmitGoes(m: Machine, e: nat)
    requires Inv(m) && Going(m, e) && m.pc.Submitting? && Busy(m).None?
    ensures Going(DoSubmit(m), e)
  {
    if m.pc.rest != [] {
      assert m.pc.rest[0] in m.pc.rest;
      OneThreadMoves(m, DoSubmit(m), e, m.pc.rest[0]);
    }
  }

  lemma EndRoundGoes(m: Machine, e: nat)
    requires Inv(m) && Going(m, e) && m.pc.Draining? && Busy(m).None?
    ensures Enabled(m, EndRound) && Going(DoEndRound(m), e)
  {
  }

  lemma SchedulerGoes(m: Machine, e: nat)
    requires Inv(m) && Going(m, e) && Busy(m).None?
    ensures Enabled(m, NextAction(m, Reply(m, e)))
    ensures var n := Apply(m, NextAction(m, Reply(m, e))); Going(n, e) || Over(n, e)
  {
    match m.pc
    case Begin =>
    case Head => HeadGoes(m, e);
    case Submitting(_) => SubmitGoes(m, e);
    case Draining => EndRoundGoes(m, e);
  }

  // ---- the run --------------------------------------------------------------------------------

  lemma FinishOver(m: Machine, e: nat)
    requires Inv(m) && Over(m, e) && m.pc.Exiting?
    ensures Over(DoFinish(m, true), e) && DoFinish(m, true).pc.Finished?
  {
  }

  lemma PlayedToEnd(m: Machine, e: nat) returns (acts: seq<Action>)
    requires Inv(m) && (Going(m, e) || Over(m, e))
    ensures CanRun(m, acts) && OnlyProviderFails(acts) && Run(m, acts).pc.Finished? && Over(Run(m, acts), e)
    ensures Inv(Run(m, acts))
    decreases Measure(m)
  {
    if m.pc.Finished? {
      acts := [];
    } else {
      var a := NextAction(m, Reply(m, e));
      NextIsEnabled(m, Reply(m, e));
      if Over(m, e) {
        FinishOver(m, e);
      } else if Busy(m).Some? {
        ThreadGoes(m, e);
      } else {
        SchedulerGoes(m, e);
      }
      StepKeepsInv(m, a);
      ActionDecreases(m, a);
      var rest := PlayedToEnd(Apply(m, a), e);
      InFront(m, a, rest);
      InFrontUndisturbed(a, rest);
      acts := [a] + rest;
    }
  }

  /** No step above the failing one is left waiting, so it was called. */
  lemma {:induction false} AboveSucceeds(plan: Plan, policy: Policy, status: seq<Status>, e: nat, i: nat)
    requires |plan| == |status| && Forward(plan) && i <= e < |plan| && Exhausted(plan, policy, status, e)
    ensures status[i] != Pending && status[i] != Skipped
    decreases i
  {
    if status[i] == Pending || status[i] == Skipped {
      var d :| d in plan[i].dependsOn && StatusOf(plan, status, d) != Some(Success);
      AboveSucceeds(plan, policy, status, e, FindStep(plan, d).value);
      assert false;
    }
  }

  /** The run of which this module speaks. */
  lemma OneFailureRun(plan: Plan, policy: Policy, e: nat) returns (acts: seq<Action>)
    requires Suitable(plan, policy, e)
    ensures CanRun(FreshRun(plan, policy), acts) && OnlyProviderFails(acts)
    ensures var m := Run(FreshRun(plan, policy), acts);
      && SameLengths(m) && m.plan == plan && m.policy == policy && m.pc.Finished? && m.runStatus == Completed
      && Exhausted(plan, policy, m.status, e) && DependencySafe(plan, m.status) && m.status[e] == Error
  {
    var m := FreshRun(plan, policy);
    FreshRunInv(plan, policy);
    acts := PlayedToEnd(m, e);
    RunKeepsSuccesses(m, acts);
    AboveSucceeds(plan, policy, Run(m, acts).status, e, e);
  }

  // ---- what is left below the failed step -----------------------------------------------------

  /** Step `i` depends on step `e`, directly or not. */
  predicate Below(plan: Plan, e: nat, i: nat)
    requires Forward(plan) && i < |plan|
    decreases i
  {
    exists d | d in plan[i].dependsOn :: var k := FindStep(plan, d).value; k == e || Below(plan, e, k)
  }

  /** Nothing below an error is ever started. */
  lemma {:induction false} BelowNeverStarts(plan: Plan, status: seq<Status>, e: nat, i: nat)
    requires |plan| == |status| && Forward(plan) && e < |plan| && i < |plan|
    requires DependencySafe(plan, status) && status[e] == Error && Below(plan, e, i)
    ensures status[i] == Pending || status[i] == Skipped
    decreases i
  {
    var d :| d in plan[i].dependsOn && var k := FindStep(plan, d).value; k == e || Below(plan, e, k);
    var k := FindStep(plan, d).value;
    if k != e {
      BelowNeverStarts(plan, status, e, k);
    }
    assert StatusOf(plan, status, d) == Some(status[k]);
  }

  /** A step whose ancestors are not all critical is below an optional one. */
  lemma {:induction false} OptionalAbove(plan: Plan, i: nat) returns (e: nat)
    requires Forward(plan) && i < |plan| && !AncestorsCritical(plan, i)
    ensures e < i && !plan[e].critical && Below(plan, e, i)
    decreases i
  {
    var d :| d in plan[i].dependsOn &&
      var k := FindStep(plan, d).value; !(plan[k].critical && AncestorsCritical(plan, k));
    var k := FindStep(plan, d).value;
    if plan[k].critical {
      e := OptionalAbove(plan, k);
      assert Below(plan, e, k);
    } else {
      e := k;
    }
  }

  /** Undisturbed runs, whatever the budget, the clock and the answers: each ends with every step settled. */
  ghost predicate AlwaysSettles(plan: Plan, policy: Policy) {
    forall budget: nat, acts :: SettlesIn(plan, policy.(maxProviderCalls := budget), acts)
  }

  predicate SettlesIn(plan: Plan, policy: Policy, acts: seq<Action>) {
    CanRun(FreshRun(plan, policy), acts) && OnlyProviderFails(acts) ==>
      var m := Run(FreshRun(plan, policy), acts);
      m.pc.Finished? ==> SameLengths(m) && Settled(m)
  }

  /** An optional step below an optional step is left pending when the upper one fails and optional failures are tolerated. */
  lemma LeftPending(plan: Plan, policy: Policy, e: nat, i: nat) returns (acts: seq<Action>)
    requires Suitable(plan, policy, e) && policy.continueOnOptionalFailure
    requires i < |plan| && !plan[i].critical && Below(plan, e, i)
    ensures CanRun(FreshRun(plan, policy), acts) && OnlyProviderFails(acts)
    ensures var m := Run(FreshRun(plan, policy), acts);
      && SameLengths(m) && m.plan == plan && m.pc.Finished? && m.runStatus == Completed
      && m.status[e] == Error && m.status[i] == Pending
  {
    acts := OneFailureRun(plan, policy, e);
    BelowNeverStarts(plan, Run(FreshRun(plan, policy), acts).status, e, i);
  }

  /**
   * Every undisturbed run of a plan settles every step exactly when optional failures stop others, or no optional step
   * hangs below another.
   */
  lemma AlwaysSettlesIff(plan: Plan, policy: Policy)
    requires UniqueIds(plan) && Forward(plan) && (forall j :: 0 <= j < |plan| ==> plan[j].policyKnown)
    requires policy.stopCondition == AllRequired
    ensures AlwaysSettles(plan, policy) <==> (policy.continueOnOptionalFailure ==> OptionalBelowCritical(plan))
  {
    if policy.continueOnOptionalFailure && !OptionalBelowCritical(plan) {
      var i :| 0 <= i < |plan| && !plan[i].critical && !AncestorsCritical(plan, i);
      var e := OptionalAbove(plan, i);
      var rich := policy.(maxProviderCalls := |plan|);
      var acts := LeftPending(plan, rich, e, i);
      assert !SettlesIn(plan, policy.(maxProviderCalls := |plan|), acts);
    } else {
      forall budget: nat, acts ensures SettlesIn(plan, policy.(maxProviderCalls := budget), acts) {
        SettlingSettles(plan, policy.(maxProviderCalls := budget), acts);
      }
    }
  }

  lemma SettlingSettles(plan: Plan, policy: Policy, acts: seq<Action>)
    requires Settling(plan, policy) && policy.stopCondition == AllRequired
    ensures SettlesIn(plan, policy, acts)
  {
    var m := FreshRun(plan, policy);
    if CanRun(m, acts) && OnlyProviderFails(acts) {
      FreshRunInv(plan, policy);
      RunSettles(m, acts);
    }
  }

  /**
   * A map-reduce run, however many files, in which one file's step fails: it ends as completed, and its reduce and
   * execute steps were skipped.
   */
  lemma MapReduceCompletesWithoutReducing(n: nat, parallel: int, e: nat) returns (acts: seq<Action>)
    requires e < n
    ensures var plan := Strategies.FanOut("map_", n, false, "mr_reduce", "mr_execute");
      var policy := Strategies.PolicyOf(n * 3 + 4, 2).(maxParallelSteps := parallel);
      && CanRun(FreshRun(plan, policy), acts) && OnlyProviderFails(acts)
      && var m := Run(FreshRun(plan, policy), acts);
         && SameLengths(m) && |m.plan| == n + 2 && m.pc.Finished? && m.runStatus == Completed
         && (forall j :: 0 <= j < n ==> m.status[j] == if j == e then Error else Success)
         && m.status[n] == Skipped && m.status[n + 1] == Skipped
  {
    var plan := Strategies.FanOut("map_", n, false, "mr_reduce", "mr_execute");
    var policy := Strategies.PolicyOf(n * 3 + 4, 2).(maxParallelSteps := parallel);
    Strategies.FanOutPlansWellFormed(n);
    acts := OneFailureRun(plan, policy, e);
    FoldSkipped("map_", n, "mr_reduce", "mr_execute", policy, Run(FreshRun(plan, policy), acts).status, e);
  }

  /** In a fan-out plan: everything but what gathers the failed part succeeds. */
  lemma FoldSkipped(prefix: string, n: nat, gather: string, act: string, policy: Policy, status: seq<Status>, e: nat)
    requires e < n && |status| == n + 2
    requires var plan := Strategies.FanOut(prefix, n, false, gather, act);
      && UniqueIds(plan) && Forward(plan) && Exhausted(plan, policy, status, e) && DependencySafe(plan, status)
    requires status[e] == Error
    ensures forall j :: 0 <= j < n ==> status[j] == if j == e then Error else Success
    ensures status[n] == Skipped && status[n + 1] == Skipped
  {
    var plan := Strategies.FanOut(prefix, n, false, gather, act);
    forall j | 0 <= j < n ensures status[j] == if j == e then Error else Success {
      assert plan[j].dependsOn == [];
    }
    assert plan[n].dependsOn[e] == plan[e].id;
    SkippedBelow(plan, policy, status, e, n, e);
    assert plan[n + 1].dependsOn[0] == plan[n].id;
    SkippedBelow(plan, policy, status, e, n + 1, n);
  }

  /** A critical step with a failed or skipped dependency is skipped in the end. */
  lemma SkippedBelow(plan: Plan, policy: Policy, status: seq<Status>, e: nat, i: nat, k: nat)
    requires |plan| == |status| && UniqueIds(plan) && Exhausted(plan, policy, status, e) && DependencySafe(plan, status)
    requires i < |plan| && k < |plan| && i != e && plan[k].id in plan[i].dependsOn
    requires plan[i].critical && FailedStatus(status[k])
    ensures status[i] == Skipped
  {
    assert StatusOf(plan, status, plan[k].id) == Some(status[k]);
    assert DepFailed(plan, status, i) && !DepsMet(plan, status, i);
    assert !Blocked(plan, policy, status, i);
  }
}
