/** What `_skip_blocked_steps` (chain/executor.py) computes, stated without its sweeps. */
module Blocking {
  import opened Collections
  import opened Models

  /** `after` differs from `before` only where a pending step became skipped. */
  predicate OnlySkips(before: seq<Status>, after: seq<Status>) {
    && |after| == |before|
    && forall i :: 0 <= i < |before| ==> after[i] == before[i] || (before[i] == Pending && after[i] == Skipped)
  }

  /** Every step that was skipped may be skipped and has a failed dependency in the end. */
  predicate SkipsJustified(plan: Plan, policy: Policy, before: seq<Status>, after: seq<Status>)
    requires |plan| == |before| == |after|
  {
    forall i :: 0 <= i < |plan| && before[i] == Pending && after[i] == Skipped ==>
      Skippable(plan, policy, i) && DepFailed(plan, after, i)
  }

  /** Nothing that must be skipped is left pending. */
  predicate NothingBlocked(plan: Plan, policy: Policy, status: seq<Status>)
    requires |plan| == |status|
  {
    forall i :: 0 <= i < |plan| ==> !Blocked(plan, policy, status, i)
  }

  predicate IsSkipClosure(plan: Plan, policy: Policy, before: seq<Status>, after: seq<Status>)
    requires |plan| == |before|
  {
    && OnlySkips(before, after)
    && SkipsJustified(plan, policy, before, after)
    && NothingBlocked(plan, policy, after)
  }

  lemma DepFailedMonotone(plan: Plan, before: seq<Status>, after: seq<Status>, i: nat)
    requires |plan| == |before| && OnlySkips(before, after) && i < |plan|
    requires DepFailed(plan, before, i)
    ensures DepFailed(plan, after, i)
  {
    var d :| d in plan[i].dependsOn && var s := StatusOf(plan, before, d); s.Some? && FailedStatus(s.value);
    assert StatusOf(plan, after, d).Some? && FailedStatus(StatusOf(plan, after, d).value);
  }

  lemma {:induction false} SweepJustified(plan: Plan, policy: Policy, status: seq<Status>, from: nat)
    requires |plan| == |status| && from <= |plan|
    ensures var r := SkipSweep(plan, policy, status, from);
      OnlySkips(status, r) && SkipsJustified(plan, policy, status, r)
    decreases |plan| - from
  {
    if from < |plan| {
      var r := SkipSweep(plan, policy, status, from);
      SweepOnlySkips(plan, policy, status, from);
      if Blocked(plan, policy, status, from) {
        SweepJustified(plan, policy, status[from := Skipped], from + 1);
        DepFailedMonotone(plan, status, r, from);
      } else {
        SweepJustified(plan, policy, status, from + 1);
      }
    }
  }

  /** The loop computes a closure: skips only what it must, and all of it. */
  lemma {:induction false} SkipBlockedIsClosure(plan: Plan, policy: Policy, status: seq<Status>)
    requires |plan| == |status|
    ensures IsSkipClosure(plan, policy, status, SkipBlocked(plan, policy, status))
    decreases CountPending(status)
  {
    var next := SkipSweep(plan, policy, status, 0);
    SweepOnlySkips(plan, policy, status, 0);
    SweepJustified(plan, policy, status, 0);
    if next != status {
      SkipBlockedIsClosure(plan, policy, next);
      var r := SkipBlocked(plan, policy, next);
      forall i | 0 <= i < |plan| && status[i] == Pending && r[i] == Skipped
        ensures Skippable(plan, policy, i) && DepFailed(plan, r, i)
      {
        if next[i] == Skipped {
          DepFailedMonotone(plan, next, r, i);
        }
      }
    }
  }

  lemma {:induction false} ClosureUniqueAt(plan: Plan, policy: Policy, before: seq<Status>,
                        a: seq<Status>, b: seq<Status>, i: nat)
    requires |plan| == |before| && Forward(plan) && i < |plan|
    requires IsSkipClosure(plan, policy, before, a) && IsSkipClosure(plan, policy, before, b)
    ensures a[i] == b[i]
    decreases i
  {
    forall d | d in plan[i].dependsOn
      ensures StatusOf(plan, a, d) == StatusOf(plan, b, d)
    {
      ClosureUniqueAt(plan, policy, before, a, b, FindStep(plan, d).value);
    }
    assert DepFailed(plan, a, i) <==> DepFailed(plan, b, i);
    assert !Blocked(plan, policy, a, i) && !Blocked(plan, policy, b, i);
  }

  /** On an acyclic plan the closure is unique, so the three conditions define the result. */
  lemma SkipBlockedDefined(plan: Plan, policy: Policy, before: seq<Status>, after: seq<Status>)
    requires |plan| == |before| && Forward(plan)
    ensures after == SkipBlocked(plan, policy, before) <==> IsSkipClosure(plan, policy, before, after)
  {
    SkipBlockedIsClosure(plan, policy, before);
    var r := SkipBlocked(plan, policy, before);
    if IsSkipClosure(plan, policy, before, after) {
      forall i | 0 <= i < |plan| ensures after[i] == r[i] {
        ClosureUniqueAt(plan, policy, before, after, r, i);
      }
    }
  }

  lemma {:induction false} StuckStepSettles(plan: Plan, policy: Policy, status: seq<Status>, i: nat)
    requires |plan| == |status| && Forward(plan) && i < |plan|
    requires ReadySteps(plan, status) == []
    requires forall j :: 0 <= j < |status| ==> status[j] != Running
    requires forall j :: 0 <= j < |plan| && status[j] == Pending ==> Skippable(plan, policy, j)
    ensures Terminal(SkipBlocked(plan, policy, status)[i])
    decreases i
  {
    var r := SkipBlocked(plan, policy, status);
    SkipBlockedIsClosure(plan, policy, status);
    if status[i] == Pending {
      assert !Ready(plan, status, i);
      var d :| d in plan[i].dependsOn && StatusOf(plan, status, d) != Some(Success);
      var k := FindStep(plan, d).value;
      StuckStepSettles(plan, policy, status, k);
      assert StatusOf(plan, r, d) == Some(r[k]) && FailedStatus(r[k]);
      assert Skippable(plan, policy, i) && DepFailed(plan, r, i);
      assert !Blocked(plan, policy, r, i);
    }
  }

  /**
   * When no step is ready, skipping settles every step exactly when each pending step is critical
   * or optional failures are not tolerated. Otherwise the round ends with pending steps.
   */
  lemma StuckRoundSettlesIff(plan: Plan, policy: Policy, status: seq<Status>)
    requires |plan| == |status| && Forward(plan)
    requires ReadySteps(plan, status) == []
    requires forall j :: 0 <= j < |status| ==> status[j] != Running
    ensures Complete(SkipBlocked(plan, policy, status)) <==>
            forall j :: 0 <= j < |plan| && status[j] == Pending ==> Skippable(plan, policy, j)
  {
    var r := SkipBlocked(plan, policy, status);
    SkipBlockedIsClosure(plan, policy, status);
    if forall j :: 0 <= j < |plan| && status[j] == Pending ==> Skippable(plan, policy, j) {
      forall i | 0 <= i < |plan| ensures Terminal(r[i]) {
        StuckStepSettles(plan, policy, status, i);
      }
    } else {
      var j :| 0 <= j < |plan| && status[j] == Pending && !Skippable(plan, policy, j);
      assert r[j] == Pending;
      assert !Terminal(r[j]);
    }
  }

  /** A critical step whose ancestors are all critical is never skipped without a critical error above it. */
  lemma {:induction false} CriticalChainIntact(plan: Plan, policy: Policy, status: seq<Status>, k: nat)
    requires |plan| == |status| && Forward(plan) && k < |plan|
    requires !HasCriticalFailure(plan, status)
    requires forall j :: 0 <= j < |status| ==> status[j] != Skipped
    requires plan[k].critical && AncestorsCritical(plan, k)
    ensures !FailedStatus(SkipBlocked(plan, policy, status)[k])
    decreases k
  {
    var r := SkipBlocked(plan, policy, status);
    SkipBlockedIsClosure(plan, policy, status);
    if FailedStatus(r[k]) {
      assert status[k] != Error;
      var d :| d in plan[k].dependsOn && var s := StatusOf(plan, r, d); s.Some? && FailedStatus(s.value);
      CriticalChainIntact(plan, policy, status, FindStep(plan, d).value);
      assert false;
    }
  }

  lemma {:induction false} StuckRoundSettlesAt(plan: Plan, policy: Policy, status: seq<Status>, i: nat)
    requires |plan| == |status| && Forward(plan) && OptionalBelowCritical(plan) && i < |plan|
    requires ReadySteps(plan, status) == [] && !HasCriticalFailure(plan, status)
    requires forall j :: 0 <= j < |status| ==> status[j] != Running && status[j] != Skipped
    ensures Terminal(SkipBlocked(plan, policy, status)[i])
    decreases i
  {
    var r := SkipBlocked(plan, policy, status);
    SkipBlockedIsClosure(plan, policy, status);
    if r[i] == Pending {
      assert !Ready(plan, status, i);
      var d :| d in plan[i].dependsOn && StatusOf(plan, status, d) != Some(Success);
      var k := FindStep(plan, d).value;
      StuckRoundSettlesAt(plan, policy, status, k);
      assert StatusOf(plan, r, d) == Some(r[k]) && FailedStatus(r[k]);
      assert DepFailed(plan, r, i) && !Blocked(plan, policy, r, i);
      CriticalChainIntact(plan, policy, status, k);
    }
  }

  /** Plans whose optional steps hang below critical ones never leave a step pending in a stuck round. */
  lemma StuckRoundSettles(plan: Plan, policy: Policy, status: seq<Status>)
    requires |plan| == |status| && Forward(plan) && OptionalBelowCritical(plan)
    requires ReadySteps(plan, status) == [] && !HasCriticalFailure(plan, status)
    requires forall j :: 0 <= j < |status| ==> status[j] != Running && status[j] != Skipped
    ensures Complete(SkipBlocked(plan, policy, status))
  {
    var r := SkipBlocked(plan, policy, status);
    forall i | 0 <= i < |r| ensures Terminal(r[i]) {
      StuckRoundSettlesAt(plan, policy, status, i);
    }
  }
}
