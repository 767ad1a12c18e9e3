/** From the head of one round to the head of the next (chain/executor.py): the pending count falls. */
module ExecutorRounds {
  import opened Collections
  import opened Models
  import opened ExecutorMachine
  import opened ExecutorInvariants
  import opened ExecutorProperties
  import Blocking

  /** Nothing becomes pending again. */
  predicate PendingFalls(before: seq<Status>, after: seq<Status>) {
    |before| == |after| && forall j :: 0 <= j < |before| && after[j] == Pending ==> before[j] == Pending
  }

  lemma StepPendingFalls(m: Machine, a: Action)
    requires Inv(m) && Enabled(m, a)
    ensures PendingFalls(m.status, Apply(m, a).status)
  {
    if ThreadAction(a) {
      ThreadPendingFalls(m, a);
    } else {
      SchedulerPendingFalls(m, Apply(m, a));
    }
  }

  lemma ThreadPendingFalls(m: Machine, a: Action)
    requires SameLengths(m) && Enabled(m, a) && ThreadAction(a)
    ensures PendingFalls(m.status, Apply(m, a).status)
  {
  }

  lemma SchedulerPendingFalls(m: Machine, n: Machine)
    requires SchedulerMove(m, n)
    ensures PendingFalls(m.status, n.status)
  {
  }

  /** In a round: step `i` was started, will be, or the round ends in an exception. */
  predicate OnItsWay(m: Machine, i: nat)
    requires SameLengths(m) && i < |m.plan|
  {
    || m.exn != NoExn || m.status[i] != Pending || m.phase[i].Submitted?
    || (m.pc.Submitting? && i in m.pc.rest)
  }

  /** Past the head of a round that launches step `i`, up to the next head. */
  predicate Tracked(m: Machine, i: nat) {
    && SameLengths(m) && i < |m.plan|
    && (m.pc.Submitting? || m.pc.Draining? ==> OnItsWay(m, i))
    && (m.pc.Head? ==> m.status[i] != Pending)
    && !m.pc.Begin?
  }

  lemma ThreadElsewhere(m: Machine, a: Action, i: nat)
    requires SameLengths(m) && Enabled(m, a) && ThreadAction(a) && i < |m.plan| && i != a.i
    ensures Apply(m, a).status[i] == m.status[i] && Apply(m, a).phase[i] == m.phase[i]
  {
  }

  lemma ThreadLeavesScheduler(m: Machine, a: Action)
    requires SameLengths(m) && Enabled(m, a) && ThreadAction(a)
    ensures Apply(m, a).pc == m.pc && (m.exn != NoExn ==> Apply(m, a).exn != NoExn)
  {
  }

  /** What a thread has touched is not pending. */
  lemma ThreadStarted(m: Machine, a: Action)
    requires StepsOk(m) && Enabled(m, a) && ThreadAction(a)
    ensures Apply(m, a).status[a.i] != Pending
  {
    assert LocalOk(m.policy.maxRetries, m.exn, m.status[a.i], m.phase[a.i], m.starts[a.i], m.calls[a.i]);
  }

  lemma ThreadTracked(m: Machine, a: Action, i: nat)
    requires Inv(m) && Enabled(m, a) && Tracked(m, i) && ThreadAction(a)
    ensures Tracked(Apply(m, a), i)
  {
    ThreadLeavesScheduler(m, a);
    if a.i == i {
      ThreadStarted(m, a);
    } else {
      ThreadElsewhere(m, a, i);
    }
  }

  lemma RoundTracked(m: Machine, a: Action, i: nat)
    requires Inv(m) && Enabled(m, a) && Tracked(m, i) && (a.Submit? || a.EndRound?)
    ensures Tracked(Apply(m, a), i)
  {
    if a.EndRound? {
      assert m.phase[i].Idle?;
    } else if m.pc.rest != [] {
      assert forall x :: x in m.pc.rest <==> x == m.pc.rest[0] || x in m.pc.rest[1..];
    }
  }

  lemma StepTracked(m: Machine, a: Action, i: nat)
    requires Inv(m) && Enabled(m, a) && Tracked(m, i) && !a.HeadRound?
    ensures Tracked(Apply(m, a), i)
  {
    if ThreadAction(a) {
      ThreadTracked(m, a, i);
    } else if a.Submit? || a.EndRound? {
      RoundTracked(m, a, i);
    }
  }

  lemma {:induction false} RunTracked(m: Machine, acts: seq<Action>, i: nat)
    requires Inv(m) && CanRun(m, acts) && Tracked(m, i)
    requires forall k :: 0 <= k < |acts| ==> !acts[k].HeadRound?
    ensures Tracked(Run(m, acts), i) && PendingFalls(m.status, Run(m, acts).status) && SameLengths(Run(m, acts))
    decreases |acts|
  {
    if acts != [] {
      var n := Apply(m, acts[0]);
      StepKeepsInv(m, acts[0]);
      StepTracked(m, acts[0], i);
      StepPendingFalls(m, acts[0]);
      RunTracked(n, acts[1..], i);
    }
  }

  /** A round that goes on past its head launches its first ready step. */
  lemma HeadLaunches(m: Machine, timeUp: bool) returns (i: nat)
    requires Inv(m) && m.pc.Head? && !DoHead(m, timeUp).pc.Exiting?
    ensures i < |m.plan| && m.status[i] == Pending && Tracked(DoHead(m, timeUp), i)
  {
    var ready := ReadySteps(m.plan, m.status);
    assert ready[0] in ready;
    i := ready[0];
    var n := DoHead(m, timeUp);
    if n.pc.Submitting? {
      assert n.pc.rest[0] == i;
    }
  }

  lemma FewerPending(before: seq<Status>, after: seq<Status>, i: nat)
    requires PendingFalls(before, after) && i < |before| && before[i] == Pending && after[i] != Pending
    ensures CountPending(after) < CountPending(before)
  {
    SumByUpdate(after, IsPending, i, Pending);
    SumByMonotone(after[i := Pending], before, IsPending);
  }

  /** A whole round: a head, and whatever comes before the next one. */
  predicate OneRound(m: Machine, acts: seq<Action>) {
    && m.pc.Head? && acts != [] && acts[0].HeadRound? && CanRun(m, acts) && Run(m, acts).pc.Head?
    && forall k :: 1 <= k < |acts| ==> !acts[k].HeadRound?
  }

  /** From the head of any round to the head of the next fewer steps are pending. */
  lemma RoundShrinksPending(m: Machine, acts: seq<Action>)
    requires Inv(m) && OneRound(m, acts)
    ensures CountPending(Run(m, acts).status) < CountPending(m.status)
  {
    var n, rest := DoHead(m, acts[0].timeUp), acts[1..];
    StepKeepsInv(m, acts[0]);
    assert forall k :: 0 <= k < |rest| ==> rest[k] == acts[k + 1];
    if n.pc.Exiting? {
      NeverBackToHead(n, rest);
    } else {
      var i := HeadLaunches(m, acts[0].timeUp);
      RunTracked(n, rest, i);
      FewerPending(m.status, Run(n, rest).status, i);
    }
  }

  /** Once out of the loop there is no other round. */
  lemma {:induction false} NeverBackToHead(m: Machine, acts: seq<Action>)
    requires Inv(m) && CanRun(m, acts) && (m.pc.Exiting? || m.pc.Finished?)
    ensures !Run(m, acts).pc.Head?
    decreases |acts|
  {
    if acts != [] {
      StepKeepsInv(m, acts[0]);
      NeverBackToHead(Apply(m, acts[0]), acts[1..]);
    }
  }
}
