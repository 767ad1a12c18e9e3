/**
 * Runs in which one thread at a time is carried to its end and the provider answers as told (chain/executor.py): enough to
 * reach what some run reaches.
 */
module PlayedRuns {
  import opened Collections
  import opened Models
  import opened ExecutorMachine
  import opened ExecutorInvariants
  import opened ExecutorProperties
  import Blocking

  /** The first thread at work from `k` on. */
  function BusyFrom(phase: seq<Phase>, k: nat): (i: Option<nat>)
    requires k <= |phase|
    ensures i.Some? ==> k <= i.value < |phase| && !phase[i.value].Idle?
    ensures i.None? ==> forall j :: k <= j < |phase| ==> phase[j].Idle?
    decreases |phase| - k
  {
    if k == |phase| then None else if !phase[k].Idle? then Some(k) else BusyFrom(phase, k + 1)
  }

  function Busy(m: Machine): (i: Option<nat>)
    ensures i.Some? ==> i.value < |m.phase| && !m.phase[i.value].Idle?
    ensures i.None? ==> AllIdle(m)
  {
    BusyFrom(m.phase, 0)
  }

  /** At most one thread is at work. */
  predicate Alone(m: Machine) {
    forall i, j :: 0 <= i < j < |m.phase| ==> m.phase[i].Idle? || m.phase[j].Idle?
  }

  /** The next action: the thread at work goes on, with `answer` for a provider call; without one the scheduler does. */
  function NextAction(m: Machine, answer: Outcome): Action
    requires !m.pc.Finished?
  {
    match Busy(m)
    case Some(i) =>
      (match m.phase[i]
       case Submitted => Start(i)
       case Checking(_) => Reserve(i, false)
       case Calling(_) => Return(i, answer)
       case HasResult(_, _) => Merge(i)
       case HasFailure(_, _) => Merge(i)
       case Saving => SaveStep(i, true))
    case None =>
      match m.pc
      case Begin => BeginRun
      case Head => HeadRound(false)
      case Submitting(_) => Submit
      case Draining => EndRound
      case Exiting => FinishRun(true)
  }

  lemma NextIsEnabled(m: Machine, answer: Outcome)
    requires Inv(m) && !m.pc.Finished?
    ensures Enabled(m, NextAction(m, answer))
    ensures !NextAction(m, answer).RequestCancel? && !NextAction(m, answer).LoadFails?
  {
    if Busy(m).Some? {
      ThreadIsEnabled(m, Busy(m).value, answer);
    }
  }

  lemma ThreadIsEnabled(m: Machine, i: nat, answer: Outcome)
    requires SameLengths(m) && Busy(m) == Some(i) && !m.pc.Finished?
    ensures Enabled(m, NextAction(m, answer))
  {
  }

  // ---- one thread at work --------------------------------------------------------------------

  lemma {:induction false} OnlyBusy(phase: seq<Phase>, k: nat, i: nat)
    requires k <= i < |phase| && !phase[i].Idle? && forall j :: k <= j < i ==> phase[j].Idle?
    ensures BusyFrom(phase, k) == Some(i)
    decreases i - k
  {
    if k < i {
      OnlyBusy(phase, k + 1, i);
    }
  }

  lemma {:induction false} NoneBusy(phase: seq<Phase>, k: nat)
    requires k <= |phase| && forall j :: k <= j < |phase| ==> phase[j].Idle?
    ensures BusyFrom(phase, k) == None
    decreases |phase| - k
  {
  }

  lemma ThreadBusyAfter(m: Machine, n: Machine, i: nat, p: Phase)
    requires Alone(m) && Busy(m) == Some(i) && n.phase == m.phase[i := p]
    ensures Busy(n) == (if p.Idle? then None else Some(i)) && Alone(n)
  {
    assert forall j :: 0 <= j < |n.phase| && j != i ==> n.phase[j].Idle?;
    if p.Idle? {
      NoneBusy(n.phase, 0);
    } else {
      OnlyBusy(n.phase, 0, i);
    }
  }

  lemma BusyFirst(phase: seq<Phase>, i: nat)
    requires i < |phase| && forall j :: 0 <= j < |phase| ==> phase[j].Idle?
    ensures BusyFrom(phase[i := Submitted], 0) == Some(i)
  {
    OnlyBusy(phase[i := Submitted], 0, i);
  }

  lemma ThreadBusy(m: Machine, a: Action, i: nat)
    requires SameLengths(m) && Alone(m) && Busy(m) == Some(i) && !m.cancelled && ThreadAction(a) && a.i == i && !a.LoadFails?
    requires Enabled(m, a)
    ensures var n := Apply(m, a);
      && Alone(n) && Busy(n) == (if n.phase[i].Idle? then None else Some(i))
      && n.pc == m.pc && n.exn == m.exn && !n.cancelled
  {
    var n := Apply(m, a);
    ThreadBusyAfter(m, n, i, n.phase[i]);
  }

  lemma InFlightHere(m: Machine, i: nat)
    requires Inv(m) && i < |m.phase| && m.phase[i].Calling?
    ensures m.reserved >= 1
  {
    SumByAtLeast(m.phase, InFlight, i);
  }

  // ---- runs -----------------------------------------------------------------------------------

  /** Putting an action in front of a run. */
  lemma InFront(m: Machine, a: Action, acts: seq<Action>)
    requires Enabled(m, a) && CanRun(Apply(m, a), acts)
    ensures CanRun(m, [a] + acts) && Run(m, [a] + acts) == Run(Apply(m, a), acts)
  {
    assert ([a] + acts)[1..] == acts;
  }

  lemma InFrontUndisturbed(a: Action, acts: seq<Action>)
    requires OnlyProviderFails(acts) && !a.RequestCancel? && !a.LoadFails?
    ensures OnlyProviderFails([a] + acts)
  {
    forall k | 0 <= k < |[a] + acts| ensures !([a] + acts)[k].RequestCancel? && !([a] + acts)[k].LoadFails? {
      if k > 0 {
        assert ([a] + acts)[k] == acts[k - 1];
      }
    }
  }

  lemma {:induction false} Joined(m: Machine, a: seq<Action>, b: seq<Action>)
    requires CanRun(m, a) && CanRun(Run(m, a), b)
    ensures CanRun(m, a + b) && Run(m, a + b) == Run(Run(m, a), b)
    decreases |a|
  {
    if a == [] {
      assert a + b == b;
    } else {
      assert (a + b)[1..] == a[1..] + b;
      Joined(Apply(m, a[0]), a[1..], b);
    }
  }

  /** Nothing has failed or been skipped, no thread is at work, something is pending: then something is ready. */
  lemma SomethingReady(plan: Plan, status: seq<Status>)
    requires |plan| == |status| && Forward(plan) && HasPending(status)
    requires forall j :: 0 <= j < |status| ==> status[j] == Pending || status[j] == Success
    ensures ReadySteps(plan, status) != []
  {
    var i :| 0 <= i < |status| && status[i] == Pending;
    ReadyBelow(plan, status, i);
  }

  lemma {:induction false} ReadyBelow(plan: Plan, status: seq<Status>, i: nat)
    requires |plan| == |status| && Forward(plan) && i < |plan| && status[i] == Pending
    requires forall j :: 0 <= j < |status| ==> status[j] == Pending || status[j] == Success
    ensures ReadySteps(plan, status) != []
    decreases i
  {
    if Ready(plan, status, i) {
      assert i in ReadySteps(plan, status);
    } else {
      var d :| d in plan[i].dependsOn && StatusOf(plan, status, d) != Some(Success);
      ReadyBelow(plan, status, FindStep(plan, d).value);
    }
  }
}
