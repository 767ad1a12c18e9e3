/** Crash and resume (chain/resume.py): a run carried on over any number of legs from its state file. */
module Resume {
  import opened Collections
  import opened Models
  import opened ExecutorMachine
  import opened ExecutorInvariants
  import opened ExecutorProperties

  /** `can_resume`: only interrupted or failed runs are resumed. */
  predicate CanResume(s: Saved) {
    s.runStatus == RunRunning || s.runStatus == Failed
  }

  function ResetStatus(s: Status): Status {
    if s == Success then Success else Pending
  }

  /** `rebuild_run`: successes keep status and result, every other step goes back to pending, the budget is new. */
  function Rebuild(s: Saved): (m: Machine)
    requires |s.status| == |s.providerCalls| == |s.plan|
    ensures SameLengths(m) && m.plan == s.plan && m.policy == s.policy
  {
    Ready0(s.plan, s.policy, seq(|s.status|, i requires 0 <= i < |s.status| => ResetStatus(s.status[i])),
           s.results, s.providerCalls, Some(s))
  }

  /** Successes of `s` are successes of `t`, with the same results. */
  predicate Grows(s: Saved, t: Saved) {
    && |s.status| == |s.plan| && |t.status| == |t.plan|
    && t.plan == s.plan && t.policy == s.policy
    && forall i :: 0 <= i < |s.plan| && s.status[i] == Success ==>
         && t.status[i] == Success
         && s.plan[i].id in s.results && s.plan[i].id in t.results
         && t.results[s.plan[i].id] == s.results[s.plan[i].id]
  }

  /** A saved state can always be rebuilt into a good start. */
  lemma RebuildInv(s: Saved)
    requires SavedOk(s)
    ensures Inv(Rebuild(s))
  {
    var m := Rebuild(s);
    SumByZero(m.phase, InFlight);
    SumByZero(m.calls, Itself);
    DepsMetStable(s.plan, s.status, m.status);
    forall i | 0 <= i < |m.plan| && m.status[i] != Pending ensures DepsMet(m.plan, m.status, i) {
      assert s.status[i] == Success;
    }
  }

  /** The state file is only ever replaced by the current state. */
  lemma StepSaves(m: Machine, a: Action)
    requires Inv(m) && Enabled(m, a)
    ensures var n := Apply(m, a); n.saved == m.saved || n.saved == Some(StateOf(n))
  {
    if !a.SaveStep? && !a.FinishRun? {
      OthersSaveNothing(m, a);
    }
  }

  lemma OthersSaveNothing(m: Machine, a: Action)
    requires Enabled(m, a) && !a.SaveStep? && !a.FinishRun? && SameLengths(m)
    ensures Apply(m, a).saved == m.saved
  {
  }

  /** What the state file calls successful stays successful in every later state file. */
  lemma {:induction false} SavedGrows(m: Machine, acts: seq<Action>)
    requires Inv(m) && CanRun(m, acts) && m.saved.Some?
    ensures var n := Run(m, acts); n.saved.Some? && SavedOk(n.saved.value) && Grows(m.saved.value, n.saved.value)
    decreases |acts|
  {
    if acts != [] {
      var n := Apply(m, acts[0]);
      StepSaves(m, acts[0]);
      StepKeepsInv(m, acts[0]);
      StepKeepsSuccesses(m, acts[0]);
      assert Grows(m.saved.value, n.saved.value);
      SavedGrows(n, acts[1..]);
    }
  }

  /**
   * A leg runs the rebuilt state up to any point, where it may crash; the next leg starts from whatever
   * state file it left behind.
   */
  predicate Legs(s: Saved, legs: seq<seq<Action>>)
    decreases |legs|
  {
    legs == [] ||
    (SavedOk(s) && CanResume(s) && CanRun(Rebuild(s), legs[0]) &&
     var m := Run(Rebuild(s), legs[0]);
     m.saved.Some? && Legs(m.saved.value, legs[1..]))
  }

  /** The state file after all legs. */
  function LastSaved(s: Saved, legs: seq<seq<Action>>): Saved
    requires Legs(s, legs)
    decreases |legs|
  {
    if legs == [] then s else LastSaved(Run(Rebuild(s), legs[0]).saved.value, legs[1..])
  }

  /** How often all legs together start step `i`. */
  function StartsOver(s: Saved, legs: seq<seq<Action>>, i: nat): nat
    requires Legs(s, legs) && i < |s.plan|
    decreases |legs|
  {
    if legs == [] then 0
    else
      var m := Run(Rebuild(s), legs[0]);
      RebuildInv(s);
      SavedGrows(Rebuild(s), legs[0]);
      RunKeepsInv(Rebuild(s), legs[0]);
      RunKeepsSuccesses(Rebuild(s), legs[0]);
      m.starts[i] + StartsOver(m.saved.value, legs[1..], i)
  }

  /**
   * Exactly once over any number of legs and crashes: a step saved as success is never started again,
   * and its saved result is still there in the end.
   */
  lemma {:induction false} ExactlyOnce(s: Saved, legs: seq<seq<Action>>, i: nat)
    requires SavedOk(s) && Legs(s, legs) && i < |s.plan| && s.status[i] == Success
    ensures StartsOver(s, legs, i) == 0
    ensures SavedOk(LastSaved(s, legs)) && Grows(s, LastSaved(s, legs))
    decreases |legs|
  {
    if legs != [] {
      var m0 := Rebuild(s);
      var m := Run(m0, legs[0]);
      RebuildInv(s);
      SavedGrows(m0, legs[0]);
      RunKeepsInv(m0, legs[0]);
      RunKeepsSuccesses(m0, legs[0]);
      assert m0.status[i] == Success && m0.starts[i] == 0;
      ExactlyOnce(m.saved.value, legs[1..], i);
    }
  }

  /** The same from the very first leg: whatever a fresh run saved before it stopped is never redone or lost. */
  lemma FreshRunThenLegs(plan: Plan, policy: Policy, acts: seq<Action>, legs: seq<seq<Action>>, i: nat)
    requires UniqueIds(plan) && CanRun(FreshRun(plan, policy), acts)
    requires var m := Run(FreshRun(plan, policy), acts);
      m.saved.Some? && Legs(m.saved.value, legs) && i < |m.saved.value.plan| == |m.saved.value.status|
      && m.saved.value.status[i] == Success
    ensures var s := Run(FreshRun(plan, policy), acts).saved.value;
      && s.plan == plan
      && StartsOver(s, legs, i) == 0
      && Grows(s, LastSaved(s, legs))
  {
    FreshRunInv(plan, policy);
    RunKeepsInv(FreshRun(plan, policy), acts);
    RunKeepsSuccesses(FreshRun(plan, policy), acts);
    ExactlyOnce(Run(FreshRun(plan, policy), acts).saved.value, legs, i);
  }

  /**
   * A resumed leg in which only provider calls fail settles the run, as a first one does; the plan and the
   * policy come back from the state file unchanged.
   */
  lemma ResumedLegSettles(s: Saved, acts: seq<Action>)
    requires SavedOk(s) && WellFormed(s.plan) && s.policy.stopCondition == AllRequired
    requires CanRun(Rebuild(s), acts) && OnlyProviderFails(acts) && Run(Rebuild(s), acts).pc.Finished?
    ensures SameLengths(Run(Rebuild(s), acts)) && Settled(Run(Rebuild(s), acts))
  {
    RebuildInv(s);
    RunSettles(Rebuild(s), acts);
  }

  // ---- drift ----------------------------------------------------------------------------------

  type Path = string

  type Fingerprint = string

  datatype DriftReport = DriftReport(matched: seq<Path>, changed: seq<Path>, missing: seq<Path>)

  predicate HasDrift(r: DriftReport) {
    r.changed != [] || r.missing != []
  }

  datatype Verdict = Matched | Changed | Missing

  /** How one recorded file compares with the disk, given by the fingerprints of its readable files. */
  function Judge(record: (Path, Fingerprint), disk: map<Path, Fingerprint>): Verdict {
    if record.0 !in disk then Missing else if disk[record.0] == record.1 then Matched else Changed
  }

  /** The recorded paths with this verdict, in the order of the record. */
  function Select(records: seq<(Path, Fingerprint)>, disk: map<Path, Fingerprint>, v: Verdict): seq<Path> {
    if records == [] then []
    else
      var last := records[|records| - 1];
      Select(records[..|records| - 1], disk, v) + if Judge(last, disk) == v then [last.0] else []
  }

  lemma {:induction false} SelectEmpty(records: seq<(Path, Fingerprint)>, disk: map<Path, Fingerprint>, v: Verdict)
    ensures Select(records, disk, v) == [] <==> forall i :: 0 <= i < |records| ==> Judge(records[i], disk) != v
  {
    if records != [] {
      SelectEmpty(records[..|records| - 1], disk, v);
    }
  }

  /** `check_drift`: every recorded file lands in one list; there is no drift exactly when all still match. */
  method CheckDrift(records: seq<(Path, Fingerprint)>, disk: map<Path, Fingerprint>) returns (r: DriftReport)
    ensures r.matched == Select(records, disk, Matched)
    ensures r.changed == Select(records, disk, Changed)
    ensures r.missing == Select(records, disk, Missing)
    ensures |r.matched| + |r.changed| + |r.missing| == |records|
    ensures !HasDrift(r) <==> forall i :: 0 <= i < |records| ==> Judge(records[i], disk) == Matched
  {
    var matched, changed, missing := [], [], [];
    for k := 0 to |records|
      invariant matched == Select(records[..k], disk, Matched)
      invariant changed == Select(records[..k], disk, Changed)
      invariant missing == Select(records[..k], disk, Missing)
      invariant |matched| + |changed| + |missing| == k
    {
      assert records[..k + 1][..k] == records[..k];
      var (path, fingerprint) := records[k];
      if path !in disk {
        missing := missing + [path];
      } else if disk[path] == fingerprint {
        matched := matched + [path];
      } else {
        changed := changed + [path];
      }
    }
    assert records[..|records|] == records;
    SelectEmpty(records, disk, Changed);
    SelectEmpty(records, disk, Missing);
    r := DriftReport(matched, changed, missing);
  }
}
