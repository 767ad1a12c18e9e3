/**
 * Workers sharing a queue and project leases (worker.py, core/backends_redis.py, core/lease.py): every command sent
 * to the server is one step, and any worker may crash between two of them.
 */
module WorkerMachine {

  datatype Payload = Payload(runId: string, projectId: string, mode: string, message: string)

  datatype Lease = Lease(owner: string, deadline: int)

  /** Where a worker is in handling the entry `id`. */
  datatype Stage =
    | Dead
    | Idle
    | Claimed(id: nat)      // read from the queue, lease not asked for yet
    | Refused(id: nat)      // the project is someone else's
    | Requeued(id: nat)     // put back in the queue, old entry not acknowledged yet
    | Executing(id: nat)
    | Published(id: nat)    // the final result is on the event stream
    | Acked(id: nat)
  {
    predicate Working() {
      Executing? || Published? || Acked?
    }

    predicate Busy() {
      !Dead? && !Idle?
    }
  }

  /**
   * `entries` are all entries ever put in the queue, the first `delivered` of which have been read; `finals` are the
   * runs whose final result is published. `lapsed` remembers which workers have been without their lease at some
   * moment since they took it; no step depends on it.
   */
  datatype State = State(
    entries: seq<Payload>,
    delivered: nat,
    pending: map<nat, string>,
    finals: set<string>,
    leases: map<string, Lease>,
    now: int,
    ttl: int,
    workers: map<string, Stage>,
    lapsed: set<string>)

  datatype Action =
    | Submit(payload: Payload)
    | Tick(dt: nat)
    | Join(w: string)
    | Claim(w: string)
    | Reclaim(w: string, id: nat)
    | Acquire(w: string)
    | Requeue(w: string)
    | AckRequeued(w: string)
    | Publish(w: string)
    | AckDone(w: string)
    | Release(w: string)
    | Renew(w: string)
    | Fail(w: string)
    | Crash(w: string)

  function Fresh(ttl: int): State {
    State([], 0, map[], {}, map[], 0, ttl, map[], {})
  }

  function StageOf(s: State, w: string): Stage {
    if w in s.workers then s.workers[w] else Dead
  }

  /** The key of the lease is there and has this worker as its value. */
  predicate Holds(s: State, project: string, w: string) {
    project in s.leases && s.leases[project].owner == w && s.now < s.leases[project].deadline
  }

  predicate Free(s: State, project: string) {
    project in s.leases ==> s.leases[project].deadline <= s.now
  }

  function ProjectOf(s: State, id: nat): string {
    if id < |s.entries| then s.entries[id].projectId else ""
  }

  function Leased(s: State, project: string, w: string): State {
    s.(leases := s.leases[project := Lease(w, s.now + s.ttl)])
  }

  /** Deleting the key only when it is this worker's. */
  function Unleased(s: State, project: string, w: string): State {
    if Holds(s, project, w) then s.(leases := s.leases - {project}) else s
  }

  function At(s: State, w: string, stage: Stage): State {
    s.(workers := s.workers[w := stage])
  }

  function Later(s: State, dt: nat): State {
    var t := s.(now := s.now + dt);
    t.(lapsed := s.lapsed + set w | w in s.workers.Keys && s.workers[w].Working() && !Holds(t, ProjectOf(t, s.workers[w].id), w))
  }

  /** The effect of an action; one that is not possible changes nothing. */
  function Step(s: State, a: Action): State {
    match a
    case Submit(p) => s.(entries := s.entries + [p])
    case Tick(dt) => Later(s, dt)
    case Join(w) => if StageOf(s, w).Dead? then At(s, w, Idle) else s
    case Claim(w) =>
      if StageOf(s, w).Idle? && s.delivered < |s.entries| then
        At(s.(pending := s.pending[s.delivered := w], delivered := s.delivered + 1), w, Claimed(s.delivered))
      else s
    case Reclaim(w, id) =>
      if StageOf(s, w).Idle? && id in s.pending then At(s.(pending := s.pending[id := w]), w, Claimed(id)) else s
    case _ => WorkerStep(s, a)
  }

  /** What a worker does with the entry it has read. */
  function WorkerStep(s: State, a: Action): State
    requires !a.Submit? && !a.Tick? && !a.Join? && !a.Claim? && !a.Reclaim?
  {
    var stage := StageOf(s, a.w);
    if !stage.Busy() then
      if a.Crash? && stage.Idle? then At(s, a.w, Dead) else s
    else
      var project := ProjectOf(s, stage.id);
      match a
      case Acquire(w) =>
        if !stage.Claimed? then s
        else if Free(s, project) then At(Leased(s, project, w), w, Executing(stage.id)).(lapsed := s.lapsed - {w})
        else At(s, w, Refused(stage.id))
      case Requeue(w) =>
        if stage.Refused? && stage.id < |s.entries| then
          At(s.(entries := s.entries + [s.entries[stage.id]]), w, Requeued(stage.id))
        else s
      case AckRequeued(w) =>
        if stage.Requeued? then At(s.(pending := s.pending - {stage.id}), w, Idle) else s
      case Publish(w) =>
        if stage.Executing? && stage.id < |s.entries| then
          At(s.(finals := s.finals + {s.entries[stage.id].runId}), w, Published(stage.id))
        else s
      case AckDone(w) =>
        if stage.Published? then At(s.(pending := s.pending - {stage.id}), w, Acked(stage.id)) else s
      case Release(w) =>
        if stage.Acked? then At(Unleased(s, project, w), w, Idle) else s
      case Renew(w) =>
        if stage.Working() && Holds(s, project, w) then Leased(s, project, w) else s
      case Fail(w) =>
        if stage.Executing? || stage.Published? then At(Unleased(s, project, w), w, Dead) else s
      case Crash(w) => At(s, w, Dead)
  }

  function Run(s: State, acts: seq<Action>): State
    decreases |acts|
  {
    if acts == [] then s else Run(Step(s, acts[0]), acts[1..])
  }

  lemma {:induction false} RunAppend(s: State, a: seq<Action>, b: seq<Action>)
    ensures Run(s, a + b) == Run(Run(s, a), b)
    decreases |a|
  {
    if a == [] {
      assert a + b == b;
    } else {
      assert (a + b)[1..] == a[1..] + b;
      RunAppend(Step(s, a[0]), a[1..], b);
    }
  }

  // ---- no work is lost ------------------------------------------------------------------------

  /** The entry has not been read yet, or was read and not acknowledged. */
  predicate Live(s: State, j: int) {
    (s.delivered <= j < |s.entries|) || (0 <= j && j in s.pending)
  }

  /** Its final result is published, or a live entry at `from` or later carries it. */
  ghost predicate CoveredFrom(s: State, p: Payload, from: int) {
    p.runId in s.finals || exists j :: from <= j < |s.entries| && Live(s, j) && s.entries[j] == p
  }

  ghost predicate PendingOk(s: State) {
    s.delivered <= |s.entries| && forall j :: j in s.pending ==> j < s.delivered
  }

  /** What a stage says about its entry: a requeued one has a later copy, a published one its final result. */
  ghost predicate StageOk(s: State, w: string) {
    var stage := StageOf(s, w);
    stage.Busy() ==>
      && stage.id < s.delivered <= |s.entries|
      && (stage.Requeued? ==> CoveredFrom(s, s.entries[stage.id], stage.id + 1))
      && (stage.Published? ==> s.entries[stage.id].runId in s.finals)
  }

  ghost predicate AllCovered(s: State) {
    forall i :: 0 <= i < |s.entries| ==> CoveredFrom(s, s.entries[i], 0)
  }

  ghost predicate QueueInv(s: State) {
    PendingOk(s) && AllCovered(s) && forall w :: StageOk(s, w)
  }

  /** Acknowledging `id` uncovers nothing when its payload is covered from a later entry on. */
  lemma AckUncoversNothing(s: State, t: State, id: nat, p: Payload, from: int)
    requires PendingOk(s) && id < |s.entries|
    requires t.entries == s.entries && t.delivered == s.delivered && t.finals == s.finals && t.pending == s.pending - {id}
    requires CoveredFrom(s, s.entries[id], id + 1) && CoveredFrom(s, p, from)
    ensures CoveredFrom(t, p, from)
  {
    if p.runId !in s.finals {
      var j :| from <= j < |s.entries| && Live(s, j) && s.entries[j] == p;
      var k := j;
      if j == id {
        k :| id + 1 <= k < |s.entries| && Live(s, k) && s.entries[k] == p;
      }
      assert Live(t, k) && from <= k < |t.entries|;
    }
  }

  lemma AckKeepsCover(s: State, t: State, id: nat)
    requires PendingOk(s) && id < |s.entries| && AllCovered(s)
    requires t.entries == s.entries && t.delivered == s.delivered && t.finals == s.finals && t.pending == s.pending - {id}
    requires CoveredFrom(s, s.entries[id], id + 1)
    ensures AllCovered(t) && forall p, from :: CoveredFrom(s, p, from) ==> CoveredFrom(t, p, from)
  {
    forall p, from | CoveredFrom(s, p, from) ensures CoveredFrom(t, p, from) {
      AckUncoversNothing(s, t, id, p, from);
    }
  }

  ghost predicate Grown(s: State, t: State) {
    && s.entries <= t.entries && s.delivered <= t.delivered && s.finals <= t.finals
    && forall j :: Live(s, j) ==> Live(t, j)
  }

  /** More entries, more finals and no acknowledgement cover at least as much. */
  lemma CoverGrows(s: State, t: State)
    requires Grown(s, t)
    ensures forall p, from :: CoveredFrom(s, p, from) ==> CoveredFrom(t, p, from)
  {
    forall p, from | CoveredFrom(s, p, from) ensures CoveredFrom(t, p, from) {
      if p.runId !in s.finals {
        var j :| from <= j < |s.entries| && Live(s, j) && s.entries[j] == p;
        assert Live(t, j) && t.entries[j] == p;
      }
    }
  }

  /** A step that acknowledges nothing keeps the stages of the workers it does not move. */
  lemma StagesKept(s: State, t: State, moved: string)
    requires Grown(s, t) && t.delivered <= |t.entries|
    requires forall w :: StageOk(s, w)
    requires forall w :: w != moved ==> StageOf(t, w) == StageOf(s, w)
    ensures forall w :: w != moved ==> StageOk(t, w)
  {
    CoverGrows(s, t);
    forall w | w != moved ensures StageOk(t, w) {
      assert StageOk(s, w);
    }
  }

  /** The steps that only read the queue or write to it. */
  lemma QueueStep(s: State, a: Action)
    requires QueueInv(s) && (a.Submit? || a.Claim? || a.Reclaim? || a.Tick? || a.Join?)
    ensures QueueInv(Step(s, a))
  {
    var t := Step(s, a);
    var moved := if a.Claim? || a.Reclaim? || a.Join? then a.w else "";
    assert StageOk(s, moved);
    assert Grown(s, t);
    CoverGrows(s, t);
    StagesKept(s, t, moved);
    if a.Submit? {
      assert Live(t, |s.entries|);
    }
    assert StageOk(t, moved);
  }

  lemma RequeueStep(s: State, w: string)
    requires QueueInv(s)
    ensures QueueInv(Step(s, Requeue(w)))
  {
    var t := Step(s, Requeue(w));
    assert StageOk(s, w);
    if t != s {
      assert Grown(s, t) && Live(t, |s.entries|);
      CoverGrows(s, t);
      StagesKept(s, t, w);
      assert CoveredFrom(t, t.entries[|s.entries|], 0);
      assert StageOk(t, w);
    }
  }

  lemma AckStep(s: State, a: Action)
    requires QueueInv(s) && (a.AckRequeued? || a.AckDone?)
    ensures QueueInv(Step(s, a))
  {
    var t := Step(s, a);
    var stage := StageOf(s, a.w);
    assert StageOk(s, a.w);
    if t != s {
      AckKeepsCover(s, t, stage.id);
      forall w ensures StageOk(t, w) {
        assert StageOk(s, w);
      }
    }
  }

  /** Every other step leaves the queue alone, adds a final result or stops a worker. */
  lemma OtherStep(s: State, a: Action)
    requires QueueInv(s)
    requires a.Acquire? || a.Publish? || a.Release? || a.Renew? || a.Fail? || a.Crash?
    ensures QueueInv(Step(s, a))
  {
    var t := Step(s, a);
    assert StageOk(s, a.w);
    OtherStepGrows(s, a);
    CoverGrows(s, t);
    StagesKept(s, t, a.w);
    OtherStepMoves(s, a);
  }

  lemma OtherStepGrows(s: State, a: Action)
    requires a.Acquire? || a.Publish? || a.Release? || a.Renew? || a.Fail? || a.Crash?
    ensures var t := Step(s, a);
      && Grown(s, t) && t.entries == s.entries && t.delivered == s.delivered && t.pending == s.pending
      && forall w :: w != a.w ==> StageOf(t, w) == StageOf(s, w)
  {
  }

  lemma OtherStepMoves(s: State, a: Action)
    requires a.Acquire? || a.Publish? || a.Release? || a.Renew? || a.Fail? || a.Crash?
    requires StageOk(s, a.w)
    ensures StageOk(Step(s, a), a.w)
  {
    OtherStepGrows(s, a);
    CoverGrows(s, Step(s, a));
  }

  lemma StepKeepsQueue(s: State, a: Action)
    requires QueueInv(s)
    ensures QueueInv(Step(s, a))
  {
    match a
    case Submit(_) => QueueStep(s, a);
    case Claim(_) => QueueStep(s, a);
    case Reclaim(_, _) => QueueStep(s, a);
    case Tick(_) => QueueStep(s, a);
    case Join(_) => QueueStep(s, a);
    case Requeue(w) => RequeueStep(s, w);
    case AckRequeued(_) => AckStep(s, a);
    case AckDone(_) => AckStep(s, a);
    case _ => OtherStep(s, a);
  }

  lemma {:induction false} RunKeepsQueue(s: State, acts: seq<Action>)
    requires QueueInv(s)
    ensures QueueInv(Run(s, acts))
    decreases |acts|
  {
    if acts != [] {
      StepKeepsQueue(s, acts[0]);
      RunKeepsQueue(Step(s, acts[0]), acts[1..]);
    }
  }

  /**
   * After any steps of any number of workers, with crashes anywhere, every payload ever put in the queue is still
   * unread, read and unacknowledged, or has its final result published.
   */
  lemma NoLostWork(ttl: int, acts: seq<Action>, i: nat)
    requires i < |Run(Fresh(ttl), acts).entries|
    ensures var s := Run(Fresh(ttl), acts);
      s.entries[i].runId in s.finals || exists j :: 0 <= j < |s.entries| && Live(s, j) && s.entries[j] == s.entries[i]
  {
    RunKeepsQueue(Fresh(ttl), acts);
    assert CoveredFrom(Run(Fresh(ttl), acts), Run(Fresh(ttl), acts).entries[i], 0);
  }

  // ---- leases ---------------------------------------------------------------------------------

  /** A working worker holds its lease exactly when it has held it without a break. */
  ghost predicate LeaseOk(s: State, w: string) {
    StageOf(s, w).Working() ==> (w !in s.lapsed <==> Holds(s, ProjectOf(s, StageOf(s, w).id), w))
  }

  ghost predicate LeaseInv(s: State) {
    0 < s.ttl && forall w :: LeaseOk(s, w) && StageOk(s, w)
  }

  lemma TickKeepsLeases(s: State, dt: nat)
    requires LeaseInv(s)
    ensures forall w :: LeaseOk(Step(s, Tick(dt)), w)
  {
    var t := Step(s, Tick(dt));
    forall w ensures LeaseOk(t, w) {
      assert LeaseOk(s, w);
    }
  }

  lemma AcquireKeepsLeases(s: State, a: Action)
    requires LeaseInv(s) && a.Acquire?
    ensures forall w :: LeaseOk(Step(s, a), w)
  {
    var t := Step(s, a);
    forall w ensures LeaseOk(t, w) {
      assert LeaseOk(s, w) && StageOk(s, w);
    }
  }

  lemma EntriesKeepLeases(s: State, a: Action)
    requires LeaseInv(s) && (a.Submit? || a.Requeue? || a.Claim? || a.Reclaim? || a.Join?)
    ensures forall w :: LeaseOk(Step(s, a), w)
  {
    var t := Step(s, a);
    forall w ensures LeaseOk(t, w) {
      assert LeaseOk(s, w) && StageOk(s, w);
    }
  }

  lemma WorkKeepsLeases(s: State, a: Action)
    requires LeaseInv(s)
    requires a.AckRequeued? || a.Publish? || a.AckDone? || a.Release? || a.Renew? || a.Fail? || a.Crash?
    ensures forall w :: LeaseOk(Step(s, a), w)
  {
    var t := Step(s, a);
    forall w ensures LeaseOk(t, w) {
      assert LeaseOk(s, w) && StageOk(s, w) && LeaseOk(s, a.w);
    }
  }

  lemma StepKeepsLeases(s: State, a: Action)
    requires LeaseInv(s) && QueueInv(s)
    ensures LeaseInv(Step(s, a))
  {
    StepKeepsQueue(s, a);
    match a
    case Tick(dt) => TickKeepsLeases(s, dt);
    case Acquire(_) => AcquireKeepsLeases(s, a);
    case Submit(_) => EntriesKeepLeases(s, a);
    case Requeue(_) => EntriesKeepLeases(s, a);
    case Claim(_) => EntriesKeepLeases(s, a);
    case Reclaim(_, _) => EntriesKeepLeases(s, a);
    case Join(_) => EntriesKeepLeases(s, a);
    case _ => WorkKeepsLeases(s, a);
  }

  lemma {:induction false} RunKeepsLeases(s: State, acts: seq<Action>)
    requires LeaseInv(s) && QueueInv(s)
    ensures LeaseInv(Run(s, acts)) && QueueInv(Run(s, acts))
    decreases |acts|
  {
    if acts != [] {
      StepKeepsQueue(s, acts[0]);
      StepKeepsLeases(s, acts[0]);
      RunKeepsLeases(Step(s, acts[0]), acts[1..]);
    }
  }

  /** Two workers at work on one project at once: at least one of them has been without its lease. */
  lemma LeaseExclusion(ttl: int, acts: seq<Action>, a: string, b: string)
    requires ttl > 0 && a != b
    requires var s := Run(Fresh(ttl), acts);
      && StageOf(s, a).Working() && StageOf(s, b).Working()
      && ProjectOf(s, StageOf(s, a).id) == ProjectOf(s, StageOf(s, b).id)
    ensures var s := Run(Fresh(ttl), acts);
      a in s.lapsed || b in s.lapsed
  {
    RunKeepsLeases(Fresh(ttl), acts);
    assert LeaseOk(Run(Fresh(ttl), acts), a) && LeaseOk(Run(Fresh(ttl), acts), b);
  }

  /**
   * While a worker is at work on a project, another one can take the project's lease exactly when the first has been
   * without it and nobody else holds it.
   */
  lemma TakesOverIff(ttl: int, acts: seq<Action>, a: string, b: string, id: nat)
    requires ttl > 0 && a != b
    requires var s := Run(Fresh(ttl), acts);
      && StageOf(s, a).Working() && StageOf(s, b) == Claimed(id)
      && ProjectOf(s, StageOf(s, a).id) == ProjectOf(s, id)
    ensures var s := Run(Fresh(ttl), acts);
      StageOf(Step(s, Acquire(b)), b) == Executing(id) <==>
        a in s.lapsed && forall w :: w != a ==> !Holds(s, ProjectOf(s, id), w)
  {
    var s := Run(Fresh(ttl), acts);
    var project := ProjectOf(s, id);
    RunKeepsLeases(Fresh(ttl), acts);
    assert LeaseOk(s, a);
    if !Free(s, project) {
      assert Holds(s, project, s.leases[project].owner);
    }
  }

  predicate StepOf(a: Action, w: string) {
    !a.Submit? && !a.Tick? && a.w == w
  }

  /** No step of a worker touches a lease that another one holds: it neither extends nor deletes it. */
  lemma OthersLeaseUntouched(s: State, a: Action, w: string, holder: string, project: string)
    requires w != holder && StepOf(a, w) && Holds(s, project, holder)
    ensures project in Step(s, a).leases && Step(s, a).leases[project] == s.leases[project]
  {
  }

  /** A worker that lapsed does not get its lease back while it is still at work. */
  lemma LapsedStaysLapsed(s: State, a: Action, w: string)
    requires LeaseInv(s) && QueueInv(s) && w in s.lapsed && StageOf(s, w).Working()
    requires StageOf(Step(s, a), w).Working()
    ensures w in Step(s, a).lapsed && !Holds(Step(s, a), ProjectOf(Step(s, a), StageOf(Step(s, a), w).id), w)
  {
    StepKeepsLeases(s, a);
    assert LeaseOk(Step(s, a), w);
  }

  /** Time passing breaks a lease exactly when it goes as far as the deadline. */
  lemma LapsesIff(s: State, dt: nat, w: string)
    requires LeaseInv(s) && StageOf(s, w).Working() && w !in s.lapsed
    ensures var project := ProjectOf(s, StageOf(s, w).id);
      && project in s.leases
      && (w in Step(s, Tick(dt)).lapsed <==> s.leases[project].deadline <= s.now + dt)
  {
    assert LeaseOk(s, w);
  }

  const FirstHolds := [Submit(Payload("r1", "p", "chain", "")), Submit(Payload("r2", "p", "chain", "")),
                       Join("a"), Join("b"), Claim("a"), Acquire("a")]

  lemma FirstAtWork()
    ensures Run(Fresh(10), FirstHolds)
            == State([Payload("r1", "p", "chain", ""), Payload("r2", "p", "chain", "")], 1, map[0 := "a"], {},
                     map["p" := Lease("a", 10)], 0, 10, map["a" := Executing(0), "b" := Idle], {})
  {
    var p, q := Payload("r1", "p", "chain", ""), Payload("r2", "p", "chain", "");
    var s := Step(Step(Step(Step(Fresh(10), Submit(p)), Submit(q)), Join("a")), Join("b"));
    assert s == State([p, q], 0, map[], {}, map[], 0, 10, map["a" := Idle, "b" := Idle], {});
  }

  /** A lapsed worker works on while its successor does: both at once on one project. */
  lemma TwoAtOnce()
    ensures var s := Run(Fresh(10), FirstHolds + [Tick(10), Claim("b"), Acquire("b")]);
      StageOf(s, "a") == Executing(0) && StageOf(s, "b") == Executing(1) && s.lapsed == {"a"}
  {
    FirstAtWork();
    RunAppend(Fresh(10), FirstHolds, [Tick(10), Claim("b"), Acquire("b")]);
    SuccessorTakesOver(Run(Fresh(10), FirstHolds));
  }

  lemma SuccessorTakesOver(s: State)
    requires |s.entries| == 2 && s.delivered == 1 && s.lapsed == {} && s.now == 0
    requires s.workers == map["a" := Executing(0), "b" := Idle] && s.leases == map["p" := Lease("a", 10)]
    requires s.entries[0].projectId == "p" == s.entries[1].projectId
    ensures var t := Run(s, [Tick(10), Claim("b"), Acquire("b")]);
      StageOf(t, "a") == Executing(0) && StageOf(t, "b") == Executing(1) && t.lapsed == {"a"}
  {
    var acts := [Tick(10), Claim("b"), Acquire("b")];
    var t := Step(s, Tick(10));
    assert t.lapsed == {"a"};
    var u := Step(Step(t, Claim("b")), Acquire("b"));
    assert u.lapsed == {"a"};
    assert acts[1..][1..] == [Acquire("b")] && Run(u, [Acquire("b")][1..]) == u;
  }
}
