# Verification of the run engine, the checkpoint store, the worker protocol, the token budget and the approval path

A Dafny 4.11 model of five components of the repository, with proofs of what they promise. `dafny verify dfyconfig.toml`
checks all of it. Each component has a model on values (a state machine, or the functions an algorithm computes), the
theorems about that model, and, where the source updates objects in place, classes and methods with loops whose contracts
tie them to the model.

* **Chain runs.** A plan of steps is executed round by round, one step or a batch of threads at a time, with retries, a
  shared call budget, skipping of blocked steps, state files and resume. `ExecutorMachine` has one action for every atomic
  effect (a reservation, a provider call that returns, a merge, a save); threads interleave freely, and provider answers,
  the clock, cancellation and disk failures are arbitrary. `Executor` has the classes; they carry the machine as ghost state.
* **Checkpoints.** Blobs by content hash, an append-only log whose last line may be unfinished after a crash, snapshot,
  seal, restore and prune over a file system.
* **Workers.** Any number of workers share a queue with at-least-once delivery and project leases that expire. They may
  crash between any two commands. Events travel over a trimmed stream to a client that re-emits them.
* **Token budget.** `pack`, the message facade that packs twice, the content splitter, the content bundle and the delta
  prompts of the knowledge accumulator.
* **Approval, tool calls, file index.** The approval gate under concurrent requests and answers, the scanner for tool
  blocks with the writer it inverts, and the sorted file index.

## What the proofs found

These are places where the code does not do what its documentation or a reader would expect. Each has a lemma.

* An optional step below a failed optional step is never settled: the run ends as completed with a pending step
  (`OneFailure.LeftPending`, and on two steps `UnsettledRun.OptionalBelowOptionalStaysPending`). Every undisturbed run of a
  plan settles all steps exactly when optional failures stop others or no optional step is below another
  (`OneFailure.AlwaysSettlesIff`; for one round `Blocking.StuckRoundSettlesIff`).
* A completed run may hold skipped steps. It does exactly when some step depends on a failed one, or the budget or the
  clock turned the last round away (`SkippedSteps.SkippedIff`). A map-reduce run in which one file's step fails completes
  with its reduce and execute steps skipped (`OneFailure.MapReduceCompletesWithoutReducing`). The budgets of the six builders
  never turn a round away (`SkippedSteps.BuildersNeverDry`); with one worker a budget can do so exactly when it is no larger
  than all attempts of all steps but one (`SpentBudget.SpentIff`).
* The budget can turn away the retries of a step. With retries some run has this exactly when the budget allows a call but
  not every attempt of every step (`RefusedCalls.RefusedIff`); without retries exactly when some round launches more steps
  than calls are left (`RefusedCalls.RefusedWithoutRetriesIff`), so never with one worker
  (`RefusedCalls.OneWorkerNeverRefused`). The two fan-out builders ask for such a budget
  (`RefusedCalls.FanOutCanBeRefused`), the four straight-line ones do not (`RefusedCalls.StraightLineNeverRefused`).
* A step whose last attempt is refused by the budget records one call more than it made (`ExecutorProperties.RecordedCalls`).
* Part of a line at the end of the checkpoint log swallows the first line of the next batch
  (`CheckpointRuns.TornTailLosesFirst`); a whole line without its line break is lost together with it
  (`CheckpointRuns.UnbrokenTailLosesLast`).
* A list of duplicates in a delta prompt says its contents were sent. That is so exactly when the owner of the content was
  sent before or survives this very packing (`UnseenDuplicate.DuplicateSeenIff`). It is not when the owner is too large
  for the prompt and the list is not (`UnseenDuplicate.OwnerNeverShown`, and with the source's own sentence
  `UnseenDuplicate.OwnerNeverShownInSource`). A body that owns its content is never referred to before it was shown.
* A file whose name looks like a revision (`x@r1`) swallows a revision of another file (`Knowledge.RevisionSwallowed`;
  exactly when: `Knowledge.EntersIff`). Without '@' in names nothing is swallowed.
* A worker whose lease has lapsed goes on executing beside its successor (`WorkerMachine.TwoAtOnce`). A successor can take
  over exactly when the first has been without the lease and nobody else holds it (`WorkerMachine.TakesOverIff`).
* The worker path shows a free event called `chunk` as a local run would only if it carries its text and nothing else
  (`EventPath.SameFrameIff`).
* An answer to an approval is accepted as long as the call is registered, but it has no effect exactly when the wait has
  timed out or the answer has been read (`Approval.AnswersCountIff`); both are reached (`Approval.LateAnswerReached`).
* A tool argument made of digits that are not decimal, such as superscripts, or of more than 4300 digits, makes the scan
  raise: exactly when a block of a known tool holds such a line (`ToolScan.ScanRaisesIff`, `ToolRender.SuperscriptRaises`).
* A deleted file stays in the index until the next walk (`FileIndex.DeletedStaysListed`). The documentation calls the order
  of paths that of their full text; it is that of their components (`FileIndex.OrderIsNotOfText`).

## Model

| member | source | states |
|---|---|---|
| Models.SweepOnlySkips | chain/executor.py:506-529 | one sweep only turns pending into skipped, and changes nothing exactly when nothing from there on is blocked |
| Blocking.SkipBlockedIsClosure | chain/executor.py:506-529 | the repeated sweeps skip only steps with a failed or skipped dependency, and leave none of those that must be skipped |
| Blocking.SkipBlockedDefined | chain/executor.py:506-529 | on an acyclic plan that closure is unique, so it defines the result |
| Blocking.StuckRoundSettlesIff | chain/executor.py:244-252 | with nothing ready, skipping settles every step exactly when each pending step is critical or optional failures stop others |
| Blocking.StuckRoundSettles | chain/executor.py:244-252 | with critical ancestors only above optional steps and no critical failure, that is always so |
| ExecutorInvariants.StepKeepsInv | chain/executor.py:125-300 | every action of every thread keeps budget, dependency, status, result and saved-state invariants |
| ExecutorInvariants.RunKeepsInv | chain/executor.py:125-300 | so does every interleaving of any length |
| ExecutorInvariants.FreshRunInv | chain/models.py:455-503 | a new run of a plan with unique ids starts within them |
| ExecutorProperties.RunKeepsSuccesses | chain/executor.py:399-417 | in every interleaving a success stays one, keeps its result, and is not started or called again |
| ExecutorProperties.DependenciesHold | chain/executor.py:254-300 | in every reachable state a started step has all its dependencies successful, and a step is successful exactly when its result is stored |
| ExecutorProperties.CallBudgetHolds | chain/models.py:379-411 | calls made are attempted plus reserved, never above the budget nor one plus retries per step; nothing is reserved at the end |
| ExecutorProperties.RecordedCalls | chain/executor.py:331-390 | the recorded calls of a step are its calls, or one more exactly when its last attempt was refused |
| ExecutorProperties.ActionDecreases | chain/executor.py:221-300 | every action but a cancellation request brings a run of any plan closer to its end |
| ExecutorProperties.RunsAreBounded | chain/executor.py:221-300 | so runs are no longer than a bound computed from the start |
| ExecutorProperties.NeverStuck | chain/executor.py:211-300 | in every reachable state before the end some action is possible |
| ExecutorProperties.CapNeverDecides | chain/executor.py:221-225 | the cap of three rounds a step is never what ends the loop |
| ExecutorRounds.RoundShrinksPending | chain/executor.py:225-269 | from the head of any round to the head of the next fewer steps are pending |
| ExecutorProperties.RunSettles | chain/executor.py:125-269 | where optional failures stop others or optional steps hang below critical ones only: under all_required, when only provider calls fail, a finished run has every step settled and failed exactly on a critical error |
| OneFailure.AlwaysSettlesIff | chain/executor.py:244-252 | every undisturbed run of a plan, under every budget, settles all steps exactly when optional failures stop others or no optional step is below another |
| OneFailure.LeftPending | chain/executor.py:506-529 | on any other plan a run that completes with an error and, below it, a pending step |
| OneFailure.MapReduceCompletesWithoutReducing | chain/strategies.py:220-329 | for every number of files and every failing file, a run that completes with reduce and execute skipped |
| SkippedSteps.SkippedIff | chain/executor.py:225-252 | a completed run holds a skipped step exactly when some step depends on a failed one, or budget or clock turned the last round away |
| SkippedSteps.NeverDry | chain/executor.py:231-241 | calls for all attempts of all steps but one keep any run from meeting an exhausted budget with steps pending |
| SkippedSteps.BuildersNeverDry | chain/strategies.py:45-518 | so for the six builders |
| SpentBudget.SpentIff | chain/executor.py:231-241 | with one worker, some run completes without failure and with steps skipped for want of calls exactly when the budget is no larger than that |
| RefusedCalls.RefusedIff | chain/models.py:379-393 | with retries, some run has an attempt turned away by the counter exactly when a call is allowed but not every attempt of every step |
| RefusedCalls.RefusedWithoutRetriesIff | chain/models.py:379-393 | without retries, exactly when some reachable round launches more steps than calls are left |
| RefusedCalls.OneWorkerNeverRefused | chain/executor.py:254-256 | so never with one worker |
| RefusedCalls.FanOutCanBeRefused | chain/strategies.py:142-329 | both fan-out plans have such a run, for every size and parallelism |
| RefusedCalls.StraightLineNeverRefused | chain/strategies.py:45-518 | the four straight-line plans have none |
| Resume.RebuildInv | chain/resume.py:138-184 | whatever state file a run can leave, rebuilding it gives a sound start |
| Resume.SavedGrows | chain/executor.py:552-570 | successes in the state file and their results are in every later state file |
| Resume.ExactlyOnce | chain/resume.py:138-184 | over any number of legs and crashes a step saved as success is not started again and its result is kept |
| Resume.FreshRunThenLegs | chain/resume.py:138-184 | the same from the first leg of a fresh run |
| Resume.ResumedLegSettles | chain/resume.py:138-184 | a resumed leg settles a well-formed plan as a first one does |
| Resume.CheckDrift | chain/resume.py:83-117 | each recorded file is in one of three lists, in order; no drift exactly when all still match |
| Executor.BudgetTracker.ReserveCall | chain/models.py:379-393 | reserves exactly when attempted and reserved calls leave room |
| Executor.BudgetTracker.Commit | chain/models.py:395-406 | turns one reservation into one attempted call |
| Executor.ChainRun.TransitionTo | chain/models.py:488-503 | moves only along the allowed transitions and says whether it did |
| Executor.ChainRun.GetReadySteps | chain/models.py:512-529 | the loop returns exactly the pending steps whose dependencies all succeeded, in plan order |
| Executor.ChainRun.Sweep | chain/executor.py:509-529 | one in-place pass does what a sweep does, and says whether it changed anything |
| Executor.ChainRun.SkipBlockedSteps | chain/executor.py:506-529 | the in-place sweeps reach the closure |
| Executor.ChainExecutor.ExecuteStep | chain/executor.py:302-390 | the retry loop is a run of the machine for its step |
| Executor.ChainExecutor.ExecuteBatch | chain/executor.py:271-300 | a batch of threads in any interleaving is drained before the round ends |
| Executor.ChainExecutor.ExecuteRound | chain/executor.py:225-269 | one round of the loop refines the machine |
| Executor.ChainExecutor.ExecuteLoop | chain/executor.py:211-269 | so does the loop, which ends |
| Executor.ChainExecutor.Execute | chain/executor.py:125-205 | a whole execution respects the budget, keeps successes, stores a result exactly for successes, and settles well-formed plans |
| PlanSchema.ValidatePlanPayload | chain/plan_schema.py:133-184 | accepts exactly the payloads that follow the rules, carries every field, and otherwise names the first broken step |
| PlanSchema.AcceptedPlanWellFormed | chain/plan_schema.py:81-99 | an accepted payload is a plan on which every run settles |
| Strategies.BuildChunkChain | chain/strategies.py:142-217 | the loops build one critical step a chunk, a plan step over all of them and an execute step |
| Strategies.BuildMapReduce | chain/strategies.py:220-329 | the loops build one optional step a file, a reduce step over all of them and an execute step |
| Strategies.StraightLinePlansWellFormed | chain/strategies.py:45-518 | direct, context window, pipeline and delegate plans have unique ids, earlier dependencies, critical steps |
| Strategies.FanOutPlansWellFormed | chain/strategies.py:142-329 | so have both fan-out plans, with critical steps or optional roots |
| Strategies.AmpleBudgetNeverRefuses | chain/models.py:379-393 | with a call for every attempt of every step no reservation is refused |
| Strategies.WhoseBudgetIsAmple | chain/strategies.py:45-518 | which builders ask for that many calls |
| UnsettledRun.OptionalBelowOptionalStaysPending | chain/executor.py:506-529 | a run of two optional steps that completes with a pending step |
| Checkpoint.WritesKeepStoreOk | core/checkpoint.py:182-285 | after snapshot, absence record and seal every digest in the log has its blob with that content |
| Checkpoint.RestoredAt | core/checkpoint.py:481-557 | what restoring does to each path |
| Checkpoint.ReportPartitions | core/checkpoint.py:438-459 | each recorded path is in exactly one of restored and conflicts |
| Checkpoint.RestoreGuard | core/checkpoint.py:481-557 | restoring changes only recorded paths, and only where the current content is the last sealed one |
| Checkpoint.RestoreOutcome | core/checkpoint.py:481-557 | each recorded path is either back at its recorded content or left untouched, as its own decision says |
| Checkpoint.RestoreIdempotent | core/checkpoint.py:438-459 | a second restore gives the same report and changes nothing |
| CheckpointRuns.MidPruneKeepsRuns | core/checkpoint.py:385-414 | at every crash point of prune the kept runs keep entries, seals and restore outcome |
| CheckpointRuns.PruneKeepsRuns | core/checkpoint.py:385-414 | so they do after it, with every named blob in place |
| CheckpointRuns.PruneLeavesNoGarbage | core/checkpoint.py:385-414 | after a prune that removes a run no unreferenced blob remains, those that cannot be deleted apart |
| CheckpointRuns.LogTellsHistory | core/checkpoint.py:182-312 | after any interleaving of snapshots, writes, seals and prunes the log tells each run's first and last sealed contents |
| CheckpointRuns.TornTailLosesFirst | core/checkpoint.py:416-436 | a fresh run gets an entry for all it snapshots exactly when the log ended in a line break; otherwise the first is lost |
| CheckpointRuns.UnbrokenTailLosesLast | core/checkpoint.py:416-436 | a whole last line without its break is read until something is appended, and then lost with the first appended line, and no other |
| CheckpointRuns.RoundTripStatus | core/checkpoint.py:133-159 | the report says success exactly when something was recorded and every recorded path rolls back |
| CheckpointRuns.RollbackRoundTrip | core/checkpoint.py:438-557 | restoring a run returns every path to its first content exactly when each still holds its last sealed content, or nothing changed it |
| CheckpointManager.Manager.TakeSnapshot | core/checkpoint.py:182-216 | stores the blobs, then the lines; every state in between is sound |
| CheckpointManager.Manager.TakeAbsent | core/checkpoint.py:218-242 | records absence by the same lines |
| CheckpointManager.Manager.TakeSeal | core/checkpoint.py:244-278 | the same for seals |
| CheckpointManager.Manager.EntriesForRun | core/checkpoint.py:290-303 | the loop returns the first entry of each path in log order |
| CheckpointManager.Manager.SealsForRun | core/checkpoint.py:305-312 | the loop returns the last seal of each path |
| CheckpointManager.Manager.RestoreForRun | core/checkpoint.py:438-459 | the loop restores as specified and builds the report |
| CheckpointManager.Manager.PruneRuns | core/checkpoint.py:385-414 | rewrites the log, then collects garbage, as specified at every crash point |
| Budget.SacrificeOrderIs | context/budget.py:217-224 | lowest tier, then largest, then latest, of everything that is not must_have |
| Budget.OrderUnique | context/budget.py:221-224 | there is one such order |
| Budget.DroppingShortest | context/budget.py:225-233 | what is dropped is the shortest prefix of the order whose removal makes the rest fit |
| Budget.PackSpec | context/budget.py:193-233 | must_have items are never dropped, and dropping stops as soon as the rest fits |
| Budget.LargerBudgetDropsLess | context/budget.py:193-233 | a larger budget drops a prefix of what a smaller one drops |
| Budget.RepackStillDrops | context/facade.py:171-179 | packing again with a must_have marker drops everything the first pack dropped, in the same order |
| Pack.DropPhase | context/budget.py:216-233 | the loops over tiers and candidates drop exactly what the specification drops |
| Pack.SummarizePhase | context/budget.py:243-261 | the loop over must_have items applies the hook in order and keeps the total right |
| Pack.PackItems | context/budget.py:193-272 | the method returns the specified result |
| Pack.SummariesOnlyShorten | context/budget.py:243-261 | only must_have texts change, and only to fewer tokens; keys and tiers stay |
| Pack.OverflowLeavesMustHave | context/budget.py:262-272 | overflowed means the total is above the budget, and then only must_have items are kept |
| Pack.KeepIsSubsequence | context/budget.py:265 | kept items stay in input order |
| Pack.PackMessage | context/facade.py:161-181 | the text sent and the keys reported are those of the pack, or of the second pack when the first dropped something |
| Pack.MarkerIffDropped | context/facade.py:161-181 | the marker is packed exactly when something is reported dropped, and exactly when message and attachments exceed the budget |
| Pack.SecondPackReportsFirst | context/facade.py:171-181 | the second report begins with the first |
| Pack.MessageOpensText | context/facade.py:167-180 | the message comes first, then the marker if there is one |
| Splitter.JoinedLinesFit | chain/orchestrator.py:551-558 | the running count of a chunk is never below its estimate |
| Splitter.CutLinesGroups | chain/orchestrator.py:551-561 | every line is in one group, in order, and a group of several lines is counted within the budget |
| Splitter.CutAtLines | chain/orchestrator.py:545-563 | the loop returns those groups, each joined by line breaks |
| Splitter.LineChunksKeepContent | chain/orchestrator.py:545-563 | joining the chunks gives the content back; a chunk of several lines is within the budget |
| Splitter.CutPiecesGroups | chain/orchestrator.py:524-537 | every segment is in one group, in order, and a group of several goes at most one token over the budget |
| Splitter.CutAtBoundaries | chain/orchestrator.py:521-543 | the loop returns those groups without outer line breaks, a blank last one left out |
| Splitter.BoundaryChunksKeepContent | chain/orchestrator.py:521-543 | every character that is not whitespace survives, in order |
| Splitter.BoundaryChunksFit | chain/orchestrator.py:529-537 | a chunk of several segments is at most one token over the budget |
| Splitter.SplitContent | chain/orchestrator.py:496-563 | all of this by the case the splitter is in; never an empty list |
| Bundle.AddKeepsOk | context/bundle.py:92-117 | adding keeps identities distinct and ownership with the earliest carrier |
| Bundle.OneOwner | context/bundle.py:92-117 | of all entries with one content exactly the earliest is not a reference |
| Bundle.ReferenceNamesOwner | context/bundle.py:104-116 | a reference names the path of that owner |
| Bundle.ContextBundle.Add | context/bundle.py:92-117 | the method adds exactly the items whose identity is new |
| Knowledge.RunKeepsInv | chain/knowledge.py:114-381 | over any session the sent keys, the prompts and the bundle agree |
| Knowledge.SentIffShown | chain/knowledge.py:373-375 | a body counts as sent exactly when an earlier prompt showed it in full |
| Knowledge.DeltaRefersToSeen | chain/knowledge.py:335-353 | a body only referred to was shown in full before; a body never shown is offered in full |
| Knowledge.SentIffSurvived | chain/knowledge.py:371-375 | an offered body becomes sent exactly when it survives packing |
| Knowledge.EntersIff | chain/knowledge.py:142-160 | a new content reaches the bundle exactly when it is there already or its path is free |
| Knowledge.RevisionSwallowed | chain/knowledge.py:146-155 | three reads after which the latest content of a file is nowhere |
| Knowledge.LatestReachesPrompts | chain/knowledge.py:114-161 | without '@' in names the latest content of every result has a body that is shown or offered |
| UnseenDuplicate.DuplicateIsListed | chain/knowledge.py:355-367 | every duplicate has a line in the list of every prompt |
| UnseenDuplicate.DuplicateSeenIff | chain/knowledge.py:355-375 | after any session and in any wording, that line refers to content shown in full exactly when the owner was sent before or survives this packing |
| UnseenDuplicate.OwnerNeverShown | chain/knowledge.py:355-367 | in any wording, when the list fits and the owner does not, a prompt that lists a duplicate whose owner was never shown |
| UnseenDuplicate.OwnerNeverShownInSource | chain/knowledge.py:355-367 | with the source's sentence: for windows of a hundred tokens or more and every content of four characters a token |
| Accumulator.KnowledgeAccumulator.AddToolResult | chain/knowledge.py:114-161 | the method computes the specified memory |
| Accumulator.KnowledgeAccumulator.BuildIterationContext | chain/knowledge.py:309-381 | the method computes the specified prompt and marks what survived |
| WorkerMachine.StepKeepsQueue | worker.py:204-286 | every command, crash and reclaim keeps every payload covered |
| WorkerMachine.NoLostWork | worker.py:226-249 | in every reachable state each payload is unread, read and unacknowledged, or has its final result published |
| WorkerMachine.RunKeepsLeases | core/lease.py:58-72 | a worker at work holds its lease exactly when it held it without a break |
| WorkerMachine.LeaseExclusion | core/lease.py:58-72 | of two workers at work on one project at least one has been without its lease |
| WorkerMachine.OthersLeaseUntouched | core/lease.py:23-32 | no command of a worker extends or deletes a lease that another holds |
| WorkerMachine.LapsedStaysLapsed | worker.py:251-257 | a lapsed worker does not get its lease back while at work |
| WorkerMachine.LapsesIff | core/lease.py:58-68 | time breaks a lease exactly when it reaches the deadline of the last renewal |
| WorkerMachine.TwoAtOnce | worker.py:237-257 | a run in which a lapsed worker and its successor work on one project at once |
| WorkerMachine.TakesOverIff | core/lease.py:58-62 | while a worker is at work, another takes its project's lease exactly when the first has been without it and nobody else holds it |
| WorkerProcess.ProjectLease.Acquire | core/lease.py:58-62 | succeeds exactly when no lease is in force |
| WorkerProcess.ProjectLease.Renew | core/lease.py:64-68 | succeeds exactly when the worker is the holder |
| WorkerProcess.ProjectLease.Release | core/lease.py:70-72 | deletes exactly a lease of its own |
| WorkerProcess.RedisWorkQueue.Claim | core/backends_redis.py:253-266 | reads the next unread entry, which is pending from then on |
| WorkerProcess.RedisWorkQueue.Reclaim | core/backends_redis.py:273-284 | takes over exactly pending entries |
| WorkerProcess.Worker.Execute | worker.py:259-286 | publishes the runner's events and then the closing event with its result, whatever the runner does |
| WorkerProcess.Worker.GiveBack | worker.py:231-236 | puts the copy in the queue before it acknowledges |
| WorkerProcess.Worker.WorkOn | worker.py:237-249 | publishes before it acknowledges and releases last; an exception leaves the entry pending |
| WorkerProcess.Worker.Process | worker.py:226-249 | with any steps of others in between, its own steps are acquire and one of those sequences |
| WorkerProcess.Worker.RunOnce | worker.py:204-216 | claims and processes one entry, or is idle |
| EventPath.Decode | core/backends_redis.py:105-111 | refuses exactly unknown kinds, unknown fields and a missing run id |
| EventPath.DecodeEncode | core/backends_redis.py:97-111 | decoding takes back encoding, for all six kinds |
| EventPath.SameFrameIff | worker.py:136-153 | an event gives the same frame over the worker as locally exactly when a chunk is only text |
| EventPath.SameFramesIff | server.py:559-582 | the same for whole runs: equally many frames, and the same ones exactly when all chunks are only text |
| EventPath.SameResult | worker.py:383-395 | the client gets back the runner's own result |
| EventTail.NothingSkippedIff | core/backends_redis.py:164-174 | every entry is read once and in order exactly when the backlog never exceeds what the stream keeps |
| EventTail.TailDelivers | worker.py:331-352 | a client that keeps up and sees the end has re-emitted everything once, in order |
| EventTail.WorkerPathIsLocalPath | worker.py:316-357 | the whole way: the runner's result, and the frames of a local run exactly when chunks are only text |
| EventClasses.RunStream.Read | worker.py:338-342 | the entries that are still in the stream after a position, at most 64 |
| EventClasses.BusEventSink.Emit | worker.py:136-153 | publishes every event but the end of the run, which it keeps back |
| EventClasses.BusEventSink.PublishFinished | worker.py:155-160 | publishes the closing event with the whole result |
| EventClasses.DispatchClient.Follow | worker.py:331-357 | the loop returns and emits as specified |
| Approval.ApprovalsAreFounded | core/approval.py:199-252 | in every interleaving an approval is the whitelist's in auto mode without force, or an own answer's by id and hash while registered; deny mode approves nothing |
| CanonicalJson.ListsApart | core/approval.py:61-68 | different lists of actions have different canonical texts, escapes included |
| Approval.HashBindsActions | core/approval.py:58-69 | equal hashes mean the same kinds, targets and payloads in order |
| Approval.AnswersCountIff | core/approval.py:235-310 | in every reachable state a matching answer is accepted; some answer changes the outcome exactly while the call waits or was woken, none exactly after the timeout or the read |
| Approval.LateAnswerReached | core/approval.py:299-310 | a run from the start of the gate in which an approval arrives after the timeout, or after it was read, and the call ends in denial |
| Approval.OneAuditEach | core/approval.py:314-332 | a finished call has one audit entry, which repeats its verdict; others have none |
| Approval.CallsAreIndependent | core/approval.py:280-312 | with distinct ids a call ends as if only its own steps and answers to its id had taken place |
| Approval.AloneOrNot | core/approval.py:280-312 | the same from the start of the gate |
| ApprovalGates.ApprovalGate.Resolve | core/approval.py:235-252 | true exactly when id and hash match a registered call |
| ApprovalGates.ApprovalGate.Await | core/approval.py:299-310 | ends with the latest answer or a timeout, and removes its own entry |
| ApprovalGates.ApprovalGate.Request | core/approval.py:199-233 | always returns the verdict its call is done with |
| ToolArgs.SplitUnlines | chain/agent_tools.py:757 | splitting into lines takes back writing lines |
| ToolArgs.ParseArgsBody | chain/agent_tools.py:848-892 | the loop reads line after line as specified, and reports a raise |
| ToolArgs.ItemReads | chain/agent_tools.py:865-891 | reading a canonical argument, of one line or several, gives that argument |
| ToolArgs.ItemsRead | chain/agent_tools.py:875-892 | so for a whole body |
| ToolArgs.ReadingRaisesIff | chain/agent_tools.py:874-892 | reading a body raises exactly when a line gives a known key other than the reason a text of digits that `int` refuses |
| ToolArgs.UnconvertibleRaises | chain/agent_tools.py:888-889 | such a value under any of those keys makes its line one |
| ToolScan.ReadBody | chain/agent_tools.py:803-819 | the inner loop takes the body up to its end and leaves the rest |
| ToolScan.SkipQuote | chain/agent_tools.py:776-784 | the inner loop passes over a quoted block |
| ToolScan.ScanLines | chain/agent_tools.py:762-828 | the loop with its fence flag scans as specified, and ends |
| ToolScan.ParseToolCalls | chain/agent_tools.py:750-828 | so for every response |
| ToolScan.ScanRaisesIff | chain/agent_tools.py:750-892 | the scan of any response raises exactly when a block of a known tool, outside every fence, holds such a line |
| ToolScan.HasToolCalls | chain/agent_tools.py:895-897 | true exactly when a call is found |
| ToolRender.InsideScans | chain/agent_tools.py:775-786 | nothing inside a fence is a call, quoted tool blocks included |
| ToolRender.ToolScans | chain/agent_tools.py:788-824 | a tool block gives its call and the scan goes on after it |
| ToolRender.ScanInvertsRender | chain/agent_tools.py:750-892 | scanning any written mix of prose, fences and tool blocks finds exactly the tool blocks in order |
| ToolRender.ArgsAreItems | chain/agent_tools.py:884-891 | an argument has the value of the last item written under its key |
| ToolRender.SuperscriptRaises | chain/agent_tools.py:888-889 | for instance a whole response with a depth written as a superscript digit |
| FileIndex.InsertedIs | context/index.py:183-187 | inserting at the bisected place keeps the list sorted and adds exactly the file |
| FileIndex.OneListing | context/index.py:100 | a set of files has one sorted list |
| FileIndex.RankedIsPartition | context/index.py:212-224 | the three ranks hold every match exactly once |
| FileIndex.ListsExactlyNoted | context/index.py:171-187 | after any events the list holds what it held and what was reported while on disk |
| FileIndex.AgreesWithWalk | context/index.py:171-187 | when all creations are reported and nothing is deleted, the list is that of a fresh walk |
| FileIndex.DeletedStaysListed | context/index.py:171-187 | a deleted file stays listed whatever is reported |
| FileIndex.OrderIsNotOfText | context/index.py:100 | two paths whose order is not that of their text |
| ProjectIndexes.DeriveTables | context/index.py:144-155 | the loop files each path under its name and suffix, so that lookups answer as filters of the list |
| ProjectIndexes.ProjectIndex.Reindex | context/index.py:144-155 | the index's own tables are derived so |
| ProjectIndexes.ProjectIndex.Rebuild | context/index.py:91-105 | a walk gives the sorted list of the files on disk and its tables |
| ProjectIndexes.ProjectIndex.RefreshIfStale | context/index.py:159-169 | rebuilds exactly when asked to or older than allowed |
| ProjectIndexes.ProjectIndex.NotifyWrite | context/index.py:171-187 | inserts a new file into the shared list and keeps the tables right |
| ProjectIndexes.ProjectIndex.LookupName | context/index.py:200-202 | equals a linear filter on names |
| ProjectIndexes.ProjectIndex.LookupStem | context/index.py:204-206 | equals a linear filter on substrings of names |
| ProjectIndexes.ProjectIndex.LookupExt | context/index.py:208-210 | equals a linear filter on suffixes |
| ProjectIndexes.ProjectIndex.Lookup | context/index.py:212-224 | exact matches, then prefixes, then substrings, each in list order, and together all matches |
| ProjectIndexes.IndexedScan.LookupName | context/index.py:247-248 | filters the scan's own list as long as the index was not rebuilt |

## Left out

- Torn saves: `to_state_dict` takes no lock, so a state file may mix two moments of a parallel batch; here a merge and a save are separate actions, each of them atomic.
- Negative values of `max_retries`, step names, stages, prompts, durations, error texts, events and result files of a run.
- Provider answers, clocks, cancellation, disk failures and agent role loading are arbitrary choices.
- Reading the plan text before validation (`parse_plan_json`) and the choice of a strategy.
- SHA-256 is injective: a content, or the canonical text of a list of actions, stands for its hash. Timestamps, sizes, path resolution, legacy log records, `restore_file`, `run_summaries` and `snapshot_text` of the checkpoint store.
- Budget.ContextBudget: floating-point rounding of the safety margin; the arithmetic is exact.
- Splitter.BoundaryChunksFit: a chunk of one segment has no bound in the source, and none here.
- Knowledge.DeltaRefersToSeen: for bodies that own their content only; lines for duplicates may refer to unsent text, as shown.
- The wording of prompts is a parameter, and so are error texts; fencing of attached text is part of the wording.
- The full view `build_context`, `render_prompt_block` and the gathering of context sources.
- WorkerMachine.NoLostWork: no worker of the source calls `reclaim` by itself, so a pending entry may wait for ever.
- Cancellation across processes, approval across processes, the registry's own rules and local subscribers of the bus.
- EventPath.Decode: a field of the wrong type is read as its default here, where the source would keep or refuse it later; JSON text is identified with the value it denotes.
- EventTail.WorkerPathIsLocalPath: for one execution of the entry; a second one after a crash in the middle repeats frames.
- A request without actions cannot be made in the source; the gate here takes any list of actions.
- Approval: the callback that announces a request; its failures are swallowed and it changes no state of the gate.
- SpentBudget.SpentIff: for one worker; with several, budgets above the bound are excluded by `SkippedSteps.NeverDry`, those below it are not characterised.
- ToolArgs.ParseArgsBody: which characters are digits is a parameter; lower case is exact only for what can become a known key.
- Running tools, command policy and output capping.
- FileIndex.AgreesWithWalk: symbolic links, paths outside the root, snapshots of the index and backup copies, which are never reported.
- Delegation, routing, semantic and symbol indexes, sessions, plugins, the server and its user interface: they would add easy members.
