# Verified model of the adaptive controller, the effect kernel and the context packer

This Dafny project models four parts of the repository and proves what each of them promises.

**The adaptive controller** (`Contracts`, `Plans`, `SerialPlan`, `Controller`, `Replanning`, `Transitions`,
`Choosing`, `Runs`, `Histories`, `Acceptance`). The reducer over nine event kinds is the function
`Controller.Apply`; `Reconciled` re-decides after each event what is shed, refused or complete, with budgets
in three dimensions and the greedy serial deadline simulation `SerialPlan.SerialFit`. The central fact is a
list-scheduling argument: dropping work, or starting earlier, never breaks a serial plan. From it follow that
a running state is a fixpoint of reconciliation, that dispatches and punctual settlements keep the plan, and
the invariants of every reachable state. `Choosing` and `Acceptance` say exactly which task is dispatched,
which optional work is kept, which event a history accepts and what it makes of the run.

**The runtime** (`Runtime`, `Recovery`, `Agreement`, `Outcomes`, `Driving`, `Replay`, `ReplayVerdicts`).
Controller records and task completions are two durable facts that are not written in one transaction; a crash
may strike after each write of a dispatch. The theorems say what any number of crashes and restarts leaves,
when the constructor's agreement check passes, that the drive loop finishes an admitted plan, and that replay
is sound and complete. `ControllerModel` and `RuntimeObject` hold the imperative form: the working dictionary
as a class updated in place, the loops, and the runtime object over its store.

**The effect kernel** (`Effects`, `EffectSafety`, `EffectRuns`, `EffectAnswers`, `EffectOutcomes`,
`EffectBroker`). Brokers with different keys share one transactional database and one target that may lose an
acknowledgement or die after applying. `Effects.Taken` is one call by some broker, one armed fault or one
outbox acknowledgement, and `Effects.After` any interleaving of them. `EffectAnswers` says what an answer
tells the caller, `EffectOutcomes` exactly when each call succeeds and why it fails, and `EffectBroker` is the
imperative form over tables and adapter, whose every call keeps the invariant.

**Evidence packing** (`Evidence`, `Knapsack`, `Packing`, `PackingTheorems`, `PackingChoice`, `PackingReports`,
`ContextPacker`) and **graph algorithms** (`Sorting`, `Graphs`, `GraphAlgorithms`): claim assessment,
all-or-refuse packing with a greedy choice of optional value, Kahn order, the depth-first cycle check and
critical-path ranks.

Identifiers are natural numbers or strings of which only equality and order are used, usage is a triple of
naturals, values are reals, a digest is the digested value itself, and a signature is a term that can only
be built from the secret and the claims.

Where the code and its words part, the model follows the code:

- An optional task can be shed before the run starts although admission took it, when an optional
  dependency of it comes later in dispatch order. `Transitions.InitialShedsOnlySkipped` gives the exact
  condition and `Examples.AdmittedWorkCanBeShedAtOnce` a plan.
- The constructor's check that records and completions agree does not hold in all runs:
  `Agreement.RestartAgreesExactly` gives the exact condition, and `Driving.StrandingIsReachable` shows that
  a crash and a cancellation can break it.
- `docs/effect-kernel.md` lets only committed effects be compensated; the code also compensates ambiguous
  ones, and `EffectSafety.Edge` has that edge.
- An aborted effect can have been applied, after a process death between the target and the database:
  `EffectRuns.AppliedUncommittedIffDied` gives the exact condition and `EffectRuns.AbortedAfterApplication`
  a run.

To check the project: `dafny verify dfyconfig.toml`.

## Model

| member | source | states |
|---|---|---|
| SerialPlan.SerialFitIsOrder | src/agent_physics/adaptive_runtime.py:1194-1221 | the greedy simulation answers yes exactly when the order it follows covers every pending task and each ends, at p95 and without gaps, by its deadline |
| SerialPlan.SubsequencePlan | src/agent_physics/adaptive_runtime.py:1194-1221 | the simulation of a dependency-closed part of the work follows exactly the subsequence of the full simulation |
| SerialPlan.SerialMonotone | src/agent_physics/adaptive_runtime.py:1194-1221 | a plan that meets all deadlines still meets them after dropping an upward-closed set of tasks, with more work already done, or when started earlier |
| SerialPlan.SerialDeps | src/agent_physics/adaptive_runtime.py:1194-1221 | work that the simulation accepts is dependency-closed over what is done |
| SerialPlan.SerialRunsFirstReady | src/agent_physics/adaptive_runtime.py:1194-1221 | each task of the simulated order is ready when its turn comes and is the first of the ready ones in dispatch order |
| SerialPlan.SerialStopsWhenStuck | src/agent_physics/adaptive_runtime.py:1194-1221 | a task left out of the order waits for something that is neither done nor in the order |
| Replanning.RunningIsFixpoint | src/agent_physics/adaptive_runtime.py:1089-1192 | reconciling a state that is on plan changes nothing: shed set and status are a fixpoint |
| Replanning.CascadeIsIdle | src/agent_physics/adaptive_runtime.py:1179-1186 | the loop that sheds tasks whose dependencies were shed never removes anything after the selection |
| Replanning.PlannedIsKept | src/agent_physics/adaptive_runtime.py:1089-1192 | a state whose remaining work fits budget and deadlines keeps its whole shed set through reconciliation; only the status is recomputed |
| Replanning.ReplannedIsPlanned | src/agent_physics/adaptive_runtime.py:1154-1192 | whatever optional work the selection keeps, the result again fits the budget and meets all deadlines, and nothing shed comes back |
| Replanning.ReconciledIsSound | src/agent_physics/adaptive_runtime.py:1089-1192 | the outcome of reconciliation from any well-shaped state: running states are on plan, completed ones have all protected work done and nothing left, a refused run never runs again, protected work is not shed |
| Choosing.KeptExactly | src/agent_physics/adaptive_runtime.py:1154-1186 | reconciliation keeps an optional task exactly when budget and serial plan have room for it beside the protected work and the better tasks that are kept |
| Choosing.OnlyNegotiableIsShed | src/agent_physics/adaptive_runtime.py:1166-1187 | replanning sheds nothing that is protected, done, in flight or unadmitted |
| Choosing.StatusExactly | src/agent_physics/adaptive_runtime.py:1089-1192 | the status after reconciliation: refused exactly when protected work is shed, overdue, late or not affordable, or was lost before; completed exactly when nothing else is left |
| Choosing.RefusalShedsExactly | src/agent_physics/adaptive_runtime.py:1089-1153 | what a refusal gives up in each of its cases, task by task |
| Transitions.InitialIsOnPlan | src/agent_physics/adaptive_runtime.py:1019-1055 | an admitted run starts on plan, or is complete at once with all protected work done |
| Transitions.InitialShedsOnlySkipped | src/agent_physics/adaptive_runtime.py:1019-1055 | the first reconciliation sheds exactly the tasks admission skipped if and only if every optional dependency of an optional task precedes it in dispatch order |
| Examples.AdmittedWorkCanBeShedAtOnce | src/agent_physics/adaptive_runtime.py:1166-1187 | a concrete admitted plan with nothing skipped that loses an optional task before it starts |
| Transitions.DispatchIsChoice | src/agent_physics/adaptive_runtime.py:1286-1296 | a task that is dispatched is an admitted, ready, affordable one that leaves the rest of the plan feasible, in a running state with an empty slot |
| Choosing.NextDispatchExactly | src/agent_physics/adaptive_runtime.py:1239-1296 | for any state and time: a task is dispatched if and only if it passes every filter and no other that does comes before it in dispatch order, and none if and only if none passes |
| Choosing.DecisionExactly | src/agent_physics/adaptive_runtime.py:1463-1522 | the decision record: revision, event, action, subject and reason, exactly the tasks newly shed, and exactly the tasks that may be dispatched next |
| Transitions.HeadIsDispatched | src/agent_physics/adaptive_runtime.py:1239-1296 | idle progress: when nothing is in flight and the head of the serial plan has an available provider, the dispatch at the current time is exactly that head |
| Transitions.OwnDispatchIsAccepted | src/agent_physics/adaptive_runtime.py:1366-1392 | the event built from the dispatch choice is always accepted by the reducer |
| Transitions.DispatchKeepsPlan | src/agent_physics/adaptive_runtime.py:1366-1392 | an accepted dispatch leaves the state running, with the same shed set, and on plan |
| Transitions.SettlementKeepsPlan | src/agent_physics/adaptive_runtime.py:1393-1415 | a settlement no later than the dispatch time plus the p95 of the task sheds and refuses nothing; the run completes exactly when nothing remained |
| Transitions.ControlRefusesExactly | src/agent_physics/adaptive_runtime.py:1331-1365 | a 429, a reset, a capacity report or a budget cut at any accepted time, later than the clock too, refuses a running plan exactly when from that time on the in-flight task or the protected work misses its deadline, or the commitment with the unfinished protected reservations exceeds the caps; it says what each refusal gives up, and otherwise the plan holds again |
| Transitions.PromptControlRefusesExactly | src/agent_physics/adaptive_runtime.py:1331-1365 | at the present time only money can refuse: exactly when the commitment and the unfinished protected reservations exceed the new caps |
| Runs.ReachableIsSound | src/agent_physics/adaptive_runtime.py:1301-1522 | every reachable state satisfies the controller invariant (budget, deadlines, disjointness, protection, closure of the remaining work), and the revision counts the events |
| Runs.FinaleIsFixpoint | src/agent_physics/adaptive_runtime.py:1188-1192 | a completed state is a fixpoint of reconciliation |
| Histories.Conservation | src/agent_physics/adaptive_runtime.py:1366-1462 | over any history each task is dispatched at most once, dispatched tasks are the disjoint union of completed, unknown and in-flight, settled usage is the sum of the settled actuals and unknown usage that of the full reservations |
| Histories.NeverOvercommitted | src/agent_physics/adaptive_runtime.py:1089-1192 | in every reachable state, terminal ones included, the commitment fits the original envelope; while running it fits the present caps together with all remaining reservations |
| Histories.ProtectionHolds | src/agent_physics/adaptive_runtime.py:1009-1017 | protected tasks are never shed; a completed run has finished them all and accounted for every task; unknown tasks are shed in running and completed states |
| Histories.DispatchHonoursWindows | src/agent_physics/adaptive_runtime.py:1331-1350 | every dispatch to a provider happens at or after the reset time of every earlier 429 of that provider, whatever happens in between |
| Histories.DispatchHonoursCapacity | src/agent_physics/adaptive_runtime.py:1223-1237 | no dispatch goes to a provider whose last reported capacity, or declared limit if none was reported, is zero |
| Acceptance.StateTellsHistory | src/agent_physics/adaptive_runtime.py:1301-1462 | after any history the clock, the caps, the completed tasks and the lease are those of its events, and each reset window is the latest reset time of the 429s since the last accepted reset of the provider, or absent |
| Acceptance.AcceptedExactly | src/agent_physics/adaptive_runtime.py:1301-1462 | for all nine kinds: which event is accepted after a history, in terms of that history; a reset exactly when a window stands and the time has reached it |
| Acceptance.StatusAfterExactly | src/agent_physics/adaptive_runtime.py:1425-1522 | after an accepted event the run is cancelled exactly by a cancellation, refused exactly when protected work was lost or is hopeless, and completed exactly when nothing is left to do |
| Agreement.RunIsDurable | src/agent_physics/adaptive_runtime.py:1710-1950 | after any operations, with a crash after any durable write of a dispatch and any number of restarts, the state is the replay of the events and the ledger of completions, attempts and calls matches it |
| Agreement.WorkersAreCalledOnce | src/agent_physics/adaptive_runtime.py:1784-1920 | no worker is called twice and no attempt but the first is started, whatever crashes |
| Agreement.ChargesAreExact | src/agent_physics/adaptive_runtime.py:1784-1950 | each finished task is charged its durable actual usage and each unknown task its full reservation, within the envelope |
| Agreement.RecoveryEmptiesSlot | src/agent_physics/adaptive_runtime.py:1922-1950 | one accepted recovery event empties the slot: a durable completion is settled at its actual usage, any other lease charged in full |
| Outcomes.DispatchOutcome | src/agent_physics/adaptive_runtime.py:1784-1920 | for every reply of the worker and a death after any write: the completions, attempts, calls, lease, charges and clock that a dispatch leaves behind |
| Outcomes.LateResultIsUnknown | src/agent_physics/adaptive_runtime.py:1888-1897 | a result after its deadline leaves no completion, charges the full reservation as unknown and refuses the run if the task was protected |
| Outcomes.CompletionsAreAnswers | src/agent_physics/adaptive_runtime.py:1784-1920 | over any operations and crashes a task has a durable completion exactly when some dispatch of it was answered within reservation and deadline, and the completion is that answer |
| Outcomes.ControlOutcome | src/agent_physics/adaptive_runtime.py:1728-1783 | a control request appends its numbered event exactly if that is well-formed and acceptable after the history, and otherwise leaves no trace |
| Outcomes.RecoveryOutcome | src/agent_physics/adaptive_runtime.py:1922-1950 | recovery settles a durable completion, charges any other lease in full, and does nothing without a lease |
| Agreement.RestartAgreesExactly | src/agent_physics/adaptive_runtime.py:1674-1691 | the constructor agreement check passes if and only if the run was never cancelled while the in-flight task already had a durable completion |
| Driving.StrandingIsReachable | src/agent_physics/adaptive_runtime.py:1774-1783 | that cancellation is reachable from any idle state: a crash between completion and settlement followed by a cancel makes the next restart refuse |
| Driving.DriveCompletes | src/agent_physics/control_service.py:413-439 | end to end: from an idle running state with no provider blocked and workers within their p95 and reservation, the loop ends completed after one round per remaining task, following the serial plan, shedding nothing, each task by its deadline, within the caps |
| Driving.FreshRunCompletes | src/agent_physics/control_service.py:152-202 | the same for a fresh run of an admitted plan whose workers take the p50 of their profile, or, as a write does, no time and no usage |
| Examples.PlainRunFinishes | src/agent_physics/control_service.py:413-439 | a concrete admitted plan to which the end-to-end theorem applies from the start |
| Driving.StatusAlong | src/agent_physics/control_service.py:417-430 | the run is running before each of those rounds and completed after the last |
| Driving.RoundStartsNewTask | src/agent_physics/adaptive_runtime.py:1784-1850 | every round of the loop that dispatches starts one admitted task that no attempt ever started, so that every drive stops, whatever its workers do |
| Driving.SmoothRound | src/agent_physics/control_service.py:417-430 | from an idle state with punctual workers one round completes the head of the serial plan and leaves such a state again, with one task fewer, or a completed run |
| Replay.ReachableDecodes | src/agent_physics/adaptive_runtime.py:610-685 | every reachable state passes the strict decoder |
| Replay.ReplayIsComplete | src/agent_physics/adaptive_runtime.py:1569-1619 | the journal of any accepted history replays to the same final state |
| Replay.ReplayIsFold | src/agent_physics/adaptive_runtime.py:1569-1619 | any records that replay is passed end in the fold of the reducer over their events |
| Replay.ReplayIsSound | src/agent_physics/adaptive_runtime.py:1569-1619 | records that pass are exactly the journal of a history with distinct event identifiers: states, decisions and chaining cannot differ |
| ReplayVerdicts.VerdictExactly | src/agent_physics/adaptive_runtime.py:1569-1619 | replay passes exactly the authentic records; otherwise it fails at the first record that breaks the chain or misreports its event, or the first event that no run could have had escapes |
| ReplayVerdicts.BreakDecides | src/agent_physics/adaptive_runtime.py:1569-1619 | conversely the place and kind of the first break decide between the failing index and the escape |
| Replay.RunReplays | src/agent_physics/adaptive_runtime.py:1703-1723 | what the runtime appends, through any crashes and restarts, replays to the state it holds |
| ControllerModel.SerialDeadlinesFit | src/agent_physics/adaptive_runtime.py:1194-1221 | the loop with its clock and pending set decides the serial plan |
| ControllerModel.ProtectedTaskIds | src/agent_physics/adaptive_runtime.py:1009-1017 | the closure loop returns the least set that holds the mandatory tasks and all dependencies of its members |
| ControllerModel.SelectOptional | src/agent_physics/adaptive_runtime.py:1154-1177 | the loop over optional work in value order keeps a task exactly when budget and serial plan still hold with it |
| ControllerModel.Cascade | src/agent_physics/adaptive_runtime.py:1179-1186 | the repeated passes end with the largest part of the selection without a shed dependency, and shed the rest |
| ControllerModel.Reconcile | src/agent_physics/adaptive_runtime.py:1089-1192 | the in-place reconciliation of the working dictionary is the specified one |
| ControllerModel.DispatchChoices | src/agent_physics/adaptive_runtime.py:1239-1284 | the loop over the tasks collects exactly the legal choices |
| ControllerModel.FindDispatch | src/agent_physics/adaptive_runtime.py:1286-1296 | the result passes every filter and no other task that does is worth more, or as much with a smaller identifier; none only if no task passes |
| ControllerModel.ApplyEvent | src/agent_physics/adaptive_runtime.py:1301-1522 | the in-place reducer returns the specified next state and decision for all nine event kinds, or raises |
| ControllerModel.InitialState | src/agent_physics/adaptive_runtime.py:1019-1055 | the state built from the envelope and reconciled once |
| ControllerModel.Admit | src/agent_physics/adaptive_runtime.py:353-373 | the single-flight check accepts a scheduled selection exactly when its serial plan meets every deadline, and what it accepts is admitted |
| RuntimeObject.ReplayRecords | src/agent_physics/adaptive_runtime.py:1569-1619 | the pass over the records stops at the first mismatch with its index, and an illegal event escapes as a third outcome |
| RuntimeObject.AdaptiveRuntime.AppendTransition | src/agent_physics/adaptive_runtime.py:1710-1723 | record first, then take over the new state; an illegal event leaves store and object alone |
| RuntimeObject.AdaptiveRuntime.ApplyControlEvent | src/agent_physics/adaptive_runtime.py:1728-1783 | a control event is checked, applied and recorded; one that is malformed or illegal changes nothing |
| RuntimeObject.AdaptiveRuntime.RecoverUnknownInflight | src/agent_physics/adaptive_runtime.py:1922-1950 | settles a durable completion or charges the reservation, in place |
| RuntimeObject.AdaptiveRuntime.DispatchNext | src/agent_physics/adaptive_runtime.py:1784-1920 | the whole dispatch over the durable store, for a crash after any of its writes |
| RuntimeObject.AdaptiveRuntime.Drive | src/agent_physics/control_service.py:417-430 | from any durable state the loop stops, in the state its rounds give, and without raising only when the run is over or nothing can be dispatched; from an idle state with punctual workers it raises nothing and completes all remaining work in the order of the serial plan, with the shed set and the caps kept |
| RuntimeObject.StartRun | src/agent_physics/adaptive_runtime.py:1625-1702 | a new run begins with the start record |
| RuntimeObject.ExecuteRun | src/agent_physics/control_service.py:441-494 | a new run started and driven: whatever the workers do, a durable coherent run is left; with open providers and the service workers it ends completed, with every task done that the first reconciliation kept and no other |
| RuntimeObject.ResumeRun | src/agent_physics/adaptive_runtime.py:1625-1702 | opening succeeds exactly when replay passes and the records agree with the durable completions, in the replayed state; the identifiers are the ones the runtime gives if and only if the resumed object is coherent |
| RuntimeObject.Restart | src/agent_physics/adaptive_runtime.py:1674-1691 | after any run of operations and crashes, restarting succeeds exactly when the run was never stranded, in the state the run had |
| EffectSafety.InvAlways | src/agent_physics/effects.py:645-1023 | one invariant over rows, keys, grants, outbox and target holds under every interleaving of brokers, takeovers, lost acknowledgements and process deaths |
| EffectSafety.VerifiedIffIssued | src/agent_physics/effects.py:774-806 | verification accepts exactly the grants that an authority under a trusted key issues for this very operation, inside their interval when time counts |
| EffectSafety.OverriddenScopeIsRefused | src/agent_physics/effects.py:774-806 | a correctly signed grant for another resource or action, or signed with another secret, is refused |
| EffectRuns.AppliedAtMostOnce | src/agent_physics/effects.py:345-373 | no key is applied or compensated more than once |
| EffectRuns.StateTellsTarget | src/agent_physics/effects.py:901-1023 | committed, ambiguous and compensated mean exactly one application, proposed and prepared none; approved and aborted were applied exactly when a process died after applying; compensated means a reversible write compensated once |
| EffectRuns.AbortedIsUnapplied | src/agent_physics/effects.py:1002-1023 | without an armed process death an aborted or approved effect was never applied |
| EffectRuns.AppliedUncommittedIffDied | src/agent_physics/effects.py:936-1023 | an approved or aborted effect was applied if and only if some commit of its own died on it in the run |
| EffectRuns.CrashedIffDied | src/agent_physics/effects.py:339-373 | a key is among those a process died on exactly when some commit of its intent ended in that death |
| EffectRuns.AbortedAfterApplication | src/agent_physics/effects.py:1002-1023 | a concrete run that dies after the target applied and then aborts: the aborted effect was applied |
| EffectRuns.OutboxTellsEveryLife | src/agent_physics/effects.py:577-604 | the events of an intent in sequence order are a path of the lifecycle automaton, ending in its present state and fence version |
| EffectRuns.ChangeIsOneEvent | src/agent_physics/effects.py:577-625 | every change of a row comes with exactly one event about that row in the same transaction |
| EffectRuns.FailureWritesNothing | src/agent_physics/effects.py:520-531 | a step that raises or dies leaves rows, grants and events as they were, except for the recorded lost acknowledgement |
| EffectRuns.RunGrows | src/agent_physics/effects.py:717-772 | over a run fences never fall, one owner belongs to each fence version, grants, keys, events and applications are never lost, and aborted or compensated rows never change |
| EffectRuns.OldTokensAreInert | src/agent_physics/effects.py:626-636 | once a higher fence is issued, no step under an older token changes the database or the target |
| EffectRuns.OneTokenPerVersion | src/agent_physics/effects.py:626-636 | over a whole run, accepted tokens of one intent never share a version with different owners and never go back |
| EffectRuns.TargetGuardsAreUnreachable | src/agent_physics/effects.py:345-408 | the fence and conflict guards of the target never fire for a broker that holds the fence |
| EffectRuns.TargetRemembersFence | src/agent_physics/effects.py:345-356 | once the target has acted under a token it refuses every older one by itself |
| EffectRuns.NoAdapterConflict | src/agent_physics/effects.py:345-408 | no call of any broker ever raises a conflict at the target |
| EffectRuns.KeyNamesOneIntent | src/agent_physics/effects.py:466-486 | two intents never share an idempotency key |
| EffectRuns.ProposalsAreIdempotent | src/agent_physics/effects.py:645-715 | an accepted proposal is answered from its row ever after without a change, and another operation under its key conflicts |
| EffectRuns.RepetitionIsIdempotent | src/agent_physics/effects.py:823-1023 | repeating a successful approval, commit, compensation or abort changes nothing and answers the same |
| EffectRuns.IrreversibleHoldsItsGrant | src/agent_physics/effects.py:823-894 | an irreversible intent that is approved or later, or was applied, holds a stored exact-scope authentic grant that no other intent holds |
| EffectRuns.GrantsWereVerified | src/agent_physics/effects.py:774-894 | every stored grant was authenticated, in scope and in time, by the broker that stored it |
| EffectRuns.AppliedInsideTheWindow | src/agent_physics/effects.py:901-936 | every target application of an irreversible intent was made inside the validity interval of its grant |
| EffectRuns.ApplicationsWereLicensed | src/agent_physics/effects.py:901-966 | every target application was made by a commit whose broker, for an irreversible write, authenticated the stored grant at that very time |
| EffectRuns.AmbiguousIsReconciled | src/agent_physics/effects.py:901-936 | an ambiguous intent can be taken over and committed at any time, with no further application, exactly when the broker trusts the key of its grant |
| EffectOutcomes.ProposeExactly | src/agent_physics/effects.py:645-715 | a proposal succeeds exactly for a well-formed request whose key is new with a new identifier, or stands for the same request; the row it gets, and the reason of every refusal |
| EffectOutcomes.PrepareExactly | src/agent_physics/effects.py:717-742 | a preparation succeeds exactly on a proposed row, with the next fence and this owner |
| EffectOutcomes.FenceExactly | src/agent_physics/effects.py:744-772 | a takeover succeeds exactly on a prepared, approved or ambiguous row |
| EffectOutcomes.ApproveExactly | src/agent_physics/effects.py:823-894 | an approval succeeds exactly on a row approved before with the same grant, or on a prepared row under its fence with an unused valid grant of a trusted authority if it is irreversible and none otherwise; the reason of every refusal |
| EffectOutcomes.ApprovalWrites | src/agent_physics/effects.py:823-894 | it stores the grant, names it in the row and tells one event |
| EffectOutcomes.CommitApprovedExactly | src/agent_physics/effects.py:901-966 | under its fence an approved row is committed with one application exactly when it is reversible or its stored grant is authentic and valid now; with an armed fault it dies or becomes ambiguous instead, and after a death it is committed without a second application |
| EffectOutcomes.CommitAmbiguousExactly | src/agent_physics/effects.py:901-936 | under its fence an ambiguous row is committed without the target exactly when its grant is authentic, at any time |
| EffectOutcomes.CommitElsewhereIsIdle | src/agent_physics/effects.py:901-936 | any other commit changes nothing, and why it is answered or refused |
| EffectOutcomes.CompensateExactly | src/agent_physics/effects.py:968-1000 | a compensation succeeds exactly on a compensated row, or on a standing reversible effect under its fence |
| EffectOutcomes.CompensationsAreNamed | src/agent_physics/effects.py:645-715 | over any run every reversible intent names its compensation |
| EffectOutcomes.AbortExactly | src/agent_physics/effects.py:1002-1023 | an abort succeeds exactly on an aborted or proposed row, or on a prepared or approved one under its fence |
| EffectOutcomes.ExecuteExactly | src/agent_physics/effects.py:345-379 | the target fences exactly the tokens below the highest it has seen, replays or refuses an applied key, and applies a fresh one once, whatever fault follows |
| EffectAnswers.ApprovalTells | src/agent_physics/effects.py:823-894 | an approved irreversible intent holds a stored, authentic grant for exactly its operation |
| EffectAnswers.CommitTells | src/agent_physics/effects.py:901-1000 | a commit that succeeds, loses the acknowledgement or dies has left exactly one application of the key |
| EffectAnswers.TakeoverTells | src/agent_physics/effects.py:744-772 | after a takeover exactly one token is accepted, that of the new owner with the next version |
| EffectAnswers.CompensationTells | src/agent_physics/effects.py:968-1000 | a successful compensation is of a reversible write, applied once and compensated once |
| EffectAnswers.AbortTells | src/agent_physics/effects.py:1002-1023 | an aborted effect is unapplied exactly when no process died on its key |
| EffectBroker.SimulatedEffectAdapter.ExecuteEffect | src/agent_physics/effects.py:345-379 | the target applies once, replays or refuses, and its counters say how often each key was applied |
| EffectBroker.SimulatedEffectAdapter.WasApplied | src/agent_physics/effects.py:381-388 | yes means the key was applied once, for this very effect; no that it was never applied; the conflict that it was applied once for another |
| EffectBroker.SimulatedEffectAdapter.CompensateEffect | src/agent_physics/effects.py:390-408 | the target compensates once, in the order of its checks |
| EffectBroker.SimulatedEffectAdapter.PhysicalApplyCount | src/agent_physics/effects.py:410-412 | the counter equals the number of recorded applications of the key |
| EffectBroker.SimulatedEffectAdapter.PhysicalCompensationCount | src/agent_physics/effects.py:414-416 | the counter equals the number of recorded compensations of the key |
| EffectBroker.SimulatedEffectAdapter.ArmAmbiguousAfterApply | src/agent_physics/effects.py:333-337 | arming a lost acknowledgement applies and compensates nothing and keeps the invariant over any database |
| EffectBroker.SimulatedEffectAdapter.ArmProcessCrashAfterApply | src/agent_physics/effects.py:339-343 | the same for arming a process death |
| EffectBroker.SQLiteEffectBroker.NewKernelIsSound | src/agent_physics/effects.py:430-513 | fresh tables and a fresh target satisfy the invariant that every call needs and keeps |
| EffectBroker.SQLiteEffectBroker.ProposeEffect | src/agent_physics/effects.py:645-715 | keeps the invariant of tables and target; a success hands back the stored row of the key for the same operation, and a refusal leaves the tables as they were |
| EffectBroker.SQLiteEffectBroker.PrepareEffect | src/agent_physics/effects.py:717-742 | keeps the invariant; a success is a prepared row whose fence the caller holds under version 1, and a refusal leaves the tables as they were |
| EffectBroker.SQLiteEffectBroker.AcquireFenceOn | src/agent_physics/effects.py:744-772 | keeps the invariant; after a success exactly one token is accepted, that of this broker with the next version |
| EffectBroker.SQLiteEffectBroker.VerifyGrant | src/agent_physics/effects.py:774-806 | accepts exactly what an authority under a trusted key issues for this operation, inside the interval when time counts |
| EffectBroker.SQLiteEffectBroker.ApproveEffect | src/agent_physics/effects.py:823-894 | keeps the invariant; a success is a row past preparation that, if irreversible, holds an authentic stored grant of its exact scope, and a refusal leaves the tables as they were |
| EffectBroker.SQLiteEffectBroker.InsertGrant | src/agent_physics/effects.py:488-503 | a grant is stored only if neither its identifier nor its intent has one |
| EffectBroker.SQLiteEffectBroker.CommitEffect | src/agent_physics/effects.py:901-966 | keeps the invariant; a success means a committed or compensated row and one application of its key, a lost acknowledgement an ambiguous row and one application, a death one application and untouched tables; any other answer leaves the tables as they were |
| EffectBroker.SQLiteEffectBroker.AttemptEffect | src/agent_physics/effects.py:936-966 | the target acts before any row is written: a refusal or a death leaves the tables alone, a lost acknowledgement is recorded as ambiguous, any other answer as committed |
| EffectBroker.SQLiteEffectBroker.CompensateIntent | src/agent_physics/effects.py:968-1000 | keeps the invariant; a success is a compensated reversible row with one application and one compensation of its key, and a refusal leaves the tables as they were |
| EffectBroker.SQLiteEffectBroker.AbortEffect | src/agent_physics/effects.py:1002-1023 | keeps the invariant; a success is an aborted row whose key was never applied exactly when no process died on it, and a refusal leaves the tables as they were |
| EffectBroker.SQLiteEffectBroker.PendingOutbox | src/agent_physics/effects.py:1025-1054 | the first unpublished events in sequence order: none skipped, none repeated, at most the limit |
| EffectBroker.SQLiteEffectBroker.MarkOutboxPublished | src/agent_physics/effects.py:1056-1073 | a known event is published from then on and nothing else changes, repeating it changes nothing, and unknown events are refused |
| Evidence.BaseAssessment | src/agent_physics/artifacts.py:347-418 | supported exactly when the claim stands on its own evidence; otherwise absent evidence outranks invalid, which outranks stale, and exactly the references at fault are named in order |
| Evidence.AssessClaim | src/agent_physics/artifacts.py:420-452 | supported exactly when the claim stands alone and no conflicting claim does; otherwise exactly the conflicting claims are named |
| Evidence.StatusExactly | src/agent_physics/artifacts.py:347-418 | each status by itself: absent evidence comes before broken, broken before expired, and a supported claim has evidence that is all in force |
| Evidence.OpponentsExactly | src/agent_physics/artifacts.py:430-452 | the claims named against a claim are exactly the conflicting ones that are supported by their own evidence |
| Evidence.AssessedExactly | src/agent_physics/artifacts.py:420-452 | missing without a claim, contradicted exactly when a supported claim has such an opponent, and otherwise the status of its own |
| Evidence.UpheldNeverConflict | src/agent_physics/artifacts.py:430-452 | two supported claims never conflict, even if only one of them declares it |
| Evidence.ConflictBringsDownBoth | src/agent_physics/artifacts.py:430-452 | a conflict between claims that stand alone makes both contradicted |
| Knapsack.GreedyBound | src/agent_physics/context.py:528-568 | any selection that fits the free space is worth at most the greedy choice plus the first rejected candidate |
| Knapsack.NothingLeftFits | src/agent_physics/context.py:540-568 | no rejected candidate would still fit at the end |
| Knapsack.RankedDeclines | src/agent_physics/context.py:524-536 | the sort key orders candidates by exact value density |
| Knapsack.RankedByKey | src/agent_physics/context.py:528-536 | neighbours in the ranking are ordered by the whole key: density, value, size, reference |
| Knapsack.RankedIsPermutation | src/agent_physics/context.py:528-536 | ranking keeps exactly the candidates |
| PackingTheorems.PackingVerifies | src/agent_physics/context.py:196-226 | every packed or refused context passes its own verification, so the internal assertion never fires |
| PackingTheorems.ManifestDeterminesBlocks | src/agent_physics/context.py:196-226 | two verified contexts with one manifest hold the same blocks |
| PackingTheorems.PackedIffSatisfied | src/agent_physics/context.py:353-470 | packed exactly when every obligation is satisfied and together they fit both caps |
| PackingReports.PackedExactlyWhen | src/agent_physics/context.py:353-470 | the same in terms of the evidence: required artifacts in force, required claims upheld, and the summed sizes of what they need within both caps |
| PackingReports.BlocksExactly | src/agent_physics/context.py:353-568 | a packed context holds the required claims, the needed artifacts, the offers it took, and no other block |
| PackingReports.RefusalsExactly | src/agent_physics/context.py:405-470 | a refusal names exactly the obligations at fault, each with its defect or status, or else the exceeded usage |
| PackingTheorems.PackedHoldsEverything | src/agent_physics/context.py:353-398 | a packed context holds every required artifact, every required claim and all its evidence, verified and fresh |
| PackingTheorems.PackedIsGenuine | src/agent_physics/context.py:353-568 | every block of a result is a usable artifact or a supported claim of the evidence set |
| PackingTheorems.PackedClaimsAgree | src/agent_physics/context.py:376-398 | no two packed claims contradict each other, even if only one of them declares it |
| PackingTheorems.RefusalIsTotal | src/agent_physics/context.py:594-634 | a refusal carries no block, names every obligation as unsatisfied and all optional value as lost |
| PackingTheorems.OptionalValueSplits | src/agent_physics/context.py:570-577 | the value kept is what the included optional entries hold and the value lost what the excluded ones hold, packed or refused |
| PackingChoice.TakenExactly | src/agent_physics/context.py:524-568 | an offer that is in force and not needed anyway is packed exactly when it fits both caps beside what the obligations need and the better offers packed |
| PackingChoice.ChoiceIsNearlyBest | src/agent_physics/context.py:524-568 | any set of such offers that fits beside what the obligations need is worth at most what is kept, plus one offer that is left out |
| PackingChoice.KeptIsWorth | src/agent_physics/context.py:570-577 | the value kept is the summed value of the offers taken |
| PackingChoice.OffersAreTakenOrTooLarge | src/agent_physics/context.py:540-568 | every such offer is packed or would exceed a cap at the final usage |
| PackingReports.PackedEntriesAreRight | src/agent_physics/context.py:486-568 | every optional entry of the manifest is about an offer, carries its value and gives the right reason: taken, not fitting, already mandatory, or its defect |
| PackingReports.EveryOfferIsReported | src/agent_physics/context.py:486-592 | every offer has its entry, packed or refused |
| PackingReports.RefusedEntriesAreRight | src/agent_physics/context.py:405-470 | every mandatory entry of a refusal names an obligation at fault and its fault, or a needed block and why it is left out |
| PackingTheorems.OrderOfOptionsIsIrrelevant | src/agent_physics/context.py:335-341 | the result ignores the order and the duplicates of the options |
| ContextPacker.CollectOptions | src/agent_physics/context.py:335-341 | the dictionary of options holds the largest value offered for each artifact |
| ContextPacker.GatherMandatory | src/agent_physics/context.py:343-403 | the two loops with their dictionary gather the satisfied mandatory blocks in key order and an entry for each failed obligation |
| ContextPacker.GatherCandidates | src/agent_physics/context.py:486-526 | the loop over the options separates candidates, which are exactly the offers in force that are not mandatory, from faults |
| ContextPacker.FillGreedily | src/agent_physics/context.py:537-568 | the running byte and token meters choose what the greedy pass chooses |
| ContextPacker.PackContext | src/agent_physics/context.py:322-592 | the whole packing, with its internal assertion proved |
| GraphAlgorithms.Successors | src/agent_physics/graph.py:29-35 | each task lists its dependents once for each time they list it, in ascending order |
| GraphAlgorithms.TopologicalOrder | src/agent_physics/graph.py:103-119 | the in-degree counters and the sorted ready list give the order that always takes the least ready task, or fail when it is short |
| GraphAlgorithms.OrderIsLeastOrCyclic | src/agent_physics/graph.py:103-119 | that order is a dependency-respecting permutation, lexicographically least among all, and is missing exactly when the graph has a cycle |
| Graphs.KahnCompletesIffAcyclic | src/agent_physics/graph.py:103-119 | the order is complete if and only if there is no cycle |
| Graphs.KahnIsLeast | src/agent_physics/graph.py:103-119 | no dependency-respecting permutation is lexicographically smaller |
| GraphAlgorithms.DepthFirst.Visit | src/agent_physics/graph.py:89-98 | visiting a task finishes its dependencies first or reports a real cycle |
| GraphAlgorithms.ValidateAcyclic | src/agent_physics/graph.py:84-101 | the depth-first check raises exactly when there is a cycle |
| GraphAlgorithms.UpwardRanks | src/agent_physics/graph.py:121-129 | each rank is the largest total p95 over all downstream paths; a cyclic graph raises |

## Left out

- SQLite, JSON canonicalisation, SHA-256 and HMAC: a transaction is one atomic step, which writes its rows only after its last check, so that there is nothing to roll back; digests and signatures are ideal.
- The scheduler: its selection is an input. `ControllerModel.Admit` requires what it returns (profiles for all tasks but the skipped ones, totals within the caps) and that the scheduled tasks are closed under protection.
- The strict decoders, except for the facts that replay needs of a state: disjoint task sets, unknown tasks shed, nonempty names and positive reset times.
- The run identifier and graph digest of states and events, which are constant within a run.
- The sorted tuples of a state are sets, since they are built from sets and compared as such.
- Timestamps, `last_error`, event details and message texts of rows and events.
- `run_until_blocked`, which adds a millisecond between dispatches; the end-to-end theorem is about `_drive`.
- The waiting, locking and event-loop parts of `_drive`, and its output validator.
- The write branch of `dispatch_next` is a reply with zero usage and duration, or none; its payload is not modelled.
- Several readings of a broker's clock within one call are one reading.
- The messages of a manifest: the origins listed in a reason, and the final sort of the excluded entries by message.
- Field checks of artifacts and claims beyond identifiers, references, times and digests; one flag stands for the recalculated digests.
- `validate` of a graph before its cycle check: unique identifiers and known dependencies are assumed by the algorithms, as they run after it. Ports are not modelled.
- Float success probabilities and qualities, and `src/agent_physics/control_api.py`, `src/agent_physics/executor.py`, benchmarks, experiments and the console, which would add only easier members.
