# Agent tooling: the protocols behind the tools

The repository is a set of small tools that run, limit and record the work of coding
agents. Four of them rest on protocols, and these are modelled here:

- **Conductor** decides whether an agent may spawn another. Its store is a transactional
  ledger of runs, decisions, reservations, lifecycle events and costs; its policy is a long
  decision procedure over a tier configuration; its pre-tool hook evaluates the policy once
  to fill in a request and once more inside the store's transaction. Modules `Ledger*`,
  `ConductorStore`, `Policy*`, `Hook*`, `Report*`, `SavingsExample`, `StoreExamples`. Every hook is one atomic
  transaction, so the theorems are about arbitrary sequences of transactions.
- **Toolbelt** applies plans: a journalled apply, verify, declare protocol with rollback in
  reverse and recovery after a crash. Modules `Declarations`, `Journal`, `Executor`. The
  environment decides at every durable step whether it works, raises, is interrupted, or
  never happens because the process is gone. The digest that binds a plan to a repository is
  in `Trees`, `Streams`, `RepositoryFiles`, `RepositoryDigest`.
- **Agent harness** runs participants concurrently: a room that stores before it delivers, a
  start barrier over a semaphore, admission of spawned children, and reconstruction of a
  run from its events. Modules `Room`, `CollaborationRoom`, `Barrier`, `Participants`,
  `Receipts`, `Controller`, `Rosters`, `Replay`, `SlashedRoles`. A step is the code between two awaits.
- **Two algorithms on files**: the installer's all-or-nothing commit (`FileTransaction`) and
  the two profile walkers (`Snapshot`, `Walkers`).

Code that changes state is modelled by classes and methods with loops, each proved against a
specification; what the specifications guarantee over whole runs is proved as lemmas.
Money and time are reals, identifiers of new rows come from a counter, a digest stands for
the bytes it is taken of. A character stands for one byte in names, paths and contents, but
in `FileTransaction` for one character of a text as it stands in the file.

## What turned out otherwise than one might expect

- **A late cost can break the budget.** A cost that arrives after its reservation was
  released is charged all the same (`LedgerSafety.LateCostBreaksBudget`).
  `LedgerSafety.OverBudgetExactly` says when one event does it, and
  `LedgerSafety.RunWithinBudget` under which discipline none ever does.
- **The report counts a routed decision once per cost row**, because costs and decisions are
  joined to a reservation side by side (`SavingsExample.SavingsOvercounted`). The count is
  right exactly when no eligible reservation has more than one cost
  (`LedgerReport.SavingsRightExactly`). Measured and estimated money is not affected.
- **A delivery can be refused for good.** An event for an unknown correlation id inserts a
  reservation under that id as its task; if a task of that name exists, the unique key fails
  and the event is lost: `LedgerRetries.RefusedExactly` says when, and
  `StoreExamples.RefusedForGood` gives a history.
- **A tier named "None" would hide orphans**: reservations without a tier appear in the
  snapshot under that name. The snapshot never shows less than there is of any real tier
  (`LedgerSafety.SnapshotActive`); `StoreExamples.OrphanHidden` gives a history in which it
  shows one active reservation of two.
- **The declaration is put back after the actions are undone**, so while a rollback is under
  way it can differ from its before-image although no action is verified any more;
  `Executor.DeclaredWhileUndone` is a run that ends there. What holds at every point is the
  predicate `DeclarationSafe`, part of `Sound` in the contract of every call: a declaration
  that differs can be put back, all actions were verified when it was written, and a row is
  no longer verified exactly when a rollback has marked it since
  (`Executor.NoLongerVerified`).
- **What undoing needs of the rollback commands depends on what went wrong.** As long as no
  process is lost and no journal access raises, each must only invert its action. After a
  crash it may run once more where its action is no longer in effect, and must be idempotent.
  After a journal fault it may run again below other actions already undone, and must be
  harmless there too; `Journal.OverwritingIsUndoable` is a plan that tells the last two apart.
- **One action can be left applied after a failed apply**, and only one: the last, whose step
  ran but whose row still says begun. It happens when the process is lost there, or when
  recording the command's result raises, since the action is then on no list to undo:
  `Executor.LeftApplied` is a run.
- **A rollback command that fails is forgotten by a crash**: its row says so, but the next
  recovery skips it and may close the transaction as rolled back, as it does in the run
  `Executor.ForgottenFailure`. The predicate `Recovered`, in the contract of
  `Executor.Executor.Recover`, says when: after a recovery that reports rolled back, nothing
  but a leaked action is in effect exactly when no action in effect had a row that said its
  rollback had failed. What is said about worlds therefore holds as long as no rollback
  command has failed (`stuck`).
- **Roles with a slash break child ids**: a later child can take an earlier one's id, and the
  depth limit fails (`SlashedRoles.SlashBreaksDepth`). Roles and root ids are therefore taken
  to be free of slashes; the identifier rule of the repository allows them.
- **A root can be lost, and so can the parent of a child that is not.** Roots are announced
  one by one, and a crash before an announcement is stored leaves its root out of the
  reconstructed run (`Replay.RootLostEarly`). A child may be admitted under such a root and
  stored before it (`Replay.LosesItsParent`, `Replay.ParentLostEarly`); after the crash the
  walk up its parents finds no parent. `Replay.ResumedDepthsExactly` says when that happens:
  everybody has a depth after a resumption exactly when the parent of every stored admission
  is a joined root or a stored child.
- **A file that reads as staged is left alone, whatever its line ends.** The installer reads
  texts with every line end turned into a line feed and writes them as they are, so a
  destination whose lines end in carriage return and line feed is passed over when the same
  text is staged with line feeds (`FileTransaction.LineEndingsStay`). After a successful
  commit every path is as staged exactly when no destination is passed over
  (`FileTransaction.AsStagedExactly`), and only one with a carriage return can be.
- **An interrupt during the clean-up undoes what was committed.** The installer rolls back on
  any exception, also once it has begun to delete the backups; what it deleted cannot be put
  back, and the new file is deleted as well. `FileTransaction.InterruptedCleanUp` is a run
  after which neither is left. A complete rollback leaves the files as before, less those
  whose backups were deleted (the contract of `FileTransaction.Transaction.Commit`).
- **A staged file whose write fails stays behind**: it is not yet on the list of temporaries
  to delete (`FileTransaction.HalfWritten`). The destinations are not affected.

## Model

| member | source | states |
|---|---|---|
| ConductorStore.Store.CreateRun | codex-conductor/src/conductor/store.py:200-250 | creating a run sets its generation and lease and nothing else; a bad argument changes nothing |
| ConductorStore.Store.Heartbeat | codex-conductor/src/conductor/store.py:252-266 | a heartbeat moves the lease of a run that has one |
| ConductorStore.Store.ExpireReservations | codex-conductor/src/conductor/store.py:482-501 | a sweep expires overdue approvals and marks overdue starts recoverable, row by row |
| ConductorStore.Store.DecideAndReserve | codex-conductor/src/conductor/store.py:315-450 | the decision transaction: sweep, an earlier decision under the key is returned, otherwise a verdict and, if it approves, one reservation; `LedgerRows.RequestWrites` says what is in the row |
| ConductorStore.Store.RecordLifecycle | codex-conductor/src/conductor/store.py:621-751 | the lifecycle transaction: repeats, conflicts, orphans, usage and costs; `LedgerRows.EventMoves`, `LedgerRows.EventAdopts` and `LedgerUsage.UsageAfter` say what it leaves |
| ConductorStore.Store.ResolveRecovery | codex-conductor/src/conductor/store.py:994-1010 | an operator closes a recoverable reservation |
| ConductorStore.Store.DeleteRun | codex-conductor/src/conductor/store.py:1012-1025 | deleting an inactive run removes exactly its rows |
| LedgerRows.RequestWrites | codex-conductor/src/conductor/store.py:315-420 | a first request under its key fails for want of its run alone; otherwise it adds one decision, and one reservation exactly when generation, lease, correlation and task name do not stand in its way and the evaluator allows and reserves; the row carries the run, task, correlation, operation, tier, model, effort and estimate asked for, approved, not recoverable, to expire after the time asked for |
| LedgerRows.DecisionSays | codex-conductor/src/conductor/store.py:354-387 | the decision names the first ground there is against the request, or says what the evaluator said |
| LedgerRows.AskingAgain | codex-conductor/src/conductor/store.py:323-328 | a key that was decided gets the same decision again, and no second row |
| LedgerRows.TermsKept | codex-conductor/src/conductor/store.py:1068-1098 | no transaction changes a reservation but in its state and whether and why it needs recovery, and each way to end one has its own cause |
| LedgerRows.EveryRowWasMade | codex-conductor/src/conductor/store.py:388-411 | in every reachable state the terms of each row are those of a request that was approved, or of an event that belonged to no reservation |
| LedgerRows.EventRecorded | codex-conductor/src/conductor/store.py:646-665 | an accepted event is recorded as it is |
| LedgerRows.EventMoves | codex-conductor/src/conductor/store.py:667-681 | it moves the one reservation of its correlation and no other row; cancelling and failing end it as such whatever came before; and when recovery is needed |
| LedgerRows.EventAdopts | codex-conductor/src/conductor/store.py:682-709 | an event without a reservation makes one, without tier, model or price, in the state of its kind |
| LedgerRows.SweepWrites | codex-conductor/src/conductor/store.py:482-501 | which rows a sweep changes, and to what |
| LedgerRows.RecoveryWrites | codex-conductor/src/conductor/store.py:994-1010 | an operator ends exactly one reservation, under the outcome asked for, exactly when it needs recovery |
| LedgerRows.DeletionTakes | codex-conductor/src/conductor/store.py:1012-1025 | what stays, table by table, is what belongs to other runs |
| LedgerUsage.UsageAfter | codex-conductor/src/conductor/store.py:711-730 | a usage key, once there, keeps its value until its run is deleted; a report brings one that is missing |
| LedgerUsage.UsageIsFirstReport | codex-conductor/src/conductor/store.py:711-730 | in every state of a history a run, source and parser have usage exactly when an accepted event reported it and the run was not deleted since, and its value is what the first such event said |
| LedgerUsage.TablesTellEvents | codex-conductor/src/conductor/store.py:711-746 | in every reachable state usage is known exactly where a recorded event reports it, and every recorded cost is billed once, for the amount, correlation and certainty reported, and nothing else is |
| LedgerLeases.LeaseIsLastRenewal | codex-conductor/src/conductor/store.py:200-266 | a run has a lease exactly when it was renewed and not deleted since, until the time the last renewal says |
| LedgerLeases.LeaseDecides | codex-conductor/src/conductor/store.py:1012-1025 | until then the run cannot be deleted, from then on it can, and nothing is granted |
| LedgerLeases.GenerationIsLastCreation | codex-conductor/src/conductor/store.py:200-250 | a run exists exactly when it was created and not deleted since, in the generation of the last creation |
| LedgerLeases.GrantedInGeneration | codex-conductor/src/conductor/store.py:354-357 | only requests of that generation are granted |
| LedgerInvariant.StepTables | codex-conductor/src/conductor/store.py:315-501 | every transaction keeps keys unique and references sound in all tables |
| LedgerInvariant.StepValid | codex-conductor/src/conductor/store.py:621-751 | every transaction keeps each reservation's state the one that the recorded kinds of event decide |
| LedgerInvariant.RunValid | codex-conductor/src/conductor/store.py:162-179 | so does every interleaving of transactions |
| LedgerInvariant.RowAfter | codex-conductor/src/conductor/store.py:1068-1098 | all that one transaction can do to an existing reservation |
| LedgerInvariant.EventsKept | codex-conductor/src/conductor/store.py:621-665 | recorded events are never rewritten, and go only with their run |
| LedgerInvariant.DeliveredOutcome | codex-conductor/src/conductor/store.py:1068-1108 | in every reachable state an unended reservation's state depends on which events arrived, not on their order; start, stop and cost leave it costed and settled |
| LedgerInvariant.AnyOrderSettles | codex-conductor/src/conductor/store.py:667-709 | start, stop and cost in any order, repeated, among other transactions, end a reservation costed and not recoverable, orphans included, unless it is ended on the way |
| LedgerInvariant.DeadStaysDead | codex-conductor/src/conductor/store.py:1068-1098 | a cancelled, failed or expired reservation stays so |
| LedgerInvariant.NeverReactivated | codex-conductor/src/conductor/store.py:994-1010 | no lifecycle, expiry or recovery step makes an inactive reservation active again |
| LedgerSafety.SnapshotActive | codex-conductor/src/conductor/store.py:452-480 | the snapshot shows at least the active reservations of each tier, and exactly those for any tier not named "None" |
| LedgerSafety.RunWithinCaps | codex-conductor/src/conductor/store.py:315-501 | under any interleaving, active reservations of a run and tier never exceed a fixed cap that evaluators respect |
| LedgerSafety.ApprovalWithinBudget | codex-conductor/src/conductor/store.py:315-450 | every approval leaves spent plus reserved within the cap and its slack |
| LedgerSafety.LifecycleExposure | codex-conductor/src/conductor/store.py:621-751 | exactly what one event does to spent plus reserved |
| LedgerSafety.RunWithinBudget | codex-conductor/src/conductor/store.py:621-751 | with costs only on cost events, for reservations not yet released and within their estimates, spent plus reserved stays within the cap in every reachable state |
| LedgerSafety.OverBudgetExactly | codex-conductor/src/conductor/store.py:731-746 | one event takes a run over the cap exactly when its charge exceeds the room left plus what it releases |
| LedgerSafety.LateCostBreaksBudget | codex-conductor/src/conductor/store.py:731-746 | a history of respectful approvals after which a late cost exceeds the cap |
| LedgerRetries.AcceptedRepeatsAreInvisible | codex-conductor/src/conductor/store.py:621-665 | any history, approvals and deletions included, ends in the same tables without the deliveries that repeat one accepted earlier in a run not deleted since |
| LedgerRetries.RepeatsAreInvisible | codex-conductor/src/conductor/store.py:621-665 | a history without approvals and deletions ends in the same tables with all repeats removed, those of refused deliveries too |
| LedgerRetries.AcceptedIdIsSpent | codex-conductor/src/conductor/store.py:1119-1130 | once accepted, an event id changes nothing again, and is accepted exactly when it says the same |
| LedgerRetries.SameExactly | codex-conductor/src/conductor/store.py:1119-1130 | two deliveries count as the same exactly when they differ in nothing but times |
| LedgerRetries.RefusedExactly | codex-conductor/src/conductor/store.py:667-709 | a new event is refused exactly when its correlation id is taken as a task name by another reservation |
| StoreExamples.RefusedForGood | codex-conductor/src/conductor/store.py:667-709 | a history after which an event is refused for good |
| StoreExamples.OrphanHidden | codex-conductor/src/conductor/store.py:452-480 | a history after which the snapshot shows one active reservation of two, under the name "None" |
| LedgerReport.GroupsConserve | codex-conductor/src/conductor/store.py:943-962 | however rows are grouped by tier, each column adds up to the sum over all rows |
| LedgerReport.AtMostOneDecision | codex-conductor/src/conductor/store.py:943-962 | a reservation joins at most one decision |
| LedgerReport.ReportConserves | codex-conductor/src/conductor/store.py:933-962 | in every reachable state measured and estimated columns add up to the run's costs, orphans included, each cost counted once |
| LedgerReport.SavingsOfOne | codex-conductor/src/conductor/store.py:943-962 | an eligible reservation is counted once for each of its costs, and once if it has none |
| LedgerReport.SavingsRightExactly | codex-conductor/src/conductor/store.py:943-962 | the savings count is right exactly when no eligible reservation has more than one cost, and never too low |
| SavingsExample.SavingsOvercounted | codex-conductor/src/conductor/store.py:943-962 | a history after which it is wrong |
| ReportBuilder.AddUsage | codex-conductor/src/conductor/report.py:43-72 | usage goes to the row of its model's tier, made if missing, and to no other |
| ReportBuilder.BuildReport | codex-conductor/src/conductor/report.py:15-99 | totals are those of the store's groups whatever usage is added; every tier's tokens are those of its models; a saving is projected in routing mode alone, and is never negative |
| ReportBuilder.ReportTotals | codex-conductor/src/conductor/report.py:74-98 | in every reachable state the report's total is the run's recorded cost |
| ReportBuilder.ReportSavings | codex-conductor/src/conductor/report.py:76-83 | the saving is projected from the savings column over the whole join |
| ReportBuilder.TokensConserved | codex-conductor/src/conductor/report.py:43-72 | across the tiers each row of usage is counted once |
| ReportBuilder.ReportedTokens | codex-conductor/src/conductor/report.py:43-72 | in every reachable state the tokens reported over all tiers are, for each source and parser of the run, what the first event to report it said, once |
| PolicyTheorems.ApprovalOnlyLost | codex-conductor/src/conductor/policy.py:42-417 | growing usage can only turn an approval into a refusal, and never changes its terms |
| PolicyTheorems.ApprovedExactly | codex-conductor/src/conductor/policy.py:356-417 | past the gate and with a tier chosen, approval holds exactly when tier and enforced budget have room |
| PolicyTheorems.ApprovalHasRoom | codex-conductor/src/conductor/policy.py:356-417 | an approval reserves in a configured, enabled tier below its cap and, under enforcement, within budget |
| PolicyTheorems.SelectedIsTarget | codex-conductor/src/conductor/policy.py:134-310 | the model an approval names is that of the tier it reserves in |
| PolicyTheorems.HighRiskOnFrontier | codex-conductor/src/conductor/policy.py:119-195 | high-risk work is only approved on an enabled frontier tier, for a caller on it |
| PolicyTheorems.AdmissionStaysHome | codex-conductor/src/conductor/policy.py:311-349 | in admission mode the child lands on the caller's own tier, unnamed; `PolicyExactly.AdmissionExactly` says when |
| PolicyExactly.AdmissionExactly | codex-conductor/src/conductor/policy.py:42-417 | in admission mode work is approved exactly when the caller may spawn, its own enabled tier is the frontier for high-risk work, or else the cheapest enabled one no cheaper than the owner of the task class, and tier and enforced budget have room |
| PolicyExactly.RoutingExactly | codex-conductor/src/conductor/policy.py:42-417 | in routing mode work is approved exactly when the caller may spawn, the model asked for or inherited is that of an enabled tier, under the caller's rank, generation, effort and price, frontier to frontier for high-risk work, with room; and on which terms |
| PolicyExactly.LetThroughExactly | codex-conductor/src/conductor/policy.py:42-118 | what is allowed with nothing reserved |
| PolicyExactly.WarnsExactly | codex-conductor/src/conductor/policy.py:371-417 | which approvals warn of the budget |
| PolicyGrounds.GateRule | codex-conductor/src/conductor/policy.py:58-118 | a verdict before any tier is chosen is on the first ground there is, in the order of the checks |
| PolicyGrounds.AdmissionRule | codex-conductor/src/conductor/policy.py:311-417 | admission of a caller that may spawn names the first ground there is against it, and approves when there is none |
| PolicyGrounds.RoutingRule | codex-conductor/src/conductor/policy.py:134-310 | so does routing, once a model is asked for or inherited that some tier has |
| PolicyGrounds.VerdictNames | codex-conductor/src/conductor/policy.py:474-500 | every verdict, refusals too, names a whole tier or none: its price, and in routing mode its model; and saves only what it reserves |
| PolicyGrounds.AdmissionNames | codex-conductor/src/conductor/policy.py:311-349 | in admission mode even a refusal names the tier the work belongs on |
| PolicyGrounds.RoutingNames | codex-conductor/src/conductor/policy.py:134-195 | in routing mode it names the tier asked for, once that is enabled and fit for the risk |
| PolicyTheorems.AuthorityShrinks | codex-conductor/src/conductor/policy.py:134-310 | along any chain of approved routing spawns capability, generation and effort never rise, the effort is supported, and depth grows by one |
| PolicyTheorems.NeverReturns | codex-conductor/src/conductor/policy.py:296-310 | with strictly cheaper models required a chain never returns to a model it left |
| PolicyTheorems.ChainIsBounded | codex-conductor/src/conductor/policy.py:95-117 | a chain is no longer than the depth limit |
| Policy.TargetTierIndex | codex-conductor/src/conductor/policy.py:420-437 | the tier for a task class is the largest enabled one no greater than the first that lists the class, and there is none exactly when no tier lists it or none up to that one is enabled |
| Hook.ApprovalIsAdmissible | codex-conductor/src/conductor/hooks/pre_tool_use.py:39-140 | only new work of a known caller, under the run's own configuration, correlated where the mode needs it, can be approved |
| Hook.PreviewRefinesCommit | codex-conductor/src/conductor/hooks/pre_tool_use.py:142-199 | whenever the evaluation inside the transaction approves, the request computed before it has the tier, model, effort and estimate approved; `HookRows.CallAddsRow` carries that to the row |
| HookRows.CallAddsRow | codex-conductor/src/conductor/hooks/pre_tool_use.py:39-199 | a call not heard before adds a reservation exactly when it is admissible, nothing of its run stands in its way and the evaluation inside the transaction approves; the row carries the tier, model, effort and estimate of that evaluation, and the call's run, task, correlation and operation |
| HookRows.AnswerExactly | codex-conductor/src/conductor/hooks/pre_tool_use.py:39-140 | whose calls go to the store, and which others are let through |
| HookRows.AnswerRule | codex-conductor/src/conductor/hooks/pre_tool_use.py:70-88 | what a call is told that does not go to the store |
| HookRows.InadmissibleRule | codex-conductor/src/conductor/hooks/pre_tool_use.py:89-139 | what is written down for a call that is turned down whatever is in use |
| HookRows.SystemRowsAreConfigured | codex-conductor/src/conductor/hooks/pre_tool_use.py:39-199 | however hook calls and everything else interleave, a row with a tier carries the model and estimate of the configured tier of that name, on terms approved for one of the calls |
| Hook.HookRespectsCap | codex-conductor/src/conductor/hooks/pre_tool_use.py:142-199 | what the hook stores respects the configured cap of the tier it files under |
| Hook.HookRespectsBudget | codex-conductor/src/conductor/hooks/pre_tool_use.py:142-199 | and the configured budget, under enforcement |
| Hook.SystemWithinCaps | codex-conductor/src/conductor/hooks/pre_tool_use.py:39-199 | however hook calls and store transactions interleave, no tier exceeds its configured cap |
| Hook.SystemWithinBudget | codex-conductor/src/conductor/hooks/pre_tool_use.py:39-199 | nor, under enforcement and disciplined costs, any run its budget |
| Hook.Handle | codex-conductor/src/conductor/hooks/pre_tool_use.py:39-140 | the hook answers as the transaction decided, leaves the store alone otherwise, and denies when the transaction fails |
| Declarations.UpdatedDeclaration | toolbelt/src/toolbelt/executor.py:524-550 | the declaration written is the old one with the plan's actions applied in order |
| Declarations.LastActionDecides | toolbelt/src/toolbelt/executor.py:524-550 | a tool's last action decides whether it is declared; others stay as they were |
| Declarations.CompatibleDeclares | toolbelt/src/toolbelt/executor.py:332-370 | with or without a declaration before it, a plan that passes preflight declares exactly the tools that were declared or are acted on, except those whose last action removes them, all at the catalog's version |
| Journal.OverwritingIsUndoable | toolbelt/src/toolbelt/planner.py:234-245 | rollback commands that invert and are idempotent can be undone after a crash without being harmless further down |
| Journal.StepDown | toolbelt/src/toolbelt/executor.py:461-502 | undoing the last action on the list leaves the world at a rung from which the rest can be undone, under commands that invert and, only if they may run again, are idempotent or harmless below |
| Journal.CompletedUnderway | toolbelt/src/toolbelt/executor.py:221-242 | the actions a failing call knows to have run are those it must undo |
| Journal.PendingUnderway | toolbelt/src/toolbelt/executor.py:278-292 | the rows a recovery finds mutated or verified are those it must undo |
| Journal.AllUndone | toolbelt/src/toolbelt/executor.py:461-502 | with the list exhausted the world is back at its start, under at most one leftover action |
| Executor.Executor.SetState | toolbelt/src/toolbelt/state.py:250-274 | the journal moves only along the transition table |
| Executor.Executor.RecordAction | toolbelt/src/toolbelt/state.py:276-297 | an action's row is inserted or updated in place |
| Executor.Executor.ApplyActions | toolbelt/src/toolbelt/executor.py:133-169 | whatever stops the loop, the world is the one its rows tell, with at most the last step unrecorded |
| Executor.Executor.VerifyAndDeclare | toolbelt/src/toolbelt/executor.py:173-213 | the declaration is only changed after every action was verified, the command of each that has one having exited zero, and the old one saved, and changes to the one asked for; what goes wrong before that prevents it |
| Executor.Executor.VerifyActions | toolbelt/src/toolbelt/executor.py:173-197 | it ends well only if the verification command of every action that is no removal exited zero |
| Executor.Executor.Rollback | toolbelt/src/toolbelt/executor.py:445-510 | undoing goes on past failures, last action first, restores the declaration, and reports rolled back only if everything was undone; wherever it stops the transaction is sound |
| Executor.Executor.Apply | toolbelt/src/toolbelt/executor.py:70-251 | an admitted plan succeeds when nothing goes wrong, and success means that nothing did: applied, every verification command exited zero, verified and declared; if verification commands are rejected and there is one, it never succeeds; the call returns unless it is interrupted or the process lost; whatever is rejected or raises while the journal and the undoing work, it succeeds or is a no-op; a reported failure is a no-op, for rollback commands that only invert, unless a journal access raised or a rollback failed; every state requested is allowed unless a journal write raised |
| Executor.NoLongerVerified | toolbelt/src/toolbelt/executor.py:461-502 | while a changed declaration is in place, a row is no longer verified exactly when a rollback has marked it |
| Executor.DeclaredWhileUndone | toolbelt/src/toolbelt/executor.py:461-510 | a run after which the new declaration is in place and its action is undone |
| Executor.VerificationRefused | toolbelt/src/toolbelt/executor.py:176-190 | a run whose verification command exits nonzero: the action is undone and nothing declared |
| Executor.LeftApplied | toolbelt/src/toolbelt/executor.py:135-165 | a run that fails and leaves its action in effect |
| Executor.ForgottenFailure | toolbelt/src/toolbelt/executor.py:253-299 | a run whose recovery reports rolled back with the action still in effect |
| Executor.Executor.Recover | toolbelt/src/toolbelt/executor.py:253-299 | a finished transaction is left alone; otherwise what was journalled as mutated or verified is undone, last one first and nothing else, and the declaration restored, always so when nothing goes wrong, and a further crash leaves it as recoverable as before; and exactly when an action stays in effect |
| Executor.Executor.ApplyThenRecover | toolbelt/src/toolbelt/executor.py:70-299 | over any number of crashes, a transaction closed as rolled back has left nothing but at most the one action still journalled as begun; without journal faults its rollback commands need only invert and be idempotent |
| Streams.RoundTrip | toolbelt/src/toolbelt/planner.py:306-328 | the byte stream of a list of files reads back to that list |
| Streams.ReadsOneWay | toolbelt/src/toolbelt/planner.py:306-328 | any stream that reads at all is the stream of what it reads to |
| Streams.StreamInjective | toolbelt/src/toolbelt/planner.py:306-328 | two lists of files with the same stream are the same list |
| RepositoryFiles.VisitInOrder | toolbelt/src/toolbelt/planner.py:281-331 | the traversal lists files in an order that depends on their paths alone |
| RepositoryFiles.OrderUnique | toolbelt/src/toolbelt/planner.py:281-331 | there is only one list in that order for a set of files |
| RepositoryFiles.VisitLooksUp | toolbelt/src/toolbelt/planner.py:289-305 | everything visited is a file of the tree with nothing ignored on its path |
| RepositoryFiles.LookedUpIsVisited | toolbelt/src/toolbelt/planner.py:289-305 | every such file is visited |
| RepositoryDigest.PosixInjective | toolbelt/src/toolbelt/planner.py:309 | the text of a path tells its parts |
| RepositoryDigest.FeedEntry | toolbelt/src/toolbelt/planner.py:306-328 | one file is fed as its record, exactly when limits, kind and length fields accept it |
| RepositoryDigest.RepositoryContent | toolbelt/src/toolbelt/planner.py:277-332 | the loop with its stack feeds the files of the walk in order, and stops exactly on trees that are not accepted |
| RepositoryDigest.SameBytesExactly | toolbelt/src/toolbelt/planner.py:277-332 | two accepted trees feed the same bytes exactly when they agree on every path that is not ignored |
| Room.AppendNumbers | agent-harness/src/agent_harness/store.py:38-59 | appending, by whomever, keeps each run's sequences counting up |
| Room.ReplayIsGapless | agent-harness/src/agent_harness/store.py:61-67 | the stored sequences of a run are 1 to n |
| Room.StepKeeps | agent-harness/src/agent_harness/room.py:20-32 | every step of publishers, subscribers, consumers and foreign writers keeps the room's invariant |
| Room.OrderedDelivery | agent-harness/src/agent_harness/room.py:20-32 | what a subscriber took plus its queue is one unbroken stretch of the stored events, in order, and no queue outgrows its size |
| Room.NeverStuck | agent-harness/src/agent_harness/room.py:27-32 | while the lock is held, the publisher or the consumer of a full queue can move |
| CollaborationRoom.EventStore.Append | agent-harness/src/agent_harness/store.py:38-59 | the event gets its run's next sequence |
| CollaborationRoom.Room.Subscribe | agent-harness/src/agent_harness/room.py:20-25 | a second subscription under one id is refused |
| CollaborationRoom.Room.Persist | agent-harness/src/agent_harness/room.py:29 | the event is stored before anything is delivered |
| CollaborationRoom.Room.PutNext | agent-harness/src/agent_harness/room.py:30-31 | one subscriber gets the event at the end of its queue |
| CollaborationRoom.Room.Publish | agent-harness/src/agent_harness/room.py:27-32 | whatever others do while it stores and waits for full queues, every earlier subscriber gets the event once after all before it, or is still owed it because the publisher waits for a queue that is full |
| Barrier.StepKeeps | agent-harness/src/agent_harness/controller.py:114-148 | every step keeps slots, counts and gate consistent |
| Barrier.WithinLimit | agent-harness/src/agent_harness/controller.py:114-148 | never more responders than speaker slots |
| Barrier.NoSecondBeforeTarget | agent-harness/src/agent_harness/controller.py:131-143 | nobody of the roster goes on after a first event before as many have published one as may speak at once, or all have, or one has ended with nothing |
| Barrier.GateOpensExactly | agent-harness/src/agent_harness/controller.py:192-209 | the gate is open exactly when one of these is so |
| Barrier.RespondingExactly | agent-harness/src/agent_harness/controller.py:124-148 | the number responding is that of the responders that have had an emission and not ended |
| Barrier.EndingFrees | agent-harness/src/agent_harness/controller.py:144-148 | a responder in a slot may end at any emission or publication, which frees the slot |
| Barrier.OnlyEmitted | agent-harness/src/agent_harness/controller.py:122-131 | nothing is published but what was emitted, and once |
| Barrier.NoDeadlock | agent-harness/src/agent_harness/controller.py:114-148 | while a responder is unfinished some responder can move |
| Barrier.Speakers.Published | agent-harness/src/agent_harness/controller.py:131-143 | the first event counts towards the gate and waits for it |
| Barrier.Speakers.Finish | agent-harness/src/agent_harness/controller.py:144-148 | a responder that ends before the gate opens it, and its slot and count are given back |
| Participants.ChildIdInjective | agent-harness/src/agent_harness/controller.py:323-332 | without slashes in roles an id tells parent, role and ordinal |
| Participants.DepthIsLevel | agent-harness/src/agent_harness/controller.py:253-259 | where ids are made by the format, a depth is the number of slashes in the id |
| Participants.RootedExactly | agent-harness/src/agent_harness/controller.py:253-259 | the walk up the parents succeeds for everybody exactly when nobody's parent is missing |
| Participants.DepthExtends | agent-harness/src/agent_harness/controller.py:253-259 | a larger roster leaves depths as they were |
| Receipts.ReconstructRun | agent-harness/src/agent_harness/receipts.py:64-111 | exactly the ordered histories of one run from its start are folded |
| Receipts.LastEventDecides | agent-harness/src/agent_harness/receipts.py:82-101 | whether a participant is active is decided by the last event about it |
| Receipts.ActiveExactly | agent-harness/src/agent_harness/receipts.py:82-101 | a participant is active exactly when it joined or was admitted and the last event about it is neither that it spoke nor that it was degraded |
| Receipts.OverExactly | agent-harness/src/agent_harness/receipts.py:80-81 | a run is over exactly when some event ended it |
| Controller.CountChildren | agent-harness/src/agent_harness/controller.py:69-81 | the counts a new controller starts with are those of its roster |
| Controller.RunController.constructor | agent-harness/src/agent_harness/controller.py:15-93 | a controller over a roster, with what is left of the budget |
| Controller.RunController.SpawnDepth | agent-harness/src/agent_harness/controller.py:253-259 | the walk up the parents ends, and counts them or finds one missing |
| Controller.RunController.AdmitChild | agent-harness/src/agent_harness/controller.py:307-343 | a request is turned down on the first ground and then changes nothing, or one child is admitted |
| Rosters.FreshId | agent-harness/src/agent_harness/controller.py:323-332 | no admission takes an id that is already there |
| Replay.StepKeeps | agent-harness/src/agent_harness/controller.py:288-370 | every interleaved step, crash and resumption keeps memory and stored events in agreement |
| Replay.BeginHolds | agent-harness/src/agent_harness/controller.py:150-166 | the agreement holds when a run starts |
| Replay.ReplayEqualsLive | agent-harness/src/agent_harness/receipts.py:64-111 | stored history and memory name the same participants, lineage, contexts and budget, but for what was not stored yet |
| Replay.ResumedDepthsExactly | agent-harness/src/agent_harness/cli.py:162-212 | after a resumption everybody has a depth exactly when the parent of every stored admission is a joined root or a stored child |
| Replay.LosesItsParent | agent-harness/src/agent_harness/controller.py:166-180 | a child admitted and stored under a root not yet announced has no parent, and no depth, after a crash |
| Replay.ParentLostEarly | agent-harness/src/agent_harness/controller.py:253-259 | the shortest run in which that happens |
| Replay.RootLostEarly | agent-harness/src/agent_harness/controller.py:166-180 | a crash right after a run has started loses its roots |
| Replay.ResumeHeld | agent-harness/src/agent_harness/cli.py:162-212 | a resumed controller holds exactly what was stored |
| Replay.ResumedExactly | agent-harness/src/agent_harness/cli.py:188-192 | a resumption runs exactly the participants that the stored history leaves active |
| Replay.ResumeReturnsLostGrants | agent-harness/src/agent_harness/cli.py:162-212 | a resumption gives back exactly the grants of admissions never stored |
| Replay.SpawningIsSafe | agent-harness/src/agent_harness/controller.py:288-370 | under any interleaving capacities, depth, budget and uniqueness of ids hold |
| Replay.GrantedExactly | agent-harness/src/agent_harness/controller.py:307-321 | exactly which requests are granted, by the counts, depth and grants of the run |
| Replay.SpawnMakes | agent-harness/src/agent_harness/controller.py:323-343 | the child has the parent's adapter, model and context limit, the role and context asked for, and the grant is taken from what remained |
| Replay.ParticipantsKept | agent-harness/src/agent_harness/controller.py:323-343 | nothing changes a participant while it is held |
| SlashedRoles.SlashBreaksDepth | agent-harness/src/agent_harness/models.py:13-19 | five admissions with a slash in one role after which an id was reused and the depth limit is exceeded |
| FileTransaction.AsStagedExactly | codex-conductor/src/conductor/install.py:67-75 | every path ends as staged exactly when no destination differs from its staged text but reads the same; one that does is untouched |
| FileTransaction.ReadExactly | codex-conductor/src/conductor/install.py:74 | reading leaves no carriage return, and changes a text exactly when it has one |
| FileTransaction.Transaction.StageTemporaries | codex-conductor/src/conductor/install.py:64-89 | staging finds exactly the destinations that change and writes their new files beside them |
| FileTransaction.Transaction.ReplaceAll | codex-conductor/src/conductor/install.py:91-109 | whatever fails or cuts it off, every destination begun is tracked and the others are untouched |
| FileTransaction.Transaction.CleanUp | codex-conductor/src/conductor/install.py:111-120 | failures are passed over, an interrupt is not, and what is not deleted is still tracked |
| FileTransaction.Transaction.RollBack | codex-conductor/src/conductor/install.py:121-144 | every destination is put back or reported, and its bytes are kept, wherever it may end |
| FileTransaction.Transaction.Commit | codex-conductor/src/conductor/install.py:44-149 | all or nothing but for an interrupted clean-up: every change with an effect is in place when nothing fails up to the last replacement, and every path is as before, less what the clean-up deleted, after a complete rollback; wherever it ends, the bytes of every original not deleted are at its path or in its backup |
| FileTransaction.LineEndingsStay | codex-conductor/src/conductor/install.py:74-82 | a run that commits and leaves a destination other than staged |
| FileTransaction.InterruptedCleanUp | codex-conductor/src/conductor/install.py:111-144 | a run in which an interrupt of the clean-up loses the original and the new text |
| FileTransaction.HalfWritten | codex-conductor/src/conductor/install.py:78-89 | a run that leaves a new file behind |
| Snapshot.OneState | install-rehearsal/src/install_rehearsal/snapshot.py:103-146 | no path is found twice with different states |
| Walkers.Walker.HashFile | install-rehearsal/src/install_rehearsal/snapshot.py:68-91 | a file is taken in whole, however reads fall into chunks, exactly when it is within the limits |
| Walkers.Walker.WalkDescriptor | install-rehearsal/src/install_rehearsal/snapshot.py:103-146 | the recursive walk adds exactly the entries of a listing, or stops because they do not fit the budget |
| Walkers.Walker.WalkStack | install-rehearsal/src/install_rehearsal/snapshot.py:159-206 | so does the walk with a stack, which ends because entries and listings left decrease |
| Walkers.TakeDescriptorSnapshot | install-rehearsal/src/install_rehearsal/snapshot.py:149-156 | it succeeds exactly within the limits, with every entry and its state |
| Walkers.TakePathSnapshot | install-rehearsal/src/install_rehearsal/snapshot.py:159-206 | so does the other |
| Walkers.TakeBoth | install-rehearsal/src/install_rehearsal/snapshot.py:209-213 | the two give the same result on every tree |

## Left out

- LedgerRetries.RepeatsAreInvisible: approvals and deletions between deliveries are not among its transactions, because an approval can make room for a delivery that was refused before; `AcceptedRepeatsAreInvisible` has them.
- ConductorStore.Store.ResolveRecovery: takes a reservation's number; the lookup before it, of the newest reservation with a key as its number, task, correlation or alias, is not modelled, and the theorems hold whichever number it finds.
- Receipts.ReconstructRun: the payload checks that raise on malformed events are not modelled; the controller never writes such events.
- Replay.StepKeeps: adapters are over-approximated: any stored child may get one at any time.
- Barrier.NoDeadlock: a publication under way is taken to complete, which `Room.NeverStuck` grants as long as consumers take their events.
- Executor.Executor.Apply: one transaction at a time is modelled, a rejected command has no effect on the world, and verification commands have none at all.
- FileTransaction.Transaction.Commit: an interrupt falls on an operation and not between one and its record; making all directories durable is one operation; a destination that is not text, which cannot be read, is one whose reading fails; directories made for destinations, and checks for unsafe paths, are not modelled.
- Walkers.TakeBoth: trees that change during the walk, and reparse points, are not modelled.
- The conductor's operations and messages tables, aliases set by `link_correlation`, lookups by any key in `reservation`, and row timestamps.
- SQLite itself, its locking and retries: a transaction is one atomic step. File replacement is atomic or has no effect.
- Rounding: money and times are reals.
- Explanatory texts of decisions and errors; rule names are kept.
- The report's counts of reservations by outcome, which the store's query takes directly from the rows.
- Parsing and validation of JSON, TOML, identifiers and payloads.
- Subprocesses, timeouts, output capture and redaction; SHA-256 and its collisions.
- Async cancellation, provider adapters, interrupts of participants, and the command lines of all tools.
- Catalogs, recommendations, garbage collection, doctor and status output: facts of one branch each.
- The branch of `evaluate_policy` that compares a selected model outside routing, which no input reaches, since routing has returned before it.
