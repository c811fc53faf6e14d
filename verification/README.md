# After-sales agent: verified model

A Dafny model of the deterministic shell that surrounds the untrusted parts of the after-sales
logistics agent, with proofs of what that shell promises. The untrusted parts (the selector that
proposes the next observation, the sources that answer, the customer's text, the moment a process
dies) are inputs: a result holds for every choice they can make.

`dafny verify dfyconfig.toml` checks the whole project.

## Components

- **Adaptive investigation.** `EvidenceProgress` is the reducer that rebuilds evidence progress from the
  tool-call history, `EvidenceProperties` what keeps a snapshot sound, `EvidenceMeaning` what each of its
  fields says of the calls. `ObservationPolicy` holds the candidate validator, the router and the
  exact-retry rules. `Investigation` specifies a pass (the coordinator's callbacks, the attempt counter, the
  graph loop) and `Coordinator` is the same pass as objects updated in place. `InvestigationBounds` proves
  termination, `InvestigationRetry` the adjacency of exact retries and their survival of a restart,
  `InvestigationOutcome` what a finished pass rests on, `InvestigationStops` exactly when a pass is stopped
  and why, `InvestigationAccounts` what it runs, records and charges, `WorkflowSelector` the progress of the
  deterministic selector; `InvestigationWitness` shows passes that meet the bounds. The termination measure
  counts two visits for each requirement nothing has read yet (its read and its retry), one for an
  outstanding retry and one for the correction.
- **Case-fact ledger.** `CaseFacts` interprets replies and rebuilds the append-only assertion log;
  `CaseFactMeaning` says what a rebuilt entry means. `CaseFactLedger` is the service over the rows,
  `CaseFactHistory` the invariant of every history, `CaseFactGuarantees` what a customer can rely on.
  `CaseFactDecisions` tells from the reply itself what becomes of it, `CaseFactStatuses` gives every status
  from the rows, and `CaseFactOnce` is about ledgers that start without rows.
- **Write protocol.** `CaseRows` is one Case's rows with the repository's checks and every service
  transaction, as functions and as a store updated in place. `CaseProtocol` runs requests against them: any
  number of requests queue for the conversation's lock, the holder commits one transaction at a time, and
  any request may abort, or the process restart, between two transactions. `CaseSafety` and
  `CaseProtocolSafety` prove the invariant, `CaseProtocolSteps` what one event does exactly,
  `CaseProtocolEffects` what each event is meant to do to a Case, stated apart from the transactions,
  `CaseProtocolConsent` whose confirmation an action rests on, `CaseProtocolTheorems` the promises,
  `CaseProtocolProgress` which Cases can still be closed, `CaseProtocolWitness` runs outside the published
  table. The fact ledger of each Case is part of its rows, so the clarification results rest on the ledger's
  own invariant. `Locks` is the lock registry, and `ConversationLock` ties it to the protocol.
- **Event stream.** `EventFrames` splits, prints and parses frames in the format of the WHATWG HTML Standard
  (sections 9.2.5 and 9.2.6); `EventStream` is the subscription that buffers, deduplicates, tracks the
  contiguous prefix and resumes by cursor. `EventFields` says what any frame text denotes and
  `EventDelivery` what the subscription makes of any frames, whoever sent them. `EventCodec` exhibits a
  codec of the kind both assume.
- **Evaluation matrix.** `EvalMatrix` plans and expects the matrix, `EvalRuns` fills and validates it,
  `EvalStability` sums it up, and `EvalTruth` proves that the sums are those of the runs as they turned out.

`Options`, `Lookup`, `StableSort` and `TextOrder` are shared helpers.

## Where the code and its own description differ

- The Case table in `src/after_sales_agent/domain/transitions.py:36-54` is narrower than what the
  service writes. The model follows the service: four edges are added, and
  `CaseProtocolSafety.ExtraEdge` names them. Three come from lapsed proposals and failed actions
  (`src/after_sales_agent/application/service.py:2632`, `:2425` and `:3054`). The fourth is taken when
  the answer to a fact question leads to a proposal: the Case is never moved back to investigating
  (`src/after_sales_agent/application/service.py:1114-1383`), so it goes from awaiting customer input
  straight to awaiting confirmation. `CaseProtocolTheorems.TableIsLeftExactly` tells from the event and
  the state before it exactly when the table is left, and `CaseProtocolWitness.EveryFurtherEdgeIsTaken`
  exhibits a run for each edge.
- Superseding a pending proposal (`src/after_sales_agent/application/service.py:1653-1690`) never
  happens: whenever a proposal is written, none is pending.
- A crash in the middle of an investigation or of an action strands its Case: no request moves a Case
  that is investigating or executing an action, new messages are refused while it is open
  (`src/after_sales_agent/application/service.py:922-933`), and a retry is refused unless the Case awaits
  one (`:2382-2388`). `CaseProtocolProgress.ClosableExactly` proves that these are exactly the Cases that
  can never be closed.
- The design has a conflict settled by one targeted question and lets a customer correct or withdraw what
  was said (`docs/v3/01-design-and-data-contracts.md:521-546` and `:602`). A question is recorded only of a
  fact that was never asked or is in conflict, and an assertion only in answer to a question, so a Case that
  starts without rows never has two assertions of one fact and never needs any of this
  (`CaseFactOnce.EachFactIsAskedAndAssertedOnce`). Those rules are modelled all the same, for ledgers that
  begin with rows of their own (`CaseFactOnce.WithdrawalIsAccepted`); in one whose fact is in conflict, the
  intake of a reply does not take the targeted question to be outstanding
  (`src/after_sales_agent/application/service.py:1196-1206`, `CaseFactStatuses.OpenQuestionLeaves`).
- The retry guard compares the source revision before an exact retry is issued; the retry's own record is
  written with the revision read after it (`src/after_sales_agent/application/investigation.py:1060-1065`),
  when the directive is already gone, so a revision that moves in between is recorded but not reported.
  `InvestigationRetry.ExactRetryIsAdjacentAndSingle` gives the exact condition and
  `InvestigationWitness.RevisionMayMoveDuringRetry` such a pass.
- For an overdue carrier the coordinator declines to finalize until the carrier alert has been read
  (`src/after_sales_agent/application/investigation.py:884-895`). The workflow selector finishes on
  evaluable evidence and never reads it (`WorkflowSelector.OverdueCarrierAlertIsNeverRead`).
- The client replaces CR-LF inside each chunk, so a chunk boundary between CR and LF is not
  normalized. `EventFrames.ChunkwiseNormalizationExact` gives the exact condition and
  `EventFrames.CutLineEndingLosesABlankLine` an input that loses a frame. The server prints no CR.
- Scenario manifests may list a layer twice; nothing refuses it, and the plan then repeats keys
  (`EvalMatrix.PlanIsDuplicateFreeExactly`, `EvalMatrix.RepeatedLayerRepeatsAKey`).

## Conventions

SHA-256 over canonical JSON is taken as injective, so a digest is modelled by the values it covers;
this includes the digests the program truncates to 24 characters. Fresh identifiers are parameters.
Clocks are parameters too. An error raised inside a transaction is a refusal that leaves the rows as
they were. Each class method is proved against a function of the old state with the same name or
purpose, and the promises are then proved about that function.

## Model

| member | source | states |
|---|---|---|
| `EvidenceProgress.Rebuild` | src/after_sales_agent/application/adaptive_core.py:619-815 | the reducer's loop over the sorted calls computes exactly the fold specification, terminal codes and retry flags included |
| `EvidenceProperties.RebuildIgnoresOrder` | src/after_sales_agent/application/adaptive_core.py:640-648 | when every call is time-stamped and (requested_at, id) tells calls apart, every permutation of a history rebuilds to the same snapshot |
| `EvidenceProperties.RebuildIsFold` | src/after_sales_agent/application/adaptive_core.py:650-764 | rebuilding a history extended by a later call is one step from the shorter one |
| `EvidenceProperties.TerminalCodesOnlyGrow` | src/after_sales_agent/application/adaptive_core.py:650-764 | with a fixed pending retry no terminal code ever goes away as calls and their references arrive, except a missing retry origin |
| `EvidenceProperties.ReadinessIsSound` | src/after_sales_agent/application/adaptive_core.py:690-764 | a satisfied requirement always has an in-scope successful call in the history with matching availability and hash and a bound evidence reference |
| `EvidenceProperties.MissingInSnapshot` | src/after_sales_agent/application/adaptive_core.py:521-529 | a requirement is missing exactly when it does not apply to the issue or nothing in scope has read it |
| `EvidenceMeaning.SnapshotMeans` | src/after_sales_agent/application/adaptive_core.py:650-816 | told from the ordered calls alone: each terminal code appears exactly if some call raises it (or the pending origin is missing); each requirement stands as its last call leaves it; its hashes, revisions, calls and references are exactly those of the calls taken as evidence |
| `EvidenceMeaning.SnapshotFieldsMean` | src/after_sales_agent/application/adaptive_core.py:843-880 | the revision counts the actual executions, the missing codes are the required ones not satisfied, and the last actual call is the last in-scope one by a registered tool under an id |
| `ObservationPolicy.ArgumentsAreTrusted` | src/after_sales_agent/application/adaptive_core.py:985-992 | accepted arguments depend on the trusted scope and the tool alone: a tool call carries the trusted order, the policy and ticket reads and no others also the trusted issue, and nothing else is ever passed; a finish carries nothing |
| `ObservationPolicy.AcceptedCallCannotPoison` | src/after_sales_agent/application/adaptive_core.py:903-1016 | recording the call of an accepted candidate, whatever it returns, adds no unknown-tool, irrelevant-tool, contradiction or revision-conflict code |
| `ObservationPolicy.EvaluableExactly` | src/after_sales_agent/application/adaptive_core.py:843-880 | the gate is evaluable exactly when every required code is satisfied and nothing conflicts |
| `ObservationPolicy.FinalizeIsSound` | src/after_sales_agent/application/adaptive_core.py:1044-1110 | the router finalizes only without terminal code, conflict or pending retry and with budget left, and then every required code has its evidence in the history |
| `ObservationPolicy.RoutedExactly` | src/after_sales_agent/application/adaptive_core.py:1044-1124 | exactly when the router repeats, finalizes, replans, and for which of its four reasons it stops |
| `ObservationPolicy.SafeStopIsPermanent` | src/after_sales_agent/application/adaptive_core.py:1065-1076 | after an integrity stop every longer history stops again for the same reason, whatever budget, trigger and revision the router is given |
| `ObservationPolicy.IssuedRetryIsTheReducersRetry` | src/after_sales_agent/application/adaptive_core.py:1127-1180 | the issuer, the retry checker and the reducer agree on which call is the exact retry of a failure |
| `ObservationPolicy.ExactRetryController.ValidateNext` | src/after_sales_agent/application/adaptive_core.py:1182-1206 | permits exactly one matching execution, then refuses every other as exhausted |
| `Coordinator.GuardController.ObserveSelectorTurn` | src/after_sales_agent/application/adaptive_core.py:1236-1243 | reports a stuck selector at the second turn in a row that left progress unchanged |
| `Coordinator.GuardController.AllowCorrection` | src/after_sales_agent/application/adaptive_core.py:1245-1249 | grants one correction for the life of the guard |
| `Coordinator.TraceCoordinator.constructor` | src/after_sales_agent/application/investigation.py:225-307 | restores records, progress, attempt counts and the due retry from persisted rows |
| `Coordinator.TraceCoordinator.BeforeSelector` | src/after_sales_agent/application/investigation.py:356-542 | repeats an outstanding retry, drops it when the source moved, stops, or goes on: the new state is the specified one |
| `Coordinator.TraceCoordinator.SelectObservation` | src/after_sales_agent/application/investigation.py:544-691 | turns a candidate into a tool call, a finish, the one correction or a stop, updating fingerprints and guards as specified |
| `Coordinator.TraceCoordinator.OnToolResult` | src/after_sales_agent/application/investigation.py:693-935 | takes a result into history, retry lock, rebuilt progress, early stops and terminal reason as specified; the lemmas of InvestigationStops say what the next visit then does |
| `Coordinator.TraceCoordinator.Execute` | src/after_sales_agent/application/investigation.py:1026-1196 | counts the attempt and the actual read, records the call and hands the result on |
| `Coordinator.InvestigationGraph.Investigate` | src/after_sales_agent/agents/graph.py:26-85 | the graph loop computes the pass that the termination and retry results are about |
| `InvestigationStops.HopelessPassStops` | src/after_sales_agent/application/investigation.py:895-899 | after a visit that executed a tool and left no retry due, a terminal code in the snapshot, a spent planning or read budget or a second turn without progress makes the next visit end the pass, without execution, selector turn or charge; with early stopping on, so does a signal or evaluable evidence that needs no carrier context |
| `InvestigationStops.NextVisitStopsExactly` | src/after_sales_agent/application/investigation.py:506-542 | the next visit stops for those causes or at the set number of reads, and for nothing else |
| `InvestigationStops.ReasonIsTheFirstCause` | src/after_sales_agent/application/investigation.py:895-899 | without an early-stop signal the pass records an integrity conflict before a spent budget before a lack of progress |
| `InvestigationStops.SignalEndsThePass` | src/after_sales_agent/application/investigation.py:506-530 | with early stopping on, an answered order record against the issue, a ticket found, or a stalled parcel's policy read within its time sets its own signal and the next visit ends the pass |
| `InvestigationStops.NothingFollowsACause` | src/after_sales_agent/agents/graph.py:26-85 | over a whole pass: once a visit leaves a cause and no retry due, the visit after it is the last, and nothing more is executed, recorded or charged |
| `InvestigationStops.TwoIdleVisitsStop` | src/after_sales_agent/application/adaptive_core.py:1236-1243 | two visits in a row that leave the snapshot as it was, by a call or by a correction, are followed by the end of the pass |
| `InvestigationStops.DueRetryIsSettled` | src/after_sales_agent/application/investigation.py:477-505 | with a retry due, a source at another revision ends the pass for that reason and drops the retry; otherwise the retry itself is executed while a read is left, and nothing is once the reads are spent |
| `InvestigationAccounts.BudgetsAreCharged` | src/after_sales_agent/application/investigation.py:1026-1100 | over every pass the planning turns charged are its selector turns and the reads charged are the actual calls it recorded; the pass itself takes no budget past 16 and 8 turns or 6 reads, and keeps the history it began with |
| `InvestigationAccounts.VisitRecordsTheReport` | src/after_sales_agent/application/investigation.py:1138-1158 | a visit that executes adds one record with its own tool, arguments and attempt number, reporting of the source exactly what it answered, or a refusal when the reads are spent, and binds one reference for each record the answer names |
| `InvestigationAccounts.VisitRunsTheCandidate` | src/after_sales_agent/application/investigation.py:544-691 | what a selector turn executes is the open read its candidate named, with the trusted arguments |
| `InvestigationAccounts.SelectionExactly` | src/after_sales_agent/application/investigation.py:544-691 | exactly which candidates run, finish, draw the one correction or end the pass |
| `InvestigationAccounts.NoDecisionTwice` | src/after_sales_agent/application/adaptive_core.py:452-497 | no decision on the same progress is accepted twice in a pass |
| `InvestigationBounds.PassTerminates` | src/after_sales_agent/agents/graph.py:26-85 | with exact retry on, every pass over any persisted history and any budget ends within 13 agent visits and 7 selector turns, whatever selector and sources do; the turn-8 edge is unreachable and at most 6 fingerprints are ever accepted |
| `InvestigationBounds.RunKeeps` | src/after_sales_agent/agents/graph.py:26-85 | the accounting of a pass: selector turns and accepted fingerprints together with the requirements still unread never exceed the number unread at the start and the one correction, and each visit uses up at least one unit of what is left |
| `InvestigationBounds.ReadLowersOpen` | src/after_sales_agent/application/investigation.py:693-735 | a read of an unread requirement, whatever it returns, lowers the number of unread requirements by exactly one |
| `InvestigationOutcome.PassFinishesOnEvidence` | src/after_sales_agent/application/investigation.py:477-542 | whatever selector and sources do, a pass that the selector's finish ended has for every required code its in-scope successful call with matching hash and bound reference, or an order record that contradicts the issue; one the session ended without a guard has that evidence or an answered early-stop signal |
| `InvestigationRetry.ExactRetryIsAdjacentAndSingle` | src/after_sales_agent/application/investigation.py:477-505 | in every pass each recorded call is the second attempt, with the same tool and arguments, of the call right before it exactly when that one failed transiently; no third attempt exists; a retry runs in the visit right after its origin's, without a selector turn, while the source still shows the origin's recorded revision, and the two recorded revisions agree exactly when the source shows the same revision after the retry as before it |
| `InvestigationWitness.RevisionMayMoveDuringRetry` | src/after_sales_agent/application/investigation.py:1060-1070 | between any two revisions there is a pass whose retry is recorded at another revision than its origin, and which goes on without reporting it |
| `InvestigationWitness.SevenTurnsAreTaken` | src/after_sales_agent/agents/graph.py:26-85 | the bound of seven selector turns is attained, with early stopping on or off |
| `InvestigationRetry.OnlyTheDueRetryRuns` | src/after_sales_agent/application/investigation.py:477-505 | while a retry is due the only execution an agent visit can lead to is that retry, without a selector turn and only if the source revision is unchanged |
| `InvestigationRetry.RestartKeepsTheRetry` | src/after_sales_agent/application/investigation.py:277-307 | rebuilding the coordinator from the persisted records restores the same progress, attempt counts and due retry |
| `WorkflowSelector.WorkflowMakesProgress` | src/after_sales_agent/agents/models.py:379-459 | with every read answered and fresh budgets, and no read reporting an early-stop fact where early stopping is on: each workflow candidate is accepted, evidence is evaluable after exactly 5 (signed) or 4 (stalled) reads, the next candidate is an acceptable finish, and the pass ends by the session itself, or by that finish when early stopping is off or the carrier alert is wanted |
| `WorkflowSelector.OverdueCarrierAlertIsNeverRead` | src/after_sales_agent/application/investigation.py:884-895 | for an overdue carrier the coordinator goes on to have the carrier alert read, but the workflow selector finishes and never reads it |
| `CaseFacts.Rebuild` | src/after_sales_agent/domain/case_facts.py:472-563 | the loops over ids, superseders and groups compute the declaratively stated snapshot, integrity errors included |
| `CaseFactMeaning.RebuildIgnoresOrder` | src/after_sales_agent/domain/case_facts.py:480-482 | any permutation of assertions and questions rebuilds to the same snapshot or the same error |
| `CaseFactMeaning.ActiveAndSupersededPartition` | src/after_sales_agent/domain/case_facts.py:425-469 | active and superseded ids partition the ids of each fact's assertions, by whether something supersedes them |
| `CaseFactMeaning.NewestIsActive` | src/after_sales_agent/domain/case_facts.py:487-499 | with well-formed supersession the newest assertion of a fact is active |
| `CaseFactMeaning.KnownExactly` | src/after_sales_agent/domain/case_facts.py:416-459 | a fact is known with a value exactly when supersession is well formed, an active assertion has the value, none has the opposite or withdraws, and the location fact speaks of the current proof |
| `CaseFactStatuses.ConflictExactly` | src/after_sales_agent/domain/case_facts.py:416-459 | a fact is in conflict exactly when its active assertions disagree in value, in what they supersede or in the proof they speak of, with the proof that is current deciding for the location fact |
| `CaseFactStatuses.QuestionStatusExactly` | src/after_sales_agent/domain/case_facts.py:518-544 | each of the six question statuses as an iff over the fact's status, the proof and the rows: known facts are answered, unknown ones unanswered or exhausted by whether a question of them was asked, conflicts open or exhausted by whether a targeted one was; the count is that of the questions |
| `CaseFactStatuses.SnapshotListsExactly` | src/after_sales_agent/domain/case_facts.py:487-563 | the revision counts assertions and questions, the sources are the messages of the active assertions, and the location fact names a proof exactly when all its active assertions speak of it |
| `CaseFactHistory.InterpretTarget` | src/after_sales_agent/domain/case_facts.py:336-361 | what an interpretation rests on: its value is the supported one; a target is the newest active assertion of the fact; a correction flips a known value; only a withdrawal names a withdrawal; a repeat has its like, a new one has none |
| `CaseFactLedger.CaseFactService.Accept` | src/after_sales_agent/application/case_facts.py:259-445 | accepting a reply leaves exactly the specified rows and decision; a refusal leaves the rows as they were |
| `CaseFactLedger.CaseFactService.Record` | src/after_sales_agent/application/case_facts.py:447-491 | recording a question leaves exactly the specified rows; asking again returns the question already recorded |
| `CaseFactDecisions.FirstDeliveryIsDecidedByTheReply` | src/after_sales_agent/application/case_facts.py:283-445 | a first delivery is accepted exactly when its batch is one well-shaped candidate of the asked fact with the value the reply itself reads, the whole reply as its span, and the relation and target the reply's cues and the active assertions call for; then one assertion with the reply's value is appended, otherwise only the rejection with its reason |
| `CaseFactDecisions.LaterDeliveryRepeats` | src/after_sales_agent/application/case_facts.py:283-306 | a reply already consumed is refused unless it names the newest question and the same batch, and then gets the recorded decision and appends no row |
| `CaseFactStatuses.QuestionIsAskedExactly` | src/after_sales_agent/application/case_facts.py:447-491 | exactly when a question is recorded anew, found already recorded or refused, and under which identity |
| `CaseFactStatuses.OpenQuestionLeaves` | src/after_sales_agent/application/service.py:1196-1206 | in a kept ledger a newest question still open leaves its fact asked, and unknown and exhausted or in conflict and exhausted; the intake of a reply takes it to be outstanding exactly when the fact is not in conflict |
| `CaseFactOnce.OpenQuestionShows` | src/after_sales_agent/application/service.py:1196-1206 | in every ledger grown from empty a newest question still open leaves its fact asked once, unknown and exhausted, so the intake of a reply finds it |
| `CaseFactOnce.EachFactIsAskedAndAssertedOnce` | src/after_sales_agent/application/case_facts.py:447-491 | in every ledger grown from empty each fact is asked at most once and asserted at most once, always as new: no fact comes into conflict, no targeted question is asked and nothing is corrected, repeated or withdrawn |
| `CaseFactLedger.CaseFactService.LoadSnapshot` | src/after_sales_agent/application/case_facts.py:190-210 | loading verifies the rows, rebuilds, and refuses a disagreeing stored projection |
| `CaseFactHistory.LedgerInvariant` | src/after_sales_agent/application/case_facts.py:132-188 | every ledger grown from empty verifies its rows and rebuilds without integrity error and without invalid or competing supersession |
| `CaseFactHistory.LedgerAsksAndAnswersOnce` | src/after_sales_agent/application/case_facts.py:259-491 | however a kept ledger began, each fact has at most one ordinary and one targeted question, and questions and replies are paired one to one |
| `CaseFactHistory.ConsumeEffect` | src/after_sales_agent/application/case_facts.py:328-445 | a first delivery is refused, changing nothing, exactly when its assertion would break the assertion contract; otherwise it appends one consumption and at most one assertion and leaves the stored projection current |
| `CaseFactHistory.RecordedQuestionIsNotOpen` | src/after_sales_agent/application/case_facts.py:472-482 | a question found already recorded is never still open in the rebuilt question state |
| `CaseFactGuarantees.WithdrawalIsNeverRevived` | src/after_sales_agent/domain/case_facts.py:424-441 | once a fact of a kept ledger has an active withdrawal, no further history of posts, replies, questions, refreshes and proofs makes it known again |
| `CaseFactGuarantees.AcceptedWithdrawal` | src/after_sales_agent/domain/case_facts.py:336-346 | an accepted withdrawing reply leaves an active withdrawal of its fact |
| `CaseFactOnce.WithdrawalIsAccepted` | src/after_sales_agent/domain/case_facts.py:336-346 | a kept ledger of two questions on one fact, and a reply to it that is accepted as a withdrawal |
| `CaseFactGuarantees.ReplayReturnsTheSameDecision` | src/after_sales_agent/application/case_facts.py:283-306 | delivering a reply again with the same batch, before a newer question, returns the same decision and appends no row |
| `CaseFactGuarantees.StoredProjectionAgrees` | src/after_sales_agent/application/case_facts.py:190-233 | after a storing write and any history without a new delivery proof, loading succeeds and equals recomputation |
| `CaseFactGuarantees.LoadsExactly` | src/after_sales_agent/application/case_facts.py:190-210 | loading a kept ledger succeeds exactly when the stored projection, if any, is what the rows recompute to |
| `CaseRows.CaseStore.ProposeTicket` | src/after_sales_agent/application/service.py:1681-1704 | the proposal transaction supersedes what was pending, creates the proposal and makes it active, or rolls back whole |
| `CaseRows.CaseStore.ConfirmProposal` | src/after_sales_agent/application/service.py:2756-2769 | confirmation writes the proposal state, the ready action and the Case state in one transaction, or nothing |
| `CaseRows.CaseStore.DeclineProposal` | src/after_sales_agent/application/service.py:3255-3269 | declining closes the Case with the proposal in one transaction, or writes nothing |
| `CaseRows.CaseStore.Lapse` | src/after_sales_agent/application/service.py:2624-2633 | an expired or invalidated proposal sends its Case back to retry in one transaction |
| `CaseRows.CaseStore.SubmitAction` | src/after_sales_agent/application/service.py:2822-2850 | submission records the action and, unless a fault is scripted, the ticket under the action's key, in one transaction |
| `CaseRows.CaseStore.VerifyTicket` | src/after_sales_agent/application/service.py:2882-2941 | the read-back closes the Case on a found ticket or as uncertain |
| `CaseRows.CaseStore.RecordActionFault` | src/after_sales_agent/application/service.py:3052-3111 | a scripted fault moves action and Case together |
| `CaseSafety.RetryGuardsNeverFire` | src/after_sales_agent/application/service.py:2389-2412 | on kept rows a retry resumes the one action that failed retryably or reinvestigates; neither refusal applies |
| `CaseSafety.ProposeKeeps` | src/after_sales_agent/application/service.py:1646-1704 | under investigation nothing is pending, so a proposal supersedes nothing, and is written exactly when its id and version are new |
| `CaseSafety.SubmitKeeps` | src/after_sales_agent/application/service.py:2799-2850 | a submission leaves the one ticket under the action's own key, and none when a fault is scripted |
| `CaseProtocolSafety.RunKept` | src/after_sales_agent/application/service.py:886-1112 | every state reached by any interleaving of requests, aborts and process restarts keeps the whole invariant of rows, lock and request progress |
| `CaseProtocolTheorems.EveryEventDoesWhatIsMeant` | src/after_sales_agent/application/service.py:1114-3269 | in every run each event does to each Case exactly what it is meant to: its state, outcome, clarifications, proposals, actions, tickets and fact ledger, stated apart from the transactions with their checks and rollbacks |
| `CaseProtocolConsent.ActionRestsOnConfirmation` | src/after_sales_agent/application/service.py:2580-2769 | whenever an action exists, one request that arrived to confirm its proposal at its own version checked it in time, then found the gate still holding, and only then wrote it |
| `CaseProtocolConsent.DecliningRefuses` | src/after_sales_agent/application/service.py:3184-3269 | no event of a request that arrived to decline adds an action or a ticket or confirms a proposal; it checks the proposal it names, and its completed refusal leaves that proposal declined and the Case closed without action |
| `CaseProtocolConsent.ConfirmingConfirms` | src/after_sales_agent/application/service.py:2580-2769 | a request that arrived to confirm writes the confirmation of the proposal and version it names, and submits that proposal's action next |
| `CaseProtocolConsent.RevisedAtMostOnce` | src/after_sales_agent/application/service.py:1583-1600 | a request revises the issue of its Case at most once; a second revision closes the Case for human support |
| `CaseProtocolTheorems.OnlyANewQuestionIsPut` | src/after_sales_agent/application/service.py:1778-1842 | in every run, recording the fact question goes on to ask the customer exactly when the question is new; refused, unloadable or found already recorded, it closes the Case for human support |
| `CaseProtocolTheorems.AwaitsConfirmationExactly` | src/after_sales_agent/application/service.py:1647-1713 | in every reachable state a Case awaits confirmation exactly when it has a pending proposal, which is then the only one and the active one |
| `CaseProtocolTheorems.OneActionOneTicket` | src/after_sales_agent/application/service.py:2754-2769 | in every reachable state a Case has at most one action and one ticket; an action belongs to a confirmed proposal of its version; a ticket carries its action's key |
| `CaseProtocolTheorems.TicketOutcomeIsVerified` | src/after_sales_agent/application/service.py:2882-2941 | the outcome ticket-created holds exactly when an action succeeded, and the ticket under that action's key exists; failed and uncertain outcomes likewise match the action |
| `CaseProtocolTheorems.RetryIsNeverRefused` | src/after_sales_agent/application/service.py:2389-2412 | in every reachable state a Case that awaits a retry has only retryably failed actions, and the unsafe and conflict refusals are never raised |
| `CaseProtocolTheorems.ReadBackFindsTheTicket` | src/after_sales_agent/application/service.py:2882-2923 | whenever a request reads its ticket back the ticket is there, and the read-back closes the Case on it |
| `CaseProtocolTheorems.OneHolderOneOpenCase` | src/after_sales_agent/storage/locks.py:18-32 | in every reachable state at most one request is past the lock and at most one Case is open; closed Cases are those with an outcome |
| `CaseProtocolTheorems.EveryStepFollowsTheTables` | src/after_sales_agent/domain/transitions.py:36-94 | every event moves Cases along the published table or one of four further edges, proposals and actions along theirs |
| `CaseProtocolTheorems.TableIsLeftExactly` | src/after_sales_agent/domain/transitions.py:36-54 | an event takes a Case off the published table exactly when it checks a pending proposal that expired, finds its gate no longer holding, resumes an action by a retry, records a retryable fault, or writes a proposal while the customer's input is awaited |
| `CaseProtocolWitness.EveryFurtherEdgeIsTaken` | src/after_sales_agent/domain/transitions.py:36-54 | the published Case table lacks four edges and each of them is taken by some run |
| `CaseProtocolProgress.ClosableExactly` | src/after_sales_agent/application/service.py:922-933 | a Case of a reachable state can still be closed exactly when it is not caught in the middle of an investigation or of an action with no request at work on it; once caught, nothing in the conversation ever changes again |
| `CaseProtocolTheorems.LaterStatesPreserve` | src/after_sales_agent/application/service.py:2401-2462 | nothing later in a run resubmits a settled action, changes an action's key, removes a ticket, revives a proposal or reopens a closed Case |
| `CaseProtocolTheorems.ClarificationTerminates` | src/after_sales_agent/application/service.py:464-500 | every event that asks the customer, of a Case that waits already or not, costs exactly one clarification, no other event costs one, no Case waits without being asked, and no run asks a Case a third time |
| `Locks.CaseMutationCoordinator.GetLock` | src/after_sales_agent/storage/locks.py:22-24 | one lock object per key, made on first use and the same ever after; distinct keys never share one |
| `Locks.CaseMutationCoordinator.Enter` | src/after_sales_agent/storage/locks.py:26-32 | enters exactly when the key is not empty and free, and changes no other key's holder |
| `ConversationLock.Acquire` | src/after_sales_agent/storage/locks.py:26-32 | the registry lets a request of the write protocol in exactly when the protocol's own event does, and leaves other conversations' locks alone |
| `EventFrames.ParseFrame` | frontend/src/hooks/useConversationEvents.ts:16-31 | the line loop computes the frame specification |
| `EventFields.FrameMeans` | frontend/src/hooks/useConversationEvents.ts:16-31 | for any text: its lines are the text cut at every line feed; it is a frame exactly when some line is a data field; the data are the values of all data lines in order and the id is that of the last id line |
| `EventFrames.ParsePrintedFrame` | src/after_sales_agent/api/app.py:90-96 | parsing a printed event gives back its id and data |
| `EventFrames.DrainAppend` | frontend/src/hooks/useConversationEvents.ts:126-133 | draining text in two pieces yields the frames and rest of draining it whole |
| `EventFrames.ChunkwiseNormalizationExact` | frontend/src/hooks/useConversationEvents.ts:126-126 | normalizing line endings chunk by chunk equals normalizing the whole exactly when no cut splits a CR-LF pair |
| `EventFrames.CutLineEndingLosesABlankLine` | frontend/src/hooks/useConversationEvents.ts:126-127 | a concrete cut inside CR-LF loses a frame that the whole text contains |
| `EventStream.Subscription.HandleFrame` | frontend/src/hooks/useConversationEvents.ts:64-83 | one frame updates deduplication, cursor, received numbers, contiguous prefix and deliveries as specified |
| `EventStream.Subscription.ReadChunk` | frontend/src/hooks/useConversationEvents.ts:125-133 | one chunk is buffered and every complete frame in it handled |
| `EventStream.Subscription.Connect` | frontend/src/hooks/useConversationEvents.ts:99-146 | the reconnect loop composes its connections as specified, keeping state and dropping the buffer between them |
| `EventStream.RunEnd` | frontend/src/hooks/useConversationEvents.ts:77-79 | the contiguous number is the end of the unbroken run of received sequence numbers |
| `EventStream.ChunkingIsInvisible` | frontend/src/hooks/useConversationEvents.ts:124-135 | for CR-free text every chunking of a response leaves the client in the same state |
| `EventStream.ParsePrintedStream` | src/after_sales_agent/api/app.py:90-96 | draining the concatenated printed events and parsing each frame gives back exactly their ids and data, in order and with nothing left over, and the data decode to the events |
| `EventStream.ResumePoint` | src/after_sales_agent/api/app.py:368-397 | the cursor a client sends makes the server continue right after the contiguous prefix it holds |
| `EventStream.CursorIsRefusedExactly` | src/after_sales_agent/api/app.py:368-397 | a cursor is refused exactly when it is not empty and no event of the log has that id |
| `EventDelivery.EachEventIsDeliveredOnce` | frontend/src/hooks/useConversationEvents.ts:64-83 | whatever any server sends over any connections: the event of each frame that is the first to carry it is delivered once, in frame order, and no other; seen ids, numbers, contiguous number and cursor are those of the delivered events |
| `EventStream.ExactlyOnceInOrder` | frontend/src/hooks/useConversationEvents.ts:56-146 | over any run of connections cut at any character the delivered events are the first contiguousSequence events of the log, without gap or duplicate, and never shrink |
| `EventStream.CompleteConnectionCatchesUp` | frontend/src/hooks/useConversationEvents.ts:99-146 | a connection that survives its response delivers the whole log |
| `EvalMatrix.Plan` | src/after_sales_agent/evals/cli.py:65-82 | the nested loops over sorted scenarios, layers, architectures and repetitions compute the planned sequence |
| `EvalMatrix.ExpectedKeys` | src/after_sales_agent/evals/report.py:69-83 | the report's loops compute exactly the matrix of keys |
| `EvalMatrix.PlanCoversTheMatrix` | src/after_sales_agent/evals/cli.py:65-82 | the plan's keys are exactly the matrix, whatever ids and layers the manifests repeat |
| `EvalMatrix.PlanIsDuplicateFreeExactly` | src/after_sales_agent/evals/cli.py:65-82 | with distinct scenario ids a plan has no duplicate key exactly when no selected scenario lists a layer twice, or nothing is repeated |
| `EvalMatrix.RepeatedLayerRepeatsAKey` | src/after_sales_agent/evals/cli.py:65-82 | a manifest that lists any layer twice, whose plan repeats a key |
| `EvalRuns.RunStore.ExecutePlan` | src/after_sales_agent/evals/cli.py:89-143 | an execution refuses a store with duplicate or foreign runs and otherwise leaves the specified records; EvalTruth says what those tell |
| `EvalRuns.StoreIsRefusedExactly` | src/after_sales_agent/evals/cli.py:98-103 | a store is refused exactly for a repeated key, or else for a record of no planned run |
| `EvalTruth.ExecutionSavesOutcomes` | src/after_sales_agent/evals/cli.py:110-122 | an execution leaves every record that was there and saves exactly one for each run it got to that had none, with that run's key, partition, revision and actual outcome |
| `EvalTruth.ReportTellsTheTruth` | src/after_sales_agent/evals/report.py:123-171 | over any interrupted or complete executions from an empty store, each row's passes number the planned runs of its group that passed when first executed, and all rows together all such runs |
| `EvalRuns.MatrixIsFilledOnce` | src/after_sales_agent/evals/cli.py:89-143 | after any number of interrupted executions and a complete one the store holds exactly one record for each key of the matrix |
| `EvalRuns.ValidateRunMatrix` | src/after_sales_agent/evals/report.py:86-111 | validation succeeds exactly on distinct records that fill the matrix under one revision and partition, and otherwise names the first of duplicates, gaps, foreign revision and foreign partition |
| `EvalStability.GroupRecords` | src/after_sales_agent/evals/report.py:114-120 | grouping keeps every record under its own group, in order |
| `EvalStability.StabilitySection` | src/after_sales_agent/evals/report.py:123-171 | the loop counts each group once in its layer and architecture and reports its row |
| `EvalStability.StabilityAddsUp` | src/after_sales_agent/evals/report.py:123-171 | the three classes count each group once in its layer and architecture and together number the groups; passed runs sum to the complete passes, totals to the records |
| `EvalStability.ClassifiedExactly` | src/after_sales_agent/evals/report.py:29-35 | over a complete matrix a group is stable exactly when all of its runs passed and failing exactly when none did |
| `EvalStability.RowIsExact` | src/after_sales_agent/evals/report.py:29-35 | over any records a group is stable exactly when every repetition is there and all passed, and failing exactly when none passed |

## Left out

- InvestigationBounds.PassTerminates: states the bound for passes with exact retry enforced, the setting every service call uses; without it an adapter may leave a retry pending unlocked, and no bound is claimed there.
- InvestigationOutcome.PassFinishesOnEvidence: likewise for passes with exact retry enforced; of a pass stopped after a set number of reads (`stop_after_actual_executions`, which only the rescue evaluations set) nothing is claimed.
- InvestigationStops.HopelessPassStops: its lemmas too are stated for passes with exact retry enforced.
- WorkflowSelector.WorkflowMakesProgress: assumes no set number of reads to stop after, which only the rescue evaluations set.
- CaseFactLedger.RecordQuestion: appends the new question last; two questions recorded at the same instant, which the service orders by identifier, are not modelled.
- CaseFacts.Interpret: the text cues of a reply are an input (supported value, correction cue, withdrawal cue); the cue lists and case folding are not modelled, and blank text is a reading that supports nothing.
- EventStream.Subscription: receives decoded text; the byte decoder, back-off delays and the connection state shown to the user are not part of this model.
- EvalRuns.RunStore.ExecutePlan: concurrency is an arbitrary order in which items get through; progress output and the final sorting of the returned list are not modelled.
- EvalStability.StabilitySection: rows come in order of first appearance; the sorted order of the report and the list of failed assertions are presentation.
- CaseRows.CaseStore: optimistic revision numbers are not modelled, since every transaction reads the revision it checks; reason texts, messages, runs and usage counters are not modelled either.
- CaseProtocol: one conversation; tickets of other conversations appear only as a scope that may already be taken. The reset of demo data is not modelled.
- The Run table, transition time stamps and error codes: each is settled by reading one function.
- The Evidence Gate, policy binding and the comparison of evidence hashes at confirmation: one free choice of the outside in the write protocol.
- Fixture guard reasons, trace records, event payloads and pacing: they add detail but no property.
- GuardController.observe_decision: no caller in the investigation uses it.
- Exceptions that leave a pass half way (a source that raises, a provider failure): a pass only sees results; what the service does after an exception is the failing move of the write protocol.
- JSON encoding of events: any codec with a line-free text form that decodes to the event stands for it; EventCodec.LawfulCodecExists shows there is one.
- Triage, routing of unsupported requests, replies, policy retrieval, React components and operational scripts: presentation, prompts or plumbing.
- The tool cache: an answer may come from it, and then is simply not an actual execution.
