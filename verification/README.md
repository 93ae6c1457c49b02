# Verification model of the code review agent

The code review agent reviews a diff with a language model and publishes its findings to a
pull request. This project models the parts of it where a mistake costs most and is easiest
to make, and proves what they promise, over all inputs and all runs:

- **Remote publication** (`PublicationTables`, `PublicationProtocol`, `PublicationSafety`,
  `PublicationTheorems`, `PublicationAnswers`, `PublicationVerdicts`, `PublicationService`). Several calls of `publish` run at once against
  one lease row with fencing tokens, item rows written by compare-and-swap, and a remote that
  may post a comment and lose the answer. The protocol is a transition system whose steps
  include time passing, crashes and requests taking effect late; the theorems hold after every
  sequence of events. `PublicationAnswers` and `PublicationVerdicts` say, of the moments of a
  run and not of the protocol's steps, which answers lie behind every request, every written row
  and every outcome. `PublicationService` is `publish` as the program writes it, with every
  store access and port call shown to be one event of the protocol and every answer the call
  takes shown to be the one it was given.
- **Token budget** (`BudgetLedger`, `Budget`, `BudgetSafety`, `BudgetTheorems`). An append-only
  ledger and a mutable reservation map that must agree after every sequence of operations.
- **Model calls** (`ModelGateway`, `ModelCallRecovery`). What a provider's answer costs, and
  what a resume does about calls that a crash left open.
- **Crash recovery of a review run** (`CheckpointCodec`, `Checkpoints`, `Orchestration`,
  `OrchestrationTheorems`, `OrchestrationReruns`). The loop over work units, the checkpoint row it saves into, and
  the codec of the values in it, under any number of interruptions.
- **The diff pipeline** (`DiffText`, `DiffModel`, `DiffParser`, `DiffParserTheorems`,
  `DiffErrors`, `DiffRoundTrip`, `Planner`, `ReviewPlan`, `ReviewPlanTheorems`, `PlanShapes`,
  `DiffPipeline`). A unified diff
  is parsed to numbered lines with slice offsets, packed into work units, and cut back out of
  the text. End to end, the units show exactly the hunk lines that were written. The format is
  that of the `diff` utility in IEEE Std 1003.1-2017, "Diff -u or -U Output Format".
- **Redaction** (`Redaction`). Occurrence search, interval merge and splice.
- **The balanced delimiter tool** (`DelimiterScan`). A stack scan against a grammar.

`Sorting` and `Wrappers` hold the stable sort and the two option and result types the rest
uses. `dafny verify dfyconfig.toml` checks everything.

## Form

Operations that change state in the program are methods here: on classes (`PublicationStore`,
`BudgetService`, `ModelGateway`, `PendingCalls`, `CheckpointStore`, `ExecutionSession`,
`ExecutionBudget`) or, for
loops over local variables, on their own. Each is proved to do what a function of the old
state or of the arguments says, and the theorems are about those functions, so they are about
the methods too. Beside that, the contracts of the main methods state their effects outright, in
terms of the rows, the ledger, the texts and the answers, and lemmas do the same for those
functions of a state that no contract names. Runs are sequences of events; an event that is not possible in a state does
nothing, so a theorem about every sequence is a theorem about every interleaving.

## Assumptions

- A create request takes effect, if it does, while the lease renewed just before it was sent is
  still live. Only `PostedAtMostOnce` needs this; `LateEffectPostsTwice` shows that it does.
- A search for markers finds every comment that is on the remote, and comments are not deleted. A
  create request that is answered as successful has put its comment on the remote; `SucceededIsPosted`
  rests on this.
- Owner ids, reservation ids and attestation ids are fresh. SHA-256 digests are injective: where
  a digest identifies something the model uses what is digested in its place.
- Publication plans are not empty and have distinct keys, the model's limits are positive, and
  delimiters are non-empty and different: the program checks each when it builds the value.
- A review plan is determined by the digests a checkpoint is bound to.

## Where the code does not meet the obvious claim

In these places the code is modelled as it is, with the exact condition under which it meets
the claim, or with a concrete run in which it fails.

- `add_authorization` writes back the account as it was before the entry was appended. The next
  entry repeats a sequence number (`SequencesIncreaseUnlessAuthorized`), and the ledger version
  a summary reports is refused when asked for (`ReportedVersionAvailable`,
  `ReportedVersionRefused`). Sums are not affected.
- A crash between preparing a reservation and recording its call, or between a resume marking a
  row unknown and settling its reservation, leaves the reservation active for good,
  and nothing else does (`StrandedOnlyByThoseCrashes`, `StrandedStaysActive`).
- A mapping with reserved keys does not come back from the checkpoint codec as it was
  (`RoundTripsIff`, `TupleKeyIsTaken`).
- A checkpoint that is purged during a run can make a saved unit run again (`PurgedUnitsRunAgain`).
  Whether one can is seen between runs: exactly if there is a checkpoint and a unit of its plan
  that was saved is not in it (`RunsAgainIff`).
- Two blocks of a hunk with the same line contents get the same scope id, and the plan is refused
  (`PlanAcceptedIff`, `TwinDiffRefused`). Line types are not part of the id.
- Hunks with both counts 0 are accepted by the parser and make planning raise when a unit or
  scope would consist of them alone (`FilePlanFailsIff`, `NonEmptyHunksPlan`, `EmptyHunksFail`).
- Redaction misses an occurrence of a text that overlaps an earlier one, which can happen exactly
  if the text has a border (`AlwaysRedactedIff`, `BorderedIsMissed`).

## Model

| member | source | states |
|---|---|---|
| PublicationTheorems.PostedAtMostOnce | src/code_review_agent/application/publication_service.py:102-292 | after every sequence of events of any number of workers, with crashes, lost responses and expiring leases, no marker is on the remote twice |
| PublicationTheorems.SucceededIsPosted | src/code_review_agent/application/publication_service.py:204-286 | an item stored as succeeded has exactly its stored comment on the remote, also when requests take effect late |
| PublicationTheorems.TablesMoveForward | src/code_review_agent/application/persistence.py:554-667 | from any point of a run to any later one succeeded rows do not change, and versions, row tokens and the last token do not fall |
| PublicationTheorems.OlderTokensAreFenced | src/code_review_agent/application/persistence.py:554-667 | once a newer token is out, no renewal and no item update with an older one succeeds at any later point; a lease row carries the last token issued; new tokens exceed all tokens in use |
| PublicationTheorems.ReturnedResultAccounted | src/code_review_agent/application/publication_service.py:102-286 | a call that returns with the lease row still its own has counted every item exactly once, left none pending, and is succeeded exactly if none failed or is unknown |
| PublicationTheorems.LateEffectPostsTwice | src/code_review_agent/application/publication_service.py:224-258 | without the timing assumption there is a run that posts a marker twice |
| PublicationVerdicts.RequestsAreCleared | src/code_review_agent/application/publication_service.py:109-258 | behind every request under way and every posted comment: the call read the item as unfinished, was told that the target is open and at the expected head, searched to the end without meeting the marker, renewed its lease for the item, and was told that the scan passed |
| PublicationVerdicts.RejectedIsNeverPosted | src/code_review_agent/application/publication_service.py:224-249 | once the scanner rejects an item, the call never has a request for it under way and never posts it, and a row it writes for it is failed as `publication_content_rejected` |
| PublicationVerdicts.RefusedPostsNothing | src/code_review_agent/application/publication_service.py:125-197 | once the target is closed or changed, or the check or the search has failed, the call never requests or posts anything, and each row it writes is failed or unknown with that reason |
| PublicationVerdicts.DecidedAtMostOnce | src/code_review_agent/application/publication_service.py:125-286 | two moments of a call that decide the same item are one, and decide the same |
| PublicationVerdicts.RowsAreDecided | src/code_review_agent/application/publication_service.py:204-326 | a row with the token of a call holds what a moment of that call decided for an item it had read as unfinished, at the version after the one it read |
| PublicationVerdicts.RowIsWhatWasDecided | src/code_review_agent/application/publication_service.py:204-326 | once an answer has decided an item, a row the call writes for it at any later point has exactly that state, comment and error |
| PublicationVerdicts.PortsAreLeased | src/code_review_agent/application/publication_service.py:126-293 | a call stands before a port only after renewing a lease of its own, and a lease row it still has runs for 600 seconds from that renewal |
| PublicationVerdicts.TokensAreGivenOnFreeLeases | src/code_review_agent/application/persistence.py:598-632 | a call either met a lease in force and has no token, or began while none was in force and has the token after the last one |
| PublicationVerdicts.OutcomesAreExplained | src/code_review_agent/application/publication_service.py:84-286 | behind every outcome is a moment that brought it about: a lease in force elsewhere, a failed renewal, a refused write, a port that raised, or the reading of the rows that are returned |
| PublicationVerdicts.NoItemIsLeftOut | src/code_review_agent/application/publication_service.py:204-326 | when a call returns with the lease row still its own, each item had succeeded when the call read it, or its row is the call's own, or it was unknown and spared by a failed search |
| PublicationVerdicts.StateOfResult | src/code_review_agent/domain/publication/models.py:126-139 | the state of a result by the states of its items: unknown if one is unknown, succeeded if there are items and all are succeeded, partial if none is unknown but some are succeeded and some failed, failed if some are failed and the rest pending |
| PublicationVerdicts.ResultsAreReported | src/code_review_agent/application/publication_service.py:102-350 | a result has the rows as they stood when read, counts as published the create requests the remote confirmed, as skipped what had succeeded or was found, and as failed and unknown the items in those states |
| PublicationAnswers.StepKnown | src/code_review_agent/application/publication_service.py:102-326 | the inductive invariant of these: every event keeps what is known of the moments behind requests, rows and outcomes |
| PublicationSafety.EventKeeps | src/code_review_agent/application/publication_service.py:102-326 | the inductive invariant: every event keeps snapshots behind rows, requests within the plan, unposted what the lease holder has yet to post, and one worker's step leaves the others' claims alone |
| PublicationService.Publish | src/code_review_agent/application/publication_service.py:84-100 | one call, run against arbitrary others, is a run of the protocol in which it takes exactly the answers it is given, in order; its outcome is explained by the moments of that run; its lease row is gone afterwards and its result accounts for every item |
| PublicationService.PublishLocked | src/code_review_agent/application/publication_service.py:102-286 | the body of the call, with its verify, search, reconcile, create and fail paths, ends in the protocol state that holds its outcome, each answer taken being the one given |
| PublicationService.TakeSnapshot | src/code_review_agent/application/publication_service.py:109-124 | reading the rows is the protocol's snapshot step; with nothing left the reading is the result |
| PublicationService.VerifyRemote | src/code_review_agent/application/publication_service.py:125-170 | the target check continues, fails the items or raises as the protocol does |
| PublicationService.SearchRemote | src/code_review_agent/application/publication_service.py:171-203 | the marker search leaves the found comments of remaining items |
| PublicationService.ScanItem | src/code_review_agent/application/publication_service.py:224-249 | the scanner's answer, as the world gave it, leads to the create request or to the failed row |
| PublicationService.PublishItems | src/code_review_agent/application/publication_service.py:204-286 | the loop over the plan passes over, reconciles, scans and creates each item, by the answers given, and ends in a read result or a raised error |
| PublicationService.AwaitItem | src/code_review_agent/application/publication_service.py:236-281 | a create answer becomes a succeeded, failed or unknown write, or a raised error |
| PublicationService.FailRemaining | src/code_review_agent/application/publication_service.py:301-326 | failing the rest writes every remaining item, sparing unknown ones when asked to |
| PublicationService.Renew | src/code_review_agent/application/publication_service.py:288-293 | a renewal leads on, or to the raised lease error |
| PublicationTables.PublicationStore.AcquirePublicationLease | src/code_review_agent/application/persistence.py:598-632 | refused exactly while a lease is live; else the lease is this owner's for 600 seconds under the next token, which becomes the last one |
| PublicationTables.PublicationStore.RenewPublicationLease | src/code_review_agent/application/persistence.py:645-667 | renewed exactly if the row is this owner's, of this token and live; then only its expiry moves, to 600 seconds from now |
| PublicationTables.PublicationStore.ReleasePublicationLease | src/code_review_agent/application/persistence.py:634-643 | the lease row goes only if it is this owner's |
| PublicationTables.PublicationStore.UpdatePublicationItem | src/code_review_agent/application/persistence.py:554-596 | the row changes exactly if its item is there at the expected version and the lease is live under this owner and token; it then has the written state, comment and error and this token, at the next version, and no other row changes |
| BudgetTheorems.SpendingIsBounded | src/code_review_agent/domain/budget/service.py:121-309 | after every sequence of operations an open account not pending revalidation has committed at most what is authorized, at most 1,000,000; any deficit is at most what settlements went beyond their reservations |
| BudgetTheorems.LedgerAgreesWithReservations | src/code_review_agent/domain/budget/ledger.py:37-112 | active, released, known, uncertain and overage projected from the ledger equal the sums over reservations by state |
| BudgetTheorems.HistoricalActiveIsExact | src/code_review_agent/domain/budget/ledger.py:70-80 | every ledger version is a prefix in which as much was reserved as closed, so the clamp to zero never takes effect |
| BudgetTheorems.SequencesIncreaseUnlessAuthorized | src/code_review_agent/domain/budget/service.py:268-279 | sequence numbers never fall and rise strictly exactly if no entry follows an added authorization |
| BudgetTheorems.ReportedVersionAvailable | src/code_review_agent/domain/budget/service.py:311-327 | the version a summary reports can be asked for exactly if the last entry is not an added authorization |
| BudgetTheorems.ReportedVersionRefused | src/code_review_agent/domain/budget/service.py:268-327 | a concrete account whose reported version is refused |
| BudgetTheorems.ReservationsCoverTheirCalls | src/code_review_agent/domain/budget/service.py:121-174 | in every reachable state each reservation is for the sum of its input bound and output maximum |
| BudgetTheorems.GrantedIffCovered | src/code_review_agent/domain/budget/service.py:121-174 | a reservation is granted exactly if the account is open and not pending, the call new, the capability valid and the account's own with matching digests, the bounds non-negative with a positive sum, and what is committed plus that sum authorized |
| BudgetTheorems.GrantRaisesActive | src/code_review_agent/domain/budget/service.py:151-174 | in every reachable state, granting raises active by the sum of the bounds and leaves every other figure and account as it was |
| BudgetTheorems.ReopenedOnlyOnResume | src/code_review_agent/domain/budget/service.py:281-309 | a frozen or pending account is open again after an operation only if that is an unfreeze of it, asked for explicitly, with a valid capability of its own and commitments within its authorization |
| BudgetTheorems.SummaryBalances | src/code_review_agent/domain/budget/ledger.py:70-112 | remaining, deficit and spendable as differences of what is authorized and committed |
| BudgetTheorems.AuthorizationsAddUp | src/code_review_agent/domain/budget/service.py:52-279 | what is authorized is what was asked for at creation plus every authorization that was accepted |
| BudgetSafety.ApplyKeeps | src/code_review_agent/domain/budget/service.py:52-309 | every operation keeps every account's ledger in agreement with its reservations and its commitments within its authorization |
| Budget.BudgetService.PrepareReservation | src/code_review_agent/domain/budget/service.py:121-174 | the result by a literal case split in the program's order of checks; granted exactly if the account is open and covers known, uncertain, active and the sum of both bounds; then active rises by that sum and nothing else changes |
| Budget.BudgetService.ReleaseUnsentReservation | src/code_review_agent/domain/budget/service.py:176-189 | closes an active reservation without usage |
| Budget.BudgetService.SettleKnownUsage | src/code_review_agent/domain/budget/service.py:191-228 | closes it with known usage, and records overage and freezes the account if usage exceeds it |
| Budget.BudgetService.SettleUncertainUsage | src/code_review_agent/domain/budget/service.py:230-266 | closes it with at least its full amount, pending revalidation if more was reported |
| Budget.BudgetService.AddAuthorization | src/code_review_agent/domain/budget/service.py:268-279 | adds to the ledger within the limit and writes back the account read before |
| Budget.BudgetService.EvaluateUnfreeze | src/code_review_agent/domain/budget/service.py:281-309 | reopens the account exactly on an explicit resume with a valid capability of its own and no deficit, and changes nothing else |
| ModelGateway.OutcomeIsAccounted | src/code_review_agent/adapters/model/gateway.py:309-417 | for every provider answer, settling moves known plus uncertain by the accounted tokens, overage by the overage tokens, and active down by the reservation |
| ModelGateway.ReleasedOnlyWhenUnsent | src/code_review_agent/adapters/model/gateway.py:353-417 | a reservation is released exactly for a valid known failure reported as unsent and without usage |
| ModelGateway.AnswerIsSettledAs | src/code_review_agent/adapters/model/gateway.py:309-417 | exactly which answers are settled as known, released, or neither: known only for a valid sent result of known state and known usage under a trusted mapping, with its tokens accounted; everything uncertain accounts at least the reservation |
| ModelGateway.StateIsCarried | src/code_review_agent/adapters/model/gateway.py:353-417 | the outcome has the state the provider reported, or unknown if the result is invalid, not sent, or a failure reported as unsent with usage |
| ModelGateway.SettlementEntries | src/code_review_agent/domain/execution/executor.py:522-549 | the ledger entries each settlement appends |
| ModelGateway.ModelGateway.Send | src/code_review_agent/adapters/model/gateway.py:112-186 | a permit is used up by the first send, whatever comes of it; the provider is reached exactly under a permit that holds and a matching reservation, else the error is that of the first check that fails, or that of a discard that fails; the outcome is settled as known, with the reported tokens, exactly under the conditions of `AnswerIsSettledAs` |
| ModelGateway.ModelGateway.DiscardPrepared | src/code_review_agent/adapters/model/gateway.py:188-199 | the permit goes in any case, and it succeeds exactly if the provider at hand and the one the permit was for both give the request up |
| ModelGateway.Settle | src/code_review_agent/domain/execution/executor.py:522-549 | settles by the action of the outcome |
| ModelCallRecovery.ResumeSettlesOpenCalls | src/code_review_agent/bootstrap.py:779-788 | after any crashes, an uninterrupted resume leaves no row open and no open row's reservation active; each still active is charged in full, once, and nothing else moves; what stays active is exactly what some crash of the run has lost |
| ModelCallRecovery.StrandedOnlyByThoseCrashes | src/code_review_agent/application/persistence.py:1446-1456 | after the resume a reservation is still active exactly if, at some crash of the run, it was active and its call not yet recorded, or its row already marked by a resume that had not settled it |
| ModelCallRecovery.StrandedStaysActive | src/code_review_agent/bootstrap.py:779-788 | what a crash has lost stays active on every continuation |
| ModelCallRecovery.StepKeepsR | src/code_review_agent/application/persistence.py:1383-1456 | the invariant of runs with crashes: every active reservation is stranded, held by the process, or in an open row |
| ModelCallRecovery.OpenRidsListed | src/code_review_agent/application/persistence.py:1446-1456 | the reservations returned are those of exactly the open rows, in row order |
| ModelCallRecovery.ClosedAs | src/code_review_agent/domain/execution/executor.py:522-549 | after settling, the reservation is released, settled as known or settled as uncertain by the action of its outcome |
| ModelCallRecovery.PendingCalls.RecoverPendingModelCalls | src/code_review_agent/application/persistence.py:1446-1456 | every open row becomes unknown and every other row stays as it was; returns the reservations of the open rows, oldest first |
| ModelCallRecovery.PendingCalls.FinishModelCall | src/code_review_agent/application/persistence.py:1423-1429 | the row of the call gets its final state and every other row stays as it was |
| ModelCallRecovery.ResumeCalls | src/code_review_agent/bootstrap.py:779-788 | the recovery loop settles every returned reservation in turn |
| ModelCallRecovery.ExecuteModelCall | src/code_review_agent/domain/execution/executor.py:246-285 | reserve, record, send through the gateway, settle and finish are the events of a run, in that order; a refused or cancelled send, and a failing discard, leave what a crash there leaves; the call is settled exactly if the reservation was granted, the call recorded, the permit held and the reservation matched |
| CheckpointCodec.RoundTripsIff | src/code_review_agent/application/persistence.py:1300-1359 | a value comes back from encoding and decoding exactly if its types are trusted, no mapping at any depth has reserved keys, and its records drop nothing their defaults do not restore |
| CheckpointCodec.TupleKeyIsTaken | src/code_review_agent/application/persistence.py:1339-1343 | a mapping with the tuple key comes back as a tuple |
| CheckpointCodec.EncodedIff | src/code_review_agent/application/persistence.py:1300-1331 | a value is encoded exactly if all its records and enums are of trusted types and nothing in it is foreign, fields never written apart |
| CheckpointCodec.RecordIsWritten | src/code_review_agent/application/persistence.py:1320-1330 | a record is written under its type with each field but `raw`, `content` and `diff_text` |
| CheckpointCodec.DecodedIsKnown | src/code_review_agent/application/persistence.py:1336-1359 | whatever is decoded consists of trusted types, enums with their members and dataclasses with their fields |
| Checkpoints.SaveAdds | src/code_review_agent/application/persistence.py:826-950 | a save adds the new result to those the row holds and keeps them, and a load gives the completed ones back |
| Checkpoints.CheckpointStore.SaveCheckpoint | src/code_review_agent/application/persistence.py:826-907 | writes the row with the new result added to those it held, or fails and changes nothing; each error says which check failed |
| Checkpoints.CheckpointStore.LoadCheckpoint | src/code_review_agent/application/persistence.py:909-950 | the completed results exactly if there is a readable row of this binding that is not late; else not found, expired, another binding, or corrupt, each exactly when |
| OrchestrationTheorems.ResumedEqualsUninterrupted | src/code_review_agent/application/orchestration.py:113-180 | with repeatable execution, a run that finishes without stop or unknown outcome passes on the same rank-ordered tuple whatever was interrupted, resumed, purged or not saved before |
| OrchestrationTheorems.ResumedReviewsAgree | src/code_review_agent/application/orchestration.py:113-180 | the same law for what `RunReview` delivers: after any number of runs, each ending anywhere, a run that delivers all units delivers the values of an uninterrupted one |
| OrchestrationReruns.RunsAgainIff | src/code_review_agent/application/orchestration.py:113-180 | between runs, after any history in which no saved unit ran again: some continuation without a purge executes a saved unit again exactly if there is a checkpoint and a unit of its plan that was saved is not in it |
| OrchestrationReruns.SafeFromHere | src/code_review_agent/application/orchestration.py:113-180 | if no such unit is missing, no continuation executes a saved unit again, unless a checkpoint is purged during a run after that |
| OrchestrationReruns.SavedUnitsNeverRunAgain | src/code_review_agent/application/orchestration.py:113-180 | in particular, from the start: no unit is executed after its result was saved if no checkpoint is purged during a run |
| OrchestrationTheorems.SavedResultsArePassedOn | src/code_review_agent/application/orchestration.py:138-180 | the tuple passed on has for each unit, in rank order, an executed result, and the saved one where one was saved, even if execution is not repeatable |
| OrchestrationReruns.PurgedUnitsRunAgain | src/code_review_agent/application/persistence.py:826-950 | a run in which a purge makes a saved unit run again |
| Orchestration.RunReview | src/code_review_agent/application/orchestration.py:98-216 | on success the results have, for each unit passed in rank order, the checkpoint's value if there is one and else the answered one, over all units unless an unknown outcome or a stop ended the loop; state and limitation say exactly which of these it was and whether a save was missed; the checkpoint holds the results; each error of the checkpoint arises exactly when; the whole is a run of the transition system |
| Orchestration.PassOverUnits | src/code_review_agent/application/orchestration.py:138-180 | the loop over units goes by the answers it is given: reuse, stop, execute and save, end on an unknown outcome or on an execution that raises, each exactly where it says, with the checkpoint holding what was executed |
| Orchestration.OpenCheckpoint | src/code_review_agent/application/orchestration.py:113-137 | which checkpoint errors end the run and when, what is taken over from it, and that a failing creation alone makes the run partial from the start |
| Orchestration.UnitsAreRanked | src/code_review_agent/application/orchestration.py:142-142 | the units are passed in rank order, each once |
| Orchestration.ExecutionSession.Advance | src/code_review_agent/application/orchestration.py:43-53 | moves to the next phase and to no other, and the trace shows every phase in order |
| DiffText.LinesAreCut | src/code_review_agent/domain/input/service.py:774-789 | physical lines are consecutive whole lines that make up the text |
| DiffText.CutIsUnique | src/code_review_agent/domain/input/service.py:774-789 | there is only one way to cut a text so |
| DiffText.LinesOfWritten | src/code_review_agent/domain/input/service.py:774-789 | cutting gives back the lines a text was written from, the last of them ended by a newline or not |
| DiffText.TextWritten | src/code_review_agent/domain/input/service.py:774-789 | every text is written from the lines it is cut into |
| DiffText.CutLines | src/code_review_agent/domain/input/service.py:774-789 | the loop computes these lines, and fails exactly if there are too many |
| DiffText.HeaderOfRendered | src/code_review_agent/domain/input/service.py:41-41 | reading a written hunk header gives its ranges back, with counts of 1 left out or not, with or without a heading |
| DiffText.HeaderIff | src/code_review_agent/domain/input/service.py:41-41 | a line is a hunk header with these ranges exactly if it is written in that grammar, with counts of 1 left out or not and anything behind it |
| DiffModel.ValidateLineLocations | src/code_review_agent/domain/input/models.py:877-895 | accepts exactly the hunks whose lines have the sequence and line numbers their kinds give |
| DiffModel.ValidateHunkOrder | src/code_review_agent/domain/input/models.py:898-911 | accepts exactly hunks each of which starts behind the one before it on both sides |
| DiffModel.LocationsIncrease | src/code_review_agent/domain/input/models.py:877-911 | in a valid file line numbers rise strictly on each side across all hunks |
| DiffModel.SidesAre | src/code_review_agent/domain/input/service.py:619-661 | how many lines of each kind count on the old side, on the new side and as changed |
| DiffParserTheorems.HunkAcceptedIff | src/code_review_agent/domain/input/service.py:589-703 | a hunk is accepted exactly if its header is well formed and some lines after it, markers apart, all have prefixes and meet its counts within the limit |
| DiffParserTheorems.HunkSound | src/code_review_agent/domain/input/service.py:589-758 | an accepted hunk satisfies the validator and records exactly the lines of its body |
| DiffParserTheorems.HunkComplete | src/code_review_agent/domain/input/service.py:589-703 | the parse ends exactly where a body with the header's counts ends |
| DiffParserTheorems.ParsedSound | src/code_review_agent/domain/input/service.py:287-320 | for every accepted text all hunks are valid and in order, every slice cuts a whole line without its prefix, slices are disjoint and strictly increasing over all files, file ids are distinct and limits hold |
| DiffRoundTrip.AcceptedIffWritten | src/code_review_agent/domain/input/service.py:287-320 | the parser accepts exactly the texts written from well-formed files within the limits, with or without a newline behind the last line, and reads each as what it was written from |
| DiffRoundTrip.WrittenDiffParses | src/code_review_agent/domain/input/service.py:287-320 | every such text is accepted, and each file comes back with its identity and its hunks: ranges and, line by line, kinds and contents |
| DiffRoundTrip.AcceptedDiffIsWritten | src/code_review_agent/domain/input/service.py:287-320 | every accepted text is written so: its files are found from it |
| DiffRoundTrip.FileReads | src/code_review_agent/domain/input/service.py:322-587 | one file written from header lines, a marker pair, hunks and no-newline markers behind them, in any order the loop takes, is accepted and read back |
| DiffRoundTrip.FileFound | src/code_review_agent/domain/input/service.py:322-587 | the lines of an accepted file are a file written so |
| DiffRoundTrip.HunkReads | src/code_review_agent/domain/input/service.py:589-703 | a written hunk is accepted and read back, whatever stands behind it; of the no-newline markers there the first is taken with the hunk |
| DiffRoundTrip.SmallFileOk | src/code_review_agent/domain/input/service.py:589-703 | a file with one hunk that adds one line, whatever it says, and a no-newline marker behind it is well formed in this sense |
| DiffRoundTrip.SectionsAreParts | src/code_review_agent/domain/input/service.py:293-299 | the text is divided exactly at the files it was written from |
| DiffParser.ParseHunk | src/code_review_agent/domain/input/service.py:589-703 | the loop over body lines computes the hunk the theorems are about, errors included |
| DiffParser.ParseFile | src/code_review_agent/domain/input/service.py:322-587 | the loop over a file's lines, with hunks, marker pairs and no-newline markers |
| DiffParser.CutSections | src/code_review_agent/domain/input/service.py:293-301 | the text is divided before every line that opens a file |
| DiffParser.Parse | src/code_review_agent/domain/input/service.py:287-320 | the whole parse, with its limits in the program's order |
| DiffErrors.TooManyChangedIff | src/code_review_agent/domain/input/service.py:287-320 | a diff accepted under a larger limit is refused under a smaller one for its changed lines exactly if it has more of them |
| DiffErrors.TooLargeIff | src/code_review_agent/domain/input/service.py:287-320 | a text is refused for its physical lines, or for its files, exactly if it has more than the limit |
| DiffErrors.IncompleteRunsOut | src/code_review_agent/domain/input/service.py:589-703 | a hunk is refused as incomplete only if the lines run out before its counts are met |
| Planner.BoxedPartitions | src/code_review_agent/domain/planning/planner.py:364-380 | boxing keeps all hunks in order in non-empty groups, each a single hunk or fitting |
| Planner.BoxingIsMinimal | src/code_review_agent/domain/planning/planner.py:364-380 | no partition into groups that are single hunks or fit has fewer groups |
| Planner.BoxHunks | src/code_review_agent/domain/planning/planner.py:364-380 | the loop computes this boxing |
| Planner.LineBlocks | src/code_review_agent/domain/planning/planner.py:383-409 | the descending search ends at chunks of min(n, floor((C-257)/5), 2M+1) lines, and at none exactly if there are no lines or C is below 262 |
| Planner.ChunksFit | src/code_review_agent/domain/planning/planner.py:350-409 | all chunks of a size fit exactly if the smaller of size and number of lines is within the limit |
| Planner.ChunksDivide | src/code_review_agent/domain/planning/planner.py:398-403 | chunks are the lines in order, full but for the last |
| PlanShapes.FitsIff | src/code_review_agent/domain/planning/planner.py:341-361 | hunks fit exactly if their bytes are below 4(C-256) and their lines at most 2M+1 |
| PlanShapes.BytesAreWritten | src/code_review_agent/domain/planning/planner.py:341-347 | the bytes of lines with faithful references are the length of their contents |
| PlanShapes.BoxingIsGreedy | src/code_review_agent/domain/planning/planner.py:364-380 | a group is closed only when the next hunk would not fit in it |
| PlanShapes.BlocksAre | src/code_review_agent/domain/planning/planner.py:383-409 | when there are blocks, and how long they are |
| ReviewPlanTheorems.FilePlanCovers | src/code_review_agent/domain/planning/planner.py:123-277 | planning a file of valid non-empty hunks succeeds; its units in rank order are exactly the lines of its reviewable hunks, each unit's estimate fits, and units cover the planned scopes one to one |
| ReviewPlanTheorems.ScopesAccountForHunks | src/code_review_agent/domain/planning/planner.py:162-214 | no hunk is forgotten: the scopes of a text file are planned, but for one unreviewable scope for each hunk that cannot be reviewed, in order |
| ReviewPlanTheorems.PlanAcceptedIff | src/code_review_agent/domain/planning/models.py:317-359 | a plan is refused exactly if some hunk must be cut and two of its blocks have the same line contents |
| ReviewPlanTheorems.FileIdsDiffer | src/code_review_agent/domain/planning/planner.py:412-537 | the scope ids of one file are distinct exactly under that condition |
| ReviewPlanTheorems.FilePlanFailsIff | src/code_review_agent/domain/planning/models.py:94-113 | planning raises exactly if the whole file, or one of its groups, would be empty hunks alone |
| ReviewPlanTheorems.NonEmptyHunksPlan | src/code_review_agent/domain/planning/planner.py:123-214 | planning a file never raises when all its hunks have lines |
| ReviewPlanTheorems.EmptyHunksFail | src/code_review_agent/domain/planning/models.py:94-113 | planning a file with hunks always raises when none of them has lines |
| ReviewPlanTheorems.EqualBlocksRefused | src/code_review_agent/domain/planning/planner.py:510-537 | every plan of a file whose hunk is two equal lines of 12 characters is refused at a context of 262 tokens |
| PlanShapes.FileUnitsAreShaped | src/code_review_agent/domain/planning/planner.py:123-277 | what each unit of a file holds by its kind, its estimate, its file, and its rank counted on from the start |
| PlanShapes.FilePlanKinds | src/code_review_agent/domain/planning/planner.py:123-162 | binary files are one unreviewable scope, files without hunks need no review, and a file is one unit exactly if all of it fits |
| PlanShapes.FilesAreOrdered | src/code_review_agent/domain/planning/planner.py:327-338 | the files are planned in the order of their keys, each once |
| PlanShapes.FilesInTurn | src/code_review_agent/domain/planning/planner.py:94-107 | the units of the plan are those of each file in turn, each file's together |
| PlanShapes.UnitsStandByFile | src/code_review_agent/domain/planning/planner.py:94-107 | units have their place in the plan as rank and stand in the order of their files |
| DiffPipeline.TwinDiffRefused | src/code_review_agent/domain/planning/planner.py:510-537 | a text that the parser accepts and whose plan is refused so |
| ReviewPlan.PlanFile | src/code_review_agent/domain/planning/planner.py:123-214 | the branches of planning one file, with ranks counted on |
| ReviewPlan.PlanGroup | src/code_review_agent/domain/planning/planner.py:162-212 | one group becomes a unit, blocks, or an unreviewable scope |
| ReviewPlan.MakePlan | src/code_review_agent/domain/planning/planner.py:76-121 | the plan over all files in plan order, refused unless the frozen plan's checks pass |
| DiffPipeline.PipelineRebuilds | src/code_review_agent/bootstrap.py:430-456 | for every parsed file of non-empty hunks all unit texts can be rebuilt; put together in rank order they are exactly the prefixed lines of the reviewable hunks; no line is in two units or twice in one |
| DiffPipeline.UnitsShowWhatWasWritten | src/code_review_agent/bootstrap.py:430-456 | end to end: with a context of 262 tokens or more the unit texts of a file, in rank order, are exactly the body lines of its hunks as they were written, no-newline markers left out |
| DiffPipeline.PlanRebuilds | src/code_review_agent/bootstrap.py:430-456 | planning a parsed diff of non-empty hunks raises on no range, and every unit text of its plan can be rebuilt |
| DiffPipeline.AllReviewableFrom262 | src/code_review_agent/domain/planning/planner.py:383-409 | from a context of 262 tokens on no hunk is left out |
| DiffPipeline.ParsedPlanAcceptedIff | src/code_review_agent/domain/planning/planner.py:76-121 | any parsed diff of non-empty hunks is planned exactly unless blocks of some hunk that must be cut have the same contents |
| DiffPipeline.WorkUnitDiff | src/code_review_agent/bootstrap.py:430-456 | succeeds exactly if there are references, each cuts a prefixed line with its digest, and none overlaps the one before it; the text is then these lines, with their prefixes, in the order of their starts, each ended by a newline |
| Sorting.SortOrders | src/code_review_agent/bootstrap.py:436-436 | sorting orders by key |
| Sorting.OrderedStays | src/code_review_agent/application/orchestration.py:142-142 | what is in order is left as it is, ties included |
| Redaction.MergedIsMerge | src/code_review_agent/domain/security/service.py:239-254 | merged ranges are strictly separated, have the same union, and the category of the first best-priority range inside them; every range lies in one |
| Redaction.SplicedIsMasked | src/code_review_agent/domain/security/service.py:255-265 | character by character, exactly the covered places are replaced, each run of them by one placeholder that names its category and its number |
| Redaction.RedactionIsMask | src/code_review_agent/domain/security/service.py:214-265 | both together: the output is the content with exactly the collected places masked, each run with the category of its merged range and its number, counted from 1 |
| Redaction.PlaceholderReads | src/code_review_agent/domain/security/service.py:255-260 | category and number are read back from a placeholder; it begins with `<REDACTED:` and ends with `>` |
| Redaction.PlaceholdersDiffer | src/code_review_agent/domain/security/service.py:255-260 | placeholders of different categories or numbers are different texts |
| Redaction.SearchIsGreedy | src/code_review_agent/domain/security/service.py:226-237 | the search finds an occurrence exactly if no other that it found overlaps it from the left |
| Redaction.CollectedAre | src/code_review_agent/domain/security/service.py:221-237 | a range is collected exactly if some finding's text is found there, outside all protected spans, with that finding's category |
| Redaction.NamesAreAlphabetical | src/code_review_agent/domain/security/service.py:238-240 | categories are ordered as their names are |
| Redaction.PrioritiesAre | src/code_review_agent/domain/security/service.py:25-34 | which categories take precedence over which |
| Redaction.RedactionUnique | src/code_review_agent/domain/security/service.py:238-240 | there is one possible result, whatever order the ranges were collected in |
| Redaction.OccurrenceCollected | src/code_review_agent/domain/security/service.py:221-237 | every unprotected occurrence of a found text that cannot overlap itself is collected |
| Redaction.AlwaysRedactedIff | src/code_review_agent/domain/security/service.py:221-237 | all occurrences of a text are redacted in every content exactly if the text has no border |
| Redaction.BorderedIsMissed | src/code_review_agent/domain/security/service.py:226-237 | for every bordered text, a content in which an occurrence is not redacted, even when it is the one the scanner reported |
| Redaction.Redact | src/code_review_agent/domain/security/service.py:214-265 | the loops compute the redaction of what is collected: the output is the pieces between the merged ranges, unchanged, with one text between each two, and the k-th of these reads back as the category of the k-th merged range and the number k; the categories are those of the merged ranges |
| Redaction.CollectFinding | src/code_review_agent/domain/security/service.py:221-237 | the search loop collects the unprotected occurrences it meets |
| Redaction.SortRanges | src/code_review_agent/domain/security/service.py:238-240 | the one sorted listing of the collected ranges |
| DelimiterScan.ScanIsTheNormalForm | src/code_review_agent/adapters/tools/runtime.py:619-647 | the scan finds unmatched closings and openings exactly if they are the word's normal form: closings before openings, with balanced words before, between and behind them |
| DelimiterScan.NothingUnmatchedIff | src/code_review_agent/adapters/tools/runtime.py:619-647 | nothing is unmatched exactly in the words of the grammar of balanced delimiters |
| DelimiterScan.UnmatchedCounts | src/code_review_agent/adapters/tools/runtime.py:619-647 | there are as many unmatched closings as the largest excess of closings in any prefix, and openings make up the difference |
| DelimiterScan.UnmatchedInOrder | src/code_review_agent/adapters/tools/runtime.py:619-647 | unmatched closings stand before unmatched openings, in text order |
| DelimiterScan.ReportsNothingIff | src/code_review_agent/adapters/tools/runtime.py:619-647 | the tool reports nothing exactly if the text's delimiters are balanced |
| DelimiterScan.ReportsInOrder | src/code_review_agent/adapters/tools/runtime.py:406-409 | reports come in the order of their lines and columns |
| DelimiterScan.TokensAre | src/code_review_agent/adapters/tools/runtime.py:629-645 | the delimiters scanned are those met going left to right, each the first behind the one before it |
| DelimiterScan.ReportsAre | src/code_review_agent/adapters/tools/runtime.py:619-647 | there is one report for each unmatched delimiter, closings first, each at the line and column of its offset; a closing carries the step it was met at, an opening the last step |
| DelimiterScan.StepsAre | src/code_review_agent/adapters/tools/runtime.py:625-646 | the scan takes one step for each character, a delimiter counting as one, and each delimiter is met at the step of its place |
| DelimiterScan.PositionIs | src/code_review_agent/adapters/tools/runtime.py:406-409 | the line is one more than the newlines before the offset, and the column counts from the last of them |
| DelimiterScan.BalancedDelimiter | src/code_review_agent/adapters/tools/runtime.py:619-647 | the scan loop reports the unmatched delimiters with line, column and steps exactly if the shared budget allows its steps, its time and its reports, and else fails by a limit they exceed |
| DelimiterScan.ExecutionBudget.Step | src/code_review_agent/adapters/tools/runtime.py:63-68 | one more step, with the first limit it exceeds |
| DelimiterScan.ExecutionBudget.AddMatch | src/code_review_agent/adapters/tools/runtime.py:70-76 | one more report, with the first limit it exceeds |

## Left out

- PublicationTheorems.PostedAtMostOnce: requires that create requests take effect within the lease they were sent under; the remote's own timing is not modelled further.
- PublicationVerdicts.RejectedIsNeverPosted: an error of the scanner is taken for a rejection, as the code takes it; what the visible text of a comment holds is not modelled.
- PublicationTheorems.TablesMoveForward: is about runs without `cleanup`, which deletes leases, tokens and items.
- OrchestrationReruns.SavedUnitsNeverRunAgain: is about runs in which no checkpoint is purged while a run is in progress; `RunsAgainIff` says what holds after one in which some are.
- DiffPipeline.PipelineRebuilds: requires non-empty hunks; `FilePlanFailsIff` and its corollaries say what happens to empty ones.
- DelimiterScan.BalancedDelimiter: the soft deadline is the number of steps the clock lets pass, and the evidence made of the reports is not modelled.
- Redaction.Redact: the protected path ranges of a diff and the scanner's findings are parameters.
- DiffParser.ParseFile: the checks on header lines (paths, modes, renames, similarity, index lines) are one function of those lines and of where the hunks stand among them, so header rejections come after, not between, the hunks' own.
- DiffParser.Parse: takes the header checks as that function.
- DiffText.HeaderOfRendered: digits are the ten ASCII ones.
- ReviewPlan.MakePlan: the sort key of a file, its paths, kind and id, is its place among all keys; tool selection and the plan's digests are not modelled.
- DiffPipeline.WorkUnitDiff: the check that references are to the change set's own artifact is not modelled.
- Planner.LineBlocks: blocks are judged, as in the code, by 20 bytes a line; nothing is claimed about their real size.
- CheckpointCodec.RoundTripsIff: mapping keys are strings, values of derived fields are recomputed, errors of decoding are not told apart, and a dataclass called with one positional value, which only an ambiguous mapping can lead to, is taken to fail.
- Orchestration.RunReview: of normalization, planning, consolidation, snapshot, report and delivery only that they return or raise; a run without a checkpoint store and the confirmation before retrying unknown units are not modelled.
- ModelCallRecovery.ExecuteModelCall: the tools, the egress check and the parsing of responses around a model call are not modelled.
- Budget: restoring and persisting accounts, several tasks in one store and the lookup of an account by its task.
- Task and trace services, which the runtime does not use; trace events and their artifacts.
- SQLite connections and migrations, JSON bytes, file delivery, configuration, the command line and all provider and publisher traffic; clocks and answers are parameters or events.
- Committing and resolving sanitized artifacts: a map from ids to payloads with equality checks.
