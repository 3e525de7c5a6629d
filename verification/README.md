# Verification of the vacancy funnel

The backend finds vacancies on HH, scores them, drafts letters, lets the user approve the exact text of a
letter, and sends approved letters in batches. Many requests work on the same rows at the same time, each with
single guarded database statements and no transactions. This project models that machinery, and the text
scanners and feed algorithms around it, and proves what the code keeps.

- **The funnel** (`Tables`, `Enrichment`, `SendQueue`, `CoverLetters`, `VacancyReview`, `ScoringClaims`,
  `PersistentSender`, `BatchControl`, `Funnel`). One user's tables; every database read and every conditional
  update of the services is one atomic step; a request is a program counter with what it has read. A `Run` is
  any sequence of starts and steps of any number of requests, and any statement may end well, be cancelled or
  raise, with or without having taken effect. `Funnel.RunIsOk` is the invariant of every reachable state; each
  service proves its own steps against the statements in `Tables`, and what one request relies on is shown to
  survive every step of the others (`Funnel.ProcOkStays`).
- **What follows for every run**: the send protocol (`SendSafety`, `SendCounts`, `ApprovalRace`), batches
  (`SendBatches`), scoring leases (`Leases`), the lifecycle (`Lifecycle`), one row per vacancy (`OneRow`), and that
  what a request does is what it was asked and answered (`Intents`).
- **What each call comes to** when no one else touches its row, its job or the sender's control while it runs, while
  the others do what they like elsewhere (`Interleaving`): the tables afterwards in terms of the tables before and of
  what HH, the rules, the model and the user said, and success exactly if it was possible (`SendOutcomes`,
  `QueueOutcomes`, `EnrichOutcomes`, `ScoreOutcomes`, `DraftOutcomes`, `ReviewOutcomes`, `ControlOutcomes`).
- **The bodies as they are written** (`Bodies`, `QueueBodies`, `SenderBodies`, `LetterBodies`, `ReviewBodies`,
  `ScoringBodies`, `ControlBodies`): the service calls, statement after statement on a database that others may
  have changed at every `await`, with their rollbacks, handlers and `finally`, proved to play exactly the steps of
  the state machine; in the scorer, the sender, the draft writers, the enrichment and the refresh any statement may
  be cancelled or raise. `BodiesInRuns` places every one of them in the runs: whatever others do in between, the run
  leaves the request where its body ends and the database as its body left it, so the theorems about runs speak of
  the bodies. Parts of a call are placed with the call: a new batch with resume, the completion with the release.
- **Scanners**: `PageJson`, `PageState` (JSON inside page text), `VacancyPage` (one HTML subtree), `RandText`
  (nested choice templates).
- **Feeds and loops**: `SourceDiscovery` (incremental scan), `VacancyProducer` (round-robin merge), `ScoreRun`
  (circuit breaker), `RecruiterPoll` (chat cursor).

Assumptions: SHA-256 is injective (a hash is modelled as the text it was made of); uuids are fresh (a claim
token, batch id or row id is the id of the request that makes it); one SQL statement is atomic; there is one
queue row per pipeline row (UNIQUE in infra/supabase/migrations/038_send_queue.sql), so a job goes by its
pipeline id; rows are never deleted. The history fields of `Tables.Db` (approvals, queuings, claims, checks,
submissions, leases, batched, completed) only record what the steps did; no step reads them. What HH and the
language model answer, which row a query finds, whether a lease can be had, and how a statement ends are inputs
of the run.

Seven places where the code does not do what one may expect of it, each with the exact condition and with inputs
that meet it:

- an edit during an approval leaves a row approved under the hash of another text: `ApprovalRace.ApprovalMatchesDraftIff`,
  `MismatchIsReachable`;
- a scorer's token stays on the row when its claim is cancelled, or when its release in `finally` raises, which is only
  logged: `Leases.DroppedClaimLeaksIff`, `LeakIsReachable`, `FailedReleaseLeaksIff`, `UnreleasedIsReachable`;
- a void HTML element with the description marker makes the parser collect more than the description:
  `VacancyPage.CollectsTheTargetsIff`, `VoidTargetCollectsMore`;
- after a filter ran dry a turn can be skipped, where the comment at backend/app/services/vacancy_producer.py:258 says
  otherwise: `VacancyProducer.ShiftedIsNextIff`, `TurnIsSkipped`;
- a blank before its colon, or an earlier name with an escaped quote, hides the first member of a name:
  `PageState.FindsFirstNamed`, `BlankBeforeColonIsSkipped`, `EscapedQuoteAnswers`;
- braces are left of a template group whose only alternative can become empty: `RandText.OutputsAreTheExpansionsIff`,
  `BlankPairIsLeft`;
- a scan that handled everything new warns all the same: `SourceDiscovery.FalseWarningIff`, `WarnsAtThePageLimit`,
  `WarnsAtTheEndOfTheFeed`.

## Model

| member | source | states |
|---|---|---|
| Funnel.RunIsOk | backend/app/services/persistent_sender.py:58-192 | in every reachable state of any number of interleaved requests the table invariant holds and every request's snapshots are still worth what they were |
| Funnel.ProcKeeps | backend/app/services/pipeline_scoring.py:349-492 | every statement of every request keeps the invariant and leaves the request where its snapshots are worth what they were, also when it is cancelled or raises, with or without having taken effect |
| Funnel.ProcOkStays | backend/app/services/send_queue_service.py:39-246 | no step of another request can invalidate what a request relies on between its reads and writes |
| SendSafety.SubmittedWasApproved | backend/app/services/persistent_sender.py:101-175 | over every run, each submitted letter is the one its claim took from the queue; exactly this text was approved on this row before; and it was the row's stripped draft, with matching hash, resume, vacancy and status, when the sender read the row |
| SendSafety.ApprovalHappened | backend/app/services/send_queue_service.py:53-69 | every approval on record was made by an `approve_letter` request that had itself read exactly this text as the draft of the row in letter_draft |
| SendSafety.CheckHappened | backend/app/services/persistent_sender.py:128-133 | every accepted snapshot is the row as it stood at the sender's read, after the approval of the letter it carries |
| SendSafety.QueuedLetterWasTheRows | backend/app/services/send_queue_service.py:73-131 | over every run, each queued letter was written by a `queue_approved` request that had itself read the row as approved, with this resume, this vacancy, this text as its stripped draft and its hash |
| SendSafety.JobIsForItsVacancy | backend/app/services/send_queue_service.py:99-128 | every job in the queue is for the vacancy of its row |
| SendCounts.SubmitsNeverExceedQueuings | backend/app/services/persistent_sender.py:58-72 | over every run, submits of a row are at most its claims, and these at most the times `queue_approved` queued it |
| SendCounts.CountsAreHistory | backend/app/services/send_queue_service.py:116-131 | the histories hold exactly the queue, claim and submit events of the run |
| PersistentSender.ClaimIsCurrent | backend/app/services/persistent_sender.py:117-126 | a successful claim takes the very letter that was read before it, whatever happened in between |
| SendBatches.BatchPinsLetter | backend/app/services/send_queue_service.py:99-128 | as long as a job carries a batch id, in any two states of a run, its text, hash, resume and vacancy are the same |
| SendBatches.BatchNeverGains | backend/app/services/send_runtime_control.py:171-180 | once its jobs are assigned, a batch never gains a queued or unfinished job |
| SendBatches.LeftNeverRises | backend/app/services/send_runtime_control.py:154-190 | twice the queued plus the sending jobs of an assigned batch never rises over a run |
| SendBatches.ClaimMakesProgress | backend/app/services/persistent_sender.py:58-72 | every successful claim lowers that measure |
| SendBatches.FinishMakesProgress | backend/app/services/persistent_sender.py:75-81 | every finish of a job that is being sent lowers that measure |
| SendBatches.ClaimsNeverExceedTotal | backend/app/services/send_runtime_control.py:180-190 | claims made in a batch plus jobs still queued in it never exceed the jobs assigned, which is total_jobs once stored |
| SendBatches.CompletedStaysDone | backend/app/services/send_runtime_control.py:284-300 | although read and write are apart, a batch marked completed has no queued or sending job, then or later |
| SendBatches.ProgressIsPartition | backend/app/services/send_runtime_control.py:90-107 | queued, sending and processed add up to total_jobs less the jobs queued anew since, so to total_jobs exactly as long as there are none |
| ApprovalRace.ApprovalMatchesDraftIff | backend/app/services/send_queue_service.py:53-69 | an approval leaves hash and draft in agreement exactly if the draft is still the text that was read |
| ApprovalRace.MismatchIsReachable | backend/app/services/send_queue_service.py:53-69 | a reachable state in which a row is approved under the hash of another text |
| ApprovalRace.MatchIsKept | backend/app/services/pipeline_cover_letters.py:252-331 | agreement, or its lack, lasts as long as the row is neither selected nor in letter_draft |
| Lifecycle.RunMoves | backend/app/services/vacancy_pipeline.py:131-170 | every status change in any run is one the lifecycle table (`MayMove`) grants to the kind of request that makes it, which says who may move a row from which status to which |
| Lifecycle.ProtectedStatusStays | backend/app/services/pipeline_maintenance.py:22-56 | discovery, scoring, reaping, requeues, archiving and enrichment leave user-decided and send statuses alone, but for the archive of a vacancy gone on HH, which only an enrichment makes, from the status it read and never from sent |
| Lifecycle.SentIsFinal | backend/app/services/vacancy_review_service.py:278-285 | no step of any request leaves status sent |
| Lifecycle.SettledLetterIsFrozen | backend/app/services/pipeline_cover_letters.py:240-261 | draft and approved hash cannot change while the row is neither selected nor in letter_draft, so not while it is queued to send |
| OneRow.VacancyHasOneRow | backend/app/services/vacancy_pipeline.py:63-128 | over every run two rows are of different vacancies, although discovery and enrichment look a row up before they insert it |
| Intents.RequestKeepsToItsPlan | backend/app/services/persistent_sender.py:135-192 | in every state of every run a request stands where its start and the answers it got have led it |
| Intents.SenderMarksWhatCameOfIt | backend/app/services/persistent_sender.py:135-192 | over every run, a sender marks a job or row sent only if HH has the letter, failed or send_error after its own submission only if HH did not take it, archived only if the vacancy is gone, manual only if there is a test |
| Intents.ScorerFollowsItsVerdict | backend/app/services/pipeline_scoring.py:369-456 | over every run, a scorer moves only its own row, to rejected_by_rule only if the rules reject the vacancy, to scored only if they do not and the model scores it, to archived only if HH shows it gone |
| Intents.DecisionIsCarriedOut | backend/app/services/vacancy_review_service.py:210-253 | over every run, a user decision moves its own row only, and where the action says |
| Intents.DraftIsWhatWasAsked | backend/app/services/pipeline_cover_letters.py:179-331 | over every run, a draft becomes only what the user typed or the model wrote for this row, stripped and of the length allowed |
| Intents.DesiredIsAskedFor | backend/app/services/send_runtime_control.py:193-248 | over every run, the desired state becomes running only by a resume, stop-after-current only by a stop, paused only by a pause, a stop or the end of a cycle |
| SendOutcomes.CycleSettlesTheJob | backend/app/services/persistent_sender.py:101-192 | left alone with its row and job, a cycle fails a job whose row is no longer as approved; otherwise the answers of HH settle job and row: gone or archived fails and archives, an expired session fails, a response already there or an accepted submit is sent, a test is manual, a refused submit fails; and the letter is submitted exactly if the vacancy is open, unanswered and without a test |
| SendOutcomes.AnswersSettleTheJob | backend/app/services/persistent_sender.py:135-192 | the same from the question to HH on |
| SendOutcomes.InterruptedCycleReleases | backend/app/services/persistent_sender.py:224-238 | whatever is cancelled or raises between the lease and its release, the release comes next |
| QueueOutcomes.ApproveOutcome | backend/app/services/send_queue_service.py:39-70 | left alone, an approval succeeds exactly if the row is in letter_draft with a text or approved already with the hash of its text, and leaves the row approved under the hash of its stripped draft |
| QueueOutcomes.QueueOutcome | backend/app/services/send_queue_service.py:73-147 | left alone, queueing succeeds exactly on an approved row with matching hash, a resume and no live job, or one queued already; the job is queued in no batch with the row's resume, vacancy, hash and text, and the row in queued_to_send |
| QueueOutcomes.QueueRollsBack | backend/app/services/send_queue_service.py:132-147 | if the row has left approved when it is to be moved, the job is cancelled and the call fails |
| QueueOutcomes.CancelOutcome | backend/app/services/send_queue_service.py:150-182 | left alone, cancelling succeeds exactly on a queued job of a queued row, and leaves them cancelled and approved |
| QueueOutcomes.ResetOutcome | backend/app/services/send_queue_service.py:185-246 | left alone, a reset succeeds exactly on a failed or manual job whose letter is the approved text of a row in send_error, or one reset already, and leaves them cancelled and approved |
| QueueOutcomes.ResetRollsBack | backend/app/services/send_queue_service.py:226-246 | if the row has left send_error when it is to be moved, a job still cancelled gets its status back |
| EnrichOutcomes.EnrichOutcome | backend/app/services/vacancy_review_service.py:256-305 | left alone, an enrichment by any caller archives a row that HH shows gone unless it was sent, stores the description if there is one, and ends as the page says |
| ScoreOutcomes.ScoreOutcome | backend/app/services/pipeline_scoring.py:349-492 | left alone, a scorer leaves a discovered row scored, rejected_by_rule or score_error by the verdict; on a transient page discovered exactly before the third attempt, else score_error; on a page that is gone archived; under no token; and any other row as it was |
| ScoreOutcomes.CancelledScorerReleases | backend/app/services/pipeline_scoring.py:458-492 | a scorer cancelled in the enrichment or the write gives the row back to be scored, if it still holds it |
| ScoreOutcomes.RaisingScorerMarksAnError | backend/app/services/pipeline_scoring.py:475-492 | a scorer whose enrichment or write raises marks the row as an error, if it still holds it |
| ScoreOutcomes.FailingHandlerReleases | backend/app/services/pipeline_scoring.py:480-492 | when a handler fails, too, the release in `finally` gives the row back, if the scorer still holds it |
| ScoreOutcomes.ReapOutcome | infra/supabase/migrations/044_scoring_leases_auto_reject_rule_lifecycle.sql:42-92 | an expired lease sends the row back to discovered, with two failures before it to score_error, and counts |
| ScoreOutcomes.RequeueOutcome | backend/app/services/pipeline_maintenance.py:22-56 | a requeue sends scored, reviewed, failed and rejected rows back to discovered, and no others |
| ScoreOutcomes.ArchiveOutcome | backend/app/services/pipeline_maintenance.py:245-281 | bulk archiving takes the rows that no one has decided on, and no others |
| ScoreOutcomes.MarkOutcome | backend/app/services/pipeline_scoring.py:519-536 | without a candidate context a discovered row is marked score_error, and no other |
| DraftOutcomes.SaveOutcome | backend/app/services/pipeline_cover_letters.py:280-331 | left alone, an edit is taken, stripped and without approval, exactly if it is not blank, at most 6000 long, and the letter is a draft or approved without a live job |
| DraftOutcomes.GenerateOutcome | backend/app/services/pipeline_cover_letters.py:179-262 | left alone, a generated letter is stored exactly if the row is selected or in letter_draft, has a description or gets one, a resume (its own before the newest) and a letter of 1400 to 3500 characters |
| ReviewOutcomes.DecideOutcome | backend/app/services/vacancy_review_service.py:210-253 | left alone, a decision is carried out exactly if the row is open to it, a rejection only with a reason |
| ReviewOutcomes.UserEnrichOutcome | backend/app/services/vacancy_review_service.py:256-305 | an enrichment asked for by the user succeeds exactly if HH shows the vacancy gone or its description |
| ReviewOutcomes.RefreshOutcome | backend/app/services/vacancy_pipeline.py:63-128 | a vacancy with a row keeps it, with the resume if it had none and the description if there is one |
| ReviewOutcomes.InsertOutcome | backend/app/services/vacancy_pipeline.py:63-128 | a vacancy without a row gets one, discovered and undecided |
| ControlOutcomes.ResumeOutcome | backend/app/services/send_runtime_control.py:154-248 | left alone, a resume succeeds exactly if the active batch is open or a job is waiting; the sender is then to run on the open batch, or on a new one of exactly the waiting jobs, with their number as its total |
| ControlOutcomes.PauseOutcome | backend/app/services/send_runtime_control.py:216-221 | left alone, a pause leaves the sender and an open batch paused |
| ControlOutcomes.StopOutcome | backend/app/services/send_runtime_control.py:222-233 | left alone, a stop waits exactly if a job of the active batch is being sent, and otherwise is a pause |
| ControlOutcomes.AcquireOutcome | backend/app/services/send_runtime_control.py:272-280 | a sender asks for a job exactly if it is to run, on a batch, and gets the lease |
| ControlOutcomes.ResumedSenderTakesAJob | backend/app/services/persistent_sender.py:101-126 | a sender that starts after a resume with a new batch and is not refused takes on one of the jobs that were waiting |
| ControlOutcomes.ReleaseOutcome | backend/app/services/send_runtime_control.py:284-317 | left alone, the end of a cycle takes a stop, pauses the batch of a paused sender, completes a finished batch and lets go of it |
| Leases.TokensAreApart | backend/app/services/vacancy_pipeline.py:154-193 | in every reachable state a row carries a token exactly in scoring, it is the one its claimer made for it, and no other row carries it |
| Leases.WriteNeedsUnbrokenClaim | backend/app/services/vacancy_pipeline.py:160-214 | a token-guarded write takes effect only if the row was in scoring under this token in every state since the claim |
| Leases.TakesEffectIff | backend/app/services/pipeline_scoring.py:268-346 | the scorer's guarded writes take effect exactly if they reach the database and the row carries its token |
| Leases.TokenWasKept | backend/app/services/vacancy_pipeline.py:173-193 | a token that was given out never comes back to a row |
| Leases.ReleaseAfterWriteIsNoOp | backend/app/services/pipeline_scoring.py:480-492 | after a guarded write that ended well the release in `finally` changes nothing |
| Leases.OnlyTwoExitsLeak | backend/app/services/pipeline_scoring.py:349-492 | a scorer that has ended leaves its token on no row, with two exceptions: its claim, which stands before the `try`, was cancelled or raised, or its last guarded statement was, for `score_one` the release in `finally` |
| Leases.DroppedClaimLeaksIff | backend/app/services/pipeline_scoring.py:358-367 | a claim that is cancelled or raises leaks exactly if it took effect on a discovered row |
| Leases.FailedReleaseLeaksIff | backend/app/services/pipeline_scoring.py:480-492 | a last release that is cancelled or raises leaks exactly if it took no effect and the row still carried the token before it |
| Leases.LeakIsReachable | backend/app/services/pipeline_scoring.py:358-367 | a run that ends with a row in scoring under the token of a scorer that was cancelled during its claim |
| Leases.UnreleasedIsReachable | backend/app/services/pipeline_scoring.py:462-492 | a run that ends so although nothing was cancelled: the error's write raised, and then the release did |
| QueueBodies.ApproveLetter | backend/app/services/send_queue_service.py:39-70 | the body plays the steps of the state machine on whatever database it meets at each statement |
| QueueBodies.QueueApproved | backend/app/services/send_queue_service.py:73-147 | the same for queueing, with its unguarded rollback |
| QueueBodies.CancelQueued | backend/app/services/send_queue_service.py:150-182 | the same for cancelling |
| QueueBodies.ResetFailed | backend/app/services/send_queue_service.py:185-246 | the same for the reset, with its guarded rollback |
| SenderBodies.ProcessLeased | backend/app/services/persistent_sender.py:117-192 | the same for the sender's cycle: claim, snapshot check, HH answers, submit, reconciliation, finish and move; whatever is cancelled or raises leads to the release |
| SenderBodies.ReleaseLeaseAndFinalize | backend/app/services/send_runtime_control.py:303-317 | the same for the end of the cycle, also when the lease has gone to another owner |
| SenderBodies.FinalizeBatchIfDone | backend/app/services/send_runtime_control.py:284-300 | the same for the completion of a batch |
| LetterBodies.SaveDraft | backend/app/services/pipeline_cover_letters.py:280-331 | the same for a user's edit |
| LetterBodies.GenerateDraft | backend/app/services/pipeline_cover_letters.py:179-262 | the same for a generated draft, with the enrichment of a row that has no description |
| ReviewBodies.Decide | backend/app/services/vacancy_review_service.py:210-253 | the same for a user decision |
| ReviewBodies.EnrichRow | backend/app/services/vacancy_review_service.py:256-305 | the same for an enrichment, for any caller's token and from any statement on, each lookup with its own answer |
| ReviewBodies.PersistDiscovered | backend/app/services/vacancy_pipeline.py:63-128 | the same for the refresh or insert of a found vacancy |
| ScoringBodies.ScoreOne | backend/app/services/pipeline_scoring.py:349-492 | the same for a scorer with its handlers and `finally`, when any statement is cancelled or raises: the claim, those of the enrichment, the terminal write, the handlers' writes and releases, and the release in `finally` |
| ControlBodies.CreateBatch | backend/app/services/send_runtime_control.py:154-190 | the same for a new batch, from the list of unbatched jobs to the stored total or the deletion |
| ControlBodies.Resume | backend/app/services/send_runtime_control.py:193-248 | the same for resume, with an active, a completed or no batch; when it succeeds the sender is to run, on the new batch if one was made |
| ControlBodies.Pause | backend/app/services/send_runtime_control.py:216-221 | the same for pause, which leaves the sender paused |
| ControlBodies.StopAfterCurrent | backend/app/services/send_runtime_control.py:222-233 | the same for the stop after the current job, which is waited for exactly if a job of the batch is being sent |
| BodiesInRuns.BodyFollowsRun | backend/app/services/send_queue_service.py:39-246 | with any events of others between its statements, the run leaves the request where its body is and the database as the body left it |
| BodiesInRuns.QueueBodyInRun | backend/app/services/send_queue_service.py:39-246 | so for the calls of the send queue |
| BodiesInRuns.SenderBodyInRun | backend/app/services/persistent_sender.py:117-238 | so for the sender's cycle, up to its release and from there to its end |
| BodiesInRuns.LetterBodyInRun | backend/app/services/pipeline_cover_letters.py:179-331 | so for the draft writers |
| BodiesInRuns.ReviewBodyInRun | backend/app/services/vacancy_review_service.py:210-253 | so for decisions |
| BodiesInRuns.EnrichBodyInRun | backend/app/services/vacancy_review_service.py:256-305 | so for an enrichment |
| BodiesInRuns.PersistBodyInRun | backend/app/services/vacancy_pipeline.py:63-128 | so for the refresh or insert of a found vacancy |
| BodiesInRuns.ScoringBodyInRun | backend/app/services/pipeline_scoring.py:349-492 | so for a scorer |
| BodiesInRuns.ControlBodyInRun | backend/app/services/send_runtime_control.py:193-248 | so for resume with its new batch, pause and stop |
| SendQueue.StepKeeps | backend/app/services/send_queue_service.py:39-246 | every statement of approval, queueing, cancelling and reset keeps the invariant |
| CoverLetters.StepKeeps | backend/app/services/pipeline_cover_letters.py:179-331 | every statement of the two draft writers keeps the invariant |
| VacancyReview.StepKeeps | backend/app/services/vacancy_review_service.py:210-253 | every statement of a user decision keeps the invariant |
| Enrichment.EnrichKeeps | backend/app/services/vacancy_review_service.py:256-305 | every statement of the enrichment keeps the invariant, for scorers, letters and users alike |
| Enrichment.PersistKeeps | backend/app/services/vacancy_pipeline.py:63-128 | every statement of a snapshot refresh or insert keeps the invariant |
| ScoringClaims.StepKeeps | backend/app/services/pipeline_scoring.py:349-492 | every statement of a scorer, the reaper, requeues and archives keeps the invariant |
| ScoringClaims.InterruptedOk | backend/app/services/pipeline_scoring.py:458-492 | where a statement is cancelled or raises, the handlers and `finally` find what they rely on, with or without the statement's effect |
| ScoringClaims.GuardedWriteSettles | backend/app/services/pipeline_scoring.py:268-346 | a guarded write leaves the holder's token on no row, whether it took effect or not |
| ScoringClaims.ThirdExpiryIsError | infra/supabase/migrations/044_scoring_leases_auto_reject_rule_lifecycle.sql:42-92 | from a clean count, the first two expired leases send a row back to be scored and every later one makes it an error |
| PersistentSender.StepKeeps | backend/app/services/persistent_sender.py:117-238 | every statement of the sender's cycle keeps the invariant |
| BatchControl.StepKeeps | backend/app/services/send_runtime_control.py:154-248 | every statement of resume, pause and stop keeps the invariant |
| Tables.StripIsIdempotent | backend/app/services/send_queue_service.py:92-94 | stripping a stripped letter changes nothing |
| Tables.StripCutsTheEnds | backend/app/services/send_queue_service.py:92-94 | what is stripped is whitespace at the two ends, and all of it |
| PageJson.FindBalancedObject | backend/app/hh/page_json.py:8-38 | the loop returns the balanced prefix of the text from the start position, or the error |
| PageJson.ScanEndClosesFirst | backend/app/hh/page_json.py:20-38 | the scan ends at the first place where the depth is back at 0, and nowhere else |
| PageJson.BalancedPrefixIsBalanced | backend/app/hh/page_json.py:8-38 | what is returned is exactly the one prefix that balances |
| PageJson.BalancedPrefixErrors | backend/app/hh/page_json.py:15-38 | the first error exactly if no bracket stands at the start, the second exactly if one does and no prefix balances |
| PageJson.CutsOutThePrintedValue | backend/app/hh/page_json.py:8-38 | for every printed JSON object or array (RFC 8259, sections 2, 4, 5 and 7) and any text behind it, exactly the printed value is returned |
| PageState.FindState | backend/app/hh/page_json.py:41-58 | the method finds the marker, unescaping only when it is absent, skips blanks and cuts out the value |
| PageState.KeyNotFoundIff | backend/app/hh/page_json.py:52-54 | the key is reported missing exactly if its marker stands nowhere in the page |
| PageState.FindsFirstAnswer | backend/app/hh/page_json.py:49-58 | in a page with any printed object or array in it, the whole value of the first member that answers to the marker is handed over; if none does, the marker does not occur in the value |
| PageState.FindsFirstNamed | backend/app/hh/page_json.py:49-58 | the marker is found at the first member of this name in document order exactly if no blank stands before its colon and no earlier member's name ends with an escaped quote and the key, with no blank before its colon; then its value is handed over |
| PageState.QuoteFreePage | backend/app/hh/page_json.py:49-58 | where no member name holds a quote, exactly if no blank stands before its colon |
| PageState.EscapedQuoteAnswers | backend/app/hh/page_json.py:49-58 | a page in which an earlier name with an escaped quote is in the way: another value is handed over |
| PageState.BlankBeforeColonIsSkipped | backend/app/hh/page_json.py:49-58 | a page in which a blank before the colon is in the way: the value of the second member of the name is handed over |
| VacancyPage.DescriptionParser.FeedAll | backend/app/hh/vacancy_page.py:23-57 | the parser object goes through the states of the event function |
| VacancyPage.CollectsTheTargets | backend/app/hh/vacancy_page.py:23-57 | for every well-formed element tree whose targets are no void elements, the parts are exactly the text of the targets and the counter ends at 0 |
| VacancyPage.ClosesWithTheTarget | backend/app/hh/vacancy_page.py:33-53 | the counter falls back to 0 with the target's own end tag and not before |
| VacancyPage.CollectsTheTargetsIff | backend/app/hh/vacancy_page.py:33-53 | with void elements that carry the marker, the result is right exactly if each of them is harmless |
| VacancyPage.UnclosedTagIsHarmlessIff | backend/app/hh/vacancy_page.py:20-53 | inside a description a tag without an end tag keeps the parser in step exactly if its element is one of the void elements of HTML |
| VacancyPage.TagBreaksLinesIff | backend/app/hh/vacancy_page.py:19-53 | a tag leaves a line break exactly if its element is one of the block elements listed |
| VacancyPage.VoidTargetCollectsMore | backend/app/hh/vacancy_page.py:33-53 | a page in which text outside any target is collected |
| RandText.RandText | backend/app/services/cover_letter.py:37-47 | the loop ends, its result is a text that a pass leaves alone, and no innermost nonempty group is left |
| RandText.PassShrinks | backend/app/services/cover_letter.py:39-46 | a pass that finds a group removes at least one pair of braces, another changes nothing |
| RandText.OutputsAreExpansions | backend/app/services/cover_letter.py:37-47 | every possible output on a printed template is one of its expansions |
| RandText.ExpansionsAreOutputs | backend/app/services/cover_letter.py:37-47 | every expansion of the template can be returned |
| RandText.OutputsAreTheExpansionsIff | backend/app/services/cover_letter.py:37-47 | outputs and expansions are the same exactly if no group has a single alternative that can become empty |
| RandText.BlankPairIsLeft | backend/app/services/cover_letter.py:37-47 | of a group whose only alternative is the group of an a or nothing, an empty pair of braces can be left, which is none of its texts |
| SourceDiscovery.Source.DiscoverSource | backend/app/services/source_discovery.py:148-277 | pipeline, counters, cursor, warning and error of a run, from the pages it meets, also when a page cannot be fetched or the write of an id breaks off in mid-page; a failed run keeps the head and counts a run and an error, a completed one adds its counters |
| SourceDiscovery.CountersAddUp | backend/app/services/source_discovery.py:180-202 | fetched is persisted plus skipped, persisted is new plus duplicate, and each is what it should count |
| SourceDiscovery.CountedPipeline | backend/app/services/source_discovery.py:190-202 | exactly the handled ids without an application are in the pipeline afterwards, and the new counter is the growth of the pipeline |
| SourceDiscovery.ScanOfFeed | backend/app/services/source_discovery.py:165-208 | on a fixed feed in pages, exactly the ids before the first seen one are handled, as far as the page limit reaches, and overlap is found exactly if the scan stopped by itself |
| SourceDiscovery.FirstRunHandlesThreePages | backend/app/services/source_discovery.py:148-153 | a run without a head handles the first three pages of a feed |
| SourceDiscovery.NoWarningMeansComplete | backend/app/services/source_discovery.py:236-238 | without a warning every id before the first seen one has an application or is in the pipeline |
| SourceDiscovery.FalseWarningIff | backend/app/services/source_discovery.py:206-208 | all ids before the first seen one are handled and there is a warning all the same exactly if that one is the first behind the last page allowed, or if there is none and the feed ends inside that page |
| SourceDiscovery.WarnsAtThePageLimit | backend/app/services/source_discovery.py:206-238 | such a feed of the first kind |
| SourceDiscovery.WarnsAtTheEndOfTheFeed | backend/app/services/source_discovery.py:206-238 | such a feed of the second kind |
| SourceDiscovery.FailuresForgetNothing | backend/app/services/source_discovery.py:115-131 | failed runs keep the head ids and all sums but the runs and the errors |
| SourceDiscovery.RunAfterFailuresHandlesTheNews | backend/app/services/source_discovery.py:148-277 | however many runs fail in between, the next one over the feed with news in front handles exactly the news |
| SourceDiscovery.NextRunHandlesTheNews | backend/app/services/source_discovery.py:148-277 | the next run over the same feed with news in front handles exactly the news |
| VacancyProducer.ProduceJobs | backend/app/services/vacancy_producer.py:242-276 | the loop ends; no vacancy twice; at most 30; under 30 every stream is used up; live filters differ by at most one turn plus one per removal; and while no filter can run dry the jobs are queued in full rounds, one of each filter in order |
| VacancyProducer.UnderBudgetIsUnion | backend/app/services/vacancy_producer.py:252-276 | with no live filter left the queue holds exactly the union of all streams |
| VacancyProducer.ShiftedIsNextIff | backend/app/services/vacancy_producer.py:253-258 | after a removal the next turn goes to the shifted filter exactly if the whole rounds on the cursor are a multiple of the new length |
| VacancyProducer.TurnIsSkipped | backend/app/services/vacancy_producer.py:253-258 | three filters after one round: the second is passed over |
| ScoreRun.ScoreUser | backend/app/services/pipeline_scoring.py:539-576 | which rows are attempted, every counter, and when the breaker opens |
| ScoreRun.CountersSum | backend/app/services/pipeline_scoring.py:544-564 | the outcome counters add up to the rows attempted |
| ScoreRun.AttemptedStops | backend/app/services/pipeline_scoring.py:566-573 | the run stops early exactly at the first two transient outcomes in a row |
| ScoreRun.StopsAfterTwoIff | backend/app/services/pipeline_scoring.py:566-573 | a longer run ends after its second row exactly if both came to a retry or a final transient error |
| ScoreRun.BreakerStopsTheRun | backend/app/services/pipeline_scoring.py:566-573 | all rows are attempted unless the last two were transient, and never three transient ones in a row |
| RecruiterPoll.Negotiation.ProcessChat | backend/app/worker/recruiter_poll.py:174-223 | which message the agent is started on and what becomes of the cursor, also when it raises |
| RecruiterPoll.StartsTheAgentIff | backend/app/worker/recruiter_poll.py:174-223 | a poll starts the agent exactly if the chat is open, its last message is not ours and not handled, and its latest employer message with a text was not handled |
| RecruiterPoll.NothingToAnswer | backend/app/worker/recruiter_poll.py:187-200 | without an employer message that has a text nothing is started or stored |
| RecruiterPoll.RunsMoveForward | backend/app/worker/recruiter_poll.py:187-223 | over any sequence of polls of an append-only chat, after a completed run the agent is started only on strictly later employer messages |
| RecruiterPoll.AnsweredTwiceMeansNotCompleted | backend/app/worker/recruiter_poll.py:131-143 | a message is answered twice only if its first run did not complete |
| RecruiterPoll.FailedRunIsRepeated | backend/app/worker/recruiter_poll.py:131-143 | a failed run leaves the cursor alone and the next poll starts on the same message |
| RecruiterPoll.NewMessageStartsTheAgent | backend/app/worker/recruiter_poll.py:187-200 | a new employer message at the end of an open chat starts the agent on it |

## Left out

- HTTP, browser automation, the Supabase client, the language model and its prompts: their replies are inputs of a run.
- Clocks: expiry of leases, retry delays, the safety interval and the order by `queued_at` are free choices of the run.
- The columns for attempts, times and error texts, and the safety interval: nothing modelled branches on them; the attempts of a transient scoring error are an input of the scorer.
- A statement already handed to a thread when its request is cancelled: it takes effect before the cancellation is handled or not at all.
- QueueBodies, ControlBodies and ReviewBodies.Decide: played with statements that end well; these calls have no handlers, so a statement that is cancelled or raises ends them, which the runs have and the bodies do not.
- Deleting resumes, users or rows: none of the modelled services does, so `resume_id` of a job is never set null.
- The loops of maintenance and rule actions over many rows, the marking of rows without a candidate context, and the reaper have no body of their own: they are steps of the state machine, one request per row. What that leaves out is the loop over rows and its counters.
- That a `sent` job keeps its status: the rollback at backend/app/services/send_queue_service.py:143-145 has no status guard. What is proved is that the row's status `sent` is final.
- The rule matching, prompts, fingerprints and staleness flags of the scorer: its verdict is an input.
- SendBatches.LeftNeverRises: says nothing about when a batch comes to its end, because a sender that stops after its claim leaves the job in sending.
- VacancyProducer.ProduceJobs: takes the candidate streams as given sequences; the paging and filtering inside a stream is not modelled.
- What a call comes to when others touch its own row or job in between is stated for the two rollbacks of the send queue and for a cancelled or raising scorer; for everything else there are the theorems over all runs.
- ScoreOutcomes.ScoreOutcome, EnrichOutcomes.EnrichOutcome: for a page of the row's own vacancy, and a lookup that finds this row; the bodies and the runs are for any page.
- SourceDiscovery.ScanOfFeed: for a feed that does not change during the scan and pages of one size; `DiscoverSource` itself is for any pages.
- RecruiterPoll.RunsMoveForward: for one chat polled by one worker, with its messages fetched from the beginning.
- PageState.FindState: the JSON decoding of the value that is handed over.
- The browser extension, the frontend, authentication, notifications, statistics, the legacy apply loop and the CRUD services.
