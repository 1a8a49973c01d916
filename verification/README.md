# Verification of the study platform's transactional core

Dafny models of the protocols and algorithms that the backend's correctness rests on, and proofs of
what they keep.  Every database transaction and every Redis script is one step on in-memory tables;
any number of workers may interleave between steps, crash, restart or run twice, and any external
call may fail.  Where a promise of the code holds only under a condition, the condition is stated and
proved in both directions, and a run from the initial state shows the other side.

| module | what it models |
|---|---|
| `UsageQuota` | the daily quota across a Redis counter and a PostgreSQL ledger |
| `JobQueue`, `FailRace` | the durable job queue and one worker's pass over a job; the queue with fail_job's read and write as separate steps |
| `CorpusLifecycle`, `CorpusRepository`, `CorpusRuns` | corpus versions from building to superseded, approvals, drafts, chapter promotion and deletion: the protocol, the transactions that implement it, and runs from the empty store |
| `CorpusProvenance`, `ConfirmRace` | which text each stored vector was made from; a confirmation as its separate statements |
| `PaperExtraction` | validating, charging, extracting and refunding a paper |
| `AnswerTables`, `AnswerInvariants`, `AnswerGuarantees`, `AnswerRuns` | the tables behind answering a paper, with the writers of its job row; what every step keeps; what every run gives; runs from a fresh paper |
| `AnswerService`, `AnswerQueue`, `AnswerChain` | the answer runs, statement by statement among the steps of others; their chain on the job queue; how the chain ends |
| `McqResults` | validation of the response that answers all MCQs of a paper |
| `PolicyCache` | the usage-policy cache under interleaving readers and updates |
| `PromptCache` | prompt versions and their generation-keyed cache |
| `Fusion` | reciprocal-rank fusion and the evidence rule |
| `LexicalMatch` | the approved-bank lexical matcher |
| `PaperSplitter`, `PaperReader` | splitting a printed paper into grouped questions |
| `SourceText`, `Text` | layout normalization, and the string methods it uses |
| `Sequences`, `Decimal`, `Wrappers` | filtering and mapping rows; numerals in keys; the two result types |

`dafny verify dfyconfig.toml` checks everything.  A state-changing method is proved equal to a step
function over its old state; the theorems over whole runs are lemmas about that function.

What the proofs say where the code and its documentation or intent part ways:

- The compensating refund of a reservation can remove a Redis key that another live reservation of the
  same request relies on, and a refund can be rolled back after its script ran;
  `UsageQuota.StepStrandsExactly` gives the exact branches.  The row lock around the batch reservation
  rules out the first two; the rolled-back refund it does not (`UsageQuota.OrderlyRunsStayCovered`).
- `fail_job` reads and then writes: with another worker in between it can revive a succeeded job
  (`JobQueue.StaleFailExactly`, `FailRace.RunFineExactly`).
- A paper's status can be set past its answering: a slow validation worker charges or rejects a paper
  that is being answered or has ended, and the failure of a job refunds one that is being answered
  (`AnswerGuarantees.RunStatusExactly`).  Requests, answers and settled items survive.
- A paper can be left in answering for good, without a job to go on and with its open items never
  settled: exactly when the stale recovery fails a job of its chain, which settles no item, or a worker
  stops between failing the job and marking the queue failure (`AnswerChain.LeftInAnsweringExactly`; `AnswerChain.PaperIsLeft` is a run).
- An item's reported source, and its request's stamp, are those of the worker that settled it, which
  need not be the persisted answer's (`AnswerRuns.RunSourcesExactly`); a paper without any answered or
  failed item ends as failed.
- A validation that charges after a refund, whenever it began, brings a refunded paper back as
  validated and committed (`PaperExtraction.StepKeepsQuotaExactly`).
- An embedding failure mark has no status guard and spoils a live version (`CorpusLifecycle.RunKeepsLiveExactly`);
  a promotion also moves rows with a blank chapter, and removing a chapter takes along rows of other
  chapters filed under its document (`CorpusLifecycle.PromotionSwapsTheChapterExactly`).
- The write of a vector checks the version and not the row's text: a late one gives an edited row the
  vector of its old text, which the report accepts (`CorpusProvenance.RunKeepsFaithfulExactly`).
- A promotion checks again neither the status nor the rows of the version it moves, so an edit after
  the report can make the live version incomplete (`ConfirmRace.RunKeepsLiveExactly`).
- The prompt cache stores under a generation it reads anew, and can then serve a retired prompt
  (`PromptCache.LateStoreExactly`).
- Normalization is documented to preserve page boundaries; it does so exactly when the text has one page
  or shows something on its first and its last (`SourceText.BoundariesStayExactly`, `LeadingBreakIsDropped`).

## Model

| member | source | states |
|---|---|---|
| `UsageQuota.RunConserves` | app/services/usage/service.py:26-386 | in every run, whatever interleaves, crashes or fails, each Redis counter equals the number of its request keys and each daily_usage row the number of its live reservations |
| `UsageQuota.FloorsNeverBite` | app/services/usage/service.py:317-323 | the GREATEST(…, 0) floors and the script's used > 0 test never hide anything: a live row or a held key is always counted |
| `UsageQuota.RunStaysWithinLimit` | app/services/usage/service.py:36-40 | while the policy allows at most a limit, neither store ever exceeds it, in any run |
| `UsageQuota.ChargedOnceRefundedOnce` | app/services/usage/service.py:210-283 | a request is charged at most once and refunded at most once, never refunded uncharged, and live at the end exactly when charged and not refunded |
| `UsageQuota.StepStrandsExactly` | app/services/usage/service.py:284-293 | a step takes the Redis key of a live Redis-backed reservation exactly in three named branches: a reservation committed after its key was removed, a compensation of a request someone else reserved meanwhile, a refund rolled back after its script ran |
| `UsageQuota.RunCoveredExactly` | app/services/usage/service.py:165-293 | a whole run keeps every live Redis-backed reservation's key exactly when none of its steps is one of those branches |
| `UsageQuota.RedisNeverUndercounts` | app/services/usage/service.py:43-52 | while the stores agree, a Redis counter is at least the number of live reservations it backs |
| `UsageQuota.OrderlyRunsStayCovered` | app/services/multiple_ask.py:378-394 | with one call at a time per request (what the row lock gives) and no refund rolled back after its script (which the lock does not prevent), every run from sound stores keeps them in agreement |
| `UsageQuota.DuplicateDeliveryStrands` | app/services/usage/service.py:284-293 | a concrete run: two deliveries of one request leave a live reservation whose Redis key is gone and a counter of zero |
| `UsageQuota.RolledBackRefundStrands` | app/services/usage/service.py:324-343 | a refund whose transaction rolls back after its script ran under-counts in Redis by one |
| `UsageQuota.RolledBackRefundRun` | app/services/usage/service.py:324-343 | a run from the empty stores with such a refund: the reservation is live and its counter is zero |
| `UsageQuota.UsageService.EvalReserve` | app/services/usage/service.py:26-41 | the reserve script: its three replies and its new state |
| `UsageQuota.UsageService.EvalRefund` | app/services/usage/service.py:43-52 | the refund script |
| `UsageQuota.UsageService.AskRedis` | app/services/usage/service.py:168-207 | the Redis half of a reservation, with its fallback, is the model's Redis step; a denial reports a counter at the limit |
| `UsageQuota.UsageService.RecordReservation` | app/services/usage/service.py:209-293 | the PostgreSQL half with its compensation is the model's ledger step; a reservation reports the real usage and a refusal leaves the ledger alone |
| `UsageQuota.UsageService.Reserve` | app/services/usage/service.py:146-293 | one reservation undisturbed, equal to the three steps; a new reservation never reports more than the limit |
| `UsageQuota.UsageService.Commit` | app/services/usage/service.py:295-303 | commit touches only a reserved row |
| `UsageQuota.UsageService.Refund` | app/services/usage/service.py:305-386 | refund and refund_committed settle the ledger and Redis exactly when the row is in the status they ask for |
| `JobQueue.NextKeepsSound` | app/repositories/job_repository.py:25-294 | owners, attempt bounds and unique idempotency keys survive every statement |
| `JobQueue.RunKeepsSound` | app/repositories/job_repository.py:25-294 | …and every run |
| `JobQueue.OnlyOwnerOrRecovery` | app/repositories/job_repository.py:75-173 | a leased or running job has an owner, and its row changes only on that owner's behalf or by a recovery that found it stale |
| `JobQueue.NonOwnerEffect` | app/repositories/job_repository.py:198-258 | what a non-owner can do: heartbeat, progress and completions return false and change nothing; fail_job succeeds exactly when the row has no lock owner |
| `JobQueue.OwnershipComesFromLeasing` | app/repositories/job_repository.py:44-73 | ownership is only regained by the worker's own new lease, in any run |
| `JobQueue.OldWorkerIsLockedOut` | app/repositories/job_repository.py:217-258 | after recovery and another worker's lease every call of the old worker returns false, changes nothing and enqueues nothing |
| `JobQueue.SuccessorsComeFromSuccess` | app/repositories/job_repository.py:139-173 | a row appears only by an enqueue or in the step that records its predecessor's success |
| `JobQueue.CompletionCarriesItsSuccessor` | app/repositories/job_repository.py:152-173 | complete_job_and_enqueue is all or nothing, and adds a row exactly when the successor's key is free |
| `JobQueue.SucceededIsFinal` | app/repositories/job_repository.py:114-137 | a succeeded row never changes again, in any run of single-statement steps |
| `JobQueue.FailedIsRevivedExactly` | app/repositories/job_repository.py:207-215 | a failed row is revived exactly by the unguarded retry of an ownerless row with attempts left, and only to retry_wait |
| `JobQueue.LeasesAreBounded` | app/repositories/job_repository.py:51-71 | attempt_count is the number of leases, and no job is leased more than max_attempts times in its life |
| `JobQueue.SucceedsExactly` | app/repositories/job_repository.py:114-173 | after any run a job is found succeeded exactly when one of its completions took effect in it |
| `JobQueue.StaleFailExactly` | app/repositories/job_repository.py:185-258 | fail_job reads a row, any run of any actors' statements follows, and it writes: the write leaves a sound row and no succeeded job undone exactly when the job was not overtaken in that run, that is neither read ownerless and completed since, nor leased up to its last attempt although a retry was decided |
| `JobQueue.UnleasedFailIsSafe` | app/repositories/job_repository.py:185-258 | in particular whenever no lease of the job took effect in between |
| `JobQueue.AtomicFailIsSafe` | app/repositories/job_repository.py:220-258 | read and written in one step, it always is |
| `JobQueue.FailRaceRevivesSucceeded` | app/repositories/job_repository.py:232-242 | a concrete race that puts a succeeded job back to retry_wait, with the worker's id stored as the error code |
| `JobQueue.TwoStatementsRecover` | app/repositories/job_repository.py:260-294 | retrying what has attempts left and then expiring the rest recovers each stale row once |
| `JobQueue.ProcessedExactly` | app/workers/main.py:235-275 | a worker's pass completes exactly when its handler succeeded and it still held the lease, and leaves a job locked by another worker as it found it |
| `FailRace.StepFineExactly` | app/repositories/job_repository.py:185-258 | with fail_job's read and write as separate steps of any number of calls, a step keeps the table sound and every succeeded job as it is exactly unless it is the write of an overtaken call |
| `FailRace.RunFineExactly` | app/repositories/job_repository.py:25-294 | over whole runs the table stays sound and succeeded jobs final at every point exactly when no call of the run writes overtaken |
| `FailRace.OvertakenNeedsALease` | app/repositories/job_repository.py:44-73 | only a call whose job was leased since its read can write overtaken |
| `FailRace.OvertakenWriteRevives` | app/repositories/job_repository.py:232-242 | a run from the empty table in which such a write puts a completed job back to retry_wait |
| `JobQueue.JobRepository.LeaseJob` | app/repositories/job_repository.py:44-73 | leases the oldest eligible row that is not skipped, and none exactly when there is none |
| `JobQueue.JobRepository.CreateJob` | app/repositories/job_repository.py:25-42 | enqueueing under a taken key adds nothing |
| `JobQueue.JobRepository.UpdateHeartbeat` | app/repositories/job_repository.py:75-83 | the guarded heartbeat is the model's step |
| `JobQueue.JobRepository.UpdateProgress` | app/repositories/job_repository.py:93-102 | the guarded progress update is the model's step |
| `JobQueue.JobRepository.CompleteJob` | app/repositories/job_repository.py:114-128 | the guarded completion is the model's step |
| `JobQueue.JobRepository.CompleteJobAndEnqueue` | app/repositories/job_repository.py:139-173 | completion and enqueueing in one transaction are the model's step |
| `JobQueue.JobRepository.FailJob` | app/repositories/job_repository.py:175-258 | fail_job as the queue calls it, with its shifted arguments, is the model's step |
| `JobQueue.JobRepository.RecoverStaleJobs` | app/repositories/job_repository.py:260-294 | the two recovery statements together recover each stale row once, by its attempts |
| `JobQueue.JobRepository.ProcessJob` | app/workers/main.py:235-275 | progress, handler, completion and failure in the worker's order, equal to the specified pass |
| `CorpusLifecycle.CompleteExactly` | app/repositories/rag_repository.py:716-785 | the report accepts a version exactly when its configuration is usable, every chunk and question has a vector of it, and the stored counters are the real counts |
| `CorpusLifecycle.StepKeepsLiveExactly` | app/services/local_admin.py:826-861 | one active version per corpus, complete and truly counted: every step keeps this, except exactly a failure mark on a row of a live version |
| `CorpusLifecycle.RunKeepsLiveExactly` | app/repositories/rag_repository.py:703-714 | a whole run keeps it at every point exactly when no failure mark in it lands on a live version |
| `CorpusLifecycle.PromotionKeepsComplete` | app/repositories/rag_repository.py:1313-1328 | a promotion into a complete version leaves it complete exactly when every promoted row is embedded |
| `CorpusLifecycle.StepKeepsApprovals` | app/services/local_admin.py:52-69 | no step leaves a building version with a standing approval |
| `CorpusLifecycle.RunKeepsApprovals` | app/repositories/rag_repository.py:140-159 | …nor does any run |
| `CorpusLifecycle.ApprovalFreezesContent` | app/services/local_admin.py:286-299 | while an approval stands no step changes what was approved, and only a review of a qa_ready version gives one |
| `CorpusLifecycle.ApprovedContentIsReviewedContent` | app/services/local_admin.py:286-299 | in every run a version with a standing approval was reviewed while qa_ready, and its content is what it was then |
| `CorpusLifecycle.ActivationMakesReviewedContentLive` | app/services/local_admin.py:803-861 | activation, rollback included, only makes live what was approved |
| `CorpusLifecycle.DeletionUnapproves` | app/repositories/rag_repository.py:1437-1442 | a deletion leaves the live version without a standing approval |
| `CorpusLifecycle.PromotionUnapproves` | app/repositories/rag_repository.py:1333-1342 | so does a promotion, which also removes the temporary version |
| `CorpusLifecycle.ChangedVersionsAreNeverReactivated` | app/services/local_admin.py:826-846 | from then on, in every run, it stays without one and is never made live again once superseded |
| `CorpusLifecycle.PromotionSwapsTheChapterExactly` | app/repositories/rag_repository.py:1300-1326 | a promotion replaces the named chapter's rows; of the other chapters' rows it keeps those that stay and adds those carried along, and none is lost and none added exactly when the live version has no misfiled row and the temporary one no blank-chapter row |
| `CorpusLifecycle.DeletionRemovesTheChapterExactly` | app/repositories/rag_repository.py:1419-1430 | a deletion removes exactly the chapter's rows exactly when no other chapter's row is filed under its document |
| `CorpusLifecycle.DraftCopiesItsSource` | app/services/local_admin.py:349-456 | a draft has its source's content and only valid vectors; of a sound live version it is an identical, complete copy |
| `CorpusRuns.FailureMarkSpoilsLive` | app/repositories/rag_repository.py:703-714 | a run from the empty store: a failure mark that comes after the activation leaves the version live and incomplete |
| `CorpusRuns.DeletionLosesMisfiledRow` | app/repositories/rag_repository.py:1419-1430 | a run from the empty store: deleting a chapter takes along another chapter's row filed under its document |
| `CorpusRuns.PromotionMovesBlankRow` | app/repositories/rag_repository.py:1300-1326 | a run from the empty store: a promotion loses such a row and brings a row without a chapter into the live version |
| `CorpusProvenance.StepKeepsFaithfulExactly` | app/repositories/rag_repository.py:637-701 | every stored vector was made from its row's present text after every step, except exactly after a late write, one applied to a row whose text is not the text that was embedded |
| `CorpusProvenance.RunKeepsFaithfulExactly` | app/repositories/rag_repository.py:580-701 | a whole run keeps every vector its row's own at every point exactly when it holds no late write |
| `CorpusProvenance.OnlyEditsMakeWritesLate` | app/services/local_admin.py:71-250 | a write of what was read is late only if the version's texts were edited, or its documents imported again, since the read |
| `CorpusProvenance.LateWriteGoesLive` | app/repositories/rag_repository.py:671-701 | a run from the empty store: a question is edited between a worker's read and its write, and the version goes live, complete, with the old text's vector |
| `ConfirmRace.UndisturbedIsConfirm` | app/services/ingestion/completeness.py:16-60 | the six statements of a confirmation, undisturbed, are the lifecycle's one step |
| `ConfirmRace.MoveKeepsLiveExactly` | app/repositories/rag_repository.py:1220-1349 | with the statements of any number of confirmations and all other transactions interleaved, a move leaves the live versions sound exactly unless it is a failure mark on a live row or the promotion of a version of which some row has, by then, no valid vector |
| `ConfirmRace.RunKeepsLiveExactly` | app/repositories/rag_repository.py:787-798 | over whole runs they are sound at every point exactly when the run holds no such move |
| `ConfirmRace.UnovertakenRunsStaySound` | app/repositories/rag_repository.py:716-798 | such a promotion needs an edit, an import or a failure mark on the version after its report was accepted: runs without one keep every live version sound |
| `ConfirmRace.LatePromotionSpoilsLive` | app/services/ingestion/completeness.py:16-60 | a run from the empty store: a question added between the report and the promotion makes the live version incomplete |
| `CorpusRepository.Repository.RefreshEmbeddingCounts` | app/repositories/rag_repository.py:542-578 | stores the real counts |
| `CorpusRepository.Repository.GetActiveVersion` | app/repositories/rag_repository.py:320-332 | finds an active version exactly when there is one |
| `CorpusRepository.Repository.GetOrCreateBuilding` | app/repositories/rag_repository.py:69-201 | returns the building version, else reopens or inserts one, and fails exactly on another configuration or a missing draft |
| `CorpusRepository.Repository.ReplaceChapterChunks` | app/repositories/rag_repository.py:378-496 | the document's rows replaced by the imported ones, without blank questions, as one step |
| `CorpusRepository.Repository.MakeBuilding` | app/services/local_admin.py:60-69 | editing is refused for live and retired versions and reopens a qa_ready one |
| `CorpusRepository.Repository.EditQuestionRow` | app/services/local_admin.py:71-162 | the question edit, its approval invalidation and recount are the model's step |
| `CorpusRepository.Repository.EditVisualRow` | app/services/local_admin.py:164-250 | the visual edit is the model's step: only a policy change keeps the chunk's vector |
| `CorpusRepository.Repository.CreateEditableDraft` | app/services/local_admin.py:312-456 | the clone loops produce the model's draft |
| `CorpusRepository.Repository.ApproveQa` | app/services/local_admin.py:286-299 | an approval is recorded only for a qa_ready version |
| `CorpusRepository.Repository.ActivateVersion` | app/services/local_admin.py:826-861 | the gates and the two updates in their order are the model's activation |
| `CorpusRepository.Repository.PromoteChapter` | app/repositories/rag_repository.py:1220-1349 | the guarded move of rows and documents is the model's promotion, or changes nothing |
| `CorpusRepository.Repository.DeleteChapterFromActive` | app/repositories/rag_repository.py:1384-1450 | the deletion is the model's step |
| `CorpusRepository.Repository.ConfirmCompleteness` | app/services/ingestion/completeness.py:16-60 | counting, the qa_ready transition and the promotion are the model's step |
| `AnswerInvariants.ActKeepsSound` | app/repositories/ask_repository.py:113-146 | each statement, those of the validation, charge, extraction, correction and refund of the same paper included, keeps one request per item and one answer per request and takes nothing back; the paper's status stays true unless one of them overrode it |
| `AnswerInvariants.ActKeepsLocal` | app/services/multiple_ask_answers.py:751-794 | and leaves its worker holding ids that are still right |
| `AnswerInvariants.RunKeepsSound` | app/services/multiple_ask_answers.py:751-794 | so does every run of any number of workers |
| `AnswerGuarantees.OneRequestOneAnswer` | app/services/multiple_ask_answers.py:754-772 | whatever workers crash, restart or run twice, two request rows or two answer rows of one item are the same row |
| `AnswerGuarantees.FirstAnswerWins` | app/repositories/ask_repository.py:167-206 | the content of a persisted answer never changes (an approval may add a revision), and every later attempt to persist for its request gets that row |
| `AnswerGuarantees.AnsweredIsFinal` | app/repositories/multiple_ask_repository.py:359-370 | an answered item's row never changes again, whatever becomes of the paper's status |
| `AnswerGuarantees.BatchCoversEveryMcq` | app/services/multiple_ask_answers.py:662-745 | a saved batch, which only validated results become, holds exactly one result for each MCQ of the paper and none for anything else, in every run |
| `AnswerGuarantees.StatusExactly` | app/repositories/multiple_ask_repository.py:565-585 | an ended status is true and final and answering only ends, after every statement, except exactly a charge or rejection by a slow validation worker and a refund of a paper being answered or with items to show for it |
| `AnswerGuarantees.RunStatusExactly` | app/services/multiple_ask.py:367-403 | over a whole run the status is true and final at every point exactly when the run holds no such step |
| `AnswerGuarantees.EndedExactly` | app/repositories/multiple_ask_repository.py:433-453 | without such a step an ended workflow classifies its items exactly as all answered, some answered or none answered, and stays as it is |
| `AnswerRuns.RunRefinesPaper` | app/services/multiple_ask_extraction_service.py:104-311 | seen from the paper's job row, every run of all these workers is a run of the validation, extraction and refund transactions, so their theorems hold of it |
| `AnswerRuns.AnsweredPaperChargedOnce` | app/services/multiple_ask_extraction_service.py:653-657 | so whatever its answering does, a paper is charged at most once and refunded at most once |
| `AnswerRuns.StepSourcesExactly` | app/repositories/multiple_ask_repository.py:359-370 | a step makes an item's source or a request's stamp differ from the persisted answer's exactly when it stamps, or settles an open item, for a worker that holds another source |
| `AnswerRuns.RunSourcesExactly` | app/repositories/ask_repository.py:196-205 | over a whole run items, requests and answers agree on the source at every point exactly when it holds no such write |
| `AnswerRuns.DiscordComesFromLosing` | app/repositories/ask_repository.py:167-206 | a worker comes to hold another source exactly by persisting when an answer with a different source is already there |
| `AnswerRuns.RelinkedExactly` | app/services/multiple_ask_answers.py:783-794 | a relinked item reports the row's source, and its revision exactly when there is none |
| `AnswerRuns.LateChargeReopens` | app/repositories/multiple_ask_repository.py:184-189 | a run from a fresh paper: a slow second validation worker makes a completed paper validated again, its items as they were |
| `AnswerRuns.RefundWhileAnswering` | app/services/multiple_ask_extraction_service.py:638-665 | a run from a fresh paper: a failure of the extraction job recorded while the paper is being answered leaves it failed and refunded with an item open |
| `AnswerRuns.LateSourceDisagrees` | app/repositories/ask_repository.py:167-205 | a run from a fresh paper: the worker that persists second leaves item and request with another source than the answer |
| `AnswerRuns.RestartDropsTheRevision` | app/services/multiple_ask_answers.py:783-794 | a run from a fresh paper: after a restart the item ends without the revision its answer has |
| `AnswerQueue.SuccessorsAreNeverLost` | app/services/multiple_ask_answers.py:375-389 | with arbitrary retries, duplicate deliveries, lost leases, recoveries and other workers' steps, no chained completion ever finds its successor's key taken |
| `AnswerQueue.ChainGoesOnExactly` | app/repositories/job_repository.py:139-173 | from the start of the chain, a chained completion inserts its successor, and succeeds, exactly when it still holds the lease; otherwise it leaves the table alone |
| `AnswerQueue.OneJobAtATime` | app/services/multiple_ask_answers.py:378-388 | at every point at most one job of the chain has not succeeded |
| `AnswerQueue.PromiseLasts` | app/services/multiple_ask_answers.py:375-389 | what a run returned with, strictly fewer items open than when it began, still holds when its completion is written, whatever others did in between |
| `AnswerChain.AnyFailedExactly` | app/repositories/job_repository.py:175-294 | a job of the chain fails in two ways only: the recovery finds it stale, or its worker fails it, with its attempts used up |
| `AnswerChain.OrphanedExactly` | app/services/multiple_ask_answers.py:91-96 | a paper in answering has no job to go on exactly when a job of its chain has failed |
| `AnswerChain.LeftInAnsweringExactly` | app/workers/main.py:158-309 | over every run from start_for_job on in which nothing overrides the status: a paper is left in answering with no job to go on exactly when it is still in answering and the recovery expired a job of its chain, or a worker failed one and never got to mark the queue failure |
| `AnswerChain.LeftForGood` | app/services/multiple_ask_answers.py:91-96 | once no worker has one of its jobs in hand, such a paper stays so in every such run: no job is taken up again and no item changes |
| `AnswerChain.PaperIsLeft` | app/repositories/job_repository.py:260-294 | a run from a fresh paper: three times a worker leases the job and stops, the recovery fails it, and the paper is left in answering with its item open |
| `AnswerService.LinkNeverConflicts` | app/services/multiple_ask_answers.py:768-772 | the request conflict that _candidate_request raises on cannot arise |
| `AnswerService.Service.MarkQueueFailure` | app/services/multiple_ask_answers.py:394-405 | fails whatever is open and ends the workflow as the items say |
| `AnswerService.Service.StartForJob` | app/services/multiple_ask_answers.py:68-131 | starts only a ready paper without open corrections, and is idempotent otherwise |
| `AnswerService.Service.CandidateRequest` | app/services/multiple_ask_answers.py:751-773 | with any steps of others in between, leaves the worker with the item's one linked request |
| `AnswerService.Service.ExistingCompletion` | app/services/multiple_ask_answers.py:775-794 | settles the item when an answer already exists, with any steps of others before the lookup and after it |
| `AnswerService.Service.Complete` | app/repositories/ask_repository.py:148-206 | persisting, stamping and recording settle the item, with any steps of others before each of them |
| `AnswerService.Service.FinishAnswers` | app/repositories/multiple_ask_repository.py:433-453 | the returned status is the classification once nothing is open, and the stored one if the paper was in answering |
| `AnswerService.Service.FinishSettled` | app/services/multiple_ask_answers.py:391-392 | the finishing transaction after steps of others: stored and returned status are the same exactly when it found the paper in answering or already in that status |
| `AnswerService.Service.AnswerMcqBatch` | app/services/multiple_ask_answers.py:547-660 | a normal end has settled every MCQ of the snapshot; only an accepted response is saved, and the lookup by item id in what was saved never fails |
| `AnswerService.Service.CheckBatch` | app/services/multiple_ask_answers.py:187-245 | every item of the batch ends settled or among the missed ones |
| `AnswerService.Service.AnswerMissed` | app/services/multiple_ask_answers.py:270-373 | with a vector for each, every missed item ends settled |
| `AnswerService.Service.AnswerPaper` | app/services/multiple_ask_answers.py:133-392 | an answer run that returns normally has settled all MCQs and its batch: it chains with strictly fewer items open, or ends with nothing open and the classification, which is also stored unless another writer overrode the status |
| `AnswerService.Service.RunJob` | app/workers/main.py:235-309 | one queue job with all its attempts, each of which may raise or crash anywhere: unless the status was overridden, its paper is settled and classified when the last attempt raised, when an attempt finished, and when a redelivered attempt finds it no longer in answering under its epoch |
| `AnswerService.Service.AnswerChain` | app/services/multiple_ask_answers.py:375-392 | with every job retried, the keys of a chain strictly fall, so none collides; unless the status was overridden, a chain that ends by finishing, by marking a failure or by finding the paper ended leaves nothing open and the status that the items say |
| `McqResults.NoneMissing` | app/services/multiple_ask_answers.py:743-744 | by pigeonhole the final missing-item check can never fire |
| `McqResults.LookupSucceeds` | app/services/multiple_ask_answers.py:620-627 | accepted results hold exactly one result for each item |
| `McqResults.ValidateMcqResults` | app/services/multiple_ask_answers.py:662-745 | accepts exactly the acceptable responses, never reports a missing item, and returns results that match the items one to one, each with its selected label's text |
| `PaperExtraction.StaleEpochChangesNothing` | app/services/multiple_ask_extraction_service.py:285-292 | a worker with an old epoch, or after its extraction ended, changes nothing |
| `PaperExtraction.EpochInsertsOnce` | app/repositories/multiple_ask_repository.py:235-299 | in every run an epoch's items are inserted at most once, by its status and epoch guards alone, and epochs only grow |
| `PaperExtraction.ItemsArriveOnce` | app/services/multiple_ask_extraction_service.py:285-300 | across all epochs a paper receives one set of items, indexed from zero |
| `PaperExtraction.StepKeepsQuotaExactly` | app/services/multiple_ask.py:367-403 | the job's quota status and its ledger row agree after every step, except exactly after a late charge of a refunded paper |
| `PaperExtraction.RunKeepsQuotaExactly` | app/services/multiple_ask_extraction_service.py:638-665 | a whole run keeps them in agreement exactly when no such charge occurs |
| `PaperExtraction.ChargedOnceRefundedOnce` | app/services/multiple_ask_extraction_service.py:653-657 | in every run a paper is charged at most once and refunded at most once, and never refunded uncharged |
| `PaperExtraction.LateValidationRecharges` | app/repositories/multiple_ask_repository.py:184-189 | a concrete run of two validation workers ends validated and committed although the charge was refunded |
| `PaperExtraction.RedeliveredValidationRecharges` | app/services/multiple_ask.py:333-346 | so does one worker whose validation is delivered again after the refund |
| `PaperExtraction.Paper.StartValidation` | app/services/multiple_ask.py:333-346 | the first transaction of the validation is the model's step |
| `PaperExtraction.Paper.ValidateAndCharge` | app/services/multiple_ask.py:348-403 | its deciding transaction is the model's step |
| `PaperExtraction.Paper.StartInitialExtraction` | app/services/multiple_ask_extraction_service.py:104-112 | only a validated paper opens the next epoch |
| `PaperExtraction.Paper.WriteExtractedItems` | app/services/multiple_ask_extraction_service.py:285-301 | the guarded insert loop is the model's step; the unique index rolls a second set back |
| `PaperExtraction.Paper.RefundFailure` | app/services/multiple_ask_extraction_service.py:638-665 | marks the failure and refunds a committed charge |
| `PaperExtraction.Paper.ApplyCorrection` | app/services/multiple_ask_extraction_service.py:196-217 | a correction is applied only to an unclear item, and the last one makes the paper ready |
| `PolicyCache.EveryGetIsFresh` | app/services/usage/limits.py:28-64 | in every interleaving a completed get returned a policy the table held between the start and the end of that call |
| `PolicyCache.UpdatesAreNeverOverlooked` | app/services/runtime_settings.py:391-454 | an update committed before a call began is never overlooked by it |
| `PolicyCache.HitIsCurrentEnough` | app/services/usage/limits.py:39-45 | an entry of the generation a reader saw holds a policy from that moment or later |
| `PolicyCache.LockExcludes` | app/services/usage/limits.py:42-64 | at most one reader is between its locked check and its store |
| `PolicyCache.UsagePolicyCache.Get` | app/services/usage/limits.py:28-64 | the same, for the method itself with arbitrary steps of others at every await |
| `PromptCache.NextKeepsSound` | app/repositories/prompt_repository.py:188-251 | one active prompt per key, mode and scope, unique version numbers and a coherent cache survive every step and any Redis failure |
| `PromptCache.RunKeepsSound` | app/repositories/prompt_cache.py:38-90 | …and every run |
| `PromptCache.ResolveIsTheWalk` | app/services/prompts/service.py:234-266 | resolving gives what walking the exact scope and then the subject's own gives, hit or miss |
| `PromptCache.ActivationRaisesGeneration` | app/repositories/prompt_repository.py:244-251 | every activation strictly raises its family's generation and leaves no cached record of it current |
| `PromptCache.LateStoreExactly` | app/repositories/prompt_cache.py:80-90 | a record stored under a generation read anew keeps the cache sound exactly when the walk still gives it |
| `PromptCache.QuietStoreIsSafe` | app/repositories/prompt_cache.py:80-90 | in particular whenever the generation has not moved since the walk, whatever else happened |
| `PromptCache.LateStoreServesRetired` | app/repositories/prompt_cache.py:80-90 | across an activation it is not: the record of the earlier walk is served under the new generation, a retired prompt if it was the scope's own, else the subject's prompt that the new one should hide |
| `PromptCache.RetiredIsServed` | app/repositories/prompt_cache.py:80-90 | a run from the empty store that ends with a retired prompt served in place of the active one |
| `PromptCache.PromptService.CreatePrompt` | app/repositories/prompt_repository.py:47-108 | a draft gets the next version number of its slot |
| `PromptCache.PromptService.UpdatePrompt` | app/repositories/prompt_repository.py:117-150 | only drafts are editable |
| `PromptCache.PromptService.ActivateTarget` | app/repositories/prompt_repository.py:188-255 | the transaction and the publication are the model's activation |
| `PromptCache.PromptService.CurrentGeneration` | app/repositories/prompt_cache.py:38-67 | whatever Redis answers, the generation is PostgreSQL's |
| `PromptCache.PromptService.ResolveActive` | app/services/prompts/service.py:234-266 | cache, then scopes in order; in a sound state exactly the walk |
| `Fusion.FusionIgnoresOrder` | app/services/retrieval/fusion.py:26-75 | the fused list depends on the set of hits alone, and on it entirely when an id always names one citation |
| `Fusion.PairsBeatSinglesExactly` | app/services/retrieval/fusion.py:16-16 | two ranks up to m outweigh any one exactly when m is below the constant plus two |
| `Fusion.MultiChannelComesFirst` | app/services/retrieval/fusion.py:56-65 | a citation found by several channels comes before every citation found by one |
| `Fusion.TopIsMultiChannel` | app/services/runtime_settings.py:145-180 | with at most 50 candidates per channel the top result is multi-channel whenever any is |
| `Fusion.EvidenceExactly` | app/services/retrieval/evidence.py:79-109 | evidence is strong exactly when two channels have the top result among their first three, and absent exactly without hits |
| `Fusion.GroupHits` | app/services/retrieval/fusion.py:32-36 | groups every hit by its citation, failing exactly on a rank below one |
| `Fusion.MergeCitation` | app/services/retrieval/fusion.py:42-63 | the best rank of each channel, the exact weight, and the citation of the best hit of the channel seen first |
| `Fusion.SortCandidates` | app/services/retrieval/fusion.py:38-65 | every grouped citation once, heavier first and then by id |
| `Fusion.FuseRankedHits` | app/services/retrieval/fusion.py:26-75 | fails exactly on a constant or a rank below one; otherwise each id once, ranked 1 to n, with its best ranks, strictly ordered |
| `LexicalMatch.StemIsIdempotent` | app/services/answers/approved_matching.py:42-49 | folding a plural twice changes nothing more |
| `LexicalMatch.ScoreExactly` | app/services/answers/approved_matching.py:60-74 | a score is positive exactly when one non-empty token set contains the other, and then the ratio of their sizes |
| `LexicalMatch.AtMostOneWins` | app/services/answers/approved_matching.py:99-103 | no two revisions win |
| `LexicalMatch.OrderDoesNotMatter` | app/services/answers/approved_matching.py:86-91 | the winner depends neither on the order nor on the repetition of candidates |
| `LexicalMatch.WinnerContains` | app/services/answers/approved_matching.py:67-74 | a winner has a text nested with the question, of at least four fifths its size |
| `LexicalMatch.SelectLexicalMatch` | app/services/answers/approved_matching.py:77-103 | returns a revision exactly when its best score is at least 0.80 and at least 0.15 above every other revision's |
| `PaperSplitter.PiecesRejoin` | app/services/multiple_ask_extraction.py:135-157 | for any notion of a marker the pieces rejoin to the line up to white space before the cuts |
| `PaperSplitter.CutExactlyAtMarkers` | app/services/multiple_ask_extraction.py:139-156 | each later piece begins at a marker, no marker is left inside a piece, and a line without a leading marker is not cut |
| `PaperSplitter.SplitInlineStarts` | app/services/multiple_ask_extraction.py:135-157 | the loop computes that splitting |
| `PaperSplitter.LooksAhead` | app/services/multiple_ask_extraction.py:160-172 | the look-ahead equals checking only the next candidate |
| `PaperSplitter.GroupOfExactly` | app/services/multiple_ask_extraction.py:275-296 | a candidate falls under a container exactly when that is the last candidate before it that ends a group |
| `PaperSplitter.VisibleExactly` | app/services/multiple_ask_extraction.py:278-282 | every candidate is a container or exactly one question, in order |
| `PaperSplitter.PlacingExactly` | app/services/multiple_ask_extraction.py:291-296 | a Roman part carries a group's context and label exactly when the last group-ending candidate before it is a container |
| `PaperSplitter.GroupCandidates` | app/services/multiple_ask_extraction.py:275-302 | the one-pass loop equals the specification that looks each group up on its own, and fails exactly above the limit |
| `PaperReader.PageCountsBreaks` | app/services/multiple_ask_extraction.py:243-246 | the page counter is one more than the page breaks read |
| `PaperReader.NothingIsLost` | app/services/multiple_ask_extraction.py:256-273 | the candidates' lines are exactly the pieces from the first marker on, in order, with one candidate for each marker |
| `PaperReader.CandidatesKeepTheirMarker` | app/services/multiple_ask_extraction.py:259-269 | each candidate keeps the kind, label, page, section and mode of its marker |
| `PaperReader.ReadPaper` | app/services/multiple_ask_extraction.py:238-273 | the nested loops collect exactly the candidates of the paper's pieces, each under its own context |
| `SourceText.PageIsItsLines` | app/services/multiple_ask_extraction_service.py:39-41 | a page is left with its normalized lines, from its first to its last non-empty one |
| `SourceText.TextIsItsPages` | app/services/multiple_ask_extraction_service.py:37-42 | the text is left with its normalized pages: interior boundaries stay, empty pages at the two ends go |
| `SourceText.BoundariesStayExactly` | app/services/multiple_ask_extraction_service.py:35-42 | every page of the text becomes one page of the result exactly when there is one page only, or the first and the last page both hold something visible |
| `SourceText.LeadingBreakIsDropped` | app/services/multiple_ask_extraction_service.py:37-42 | a literal text whose leading page break does not come through |
| `SourceText.NormalizedAgain` | app/services/multiple_ask_extraction_service.py:35-45 | normalization is idempotent |
| `SourceText.NormalizedKeepsInk` | app/services/multiple_ask_extraction_service.py:35-45 | every visible character comes through, in order |
| `SourceText.NormalizeSourceText` | app/services/multiple_ask_extraction_service.py:35-45 | fails exactly above the length limit; otherwise idempotent and only white space changes |

## Left out

- Redis key expiry, day rollover and tier changes: a bucket is one business day under one policy per call; clocks are parameters.
- Dashboards, audit logs, operational events, retention and cleanup loops: bookkeeping beside the protocols.
- HTTP routes, schemas, authentication, storage, OCR, embedding and language-model providers: arbitrary inputs, outcomes or failures.
- Vector distance, full-text search and SQL ordering: ranked lists and candidate texts are inputs; a corpus version is not ordered by its number, so which of several building or qa_ready versions is latest is left open.
- The unguarded overloads of update_progress and complete_job and the approval-free activate_corpus_version, which bypass the protocols.
- The report's count of rows is one read, after that of the version's row; topic headings of a chunk never change and are not part of its modelled input.
- Embedding migration drafts, question-bank cleanup on promotion and the input fingerprint of a version; unsettled embedding jobs are one flag.
- Floating-point rounding: weights and scores are exact reals, and SHA-256 and uuid5 are injective.
- Row ids: request, answer and prompt rows are identified by their place in an append-only table, citations by a number in place of a string, chunks and questions by their place in the version.
- Regular expressions of the paper splitter, and the joined lines and lower-casing of the grouping pass, are arbitrary functions; classifying one candidate's lines into a question, its options and mode is not modelled.
- The chapter of a lexical candidate: the matcher carries it along and never uses it.
- White space is the ASCII one that Python strips; its other Unicode spaces are not modelled in Text.
- UsageQuota.UsageService.Refund: models a transaction that commits; the one that rolls back after its script ran is the step in UsageQuota.RolledBackRefundStrands.
- JobQueue.JobRepository.FailJob: reads and writes in one step; the two statements apart are JobQueue.StaleFailExactly and the module FailRace.  AnswerQueue and AnswerChain take it as one step too.
- PromptCache.PromptService.ResolveActive: resolves in one step; a store that comes late is PromptCache.LateStoreExactly.
- AnswerService.Service.AnswerPaper: says nothing of a run that raises, except that nothing persisted or settled is taken back.
- AnswerService.Service.RunJob: says nothing of an end whose last attempt crashed; that end is the module AnswerChain.
- AnswerService.Service.AnswerChain: nor does it, nor of a status that another writer overrode, because nothing settles what is open then.
- The item statuses pending_extraction and cancelled, and the resumed extraction that uses them, which no endpoint starts any more; rejecting an answer in review, which touches no column of the model.
- Enqueuers of the answer chain's keys other than the chain itself: AnswerQueue takes it that a key names its paper and epoch.
- CorpusRepository.Repository.EditQuestionRow: an error raised after the version was reopened rolls the transaction back, so the error is looked for first.
- Texts of questions: PaperExtraction keeps whether an item is clear, AnswerTables its mode and options.
