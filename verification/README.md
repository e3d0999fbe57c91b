# A verified model of the migration engine

The repository migrates mail archives from an Enterprise Vault style source to a storionX style target.
A runner attempts ordered steps, retries them, checkpoints after each one, rolls back on failure and
resumes from a checkpoint. The steps hand a batch of items on: discover, extract, transform (with
rehydration of single-instance parts), upload, verify, finalize. This project models that engine in
Dafny and proves what it promises across steps, runs and chains of runs.

How the parts fit together:

- `Records`, `StepContext`, `Prelude`: the data that travels through the pipeline.
- `FolderPaths`, `Extraction`, `Transformation`, `Rehydration`, `Target`, `Upload`, `Verification`,
  `ErrorBreakdown`, `Finalization`: one module per step or service. Each has a functional
  specification, the loops and objects that compute it (`SisRehydrator`, `TargetAdapter`, the `Run...`
  methods), and lemmas about the specification.
- `StateMachine`, `RetryPolicy`, `StepRegistry`, `Repositories`: the pieces the runner is built from.
- `StepBodies`, `Runner`: a run as a function of what the runner does not control. An *oracle* says, for
  each attempt, whether and where it raises (before the body, inside it, in `finalize`, or while saving,
  with the checkpoint stored or not), how far a raising body got, how upload workers were scheduled, and
  whether a transformation without an injected rehydrator makes its own.
  A job is any list of launches: fresh runs and resumes.
- `StepExecution`, `PipelineRunner`: the runner as an object with its loops, proved to compute `Runner`.
- `RunnerProtocol`, `RunHistory`, `RetryCounts`, `JobProtocol`, `RunConfiguration`: what every run and
  every chain of runs keeps, for any step bodies: the trail of saves, retries and what is counted of them,
  and the configuration a resume goes on with.
- `Resumption`, `MigrationStages`, `MigrationJobs`, `JobReports`, `Recovery`: the end-to-end results for
  the six migration steps, what the report of a finished job says, and that every job can be finished.
  Stages are kept for a family of upload batches: any batch that upload results account for (which gives
  the results that hold from every target), or only that of an uninterrupted run.
- `SourceScope`, `DocumentContents`: which items are taken, told from the source and the configuration,
  and what the documents in the target say of them.
- `FinalCounts`, `ExactReport`, `AuditTrail`, `CleanRun`: the final report counter by counter and the audit
  entry by entry, told from what a job started with; and a run in which nothing raises.
- `RateLimiter`, `Dataset`: the upload rate limiter and the dataset generator.

Time and delays are real numbers; timestamps of items are integers. SHA-256 and title-casing are
uninterpreted functions. The lock-protected limiter and the upload workers are interleaved steps.

Where the code and its documentation disagree, the code is modelled:

- The README of the repository says that a different checksum conflicts (README.md:844-850). The adapter
  compares the whole mapped document and raises a conflict when any part of it differs
  (src/adapters/target/mock_storionx_target_adapter.py:102-109).
- A checkpoint carries counters for throttling and retries, but the builder never fills them in
  (src/migration_engine/runner/pipeline_runner.py:1219-1251), so a resume restores zeros.

Claims that do not hold of the code are stated as they do hold, with the exact condition and, where
some inputs fail and others do not, a failing one:
normalisation of folder paths is not idempotent, and the filter normalises a selected path twice;
selecting the root folder selects almost nothing; final metrics of a dry run conserve items only when no
transformation failed; rebuilding the upload lists agrees with the upload only when the target hides no
document it would turn down; the retry count is the number of retries only when no step reports more; a
FAILED checkpoint passes the resume checks but cannot finish; a failure on a completed or cancelled
machine leaves the runner as an exception; a name lookup in the registry misses a second class of the
same name; the codes for single verification reasons are unreachable; of two vault stores that share a
name the second is walked twice and the first never.

## Model

| member | source | states |
|---|---|---|
| MigrationJobs.ResumeEqualsUninterrupted | src/migration_engine/runner/pipeline_runner.py:912-1118 | from a target that hides no document it would turn down, any chain of fresh runs and resumes that finishes leaves the stage results and the target of one uninterrupted run |
| Recovery.ResumeEqualsUninterruptedExactlyWhen | src/migration_engine/runner/pipeline_runner.py:912-1118 | that holds for every chain that finishes if and only if the target the job starts with is of that kind |
| Recovery.OpaqueTargetMakesResumesDiffer | src/migration_engine/steps/upload_items_step.py:325-342 | from any other target a run that fails at verification, resumed without a further failure, finishes with another upload batch than the uninterrupted run |
| Recovery.OpaqueTargetExists | src/migration_engine/steps/upload_items_step.py:325-342 | every source with a document to write has such a target: one that holds another document under its identifier |
| Recovery.EveryJobRecovers | src/migration_engine/runner/pipeline_runner.py:912-1118 | whatever a job has been through, from any target, one restart in which nothing raises (a resume if a checkpoint can be resumed, else a fresh run) finishes it, with the results of an uninterrupted run where the above holds |
| MigrationJobs.JobFinishesAs | src/migration_engine/runner/pipeline_runner.py:912-1118 | from any target, every chain that finishes leaves the expected stage results and target, with some upload batch accounted for by upload results and the verification of that batch |
| MigrationJobs.UninterruptedRunFinishes | src/migration_engine/runner/pipeline_runner.py:110-401 | from any target, a fresh run in which no first attempt raises finishes, with exactly the results of an uninterrupted run |
| MigrationJobs.FinishedJobsAgree | src/migration_engine/runner/pipeline_runner.py:912-1118 | from a target that hides nothing, two histories of one job that finish agree in target, stage results, final status, reconciliation, counters and audit, up to replay flags and the wording of failures |
| FinalCounts.FinishedJobCounts | src/migration_engine/steps/finalize_migration_step.py:599-634 | from any target and after any chain, a finished job reports as new uploads the distinct documents whose identifier the target of its last upload did not hold, and as replays those it held in the same form; or, when the upload was only replayed, what that found |
| CleanRuns.UninterruptedRunTellsExactly | src/migration_engine/steps/finalize_migration_step.py:61-163 | from any target, a fresh run in which nothing raises reports every counter of reconciliation, metrics and snapshot and every warning as told from its source, its configuration and its target; new uploads and replays are told apart by what the target held when the run started |
| CleanRuns.EmptyTargetHasNoReplay | src/migration_engine/steps/finalize_migration_step.py:614-623 | from an empty target such a run reports no replay |
| CleanRuns.SecondRunUploadsNothingNew | src/migration_engine/steps/finalize_migration_step.py:599-612 | over the target such a run has left, a second one reports no new upload |
| ExactReports.FinishedJobTellsExactly | src/migration_engine/steps/finalize_migration_step.py:61-163 | from a target that hides nothing, every job that finishes reports the same exact counters and warnings, but for the split into new uploads and replays |
| AuditTrails.FinishedJobAudits | src/migration_engine/reporting/error_breakdown.py:22-56 | from a target that hides nothing, the audit of every job that finishes has one entry for each item rehydration rejected, naming its kind and the archive that holds it first, then one for each distinct document the target did not take, and no other |
| AuditTrails.UninterruptedRunAudits | src/migration_engine/reporting/error_breakdown.py:22-56 | so has, from any target, the audit of a fresh run in which nothing raises |
| CleanRuns.CleanRunVisits | src/migration_engine/runner/pipeline_runner.py:143-146 | a fresh run in which nothing raises enters INITIALIZING, the state of each migration step in order, COMPLETED when finalization ends, and COMPLETED once more at its own end |
| MigrationJobs.FinalizationAgrees | src/migration_engine/steps/finalize_migration_step.py:61-163 | finalization reports the same verdict from any two contexts that agree in the upload batch up to replay flags; only new uploads and replays are told apart |
| MigrationJobs.CompletedJobIsSound | src/migration_engine/reporting/report_summary.py:22-40 | from any target and after any chain, status "completed" means: no archive in scope was unsupported, every extracted item was transformed, and the target returns for each a document with the same checksum that agrees with it in each of the twenty fields of its metadata |
| DocumentContents.CompletedJobHoldsEveryItem | src/migration_engine/reporting/report_summary.py:22-40 | for every single extracted item it means that the target returns, under the item's identifier, a document with the item's own sender, three recipient lists, subject, dates, retention policy, size and attachments, and with the names of the archive and the mailbox that hold it first |
| DocumentContents.FinishedJobStoresItems | src/migration_engine/steps/transform_items_step.py:361-420 | from any target, a job that writes and finishes leaves, for the first accepted item of each identifier whose document the target could store, a document that carries every field of the item, legal hold and journal data included, and a stored form that says the same |
| JobReports.FinishedJobAccounts | src/migration_engine/steps/finalize_migration_step.py:61-163 | from any target, however often a job failed and was resumed, if it finishes: items are conserved, the audit has one entry for each failed item, final metrics conserve exactly when the run writes or no item failed, and reconciled means distinct identifiers and, unless dry, every document in the target |
| JobReports.FinishedJobReportsExactly | src/migration_engine/steps/finalize_migration_step.py:61-163 | from a target that hides nothing, such a job has the final status told from source, configuration and target, and is reconciled if and only if identifiers are distinct and, unless dry, the target it started with accepts each document |
| JobReports.DeliverableIsTransparent | src/migration_engine/steps/upload_items_step.py:325-342 | where everything can be delivered the target hides nothing, so the exact results apply |
| JobReports.UninterruptedRunReportsExactly | src/migration_engine/steps/finalize_migration_step.py:61-163 | a fresh run in which nothing raises reports exactly that from any target |
| JobReports.StatusOfFinalization | src/migration_engine/reporting/report_summary.py:22-40 | the same for the status alone: failed exactly when something is not deliverable, else dry run, else with warnings exactly when an archive was unsupported or an item failed, else completed |
| JobReports.EverythingVerifiedExactlyWhen | src/migration_engine/steps/verify_items_step.py:84-107 | every document is verified if and only if identifiers are distinct and the target accepted each one before the upload |
| MigrationJobs.MigrationJobExists | src/migration_engine/runner/pipeline_runner.py:54-95 | every source, configuration, retry policy and target has a job these results apply to |
| MigrationJobs.EmptyTargetIsTransparent | src/migration_engine/steps/upload_items_step.py:325-342 | from an empty target the condition for exact reconstruction always holds |
| MigrationJobs.EmptyTargetTakesEverything | src/migration_engine/steps/transform_items_step.py:389-396 | from an empty target that refuses nothing no upload conflicts, and every distinct document is uploaded |
| MigrationJobs.ResolvedIsMigrationPipeline | src/migration_engine/runner/step_registry.py:50-59 | whatever the registration order, resolving gives the canonical six steps followed by the custom ones |
| MigrationStages.ExpectedResults | src/migration_engine/steps/transform_items_step.py:82-135 | every source, configuration and target has the results of an uninterrupted run: no stage lacks an input |
| MigrationStages.TransformationRepeats | src/migration_engine/steps/transform_items_step.py:103-135 | transforming again, over the cache any earlier attempt left, gives the same documents and failures and the same cache bound |
| MigrationStages.TransformationStops | src/migration_engine/steps/transform_items_step.py:103-135 | stopping the loop anywhere leaves a cache later runs can start from |
| MigrationStages.UploadCompletes | src/migration_engine/steps/upload_items_step.py:75-78 | completing the upload from anything an interrupted attempt left gives the expected target and batch |
| MigrationStages.UploadRebuilds | src/migration_engine/steps/upload_items_step.py:80-83 | where the target hides nothing, rebuilding the upload from the finished target gives the expected batch |
| MigrationStages.UploadStops | src/migration_engine/steps/upload_items_step.py:119-148 | stopping the upload anywhere leaves a target later attempts can start from and never spoils a finished one |
| MigrationStages.VerificationAgrees | src/migration_engine/steps/verify_items_step.py:72-107 | verification of a batch that agrees with that of the uninterrupted run gives its verification |
| Resumption.JobKeepsStages | src/migration_engine/runner/pipeline_runner.py:141-344 | if steps establish their stage from whatever an interrupted attempt leaves, and replays rebuild it, every chain of launches keeps the stages and finishing runs are past the last one |
| Resumption.ResumeKeepsStages | src/application/use_cases/resume_migration.py:38-54 | a resume from any stored checkpoint is rejected or runs on from the rebuilt stage |
| Resumption.CleanFreshRunFinishes | src/migration_engine/runner/pipeline_runner.py:110-401 | with such steps, a run whose first attempts do not raise finishes |
| Resumption.CleanResumeFinishes | src/migration_engine/runner/pipeline_runner.py:912-1118 | with such steps, a resume of a checkpoint that is not COMPLETED finishes if neither replays nor first attempts raise, whatever happened before |
| JobProtocol.JobStaysOnTrail | src/migration_engine/runner/pipeline_runner.py:902-910 | over any fail and resume chain the saves climb step by step, the stored checkpoint is the last save and never FAILED; with no acknowledgement lost, completed steps are exactly 0, 1, 2, ... |
| JobProtocol.FinishedJobCompletedEveryStepOnce | src/migration_engine/runner/pipeline_runner.py:143-228 | a finished chain completed every step exactly once and in order |
| JobProtocol.ClimbReaches | src/migration_engine/runner/pipeline_runner.py:902-910 | lost acknowledgements or not, every step up to the last save was saved |
| JobProtocol.PredecessorSavedBefore | src/migration_engine/runner/pipeline_runner.py:902-910 | no step was saved before its predecessor |
| JobProtocol.ResumeStaysOnTrail | src/application/use_cases/resume_migration.py:38-93 | a resume of a job is refused if and only if nothing was saved or the job had completed; otherwise it starts at the step after the last save, completes steps from there in order, and keeps the trail |
| JobProtocol.RefusedExactlyWhen | src/application/use_cases/resume_migration.py:38-93 | whatever the repository holds, a resume is refused if and only if there is no checkpoint of this job and version, in a state before the end, after a step the pipeline has; it then says which of these fails and changes nothing |
| RunConfigurations.ResumeKeepsConfiguration | src/migration_engine/runner/pipeline_runner.py:1290-1317 | for any stored checkpoint and any runner, every checkpoint a resume saves has the stored archive names, folder paths, dates, workers and rate, and is dry if and only if the stored one or the runner is |
| RunConfigurations.DryMigrationResumeWritesNothing | src/migration_engine/runner/pipeline_runner.py:1290-1317 | if the stored checkpoint or the runner is dry, a resume leaves the target as it is and saves dry checkpoints only |
| RunConfigurations.AnyRunnerResumesAlike | src/migration_engine/runner/pipeline_runner.py:1290-1317 | a resume does not depend on the configuration its runner was built with, except that a dry runner makes it dry |
| RunConfigurations.DryMigrationJobWritesNothing | src/migration_engine/steps/upload_items_step.py:85-103 | a dry runner leaves the target alone through any chain of fresh runs and resumes |
| RunConfigurations.DryCheckpointStaysDry | src/migration_engine/runner/pipeline_runner.py:1290-1317 | what a dry run has saved is resumed dry by any other runner |
| RunConfigurations.ReplayLeavesTarget | src/migration_engine/runner/pipeline_runner.py:989-1102 | dry or not, the replay of completed steps writes nothing to the target |
| RunConfigurations.FreshRunConfiguration | src/migration_engine/runner/pipeline_runner.py:444-492 | every checkpoint a fresh run saves has the runner's configuration, and without one the default: no dry run, no filter, one worker, no rate |
| JobProtocol.ResumeContinuesAfter | src/migration_engine/runner/pipeline_runner.py:1182-1200 | with distinct class names a resume starts at the step right after the checkpointed one |
| JobProtocol.ResumeForgetsRetries | src/migration_engine/runner/pipeline_runner.py:1120-1158 | a resume restores the retry counters as zero, and loses nothing if and only if there was nothing to lose |
| JobProtocol.StuckRunNeverFinishes | src/migration_engine/runner/pipeline_runner.py:346-347 | a run that starts FAILED or CANCELLED stays there and never finishes |
| JobProtocol.StuckStartNeverFinishes | src/migration_engine/runner/pipeline_runner.py:346-347 | so does a fresh run of a runner whose initial state is one of them |
| JobProtocol.FailedCheckpointCannotFinish | src/application/use_cases/resume_migration.py:78-93 | the resume checks accept a FAILED checkpoint, but no run from it can finish |
| RunnerProtocol.RunStaysOnTrail | src/migration_engine/runner/pipeline_runner.py:141-347 | from a healthy start a run keeps the checkpoint at the last save, ends in COMPLETED or FAILED, and lets an exception out only after COMPLETED |
| RunnerProtocol.AttemptsAreBounded | src/migration_engine/runner/pipeline_runner.py:148-270 | a step is attempted with consecutive numbers from 1, at most as often as the policy allows |
| RunnerProtocol.CountersNeverDecrease | src/migration_engine/runner/pipeline_runner.py:773-820 | no retry counter ever decreases within a run, whatever the steps report |
| RunnerProtocol.RetriedItemsCountRetries | src/migration_engine/runner/pipeline_runner.py:738-820 | for any steps the retry count grows by at least the retries of the run, and by exactly those if and only if no custom step reports more retries than were counted when it did |
| RunnerProtocol.OverReportExists | src/migration_engine/runner/pipeline_runner.py:773-820 | the failing case exists: a custom step that reports a retry of its own makes the count exceed the retries |
| RunnerProtocol.QuietRunsCountRetries | src/migration_engine/runner/pipeline_runner.py:738-820 | the count is exact whenever no step reports more retries than the run starts with |
| RetryCounts.RetriedExactlyWhen | src/migration_engine/runner/pipeline_runner.py:708-736 | an attempt is retried if and only if it failed, there is a policy that retries, attempts are left, and the classifier, or without one a wish to wait, makes the failure retryable |
| RetryCounts.NeverRetried | src/migration_engine/runner/pipeline_runner.py:708-736 | without a policy, or under one that does not retry, a step is attempted once |
| RetryCounts.FixedSleeps | src/migration_engine/retry/retry_policy.py:129-130 | under a fixed delay each sleep of a step is that delay, or longer exactly when the failure before it asked for longer |
| RetryCounts.StepCountsItsFailures | src/migration_engine/runner/pipeline_runner.py:738-771 | over the attempts of a migration step the counters grow by exactly its retries, and by the retried failures with status 429, with status 503, and with a positive wish to wait |
| RetryCounts.MergedCountersAreLeast | src/migration_engine/runner/pipeline_runner.py:773-820 | merging what a custom step reports with what was counted gives the least counters above both |
| RetryCounts.FailedStepTells | src/migration_engine/runner/pipeline_runner.py:281-288 | a step that fails was attempted without gap, each time from the context it was given; its audit entry is built from that context and tells its name, the number of attempts, and whether a policy was there and judged the last failure retryable |
| RunHistory.RunExecutesItsSuffix | src/migration_engine/runner/pipeline_runner.py:141-344 | a run completes exactly the steps from its start to where it ends, and a failed run rolls back the failing step and then its completed steps, latest first |
| RunHistory.RollbackOrder | src/migration_engine/runner/pipeline_runner.py:693-706 | rollback visits the failing step first and then the completed ones in reverse |
| RunHistory.RetryRecordsAreNumbered | src/migration_engine/runner/pipeline_runner.py:822-850 | the records a step leaves are numbered 1, 2, 3, ... without gap, carry the message of that attempt's failure, and are fewer than the allowed attempts |
| RunHistory.SleepsFollowThePolicy | src/migration_engine/runner/pipeline_runner.py:708-736 | the k-th sleep of a step follows a retryable failure of attempt k and is the longer of the policy's delay for attempt k and the wait that same failure asked for |
| RunHistory.FailureIsTheRaisedOne | src/migration_engine/runner/pipeline_runner.py:230-233 | the failure of an attempt is the one its circumstances raise, or the one for a missing input |
| RunHistory.RaisingAttemptLeaves | src/migration_engine/runner/pipeline_runner.py:167-230 | raised before the body an attempt changes nothing, inside it what the body had done remains, and after it all of that |
| RunHistory.RaisingAttemptSaves | src/migration_engine/runner/pipeline_runner.py:902-910 | a raising attempt leaves a checkpoint if and only if it raises after that was stored |
| RunHistory.LoopReachesAttempt | src/migration_engine/runner/pipeline_runner.py:148-270 | as long as attempts are retried, the loop goes through the states those failures start from |
| RunHistory.LifecycleNeverGoesBack | src/migration_engine/runner/pipeline_runner.py:143-146 | the lifecycle states a fresh run visits never go back in canonical order and end in COMPLETED or FAILED |
| RunHistory.EscapesExactlyAfterCompleted | src/migration_engine/runner/pipeline_runner.py:272-275 | a failure that is not retried leaves the runner as an exception if and only if the machine was cancelled before the attempt or completed by it; in general, if it is terminal and not FAILED |
| RunHistory.FailedFinalSaveEscapes | src/migration_engine/runner/pipeline_runner.py:226-275 | such failures exist: saving the checkpoint of the final step fails |
| Runner.FailureBreakdown | src/migration_engine/runner/pipeline_runner.py:281-288 | the audit of a failed run is never empty |
| PipelineRunners.PipelineRunner.constructor | src/migration_engine/runner/pipeline_runner.py:54-95 | a new runner has the registered steps in execution order, no metrics and a CREATED machine |
| PipelineRunners.PipelineRunner.RunAttempt | src/migration_engine/runner/pipeline_runner.py:167-229 | one attempt changes world, machine, counters, repositories and history as specified, wherever it raises |
| PipelineRunners.PipelineRunner.TakeTurn | src/migration_engine/runner/pipeline_runner.py:230-287 | after a failed attempt the step is retried, failed or escapes as specified |
| PipelineRunners.PipelineRunner.LoopTurns | src/migration_engine/runner/pipeline_runner.py:148-270 | the inner loop is the retry loop and ends within the allowed attempts |
| PipelineRunners.PipelineRunner.RollbackSteps | src/migration_engine/runner/pipeline_runner.py:693-706 | the rollback loop calls the steps in the specified order |
| PipelineRunners.PipelineRunner.LoopSteps | src/migration_engine/runner/pipeline_runner.py:141-347 | the outer loop and the final transition are the step loop |
| PipelineRunners.PipelineRunner.Run | src/migration_engine/runner/pipeline_runner.py:110-401 | a fresh run of the object is the specified fresh run |
| PipelineRunners.PipelineRunner.LoopReplays | src/migration_engine/runner/pipeline_runner.py:989-1102 | the replay loop rebuilds the completed steps in order and stops at the first that raises |
| PipelineRunners.PipelineRunner.Restore | src/migration_engine/runner/pipeline_runner.py:927-981 | the state restored from a checkpoint |
| PipelineRunners.PipelineRunner.Resume | src/application/use_cases/resume_migration.py:38-54 | a resume of the object is the specified resume, with every rejection |
| StepExecution.StepExecutor.Complete | src/migration_engine/runner/pipeline_runner.py:532-552 | each step body, run on the shared objects, computes the specified body; the transformation uses the shared rehydrator or makes one for this call |
| StepExecution.StepExecutor.Stop | src/migration_engine/runner/pipeline_runner.py:167-230 | a body that raises leaves only what it had already done to target, cache and machine |
| StepBodies.MigrationBodiesMove | src/migration_engine/steps/finalize_migration_step.py:209-234 | the only machine movement a step body makes is finalization's advance to the end |
| StepBodies.StageReportsTell | src/migration_engine/steps/upload_items_step.py:505-552 | discovery and extraction report a complete stage, transformation, upload and verification if and only if nothing failed in them; the final status stays open |
| Repositories.InMemoryCheckpointRepository.SaveCheckpoint | src/adapters/database/in_memory_checkpoint_repository.py:29-32 | the last checkpoint of a job wins and no other job is touched |
| Repositories.InMemoryCheckpointRepository.DeleteCheckpoint | src/adapters/database/in_memory_checkpoint_repository.py:39-42 | the job's checkpoint is forgotten and no other job is touched |
| Repositories.InMemoryCheckpointRepository.CheckpointExists | src/adapters/database/in_memory_checkpoint_repository.py:44-47 | a checkpoint exists exactly when loading finds one |
| Repositories.InMemoryRetryRepository.Save | src/adapters/database/in_memory_retry_repository.py:25-36 | records are appended to their job's list in order |
| Repositories.InMemoryRetryRepository.ListForJob | src/adapters/database/in_memory_retry_repository.py:38-41 | the records of a job in save order |
| Uploads.ExactlyOnce | src/migration_engine/steps/upload_items_step.py:85-195 | after any number of failed attempts, interleaved and cut off anywhere, the attempt that succeeds leaves the target and the batch of one clean attempt, item results differing in the replay flag only |
| Uploads.InterruptedOutcome | src/migration_engine/steps/upload_items_step.py:289-323 | after an interruption each document gets the result it would have got; a success is a replay exactly when the document was stored |
| Uploads.SecondUploadReplays | src/adapters/target/mock_storionx_target_adapter.py:99-116 | uploading a batch again changes nothing and reports every accepted document as a replay |
| Uploads.ReconstructionIsExact | src/migration_engine/steps/upload_items_step.py:325-342 | rebuilding the upload lists agrees with the upload if and only if the target held no retrievable document under a key it turns down |
| Uploads.ConflictIsReconstructedAsUploaded | src/migration_engine/steps/upload_items_step.py:325-342 | the failing case exists: a conflicting document over any stored one is rebuilt as uploaded |
| Uploads.EmissionMeaning | src/migration_engine/steps/upload_items_step.py:155-182 | emission sorts the distinct documents by outcome in order, and uploaded, failed and skipped add up to the batch |
| AuditTrails.ItemResultsFollowDocuments | src/migration_engine/steps/upload_items_step.py:155-182 | each document has its item result at its own place: the first of an identifier what the target says of it as if it came first, a later one that it was skipped as a duplicate |
| FinalCounts.UploadedIdsAreIdentifiers | src/migration_engine/steps/upload_items_step.py:180-182 | the uploaded identifiers are those of the uploaded documents |
| Uploads.UniqueHasDistinctKeys | src/migration_engine/steps/upload_items_step.py:112-117 | deduplication keeps each source identifier exactly once |
| Uploads.DropDuplicates | src/migration_engine/steps/upload_items_step.py:104-117 | the deduplication loop |
| Uploads.UploadConcurrently | src/migration_engine/steps/upload_items_step.py:119-131 | under every worker schedule the fan-out leaves the target and the ordered results of the sequential loop |
| Uploads.SingleWorkerStopsInOrder | src/migration_engine/steps/upload_items_step.py:140-148 | with a single worker an attempt that raises has uploaded a first part of the distinct documents, in order |
| Uploads.UploadInOrder | src/migration_engine/steps/upload_items_step.py:140-148 | the sequential loop: target, results and session |
| Targets.SessionHoldsNewDocuments | src/adapters/target/mock_storionx_target_adapter.py:118-126 | a sequential upload adds to the session the stored forms of the documents that are new to the target, in order and each once |
| Uploads.EmitAll | src/migration_engine/steps/upload_items_step.py:155-182 | the emission loop |
| Uploads.RunUpload | src/migration_engine/steps/upload_items_step.py:85-195 | the whole step: its batch, the target it leaves, what remains when it raises, and the session it completes, in dry runs too, or leaves alone when nothing is to be written |
| Targets.ScheduleIndependence | src/migration_engine/steps/upload_items_step.py:119-139 | for every interleaving of lookups and stores the final target and results equal the sequential ones |
| Targets.AnyScheduleInterrupts | src/migration_engine/steps/upload_items_step.py:119-139 | stopping the workers anywhere leaves each document absent, half stored or stored, and touches no other key |
| Targets.RepetitionCompletes | src/adapters/target/mock_storionx_target_adapter.py:98-130 | completing an interrupted batch gives what one clean batch gives |
| Targets.UploadResultsAreIndependent | src/adapters/target/mock_storionx_target_adapter.py:98-130 | with distinct keys each document is judged as if it came first |
| Targets.CompleteStaysComplete | src/adapters/target/mock_storionx_target_adapter.py:98-130 | interrupting a batch that is complete already changes nothing |
| Targets.TargetAdapter.UploadArchivedFile | src/adapters/target/mock_storionx_target_adapter.py:86-130 | a new key stores, the same document replays, a different one conflicts and stores nothing |
| Targets.TargetAdapter.GetUploadedDocument | src/adapters/target/mock_storionx_target_adapter.py:132-139 | a document is retrieved only when its key is stored |
| Targets.StoredAlikeExactlyWhen | src/adapters/target/mock_storionx_target_adapter.py:198-255 | two documents are stored alike if and only if they agree in all that the stored form keeps: everything but archive name, subject, recipients, attachment lists and the mailbox address itself, and journal metadata as text |
| Targets.JournalTextIsAmbiguous | src/adapters/target/mock_storionx_target_adapter.py:250-253 | different journal metadata can be stored alike |
| Targets.PlainJournalsReadApart | src/adapters/target/mock_storionx_target_adapter.py:250-253 | among pairs whose keys hold no equals sign and that hold no semicolon, metadata that are stored alike are the same |
| Targets.ConflictsExactlyWhen | src/adapters/target/mock_storionx_target_adapter.py:98-109 | a second upload under a stored document's key conflicts if and only if the two differ in what the stored form keeps |
| AuditTrails.ResultNamesItsReason | src/adapters/target/mock_storionx_target_adapter.py:98-130 | a result that is no success names its reason: the target's refusal, or the stored and the received checksum of a conflict; a success names the identifier and no reason |
| Targets.TargetAdapter.FinalizeJob | src/adapters/target/mock_storionx_target_adapter.py:141-150 | an existing upload session is marked completed; without one nothing happens |
| Verifications.VerificationMeaning | src/migration_engine/steps/verify_items_step.py:84-107 | every uploaded document is verified or failed, and the failure lists name, in order, those that are missing, that differ in checksum, and that differ in one of the twenty metadata fields |
| Verifications.SignatureMeaning | src/migration_engine/steps/verify_items_step.py:223-247 | the signatures the loop compares agree if and only if the documents agree in each of the twenty fields, named one by one |
| Verifications.UploadedDocumentsVerify | src/migration_engine/steps/verify_items_step.py:84-107 | whatever the upload reports as uploaded reads back with the same checksum and signature |
| Verifications.RunVerification | src/migration_engine/steps/verify_items_step.py:72-107 | the verification loop computes those lists from what the target returns, and nothing in a dry run |
| Finalization.ReconciliationIsExact | src/migration_engine/steps/finalize_migration_step.py:672-702 | a run that writes is reconciled if and only if identifiers are distinct, every upload succeeded and every document verified |
| Finalization.DryReconciliationIsExact | src/migration_engine/steps/finalize_migration_step.py:672-702 | a dry run is reconciled if and only if identifiers are distinct |
| Finalization.UploadsAreBounded | src/migration_engine/steps/finalize_migration_step.py:599-623 | new uploads plus replays are the uploaded documents and never exceed what was expected (FinalCounts tells the two apart) |
| FinalCounts.AttemptCounts | src/migration_engine/steps/finalize_migration_step.py:599-634 | an upload that writes counts as new the distinct documents whose identifier the target neither refuses nor holds, and as replays those it holds in the same form |
| FinalCounts.ReplayCounts | src/migration_engine/steps/upload_items_step.py:325-342 | a replay of the upload counts as new the distinct documents it finds in the target, and no replay |
| FinalCounts.DryCounts | src/migration_engine/steps/finalize_migration_step.py:625-634 | a dry upload counts every distinct document as a dry-run item, and nothing else |
| Finalization.SnapshotConserves | src/migration_engine/steps/finalize_migration_step.py:374-415 | extracted total is verified plus skipped plus failed, in dry runs too |
| Finalization.PartialSnapshotConserves | src/migration_engine/steps/finalize_migration_step.py:725-792 | whichever stages a pipeline has, without a gap, the snapshot of their results conserves items |
| Finalization.MetricsConserveExactlyWhen | src/migration_engine/steps/finalize_migration_step.py:417-503 | the final metrics obey the same law if and only if the run writes or no item failed transformation |
| Finalization.DryRunLosesItsFailure | src/migration_engine/steps/finalize_migration_step.py:417-503 | the failing case exists: a dry run whose one item fails counts one item and accounts for none |
| Finalization.BreakdownIsComplete | src/migration_engine/reporting/error_breakdown.py:22-56 | the audit has one entry for each failed item, and its length is the failed-item count |
| Finalization.MissingAmongMeaning | src/migration_engine/steps/finalize_migration_step.py:636-670 | the missing items are exactly the affected identifiers, each once |
| ExactReports.MissingInOrder | src/migration_engine/steps/finalize_migration_step.py:636-670 | where nothing is missing in the target they are the failed uploads, in the order of the distinct documents |
| Finalization.MergedWarningsMeaning | src/migration_engine/steps/finalize_migration_step.py:505-598 | merging keeps the earlier warnings first and adds exactly the new ones that are not among them |
| Finalization.FailedExecutionReportsFailure | src/migration_engine/steps/finalize_migration_step.py:182-234 | finalizing on a failed machine reports failure, whatever the stages left |
| Finalization.CompletedIsSound | src/migration_engine/reporting/report_summary.py:22-40 | "completed" over step-produced results means nothing failed, nothing was warned about and every document verifies |
| Finalization.CompletedMeans | src/migration_engine/reporting/report_summary.py:22-40 | "completed" needs a reconciled run without warnings or dry-run results |
| Finalization.ResolveMissingItems | src/migration_engine/steps/finalize_migration_step.py:636-670 | the loop over the documents |
| Finalization.CollectWarnings | src/migration_engine/steps/finalize_migration_step.py:236-270 | the warnings, appended case by case |
| Finalization.AdvanceStateMachine | src/migration_engine/steps/finalize_migration_step.py:209-234 | the machine is advanced to its terminal state |
| Finalization.RunFinalization | src/migration_engine/steps/finalize_migration_step.py:61-163 | the step on the state machine and the context; what it reports is exact by the results above |
| ErrorBreakdowns.VerificationEntriesMeaning | src/migration_engine/reporting/error_breakdown.py:123-229 | one entry for each failed document, its message by the precedence missing, checksum, metadata, its code always the general one |
| AuditTrails.TransformationEntriesMeaning | src/migration_engine/reporting/error_breakdown.py:59-89 | each failed transformation has, in order, an entry of its own stage, code and message, not retryable and about one attempt, with the kind of the first extracted item of its identifier and the archive that holds it first |
| AuditTrails.UploadEntriesMeaning | src/migration_engine/reporting/error_breakdown.py:92-120 | so has each failed upload, told from its document |
| AuditTrails.VerificationEntryNamesItsDocument | src/migration_engine/reporting/error_breakdown.py:123-179 | so has each document that failed verification |
| AuditTrails.PipelineEntryMeaning | src/migration_engine/reporting/error_breakdown.py:182-209 | where no item failed the one entry names the step, its attempts and whether its failure was retryable |
| ErrorBreakdowns.FailureBreakdownIsNeverEmpty | src/migration_engine/reporting/error_breakdown.py:22-56 | with a failed step the audit is never empty, and the step is mentioned only when no item failed |
| ErrorBreakdowns.VerificationIsConsistent | src/migration_engine/steps/verify_items_step.py:84-107 | verification of distinct documents produces consistent failure lists |
| ErrorBreakdowns.RecordList | src/migration_engine/reporting/error_breakdown.py:138-160 | the recording loop over one list |
| ErrorBreakdowns.BuildVerificationEntries | src/migration_engine/reporting/error_breakdown.py:123-179 | the entry builder |
| ErrorBreakdowns.BuildBreakdown | src/migration_engine/reporting/error_breakdown.py:22-56 | the whole audit |
| Extractions.ExtractionIsAFilter | src/migration_engine/steps/extract_items_step.py:118-155 | the nested loops extract exactly the wanted items of supported archives in scope, in order, with one warning for each unsupported archive that names its kind |
| SourceScopes.ExtractedFromSourceExactlyWhen | src/migration_engine/steps/extract_items_step.py:495-523 | an item is extracted if and only if it is an item of a supported, allowed archive of a vault store that no later store of its name hides, lies in a selected folder, component by component, and was sent within the dates, both included |
| SourceScopes.ExtractedExactlyWhen | src/migration_engine/steps/extract_items_step.py:118-155 | the same for any discovery result |
| SourceScopes.WantedExactlyWhen | src/migration_engine/steps/extract_items_step.py:495-523 | the item filter keeps exactly the items of selected folders sent within the dates |
| SourceScopes.WalkedExactlyWhen | src/migration_engine/steps/extract_items_step.py:289-303 | a vault store is walked if and only if it is the last one of its name |
| SourceScopes.EveryStoreIsWalkedExactlyWhen | src/migration_engine/steps/extract_items_step.py:289-303 | the walk covers the given stores, each once, if and only if no two different ones share a name |
| SourceScopes.SharedStoreNameHidesAStore | src/migration_engine/steps/extract_items_step.py:289-303 | the failing case exists: of two stores of one name the second is walked twice and the first never |
| SourceScopes.DiscoveredNames | src/migration_engine/steps/discover_archives_step.py:66-86 | the name of an archive of the source is discovered if and only if the configuration allows it |
| SourceScopes.ExtractedMailboxes | src/migration_engine/steps/extract_items_step.py:119-140 | the reported mailboxes are those of the supported archives in scope, in order |
| Extractions.ExtractedPlusFilteredIsAll | src/migration_engine/steps/extract_items_step.py:118-160 | extracted plus filtered items are all items of the supported archives in scope |
| Extractions.SelectionIsIdempotent | src/migration_engine/steps/extract_items_step.py:289-303 | selecting the stores a second time changes nothing |
| Extractions.ExtractFromStore | src/migration_engine/steps/extract_items_step.py:119-155 | the loop over the archives of one store |
| Extractions.RunExtraction | src/migration_engine/steps/extract_items_step.py:77-160 | the extraction step |
| Transformations.ExtractedItemsHaveContext | src/migration_engine/steps/transform_items_step.py:334-359 | every extracted item has a context among the stores the transformation selects |
| DocumentContents.ContextIsFirstHolder | src/migration_engine/steps/transform_items_step.py:334-359 | that context is the first archive, in order, that holds the identifier, with the first mailbox in it that does, or none when only a journal does |
| Transformations.TransformationFollowsRehydration | src/migration_engine/steps/transform_items_step.py:103-135 | the loop never raises on extracted items, and rehydration decides item by item and in order what it produces |
| Transformations.TransformedPlusFailed | src/migration_engine/steps/transform_items_step.py:103-135 | transformed plus failed is extracted |
| Transformations.ConverterCarriesIdentifiers | src/migration_engine/steps/transform_items_step.py:388-396 | a document's identifier and checksum are the item's identifier |
| Transformations.DocumentsCarryIdentifiers | src/migration_engine/steps/transform_items_step.py:388-396 | each accepted item has a document with its identifier as identifier and checksum |
| DocumentContents.DocumentsCarryItems | src/migration_engine/steps/transform_items_step.py:361-420 | every document of a batch carries an accepted item field by field, with archive and mailbox of its first holder, and every accepted item has such a document |
| DocumentContents.FirstAcceptedIsKept | src/migration_engine/steps/upload_items_step.py:104-117 | of several accepted items with one identifier the document of the first is the one that is uploaded |
| DocumentContents.DepartmentIsFirstDomainLabel | src/migration_engine/steps/transform_items_step.py:438-457 | the department for an address a@b.c, or a@b, is b in title case |
| DocumentContents.DepartmentWithoutDomain | src/migration_engine/steps/transform_items_step.py:438-457 | without a mailbox it tells the kind of archive, and without an @ it is unknown |
| DocumentContents.SizesAddUp | src/migration_engine/steps/transform_items_step.py:373-377 | the size of a document adds up the sizes of all attachments |
| Transformations.TransformItems | src/migration_engine/steps/transform_items_step.py:103-135 | the transformation loop over the rehydrator |
| Rehydration.CachedAcceptsWhatUncachedAccepts | src/migration_engine/rehydration/sis_rehydrator.py:77-192 | when part identifiers determine parts, the cached service accepts exactly the items whose parts are all valid |
| Rehydration.AcceptedExactlyWhen | src/migration_engine/rehydration/sis_rehydrator.py:122-140 | an item is accepted if and only if its parts are valid and clash neither with the cache nor with each other |
| Rehydration.HistoryInvariant | src/migration_engine/rehydration/sis_rehydrator.py:122-177 | over any history cached parts are valid and accepted items consist of valid parts |
| Rehydration.HistoryCounts | src/migration_engine/rehydration/sis_rehydrator.py:77-140 | misses are the cache size, items plus failures are the calls, bytes are what the accepted items add up to |
| Rehydration.CallTells | src/migration_engine/rehydration/sis_rehydrator.py:122-177 | a call resolves the item's parts up to the first that is rejected, counting each as one hit or miss, and its error tells what is wrong with the part that follows |
| Rehydration.HistoryReplayed | src/migration_engine/rehydration/sis_rehydrator.py:77-192 | running a history again over a cache that has seen part of it gives the same verdicts and the same cache |
| Rehydration.SisRehydrator.ResolveContentPart | src/migration_engine/rehydration/sis_rehydrator.py:122-140 | one part: the cached one on a hit, an error on a mismatch, and otherwise validated, cached and returned |
| Rehydration.HistoryContents | src/migration_engine/rehydration/sis_rehydrator.py:77-140 | over any history, from any cache, what a successful call joins from resolved parts, cached ones included, is the plain concatenation of the item's parts, or its body |
| Rehydration.SisRehydrator.RehydrateItem | src/migration_engine/rehydration/sis_rehydrator.py:77-120 | joins the data of the resolved parts; success returns the concatenation of the item's parts, or the body when there are none; the first error is counted and returned |
| Rehydration.ValidatePart | src/migration_engine/rehydration/sis_rehydrator.py:142-177 | no error if and only if the part is valid |
| FolderPaths.SameOrBelowIsComponentPrefix | src/migration_engine/steps/extract_items_step.py:537-549 | the comparison is component-wise for all strings: the selector's split is a prefix of the item's |
| FolderPaths.SelectionIsComponentWise | src/migration_engine/steps/extract_items_step.py:502-515 | what the folder filter selects, in terms of components of normalised paths |
| FolderPaths.FixpointsAreNormalForms | src/migration_engine/steps/extract_items_step.py:525-535 | the fixpoints of normalisation are exactly the normal forms |
| FolderPaths.NormalizationSettles | src/migration_engine/steps/extract_items_step.py:525-535 | repeated normalisation reaches a normal form within a bound linear in the length |
| FolderPaths.NormalizationIsNotIdempotent | src/migration_engine/steps/extract_items_step.py:525-535 | inputs on which a second pass changes the result |
| FolderPaths.SpacedSettlesLater | src/migration_engine/steps/extract_items_step.py:525-535 | more generally, a normal path followed by white space and a slash loses the slash in one pass and the white space in the next |
| FolderPaths.IdempotentExactlyWhen | src/migration_engine/steps/extract_items_step.py:525-535 | a second pass changes nothing if and only if the stripped input is empty, is the root, or is more than slashes and has no white space before its trailing slashes |
| FolderPaths.SettledSelectionIsComponentWise | src/migration_engine/steps/extract_items_step.py:502-515 | a selected path of that kind selects exactly the items whose normalised components start with its own |
| FolderPaths.SelectionNormalizesOnceExactlyWhen | src/migration_engine/steps/extract_items_step.py:502-515 | that holds for all items if and only if the selected path is of that kind |
| FolderPaths.RootSelectsAlmostNothing | src/migration_engine/steps/extract_items_step.py:547-549 | selecting the root selects only the root itself and paths that keep two leading slashes |
| FolderPaths.RootSelectsNoSubfolder | src/migration_engine/steps/extract_items_step.py:547-549 | in particular the root does not select the folder /a |
| RateLimiter.SlotsAreSpaced | src/mock_storionx/services/upload_rate_limiter.py:34-49 | for every interleaving of clock reads and lock acquisitions, whatever the clock returns, granted slots are at least one interval apart |
| RateLimiter.WindowBound | src/mock_storionx/services/upload_rate_limiter.py:34-49 | a window of width W holds at most floor(W / interval) + 1 granted slots |
| RateLimiter.BurstDelays | src/mock_storionx/services/upload_rate_limiter.py:40-49 | n calls at one instant on an idle limiter wait 0, 1, 2, ..., n - 1 intervals |
| RateLimiter.ExactRetryIsRefusedForever | src/mock_storionx/services/upload_rate_limiter.py:40-49 | a caller that returns exactly after each delay is refused by exactly one interval forever |
| RateLimiter.AdmittedExactlyAfterOneMoreInterval | src/mock_storionx/services/upload_rate_limiter.py:40-49 | a refused caller is admitted if and only if it waits at least one interval more than told |
| RateLimiter.FrozenClockBatchIsRefused | src/mock_storionx/services/upload_rate_limiter.py:40-49 | two calls at the same instant: one of them is refused, whatever happened before |
| RateLimiter.UploadRateLimiter.Create | src/mock_storionx/services/upload_rate_limiter.py:27-32 | a limiter exists exactly for an absent or positive rate |
| RateLimiter.UploadRateLimiter.AcquireDelaySeconds | src/mock_storionx/services/upload_rate_limiter.py:34-49 | one call under the lock with a clock reading taken before it |
| RetryPolicies.Decide | src/migration_engine/retry/retry_policy.py:87-118 | a retry is granted if and only if the failure is retryable, the strategy retries and attempts are left; what remains is the maximum less the attempts made, and never negative |
| RetryPolicies.BackoffBounds | src/migration_engine/retry/retry_policy.py:120-136 | exponential delays lie between the initial and the maximum backoff |
| RetryPolicies.BackoffNeverShrinks | src/migration_engine/retry/retry_policy.py:120-136 | delays never shrink from one attempt to a later one |
| RetryPolicies.EachDelayMultiplies | src/migration_engine/retry/retry_policy.py:120-136 | exponential delays start at the initial backoff and each is the one before times the multiplier, up to the maximum |
| StepRegistries.ResolveIsStableSort | src/migration_engine/runner/step_registry.py:50-59 | resolve is a permutation in rank order that keeps registration order within a rank |
| StepRegistries.ResolveIsCanonical | src/migration_engine/runner/step_registry.py:80-83 | whatever the registration order, the migration steps come first in canonical order |
| StepRegistries.IndexOfFindsOwnPosition | src/migration_engine/runner/step_registry.py:61-68 | a lookup by a step's own name finds it if and only if no earlier step shares the name |
| StepRegistries.SharedNameHidesALaterStep | src/migration_engine/runner/step_registry.py:61-78 | two classes of one name are accepted, and the lookup then misses the second |
| StepRegistries.StepRegistry.Register | src/migration_engine/runner/step_registry.py:35-42 | a step is appended unless its class is registered already |
| StepRegistries.StepRegistry.IndexOfName | src/migration_engine/runner/step_registry.py:61-68 | the lookup loop over the resolved steps |
| StepRegistries.StepRegistry.Clear | src/migration_engine/runner/step_registry.py:70-73 | no step stays registered |
| StateMachine.MigrationStateMachine.TransitionTo | src/migration_engine/state_machine.py:43-64 | a transition is refused exactly out of a terminal state into another one, and then changes nothing |
| StateMachine.MigrationStateMachine.Reset | src/migration_engine/state_machine.py:66-70 | back to the initial state |
| Datasets.Distribute | src/mock_ev/generators/_shared.py:72-85 | errors exactly on non-positive buckets or too small a total; otherwise parts that sum to the total and differ by at most one, in some order |
| Datasets.ShuffledCountsAreEven | src/mock_ev/generators/_shared.py:80-85 | any shuffle of the initial counts is an even distribution |
| Datasets.ConsumeStreams | src/mock_ev/generators/dataset_generator.py:317-344 | the nested loops never run a stream dry, cut the streams into groups, and end at the end of every stream |
| Datasets.GroupFlattens | src/mock_ev/generators/dataset_generator.py:322-342 | grouping a count stream loses nothing, repeats nothing and keeps the order |
| Datasets.GenerateDataset | src/mock_ev/generators/dataset_generator.py:309-344 | generation succeeds if and only if 0 < stores <= archives <= mailboxes <= items <= attachments, and then the totals are the profile's |

## Left out

- JSON, CSV and summary text: string formatting over library encoders; of the reporting only the final status and the audit are modelled.
- SHA-256, UUIDs, title-casing and UTF-8: uninterpreted functions or absent; nothing is claimed about collisions.
- Workspace, identifier and timestamps of an upload session: only its documents and whether it was completed are kept, and the session is not part of the target's value in runs.
- Steps run through their legacy `execute` entry points, and `_build_step_context`: the runner never uses them for the six steps.
- Progress tracker, byte and throughput counters, worker utilisation and step counters of intermediate reports: plain records without behaviour.
- Contexts carried over into a run by `initial_context` (stage results, a preset report or final status): a fresh run starts without results.
- Absent optional collaborators (no checkpoint service, no retry repository, no sleeper): the runner is modelled with all of them.
- Exceptions raised by the retry classifier, the retry repository, the sleeper or a rollback: only attempts raise in the model.
- Archive identifier of a pipeline entry in the audit, the `resumed` flag, and the previous state of the machine in the runner's specification.
- Checkpoint fields that only feed progress display (processed items, last processed item, timestamps).
- Mock API, search, metadata and placeholder services, fixtures and random content of generated items: fixed or random data.
- Thread pool and lock internals: workers and callers are interleaved steps; the adapter's lock is weaker in the model than in the code, because lookup, store and payload write of different documents may interleave.
- Permanent refusals by a target port, which the mock adapter does not make, are kept as a map of refused keys.
- PipelineRunners.PipelineRunner.Run: each fresh run starts from a new context and machine, as on a new runner; a second `run` on one runner object, which keeps the earlier context and machine, is not modelled.
- MigrationJobs.ResumeEqualsUninterrupted: item results agree up to the replay flag and, for failed items, the error text and target, because a rebuilt upload words failures differently; warnings of failed transformations may name another reason after a retry over a filled cache.
- MigrationJobs.FinishedJobsAgree: new uploads and replays agree in their sum only, because an interrupted upload is finished by replays; FinalCounts.FinishedJobCounts says what each of the two counts.
- Targets.SessionHoldsNewDocuments: for the sequential loop only; under interleaved workers the documents join the session in the order of the schedule.
