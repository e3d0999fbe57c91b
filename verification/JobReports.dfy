/** What the final report of a finished job says, told from what the job started
    with: its source, its configuration and its target. */
module JobReports {
  import opened Prelude
  import opened Records
  import opened StepContexts
  import opened Extractions
  import opened Rehydration
  import opened Transformations
  import opened Targets
  import opened Uploads
  import opened Verifications
  import opened ErrorBreakdowns
  import opened Finalization
  import opened StepBodies
  import opened Runner
  import opened Resumption
  import opened MigrationStages
  import opened MigrationJobs

  // ----- what is delivered -----

  /** The transformed identifiers are distinct, and if the run writes, the target it
      started with accepts each document. */
  ghost predicate Deliverable(e: Expected) {
    var docs := e.transformation.documents;
    DistinctKeys(docs) && (!e.config.dryRun ==> forall d :: d in docs ==> Accepts(e.start, d))
  }

  /** In a clean upload a distinct document succeeds exactly when the target accepts it. */
  lemma SucceedsWhenAccepted(t: Target, distinctDocs: seq<TransformedDocument>, i: nat)
    requires DistinctKeys(distinctDocs) && i < |distinctDocs|
    ensures Uploads.Succeeded(ResultsByKey(distinctDocs, UploadResults(t, distinctDocs)))(distinctDocs[i])
       <==> Accepts(t, distinctDocs[i])
  {
    ResultByKey(distinctDocs, UploadResults(t, distinctDocs), i);
    UploadResultsAreIndependent(t, distinctDocs, i);
  }

  function AcceptedBy(t: Target): TransformedDocument -> bool {
    (d: TransformedDocument) => Accepts(t, d)
  }

  lemma NoneFilteredOut<T>(p: T -> bool, q: T -> bool, s: seq<T>)
    requires forall i :: 0 <= i < |s| ==> p(s[i]) == q(s[i])
    ensures |Filter(p, s)| == |s| <==> forall x :: x in s ==> q(x)
  {
    FilterAll(p, s);
    assert forall x :: x in s ==> exists i :: 0 <= i < |s| && s[i] == x;
  }

  lemma AllSucceedWhenAccepted(t: Target, docs: seq<TransformedDocument>)
    requires DistinctKeys(docs)
    ensures |Filter(Uploads.Succeeded(ResultsByKey(docs, UploadResults(t, docs))), docs)| == |docs|
       <==> forall d :: d in docs ==> AcceptedBy(t)(d)
  {
    var p := Uploads.Succeeded(ResultsByKey(docs, UploadResults(t, docs)));
    forall i | 0 <= i < |docs| ensures p(docs[i]) == AcceptedBy(t)(docs[i]) {
      SucceedsWhenAccepted(t, docs, i);
    }
    NoneFilteredOut(p, AcceptedBy(t), docs);
  }

  lemma EverythingUploadedExactlyWhen(t: Target, docs: seq<TransformedDocument>)
    ensures |CleanBatch(t, docs, false).uploaded| == |docs|
       <==> DistinctKeys(docs) && forall d :: d in docs ==> Accepts(t, d)
  {
    UniqueHasDistinctKeys(docs);
    UniqueLength(docs);
    EmissionMeaning(docs, ResultsByKey(Unique(docs), UploadResults(t, Unique(docs))));
    if DistinctKeys(docs) {
      AllSucceedWhenAccepted(t, docs);
      assert forall d :: d in docs ==> AcceptedBy(t)(d) == Accepts(t, d);
    }
  }

  /** Everything is verified if and only if identifiers are distinct and every
      document was accepted by the target as it was before the upload. */
  lemma EverythingVerifiedExactlyWhen(t: Target, docs: seq<TransformedDocument>)
    ensures |VerifyAll(FinalTarget(t, docs, false), CleanBatch(t, docs, false).uploaded).verified| == |docs|
       <==> DistinctKeys(docs) && forall d :: d in docs ==> Accepts(t, d)
  {
    EverythingUploadedExactlyWhen(t, docs);
    UploadedDocumentsVerify(t, docs);
    VerificationMeaning(FinalTarget(t, docs, false), CleanBatch(t, docs, false).uploaded);
  }

  lemma FittingUploads(plan: Plan, e: Expected, ctx: StepData)
    requires Expects(plan, e) && ContextFits(e, ExactBatch(e), 5, ctx)
    ensures ctx.upload.value.uploaded == e.batch.uploaded
    ensures ctx.upload.value.failed == e.batch.failed && ctx.upload.value.skipped == e.batch.skipped
    ensures ctx.verification.value == e.verification
  {
    var b := ctx.upload.value;
    assert BatchEssence(b).uploaded == b.uploaded && BatchEssence(e.batch).uploaded == e.batch.uploaded;
    assert BatchEssence(b).failed == b.failed && BatchEssence(e.batch).failed == e.batch.failed;
    assert BatchEssence(b).skipped == b.skipped && BatchEssence(e.batch).skipped == e.batch.skipped;
    VerificationAgrees(plan, e, b);
  }

  /** A finalization that a job may reach reconciles if and only if everything was deliverable. */
  lemma ReconciledExactlyWhenDeliverable(plan: Plan, e: Expected, ctx: StepData)
    requires Expects(plan, e) && ContextFits(e, ExactBatch(e), 5, ctx)
    ensures Reconcile(ctx, e.config).isReconciled <==> Deliverable(e)
  {
    var m := FittingIsStepProduced(plan, e, ExactBatch(e), ctx);
    if e.config.dryRun {
      DryReconciliationIsExact(ctx, e.config, m, e.target);
    } else {
      FittingUploads(plan, e, ctx);
      ReconciliationIsExact(ctx, e.config, m, e.target);
      AllVerifiedExactlyWhen(e.transformation.documents, m, e.target);
      EverythingVerifiedExactlyWhen(e.start, e.transformation.documents);
    }
  }

  // ----- the final status -----

  /** The status a finished job reports. */
  ghost function ExpectedStatus(e: Expected): FinalStatus {
    if !Deliverable(e) then FailedStatus
    else if e.config.dryRun && e.transformation.documents != [] then DryRunCompleted
    else if e.extraction.warnings != [] || e.transformation.failedItems > 0 then CompletedWithWarnings
    else CompletedStatus
  }

  /** Where finalization does not report a dry run, only transformation can have failed. */
  ghost predicate Writes(e: Expected) {
    e.config.dryRun ==> e.transformation.documents == []
  }

  lemma DeliveredLeavesNothing(plan: Plan, e: Expected)
    requires Expects(plan, e) && Deliverable(e) && Writes(e)
    ensures e.batch.failed == [] && e.batch.skipped == [] && e.verification.failed == []
  {
    var docs := e.transformation.documents;
    if e.config.dryRun {
      assert Unique(docs) == [];
    } else {
      UniqueHasDistinctKeys(docs);
      EmissionMeaning(docs, ResultsByKey(Unique(docs), UploadResults(e.start, Unique(docs))));
      EverythingUploadedExactlyWhen(e.start, docs);
      VerifiedWithoutFailure(plan, e);
    }
  }

  lemma VerifiedWithoutFailure(plan: Plan, e: Expected)
    requires Expects(plan, e)
    ensures e.verification.failed == []
  {
    UploadedDocumentsVerify(e.start, e.transformation.documents);
  }

  lemma OnlyTransformationWarns(ctx: StepData)
    requires ctx.transformation.Some? && ctx.transformation.value.skippedItems == 0
    requires ctx.upload.Some? && ctx.upload.value.failed == [] && ctx.upload.value.skipped == []
    requires ctx.verification.Some? && ctx.verification.value.failed == []
    ensures BuildWarnings(ctx) == [] <==> ctx.transformation.value.failedItems == 0
  {
    var failed := ctx.transformation.value.failedItems;
    assert SkipWarnings(ctx) == [];
    assert FailureWarnings(ctx) == WarningIf(failed > 0, FailedTransformation(failed));
  }

  lemma WarningsOfFinalization(plan: Plan, e: Expected, ctx: StepData)
    requires Expects(plan, e) && ContextFits(e, ExactBatch(e), 5, ctx) && Deliverable(e) && Writes(e)
    ensures BuildWarnings(ctx) == [] <==> e.transformation.failedItems == 0
  {
    FittingUploads(plan, e, ctx);
    DeliveredLeavesNothing(plan, e);
    TransformationAccounts(plan, e);
    OnlyTransformationWarns(ctx);
  }

  lemma FailuresWarn(plan: Plan, e: Expected)
    requires Expects(plan, e)
    ensures e.transformation.warnings == [] <==> e.transformation.failedItems == 0
  {
    ExpectedTransformation(plan, e);
    TransformedPlusFailed(plan.convert, ArchivesOf(e.stores), e.extraction.items,
                          History(plan.sha256, EMPTY_SERVICE, e.extraction.items).1);
  }

  lemma ReportWarns(plan: Plan, e: Expected, ctx: StepData)
    requires Expects(plan, e) && ContextFits(e, ExactBatch(e), 5, ctx) && Deliverable(e) && Writes(e)
    ensures FinalReport(ctx, e.config, false).warnings == []
       <==> e.extraction.warnings == [] && e.transformation.failedItems == 0
  {
    WarningsOfFinalization(plan, e, ctx);
    FailuresWarn(plan, e);
    MergedWarnings(ctx.report.value.warnings, BuildWarnings(ctx));
  }

  /** What the counters of the final report add to its warnings. */
  lemma CountersOfReport(plan: Plan, e: Expected, ctx: StepData)
    requires Expects(plan, e) && ContextFits(e, ExactBatch(e), 5, ctx)
    ensures var metrics := FinalMetrics(ctx, e.config, Reconcile(ctx, e.config));
            && metrics.retriedItems == 0
            && metrics.dryRunItems == (if e.config.dryRun then |Unique(e.transformation.documents)| else 0)
            && (e.config.dryRun ==>
                  metrics.uploadedItems == 0 && metrics.failedItems == 0 && metrics.verificationFailures == 0)
            && (!e.config.dryRun ==> metrics.failedItems == FailedItems(ctx)
                                     && metrics.verificationFailures == |e.verification.failed|)
  {
    ModesAgree(e, ExactBatch(e), ctx);
    CountsOfFitting(e, ExactBatch(e), ctx);
    FittingUploads(plan, e, ctx);
  }

  /** A report without dry-run items or verification failures warns of little. */
  lemma PlainReportWarns(r: Report)
    requires r.metrics.Some? && r.metrics.value.dryRunItems == 0 && r.metrics.value.retriedItems == 0
    requires r.metrics.value.verificationFailures == 0
    ensures !IsDryRunCompleted(r)
    ensures HasWarnings(r) <==> r.warnings != [] || r.metrics.value.failedItems > 0
  {
  }

  lemma CountersOfDelivered(plan: Plan, e: Expected, ctx: StepData)
    requires Expects(plan, e) && ContextFits(e, ExactBatch(e), 5, ctx) && Deliverable(e) && Writes(e)
    ensures var metrics := FinalMetrics(ctx, e.config, Reconcile(ctx, e.config));
            && metrics.dryRunItems == 0 && metrics.retriedItems == 0 && metrics.verificationFailures == 0
            && (metrics.failedItems > 0 ==> e.transformation.failedItems > 0)
  {
    CountersOfReport(plan, e, ctx);
    DeliveredLeavesNothing(plan, e);
    FittingUploads(plan, e, ctx);
    assert Unique([]) == [];
  }

  lemma CountersWarn(plan: Plan, e: Expected, ctx: StepData)
    requires Expects(plan, e) && ContextFits(e, ExactBatch(e), 5, ctx) && Deliverable(e) && Writes(e)
    ensures var report := FinalReport(ctx, e.config, false);
            !IsDryRunCompleted(report)
            && (HasWarnings(report) <==> report.warnings != [] || report.metrics.value.failedItems > 0)
            && (report.metrics.value.failedItems > 0 ==> e.transformation.failedItems > 0)
  {
    CountersOfDelivered(plan, e, ctx);
    PlainReportWarns(FinalReport(ctx, e.config, false));
  }

  lemma DryRunIsReported(plan: Plan, e: Expected, ctx: StepData)
    requires Expects(plan, e) && ContextFits(e, ExactBatch(e), 5, ctx) && Deliverable(e) && !Writes(e)
    ensures IsDryRunCompleted(FinalReport(ctx, e.config, false))
  {
    CountersOfReport(plan, e, ctx);
    UniqueLength(e.transformation.documents);
  }

  /** Finalization resolves the status from its report, which carries none before. */
  lemma StatusOfReport(e: Expected, ctx: StepData)
    requires EarlyReport(ctx.report)
    ensures var report := FinalReport(ctx, e.config, false);
            report.finalStatus
            == Some(if !Reconcile(ctx, e.config).isReconciled then FailedStatus
                    else if IsDryRunCompleted(report) then DryRunCompleted
                    else if HasWarnings(report) then CompletedWithWarnings
                    else CompletedStatus)
  {
  }

  /** Finalization gives the expected status. */
  lemma StatusOfFinalization(plan: Plan, e: Expected, ctx: StepData)
    requires Expects(plan, e) && ContextFits(e, ExactBatch(e), 5, ctx)
    ensures FinalReport(ctx, e.config, false).finalStatus == Some(ExpectedStatus(e))
  {
    StatusOfReport(e, ctx);
    ReconciledExactlyWhenDeliverable(plan, e, ctx);
    if Deliverable(e) {
      DeliveredStatus(plan, e, ctx);
    }
  }

  lemma DeliveredStatus(plan: Plan, e: Expected, ctx: StepData)
    requires Expects(plan, e) && ContextFits(e, ExactBatch(e), 5, ctx) && Deliverable(e)
    ensures var report := FinalReport(ctx, e.config, false);
            && (IsDryRunCompleted(report) <==> !Writes(e))
            && (Writes(e) ==> (HasWarnings(report)
                               <==> e.extraction.warnings != [] || e.transformation.failedItems > 0))
  {
    if Writes(e) {
      ReportWarns(plan, e, ctx);
      CountersWarn(plan, e, ctx);
    } else {
      DryRunIsReported(plan, e, ctx);
    }
  }

  // ----- every finished job -----

  /** Every extracted item is accounted for, and the audit has one entry for each item
      that failed. */
  ghost predicate Accounts(e: Expected, outcome: Outcome) {
    var snapshot, metrics := outcome.snapshot, outcome.metrics;
    && snapshot.totalItems == |e.extraction.items|
    && snapshot.totalItems == snapshot.successfulItems + snapshot.failedItems + snapshot.skippedItems
    && |outcome.breakdown| == snapshot.failedItems
    && (metrics.totalItems == metrics.successfulItems + metrics.failedItems + metrics.skippedItems
        <==> !e.config.dryRun || e.transformation.failedItems == 0)
  }

  /** The status and the verdict are decided by what the job started with. */
  ghost predicate ReportsAsExpected(e: Expected, outcome: Outcome) {
    && outcome.report.finalStatus == Some(ExpectedStatus(e))
    && outcome.report.reconciliation.Some?
    && (outcome.report.reconciliation.value.isReconciled <==> Deliverable(e))
  }

  /** A reconciled job has distinct documents, and if it writes, the target holds each. */
  ghost predicate ReconcilesSoundly(e: Expected, outcome: Outcome) {
    outcome.report.reconciliation.Some? && outcome.report.reconciliation.value.isReconciled ==>
      var docs := e.transformation.documents;
      DistinctKeys(docs) && (!e.config.dryRun ==> forall d :: d in docs ==> Verified(e.target)(d))
  }

  lemma FinalizationAccounts(plan: Plan, e: Expected, allowed: Allowed, ctx: StepData)
    requires Expects(plan, e) && ContextFits(e, allowed, 5, ctx)
    ensures Accounts(e, Finalize(ctx, e.config, false).outcome.value)
  {
    var m := FittingIsStepProduced(plan, e, allowed, ctx);
    SnapshotConserves(ctx, e.config, m, e.target);
    MetricsConserveExactlyWhen(ctx, e.config, m, e.target);
    BreakdownIsComplete(ctx, e.config, m, e.target, FinalReport(ctx, e.config, false).finalStatus.value);
  }

  lemma FinalizationReconcilesSoundly(plan: Plan, e: Expected, allowed: Allowed, ctx: StepData)
    requires Expects(plan, e) && ContextFits(e, allowed, 5, ctx)
    ensures ReconcilesSoundly(e, Finalize(ctx, e.config, false).outcome.value)
  {
    var m := FittingIsStepProduced(plan, e, allowed, ctx);
    if e.config.dryRun {
      DryReconciliationIsExact(ctx, e.config, m, e.target);
    } else {
      ReconciliationIsExact(ctx, e.config, m, e.target);
    }
  }

  lemma FinalizationReportsAsExpected(plan: Plan, e: Expected, ctx: StepData)
    requires Expects(plan, e) && ContextFits(e, ExactBatch(e), 5, ctx)
    ensures ReportsAsExpected(e, Finalize(ctx, e.config, false).outcome.value)
  {
    StatusOfFinalization(plan, e, ctx);
    ReconciledExactlyWhenDeliverable(plan, e, ctx);
  }

  lemma FinishedAccounts(plan: Plan, e: Expected, allowed: Allowed, ctx: StepData)
    requires Expects(plan, e) && Finalized(e, allowed, ctx)
    ensures ctx.outcome.Some? && Accounts(e, ctx.outcome.value) && ReconcilesSoundly(e, ctx.outcome.value)
  {
    var before :| ContextFits(e, allowed, 5, before) && ctx.outcome == Finalize(before, e.config, false).outcome;
    FinalizationAccounts(plan, e, allowed, before);
    FinalizationReconcilesSoundly(plan, e, allowed, before);
  }

  lemma FinishedReportsAsExpected(plan: Plan, e: Expected, ctx: StepData)
    requires Expects(plan, e) && Finalized(e, ExactBatch(e), ctx)
    ensures ctx.outcome.Some? && ReportsAsExpected(e, ctx.outcome.value)
  {
    var before :| ContextFits(e, ExactBatch(e), 5, before) && ctx.outcome == Finalize(before, e.config, false).outcome;
    FinalizationReportsAsExpected(plan, e, before);
  }

  /** From any target, however often a job failed and was resumed: if it finishes, its
      report accounts for every item, and reconciled means delivered. */
  lemma FinishedJobAccounts(plan: Plan, env: Env, e: Expected, launches: seq<Launch>, s: RunnerState)
    requires MigrationJob(plan, env, e) && BeforeJob(env, e, s) && launches != []
    ensures var (after, end) := RunJob(env, launches, s);
            end.Finished? ==>
              && after.world.ctx.outcome.Some?
              && Accounts(e, after.world.ctx.outcome.value)
              && ReconcilesSoundly(e, after.world.ctx.outcome.value)
  {
    JobFinishesAs(plan, env, e, None, launches, s);
    if RunJob(env, launches, s).1.Finished? {
      FinishedAccounts(plan, e, None, RunJob(env, launches, s).0.world.ctx);
    }
  }

  /** From a transparent target its status and verdict are the expected ones, too. */
  lemma FinishedJobReportsExactly(plan: Plan, env: Env, e: Expected, launches: seq<Launch>, s: RunnerState)
    requires MigrationJob(plan, env, e) && Transparent(e) && BeforeJob(env, e, s) && launches != []
    ensures var (after, end) := RunJob(env, launches, s);
            end.Finished? ==> after.world.ctx.outcome.Some? && ReportsAsExpected(e, after.world.ctx.outcome.value)
  {
    ResumeEqualsUninterrupted(plan, env, e, launches, s);
    if RunJob(env, launches, s).1.Finished? {
      FinishedReportsAsExpected(plan, e, RunJob(env, launches, s).0.world.ctx);
    }
  }

  /** Where everything is deliverable the target is transparent. */
  lemma DeliverableIsTransparent(e: Expected)
    requires Deliverable(e)
    ensures Transparent(e)
  {
    UniqueLength(e.transformation.documents);
  }

  /** And from any target they are those of a run in which nothing raises. */
  lemma UninterruptedRunReportsExactly(plan: Plan, env: Env, e: Expected, oracle: Oracle, s: RunnerState)
    requires MigrationJob(plan, env, e) && BeforeJob(env, e, s) && Clean(oracle)
    ensures var after := RunFresh(env, oracle, s).0;
            after.world.ctx.outcome.Some? && ReportsAsExpected(e, after.world.ctx.outcome.value)
  {
    UninterruptedRunFinishes(plan, env, e, oracle, s);
    FinishedReportsAsExpected(plan, e, RunFresh(env, oracle, s).0.world.ctx);
  }
}
