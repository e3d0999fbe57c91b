/** The whole final report of a run in which nothing raises, from what it started with; and
    what it shares with every job that finishes from a target that hides nothing. */
module ExactReports {
  import opened Prelude
  import opened Records
  import opened StateMachine
  import opened StepRegistries
  import opened StepContexts
  import opened Targets
  import opened Uploads
  import opened Verifications
  import opened ErrorBreakdowns
  import opened Finalization
  import opened StepBodies
  import opened Runner
  import opened RunnerProtocol
  import opened Resumption
  import opened MigrationStages
  import opened MigrationJobs
  import opened JobReports
  import opened FinalCounts

  // ----- what the upload and the verification list -----

  /** The lists of an upload that writes: what the target takes, what it does not, and the duplicates. */
  ghost predicate UploadLists(t: Target, docs: seq<TransformedDocument>, b: UploadBatch) {
    && b.uploaded == Filter(Takes(t), Unique(docs))
    && b.failed == Filter(Not(Takes(t)), Unique(docs))
    && |b.skipped| == |docs| - |Unique(docs)|
  }

  lemma CleanUploadLists(t: Target, docs: seq<TransformedDocument>)
    ensures UploadLists(t, docs, CleanBatch(t, docs, false))
  {
    var distinctDocs := Unique(docs);
    UniqueHasDistinctKeys(docs);
    var m := ResultsByKey(distinctDocs, UploadResults(t, distinctDocs));
    EmissionMeaning(docs, m);
    forall i | 0 <= i < |distinctDocs|
      ensures Uploads.Succeeded(m)(distinctDocs[i]) == Takes(t)(distinctDocs[i])
      ensures FailedIn(m)(distinctDocs[i]) == Not(Takes(t))(distinctDocs[i])
    {
      ResultByKey(distinctDocs, UploadResults(t, distinctDocs), i);
      UploadResultsAreIndependent(t, distinctDocs, i);
      ResultTellsNewFromStored(t, distinctDocs[i]);
    }
    SameFilter(Uploads.Succeeded(m), Takes(t), distinctDocs);
    SameFilter(FailedIn(m), Not(Takes(t)), distinctDocs);
    FilterSplits(Takes(t), distinctDocs);
  }

  /** A dry upload lists every document as skipped. */
  lemma DryUploadLists(t: Target, docs: seq<TransformedDocument>)
    ensures var b := CleanBatch(t, docs, true);
            b.uploaded == [] && b.failed == [] && |b.skipped| == |docs|
  {
    BatchIsAccountedFor(t, docs, true, true);
    var m :| StepResults(docs, m, true) && BatchResult(t, docs, true, true) == Emit(docs, m);
    EmissionCounts(docs, m, true);
    EmissionMeaning(docs, m);
  }

  /** Everything uploaded is verified. */
  lemma CleanVerificationLists(t: Target, docs: seq<TransformedDocument>)
    ensures var uploaded := CleanBatch(t, docs, false).uploaded;
            var v := VerifyAll(FinalTarget(t, docs, false), uploaded);
            && v.verified == Ids(uploaded)
            && v.failed == [] && v.missing == [] && v.checksumMismatches == [] && v.metadataMismatches == []
  {
    var uploaded, after := CleanBatch(t, docs, false).uploaded, FinalTarget(t, docs, false);
    UploadedDocumentsVerify(t, docs);
    VerificationMeaning(after, uploaded);
    AllOrNothing(after, uploaded);
    AllVerifiedNoneMissing(after, uploaded);
    NoneDiffers(after, uploaded);
  }

  lemma AllOrNothing(t: Target, docs: seq<TransformedDocument>)
    requires VerifyAll(t, docs).failed == []
    ensures VerifyAll(t, docs).verified == Ids(docs)
  {
    VerificationMeaning(t, docs);
    FilterAll(Verified(t), docs);
  }

  lemma NoneDiffers(t: Target, docs: seq<TransformedDocument>)
    requires VerifyAll(t, docs).failed == []
    ensures VerifyAll(t, docs).metadataMismatches == []
  {
    VerificationMeaning(t, docs);
    FilterAll(Not(Verified(t)), docs);
    FilterAll(WrongMetadata(t), docs);
    forall i | 0 <= i < |docs| ensures !WrongMetadata(t)(docs[i]) {
      assert !Not(Verified(t))(docs[i]);
    }
  }

  // ----- the missing items -----

  function KeyIn(keys: set<string>): TransformedDocument -> bool {
    (d: TransformedDocument) => d.sourceIdentifier in keys
  }

  lemma MissingSnoc(docs: seq<TransformedDocument>, failed: set<string>)
    requires docs != []
    ensures var n := |docs| - 1; var id := docs[n].sourceIdentifier;
            MissingAmong(docs, {}, failed) == MissingAmong(docs[..n], {}, failed)
                                              + if id !in Keys(docs[..n]) && id in failed then [id] else []
  {
    var earlier := MissingAmong(docs[..|docs| - 1], {}, failed);
    MissingAmongMeaning(docs[..|docs| - 1], {}, failed);
    assert earlier + [] == earlier;
  }

  lemma UniqueIdsSnoc(p: TransformedDocument -> bool, docs: seq<TransformedDocument>)
    requires docs != []
    ensures var n := |docs| - 1; var id := docs[n].sourceIdentifier;
            Ids(Filter(p, Unique(docs))) == Ids(Filter(p, Unique(docs[..n])))
                                            + if id !in Keys(docs[..n]) && p(docs[n]) then [id] else []
  {
    var n := |docs| - 1;
    var earlier := Unique(docs[..n]);
    if docs[n].sourceIdentifier !in Keys(docs[..n]) {
      IdsOfFilterSnoc(p, earlier + [docs[n]]);
      assert (earlier + [docs[n]])[..|earlier|] == earlier;
    } else {
      assert Ids(Filter(p, earlier)) + [] == Ids(Filter(p, earlier));
    }
  }

  /** The missing items are listed once each, in the order of the distinct documents. */
  lemma {:induction false} MissingInOrder(docs: seq<TransformedDocument>, failed: set<string>)
    ensures MissingAmong(docs, {}, failed) == Ids(Filter(KeyIn(failed), Unique(docs)))
  {
    if docs != [] {
      MissingInOrder(docs[..|docs| - 1], failed);
      MissingSnoc(docs, failed);
      UniqueIdsSnoc(KeyIn(failed), docs);
    }
  }

  lemma KeyOfFiltered(p: TransformedDocument -> bool, docs: seq<TransformedDocument>, i: nat)
    requires DistinctKeys(docs) && i < |docs|
    ensures docs[i].sourceIdentifier in Keys(Filter(p, docs)) <==> p(docs[i])
  {
    if docs[i].sourceIdentifier in Keys(Filter(p, docs)) {
      var d :| d in Filter(p, docs) && d.sourceIdentifier == docs[i].sourceIdentifier;
      FilterMember(p, docs, d);
      SameKeySameDocument(docs, d, docs[i]);
    } else {
      FilterMember(p, docs, docs[i]);
    }
  }

  lemma MissingAreTheRefused(docs: seq<TransformedDocument>, p: TransformedDocument -> bool)
    ensures MissingAmong(docs, {}, Keys(Filter(p, Unique(docs)))) == Ids(Filter(p, Unique(docs)))
  {
    var distinctDocs := Unique(docs);
    var failed := Keys(Filter(p, distinctDocs));
    UniqueHasDistinctKeys(docs);
    MissingInOrder(docs, failed);
    forall i | 0 <= i < |distinctDocs| ensures KeyIn(failed)(distinctDocs[i]) == p(distinctDocs[i]) {
      KeyOfFiltered(p, distinctDocs, i);
    }
    SameFilter(KeyIn(failed), p, distinctDocs);
  }

  // ----- reconciliation, metrics, snapshot, warnings -----

  /** The documents the run writes, turns away and drops, and the failures before them. */
  datatype Tally = Tally(items: nat, failed: nat, docs: nat, distinctDocs: nat, taken: nat, refused: seq<string>)

  /** Counted on the target the job started with. */
  ghost function TallyOf(e: Expected): Tally {
    var docs := e.transformation.documents;
    Tally(|e.extraction.items|, e.transformation.failedItems, |docs|, |Unique(docs)|,
          |Filter(Takes(e.start), Unique(docs))|, Ids(Filter(Not(Takes(e.start)), Unique(docs))))
  }

  /** The reconciliation of a run that writes, but for the split into new uploads and replays. */
  ghost predicate WritingReconciliation(tally: Tally, r: Reconciliation) {
    && r.expectedItems == tally.docs
    && r.uploadedItems + r.replays == tally.taken
    && r.verifiedItems == tally.taken
    && r.dryRunItems == 0
    && r.missingItems == tally.refused
    && r.unexpectedItems == [] && r.checksumMismatches == []
    && r.status == (if r.isReconciled then Reconciled else NeedsReview)
  }

  ghost predicate WritingMetrics(tally: Tally, m: ItemMetrics) {
    && m.totalItems == tally.items
    && m.successfulItems == tally.taken
    && m.failedItems == tally.failed + |tally.refused|
    && m.skippedItems == tally.docs - tally.distinctDocs
    && m.retriedItems == 0
    && m.uploadedItems + m.replays == tally.taken
    && m.dryRunItems == 0
    && m.verificationFailures == 0
    && m.reconciledItems == tally.taken
    && m.missingItems == |tally.refused|
    && m.checksumMismatches == 0
  }

  ghost predicate DryReconciliation(tally: Tally, r: Reconciliation) {
    && r.expectedItems == tally.docs
    && r.uploadedItems == 0 && r.replays == 0 && r.verifiedItems == 0
    && r.dryRunItems == tally.distinctDocs
    && r.missingItems == [] && r.unexpectedItems == [] && r.checksumMismatches == []
    && r.status == (if r.isReconciled then DryRunReconciled else NeedsReview)
  }

  ghost predicate DryMetrics(tally: Tally, m: ItemMetrics) {
    && m.totalItems == tally.items
    && m.successfulItems == 0 && m.failedItems == 0 && m.retriedItems == 0
    && m.skippedItems == tally.docs
    && m.uploadedItems == 0 && m.replays == 0 && m.verificationFailures == 0
    && m.dryRunItems == tally.distinctDocs && m.reconciledItems == tally.distinctDocs
    && m.missingItems == 0 && m.checksumMismatches == 0
  }

  /** The snapshot counts verified, failed and skipped items; a dry run verifies nothing. */
  ghost predicate SnapshotTells(tally: Tally, dry: bool, s: Snapshot) {
    && s.totalItems == tally.items && s.processedItems == tally.items
    && s.successfulItems == (if dry then 0 else tally.taken)
    && s.failedItems == tally.failed + (if dry then 0 else |tally.refused|)
    && s.skippedItems == (if dry then tally.docs else tally.docs - tally.distinctDocs)
  }

  /** One warning for each kind of failed or skipped items there are, in this order. */
  function WarningsFor(failed: nat, refused: nat, skipped: nat): seq<Warning> {
    (if failed > 0 then [FailedTransformation(failed)] else [])
    + (if refused > 0 then [FailedUpload(refused)] else [])
    + (if skipped > 0 then [SkippedInUpload(skipped)] else [])
  }

  ghost predicate TellsExactly(e: Expected, outcome: Outcome) {
    var tally := TallyOf(e);
    && outcome.success
    && outcome.report.reconciliation.Some?
    && outcome.report.metrics == Some(outcome.metrics)
    && SnapshotTells(tally, e.config.dryRun, outcome.snapshot)
    && (if e.config.dryRun then
          && DryReconciliation(tally, outcome.report.reconciliation.value) && DryMetrics(tally, outcome.metrics)
          && outcome.warnings == WarningsFor(tally.failed, 0, tally.docs)
        else
          && WritingReconciliation(tally, outcome.report.reconciliation.value) && WritingMetrics(tally, outcome.metrics)
          && outcome.warnings == WarningsFor(tally.failed, |tally.refused|, tally.docs - tally.distinctDocs))
  }

  /** The stage results a writing job has when its upload agrees with the expected one. */
  ghost predicate WritingStages(e: Expected, ctx: StepData) {
    var docs := e.transformation.documents;
    && ctx.extraction == Some(e.extraction)
    && ctx.transformation.Some? && SameTransformation(ctx.transformation.value, e.transformation)
    && e.transformation.skippedItems == 0
    && ctx.upload.Some? && UploadLists(e.start, docs, ctx.upload.value)
    && ctx.verification.Some?
    && ctx.verification.value.verified == Ids(ctx.upload.value.uploaded)
    && ctx.verification.value.failed == [] && ctx.verification.value.missing == []
    && ctx.verification.value.checksumMismatches == [] && ctx.verification.value.metadataMismatches == []
  }

  lemma FittingWritingStages(plan: Plan, e: Expected, ctx: StepData)
    requires Expects(plan, e) && ContextFits(e, ExactBatch(e), 5, ctx) && !e.config.dryRun
    ensures WritingStages(e, ctx)
  {
    FittingUploads(plan, e, ctx);
    TransformationAccounts(plan, e);
    CleanUploadLists(e.start, e.transformation.documents);
    CleanVerificationLists(e.start, e.transformation.documents);
    ExpectedVerification(plan, e);
  }

  lemma ExpectedVerification(plan: Plan, e: Expected)
    requires Expects(plan, e) && !e.config.dryRun
    ensures e.verification == VerifyAll(FinalTarget(e.start, e.transformation.documents, false),
                                        CleanBatch(e.start, e.transformation.documents, false).uploaded)
  {
    StartFits(e);
    UploadCompletes(plan, e, e.start);
    ModeOfFittingBatch(e, ExactBatch(e), e.batch);
  }

  lemma MissingOfWriting(e: Expected, ctx: StepData)
    requires WritingStages(e, ctx)
    ensures MissingItems(TransformedDocuments(ctx), ctx.upload, ctx.verification, false)
            == Ids(Filter(Not(Takes(e.start)), Unique(e.transformation.documents)))
  {
    var docs := e.transformation.documents;
    assert (set id | id in ctx.verification.value.missing) == {};
    MissingAreTheRefused(docs, Not(Takes(e.start)));
  }

  lemma WritingReconciles(e: Expected, allowed: Allowed, ctx: StepData)
    requires ContextFits(e, allowed, 5, ctx) && WritingStages(e, ctx) && !e.config.dryRun
    ensures WritingReconciliation(TallyOf(e), Reconcile(ctx, e.config))
  {
    ModesAgree(e, allowed, ctx);
    CountsOfFitting(e, allowed, ctx);
    MissingOfWriting(e, ctx);
  }

  lemma WritingCounts(e: Expected, allowed: Allowed, ctx: StepData)
    requires ContextFits(e, allowed, 5, ctx) && WritingStages(e, ctx) && !e.config.dryRun
    ensures WritingMetrics(TallyOf(e), FinalMetrics(ctx, e.config, Reconcile(ctx, e.config)))
    ensures SnapshotTells(TallyOf(e), false, FinalSnapshot(ctx))
  {
    ModesAgree(e, allowed, ctx);
    WritingReconciles(e, allowed, ctx);
  }

  lemma WritingWarns(e: Expected, ctx: StepData)
    requires WritingStages(e, ctx)
    ensures var tally := TallyOf(e);
            BuildWarnings(ctx) == WarningsFor(tally.failed, |tally.refused|, tally.docs - tally.distinctDocs)
  {
    var tally := TallyOf(e);
    assert FailureWarnings(ctx) == WarningsFor(tally.failed, |tally.refused|, 0);
  }

  /** The same for a dry run, whose upload writes nothing and whose verification checks nothing. */
  ghost predicate DryStages(e: Expected, ctx: StepData) {
    && ctx.extraction == Some(e.extraction)
    && ctx.transformation.Some? && SameTransformation(ctx.transformation.value, e.transformation)
    && e.transformation.skippedItems == 0
    && ctx.upload.Some? && ctx.upload.value.uploaded == [] && ctx.upload.value.failed == []
    && |ctx.upload.value.skipped| == |e.transformation.documents|
    && ctx.verification == Some(NOTHING_VERIFIED)
  }

  lemma FittingDryStages(plan: Plan, e: Expected, ctx: StepData)
    requires Expects(plan, e) && ContextFits(e, ExactBatch(e), 5, ctx) && e.config.dryRun
    ensures DryStages(e, ctx)
  {
    FittingUploads(plan, e, ctx);
    TransformationAccounts(plan, e);
    DryUploadLists(e.start, e.transformation.documents);
  }

  lemma DryReconciles(e: Expected, allowed: Allowed, ctx: StepData)
    requires ContextFits(e, allowed, 5, ctx) && DryStages(e, ctx) && e.config.dryRun
    ensures DryReconciliation(TallyOf(e), Reconcile(ctx, e.config))
    ensures DryMetrics(TallyOf(e), FinalMetrics(ctx, e.config, Reconcile(ctx, e.config)))
    ensures SnapshotTells(TallyOf(e), true, FinalSnapshot(ctx))
  {
    ModesAgree(e, allowed, ctx);
    CountsOfFitting(e, allowed, ctx);
  }

  lemma DryWarns(e: Expected, ctx: StepData)
    requires DryStages(e, ctx)
    ensures BuildWarnings(ctx) == WarningsFor(TallyOf(e).failed, 0, TallyOf(e).docs)
  {
    assert FailureWarnings(ctx) == WarningsFor(TallyOf(e).failed, 0, 0);
  }

  lemma FinalizationTellsExactly(plan: Plan, e: Expected, ctx: StepData)
    requires Expects(plan, e) && ContextFits(e, ExactBatch(e), 5, ctx)
    ensures TellsExactly(e, Finalize(ctx, e.config, false).outcome.value)
  {
    if e.config.dryRun {
      FittingDryStages(plan, e, ctx);
      DryReconciles(e, ExactBatch(e), ctx);
      DryWarns(e, ctx);
    } else {
      FittingWritingStages(plan, e, ctx);
      WritingReconciles(e, ExactBatch(e), ctx);
      WritingCounts(e, ExactBatch(e), ctx);
      WritingWarns(e, ctx);
    }
  }

  lemma FinishedTellsExactly(plan: Plan, e: Expected, ctx: StepData)
    requires Expects(plan, e) && Finalized(e, ExactBatch(e), ctx)
    ensures ctx.outcome.Some? && TellsExactly(e, ctx.outcome.value)
  {
    var before :| ContextFits(e, ExactBatch(e), 5, before) && ctx.outcome == Finalize(before, e.config, false).outcome;
    FinalizationTellsExactly(plan, e, before);
  }

  /** From a target that hides nothing, every job that finishes reports, counter by counter, what
      its source, its configuration and the target it started with tell. */
  lemma FinishedJobTellsExactly(plan: Plan, env: Env, e: Expected, launches: seq<Launch>, s: RunnerState)
    requires MigrationJob(plan, env, e) && Transparent(e) && BeforeJob(env, e, s) && launches != []
    ensures var (after, end) := RunJob(env, launches, s);
            end.Finished? ==> after.world.ctx.outcome.Some? && TellsExactly(e, after.world.ctx.outcome.value)
  {
    ResumeEqualsUninterrupted(plan, env, e, launches, s);
    if RunJob(env, launches, s).1.Finished? {
      FinishedTellsExactly(plan, e, RunJob(env, launches, s).0.world.ctx);
    }
  }
}
