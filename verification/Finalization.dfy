/** Finalization: reconciliation, final counters, final report and final status. */
module Finalization {
  import opened Prelude
  import opened Records
  import opened StateMachine
  import opened StepContexts
  import opened Targets
  import opened Uploads
  import opened Verifications
  import opened ErrorBreakdowns

  // ----- counters over upload results -----

  predicate IsNewUpload(r: ItemResult) {
    r.success && !r.replay && !r.dryRun
  }

  predicate IsReplay(r: ItemResult) {
    r.replay
  }

  function UploadedItems(upload: Option<UploadBatch>): nat {
    if upload.None? then 0 else |Filter(IsNewUpload, upload.value.itemResults)|
  }

  function ReplayedItems(upload: Option<UploadBatch>): nat {
    if upload.None? then 0 else |Filter(IsReplay, upload.value.itemResults)|
  }

  function DryRunItems(upload: Option<UploadBatch>): nat {
    if upload.None? then 0 else |Filter(IsDry, upload.value.itemResults)|
  }

  predicate FinalDryMode(config: Configuration, upload: Option<UploadBatch>) {
    config.dryRun || (upload.Some? && DryMode(config, upload.value))
  }

  // ----- missing items -----

  /** The identifiers, in first-seen order, of transformed documents that are
      missing in the target or failed to upload. */
  function MissingAmong(docs: seq<TransformedDocument>, missing: set<string>, failed: set<string>): seq<string> {
    if docs == [] then []
    else
      var n := |docs| - 1;
      var earlier := MissingAmong(docs[..n], missing, failed);
      var id := docs[n].sourceIdentifier;
      if id !in earlier && (id in missing || id in failed) then earlier + [id] else earlier
  }

  function MissingItems(docs: seq<TransformedDocument>, upload: Option<UploadBatch>, v: Option<Verification>, dry: bool)
    : seq<string>
  {
    if dry then []
    else
      MissingAmong(docs,
                   if v.Some? then set id | id in v.value.missing else {},
                   if upload.Some? then Keys(upload.value.failed) else {})
  }

  /** The list is exactly the affected identifiers, each once. */
  lemma {:induction false} MissingAmongMeaning(docs: seq<TransformedDocument>, missing: set<string>,
                                               failed: set<string>)
    ensures var r := MissingAmong(docs, missing, failed);
            && Distinct(r)
            && forall id :: id in r <==> id in Keys(docs) && (id in missing || id in failed)
  {
    if docs != [] {
      KeysOfPrefix(docs);
      MissingAmongMeaning(docs[..|docs| - 1], missing, failed);
    }
  }

  method ResolveMissingItems(docs: seq<TransformedDocument>, upload: Option<UploadBatch>, v: Option<Verification>,
                             dry: bool)
    returns (items: seq<string>)
    ensures items == MissingItems(docs, upload, v, dry)
  {
    items := [];
    if dry {
      return;
    }
    var missing := if v.Some? then set id | id in v.value.missing else {};
    var failed := if upload.Some? then Keys(upload.value.failed) else {};
    var seen: set<string> := {};
    for i := 0 to |docs|
      invariant items == MissingAmong(docs[..i], missing, failed)
      invariant forall id :: id in seen <==> id in items
    {
      TakeStep(docs, i);
      var id := docs[i].sourceIdentifier;
      if id in seen {
        continue;
      }
      if id in missing || id in failed {
        items := items + [id];
        seen := seen + {id};
      }
    }
    TakeAll(docs);
  }

  // ----- reconciliation -----

  function IsReconciled(r: Reconciliation, dry: bool): bool {
    && (if dry then r.expectedItems == r.dryRunItems && r.uploadedItems == 0
        else r.expectedItems == r.verifiedItems && r.uploadedItems + r.replays <= r.expectedItems)
    && r.missingItems == [] && r.checksumMismatches == [] && r.unexpectedItems == []
  }

  function TransformedDocuments(ctx: StepData): seq<TransformedDocument> {
    if ctx.transformation.Some? then ctx.transformation.value.documents else []
  }

  /** The counters and the verdict, once the missing items are known. */
  function ReconcileWith(ctx: StepData, dry: bool, missing: seq<string>): Reconciliation {
    var counted := Reconciliation(
      |TransformedDocuments(ctx)|,
      UploadedItems(ctx.upload),
      if ctx.verification.Some? then |ctx.verification.value.verified| else 0,
      ReplayedItems(ctx.upload),
      DryRunItems(ctx.upload),
      missing,
      [],
      if ctx.verification.Some? then ctx.verification.value.checksumMismatches else [],
      NeedsReview, false);
    var ok := IsReconciled(counted, dry);
    counted.(isReconciled := ok,
             status := if dry && ok then DryRunReconciled else if ok then Reconciled else NeedsReview)
  }

  function Reconcile(ctx: StepData, config: Configuration): Reconciliation {
    var dry := FinalDryMode(config, ctx.upload);
    ReconcileWith(ctx, dry, MissingItems(TransformedDocuments(ctx), ctx.upload, ctx.verification, dry))
  }

  method ResolveReconciliation(ctx: StepData, config: Configuration) returns (r: Reconciliation)
    ensures r == Reconcile(ctx, config)
  {
    var dry := FinalDryMode(config, ctx.upload);
    var missing := ResolveMissingItems(TransformedDocuments(ctx), ctx.upload, ctx.verification, dry);
    return ReconcileWith(ctx, dry, missing);
  }

  // ----- final counters -----

  function TotalItems(ctx: StepData): nat {
    if ctx.extraction.Some? then |ctx.extraction.value.items|
    else if ctx.transformation.Some? then
      var t := ctx.transformation.value;
      |t.documents| + t.failedItems + t.skippedItems
    else if ctx.upload.Some? then
      |ctx.upload.value.uploaded| + |ctx.upload.value.failed| + |ctx.upload.value.skipped|
    else if ctx.verification.Some? then |ctx.verification.value.verified| + |ctx.verification.value.failed|
    else 0
  }

  function SuccessfulItems(ctx: StepData): nat {
    if ctx.verification.Some? then |ctx.verification.value.verified|
    else if ctx.upload.Some? then |ctx.upload.value.uploaded|
    else if ctx.transformation.Some? then |ctx.transformation.value.documents|
    else if ctx.extraction.Some? then |ctx.extraction.value.items|
    else 0
  }

  function FailedItems(ctx: StepData): nat {
    (if ctx.transformation.Some? then ctx.transformation.value.failedItems else 0)
    + (if ctx.upload.Some? then |ctx.upload.value.failed| else 0)
    + (if ctx.verification.Some? then |ctx.verification.value.failed| else 0)
  }

  function SkippedItems(ctx: StepData): nat {
    (if ctx.transformation.Some? then ctx.transformation.value.skippedItems else 0)
    + (if ctx.upload.Some? then |ctx.upload.value.skipped| else 0)
  }

  function FinalSnapshot(ctx: StepData): Snapshot {
    Snapshot(TotalItems(ctx), TotalItems(ctx), SuccessfulItems(ctx), FailedItems(ctx), SkippedItems(ctx))
  }

  function FinalMetrics(ctx: StepData, config: Configuration, r: Reconciliation): ItemMetrics {
    var dry := FinalDryMode(config, ctx.upload);
    ItemMetrics(
      totalItems := TotalItems(ctx),
      successfulItems := if dry then 0 else SuccessfulItems(ctx),
      failedItems := if dry then 0 else FailedItems(ctx),
      skippedItems := SkippedItems(ctx),
      retriedItems := 0,
      uploadedItems := if dry then 0 else r.uploadedItems,
      replays := r.replays,
      dryRunItems := r.dryRunItems,
      verificationFailures :=
        if dry || ctx.verification.None? then 0 else |ctx.verification.value.failed|,
      reconciledItems := if dry then r.dryRunItems else r.verifiedItems,
      missingItems := |r.missingItems|,
      checksumMismatches := |r.checksumMismatches|)
  }

  // ----- report and status -----

  function WarningIf(condition: bool, warning: Warning): seq<Warning> {
    if condition then [warning] else []
  }

  function FailureWarnings(ctx: StepData): seq<Warning> {
    var t, u, v := ctx.transformation, ctx.upload, ctx.verification;
    (if t.Some? then WarningIf(t.value.failedItems > 0, FailedTransformation(t.value.failedItems)) else [])
    + (if u.Some? then WarningIf(u.value.failed != [], FailedUpload(|u.value.failed|)) else [])
    + (if v.Some? then WarningIf(v.value.failed != [], FailedVerification(|v.value.failed|)) else [])
  }

  function SkipWarnings(ctx: StepData): seq<Warning> {
    var t, u := ctx.transformation, ctx.upload;
    (if u.Some? then WarningIf(u.value.skipped != [], SkippedInUpload(|u.value.skipped|)) else [])
    + (if t.Some? then WarningIf(t.value.skippedItems > 0, SkippedInTransformation(t.value.skippedItems)) else [])
  }

  function BuildWarnings(ctx: StepData): seq<Warning> {
    FailureWarnings(ctx) + SkipWarnings(ctx)
  }

  function NotIn(warnings: seq<Warning>): Warning -> bool {
    (w: Warning) => w !in warnings
  }

  /** report.warnings plus the new ones that are not among them. */
  function MergeWarnings(old_: seq<Warning>, new_: seq<Warning>): seq<Warning> {
    old_ + Filter(NotIn(old_), new_)
  }

  function HasWarnings(r: Report): bool {
    r.warnings != []
    || (r.metrics.Some?
        && (r.metrics.value.retriedItems > 0 || r.metrics.value.failedItems > 0
            || r.metrics.value.verificationFailures > 0 || r.metrics.value.dryRunItems > 0))
  }

  predicate IsDryRunCompleted(r: Report) {
    && r.metrics.Some? && r.metrics.value.dryRunItems > 0
    && r.metrics.value.uploadedItems == 0 && r.reconciliation.Some?
  }

  function ResolveFinalStatus(r: Report): FinalStatus {
    if r.finalStatus.Some? then r.finalStatus.value
    else if !r.completed || r.failedSteps > 0 then FailedStatus
    else if r.reconciliation.Some? && !r.reconciliation.value.isReconciled then FailedStatus
    else if IsDryRunCompleted(r) then DryRunCompleted
    else if HasWarnings(r) then CompletedWithWarnings
    else CompletedStatus
  }

  function ReportFor(ctx: StepData, config: Configuration, failedExecution: bool,
                     reconciliation: Reconciliation, built: seq<Warning>): Report
  {
    var warnings := if ctx.report.Some? then MergeWarnings(ctx.report.value.warnings, built) else built;
    var report := Report(!failedExecution, if failedExecution then 1 else 0, warnings,
                         if ctx.report.Some? then ctx.report.value.finalStatus else None,
                         Some(FinalMetrics(ctx, config, reconciliation)), Some(reconciliation));
    report.(finalStatus := Some(ResolveFinalStatus(report)))
  }

  function FinalReport(ctx: StepData, config: Configuration, failedExecution: bool): Report {
    ReportFor(ctx, config, failedExecution, Reconcile(ctx, config), BuildWarnings(ctx))
  }

  function Finalize(ctx: StepData, config: Configuration, failedExecution: bool): StepData {
    var report := FinalReport(ctx, config, failedExecution);
    ctx.(report := Some(report),
         outcome := Some(Outcome(!failedExecution, report, report.metrics.value, FinalSnapshot(ctx), BuildWarnings(ctx),
                                 Breakdown(ctx, report.finalStatus.value, None))))
  }

  /** The terminal state the machine is left in. */
  function AdvanceToEnd(state: MigrationState, failedExecution: bool): MigrationState {
    if failedExecution then Advance(state, Failed)
    else Advance(Advance(state, Finalizing), Completed)
  }

  // ----- results the earlier steps produce -----

  /** Per-document results as the upload step, or its reconstruction, produces them. */
  ghost predicate StepResults(docs: seq<TransformedDocument>, m: Results, dry: bool) {
    && m.Keys == Keys(docs)
    && forall key :: key in m ==>
         && m[key].dryRun == dry
         && (dry ==> m[key].success)
         && (m[key].replay ==> m[key].success && !dry)
  }

  /** A context whose stage results were produced by the steps, one from the other. */
  ghost predicate StepProduced(ctx: StepData, config: Configuration, m: Results, t: Target) {
    && ctx.extraction.Some? && ctx.transformation.Some? && ctx.upload.Some? && ctx.verification.Some?
    && var tr := ctx.transformation.value;
       && |tr.documents| + tr.failedItems == |ctx.extraction.value.items|
       && |tr.failedIdentifiers| == tr.failedItems && tr.skippedItems == 0
       && StepResults(tr.documents, m, config.dryRun)
       && ctx.upload.value == Emit(tr.documents, m)
       && ctx.verification.value == Verify(t, ctx.upload.value, config)
  }

  lemma {:induction false} EmissionCounts(docs: seq<TransformedDocument>, m: Results, dry: bool)
    requires Keys(docs) <= m.Keys
    requires forall key :: key in m ==>
      m[key].dryRun == dry && (dry ==> m[key].success) && (m[key].replay ==> m[key].success && !dry)
    ensures var b := Emit(docs, m);
            && |Filter(IsNewUpload, b.itemResults)| + |Filter(IsReplay, b.itemResults)| == |b.uploaded|
            && |Filter(IsDry, b.itemResults)| == (if dry then |Unique(docs)| else 0)
            && (dry ==> b.uploaded == [] && b.failed == [])
  {
    if docs != [] {
      var n := |docs| - 1;
      KeysOfPrefix(docs);
      EmissionCounts(docs[..n], m, dry);
      var before, b := Emit(docs[..n], m), Emit(docs, m);
      assert b.itemResults[..|b.itemResults| - 1] == before.itemResults;
    }
  }

  lemma DryModeMeaning(docs: seq<TransformedDocument>, m: Results, config: Configuration)
    requires StepResults(docs, m, config.dryRun)
    ensures DryMode(config, Emit(docs, m)) == config.dryRun
  {
    EmissionCounts(docs, m, config.dryRun);
    var results := Emit(docs, m).itemResults;
    FilterAll(IsDry, results);
  }

  lemma {:induction false} UniqueLength(docs: seq<TransformedDocument>)
    ensures |Unique(docs)| <= |docs|
    ensures |Unique(docs)| == |docs| <==> DistinctKeys(docs)
    ensures DistinctKeys(docs) ==> Unique(docs) == docs
  {
    if docs != [] {
      var n := |docs| - 1;
      var init, last := docs[..n], docs[n];
      assert docs == init + [last];
      UniqueLength(init);
      if DistinctKeys(docs) {
        FreshKey(docs);
      } else if DistinctKeys(init) {
        var i :| 0 <= i < n && docs[i].sourceIdentifier == last.sourceIdentifier;
        assert init[i].sourceIdentifier in Keys(init);
      }
    }
  }

  // ----- reconciliation is exact -----

  ghost predicate AllUploadedAndVerified(t: Target, docs: seq<TransformedDocument>, m: Results) {
    forall d :: d in docs ==> Succeeded(m)(d) && Verified(t)(d)
  }

  lemma VerifiedCount(t: Target, uploaded: seq<TransformedDocument>)
    ensures |VerifyAll(t, uploaded).verified| <= |uploaded|
    ensures |VerifyAll(t, uploaded).verified| == |uploaded|
            <==> forall i :: 0 <= i < |uploaded| ==> Verified(t)(uploaded[i])
  {
    VerificationMeaning(t, uploaded);
    FilterAll(Verified(t), uploaded);
  }

  lemma UploadedCount(docs: seq<TransformedDocument>, m: Results)
    requires StepResults(docs, m, false)
    ensures |Emit(docs, m).uploaded| <= |docs|
    ensures |Emit(docs, m).uploaded| == |docs| ==> DistinctKeys(docs) && Emit(docs, m).uploaded == docs
    ensures |Emit(docs, m).uploaded| == |docs|
            <==> DistinctKeys(docs) && forall i :: 0 <= i < |docs| ==> Succeeded(m)(docs[i])
  {
    EmissionMeaning(docs, m);
    UniqueLength(docs);
    FilterAll(Succeeded(m), Unique(docs));
  }

  /** All documents are verified if and only if their identifiers are distinct and
      each one was uploaded and read back correctly. */
  lemma AllVerifiedExactlyWhen(docs: seq<TransformedDocument>, m: Results, t: Target)
    requires StepResults(docs, m, false)
    ensures |VerifyAll(t, Emit(docs, m).uploaded).verified| == |docs|
       <==> DistinctKeys(docs) && AllUploadedAndVerified(t, docs, m)
  {
    UploadedCount(docs, m);
    VerifiedCount(t, Emit(docs, m).uploaded);
    if |VerifyAll(t, Emit(docs, m).uploaded).verified| == |docs| {
      AllPassed(t, docs, m);
    }
  }

  lemma AllPassed(t: Target, docs: seq<TransformedDocument>, m: Results)
    requires forall i :: 0 <= i < |docs| ==> Succeeded(m)(docs[i]) && Verified(t)(docs[i])
    ensures AllUploadedAndVerified(t, docs, m)
  {
  }

  /** When all documents are verified nothing is missing, mismatched or failed. */
  lemma AllVerifiedNothingElse(docs: seq<TransformedDocument>, m: Results, t: Target)
    requires StepResults(docs, m, false)
    requires |VerifyAll(t, Emit(docs, m).uploaded).verified| == |docs|
    ensures Emit(docs, m).failed == []
    ensures VerifyAll(t, Emit(docs, m).uploaded).missing == []
    ensures VerifyAll(t, Emit(docs, m).uploaded).checksumMismatches == []
  {
    UploadedCount(docs, m);
    VerifiedCount(t, Emit(docs, m).uploaded);
    assert Emit(docs, m).uploaded == docs;
    AllUploadedNoneFailed(docs, m);
    AllVerifiedNoneMissing(t, docs);
  }

  lemma AllUploadedNoneFailed(docs: seq<TransformedDocument>, m: Results)
    requires StepResults(docs, m, false) && Emit(docs, m).uploaded == docs
    ensures Emit(docs, m).failed == []
  {
    EmissionMeaning(docs, m);
  }

  lemma AllVerifiedNoneMissing(t: Target, docs: seq<TransformedDocument>)
    requires |VerifyAll(t, docs).verified| == |docs|
    ensures VerifyAll(t, docs).missing == [] && VerifyAll(t, docs).checksumMismatches == []
  {
    VerifiedCount(t, docs);
    VerificationMeaning(t, docs);
    NoneOtherwise(t, docs);
  }

  lemma NoneOtherwise(t: Target, docs: seq<TransformedDocument>)
    requires forall i :: 0 <= i < |docs| ==> Verified(t)(docs[i])
    ensures Filter(Missing(t), docs) == [] && Filter(WrongChecksum(t), docs) == []
  {
    FilterAll(Missing(t), docs);
    FilterAll(WrongChecksum(t), docs);
    forall i | 0 <= i < |docs| ensures !Missing(t)(docs[i]) && !WrongChecksum(t)(docs[i]) {
      assert Verified(t)(docs[i]);
    }
  }

  lemma {:induction false} NothingAmong(docs: seq<TransformedDocument>)
    ensures MissingAmong(docs, {}, {}) == []
  {
    if docs != [] {
      NothingAmong(docs[..|docs| - 1]);
    }
  }

  lemma NothingMissing(docs: seq<TransformedDocument>, u: UploadBatch, v: Verification)
    requires u.failed == [] && v.missing == []
    ensures MissingItems(docs, Some(u), Some(v), false) == []
  {
    var missing := set id | id in v.missing;
    assert missing == {} && Keys(u.failed) == {};
    NothingAmong(docs);
  }

  /** A run that writes is reconciled if and only if all transformed identifiers
      are distinct, every upload succeeded and every uploaded document verified. */
  lemma ReconciliationIsExact(ctx: StepData, config: Configuration, m: Results, t: Target)
    requires StepProduced(ctx, config, m, t) && !config.dryRun
    ensures var docs := ctx.transformation.value.documents;
            Reconcile(ctx, config).isReconciled
            <==> DistinctKeys(docs) && AllUploadedAndVerified(t, docs, m)
  {
    var docs := ctx.transformation.value.documents;
    DryModeMeaning(docs, m, config);
    AllVerifiedExactlyWhen(docs, m, t);
    UploadsAreBounded(ctx, config, m, t);
    if |ctx.verification.value.verified| == |docs| {
      AllVerifiedNothingElse(docs, m, t);
      NothingMissing(docs, ctx.upload.value, ctx.verification.value);
    }
  }

  /** A dry run is reconciled if and only if all transformed identifiers are distinct. */
  lemma DryReconciliationIsExact(ctx: StepData, config: Configuration, m: Results, t: Target)
    requires StepProduced(ctx, config, m, t) && config.dryRun
    ensures Reconcile(ctx, config).isReconciled <==> DistinctKeys(ctx.transformation.value.documents)
  {
    var docs := ctx.transformation.value.documents;
    EmissionCounts(docs, m, true);
    UniqueLength(docs);
  }

  /** New uploads plus replays never exceed what was expected. */
  lemma UploadsAreBounded(ctx: StepData, config: Configuration, m: Results, t: Target)
    requires StepProduced(ctx, config, m, t)
    ensures var r := Reconcile(ctx, config);
            r.uploadedItems + r.replays == |ctx.upload.value.uploaded| <= r.expectedItems
  {
    EmissionCounts(ctx.transformation.value.documents, m, config.dryRun);
    EmissionMeaning(ctx.transformation.value.documents, m);
  }

  // ----- conservation -----

  /** Every extracted item ends up verified, skipped or failed, in dry runs too. */
  lemma SnapshotConserves(ctx: StepData, config: Configuration, m: Results, t: Target)
    requires StepProduced(ctx, config, m, t)
    ensures var s := FinalSnapshot(ctx);
            s.totalItems == s.successfulItems + s.failedItems + s.skippedItems
            && s.totalItems == |ctx.extraction.value.items|
            && s.successfulItems == |ctx.verification.value.verified|
  {
    var docs := ctx.transformation.value.documents;
    DryModeMeaning(docs, m, config);
    EmissionCounts(docs, m, config.dryRun);
    EmissionMeaning(docs, m);
    VerificationMeaning(t, ctx.upload.value.uploaded);
  }

  /** Stage results that follow from one another, where neighbours are present, and without a gap. */
  ghost predicate StagesFollow(ctx: StepData) {
    var x, t, u, v := ctx.extraction, ctx.transformation, ctx.upload, ctx.verification;
    && (x.Some? && t.Some? ==>
          |t.value.documents| + t.value.failedItems + t.value.skippedItems == |x.value.items|)
    && (t.Some? && u.Some? ==>
          |u.value.uploaded| + |u.value.failed| + |u.value.skipped| == |t.value.documents|)
    && (u.Some? && v.Some? ==> |v.value.verified| + |v.value.failed| == |u.value.uploaded|)
    && (x.Some? && u.Some? ==> t.Some?) && (t.Some? && v.Some? ==> u.Some?) && (x.Some? && v.Some? ==> t.Some?)
  }

  /** Whichever stages a pipeline has, the snapshot of their results conserves items. */
  lemma PartialSnapshotConserves(ctx: StepData)
    requires StagesFollow(ctx)
    ensures var s := FinalSnapshot(ctx);
            s.processedItems == s.totalItems == s.successfulItems + s.failedItems + s.skippedItems
  {
  }

  /** The final metrics obey the same law if and only if the run writes or no item
      failed transformation: a dry run reports its transformation failures as zero. */
  lemma MetricsConserveExactlyWhen(ctx: StepData, config: Configuration, m: Results, t: Target)
    requires StepProduced(ctx, config, m, t)
    ensures var f := FinalMetrics(ctx, config, Reconcile(ctx, config));
            f.totalItems == f.successfulItems + f.failedItems + f.skippedItems
            <==> !config.dryRun || ctx.transformation.value.failedItems == 0
  {
    var docs := ctx.transformation.value.documents;
    SnapshotConserves(ctx, config, m, t);
    DryModeMeaning(docs, m, config);
    EmissionCounts(docs, m, config.dryRun);
  }

  /** A dry run in which one item was extracted and failed: the final metrics know one
      item and account for none. */
  lemma DryRunLosesItsFailure(item: MailItem, config: Configuration, t: Target) returns (ctx: StepData)
    requires config.dryRun
    ensures StepProduced(ctx, config, map[], t)
    ensures var f := FinalMetrics(ctx, config, Reconcile(ctx, config));
            f.totalItems == 1 && f.successfulItems + f.failedItems + f.skippedItems == 0
  {
    ctx := NO_DATA.(
      extraction := Some(Extraction([], [], [item], [], [], [], 1)),
      transformation := Some(Transformation([], [item.messageId], 1, 0, [RehydrationFailed(MissingPartId)])),
      upload := Some(NOTHING_UPLOADED),
      verification := Some(NOTHING_VERIFIED));
    assert Keys([]) == {};
  }

  // ----- audit -----

  /** The breakdown has exactly one entry for each failed item, and its length is
      the failed-item count. */
  lemma BreakdownIsComplete(ctx: StepData, config: Configuration, m: Results, t: Target, status: FinalStatus)
    requires StepProduced(ctx, config, m, t)
    ensures |Breakdown(ctx, status, None)| == FailedItems(ctx) == FinalSnapshot(ctx).failedItems
    ensures !config.dryRun ==>
              |Breakdown(ctx, status, None)| == FinalMetrics(ctx, config, Reconcile(ctx, config)).failedItems
  {
    var docs := ctx.transformation.value.documents;
    DryModeMeaning(docs, m, config);
    EmissionMeaning(docs, m);
    UniqueHasDistinctKeys(docs);
    FilterKeepsDistinctKeys(Succeeded(m), Unique(docs));
    VerificationIsConsistent(t, ctx.upload.value.uploaded);
    NothingVerifiedIsConsistent();
    VerificationEntriesCount(ctx, status);
  }

  lemma NothingVerifiedIsConsistent()
    ensures ErrorBreakdowns.Consistent(NOTHING_VERIFIED)
  {
  }

  // ----- warnings and failed executions -----

  /** Merging keeps the earlier warnings first, and adds each kind of new warning that is not among them. */
  lemma MergedWarningsMeaning(earlier: seq<Warning>, built: seq<Warning>)
    ensures earlier <= MergeWarnings(earlier, built)
    ensures forall w :: w in MergeWarnings(earlier, built) <==> w in earlier || w in built
    ensures forall w :: w in MergeWarnings(earlier, built)[|earlier|..] ==> w !in earlier
  {
    forall w ensures w in Filter(NotIn(earlier), built) <==> w in built && w !in earlier {
      FilterMember(NotIn(earlier), built, w);
    }
  }

  /** Finalizing a failed execution reports failure, whatever the stages left, unless a status was preset. */
  lemma FailedExecutionReportsFailure(ctx: StepData, config: Configuration)
    requires ctx.report.Some? ==> ctx.report.value.finalStatus.None?
    ensures var outcome := Finalize(ctx, config, true).outcome.value;
            && !outcome.success && !outcome.report.completed && outcome.report.failedSteps == 1
            && outcome.report.finalStatus == Some(FailedStatus)
    ensures forall state :: !Terminal(state) ==> AdvanceToEnd(state, true) == Failed
  {
  }

  // ----- soundness of the final status -----

  /** What "completed" rests on: the run is reconciled, nothing was warned about,
      and no dry-run result was counted. */
  lemma CompletedMeans(ctx: StepData, config: Configuration, failedExecution: bool)
    requires ctx.report.Some? ==> ctx.report.value.finalStatus.None?
    requires FinalReport(ctx, config, failedExecution).finalStatus == Some(CompletedStatus)
    ensures !failedExecution
    ensures Reconcile(ctx, config).isReconciled
    ensures ctx.report.Some? ==> ctx.report.value.warnings == []
    ensures BuildWarnings(ctx) == []
    ensures DryRunItems(ctx.upload) == 0
  {
    if ctx.report.Some? {
      var earlier := ctx.report.value.warnings;
      assert MergeWarnings(earlier, BuildWarnings(ctx)) == [];
      assert earlier == [];
      FilterAll(NotIn(earlier), BuildWarnings(ctx));
      assert forall i :: 0 <= i < |BuildWarnings(ctx)| ==> NotIn(earlier)(BuildWarnings(ctx)[i]);
    }
  }

  lemma NoWarningsNoFailures(ctx: StepData)
    requires ctx.transformation.Some? && BuildWarnings(ctx) == []
    ensures ctx.transformation.value.failedItems == 0
  {
    var t := ctx.transformation.value;
    assert WarningIf(t.failedItems > 0, FailedTransformation(t.failedItems)) <= BuildWarnings(ctx);
  }

  /** If a step-produced run ends "completed", every extracted item was
      transformed, and the target holds, for each transformed document, a document
      with matching checksum and signature. */
  lemma CompletedIsSound(ctx: StepData, config: Configuration, m: Results, t: Target, failedExecution: bool)
    requires StepProduced(ctx, config, m, t)
    requires ctx.report.Some? ==> ctx.report.value.finalStatus.None?
    requires FinalReport(ctx, config, failedExecution).finalStatus == Some(CompletedStatus)
    ensures ctx.report.Some? ==> ctx.report.value.warnings == []
    ensures ctx.transformation.value.failedItems == 0
    ensures |ctx.transformation.value.documents| == |ctx.extraction.value.items|
    ensures forall d :: d in ctx.transformation.value.documents ==> Verified(t)(d)
    ensures config.dryRun ==> ctx.transformation.value.documents == []
  {
    var docs := ctx.transformation.value.documents;
    CompletedMeans(ctx, config, failedExecution);
    NoWarningsNoFailures(ctx);
    if config.dryRun {
      EmissionCounts(docs, m, true);
      DryReconciliationIsExact(ctx, config, m, t);
      UniqueLength(docs);
    } else {
      ReconciliationIsExact(ctx, config, m, t);
    }
  }

  // ----- the step itself -----

  method CollectFailureWarnings(ctx: StepData) returns (warnings: seq<Warning>)
    ensures warnings == FailureWarnings(ctx)
  {
    var t, u, v := ctx.transformation, ctx.upload, ctx.verification;
    warnings := [];
    if t.Some? && t.value.failedItems > 0 {
      warnings := warnings + [FailedTransformation(t.value.failedItems)];
    }
    if u.Some? && u.value.failed != [] {
      warnings := warnings + [FailedUpload(|u.value.failed|)];
    }
    if v.Some? && v.value.failed != [] {
      warnings := warnings + [FailedVerification(|v.value.failed|)];
    }
  }

  /** The warning list, appended case by case. */
  method CollectWarnings(ctx: StepData) returns (warnings: seq<Warning>)
    ensures warnings == BuildWarnings(ctx)
  {
    var t, u := ctx.transformation, ctx.upload;
    warnings := CollectFailureWarnings(ctx);
    ghost var failures := warnings;
    if u.Some? && u.value.skipped != [] {
      warnings := warnings + [SkippedInUpload(|u.value.skipped|)];
    }
    if t.Some? && t.value.skippedItems > 0 {
      warnings := warnings + [SkippedInTransformation(t.value.skippedItems)];
    }
    assert warnings == failures + SkipWarnings(ctx);
  }

  /** Advances the machine to its terminal state. */
  method AdvanceStateMachine(machine: MigrationStateMachine, failedExecution: bool)
    modifies machine
    ensures machine.currentState == AdvanceToEnd(old(machine.currentState), failedExecution)
  {
    if failedExecution {
      if machine.currentState != Failed && CanTransition(machine.currentState, Failed) {
        var _ := machine.TransitionTo(Failed);
      }
      return;
    }
    if machine.currentState != Finalizing && CanTransition(machine.currentState, Finalizing) {
      var _ := machine.TransitionTo(Finalizing);
    }
    if CanTransition(machine.currentState, Completed) {
      var _ := machine.TransitionTo(Completed);
    }
  }

  /** The finalization step. It fails the execution only when the machine has failed already. */
  method RunFinalization(ctx: StepData, config: Configuration, machine: MigrationStateMachine) returns (r: StepData)
    modifies machine
    ensures r == Finalize(ctx, config, old(machine.currentState) == Failed)
    ensures machine.currentState == AdvanceToEnd(old(machine.currentState), old(machine.currentState) == Failed)
  {
    var failedExecution := machine.currentState == Failed;
    var warnings := CollectWarnings(ctx);
    AdvanceStateMachine(machine, failedExecution);
    var reconciliation := ResolveReconciliation(ctx, config);
    var report := ReportFor(ctx, config, failedExecution, reconciliation, warnings);
    var breakdown := BuildBreakdown(ctx, report.finalStatus.value, None);
    return ctx.(report := Some(report),
                outcome := Some(Outcome(!failedExecution, report, report.metrics.value, FinalSnapshot(ctx),
                                        warnings, breakdown)));
  }
}
