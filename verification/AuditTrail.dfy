/** What the entries of the error audit say, and what the audit of a finished job lists. */
module AuditTrails {
  import opened Prelude
  import opened Records
  import opened StepRegistries
  import opened StepContexts
  import opened Extractions
  import opened Rehydration
  import opened Transformations
  import opened Targets
  import opened Uploads
  import opened Verifications
  import opened ErrorBreakdowns
  import opened Finalization
  import opened StepBodies
  import opened Runner
  import opened Resumption
  import opened MigrationStages
  import opened MigrationJobs
  import opened JobReports
  import opened DocumentContents
  import opened FinalCounts
  import opened ExactReports

  // ----- entries -----

  /** An entry of a stage that works on items: never retryable, about one attempt. */
  ghost predicate ItemEntry(entry: ErrorEntry, stage: Stage, code: FailureCode, id: string, status: FinalStatus) {
    && entry.sourceIdentifier == Some(id)
    && entry.stage == stage && entry.code == code
    && !entry.retryable && entry.attemptCount == 1
    && entry.finalStatus == status
  }

  /** The first item with this identifier. */
  ghost predicate IsFirstItem(items: seq<MailItem>, id: string, item: MailItem) {
    exists i :: 0 <= i < |items| && items[i] == item && item.messageId == id
                && forall j :: 0 <= j < i ==> items[j].messageId != id
  }

  /** The entry names the kind of the first extracted item of its identifier, and the archive that
      holds the identifier first. */
  ghost predicate NamesItsItem(entry: ErrorEntry, items: seq<MailItem>, archives: seq<Archive>, id: string) {
    exists item, context ::
      && IsFirstItem(items, id, item) && IsFirstHolder(archives, id, context)
      && entry.itemType == Some(item.itemType) && entry.archiveIdentifier == Some(context.archive.name)
  }

  lemma FoundIsFirst(items: seq<MailItem>, id: string)
    requires Contains(items, id)
    ensures FindSourceItem(items, id).Some? && IsFirstItem(items, id, FindSourceItem(items, id).value)
  {
    var item :| item in items && item.messageId == id;
    var i :| 0 <= i < |items| && items[i] == item;
    var p := (item: MailItem) => item.messageId == id;
    FirstIndexExists(p, items, i);
  }

  /** Each failed transformation has an entry of its own kind, in order. */
  lemma TransformationEntriesMeaning(ctx: StepData, status: FinalStatus, i: nat)
    requires ctx.transformation.Some? && i < |ctx.transformation.value.failedIdentifiers|
    requires ctx.extraction.Some? && ctx.stores.Some?
    requires AllFound(ArchivesOf(ctx.stores.value), ctx.extraction.value.items)
    requires Contains(ctx.extraction.value.items, ctx.transformation.value.failedIdentifiers[i])
    ensures var id, entries := ctx.transformation.value.failedIdentifiers[i], TransformationEntries(ctx, status);
            && |entries| == |ctx.transformation.value.failedIdentifiers|
            && ItemEntry(entries[i], TransformationStage, TransformationFailedCode, id, status)
            && entries[i].message == TransformationFailedMessage
            && NamesItsItem(entries[i], ctx.extraction.value.items, ArchivesOf(ctx.stores.value), id)
  {
    var items, archives, id := ctx.extraction.value.items, ArchivesOf(ctx.stores.value),
        ctx.transformation.value.failedIdentifiers[i];
    FoundIsFirst(items, id);
    var item := FindSourceItem(items, id).value;
    assert FindContext(archives, item.messageId).Some?;
    ContextIsFirstHolder(archives, id);
    var entry := TransformationEntry(ctx, status, id);
    assert IsFirstHolder(archives, id, FindContext(archives, id).value);
    assert NamesItsItem(entry, items, archives, id);
  }

  /** Each failed upload has an entry of its own kind, in order, told from its document. */
  lemma UploadEntriesMeaning(ctx: StepData, status: FinalStatus, i: nat)
    requires ctx.upload.Some? && i < |ctx.upload.value.failed|
    ensures var d, entries := ctx.upload.value.failed[i], UploadEntries(ctx, status);
            && |entries| == |ctx.upload.value.failed|
            && ItemEntry(entries[i], UploadStage, UploadFailedCode, d.sourceIdentifier, status)
            && entries[i].message == UploadFailedMessage
            && entries[i].archiveIdentifier == Some(d.archiveName) && entries[i].itemType == Some(d.itemType)
  {
  }

  lemma {:induction false} DocumentByIdFinds(docs: seq<TransformedDocument>, d: TransformedDocument)
    requires DistinctKeys(docs) && d in docs
    ensures DocumentById(docs, d.sourceIdentifier) == Some(d)
  {
    var n := |docs| - 1;
    if docs[n].sourceIdentifier == d.sourceIdentifier {
      SameKeySameDocument(docs, docs[n], d);
    } else {
      assert docs == docs[..n] + [docs[n]];
      DocumentByIdFinds(docs[..n], d);
    }
  }

  /** Each document that failed verification has an entry told from it. */
  lemma VerificationEntryNamesItsDocument(ctx: StepData, status: FinalStatus, i: nat, d: TransformedDocument)
    requires ctx.verification.Some? && ErrorBreakdowns.Consistent(ctx.verification.value)
    requires i < |ctx.verification.value.failed| && ctx.verification.value.failed[i] == d.sourceIdentifier
    requires ctx.transformation.Some? && DistinctKeys(ctx.transformation.value.documents)
    requires d in ctx.transformation.value.documents
    ensures var entries := VerificationEntries(ctx, status);
            && i < |entries|
            && ItemEntry(entries[i], VerificationStage, VerificationFailedCode, d.sourceIdentifier, status)
            && entries[i].archiveIdentifier == Some(d.archiveName) && entries[i].itemType == Some(d.itemType)
  {
    VerificationEntriesMeaning(ctx, status, i);
    RecordedFailuresMeaning(ctx.verification.value);
    DocumentByIdFinds(ctx.transformation.value.documents, d);
  }

  /** Where no item failed, the one entry of a failed run tells of the step that failed: its name,
      whether its last failure was retryable, and the attempts it took. */
  lemma PipelineEntryMeaning(ctx: StepData, step: FailedStep)
    requires Breakdown(ctx, FailedStatus, None) == []
    ensures |Breakdown(ctx, FailedStatus, Some(step))| == 1
    ensures var entry := Breakdown(ctx, FailedStatus, Some(step))[0];
            && entry.sourceIdentifier.None? && entry.archiveIdentifier.None? && entry.itemType.None?
            && entry.stage == PipelineStage(step.name) && entry.code == StepFailedCode
            && entry.retryable == step.retryable && entry.attemptCount == step.attempts
            && entry.finalStatus == FailedStatus
  {
  }

  // ----- what an upload says of a document it turned down -----

  /** A result that is no success names its reason: the target's own refusal, or the checksums of
      both documents of a conflict; a success names the target's identifier and no reason. */
  lemma ResultNamesItsReason(t: Target, d: TransformedDocument)
    ensures var r, key := UploadResult(t, d), d.sourceIdentifier;
            && r.sourceIdentifier == key
            && (Takes(t)(d) ==> r.success && r.targetIdentifier == Some(key) && r.error.None?)
            && (!Takes(t)(d) ==>
                  && !r.success && r.targetIdentifier.None?
                  && (key in t.refusals ==> r.error == Some(RefusedByTarget(t.refusals[key])))
                  && (key !in t.refusals ==>
                        && key in t.documents
                        && r.error == Some(Conflict(key, t.documents[key].checksum, d.checksum))))
  {
    ResultTellsNewFromStored(t, d);
  }

  /** Each item result of an upload belongs to its document: for the first of an identifier, what
      the target says of it as if it came first; for a later one, that it was skipped as a duplicate. */
  lemma ItemResultsFollowDocuments(t: Target, docs: seq<TransformedDocument>, i: nat)
    requires i < |docs|
    ensures var results := CleanBatch(t, docs, false).itemResults;
            && |results| == |docs|
            && results[i].sourceIdentifier == docs[i].sourceIdentifier
            && (docs[i].sourceIdentifier !in Keys(docs[..i]) ==> results[i] == UploadResult(t, docs[i]))
            && (docs[i].sourceIdentifier in Keys(docs[..i]) ==>
                  !results[i].success && !results[i].replay && results[i].error == Some(SkippedDuplicate))
  {
    var distinctDocs := Unique(docs);
    UniqueHasDistinctKeys(docs);
    var results := UploadResults(t, distinctDocs);
    var m := ResultsByKey(distinctDocs, results);
    ResultsFollowDocuments(docs, m, i);
    if docs[i].sourceIdentifier !in Keys(docs[..i]) {
      FirstIsKept(docs, i);
      var k :| 0 <= k < |distinctDocs| && distinctDocs[k] == docs[i];
      ResultByKey(distinctDocs, results, k);
      UploadResultsAreIndependent(t, distinctDocs, k);
      ResultNamesItsReason(t, docs[i]);
    }
  }

  lemma {:induction false} FirstIsKept(docs: seq<TransformedDocument>, i: nat)
    requires i < |docs| && docs[i].sourceIdentifier !in Keys(docs[..i])
    ensures docs[i] in Unique(docs)
  {
    var n := |docs| - 1;
    if i < n {
      assert docs[..n][..i] == docs[..i];
      FirstIsKept(docs[..n], i);
    }
  }

  // ----- the audit of a finished job -----

  /** One entry for each item rehydration rejected, then one for each document the target does not
      take, both in order, and no other. */
  ghost predicate AuditTells(e: Expected, outcome: Outcome) {
    var failed := e.transformation.failedIdentifiers;
    var refused := if e.config.dryRun then [] else Filter(Not(Takes(e.start)), Unique(e.transformation.documents));
    && outcome.report.finalStatus.Some?
    && |outcome.breakdown| == |failed| + |refused|
    && (forall i :: 0 <= i < |failed| ==>
          TellsOfItem(e, outcome.breakdown[i], failed[i], outcome.report.finalStatus.value))
    && (forall i :: 0 <= i < |refused| ==>
          TellsOfDocument(outcome.breakdown[|failed| + i], refused[i], outcome.report.finalStatus.value))
  }

  ghost predicate TellsOfItem(e: Expected, entry: ErrorEntry, id: string, status: FinalStatus) {
    && ItemEntry(entry, TransformationStage, TransformationFailedCode, id, status)
    && entry.message == TransformationFailedMessage
    && NamesItsItem(entry, e.extraction.items, ArchivesOf(e.stores), id)
  }

  ghost predicate TellsOfDocument(entry: ErrorEntry, d: TransformedDocument, status: FinalStatus) {
    && ItemEntry(entry, UploadStage, UploadFailedCode, d.sourceIdentifier, status)
    && entry.message == UploadFailedMessage
    && entry.archiveIdentifier == Some(d.archiveName) && entry.itemType == Some(d.itemType)
  }

  lemma {:induction false} FailedIdsAreItems(items: seq<MailItem>, outcomes: seq<Rebuilt>, id: string)
    requires |items| == |outcomes| && id in FailedIdsOf(items, outcomes)
    ensures Contains(items, id)
  {
    var n := |items| - 1;
    if id in FailedIdsOf(items[..n], outcomes[..n]) {
      FailedIdsAreItems(items[..n], outcomes[..n], id);
      var item :| item in items[..n] && item.messageId == id;
      assert item in items;
    } else {
      assert items[n] in items;
    }
  }

  lemma ExpectedFailuresAreItems(plan: Plan, e: Expected)
    requires Expects(plan, e)
    ensures AllFound(ArchivesOf(e.stores), e.extraction.items)
    ensures forall id :: id in e.transformation.failedIdentifiers ==> Contains(e.extraction.items, id)
  {
    ExpectedTransformation(plan, e);
    var outcomes := History(plan.sha256, EMPTY_SERVICE, e.extraction.items).1;
    forall id | id in e.transformation.failedIdentifiers ensures Contains(e.extraction.items, id) {
      FailedIdsAreItems(e.extraction.items, outcomes, id);
    }
  }

  lemma TransformationAudit(plan: Plan, e: Expected, allowed: Allowed, ctx: StepData, status: FinalStatus)
    requires Expects(plan, e) && ContextFits(e, allowed, 5, ctx)
    ensures var failed, entries := e.transformation.failedIdentifiers, TransformationEntries(ctx, status);
            && |entries| == |failed|
            && forall i :: 0 <= i < |failed| ==> TellsOfItem(e, entries[i], failed[i], status)
  {
    ExpectedFailuresAreItems(plan, e);
    var failed := e.transformation.failedIdentifiers;
    forall i | 0 <= i < |failed| ensures TellsOfItem(e, TransformationEntries(ctx, status)[i], failed[i], status) {
      TransformationEntriesMeaning(ctx, status, i);
    }
  }

  lemma UploadAudit(ctx: StepData, status: FinalStatus)
    requires ctx.upload.Some?
    ensures var failed, entries := ctx.upload.value.failed, UploadEntries(ctx, status);
            && |entries| == |failed|
            && forall i :: 0 <= i < |failed| ==> TellsOfDocument(entries[i], failed[i], status)
  {
    forall i | 0 <= i < |ctx.upload.value.failed|
      ensures TellsOfDocument(UploadEntries(ctx, status)[i], ctx.upload.value.failed[i], status)
    {
      UploadEntriesMeaning(ctx, status, i);
    }
  }

  predicate NothingListed(v: Verification) {
    v.failed == [] && v.missing == [] && v.checksumMismatches == [] && v.metadataMismatches == []
  }

  lemma NothingListedNoEntry(ctx: StepData, status: FinalStatus)
    requires ctx.verification.Some? && NothingListed(ctx.verification.value)
    ensures VerificationEntries(ctx, status) == []
  {
    assert ErrorBreakdowns.Consistent(ctx.verification.value);
    VerificationEntriesCount(ctx, status);
  }

  /** What the upload lists as failed, and that verification lists nothing. */
  ghost predicate FailsOnlyInUpload(e: Expected, ctx: StepData) {
    && ctx.upload.Some? && ctx.verification.Some? && NothingListed(ctx.verification.value)
    && ctx.upload.value.failed
       == (if e.config.dryRun then [] else Filter(Not(Takes(e.start)), Unique(e.transformation.documents)))
  }

  lemma FittingFailsOnlyInUpload(plan: Plan, e: Expected, ctx: StepData)
    requires Expects(plan, e) && ContextFits(e, ExactBatch(e), 5, ctx)
    ensures FailsOnlyInUpload(e, ctx)
  {
    if e.config.dryRun {
      FittingDryStages(plan, e, ctx);
    } else {
      FittingWritingStages(plan, e, ctx);
    }
  }

  lemma OnlyEarlierEntries(ctx: StepData, status: FinalStatus)
    requires VerificationEntries(ctx, status) == []
    ensures Breakdown(ctx, status, None) == TransformationEntries(ctx, status) + UploadEntries(ctx, status)
  {
  }

  lemma AuditFollows(plan: Plan, e: Expected, ctx: StepData, status: FinalStatus)
    requires Expects(plan, e) && ContextFits(e, ExactBatch(e), 5, ctx)
    ensures Breakdown(ctx, status, None) == TransformationEntries(ctx, status) + UploadEntries(ctx, status)
  {
    FittingFailsOnlyInUpload(plan, e, ctx);
    NothingListedNoEntry(ctx, status);
    OnlyEarlierEntries(ctx, status);
  }

  lemma FinalizationAudits(plan: Plan, e: Expected, ctx: StepData)
    requires Expects(plan, e) && ContextFits(e, ExactBatch(e), 5, ctx)
    ensures AuditTells(e, Finalize(ctx, e.config, false).outcome.value)
  {
    var status := FinalReport(ctx, e.config, false).finalStatus.value;
    FittingFailsOnlyInUpload(plan, e, ctx);
    AuditFollows(plan, e, ctx, status);
    TransformationAudit(plan, e, ExactBatch(e), ctx, status);
    UploadAudit(ctx, status);
    AuditOfParts(e, Finalize(ctx, e.config, false).outcome.value, TransformationEntries(ctx, status),
                 UploadEntries(ctx, status), ctx.upload.value.failed, status);
  }

  lemma AuditOfParts(e: Expected, outcome: Outcome, first: seq<ErrorEntry>, second: seq<ErrorEntry>,
                     refused: seq<TransformedDocument>, status: FinalStatus)
    requires outcome.breakdown == first + second && outcome.report.finalStatus == Some(status)
    requires refused == (if e.config.dryRun then []
                         else Filter(Not(Takes(e.start)), Unique(e.transformation.documents)))
    requires |first| == |e.transformation.failedIdentifiers| && |second| == |refused|
    requires forall i :: 0 <= i < |first| ==> TellsOfItem(e, first[i], e.transformation.failedIdentifiers[i], status)
    requires forall i :: 0 <= i < |second| ==> TellsOfDocument(second[i], refused[i], status)
    ensures AuditTells(e, outcome)
  {
    var failed := e.transformation.failedIdentifiers;
    forall i | 0 <= i < |failed| ensures TellsOfItem(e, outcome.breakdown[i], failed[i], status) {
      assert outcome.breakdown[i] == first[i];
    }
    forall i | 0 <= i < |refused| ensures TellsOfDocument(outcome.breakdown[|failed| + i], refused[i], status) {
      assert outcome.breakdown[|failed| + i] == second[i];
    }
  }

  lemma FinishedAudits(plan: Plan, e: Expected, ctx: StepData)
    requires Expects(plan, e) && Finalized(e, ExactBatch(e), ctx)
    ensures ctx.outcome.Some? && AuditTells(e, ctx.outcome.value)
  {
    var before :| ContextFits(e, ExactBatch(e), 5, before) && ctx.outcome == Finalize(before, e.config, false).outcome;
    FinalizationAudits(plan, e, before);
  }

  /** From a target that hides nothing, the audit of every job that finishes has one entry for each
      item rehydration rejected, with the item's kind and the archive that holds it first, then one
      for each distinct document the target did not take, and nothing else. */
  lemma FinishedJobAudits(plan: Plan, env: Env, e: Expected, launches: seq<Launch>, s: RunnerState)
    requires MigrationJob(plan, env, e) && Transparent(e) && BeforeJob(env, e, s) && launches != []
    ensures var (after, end) := RunJob(env, launches, s);
            end.Finished? ==> after.world.ctx.outcome.Some? && AuditTells(e, after.world.ctx.outcome.value)
  {
    ResumeEqualsUninterrupted(plan, env, e, launches, s);
    if RunJob(env, launches, s).1.Finished? {
      FinishedAudits(plan, e, RunJob(env, launches, s).0.world.ctx);
    }
  }

  /** And from any target, that of a fresh run in which nothing raises. */
  lemma UninterruptedRunAudits(plan: Plan, env: Env, e: Expected, oracle: Oracle, s: RunnerState)
    requires MigrationJob(plan, env, e) && BeforeJob(env, e, s) && Clean(oracle)
    ensures var after := RunFresh(env, oracle, s).0;
            after.world.ctx.outcome.Some? && AuditTells(e, after.world.ctx.outcome.value)
  {
    UninterruptedRunFinishes(plan, env, e, oracle, s);
    FinishedAudits(plan, e, RunFresh(env, oracle, s).0.world.ctx);
  }
}
