/** What the six migration steps establish, whatever an interrupted attempt left in
    the target and in the rehydration cache. */
module MigrationStages {
  import opened Prelude
  import opened Records
  import opened StateMachine
  import opened StepRegistries
  import opened StepContexts
  import opened Extractions
  import opened Rehydration
  import opened Transformations
  import opened Targets
  import opened Uploads
  import opened Verifications
  import opened Finalization
  import opened StepBodies
  import opened Resumption

  // ----- the results of an uninterrupted run -----

  datatype Expected = Expected(
    config: Configuration,
    source: seq<VaultStore>,
    start: Target,
    discovery: Discovery,
    stores: seq<VaultStore>,
    extraction: Extraction,
    transformation: Transformation,
    cache: Cache,
    batch: UploadBatch,
    target: Target,
    verification: Verification)

  /** e holds the stage results of a run from target e.start that nothing interrupts. */
  ghost predicate Expects(plan: Plan, e: Expected) {
    && e.source == plan.source
    && e.discovery == Discover(plan.source, e.config)
    && e.stores == SelectStores(plan.source, e.discovery.storeNames)
    && e.extraction == Extract(plan.source, e.discovery, e.config)
    && (var (service, t) := TransformAll(plan.sha256, plan.convert, ArchivesOf(e.stores), EMPTY_SERVICE,
                                         e.extraction.items);
        t == Some(e.transformation) && service.cache == e.cache)
    && e.batch == CleanBatch(e.start, e.transformation.documents, e.config.dryRun)
    && e.target == FinalTarget(e.start, e.transformation.documents, e.config.dryRun)
    && e.verification == Verify(e.target, e.batch, e.config)
  }

  lemma EverythingFound(plan: Plan, config: Configuration)
    ensures var discovery := Discover(plan.source, config);
            AllFound(ArchivesOf(SelectStores(plan.source, discovery.storeNames)),
                     Extract(plan.source, discovery, config).items)
  {
    var discovery := Discover(plan.source, config);
    var items := Extract(plan.source, discovery, config).items;
    SelectionIsIdempotent(plan.source, discovery.storeNames);
    forall i | 0 <= i < |items|
      ensures FindContext(ArchivesOf(SelectStores(plan.source, discovery.storeNames)), items[i].messageId).Some?
    {
      ExtractedItemsHaveContext(plan.source, discovery, config, items[i]);
    }
  }

  /** Every plan, configuration and target has such results: the pipeline never
      lacks the context of an extracted item. */
  lemma ExpectedResults(plan: Plan, config: Configuration, start: Target) returns (e: Expected)
    ensures Expects(plan, e) && e.config == config && e.start == start
  {
    var discovery := Discover(plan.source, config);
    var stores := SelectStores(plan.source, discovery.storeNames);
    var extraction := Extract(plan.source, discovery, config);
    EverythingFound(plan, config);
    TransformationFollowsRehydration(plan.sha256, plan.convert, ArchivesOf(stores), EMPTY_SERVICE, extraction.items);
    var (service, result) := TransformAll(plan.sha256, plan.convert, ArchivesOf(stores), EMPTY_SERVICE,
                                          extraction.items);
    var docs := result.value.documents;
    var target := FinalTarget(start, docs, config.dryRun);
    var batch := CleanBatch(start, docs, config.dryRun);
    e := Expected(config, plan.source, start, discovery, stores, extraction, result.value, service.cache,
                  batch, target, Verify(target, batch, config));
  }

  // ----- stages -----

  /** The same documents and failures; a retry may word a failure differently. */
  ghost predicate SameTransformation(a: Transformation, b: Transformation) {
    && a.documents == b.documents && a.failedIdentifiers == b.failedIdentifiers
    && a.failedItems == b.failedItems && a.skippedItems == b.skippedItems
    && |a.warnings| == |b.warnings|
  }

  /** The batch a job may report, up to replay flags and the wording of errors, or None
      for whatever upload results account for. */
  type Allowed = Option<UploadBatch>

  /** Only the batch of an uninterrupted run. */
  ghost function ExactBatch(e: Expected): Allowed {
    Some(BatchEssence(e.batch))
  }

  /** Only the batch a resume rebuilds from the finished target. */
  ghost function RebuiltBatch(e: Expected): Allowed {
    Some(BatchEssence(ReconstructedBatch(e.target, e.transformation.documents, e.config.dryRun)))
  }

  /** A batch that is allowed, that upload results account for, and that some attempt or replay reported. */
  ghost predicate UploadFits(e: Expected, allowed: Allowed, b: UploadBatch) {
    && (allowed.Some? ==> BatchEssence(b) == allowed.value)
    && (exists m :: StepResults(e.transformation.documents, m, e.config.dryRun)
                    && b == Emit(e.transformation.documents, m))
    && WasReported(e, b)
  }

  /** The batch of an attempt from a target earlier attempts may have left, or of a replay. */
  ghost predicate WasReported(e: Expected, b: UploadBatch) {
    exists t, perform :: ReportedFrom(e, t, perform, b)
  }

  ghost predicate ReportedFrom(e: Expected, t: Target, perform: bool, b: UploadBatch) {
    && TargetFits(e, t) && (perform || t == e.target)
    && b == BatchResult(t, e.transformation.documents, perform, e.config.dryRun)
  }

  /** No final status yet, and warnings exactly if the expected stages have some. */
  ghost predicate ReportFits(e: Expected, k: nat, report: Option<Report>) {
    k >= 2 ==>
      && report.Some? && report.value.finalStatus.None?
      && (k == 2 ==> report.value.warnings == e.extraction.warnings)
      && (k >= 3 ==> (report.value.warnings == [] <==> e.extraction.warnings == [] && e.transformation.warnings == []))
  }

  ghost predicate EarlyReport(report: Option<Report>) {
    report.Some? ==> report.value.finalStatus.None?
  }

  /** The stage results present before step k. */
  ghost predicate ResultsFit(e: Expected, allowed: Allowed, k: nat, ctx: StepData) {
    && (if k < 2 then ctx.stores.Some? ==> ctx.stores.value == e.source else ctx.stores == Some(e.stores))
    && (k >= 1 ==> ctx.discovery == Some(e.discovery))
    && (k >= 2 ==> ctx.extraction == Some(e.extraction))
    && (k >= 3 ==> ctx.transformation.Some? && SameTransformation(ctx.transformation.value, e.transformation))
    && (k >= 4 ==> ctx.upload.Some? && UploadFits(e, allowed, ctx.upload.value))
    && (k >= 5 ==> ctx.verification == Some(Verify(e.target, ctx.upload.value, e.config)))
  }

  ghost predicate ContextFits(e: Expected, allowed: Allowed, k: nat, ctx: StepData) {
    ResultsFit(e, allowed, k, ctx) && EarlyReport(ctx.report) && ReportFits(e, k, ctx.report)
  }

  /** The outcome finalization reported, from a context with all five stage results. */
  ghost predicate Finalized(e: Expected, allowed: Allowed, ctx: StepData) {
    exists before :: ContextFits(e, allowed, 5, before) && ctx.outcome == Finalize(before, e.config, false).outcome
  }

  ghost predicate CacheFits(plan: Plan, e: Expected, service: Service) {
    CacheValid(plan.sha256, service.cache) && Grows(service.cache, e.cache)
  }

  ghost predicate TargetFits(e: Expected, t: Target) {
    && Interrupted(e.start, t, Unique(e.transformation.documents))
    && (e.config.dryRun ==> t == e.start)
  }

  ghost predicate StageAt(plan: Plan, e: Expected, allowed: Allowed, i: nat, w: World) {
    && CacheFits(plan, e, w.service) && TargetFits(e, w.target)
    && (i >= 4 ==> w.target == e.target)
    && (if i <= 5 then ContextFits(e, allowed, i, w.ctx)
        else ResultsFit(e, allowed, 5, w.ctx) && Finalized(e, allowed, w.ctx))
  }

  ghost function StagesOf(plan: Plan, e: Expected, allowed: Allowed): Stages {
    Stages((i: nat, w: World) => StageAt(plan, e, allowed, i, w),
           (t: Target, service: Service) => CacheFits(plan, e, service) && TargetFits(e, t),
           (j: nat, t: Target) => j >= 3 ==> t == e.target)
  }

  /** A completed body leads to the next stage, and its step can be attempted again. */
  ghost predicate Establishes(plan: Plan, e: Expected, allowed: Allowed, i: nat, w: World, b: BodyEnd) {
    && b.ok && StageAt(plan, e, allowed, i + 1, b.world)
    && StageAt(plan, e, allowed, i, World(w.ctx, b.world.target, b.world.service))
    && Ready(i, b.machine) && Ready(i + 1, b.machine)
    && (w.target == e.target ==> b.world.target == e.target)
  }

  /** A stopped body leaves its step to be attempted again. */
  ghost predicate Halts(plan: Plan, e: Expected, allowed: Allowed, i: nat, w: World, b: BodyEnd) {
    && StageAt(plan, e, allowed, i, World(w.ctx, b.world.target, b.world.service))
    && Ready(i, b.machine)
    && (w.target == e.target ==> b.world.target == e.target)
  }

  // ----- steps that only extend the context -----

  /** A body that leaves the target, the cache and the machine alone. */
  ghost predicate OnlyContext(w: World, m: MigrationState, b: BodyEnd) {
    b.ok && b.world.target == w.target && b.world.service == w.service && b.machine == m
  }

  lemma ContextEstablishes(plan: Plan, e: Expected, allowed: Allowed, i: nat, m: MigrationState, w: World, b: BodyEnd)
    requires (i <= 1 || i == 4) && StageAt(plan, e, allowed, i, w) && Ready(i, m)
    requires OnlyContext(w, m, b) && ContextFits(e, allowed, i + 1, b.world.ctx)
    ensures Establishes(plan, e, allowed, i, w, b)
  {
  }

  lemma DiscoveredFits(plan: Plan, e: Expected, allowed: Allowed, ctx: StepData)
    requires Expects(plan, e) && ContextFits(e, allowed, 0, ctx)
    ensures ContextFits(e, allowed, 1, DiscoverBody(plan, e.config, ctx))
  {
  }

  lemma DiscoverEstablishes(plan: Plan, e: Expected, allowed: Allowed, choice: Choice, perform: bool, m: MigrationState,
                            w: World)
    requires Expects(plan, e) && StageAt(plan, e, allowed, 0, w) && Ready(0, m)
    ensures Establishes(plan, e, allowed, 0, w, CompleteBody(plan, e.config, DiscoverArchives, choice, perform, m, w))
  {
    DiscoveredFits(plan, e, allowed, w.ctx);
    ContextEstablishes(plan, e, allowed, 0, m, w,
                       CompleteBody(plan, e.config, DiscoverArchives, choice, perform, m, w));
  }

  lemma ExtractedFits(plan: Plan, e: Expected, allowed: Allowed, ctx: StepData)
    requires Expects(plan, e) && ContextFits(e, allowed, 1, ctx)
    ensures ExtractBody(plan, e.config, ctx).Some? && ContextFits(e, allowed, 2, ExtractBody(plan, e.config, ctx).value)
  {
  }

  lemma ExtractEstablishes(plan: Plan, e: Expected, allowed: Allowed, choice: Choice, perform: bool, m: MigrationState,
                           w: World)
    requires Expects(plan, e) && StageAt(plan, e, allowed, 1, w) && Ready(1, m)
    ensures Establishes(plan, e, allowed, 1, w, CompleteBody(plan, e.config, ExtractItems, choice, perform, m, w))
  {
    ExtractedFits(plan, e, allowed, w.ctx);
    ContextEstablishes(plan, e, allowed, 1, m, w, CompleteBody(plan, e.config, ExtractItems, choice, perform, m, w));
  }

  // ----- transformation over a partly filled cache -----

  lemma {:induction false} PrefixGrows(sha256: Digest, items: seq<MailItem>, n: nat)
    requires n <= |items|
    ensures Grows(History(sha256, EMPTY_SERVICE, items[..n]).0.cache, History(sha256, EMPTY_SERVICE, items).0.cache)
  {
    if n == |items| {
      TakeAll(items);
    } else {
      var init := items[..|items| - 1];
      assert init[..n] == items[..n];
      PrefixGrows(sha256, init, n);
      HistoryKeepsCacheValid(sha256, EMPTY_SERVICE, init);
      var before := History(sha256, EMPTY_SERVICE, init).0;
      ResolvePartsKeeps(sha256, before, items[|items| - 1].contentParts);
      GrowsTrans(History(sha256, EMPTY_SERVICE, items[..n]).0.cache, before.cache,
                 History(sha256, EMPTY_SERVICE, items).0.cache);
    }
  }

  /** What the expected transformation is, in terms of the rehydration history. */
  lemma ExpectedTransformation(plan: Plan, e: Expected)
    requires Expects(plan, e)
    ensures AllFound(ArchivesOf(e.stores), e.extraction.items)
    ensures var (service, outcomes) := History(plan.sha256, EMPTY_SERVICE, e.extraction.items);
            e.cache == service.cache
            && e.transformation == BatchOf(plan.convert, ArchivesOf(e.stores), e.extraction.items, outcomes)
  {
    EverythingFound(plan, e.config);
    TransformationFollowsRehydration(plan.sha256, plan.convert, ArchivesOf(e.stores), EMPTY_SERVICE,
                                     e.extraction.items);
  }

  /** Running the whole transformation again, over a cache an earlier run left. */
  lemma TransformationRepeats(plan: Plan, e: Expected, service: Service)
    requires Expects(plan, e) && CacheFits(plan, e, service)
    ensures var (after, t) := TransformAll(plan.sha256, plan.convert, ArchivesOf(e.stores), service,
                                           e.extraction.items);
            t.Some? && SameTransformation(t.value, e.transformation) && CacheFits(plan, e, after)
  {
    var archives, items := ArchivesOf(e.stores), e.extraction.items;
    ExpectedTransformation(plan, e);
    HistoryReplayed(plan.sha256, EMPTY_SERVICE, service, items);
    HistoryKeepsCacheValid(plan.sha256, service, items);
    TransformationFollowsRehydration(plan.sha256, plan.convert, archives, service, items);
    SameVerdictsSameBatch(plan.convert, archives, items, History(plan.sha256, service, items).1,
                          History(plan.sha256, EMPTY_SERVICE, items).1);
  }

  /** Stopping it anywhere leaves a cache that later runs can start from. */
  lemma TransformationStops(plan: Plan, e: Expected, service: Service, limit: nat)
    requires Expects(plan, e) && CacheFits(plan, e, service)
    ensures CacheFits(plan, e, TransformAll(plan.sha256, plan.convert, ArchivesOf(e.stores), service,
                                            Before(e.extraction.items, limit)).0)
  {
    var items := e.extraction.items;
    var n := if limit < |items| then limit else |items|;
    TakeAll(items);
    assert Before(items, limit) == items[..n];
    ExpectedTransformation(plan, e);
    PrefixGrows(plan.sha256, items, n);
    HistoryKeepsCacheValid(plan.sha256, EMPTY_SERVICE, items);
    HistoryReplayedTo(plan.sha256, EMPTY_SERVICE, service, items[..n], e.cache);
    HistoryKeepsCacheValid(plan.sha256, service, items[..n]);
    TransformationFollowsRehydration(plan.sha256, plan.convert, ArchivesOf(e.stores), service, items[..n]);
  }

  lemma MergedWarnings(a: seq<Warning>, b: seq<Warning>)
    ensures MergeWarnings(a, b) == [] <==> a == [] && b == []
  {
    FilterAll(NotIn(a), b);
  }

  lemma SelectedOnceMore(plan: Plan, e: Expected, allowed: Allowed, ctx: StepData)
    requires Expects(plan, e) && ResultsFit(e, allowed, 2, ctx)
    ensures TransformStores(plan, ctx) == e.stores
  {
    SelectionIsIdempotent(plan.source, e.discovery.storeNames);
  }

  lemma TransformedFits(plan: Plan, e: Expected, allowed: Allowed, ctx: StepData, t: Transformation)
    requires ContextFits(e, allowed, 2, ctx) && SameTransformation(t, e.transformation)
             && TransformStores(plan, ctx) == e.stores
    ensures ContextFits(e, allowed, 3, WithTransformation(plan, ctx, t))
  {
    MergedWarnings(e.extraction.warnings, t.warnings);
  }

  lemma TransformBodyFits(plan: Plan, e: Expected, allowed: Allowed, ctx: StepData, service: Service)
    requires Expects(plan, e) && ContextFits(e, allowed, 2, ctx) && CacheFits(plan, e, service)
    ensures var (after, fitting) := TransformBody(plan, ctx, service, None);
            CacheFits(plan, e, after) && fitting.Some? && ContextFits(e, allowed, 3, fitting.value)
  {
    SelectedOnceMore(plan, e, allowed, ctx);
    TransformationRepeats(plan, e, service);
    var t := TransformAll(plan.sha256, plan.convert, ArchivesOf(e.stores), service, e.extraction.items).1;
    TransformedFits(plan, e, allowed, ctx, t.value);
  }

  lemma TransformEstablishes(plan: Plan, e: Expected, allowed: Allowed, choice: Choice, perform: bool,
                             m: MigrationState, w: World)
    requires Expects(plan, e) && StageAt(plan, e, allowed, 2, w) && Ready(2, m)
    ensures Establishes(plan, e, allowed, 2, w, CompleteBody(plan, e.config, TransformItems, choice, perform, m, w))
  {
    var own := choice.ownService;
    TransformBodyFits(plan, e, allowed, w.ctx, if own then EMPTY_SERVICE else w.service);
    var (service, ctx) := TransformOver(plan, w.ctx, w.service, own, None);
    var b := BodyEnd(World(ctx.value, w.target, service), m, true, false);
    TransformedBody(plan, e.config, choice, perform, m, w);
    TransformedEstablishes(plan, e, allowed, m, w, b);
  }

  lemma TransformedBody(plan: Plan, config: Configuration, choice: Choice, perform: bool, m: MigrationState, w: World)
    requires TransformOver(plan, w.ctx, w.service, choice.ownService, None).1.Some?
    ensures var (service, ctx) := TransformOver(plan, w.ctx, w.service, choice.ownService, None);
            CompleteBody(plan, config, TransformItems, choice, perform, m, w)
            == BodyEnd(World(ctx.value, w.target, service), m, true, false)
  {
  }

  lemma TransformedEstablishes(plan: Plan, e: Expected, allowed: Allowed, m: MigrationState, w: World, b: BodyEnd)
    requires StageAt(plan, e, allowed, 2, w) && Ready(2, m) && b.ok && b.machine == m
    requires b.world.target == w.target && CacheFits(plan, e, b.world.service)
    requires ContextFits(e, allowed, 3, b.world.ctx)
    ensures Establishes(plan, e, allowed, 2, w, b)
  {
  }

  lemma TransformStopFits(plan: Plan, e: Expected, allowed: Allowed, ctx: StepData, service: Service, limit: nat)
    requires Expects(plan, e) && ContextFits(e, allowed, 2, ctx) && CacheFits(plan, e, service)
    ensures CacheFits(plan, e, TransformBody(plan, ctx, service, Some(limit)).0)
  {
    SelectedOnceMore(plan, e, allowed, ctx);
    TransformationStops(plan, e, service, limit);
  }

  lemma TransformHalts(plan: Plan, e: Expected, allowed: Allowed, choice: Choice, m: MigrationState, w: World)
    requires Expects(plan, e) && StageAt(plan, e, allowed, 2, w) && Ready(2, m)
    ensures Halts(plan, e, allowed, 2, w, StoppedBody(plan, e.config, TransformItems, choice, true, m, w))
  {
    if !choice.ownService {
      TransformStopFits(plan, e, allowed, w.ctx, w.service, choice.stop.progress);
    }
  }

  // ----- upload over a partly filled target -----

  lemma OutcomesFit(t: Target, docs: seq<TransformedDocument>, perform: bool, dryRun: bool, i: nat)
    requires DistinctKeys(docs) && i < |docs|
    ensures var r := OutcomesOf(t, docs, perform, dryRun)[i];
            r.dryRun == dryRun && (dryRun ==> r.success) && (r.replay ==> r.success && !dryRun)
  {
    if !dryRun && perform {
      UploadResultsAreIndependent(t, docs, i);
    }
  }

  /** Every batch the upload step produces or rebuilds is accounted for by per-document results. */
  lemma BatchIsAccountedFor(t: Target, docs: seq<TransformedDocument>, perform: bool, dryRun: bool)
    ensures exists m :: StepResults(docs, m, dryRun) && BatchResult(t, docs, perform, dryRun) == Emit(docs, m)
  {
    var distinctDocs := Unique(docs);
    UniqueHasDistinctKeys(docs);
    var outcomes := OutcomesOf(t, distinctDocs, perform, dryRun);
    var m := ResultsByKey(distinctDocs, outcomes);
    forall key | key in m
      ensures m[key].dryRun == dryRun && (dryRun ==> m[key].success) && (m[key].replay ==> m[key].success && !dryRun)
    {
      var i :| 0 <= i < |distinctDocs| && distinctDocs[i].sourceIdentifier == key;
      ResultByKey(distinctDocs, outcomes, i);
      OutcomesFit(t, distinctDocs, perform, dryRun, i);
    }
    assert StepResults(docs, m, dryRun);
  }

  lemma ExpectedTargetFits(plan: Plan, e: Expected)
    requires Expects(plan, e)
    ensures TargetFits(e, e.target)
  {
    var distinctDocs := Unique(e.transformation.documents);
    UniqueHasDistinctKeys(e.transformation.documents);
    TakeAll(distinctDocs);
    PrefixIsInterruption(e.start, distinctDocs, if e.config.dryRun then 0 else |distinctDocs|);
  }

  lemma StartFits(e: Expected)
    ensures TargetFits(e, e.start)
  {
  }

  /** Performing the upload may report what it does report. */
  ghost predicate AllowsUpload(e: Expected, allowed: Allowed) {
    allowed.Some? ==> allowed == ExactBatch(e)
  }

  /** Rebuilding it may report what it does report. */
  ghost predicate AllowsRebuild(e: Expected, allowed: Allowed) {
    allowed.Some? ==> allowed == RebuiltBatch(e)
  }

  /** Completing the upload from whatever an earlier attempt left. */
  lemma UploadCompletes(plan: Plan, e: Expected, t: Target)
    requires Expects(plan, e) && TargetFits(e, t)
    ensures var docs, dry := e.transformation.documents, e.config.dryRun;
            FinalTarget(t, docs, dry) == e.target && UploadFits(e, ExactBatch(e), CleanBatch(t, docs, dry))
  {
    var docs, dry := e.transformation.documents, e.config.dryRun;
    InterruptedBatchAgrees(e.start, t, docs, dry);
    ReplayIsInessential(CleanBatch(t, docs, dry), CleanBatch(e.start, docs, dry));
    BatchIsAccountedFor(t, docs, true, dry);
    assert ReportedFrom(e, t, true, CleanBatch(t, docs, dry));
  }

  /** The target hides no document that it would turn down. */
  ghost predicate Transparent(e: Expected) {
    e.config.dryRun || NothingHidden(e.start, Unique(e.transformation.documents))
  }

  /** Rebuilding the upload from the finished target of a transparent start. */
  lemma UploadRebuilds(plan: Plan, e: Expected)
    requires Expects(plan, e) && Transparent(e)
    ensures RebuiltBatch(e) == ExactBatch(e)
    ensures UploadFits(e, ExactBatch(e), ReconstructedBatch(e.target, e.transformation.documents, e.config.dryRun))
  {
    var docs, dry := e.transformation.documents, e.config.dryRun;
    ReconstructionAgrees(e.start, docs, dry);
    BatchIsAccountedFor(e.target, docs, false, dry);
    ExpectedTargetFits(plan, e);
    assert ReportedFrom(e, e.target, false, ReconstructedBatch(e.target, docs, dry));
  }

  /** From any other start it gives another batch. */
  lemma OpaqueStartRebuildsOtherwise(plan: Plan, e: Expected)
    requires Expects(plan, e) && !Transparent(e)
    ensures RebuiltBatch(e) != ExactBatch(e)
  {
    ReconstructionDiffers(e.start, e.transformation.documents);
  }

  /** Stopping the upload anywhere leaves a target that later attempts can start
      from, and does not spoil a finished one. */
  lemma UploadStops(plan: Plan, e: Expected, t: Target, stop: StopPoint)
    requires Expects(plan, e) && TargetFits(e, t)
    ensures var after := StoppedTarget(t, e.transformation.documents, e.config, stop);
            TargetFits(e, after) && (t == e.target ==> after == e.target)
  {
    var docs := e.transformation.documents;
    var after := StoppedTarget(t, docs, e.config, stop);
    StoppedIsInterrupted(t, docs, e.config, stop);
    InterruptedTwice(e.start, t, after, Unique(docs));
    UniqueHasDistinctKeys(docs);
    if t == e.target && !e.config.dryRun {
      CompleteStaysComplete(e.start, after, Unique(docs));
    }
  }

  lemma UploadedFits(e: Expected, allowed: Allowed, ctx: StepData, b: UploadBatch)
    requires ContextFits(e, allowed, 3, ctx) && UploadFits(e, allowed, b)
    ensures ContextFits(e, allowed, 4, WithUpload(ctx, b))
  {
  }

  lemma UploadBatchFits(plan: Plan, e: Expected, allowed: Allowed, t: Target, perform: bool)
    requires Expects(plan, e) && TargetFits(e, t) && (perform || t == e.target)
    requires if perform then AllowsUpload(e, allowed) else AllowsRebuild(e, allowed)
    ensures UploadFits(e, allowed, BatchResult(t, e.transformation.documents, perform, e.config.dryRun))
    ensures perform ==> FinalTarget(t, e.transformation.documents, e.config.dryRun) == e.target
  {
    if perform {
      UploadCompletes(plan, e, t);
    } else {
      BatchIsAccountedFor(e.target, e.transformation.documents, false, e.config.dryRun);
      assert ReportedFrom(e, t, false, BatchResult(t, e.transformation.documents, false, e.config.dryRun));
    }
  }

  lemma UploadEstablishes(plan: Plan, e: Expected, allowed: Allowed, choice: Choice, perform: bool,
                          m: MigrationState, w: World)
    requires Expects(plan, e) && StageAt(plan, e, allowed, 3, w) && Ready(3, m)
    requires perform || w.target == e.target
    requires if perform then AllowsUpload(e, allowed) else AllowsRebuild(e, allowed)
    ensures Establishes(plan, e, allowed, 3, w, CompleteBody(plan, e.config, UploadItems, choice, perform, m, w))
  {
    var batch := BatchResult(w.target, e.transformation.documents, perform, e.config.dryRun);
    UploadBatchFits(plan, e, allowed, w.target, perform);
    UploadedFits(e, allowed, w.ctx, batch);
    ExpectedTargetFits(plan, e);
    UploadBody(plan, e, choice, perform, m, w);
    UploadedEstablishes(plan, e, allowed, m, w,
                        BodyEnd(World(WithUpload(w.ctx, batch), e.target, w.service), m, true, false));
  }

  lemma UploadBody(plan: Plan, e: Expected, choice: Choice, perform: bool, m: MigrationState, w: World)
    requires w.ctx.transformation.Some? && w.ctx.transformation.value.documents == e.transformation.documents
    requires if perform then FinalTarget(w.target, e.transformation.documents, e.config.dryRun) == e.target
             else w.target == e.target
    ensures var batch := BatchResult(w.target, e.transformation.documents, perform, e.config.dryRun);
            CompleteBody(plan, e.config, UploadItems, choice, perform, m, w)
            == BodyEnd(World(WithUpload(w.ctx, batch), e.target, w.service), m, true, false)
  {
  }

  lemma UploadedEstablishes(plan: Plan, e: Expected, allowed: Allowed, m: MigrationState, w: World, b: BodyEnd)
    requires StageAt(plan, e, allowed, 3, w) && Ready(3, m) && TargetFits(e, e.target)
    requires ContextFits(e, allowed, 4, b.world.ctx) && b.world.service == w.service
    requires b.ok && b.machine == m && b.world.target == e.target
    ensures Establishes(plan, e, allowed, 3, w, b)
  {
  }

  lemma UploadHalts(plan: Plan, e: Expected, allowed: Allowed, choice: Choice, m: MigrationState, w: World)
    requires Expects(plan, e) && StageAt(plan, e, allowed, 3, w) && Ready(3, m)
    ensures Halts(plan, e, allowed, 3, w, StoppedBody(plan, e.config, UploadItems, choice, true, m, w))
  {
    UploadStops(plan, e, w.target, choice.stop);
    StoppedUploadBody(plan, e, choice, m, w);
    var target := StoppedTarget(w.target, e.transformation.documents, e.config, choice.stop);
    StoppedUploadHalts(plan, e, allowed, m, w, BodyEnd(w.(target := target), m, false, false));
  }

  lemma StoppedUploadBody(plan: Plan, e: Expected, choice: Choice, m: MigrationState, w: World)
    requires w.ctx.transformation.Some? && w.ctx.transformation.value.documents == e.transformation.documents
    ensures var target := StoppedTarget(w.target, e.transformation.documents, e.config, choice.stop);
            StoppedBody(plan, e.config, UploadItems, choice, true, m, w)
            == BodyEnd(w.(target := target), m, false, false)
  {
  }

  lemma StoppedUploadHalts(plan: Plan, e: Expected, allowed: Allowed, m: MigrationState, w: World, b: BodyEnd)
    requires StageAt(plan, e, allowed, 3, w) && Ready(3, m) && b.machine == m
    requires b.world == w.(target := b.world.target) && TargetFits(e, b.world.target)
    requires w.target == e.target ==> b.world.target == e.target
    ensures Halts(plan, e, allowed, 3, w, b)
  {
  }

  // ----- verification, finalization, custom steps -----

  lemma ModeOfFittingBatch(e: Expected, allowed: Allowed, b: UploadBatch)
    requires UploadFits(e, allowed, b)
    ensures DryMode(e.config, b) == e.config.dryRun
    ensures allowed.Some? ==> b.uploaded == allowed.value.uploaded
  {
    var m :| StepResults(e.transformation.documents, m, e.config.dryRun) && b == Emit(e.transformation.documents, m);
    DryModeMeaning(e.transformation.documents, m, e.config);
    assert BatchEssence(b).uploaded == b.uploaded;
  }

  /** Verification of a repeated or rebuilt upload is that of the uninterrupted run. */
  lemma VerificationAgrees(plan: Plan, e: Expected, b: UploadBatch)
    requires Expects(plan, e) && UploadFits(e, ExactBatch(e), b)
    ensures Verify(e.target, b, e.config) == e.verification
  {
    ModeOfFittingBatch(e, ExactBatch(e), b);
    StartFits(e);
    UploadCompletes(plan, e, e.start);
    ModeOfFittingBatch(e, ExactBatch(e), e.batch);
  }

  lemma VerifiedFits(e: Expected, allowed: Allowed, ctx: StepData)
    requires ContextFits(e, allowed, 4, ctx)
    ensures ContextFits(e, allowed, 5, WithVerification(ctx, Verify(e.target, ctx.upload.value, e.config)))
  {
  }

  lemma VerifyEstablishes(plan: Plan, e: Expected, allowed: Allowed, choice: Choice, perform: bool,
                          m: MigrationState, w: World)
    requires Expects(plan, e) && StageAt(plan, e, allowed, 4, w) && Ready(4, m)
    ensures Establishes(plan, e, allowed, 4, w, CompleteBody(plan, e.config, VerifyItems, choice, perform, m, w))
  {
    VerifiedFits(e, allowed, w.ctx);
    VerifyBody(plan, e.config, choice, perform, m, w);
    ContextEstablishes(plan, e, allowed, 4, m, w, CompleteBody(plan, e.config, VerifyItems, choice, perform, m, w));
  }

  lemma VerifyBody(plan: Plan, config: Configuration, choice: Choice, perform: bool, m: MigrationState, w: World)
    requires w.ctx.transformation.Some? && w.ctx.upload.Some?
    ensures var b := CompleteBody(plan, config, VerifyItems, choice, perform, m, w);
            OnlyContext(w, m, b) && b.world.ctx == WithVerification(w.ctx, Verify(w.target, w.ctx.upload.value, config))
  {
  }

  lemma FinalizedFits(e: Expected, allowed: Allowed, ctx: StepData)
    requires ContextFits(e, allowed, 5, ctx)
    ensures ResultsFit(e, allowed, 5, Finalize(ctx, e.config, false))
            && Finalized(e, allowed, Finalize(ctx, e.config, false))
  {
    assert Finalize(ctx, e.config, false).outcome == Finalize(ctx, e.config, false).outcome;
  }

  lemma FinalizeEnds(m: MigrationState)
    requires Ready(5, m)
    ensures m != Failed && AdvanceToEnd(m, false) == Completed
  {
  }

  /** A body that keeps target and cache and completes the machine. */
  ghost predicate CompletesMachine(w: World, b: BodyEnd) {
    b.ok && b.world.target == w.target && b.world.service == w.service && b.machine == Completed
  }

  lemma CompletedEstablishes(plan: Plan, e: Expected, allowed: Allowed, i: nat, w: World, b: BodyEnd)
    requires i >= 5 && StageAt(plan, e, allowed, i, w) && CompletesMachine(w, b)
    requires ResultsFit(e, allowed, 5, b.world.ctx) && Finalized(e, allowed, b.world.ctx)
    ensures Establishes(plan, e, allowed, i, w, b)
  {
  }

  lemma FinalizeBody(plan: Plan, config: Configuration, choice: Choice, perform: bool, m: MigrationState, w: World)
    requires Ready(5, m)
    ensures var b := CompleteBody(plan, config, FinalizeMigration, choice, perform, m, w);
            CompletesMachine(w, b) && b.world.ctx == Finalize(w.ctx, config, false)
  {
    FinalizeEnds(m);
  }

  lemma FinalizeEstablishes(plan: Plan, e: Expected, allowed: Allowed, choice: Choice, perform: bool,
                            m: MigrationState, w: World)
    requires StageAt(plan, e, allowed, 5, w) && Ready(5, m)
    ensures Establishes(plan, e, allowed, 5, w, CompleteBody(plan, e.config, FinalizeMigration, choice, perform, m, w))
  {
    FinalizeBody(plan, e.config, choice, perform, m, w);
    FinalizedFits(e, allowed, w.ctx);
    CompletedEstablishes(plan, e, allowed, 5, w,
                         CompleteBody(plan, e.config, FinalizeMigration, choice, perform, m, w));
  }

  lemma ReportedFits(e: Expected, allowed: Allowed, ctx: StepData, report: Report)
    requires ResultsFit(e, allowed, 5, ctx) && Finalized(e, allowed, ctx)
    ensures ResultsFit(e, allowed, 5, ctx.(report := Some(report)))
    ensures Finalized(e, allowed, ctx.(report := Some(report)))
  {
    var before :| ContextFits(e, allowed, 5, before) && ctx.outcome == Finalize(before, e.config, false).outcome;
    assert ctx.(report := Some(report)).outcome == Finalize(before, e.config, false).outcome;
  }

  lemma CustomBody(plan: Plan, config: Configuration, step: Step, choice: Choice, perform: bool,
                   m: MigrationState, w: World)
    requires step.Custom?
    ensures CompleteBody(plan, config, step, choice, perform, m, w)
         == BodyEnd(w.(ctx := w.ctx.(report := Some(choice.report))), m, true, false)
  {
  }

  lemma CustomEstablishes(plan: Plan, e: Expected, allowed: Allowed, i: nat, step: Step, choice: Choice, perform: bool,
                          m: MigrationState, w: World)
    requires step.Custom? && i > 5 && StageAt(plan, e, allowed, i, w) && Ready(i, m)
    ensures Establishes(plan, e, allowed, i, w, CompleteBody(plan, e.config, step, choice, perform, m, w))
  {
    CustomBody(plan, e.config, step, choice, perform, m, w);
    ReportedFits(e, allowed, w.ctx, choice.report);
    var b := BodyEnd(w.(ctx := w.ctx.(report := Some(choice.report))), m, true, false);
    CompletedEstablishes(plan, e, allowed, i, w, b);
  }

  /** Steps other than transformation and upload leave nothing behind when stopped,
      except that finalization may have completed the machine. */
  lemma OthersHalt(plan: Plan, e: Expected, allowed: Allowed, i: nat, step: Step, choice: Choice, m: MigrationState,
                   w: World)
    requires step != TransformItems && step != UploadItems && (step == FinalizeMigration <==> i == 5)
    requires StageAt(plan, e, allowed, i, w) && Ready(i, m)
    ensures Halts(plan, e, allowed, i, w, StoppedBody(plan, e.config, step, choice, true, m, w))
  {
    if i == 5 {
      FinalizeEnds(m);
    }
  }

  /** A stopped replay uploads nothing. */
  lemma ReplayHalts(plan: Plan, e: Expected, allowed: Allowed, i: nat, step: Step, choice: Choice, m: MigrationState,
                    w: World)
    requires Expects(plan, e) && StageAt(plan, e, allowed, i, w) && (step == TransformItems ==> i == 2)
    ensures var b := StoppedBody(plan, e.config, step, choice, false, m, w);
            b.world.target == w.target && CacheFits(plan, e, b.world.service)
  {
    if step == TransformItems && !choice.ownService {
      TransformStopFits(plan, e, allowed, w.ctx, w.service, choice.stop.progress);
    }
  }
}
