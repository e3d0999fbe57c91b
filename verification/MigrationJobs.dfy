/** The six migration steps under any chain of failures and resumes: the results are
    those of one uninterrupted run, and "completed" means what it says. */
module MigrationJobs {
  import opened Prelude
  import opened Records
  import opened StateMachine
  import opened StepRegistries
  import opened StableSorting
  import opened StepContexts
  import opened Extractions
  import opened Rehydration
  import opened Transformations
  import opened Targets
  import opened Uploads
  import opened Verifications
  import opened ErrorBreakdowns
  import opened Finalization
  import opened StepBodies
  import opened Runner
  import opened RunnerProtocol
  import opened JobProtocol
  import opened Resumption
  import opened MigrationStages

  /** The six migration steps in order, then custom steps with names of their own. */
  ghost predicate MigrationPipeline(steps: seq<Step>) {
    && |steps| >= LAST_RANK && steps[..LAST_RANK] == CANONICAL
    && (forall i :: LAST_RANK <= i < |steps| ==> steps[i].Custom? && Rank(steps[i]) == LAST_RANK)
    && DistinctNames(steps)
  }

  lemma CanonicalAt(steps: seq<Step>, i: nat)
    requires MigrationPipeline(steps) && i < LAST_RANK
    ensures steps[i] == CANONICAL[i]
  {
    assert steps[i] == steps[..LAST_RANK][i];
  }

  // ----- the steps establish the stages -----

  /** Performing, or replaying, the upload may report what it reports. */
  ghost predicate AllowsStep(e: Expected, allowed: Allowed, i: nat, perform: bool) {
    i == 3 ==> if perform then AllowsUpload(e, allowed) else AllowsRebuild(e, allowed)
  }

  lemma StepEstablishes(plan: Plan, e: Expected, allowed: Allowed, i: nat, choice: Choice, perform: bool,
                        m: MigrationState, w: World)
    requires Expects(plan, e) && i < LAST_RANK && StageAt(plan, e, allowed, i, w) && Ready(i, m)
    requires AllowsStep(e, allowed, i, perform) && (i == 3 ==> perform || w.target == e.target)
    ensures Establishes(plan, e, allowed, i, w, CompleteBody(plan, e.config, CANONICAL[i], choice, perform, m, w))
  {
    match i
    case 0 => DiscoverEstablishes(plan, e, allowed, choice, perform, m, w);
    case 1 => ExtractEstablishes(plan, e, allowed, choice, perform, m, w);
    case 2 => TransformEstablishes(plan, e, allowed, choice, perform, m, w);
    case 3 => UploadEstablishes(plan, e, allowed, choice, perform, m, w);
    case 4 => VerifyEstablishes(plan, e, allowed, choice, perform, m, w);
    case 5 => FinalizeEstablishes(plan, e, allowed, choice, perform, m, w);
  }

  lemma StepHalts(plan: Plan, e: Expected, allowed: Allowed, i: nat, choice: Choice, m: MigrationState, w: World)
    requires Expects(plan, e) && i < LAST_RANK && StageAt(plan, e, allowed, i, w) && Ready(i, m)
    ensures Halts(plan, e, allowed, i, w, StoppedBody(plan, e.config, CANONICAL[i], choice, true, m, w))
  {
    match i
    case 2 => TransformHalts(plan, e, allowed, choice, m, w);
    case 3 => UploadHalts(plan, e, allowed, choice, m, w);
    case _ => OthersHalt(plan, e, allowed, i, CANONICAL[i], choice, m, w);
  }

  /** Any step of the pipeline, from its stage. */
  lemma AnyStepWorks(plan: Plan, e: Expected, allowed: Allowed, steps: seq<Step>, i: nat, choice: Choice,
                     m: MigrationState, w: World)
    requires Expects(plan, e) && MigrationPipeline(steps) && AllowsStep(e, allowed, i, true)
    requires i < |steps| && StageAt(plan, e, allowed, i, w) && Ready(i, m)
    ensures Establishes(plan, e, allowed, i, w, CompleteBody(plan, e.config, steps[i], choice, true, m, w))
    ensures Halts(plan, e, allowed, i, w, StoppedBody(plan, e.config, steps[i], choice, true, m, w))
  {
    if i < LAST_RANK {
      CanonicalAt(steps, i);
      StepEstablishes(plan, e, allowed, i, choice, true, m, w);
      StepHalts(plan, e, allowed, i, choice, m, w);
    } else {
      CustomEstablishes(plan, e, allowed, i, steps[i], choice, true, m, w);
      OthersHalt(plan, e, allowed, i, steps[i], choice, m, w);
    }
  }

  // ----- in the vocabulary of resumption -----

  lemma EstablishesIsExecutes(plan: Plan, e: Expected, allowed: Allowed, i: nat, w: World, b: BodyEnd)
    requires Establishes(plan, e, allowed, i, w, b)
    ensures Executes(StagesOf(plan, e, allowed), i, w, b)
  {
  }

  lemma HaltsIsStops(plan: Plan, e: Expected, allowed: Allowed, i: nat, w: World, b: BodyEnd)
    requires Halts(plan, e, allowed, i, w, b)
    ensures Stops(StagesOf(plan, e, allowed), i, w, b)
  {
  }

  lemma StageOfStages(plan: Plan, e: Expected, allowed: Allowed, i: nat, w: World)
    ensures StagesOf(plan, e, allowed).at(i, w) <==> StageAt(plan, e, allowed, i, w)
  {
  }

  lemma WorksFrom(plan: Plan, e: Expected, allowed: Allowed, bodies: Bodies, step: Step, i: nat, choice: Choice,
                  m: MigrationState,
                  w: World)
    requires Establishes(plan, e, allowed, i, w, bodies.complete(e.config, step, choice, true, m, w))
    requires Halts(plan, e, allowed, i, w, bodies.stopped(e.config, step, choice, true, m, w))
    ensures StepWorks(bodies, step, e.config, StagesOf(plan, e, allowed), i, choice, m, w)
  {
    EstablishesIsExecutes(plan, e, allowed, i, w, bodies.complete(e.config, step, choice, true, m, w));
    HaltsIsStops(plan, e, allowed, i, w, bodies.stopped(e.config, step, choice, true, m, w));
  }

  lemma StepsWorkOnce(plan: Plan, e: Expected, allowed: Allowed, steps: seq<Step>, i: nat, choice: Choice,
                      m: MigrationState, w: World)
    requires Expects(plan, e) && MigrationPipeline(steps) && AllowsStep(e, allowed, i, true)
    requires i < |steps| && StageAt(plan, e, allowed, i, w) && Ready(i, m)
    ensures StepWorks(MigrationBodies(plan), steps[i], e.config, StagesOf(plan, e, allowed), i, choice, m, w)
  {
    AnyStepWorks(plan, e, allowed, steps, i, choice, m, w);
    WorksFrom(plan, e, allowed, MigrationBodies(plan), steps[i], i, choice, m, w);
  }

  lemma StepsWork(plan: Plan, e: Expected, allowed: Allowed, steps: seq<Step>, from: nat)
    requires Expects(plan, e) && MigrationPipeline(steps) && (from <= 3 ==> AllowsUpload(e, allowed))
    ensures StagesWork(MigrationBodies(plan), steps, e.config, StagesOf(plan, e, allowed), from)
  {
    var bodies, stages := MigrationBodies(plan), StagesOf(plan, e, allowed);
    forall i: nat, choice, m, w | from <= i < |steps| && stages.at(i, w) && Ready(i, m)
      ensures StepWorks(bodies, steps[i], e.config, stages, i, choice, m, w)
    {
      StageOfStages(plan, e, allowed, i, w);
      StepsWorkOnce(plan, e, allowed, steps, i, choice, m, w);
    }
  }

  lemma ReplaysWorkOnce(plan: Plan, e: Expected, allowed: Allowed, steps: seq<Step>, i: nat, j: nat, choice: Choice,
                        m: MigrationState, w: World)
    requires Expects(plan, e) && MigrationPipeline(steps) && AllowsRebuild(e, allowed)
    requires i <= j <= LAST_RESUMABLE && i < |steps| && !Terminal(m)
    requires StageAt(plan, e, allowed, i, w) && (j >= 3 ==> w.target == e.target)
    ensures ReplayWorks(MigrationBodies(plan), steps[i], e.config, StagesOf(plan, e, allowed), i, j, choice, m, w)
  {
    CanonicalAt(steps, i);
    StepEstablishes(plan, e, allowed, i, choice, false, m, w);
    ReplayHalts(plan, e, allowed, i, steps[i], choice, m, w);
    EstablishesRebuilds(plan, e, allowed, i, j, w, CompleteBody(plan, e.config, steps[i], choice, false, m, w));
    HaltsGives(plan, e, allowed, j, w, StoppedBody(plan, e.config, steps[i], choice, false, m, w));
  }

  lemma EstablishesRebuilds(plan: Plan, e: Expected, allowed: Allowed, i: nat, j: nat, w: World, b: BodyEnd)
    requires Establishes(plan, e, allowed, i, w, b) && i <= LAST_RESUMABLE && (j >= 3 ==> w.target == e.target)
    ensures Rebuilds(StagesOf(plan, e, allowed), i, j, b)
  {
  }

  lemma HaltsGives(plan: Plan, e: Expected, allowed: Allowed, j: nat, w: World, b: BodyEnd)
    requires TargetFits(e, w.target) && (j >= 3 ==> w.target == e.target)
    requires b.world.target == w.target && CacheFits(plan, e, b.world.service)
    ensures Gives(StagesOf(plan, e, allowed), j, b)
  {
  }

  lemma ReplaysAreFine(plan: Plan, e: Expected, allowed: Allowed, steps: seq<Step>)
    requires Expects(plan, e) && MigrationPipeline(steps) && AllowsRebuild(e, allowed)
    ensures ReplaysWork(MigrationBodies(plan), steps, e.config, StagesOf(plan, e, allowed))
  {
    var bodies, stages := MigrationBodies(plan), StagesOf(plan, e, allowed);
    forall i: nat, j: nat, choice, m, w
      | i <= j <= LAST_RESUMABLE && i < |steps| && stages.at(i, w) && stages.safe(j, w.target) && !Terminal(m)
      ensures ReplayWorks(bodies, steps[i], e.config, stages, i, j, choice, m, w)
    {
      StageOfStages(plan, e, allowed, i, w);
      ReplaysWorkOnce(plan, e, allowed, steps, i, j, choice, m, w);
    }
  }

  lemma StagesStart(plan: Plan, e: Expected, allowed: Allowed, steps: seq<Step>)
    ensures Startable(steps, StagesOf(plan, e, allowed))
  {
    forall t, service | StagesOf(plan, e, allowed).kept(t, service)
      ensures StagesOf(plan, e, allowed).kept(t, EMPTY_SERVICE)
      ensures StagesOf(plan, e, allowed).at(0, World(NO_DATA, t, service))
      ensures StagesOf(plan, e, allowed).at(0, World(NO_DATA.(report := Some(RESTORED_REPORT)), t, service))
    {
      assert StageAt(plan, e, allowed, 0, World(NO_DATA, t, service));
      assert StageAt(plan, e, allowed, 0, World(NO_DATA.(report := Some(RESTORED_REPORT)), t, service));
    }
  }

  // ----- the job -----

  /** A job over the migration pipeline whose expected results are e. */
  ghost predicate MigrationJob(plan: Plan, env: Env, e: Expected) {
    && env.bodies == MigrationBodies(plan) && MigrationPipeline(env.steps)
    && Expects(plan, e) && e.config == FreshConfig(env)
    && (env.initialState.Some? ==> !Terminal(env.initialState.value))
  }

  /** Before the first launch: a target of its own, an empty cache, no checkpoint. */
  ghost predicate BeforeJob(env: Env, e: Expected, s: RunnerState) {
    s.world.target == e.start && s.world.service == EMPTY_SERVICE && env.job !in s.checkpoints
  }

  lemma JobIsRunnable(plan: Plan, env: Env, e: Expected, allowed: Allowed, from: nat)
    requires MigrationJob(plan, env, e) && (from <= 3 ==> AllowsUpload(e, allowed))
    ensures Runnable(env, StagesOf(plan, e, allowed), from)
  {
    StepsWork(plan, e, allowed, env.steps, from);
    StagesStart(plan, e, allowed, env.steps);
  }

  lemma JobIsReplayable(plan: Plan, env: Env, e: Expected, allowed: Allowed)
    requires MigrationJob(plan, env, e) && AllowsRebuild(e, allowed)
    ensures Replayable(env, StagesOf(plan, e, allowed))
  {
    ReplaysAreFine(plan, e, allowed, env.steps);
    StagesStart(plan, e, allowed, env.steps);
  }

  lemma StartIsKept(plan: Plan, e: Expected, allowed: Allowed)
    ensures StagesOf(plan, e, allowed).kept(e.start, EMPTY_SERVICE)
  {
    assert Interrupted(e.start, e.start, Unique(e.transformation.documents));
    assert CacheFits(plan, e, EMPTY_SERVICE);
  }

  lemma JobStartsBetweenRuns(plan: Plan, env: Env, e: Expected, allowed: Allowed, s: RunnerState)
    requires BeforeJob(env, e, s)
    ensures BetweenRuns(env, StagesOf(plan, e, allowed), s)
  {
    StartIsKept(plan, e, allowed);
  }

  /** The results a finished run leaves: the expected ones, with an upload batch that
      is allowed and the verification of that batch. */
  ghost predicate FinishedAs(e: Expected, allowed: Allowed, s: RunnerState) {
    s.world.target == e.target && ResultsFit(e, allowed, 5, s.world.ctx) && Finalized(e, allowed, s.world.ctx)
  }

  /** Exactly the expected results, up to the replay flags of the upload and the
      wording of transformation failures. */
  ghost predicate FinishedAsExpected(e: Expected, s: RunnerState) {
    FinishedAs(e, ExactBatch(e), s)
  }

  lemma FinishedStage(plan: Plan, e: Expected, allowed: Allowed, n: nat, s: RunnerState)
    requires n >= LAST_RANK && StagesOf(plan, e, allowed).at(n, s.world)
    ensures FinishedAs(e, allowed, s)
  {
    StageOfStages(plan, e, allowed, n, s.world);
  }

  /** Any chain of fresh runs and resumes that finishes leaves the expected results, with
      a batch that both performing and rebuilding the upload may report. */
  lemma JobFinishesAs(plan: Plan, env: Env, e: Expected, allowed: Allowed, launches: seq<Launch>, s: RunnerState)
    requires MigrationJob(plan, env, e) && BeforeJob(env, e, s) && launches != []
    requires AllowsUpload(e, allowed) && AllowsRebuild(e, allowed)
    ensures BetweenRuns(env, StagesOf(plan, e, allowed), RunJob(env, launches, s).0)
    ensures RunJob(env, launches, s).1.Finished? ==> FinishedAs(e, allowed, RunJob(env, launches, s).0)
  {
    JobIsRunnable(plan, env, e, allowed, 0);
    JobIsReplayable(plan, env, e, allowed);
    JobStartsBetweenRuns(plan, env, e, allowed, s);
    JobKeepsStages(env, StagesOf(plan, e, allowed), launches, s);
    if RunJob(env, launches, s).1.Finished? {
      FinishedStage(plan, e, allowed, |env.steps|, RunJob(env, launches, s).0);
    }
  }

  /** Resume equals uninterrupted: from a transparent target, any chain of fresh runs and
      resumes, failing and interrupted anyhow, that finishes leaves the stage results and
      the target of one uninterrupted run. */
  lemma ResumeEqualsUninterrupted(plan: Plan, env: Env, e: Expected, launches: seq<Launch>, s: RunnerState)
    requires MigrationJob(plan, env, e) && Transparent(e) && BeforeJob(env, e, s) && launches != []
    ensures RunJob(env, launches, s).1.Finished? ==> FinishedAsExpected(e, RunJob(env, launches, s).0)
  {
    UploadRebuilds(plan, e);
    JobFinishesAs(plan, env, e, ExactBatch(e), launches, s);
  }

  /** The uninterrupted run itself: from any target, a fresh run in which nothing raises
      finishes, and leaves exactly these results. */
  lemma UninterruptedRunFinishes(plan: Plan, env: Env, e: Expected, oracle: Oracle, s: RunnerState)
    requires MigrationJob(plan, env, e) && BeforeJob(env, e, s) && Clean(oracle)
    ensures RunFresh(env, oracle, s).1.Finished?
    ensures FinishedAsExpected(e, RunFresh(env, oracle, s).0)
  {
    var allowed := ExactBatch(e);
    JobIsRunnable(plan, env, e, allowed, 0);
    JobStartsBetweenRuns(plan, env, e, allowed, s);
    CleanFreshRunFinishes(env, StagesOf(plan, e, allowed), oracle, s);
    FreshKeepsStages(env, StagesOf(plan, e, allowed), oracle, s);
    FinishedStage(plan, e, allowed, |env.steps|, RunFresh(env, oracle, s).0);
  }

  // ----- finalization reports the same -----

  /** A reconciliation, counting new uploads and replays together. */
  function ReconciliationEssence(r: Reconciliation): Reconciliation {
    r.(uploadedItems := r.uploadedItems + r.replays, replays := 0)
  }

  function MetricsEssence(m: ItemMetrics): ItemMetrics {
    m.(uploadedItems := m.uploadedItems + m.replays, replays := 0)
  }

  /** The same verdict, status, counters and audit. */
  ghost predicate OutcomesAgree(a: Option<Outcome>, b: Option<Outcome>) {
    && a.Some? && b.Some?
    && a.value.success == b.value.success
    && a.value.snapshot == b.value.snapshot
    && a.value.warnings == b.value.warnings
    && a.value.breakdown == b.value.breakdown
    && a.value.report.finalStatus == b.value.report.finalStatus
    && MetricsEssence(a.value.metrics) == MetricsEssence(b.value.metrics)
    && a.value.report.reconciliation.Some? && b.value.report.reconciliation.Some?
    && ReconciliationEssence(a.value.report.reconciliation.value)
       == ReconciliationEssence(b.value.report.reconciliation.value)
  }

  /** What finalization reads of a context with all results: everything it counts. */
  lemma FittingContext(e: Expected, allowed: Allowed, ctx: StepData) returns (m: Results)
    requires ContextFits(e, allowed, 5, ctx)
    ensures StepResults(e.transformation.documents, m, e.config.dryRun)
    ensures ctx.transformation.value.documents == e.transformation.documents
    ensures ctx.upload == Some(Emit(e.transformation.documents, m))
  {
    m :| StepResults(e.transformation.documents, m, e.config.dryRun)
         && ctx.upload.value == Emit(e.transformation.documents, m);
  }

  lemma ModesAgree(e: Expected, allowed: Allowed, ctx: StepData)
    requires ContextFits(e, allowed, 5, ctx)
    ensures FinalDryMode(e.config, ctx.upload) == e.config.dryRun
  {
    ModeOfFittingBatch(e, allowed, ctx.upload.value);
  }

  /** New uploads and replays together are the uploaded documents; dry-run items are
      the distinct documents of a dry run. */
  lemma CountsOfFitting(e: Expected, allowed: Allowed, ctx: StepData)
    requires ContextFits(e, allowed, 5, ctx)
    ensures UploadedItems(ctx.upload) + ReplayedItems(ctx.upload) == |ctx.upload.value.uploaded|
    ensures DryRunItems(ctx.upload) == if e.config.dryRun then |Unique(e.transformation.documents)| else 0
    ensures e.config.dryRun ==> ctx.upload.value.uploaded == []
  {
    var m := FittingContext(e, allowed, ctx);
    EmissionCounts(e.transformation.documents, m, e.config.dryRun);
  }

  /** Two contexts that allow one batch agree in what finalization counts of it. */
  lemma BatchesAgree(e: Expected, allowed: Allowed, a: StepData, b: StepData)
    requires allowed.Some? && ResultsFit(e, allowed, 5, a) && ResultsFit(e, allowed, 5, b)
    ensures a.upload.value.uploaded == b.upload.value.uploaded
    ensures a.upload.value.failed == b.upload.value.failed && a.upload.value.skipped == b.upload.value.skipped
    ensures BatchEssence(a.upload.value) == BatchEssence(b.upload.value)
    ensures a.verification == b.verification
  {
    var x, y := a.upload.value, b.upload.value;
    assert BatchEssence(x).uploaded == x.uploaded && BatchEssence(y).uploaded == y.uploaded;
    assert BatchEssence(x).failed == x.failed && BatchEssence(y).failed == y.failed;
    assert BatchEssence(x).skipped == x.skipped && BatchEssence(y).skipped == y.skipped;
    ModeOfFittingBatch(e, allowed, x);
    ModeOfFittingBatch(e, allowed, y);
  }

  /** Contexts with the same results, as far as finalization counts them. */
  ghost predicate CountedAlike(a: StepData, b: StepData) {
    && a.extraction == b.extraction && a.verification == b.verification
    && a.transformation.Some? && b.transformation.Some?
    && SameTransformation(a.transformation.value, b.transformation.value)
    && a.upload.Some? && b.upload.Some?
    && a.upload.value.uploaded == b.upload.value.uploaded
    && a.upload.value.failed == b.upload.value.failed && a.upload.value.skipped == b.upload.value.skipped
  }

  lemma FittingCountAlike(e: Expected, allowed: Allowed, a: StepData, b: StepData)
    requires allowed.Some? && ContextFits(e, allowed, 5, a) && ContextFits(e, allowed, 5, b)
    ensures CountedAlike(a, b)
  {
    BatchesAgree(e, allowed, a, b);
  }

  lemma CountedAlikeAgree(a: StepData, b: StepData)
    requires CountedAlike(a, b)
    ensures FinalSnapshot(a) == FinalSnapshot(b)
    ensures BuildWarnings(a) == BuildWarnings(b)
  {
  }

  lemma SnapshotsAgree(e: Expected, allowed: Allowed, a: StepData, b: StepData)
    requires allowed.Some? && ContextFits(e, allowed, 5, a) && ContextFits(e, allowed, 5, b)
    ensures FinalSnapshot(a) == FinalSnapshot(b)
    ensures BuildWarnings(a) == BuildWarnings(b)
  {
    FittingCountAlike(e, allowed, a, b);
    CountedAlikeAgree(a, b);
  }

  lemma ReconciliationsAgree(e: Expected, allowed: Allowed, a: StepData, b: StepData)
    requires allowed.Some? && ContextFits(e, allowed, 5, a) && ContextFits(e, allowed, 5, b)
    ensures ReconciliationEssence(Reconcile(a, e.config)) == ReconciliationEssence(Reconcile(b, e.config))
    ensures Reconcile(a, e.config).dryRunItems == Reconcile(b, e.config).dryRunItems
  {
    ModesAgree(e, allowed, a);
    ModesAgree(e, allowed, b);
    CountsOfFitting(e, allowed, a);
    CountsOfFitting(e, allowed, b);
    BatchesAgree(e, allowed, a, b);
  }

  lemma MetricsAgree(e: Expected, allowed: Allowed, a: StepData, b: StepData)
    requires allowed.Some? && ContextFits(e, allowed, 5, a) && ContextFits(e, allowed, 5, b)
    ensures MetricsEssence(FinalMetrics(a, e.config, Reconcile(a, e.config)))
         == MetricsEssence(FinalMetrics(b, e.config, Reconcile(b, e.config)))
  {
    ModesAgree(e, allowed, a);
    ModesAgree(e, allowed, b);
    CountsOfFitting(e, allowed, a);
    CountsOfFitting(e, allowed, b);
    BatchesAgree(e, allowed, a, b);
    SnapshotsAgree(e, allowed, a, b);
    ReconciliationsAgree(e, allowed, a, b);
  }

  lemma TransformationEntriesAgree(e: Expected, allowed: Allowed, a: StepData, b: StepData, status: FinalStatus)
    requires allowed.Some? && ContextFits(e, allowed, 5, a) && ContextFits(e, allowed, 5, b)
    ensures TransformationEntries(a, status) == TransformationEntries(b, status)
  {
  }

  lemma VerificationEntriesAgree(e: Expected, allowed: Allowed, a: StepData, b: StepData, status: FinalStatus)
    requires allowed.Some? && ContextFits(e, allowed, 5, a) && ContextFits(e, allowed, 5, b)
    ensures VerificationEntries(a, status) == VerificationEntries(b, status)
  {
    BatchesAgree(e, allowed, a, b);
  }

  lemma BreakdownsAgree(e: Expected, allowed: Allowed, a: StepData, b: StepData, status: FinalStatus)
    requires allowed.Some? && ContextFits(e, allowed, 5, a) && ContextFits(e, allowed, 5, b)
    ensures Breakdown(a, status, None) == Breakdown(b, status, None)
  {
    BatchesAgree(e, allowed, a, b);
    TransformationEntriesAgree(e, allowed, a, b, status);
    VerificationEntriesAgree(e, allowed, a, b, status);
    assert UploadEntries(a, status) == UploadEntries(b, status);
  }

  lemma WarningsAgree(e: Expected, allowed: Allowed, a: StepData, b: StepData)
    requires allowed.Some? && ContextFits(e, allowed, 5, a) && ContextFits(e, allowed, 5, b)
    ensures MergeWarnings(a.report.value.warnings, BuildWarnings(a)) == []
       <==> MergeWarnings(b.report.value.warnings, BuildWarnings(b)) == []
  {
    SnapshotsAgree(e, allowed, a, b);
    MergedWarnings(a.report.value.warnings, BuildWarnings(a));
    MergedWarnings(b.report.value.warnings, BuildWarnings(b));
  }

  // ----- agreement of finished runs -----

  /** The status is a function of what the two reports agree on. */
  lemma StatusesAgree(a: Report, b: Report)
    requires a.finalStatus.None? && b.finalStatus.None?
    requires a.completed == b.completed && a.failedSteps == b.failedSteps
    requires a.warnings == [] <==> b.warnings == []
    requires a.metrics.Some? && b.metrics.Some? && MetricsEssence(a.metrics.value) == MetricsEssence(b.metrics.value)
    requires a.metrics.value.dryRunItems > 0
             ==> a.metrics.value.uploadedItems == 0 && b.metrics.value.uploadedItems == 0
    requires a.reconciliation.Some? && b.reconciliation.Some?
    requires a.reconciliation.value.isReconciled == b.reconciliation.value.isReconciled
    ensures ResolveFinalStatus(a) == ResolveFinalStatus(b)
  {
    assert MetricsEssence(a.metrics.value).dryRunItems == MetricsEssence(b.metrics.value).dryRunItems;
    assert MetricsEssence(a.metrics.value).retriedItems == MetricsEssence(b.metrics.value).retriedItems;
    assert MetricsEssence(a.metrics.value).failedItems == MetricsEssence(b.metrics.value).failedItems;
    assert MetricsEssence(a.metrics.value).verificationFailures == MetricsEssence(b.metrics.value).verificationFailures;
  }

  /** A final report, before its status is resolved. */
  function OpenReport(ctx: StepData, config: Configuration): Report {
    FinalReport(ctx, config, false).(finalStatus := if ctx.report.Some? then ctx.report.value.finalStatus else None)
  }

  lemma OpenReportsAgree(e: Expected, allowed: Allowed, a: StepData, b: StepData)
    requires allowed.Some? && ContextFits(e, allowed, 5, a) && ContextFits(e, allowed, 5, b)
    ensures FinalReport(a, e.config, false).finalStatus == FinalReport(b, e.config, false).finalStatus
  {
    ModesAgree(e, allowed, a);
    ModesAgree(e, allowed, b);
    CountsOfFitting(e, allowed, a);
    CountsOfFitting(e, allowed, b);
    MetricsAgree(e, allowed, a, b);
    ReconciliationsAgree(e, allowed, a, b);
    WarningsAgree(e, allowed, a, b);
    StatusesAgree(OpenReport(a, e.config), OpenReport(b, e.config));
  }

  lemma FinalizationAgrees(e: Expected, allowed: Allowed, a: StepData, b: StepData)
    requires allowed.Some? && ContextFits(e, allowed, 5, a) && ContextFits(e, allowed, 5, b)
    ensures OutcomesAgree(Finalize(a, e.config, false).outcome, Finalize(b, e.config, false).outcome)
  {
    SnapshotsAgree(e, allowed, a, b);
    MetricsAgree(e, allowed, a, b);
    ReconciliationsAgree(e, allowed, a, b);
    OpenReportsAgree(e, allowed, a, b);
    BreakdownsAgree(e, allowed, a, b, FinalReport(a, e.config, false).finalStatus.value);
  }

  /** The same stage results, up to replay flags and the wording of failures. */
  ghost predicate ResultsAgree(a: StepData, b: StepData) {
    && a.discovery == b.discovery && a.stores == b.stores && a.extraction == b.extraction
    && a.transformation.Some? && b.transformation.Some?
    && SameTransformation(a.transformation.value, b.transformation.value)
    && a.upload.Some? && b.upload.Some? && BatchEssence(a.upload.value) == BatchEssence(b.upload.value)
    && a.verification == b.verification && a.verification.Some?
    && OutcomesAgree(a.outcome, b.outcome)
  }

  lemma FinishedRunsAgree(e: Expected, allowed: Allowed, a: StepData, b: StepData)
    requires allowed.Some? && ResultsFit(e, allowed, 5, a) && ResultsFit(e, allowed, 5, b)
    requires Finalized(e, allowed, a) && Finalized(e, allowed, b)
    ensures ResultsAgree(a, b)
  {
    var x :| ContextFits(e, allowed, 5, x) && a.outcome == Finalize(x, e.config, false).outcome;
    var y :| ContextFits(e, allowed, 5, y) && b.outcome == Finalize(y, e.config, false).outcome;
    FinalizationAgrees(e, allowed, x, y);
    BatchesAgree(e, allowed, a, b);
  }

  /** What two finished histories of a job agree in. */
  ghost predicate RunsAgree(a: RunnerState, b: RunnerState) {
    a.world.target == b.world.target && ResultsAgree(a.world.ctx, b.world.ctx)
  }

  /** Any two histories of the same job that finish agree: with each other, and so
      with the history in which nothing went wrong. */
  lemma FinishedJobsAgree(plan: Plan, env: Env, e: Expected, launches: seq<Launch>, s: RunnerState,
                          others: seq<Launch>, t: RunnerState)
    requires MigrationJob(plan, env, e) && Transparent(e) && BeforeJob(env, e, s) && BeforeJob(env, e, t)
    requires launches != [] && others != []
    ensures RunJob(env, launches, s).1.Finished? && RunJob(env, others, t).1.Finished?
            ==> RunsAgree(RunJob(env, launches, s).0, RunJob(env, others, t).0)
  {
    ResumeEqualsUninterrupted(plan, env, e, launches, s);
    ResumeEqualsUninterrupted(plan, env, e, others, t);
    if RunJob(env, launches, s).1.Finished? && RunJob(env, others, t).1.Finished? {
      FinishedRunsAgree(e, ExactBatch(e), RunJob(env, launches, s).0.world.ctx, RunJob(env, others, t).0.world.ctx);
    }
  }

  // ----- soundness of "completed" -----

  /** How the expected transformation accounts for the extracted items. */
  lemma TransformationAccounts(plan: Plan, e: Expected)
    requires Expects(plan, e)
    ensures |e.transformation.documents| + e.transformation.failedItems == |e.extraction.items|
    ensures |e.transformation.failedIdentifiers| == e.transformation.failedItems
    ensures e.transformation.skippedItems == 0
  {
    ExpectedTransformation(plan, e);
    TransformedPlusFailed(plan.convert, ArchivesOf(e.stores), e.extraction.items,
                          History(plan.sha256, EMPTY_SERVICE, e.extraction.items).1);
  }

  lemma FittingIsStepProduced(plan: Plan, e: Expected, allowed: Allowed, ctx: StepData) returns (m: Results)
    requires Expects(plan, e) && ContextFits(e, allowed, 5, ctx)
    ensures StepProduced(ctx, e.config, m, e.target)
  {
    m := FittingContext(e, allowed, ctx);
    TransformationAccounts(plan, e);
  }

  lemma {:induction false} NoFailureMeansAllAccepted(items: seq<MailItem>, outcomes: seq<Rebuilt>, i: nat)
    requires |items| == |outcomes| && i < |items| && FailedIdsOf(items, outcomes) == []
    ensures outcomes[i].Ok?
  {
    var n := |items| - 1;
    if i < n {
      NoFailureMeansAllAccepted(items[..n], outcomes[..n], i);
    }
  }

  /** When no item failed, each extracted item has its document. */
  lemma EveryItemHasItsDocument(plan: Plan, e: Expected, i: nat)
    requires Expects(plan, e) && CarriesIdentifiers(plan.convert)
    requires e.transformation.failedItems == 0 && i < |e.extraction.items|
    ensures exists d :: d in e.transformation.documents && d.sourceIdentifier == e.extraction.items[i].messageId
                        && d.checksum == d.sourceIdentifier
  {
    var items := e.extraction.items;
    var outcomes := History(plan.sha256, EMPTY_SERVICE, items).1;
    ExpectedTransformation(plan, e);
    TransformationAccounts(plan, e);
    NoFailureMeansAllAccepted(items, outcomes, i);
    DocumentsCarryIdentifiers(plan.convert, ArchivesOf(e.stores), items, outcomes);
    var d :| d in DocumentsOf(plan.convert, ArchivesOf(e.stores), items, outcomes)
             && d.sourceIdentifier == items[i].messageId;
  }

  /** No archive in scope was of an unsupported type if nothing was warned about. */
  lemma NoWarningMeansSupported(plan: Plan, e: Expected)
    requires Expects(plan, e) && e.extraction.warnings == []
    ensures forall a :: a in ArchivesOf(e.stores) && a.name in NamesInScope(e.discovery, e.config)
              ==> a.archiveType != FileSystemArchive
  {
    var names := NamesInScope(e.discovery, e.config);
    ExtractionIsAFilter(ArchivesOf(e.stores), names, e.config);
    assert e.extraction.unsupported == [];
    forall a | a in ArchivesOf(e.stores) && a.name in names ensures a.archiveType != FileSystemArchive {
      FilterMember(Unsupported(names), ArchivesOf(e.stores), a);
    }
  }

  /** What "completed" says of the source and the target. */
  ghost predicate SoundlyCompleted(e: Expected, t: Target) {
    && (forall a :: a in ArchivesOf(e.stores) && a.name in NamesInScope(e.discovery, e.config)
          ==> a.archiveType != FileSystemArchive)
    && |e.transformation.documents| == |e.extraction.items|
    && (forall d :: d in e.transformation.documents ==> HeldBy(t, d))
    && (forall i :: 0 <= i < |e.extraction.items| ==> HasDocument(e, e.extraction.items[i]))
    && (e.config.dryRun ==> e.extraction.items == [])
  }

  /** The target returns, under the document's identifier, one with the same checksum that
      agrees with it in the twenty fields of its metadata. */
  ghost predicate HeldBy(t: Target, d: TransformedDocument) {
    var found := Retrieve(t, d.sourceIdentifier);
    found.Some? && found.value.checksum == d.checksum && SameMetadata(found.value, d)
  }

  ghost predicate HasDocument(e: Expected, item: MailItem) {
    exists d :: d in e.transformation.documents && d.sourceIdentifier == item.messageId
                && d.checksum == d.sourceIdentifier
  }

  lemma CompletedContextIsSound(plan: Plan, e: Expected, allowed: Allowed, ctx: StepData)
    requires Expects(plan, e) && CarriesIdentifiers(plan.convert) && ContextFits(e, allowed, 5, ctx)
    requires FinalReport(ctx, e.config, false).finalStatus == Some(CompletedStatus)
    ensures SoundlyCompleted(e, e.target)
  {
    var m := FittingIsStepProduced(plan, e, allowed, ctx);
    CompletedIsSound(ctx, e.config, m, e.target, false);
    NoWarningMeansSupported(plan, e);
    forall d | d in e.transformation.documents ensures HeldBy(e.target, d) {
      assert Verified(e.target)(d);
    }
    forall i | 0 <= i < |e.extraction.items| ensures HasDocument(e, e.extraction.items[i]) {
      EveryItemHasItsDocument(plan, e, i);
    }
  }

  /** The status reported by the finalization of a run. */
  ghost predicate ReportedCompleted(s: RunnerState) {
    s.world.ctx.outcome.Some? && s.world.ctx.outcome.value.report.finalStatus == Some(CompletedStatus)
  }

  lemma FinishedCompletedIsSound(plan: Plan, e: Expected, allowed: Allowed, s: RunnerState)
    requires Expects(plan, e) && CarriesIdentifiers(plan.convert)
    requires FinishedAs(e, allowed, s) && ReportedCompleted(s)
    ensures SoundlyCompleted(e, s.world.target)
  {
    var before :| ContextFits(e, allowed, 5, before)
                  && s.world.ctx.outcome == Finalize(before, e.config, false).outcome;
    CompletedContextIsSound(plan, e, allowed, before);
  }

  /** Status soundness end to end, from any target: if a job, after any chain of failures and resumes,
      finishes with status "completed", then no archive in scope was of the
      unsupported type, every extracted item was transformed, and the target holds
      for each a document with matching checksum and signature. */
  lemma CompletedJobIsSound(plan: Plan, env: Env, e: Expected, launches: seq<Launch>, s: RunnerState)
    requires MigrationJob(plan, env, e) && CarriesIdentifiers(plan.convert) && BeforeJob(env, e, s) && launches != []
    ensures var (after, end) := RunJob(env, launches, s);
            end.Finished? && ReportedCompleted(after) ==> SoundlyCompleted(e, after.world.target)
  {
    JobFinishesAs(plan, env, e, None, launches, s);
    var (after, end) := RunJob(env, launches, s);
    if end.Finished? && ReportedCompleted(after) {
      FinishedCompletedIsSound(plan, e, None, after);
    }
  }

  // ----- from an empty target -----

  /** An empty target hides nothing, so resuming is safe from it. */
  lemma EmptyTargetIsTransparent(e: Expected)
    requires e.start.documents == map[]
    ensures Transparent(e)
  {
  }

  /** From an empty target that refuses no key, no upload ever conflicts: every
      distinct document is uploaded. */
  lemma EmptyTargetTakesEverything(plan: Plan, e: Expected)
    requires Expects(plan, e) && e.start.documents == map[] && e.start.refusals == map[] && !e.config.dryRun
    ensures e.batch.failed == [] && e.batch.uploaded == Unique(e.transformation.documents)
  {
    var docs := e.transformation.documents;
    var distinctDocs := Unique(docs);
    UniqueHasDistinctKeys(docs);
    var m := ResultsByKey(distinctDocs, UploadResults(e.start, distinctDocs));
    EmissionMeaning(docs, m);
    forall i | 0 <= i < |distinctDocs| ensures Uploads.Succeeded(m)(distinctDocs[i]) && !FailedIn(m)(distinctDocs[i]) {
      ResultByKey(distinctDocs, UploadResults(e.start, distinctDocs), i);
      UploadResultsAreIndependent(e.start, distinctDocs, i);
    }
    FilterAll(Uploads.Succeeded(m), distinctDocs);
    FilterAll(FailedIn(m), distinctDocs);
  }

  // ----- the registry gives such pipelines -----

  lemma {:induction false} FilterKeepsDistinctNames(p: Step -> bool, steps: seq<Step>)
    requires DistinctNames(steps)
    ensures DistinctNames(Filter(p, steps))
  {
    if steps != [] {
      var init, last := steps[..|steps| - 1], steps[|steps| - 1];
      FilterKeepsDistinctNames(p, init);
      var kept := Filter(p, init);
      forall i | 0 <= i < |kept| ensures ClassName(kept[i]) != ClassName(last) {
        FilterMember(p, init, kept[i]);
        var j :| 0 <= j < |init| && init[j] == kept[i];
        assert steps[j] == kept[i];
      }
    }
  }

  lemma CanonicalNamesAreDistinct(customs: seq<Step>)
    requires DistinctNames(customs) && forall i :: 0 <= i < |customs| ==> Rank(customs[i]) == LAST_RANK
    ensures DistinctNames(CANONICAL + customs)
  {
    var steps := CANONICAL + customs;
    forall i, j | 0 <= i < j < |steps| ensures ClassName(steps[i]) != ClassName(steps[j]) {
      if j < LAST_RANK {
        assert Rank(steps[i]) == i && Rank(steps[j]) == j;
      } else if i < LAST_RANK {
        assert Rank(steps[i]) == i && Rank(steps[j]) == LAST_RANK;
      } else {
        assert steps[i] == customs[i - LAST_RANK] && steps[j] == customs[j - LAST_RANK];
      }
    }
  }

  lemma CanonicalThenCustoms(customs: seq<Step>)
    requires DistinctNames(customs)
    requires forall i :: 0 <= i < |customs| ==> customs[i].Custom? && Rank(customs[i]) == LAST_RANK
    ensures MigrationPipeline(CANONICAL + customs)
  {
    CanonicalNamesAreDistinct(customs);
    assert (CANONICAL + customs)[..LAST_RANK] == CANONICAL;
    forall i | LAST_RANK <= i < |CANONICAL + customs|
      ensures (CANONICAL + customs)[i].Custom? && Rank((CANONICAL + customs)[i]) == LAST_RANK
    {
      assert (CANONICAL + customs)[i] == customs[i - LAST_RANK];
    }
  }

  lemma LastRankIsCustom(steps: seq<Step>)
    ensures var customs := Filter(WithKey(Rank, LAST_RANK), steps);
            forall i :: 0 <= i < |customs| ==> customs[i].Custom? && Rank(customs[i]) == LAST_RANK
  {
    var customs := Filter(WithKey(Rank, LAST_RANK), steps);
    forall i | 0 <= i < |customs| ensures customs[i].Custom? && Rank(customs[i]) == LAST_RANK {
      FilterMember(WithKey(Rank, LAST_RANK), steps, customs[i]);
    }
  }

  /** Whatever the order of registration, resolving a registry that holds the six
      steps, and custom steps with names of their own, gives such a pipeline. */
  lemma ResolvedIsMigrationPipeline(steps: seq<Step>)
    requires HasMigrationSteps(steps) && DistinctNames(steps)
    ensures MigrationPipeline(Resolve(steps)) && Sorted(Rank, Resolve(steps))
  {
    ResolveIsCanonical(steps);
    ResolveIsStableSort(steps, LAST_RANK);
    FilterKeepsDistinctNames(WithKey(Rank, LAST_RANK), steps);
    LastRankIsCustom(steps);
    CanonicalThenCustoms(Filter(WithKey(Rank, LAST_RANK), steps));
  }

  /** Every source, configuration, retry policy and target has a job these results apply to. */
  lemma MigrationJobExists(plan: Plan, job: string, config: Configuration, retry: RetryRules, start: Target)
    returns (env: Env, e: Expected, s: RunnerState)
    ensures MigrationJob(plan, env, e) && BeforeJob(env, e, s)
    ensures env.job == job && env.retry == retry && FreshConfig(env) == config && s.world.target == start
    ensures start.documents == map[] ==> Transparent(e)
  {
    e := ExpectedResults(plan, config, start);
    env := Env(MigrationBodies(plan), job, CANONICAL, retry, None, Some(config));
    s := RunnerState(World(NO_DATA, start, EMPTY_SERVICE), MigrationState.Created, None, map[], map[], []);
    if start.documents == map[] {
      EmptyTargetIsTransparent(e);
    }
    CanonicalThenCustoms([]);
    assert CANONICAL + [] == CANONICAL;
  }
}
