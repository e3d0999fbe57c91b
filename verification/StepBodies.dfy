/** The bodies of the six migration steps and of custom steps, as functions of the
    world they run in. */
module StepBodies {
  import opened Prelude
  import opened Records
  import opened StateMachine
  import opened StepRegistries
  import opened StepContexts
  import opened Extractions
  import opened Rehydration
  import opened Transformations
  import opened Targets
  import opened Uploads
  import opened Verifications
  import opened Finalization

  // ----- what the steps do not control -----

  /** An exception, by the attributes the runner looks at. */
  datatype Failure = Failure(message: string, hasRetryAfter: bool, retryAfter: real, statusCode: Option<int>)

  const MISSING_INPUT := Failure("A required stage result is missing.", false, 0.0, None)

  /** The part of an attempt in which it raises. A save may raise after the
      checkpoint has been stored. */
  datatype Phase = InPrepare | InBody | InFinalize | InSave(stored: bool)

  datatype Fault = Fault(phase: Phase, failure: Failure)

  /** The retry counters of the metrics. */
  datatype Counters = Counters(retried: nat, throttled: nat, retryAfters: nat, temporary: nat)

  const NO_COUNTERS := Counters(0, 0, 0, 0)

  /** One attempt's circumstances. counters and report are what a custom step returns;
      ownService tells that the transformation was given no rehydrator and makes its own. */
  datatype Choice = Choice(
    fault: Option<Fault>,
    stop: StopPoint,
    counters: Option<Counters>,
    report: Report,
    ownService: bool)

  /** The circumstances of each attempt, by step position and attempt number;
      number 0 is the replay of a step during a resume. */
  type Oracle = (nat, nat) -> Choice

  // ----- the world -----

  datatype World = World(ctx: StepData, target: Target, service: Service)

  /** What a body leaves: the world, the machine, whether it produced a result,
      and whether its metrics keep the retry count. */
  datatype BodyEnd = BodyEnd(world: World, machine: MigrationState, ok: bool, keepsRetried: bool)

  /** How steps run: to the end, or interrupted at a stop point. The flag tells
      execution (true) from replay (false). */
  datatype Bodies = Bodies(
    complete: (Configuration, Step, Choice, bool, MigrationState, World) -> BodyEnd,
    stopped: (Configuration, Step, Choice, bool, MigrationState, World) -> BodyEnd)

  /** The fixed source and the library code of the migration steps. */
  datatype Plan = Plan(sha256: Digest, convert: Converter, source: seq<VaultStore>)

  // ----- step bodies -----

  /** A stage's report: the previous one updated, or a new one. */
  function StageReport(previous: Option<Report>, completed: bool, warnings: seq<Warning>): Report {
    var failedSteps := if completed then 0 else 1;
    if previous.Some? then previous.value.(completed := completed, failedSteps := failedSteps, warnings := warnings)
    else Report(completed, failedSteps, warnings, None, None, None)
  }

  function WarningsSoFar(previous: Option<Report>): seq<Warning> {
    if previous.Some? then previous.value.warnings else []
  }

  function DiscoverBody(plan: Plan, config: Configuration, ctx: StepData): StepData {
    ctx.(discovery := Some(Discover(plan.source, config)),
         stores := Some(plan.source),
         report := Some(StageReport(ctx.report, true, WarningsSoFar(ctx.report))))
  }

  function StoresIn(plan: Plan, ctx: StepData): seq<VaultStore> {
    if ctx.stores.Some? then ctx.stores.value else plan.source
  }

  function StoreNames(ctx: StepData): seq<string> {
    if ctx.discovery.Some? then ctx.discovery.value.storeNames else []
  }

  function ExtractBody(plan: Plan, config: Configuration, ctx: StepData): Option<StepData> {
    if ctx.discovery.None? then None
    else
      var e := Extract(StoresIn(plan, ctx), ctx.discovery.value, config);
      Some(ctx.(stores := Some(SelectStores(StoresIn(plan, ctx), StoreNames(ctx))),
                extraction := Some(e),
                report := Some(StageReport(ctx.report, true, e.warnings))))
  }

  function TransformStores(plan: Plan, ctx: StepData): seq<VaultStore> {
    SelectStores(StoresIn(plan, ctx), StoreNames(ctx))
  }

  function WithTransformation(plan: Plan, ctx: StepData, t: Transformation): StepData {
    ctx.(stores := Some(TransformStores(plan, ctx)),
         transformation := Some(t),
         report := Some(StageReport(ctx.report, t.failedItems == 0,
                                    MergeWarnings(WarningsSoFar(ctx.report), t.warnings))))
  }

  /** The service after the first so many items, and the new context unless an
      input is missing. */
  function TransformBody(plan: Plan, ctx: StepData, service: Service, limit: Option<nat>): (Service, Option<StepData>) {
    if ctx.extraction.None? then (service, None)
    else
      var items := ctx.extraction.value.items;
      var archives := ArchivesOf(TransformStores(plan, ctx));
      if limit.Some? then
        (TransformAll(plan.sha256, plan.convert, archives, service, Before(items, limit.value)).0, None)
      else
        var (after, result) := TransformAll(plan.sha256, plan.convert, archives, service, items);
        (after, if result.Some? then Some(WithTransformation(plan, ctx, result.value)) else None)
  }

  /** The transformation over the shared service, or over one made for this call alone. */
  function TransformOver(plan: Plan, ctx: StepData, service: Service, ownService: bool, limit: Option<nat>)
    : (Service, Option<StepData>)
  {
    if ownService then (service, TransformBody(plan, ctx, EMPTY_SERVICE, limit).1)
    else TransformBody(plan, ctx, service, limit)
  }

  function WithUpload(ctx: StepData, b: UploadBatch): StepData {
    ctx.(upload := Some(b),
         report := Some(StageReport(ctx.report, b.failed == [], WarningsSoFar(ctx.report))))
  }

  function WithVerification(ctx: StepData, v: Verification): StepData {
    ctx.(verification := Some(v),
         report := Some(StageReport(ctx.report, v.failed == [], WarningsSoFar(ctx.report))))
  }

  function Ending(w: World, ctx: Option<StepData>, machine: MigrationState): BodyEnd {
    if ctx.Some? then BodyEnd(w.(ctx := ctx.value), machine, true, false) else BodyEnd(w, machine, false, false)
  }

  /** A step body that runs to its end. On a replay (perform false) the upload is reconstructed. */
  function CompleteBody(plan: Plan, config: Configuration, step: Step, choice: Choice, perform: bool,
                        machine: MigrationState, w: World): BodyEnd
  {
    match step
    case DiscoverArchives => Ending(w, Some(DiscoverBody(plan, config, w.ctx)), machine)
    case ExtractItems => Ending(w, ExtractBody(plan, config, w.ctx), machine)
    case TransformItems =>
      var (service, ctx) := TransformOver(plan, w.ctx, w.service, choice.ownService, None);
      Ending(w.(service := service), ctx, machine)
    case UploadItems =>
      if w.ctx.transformation.None? then Ending(w, None, machine)
      else
        var docs := w.ctx.transformation.value.documents;
        var target := if perform then FinalTarget(w.target, docs, config.dryRun) else w.target;
        Ending(w.(target := target),
               Some(WithUpload(w.ctx, BatchResult(w.target, docs, perform, config.dryRun))), machine)
    case VerifyItems =>
      if w.ctx.transformation.None? || w.ctx.upload.None? then Ending(w, None, machine)
      else
        Ending(w, Some(WithVerification(w.ctx, Verify(w.target, w.ctx.upload.value, config))), machine)
        .(keepsRetried := DryMode(config, w.ctx.upload.value))
    case FinalizeMigration =>
      Ending(w, Some(Finalize(w.ctx, config, machine == Failed)), AdvanceToEnd(machine, machine == Failed))
    case Custom(_, _) =>
      Ending(w, Some(w.ctx.(report := Some(choice.report))), machine)
  }

  /** A step body that raises on the way: only what it had already done to the
      target, the cache or the machine remains. */
  function StoppedBody(plan: Plan, config: Configuration, step: Step, choice: Choice, perform: bool,
                       machine: MigrationState, w: World): BodyEnd
  {
    match step
    case TransformItems =>
      var service := TransformOver(plan, w.ctx, w.service, choice.ownService, Some(choice.stop.progress)).0;
      BodyEnd(w.(service := service), machine, false, false)
    case UploadItems =>
      if w.ctx.transformation.None? || !perform then BodyEnd(w, machine, false, false)
      else
        BodyEnd(w.(target := StoppedTarget(w.target, w.ctx.transformation.value.documents, config, choice.stop)),
                machine, false, false)
    case FinalizeMigration =>
      BodyEnd(w, if choice.stop.progress > 0 then AdvanceToEnd(machine, machine == Failed) else machine, false, false)
    case _ => BodyEnd(w, machine, false, false)
  }

  /** The report tells of a complete stage, or of one failed step, and keeps its final status. */
  ghost predicate ReportTells(before: Option<Report>, complete: bool, after: Option<Report>) {
    && after.Some? && after.value.completed == complete
    && after.value.failedSteps == (if complete then 0 else 1)
    && after.value.finalStatus == (if before.Some? then before.value.finalStatus else None)
  }

  /** Discovery and extraction report a complete stage, the other stages if and only if nothing
      failed in them. */
  lemma StageReportsTell(plan: Plan, config: Configuration, ctx: StepData, t: Transformation, u: UploadBatch,
                         v: Verification)
    ensures ReportTells(ctx.report, true, DiscoverBody(plan, config, ctx).report)
    ensures var extracted := ExtractBody(plan, config, ctx);
            extracted.Some? ==> ReportTells(ctx.report, true, extracted.value.report)
    ensures ReportTells(ctx.report, t.failedItems == 0, WithTransformation(plan, ctx, t).report)
    ensures ReportTells(ctx.report, u.failed == [], WithUpload(ctx, u).report)
    ensures ReportTells(ctx.report, v.failed == [], WithVerification(ctx, v).report)
  {
  }

  function MigrationBodies(plan: Plan): Bodies {
    Bodies(
      (config, step, choice, perform, machine, w) => CompleteBody(plan, config, step, choice, perform, machine, w),
      (config, step, choice, perform, machine, w) => StoppedBody(plan, config, step, choice, perform, machine, w))
  }

  /** The only machine movement a body makes is finalization's advance to the end. */
  ghost predicate MovesOnlyAtTheEnd(bodies: Bodies) {
    && (forall config, step, choice, perform, machine, w ::
          MovesAsExpected(step, machine, bodies.complete(config, step, choice, perform, machine, w).machine))
    && (forall config, step, choice, perform, machine, w ::
          MovesAsExpected(step, machine, bodies.stopped(config, step, choice, perform, machine, w).machine))
  }

  ghost predicate MovesAsExpected(step: Step, before: MigrationState, after: MigrationState) {
    after == before || (step == FinalizeMigration && after == AdvanceToEnd(before, before == Failed))
  }

  lemma MigrationBodiesMove(plan: Plan)
    ensures MovesOnlyAtTheEnd(MigrationBodies(plan))
  {
    var bodies := MigrationBodies(plan);
    forall config, step, choice, perform, machine, w
      ensures MovesAsExpected(step, machine, bodies.complete(config, step, choice, perform, machine, w).machine)
    {
      CompleteBodyMoves(plan, config, step, choice, perform, machine, w);
    }
    forall config, step, choice, perform, machine, w
      ensures MovesAsExpected(step, machine, bodies.stopped(config, step, choice, perform, machine, w).machine)
    {
      StoppedBodyMoves(plan, config, step, choice, perform, machine, w);
    }
  }

  lemma StoppedBodyMoves(plan: Plan, config: Configuration, step: Step, choice: Choice, perform: bool,
                         machine: MigrationState, w: World)
    ensures MovesAsExpected(step, machine, StoppedBody(plan, config, step, choice, perform, machine, w).machine)
  {
  }

  lemma CompleteBodyMoves(plan: Plan, config: Configuration, step: Step, choice: Choice, perform: bool,
                          machine: MigrationState, w: World)
    ensures MovesAsExpected(step, machine, CompleteBody(plan, config, step, choice, perform, machine, w).machine)
  {
  }
}
