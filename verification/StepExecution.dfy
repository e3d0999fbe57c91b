/** The step bodies as they run: on the target adapter, the rehydrator, the state
    machine and the step context they share. */
module StepExecution {
  import opened Prelude
  import opened Records
  import opened StateMachine
  import opened StepRegistries
  import opened StepContexts
  import opened Extractions
  import opened Rehydration
  import opened Transformations
  import opened Targets
  import opened Uploads
  import opened Verifications
  import opened Finalization
  import opened StepBodies

  class StepExecutor {
    const plan: Plan
    const target: TargetAdapter
    var rehydrator: SisRehydrator
    var ctx: StepData

    constructor (plan: Plan, target: TargetAdapter)
      ensures this.plan == plan && this.target == target && fresh(rehydrator)
      ensures ctx == NO_DATA && rehydrator.State() == EMPTY_SERVICE
    {
      this.plan, this.target, ctx := plan, target, NO_DATA;
      rehydrator := new SisRehydrator();
    }

    function Now(): World
      reads this, target, rehydrator
    {
      World(ctx, target.State(), rehydrator.State())
    }

    method Discover(config: Configuration)
      modifies this`ctx
      ensures ctx == DiscoverBody(plan, config, old(ctx))
    {
      var discovery := Discovery(
        Map((s: VaultStore) => s.name, plan.source),
        Filter((n: string) => Allowed(config.archiveNames, n), Map((a: Archive) => a.name, ArchivesOf(plan.source))));
      ctx := ctx.(discovery := Some(discovery), stores := Some(plan.source),
                  report := Some(StageReport(ctx.report, true, WarningsSoFar(ctx.report))));
    }

    method ExtractAll(config: Configuration) returns (ok: bool)
      modifies this`ctx
      ensures ok == ExtractBody(plan, config, old(ctx)).Some?
      ensures ctx == if ok then ExtractBody(plan, config, old(ctx)).value else old(ctx)
    {
      if ctx.discovery.None? {
        return false;
      }
      var selected, e := RunExtraction(StoresIn(plan, ctx), ctx.discovery.value, config);
      ctx := ctx.(stores := Some(selected), extraction := Some(e),
                  report := Some(StageReport(ctx.report, true, e.warnings)));
      return true;
    }

    /** With a limit the loop raises after that many items. */
    method TransformMany(ownService: bool, limit: Option<nat>) returns (ok: bool)
      modifies this`ctx, rehydrator
      ensures var (service, done) := TransformOver(plan, old(ctx), old(rehydrator.State()), ownService, limit);
              && rehydrator.State() == service
              && ok == done.Some?
              && ctx == if ok then done.value else old(ctx)
    {
      if ctx.extraction.None? {
        return false;
      }
      var selected := TransformStores(plan, ctx);
      var service := rehydrator;
      if ownService {
        service := new SisRehydrator();
      }
      var result := RunTransformation(plan.sha256, plan.convert, selected, ctx.extraction.value.items, service, limit);
      if result.None? {
        return false;
      }
      ctx := ctx.(stores := Some(selected), transformation := Some(result.value),
                  report := Some(StageReport(ctx.report, result.value.failedItems == 0,
                                             MergeWarnings(WarningsSoFar(ctx.report), result.value.warnings))));
      return true;
    }

    method UploadMany(config: Configuration, point: StopPoint, perform: bool, raises: bool) returns (ok: bool)
      modifies this`ctx, target
      ensures ok <==> !raises && old(ctx).transformation.Some?
      ensures old(ctx).transformation.None? || !perform ==> target.State() == old(target.State())
      ensures old(ctx).transformation.Some? && perform ==>
                var docs := old(ctx).transformation.value.documents;
                target.State() == if raises then StoppedTarget(old(target.State()), docs, config, point)
                                  else FinalTarget(old(target.State()), docs, config.dryRun)
      ensures ok ==>
                var docs := old(ctx).transformation.value.documents;
                ctx == WithUpload(old(ctx), BatchResult(old(target.State()), docs, perform, config.dryRun))
      ensures !ok ==> ctx == old(ctx)
    {
      if ctx.transformation.None? {
        return false;
      }
      var batch := RunUpload(target, ctx.transformation.value.documents, config, perform, point, raises);
      if batch.None? {
        return false;
      }
      ctx := WithUpload(ctx, batch.value);
      return true;
    }

    method VerifyMany(config: Configuration) returns (ok: bool, dry: bool)
      modifies this`ctx
      ensures ok <==> old(ctx).transformation.Some? && old(ctx).upload.Some?
      ensures ok ==> dry == DryMode(config, old(ctx).upload.value)
      ensures !ok ==> !dry
      ensures ctx == if ok then WithVerification(old(ctx), Verify(target.State(), old(ctx).upload.value, config))
                     else old(ctx)
    {
      if ctx.transformation.None? || ctx.upload.None? {
        return false, false;
      }
      var v := RunVerification(target, ctx.upload.value, config);
      dry := DryMode(config, ctx.upload.value);
      ctx := WithVerification(ctx, v);
      return true, dry;
    }

    /** A step body that runs to its end. */
    method Complete(config: Configuration, step: Step, choice: Choice, perform: bool, machine: MigrationStateMachine)
      returns (ok: bool, keepsRetried: bool)
      modifies this`ctx, target, rehydrator, machine
      ensures BodyEnd(Now(), machine.currentState, ok, keepsRetried)
           == CompleteBody(plan, config, step, choice, perform, old(machine.currentState), old(Now()))
    {
      ok, keepsRetried := true, false;
      match step
      case DiscoverArchives => Discover(config);
      case ExtractItems => ok := ExtractAll(config);
      case TransformItems => ok := TransformMany(choice.ownService, None);
      case UploadItems => ok := UploadMany(config, choice.stop, perform, false);
      case VerifyItems => ok, keepsRetried := VerifyMany(config);
      case FinalizeMigration => ctx := RunFinalization(ctx, config, machine);
      case Custom(_, _) => ctx := ctx.(report := Some(choice.report));
    }

    /** A step body that raises on the way. */
    method Stop(config: Configuration, step: Step, choice: Choice, perform: bool, machine: MigrationStateMachine)
      modifies this`ctx, target, rehydrator, machine
      ensures Now() == StoppedBody(plan, config, step, choice, perform, old(machine.currentState), old(Now())).world
      ensures machine.currentState
           == StoppedBody(plan, config, step, choice, perform, old(machine.currentState), old(Now())).machine
    {
      match step
      case TransformItems =>
        var _ := TransformMany(choice.ownService, Some(choice.stop.progress));
      case UploadItems =>
        if perform {
          var _ := UploadMany(config, choice.stop, perform, true);
        }
      case FinalizeMigration =>
        if choice.stop.progress > 0 {
          AdvanceStateMachine(machine, machine.currentState == Failed);
        }
      case _ =>
    }
  }
}
