/** A run in which nothing raises: which lifecycle states it visits, and how it tells new uploads
    from replays. */
module CleanRuns {
  import opened Prelude
  import opened Records
  import opened StateMachine
  import opened StepRegistries
  import opened StepContexts
  import opened Extractions
  import opened Rehydration
  import opened Transformations
  import opened Targets
  import opened Uploads
  import opened Verifications
  import opened Finalization
  import opened StepBodies
  import opened Runner
  import opened RunnerProtocol
  import opened RunHistory
  import opened JobProtocol
  import opened Resumption
  import opened MigrationStages
  import opened MigrationJobs
  import opened JobReports
  import opened FinalCounts
  import opened ExactReports

  // ----- one step -----

  /** How a step's body ends in such a run. */
  function BodyOf(env: Env, config: Configuration, i: nat, choice: Choice, s: RunnerState): BodyEnd
    requires i < |env.steps|
  {
    env.bodies.complete(config, env.steps[i], choice, true, s.machine, s.world)
  }

  lemma CleanTurnFollowsBody(env: Env, config: Configuration, i: nat, choice: Choice, s: RunnerState)
    requires i < |env.steps| && choice.fault.None? && BodyOf(env, config, i, choice, s).ok
    ensures var b, turn := BodyOf(env, config, i, choice, s), TakeTurn(env, config, i, 1, choice, s);
            turn.Over? && turn.end.StepDone? && turn.after.world == b.world && turn.after.machine == b.machine
  {
  }

  /** The step is over after its first attempt, and leaves what its body does. */
  lemma CleanStepFollowsBody(env: Env, config: Configuration, i: nat, oracle: Oracle, s: RunnerState)
    requires i < |env.steps| && oracle(i, 1).fault.None?
    requires BodyOf(env, config, i, oracle(i, 1), EnterStep(s, env.steps[i])).ok
    ensures var b := BodyOf(env, config, i, oracle(i, 1), EnterStep(s, env.steps[i]));
            var (after, end) := RunStep(env, config, i, oracle, s);
            && end.StepDone? && after.world == b.world && after.machine == b.machine
            && after == TakeTurn(env, config, i, 1, oracle(i, 1), EnterStep(s, env.steps[i])).after
  {
    var entered := EnterStep(s, env.steps[i]);
    TurnsStop(env, config, i, oracle);
    TurnsApply(env, config, i, oracle, 0, entered);
    CleanTurnFollowsBody(env, config, i, oracle(i, 1), entered);
  }

  // ----- the upload is the expected one, replay flags included -----

  /** The outcome was told from the expected batch itself. */
  ghost predicate FinalizedCleanly(e: Expected, ctx: StepData) {
    exists before :: ContextFits(e, ExactBatch(e), 5, before) && before.upload == Some(e.batch)
                     && ctx.outcome == Finalize(before, e.config, false).outcome
  }

  /** What holds before step j beyond its stage. */
  ghost predicate CleanAt(e: Expected, j: nat, w: World) {
    && (j <= 3 ==> w.target == e.start)
    && (4 <= j <= 5 ==> w.ctx.upload == Some(e.batch))
    && (j >= 6 ==> FinalizedCleanly(e, w.ctx))
  }

  lemma EarlyStepKeepsTarget(plan: Plan, e: Expected, i: nat, choice: Choice, m: MigrationState, w: World)
    requires i < 3 && CleanAt(e, i, w)
    ensures CleanAt(e, i + 1, CompleteBody(plan, e.config, CANONICAL[i], choice, true, m, w).world)
  {
  }

  lemma UploadStepReports(plan: Plan, e: Expected, choice: Choice, m: MigrationState, w: World)
    requires Expects(plan, e) && StageAt(plan, e, ExactBatch(e), 3, w) && CleanAt(e, 3, w)
    ensures CleanAt(e, 4, CompleteBody(plan, e.config, UploadItems, choice, true, m, w).world)
  {
    UploadBody(plan, e, choice, true, m, w);
  }

  lemma VerifyStepKeepsBatch(plan: Plan, e: Expected, choice: Choice, m: MigrationState, w: World)
    requires StageAt(plan, e, ExactBatch(e), 4, w) && CleanAt(e, 4, w)
    ensures CleanAt(e, 5, CompleteBody(plan, e.config, VerifyItems, choice, true, m, w).world)
  {
    VerifyBody(plan, e.config, choice, true, m, w);
  }

  lemma FinalStepTells(plan: Plan, e: Expected, choice: Choice, m: MigrationState, w: World)
    requires StageAt(plan, e, ExactBatch(e), 5, w) && CleanAt(e, 5, w) && Ready(5, m)
    ensures CleanAt(e, 6, CompleteBody(plan, e.config, FinalizeMigration, choice, true, m, w).world)
  {
    FinalizeBody(plan, e.config, choice, true, m, w);
    assert Finalize(w.ctx, e.config, false).outcome == Finalize(w.ctx, e.config, false).outcome;
  }

  lemma CustomStepKeepsOutcome(plan: Plan, e: Expected, i: nat, step: Step, choice: Choice, m: MigrationState, w: World)
    requires i >= 6 && step.Custom? && CleanAt(e, i, w)
    ensures CleanAt(e, i + 1, CompleteBody(plan, e.config, step, choice, true, m, w).world)
  {
    CustomBody(plan, e.config, step, choice, true, m, w);
    var before :| ContextFits(e, ExactBatch(e), 5, before) && before.upload == Some(e.batch)
                  && w.ctx.outcome == Finalize(before, e.config, false).outcome;
    assert w.ctx.(report := Some(choice.report)).outcome == Finalize(before, e.config, false).outcome;
  }

  lemma CleanBodyLeads(plan: Plan, e: Expected, steps: seq<Step>, i: nat, choice: Choice, m: MigrationState, w: World)
    requires Expects(plan, e) && MigrationPipeline(steps) && i < |steps|
    requires StageAt(plan, e, ExactBatch(e), i, w) && CleanAt(e, i, w) && Ready(i, m)
    ensures CleanAt(e, i + 1, CompleteBody(plan, e.config, steps[i], choice, true, m, w).world)
  {
    if i < LAST_RANK {
      CanonicalAt(steps, i);
      match i
      case 3 => UploadStepReports(plan, e, choice, m, w);
      case 4 => VerifyStepKeepsBatch(plan, e, choice, m, w);
      case 5 => FinalStepTells(plan, e, choice, m, w);
      case _ => EarlyStepKeepsTarget(plan, e, i, choice, m, w);
    } else {
      CustomStepKeepsOutcome(plan, e, i, steps[i], choice, m, w);
    }
  }

  ghost function CleanInv(plan: Plan, env: Env, e: Expected): StepInv {
    (j: nat, t: RunnerState) => AtStep(env, StagesOf(plan, e, ExactBatch(e)), j, t) && CleanAt(e, j, t.world)
  }

  ghost function CleanPost(e: Expected): RunPost {
    (after: RunnerState, end: RunEnd) => end.Finished? && FinalizedCleanly(e, after.world.ctx)
  }

  /** The bodies are those of the migration, seen from one step of the job. */
  lemma JobBody(plan: Plan, env: Env, e: Expected, i: nat, choice: Choice, s: RunnerState)
    requires MigrationJob(plan, env, e) && i < |env.steps|
    ensures BodyOf(env, FreshConfig(env), i, choice, s)
         == CompleteBody(plan, e.config, env.steps[i], choice, true, s.machine, s.world)
  {
  }

  lemma CleanJobBody(plan: Plan, env: Env, e: Expected, i: nat, choice: Choice, s: RunnerState)
    requires MigrationJob(plan, env, e) && i < |env.steps| && CleanInv(plan, env, e)(i, s)
    ensures BodyOf(env, FreshConfig(env), i, choice, s).ok
    ensures CleanAt(e, i + 1, BodyOf(env, FreshConfig(env), i, choice, s).world)
  {
    StageOfStages(plan, e, ExactBatch(e), i, s.world);
    JobBody(plan, env, e, i, choice, s);
    AnyStepWorks(plan, e, ExactBatch(e), env.steps, i, choice, s.machine, s.world);
    CleanBodyLeads(plan, e, env.steps, i, choice, s.machine, s.world);
  }

  lemma EnteredStaysClean(plan: Plan, env: Env, e: Expected, i: nat, s: RunnerState)
    requires MigrationJob(plan, env, e) && i < |env.steps| && CleanInv(plan, env, e)(i, s)
    ensures CleanInv(plan, env, e)(i, EnterStep(s, env.steps[i]))
  {
    JobIsRunnable(plan, env, e, ExactBatch(e), 0);
    EnterKeepsStage(env, StagesOf(plan, e, ExactBatch(e)), i, s);
    EnterStepMoves(s, env.steps[i]);
  }

  lemma CleanStepReaches(plan: Plan, env: Env, e: Expected, oracle: Oracle, j: nat, t: RunnerState)
    requires MigrationJob(plan, env, e) && j < |env.steps| && Clean(oracle) && CleanInv(plan, env, e)(j, t)
    ensures RunStep(env, FreshConfig(env), j, oracle, t).1.StepDone?
    ensures CleanAt(e, j + 1, RunStep(env, FreshConfig(env), j, oracle, t).0.world)
  {
    EnteredStaysClean(plan, env, e, j, t);
    CleanJobBody(plan, env, e, j, oracle(j, 1), EnterStep(t, env.steps[j]));
    CleanStepFollowsBody(env, FreshConfig(env), j, oracle, t);
  }

  lemma StepReachesStage(env: Env, stages: Stages, oracle: Oracle, j: nat, t: RunnerState)
    requires Runnable(env, stages, 0) && j < |env.steps| && AtStep(env, stages, j, t)
    ensures var (after, end) := RunStep(env, FreshConfig(env), j, oracle, t);
            end.StepDone? ==> AtStep(env, stages, j + 1, after)
  {
    StepKeepsStages(env, stages, 0, j, oracle, t);
  }

  lemma LedOn(plan: Plan, env: Env, e: Expected, j: nat, after: RunnerState, end: StepEnd)
    requires end.StepDone? && AtStep(env, StagesOf(plan, e, ExactBatch(e)), j + 1, after)
    requires CleanAt(e, j + 1, after.world)
    ensures CarriesStep((after, end), 0, j, CleanInv(plan, env, e), CleanPost(e))
  {
  }

  lemma CleanStepLeads(plan: Plan, env: Env, e: Expected, oracle: Oracle, j: nat, t: RunnerState)
    requires MigrationJob(plan, env, e) && j < |env.steps| && Clean(oracle) && CleanInv(plan, env, e)(j, t)
    ensures CarriesStep(RunStep(env, FreshConfig(env), j, oracle, t), 0, j, CleanInv(plan, env, e), CleanPost(e))
  {
    CleanStepReaches(plan, env, e, oracle, j, t);
    JobIsRunnable(plan, env, e, ExactBatch(e), 0);
    StepReachesStage(env, StagesOf(plan, e, ExactBatch(e)), oracle, j, t);
    var (after, end) := RunStep(env, FreshConfig(env), j, oracle, t);
    LedOn(plan, env, e, j, after, end);
  }

  lemma CleanRunEnds(plan: Plan, env: Env, e: Expected, t: RunnerState)
    requires MigrationJob(plan, env, e) && CleanInv(plan, env, e)(|env.steps|, t)
    ensures CarriesEnd(t, |env.steps|, CleanPost(e))
  {
  }

  lemma StartsAtFirstStage(env: Env, stages: Stages, s: RunnerState)
    requires Runnable(env, stages, 0) && BetweenRuns(env, stages, s)
    requires env.initialState.Some? ==> !Terminal(env.initialState.value)
    ensures AtStep(env, stages, 0, FreshStart(env, s))
    ensures FreshStart(env, s).world.target == s.world.target
  {
    var start := FreshStart(env, s);
    assert start.world == World(NO_DATA, s.world.target, s.world.service);
    FitsStays(env, stages, s, start);
  }

  lemma CleanStart(plan: Plan, env: Env, e: Expected, s: RunnerState)
    requires MigrationJob(plan, env, e) && BeforeJob(env, e, s)
    ensures CleanInv(plan, env, e)(0, FreshStart(env, s))
  {
    JobIsRunnable(plan, env, e, ExactBatch(e), 0);
    JobStartsBetweenRuns(plan, env, e, ExactBatch(e), s);
    StartsAtFirstStage(env, StagesOf(plan, e, ExactBatch(e)), s);
  }

  lemma CleanRunFinalizes(plan: Plan, env: Env, e: Expected, oracle: Oracle, s: RunnerState)
    requires MigrationJob(plan, env, e) && BeforeJob(env, e, s) && Clean(oracle)
    ensures RunFresh(env, oracle, s).1.Finished? && FinalizedCleanly(e, RunFresh(env, oracle, s).0.world.ctx)
  {
    var inv, post := CleanInv(plan, env, e), CleanPost(e);
    var runners := RunnersOf(env, FreshConfig(env), oracle);
    CleanStart(plan, env, e, s);
    forall j: nat, t | j < |runners| && inv(j, t) ensures CarriesStep(runners[j](t), 0, j, inv, post) {
      RunnersApply(env, FreshConfig(env), oracle, j, t);
      CleanStepLeads(plan, env, e, oracle, j, t);
    }
    forall t | inv(|env.steps|, t) ensures CarriesEnd(t, |env.steps|, post) {
      CleanRunEnds(plan, env, e, t);
    }
    RunStepsRule(env, FreshConfig(env), 0, oracle, FreshStart(env, s), inv, post);
  }

  // ----- its report -----

  /** New uploads are the distinct documents the target held nothing for when the run started;
      replays are those it held already, in the same stored form. */
  ghost predicate SplitsByStart(e: Expected, outcome: Outcome) {
    && outcome.report.reconciliation.Some?
    && CountsBoth(e, e.start, true, outcome.report.reconciliation.value, outcome.metrics)
  }

  lemma FinalizationSplits(plan: Plan, e: Expected, ctx: StepData)
    requires Expects(plan, e) && ContextFits(e, ExactBatch(e), 5, ctx) && ctx.upload == Some(e.batch)
    ensures SplitsByStart(e, Finalize(ctx, e.config, false).outcome.value)
  {
    StartFits(e);
    ReportedCounts(e, e.start, true, e.batch);
    CountersAreReported(e, ExactBatch(e), ctx);
  }

  lemma FinalizedCleanlySplits(plan: Plan, e: Expected, ctx: StepData)
    requires Expects(plan, e) && FinalizedCleanly(e, ctx)
    ensures ctx.outcome.Some? && SplitsByStart(e, ctx.outcome.value) && TellsExactly(e, ctx.outcome.value)
  {
    var before :| ContextFits(e, ExactBatch(e), 5, before) && before.upload == Some(e.batch)
                  && ctx.outcome == Finalize(before, e.config, false).outcome;
    FinalizationSplits(plan, e, before);
    FinalizationTellsExactly(plan, e, before);
  }

  /** From any target, a fresh run in which nothing raises reports every counter exactly: those
      told by its source, its configuration and its target, with new uploads and replays told apart
      by what the target held when the run started. */
  lemma UninterruptedRunTellsExactly(plan: Plan, env: Env, e: Expected, oracle: Oracle, s: RunnerState)
    requires MigrationJob(plan, env, e) && BeforeJob(env, e, s) && Clean(oracle)
    ensures var (after, end) := RunFresh(env, oracle, s);
            && end.Finished? && after.world.ctx.outcome.Some?
            && TellsExactly(e, after.world.ctx.outcome.value) && SplitsByStart(e, after.world.ctx.outcome.value)
  {
    CleanRunFinalizes(plan, env, e, oracle, s);
    FinalizedCleanlySplits(plan, e, RunFresh(env, oracle, s).0.world.ctx);
  }

  lemma NothingStored(t: Target, docs: seq<TransformedDocument>)
    requires t.documents == map[]
    ensures Filter(StoredIn(t), docs) == []
  {
    FilterAll(StoredIn(t), docs);
  }

  /** From an empty target such a run reports no replay. */
  lemma EmptyTargetHasNoReplay(plan: Plan, env: Env, e: Expected, oracle: Oracle, s: RunnerState)
    requires MigrationJob(plan, env, e) && BeforeJob(env, e, s) && Clean(oracle) && e.start.documents == map[]
    ensures var outcome := RunFresh(env, oracle, s).0.world.ctx.outcome;
            && outcome.Some? && outcome.value.report.reconciliation.Some?
            && outcome.value.report.reconciliation.value.replays == 0 && outcome.value.metrics.replays == 0
  {
    UninterruptedRunTellsExactly(plan, env, e, oracle, s);
    NothingStored(e.start, Unique(e.transformation.documents));
  }

  lemma NothingNewAgain(t: Target, docs: seq<TransformedDocument>)
    ensures Filter(NewTo(FinalTarget(t, docs, false)), Unique(docs)) == []
  {
    var distinctDocs, after := Unique(docs), FinalTarget(t, docs, false);
    UniqueHasDistinctKeys(docs);
    UploadAllCompletes(t, distinctDocs);
    forall i | 0 <= i < |distinctDocs| ensures !NewTo(after)(distinctDocs[i]) {
      assert Complete(t, after, distinctDocs[i]);
      ResultTellsNewFromStored(t, distinctDocs[i]);
    }
    FilterAll(NewTo(after), distinctDocs);
  }

  /** A second fresh run over the target such a run has left reports no new upload. */
  lemma SecondRunUploadsNothingNew(plan: Plan, env: Env, first: Expected, e: Expected, oracle: Oracle, s: RunnerState)
    requires MigrationJob(plan, env, e) && BeforeJob(env, e, s) && Clean(oracle)
    requires Expects(plan, first) && first.config == e.config && e.start == first.target
    ensures var outcome := RunFresh(env, oracle, s).0.world.ctx.outcome;
            && outcome.Some? && outcome.value.report.reconciliation.Some?
            && outcome.value.report.reconciliation.value.uploadedItems == 0 && outcome.value.metrics.uploadedItems == 0
  {
    UninterruptedRunTellsExactly(plan, env, e, oracle, s);
    assert e.transformation == first.transformation;
    if !e.config.dryRun {
      NothingNewAgain(first.start, e.transformation.documents);
    }
  }

  // ----- the states it visits -----

  const LIFECYCLE: seq<MigrationState> :=
    [Initializing, Discovering, Extracting, Transforming, Uploading, Verifying, Finalizing, Completed]

  /** The states entered before step j: one for each step, and finalization's advance to the end. */
  function VisitedBefore(j: nat): seq<MigrationState> {
    if j <= 5 then LIFECYCLE[..j + 1] else LIFECYCLE
  }

  function MachineBefore(j: nat): MigrationState {
    if j <= 5 then LIFECYCLE[j] else Completed
  }

  ghost predicate Visited(before: seq<MigrationState>, j: nat, t: RunnerState) {
    StatesIn(t) == before + VisitedBefore(j) && t.machine == MachineBefore(j)
  }

  /** What entering step j and running its body add. */
  function EnteredBy(j: nat): seq<MigrationState> {
    if j <= 5 then [LIFECYCLE[j + 1]] else []
  }

  function MovedBy(j: nat): seq<MigrationState> {
    if j == 5 then [Completed] else []
  }

  function MachineIn(j: nat): MigrationState {
    if j <= 5 then LIFECYCLE[j + 1] else Completed
  }

  lemma VisitsAddUp(before: seq<MigrationState>, j: nat)
    ensures before + VisitedBefore(j) + EnteredBy(j) + MovedBy(j) == before + VisitedBefore(j + 1)
  {
    if j <= 5 {
      assert LIFECYCLE[..j + 1] + [LIFECYCLE[j + 1]] == LIFECYCLE[..j + 2];
      SeqAssociates(before, VisitedBefore(j), EnteredBy(j));
    }
  }

  lemma EnteringVisits(steps: seq<Step>, j: nat, before: seq<MigrationState>, t: RunnerState)
    requires MigrationPipeline(steps) && j < |steps| && Visited(before, j, t)
    ensures var entered := EnterStep(t, steps[j]);
            StatesIn(entered) == before + VisitedBefore(j) + EnteredBy(j) && entered.machine == MachineIn(j)
  {
    if j <= 5 {
      CanonicalAt(steps, j);
      CanonicalStates(j);
      CollectLogged(StateOf, t.(machine := LIFECYCLE[j + 1]), Entered(LIFECYCLE[j + 1]));
    } else {
      assert Rank(steps[j]) == LAST_RANK;
      assert before + VisitedBefore(j) + [] == before + VisitedBefore(j);
    }
  }

  lemma CanonicalStates(j: nat)
    requires j <= 5
    ensures StepState(CANONICAL[j]) == Some(LIFECYCLE[j + 1]) && !Terminal(LIFECYCLE[j])
  {
  }

  lemma BodyMovesAtTheEnd(plan: Plan, config: Configuration, steps: seq<Step>, j: nat, choice: Choice, w: World)
    requires MigrationPipeline(steps) && j < |steps|
    ensures var m := MachineIn(j);
            CompleteBody(plan, config, steps[j], choice, true, m, w).machine == if j >= 5 then Completed else m
  {
    if j < LAST_RANK {
      CanonicalAt(steps, j);
      CanonicalMoves(plan, config, j, choice, w);
    } else {
      CustomBody(plan, config, steps[j], choice, true, MachineIn(j), w);
    }
  }

  lemma CanonicalMoves(plan: Plan, config: Configuration, j: nat, choice: Choice, w: World)
    requires j <= 5
    ensures CompleteBody(plan, config, CANONICAL[j], choice, true, MachineIn(j), w).machine
            == if j == 5 then Completed else MachineIn(j)
  {
    if j == 5 {
      FinalizeBody(plan, config, choice, true, Finalizing, w);
    }
  }

  lemma TurnVisitsThese(before: seq<MigrationState>, j: nat, entered: RunnerState, turn: Turn, moved: MigrationState)
    requires StatesIn(entered) == before + VisitedBefore(j) + EnteredBy(j) && entered.machine == MachineIn(j)
    requires TurnStates(entered, turn, moved) && turn.Over? && turn.end.StepDone?
    requires moved == if j >= 5 then Completed else MachineIn(j)
    ensures Visited(before, j + 1, turn.after)
  {
    VisitsAddUp(before, j);
    assert (if entered.machine != moved then [moved] else []) == MovedBy(j);
    assert StatesIn(entered) + MovedBy(j) + [] == StatesIn(entered) + MovedBy(j);
  }

  lemma CleanStepVisits(plan: Plan, env: Env, e: Expected, oracle: Oracle, before: seq<MigrationState>, j: nat,
                        t: RunnerState)
    requires MigrationJob(plan, env, e) && j < |env.steps| && Clean(oracle) && CleanInv(plan, env, e)(j, t)
    requires Visited(before, j, t)
    ensures Visited(before, j + 1, RunStep(env, FreshConfig(env), j, oracle, t).0)
  {
    var config, choice, entered := FreshConfig(env), oracle(j, 1), EnterStep(t, env.steps[j]);
    EnteredStaysClean(plan, env, e, j, t);
    CleanJobBody(plan, env, e, j, choice, entered);
    CleanStepFollowsBody(env, config, j, oracle, t);
    CleanTurnFollowsBody(env, config, j, choice, entered);
    EnteringVisits(env.steps, j, before, t);
    JobBody(plan, env, e, j, choice, entered);
    BodyMovesAtTheEnd(plan, e.config, env.steps, j, choice, entered.world);
    var moved := TurnVisits(env, config, j, 1, choice, entered);
    TurnVisitsThese(before, j, entered, TakeTurn(env, config, j, 1, choice, entered), moved);
  }

  ghost function VisitInv(plan: Plan, env: Env, e: Expected, before: seq<MigrationState>): StepInv {
    (j: nat, t: RunnerState) => CleanInv(plan, env, e)(j, t) && Visited(before, j, t)
  }

  ghost function VisitPost(before: seq<MigrationState>): RunPost {
    (after: RunnerState, end: RunEnd) => StatesIn(after) == before + LIFECYCLE + [Completed]
  }

  lemma CleanStepCarriesVisits(plan: Plan, env: Env, e: Expected, oracle: Oracle, before: seq<MigrationState>, j: nat,
                               t: RunnerState)
    requires MigrationJob(plan, env, e) && j < |env.steps| && Clean(oracle)
    requires VisitInv(plan, env, e, before)(j, t)
    ensures CarriesStep(RunStep(env, FreshConfig(env), j, oracle, t), 0, j, VisitInv(plan, env, e, before),
                        VisitPost(before))
  {
    CleanStepReaches(plan, env, e, oracle, j, t);
    CleanStepLeads(plan, env, e, oracle, j, t);
    CleanStepVisits(plan, env, e, oracle, before, j, t);
  }

  lemma EndVisits(before: seq<MigrationState>, n: nat, t: RunnerState)
    requires n >= 6 && Visited(before, n, t)
    ensures CarriesEnd(t, n, VisitPost(before))
  {
    CollectLogged(StateOf, t.(machine := Completed), Entered(Completed));
  }

  lemma StartVisits(env: Env, s: RunnerState)
    requires env.initialState.Some? ==> !Terminal(env.initialState.value)
    ensures Visited(StatesIn(s), 0, FreshStart(env, s))
  {
    var initial := if env.initialState.Some? then env.initialState.value else MigrationState.Created;
    var before := s.(machine := initial, counters := None, world := s.world.(ctx := NO_DATA));
    CollectLogged(StateOf, before.(machine := Initializing), Entered(Initializing));
    assert LIFECYCLE[..1] == [Initializing];
  }

  /** A fresh run in which nothing raises enters one state after another, from INITIALIZING over the
      one of each migration step to COMPLETED, which the runner enters once more at its end. */
  lemma CleanRunVisits(plan: Plan, env: Env, e: Expected, oracle: Oracle, s: RunnerState)
    requires MigrationJob(plan, env, e) && BeforeJob(env, e, s) && Clean(oracle)
    ensures StatesIn(RunFresh(env, oracle, s).0) == StatesIn(s) + LIFECYCLE + [Completed]
  {
    var before := StatesIn(s);
    var inv, post := VisitInv(plan, env, e, before), VisitPost(before);
    var runners := RunnersOf(env, FreshConfig(env), oracle);
    CleanStart(plan, env, e, s);
    StartVisits(env, s);
    forall j: nat, t | j < |runners| && inv(j, t) ensures CarriesStep(runners[j](t), 0, j, inv, post) {
      RunnersApply(env, FreshConfig(env), oracle, j, t);
      CleanStepCarriesVisits(plan, env, e, oracle, before, j, t);
    }
    forall t | inv(|env.steps|, t) ensures CarriesEnd(t, |env.steps|, post) {
      EndVisits(before, |env.steps|, t);
    }
    RunStepsRule(env, FreshConfig(env), 0, oracle, FreshStart(env, s), inv, post);
  }
}
