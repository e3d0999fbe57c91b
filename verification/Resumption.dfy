/** Resuming in general: when steps establish their stage from any state an
    interrupted earlier attempt may leave, and replaying rebuilds it, then every
    chain of runs keeps its stages. What the stages say is left open. */
module Resumption {
  import opened Prelude
  import opened Records
  import opened StateMachine
  import opened StepRegistries
  import opened StepContexts
  import opened Rehydration
  import opened Targets
  import opened StepBodies
  import opened Runner
  import opened RunnerProtocol
  import opened JobProtocol

  /** at: what holds before step i. kept: what holds of the target and the cache
      at any time. safe: what a checkpoint after step j relies on in the target. */
  datatype Stages = Stages(
    at: (nat, World) -> bool,
    kept: (Target, Service) -> bool,
    safe: (nat, Target) -> bool)

  /** The position of the last step after which a checkpoint can be resumed. */
  const LAST_RESUMABLE := 4

  /** States the machine may be in when step i is attempted: the step after the
      last resumable one finalizes the migration. */
  predicate Ready(i: nat, m: MigrationState) {
    if i <= LAST_RESUMABLE then !Terminal(m)
    else if i == LAST_RESUMABLE + 1 then !Terminal(m) || m == Completed
    else m == Completed
  }

  // ----- what is asked of the steps -----

  ghost predicate StaysSafe(stages: Stages, before: Target, after: Target) {
    forall j :: stages.safe(j, before) ==> stages.safe(j, after)
  }

  /** A completed attempt establishes the next stage, and the step can be attempted
      again from what it leaves. */
  ghost predicate Executes(stages: Stages, i: nat, w: World, b: BodyEnd) {
    && b.ok
    && stages.at(i + 1, b.world)
    && stages.at(i, World(w.ctx, b.world.target, b.world.service))
    && Ready(i, b.machine) && Ready(i + 1, b.machine)
    && StaysSafe(stages, w.target, b.world.target)
  }

  /** A stopped attempt leaves the step to be attempted again. */
  ghost predicate Stops(stages: Stages, i: nat, w: World, b: BodyEnd) {
    && stages.at(i, World(w.ctx, b.world.target, b.world.service))
    && Ready(i, b.machine)
    && StaysSafe(stages, w.target, b.world.target)
  }

  /** One attempt, complete or stopped, from its stage. */
  ghost predicate StepWorks(bodies: Bodies, step: Step, config: Configuration, stages: Stages,
                            i: nat, choice: Choice, m: MigrationState, w: World)
  {
    && Executes(stages, i, w, bodies.complete(config, step, choice, true, m, w))
    && Stops(stages, i, w, bodies.stopped(config, step, choice, true, m, w))
  }

  /** The steps from position from on. */
  ghost predicate StagesWork(bodies: Bodies, steps: seq<Step>, config: Configuration, stages: Stages, from: nat) {
    forall i: nat, choice, m, w :: from <= i < |steps| && stages.at(i, w) && Ready(i, m) ==>
      StepWorks(bodies, steps[i], config, stages, i, choice, m, w)
  }

  ghost predicate Rebuilds(stages: Stages, i: nat, j: nat, b: BodyEnd) {
    b.ok && stages.at(i + 1, b.world) && stages.safe(j, b.world.target) && !Terminal(b.machine)
  }

  ghost predicate Gives(stages: Stages, j: nat, b: BodyEnd) {
    stages.kept(b.world.target, b.world.service) && stages.safe(j, b.world.target)
  }

  /** Replaying step i for a checkpoint after step j. */
  ghost predicate ReplayWorks(bodies: Bodies, step: Step, config: Configuration, stages: Stages,
                              i: nat, j: nat, choice: Choice, m: MigrationState, w: World)
  {
    && Rebuilds(stages, i, j, bodies.complete(config, step, choice, false, m, w))
    && Gives(stages, j, bodies.stopped(config, step, choice, false, m, w))
  }

  ghost predicate ReplaysWork(bodies: Bodies, steps: seq<Step>, config: Configuration, stages: Stages) {
    forall i: nat, j: nat, choice, m, w ::
      i <= j <= LAST_RESUMABLE && i < |steps| && stages.at(i, w) && stages.safe(j, w.target) && !Terminal(m) ==>
        ReplayWorks(bodies, steps[i], config, stages, i, j, choice, m, w)
  }

  /** Runs and resumes may start from whatever an earlier run left. */
  ghost predicate Startable(steps: seq<Step>, stages: Stages) {
    && (forall t, service :: stages.kept(t, service) ==>
          && stages.kept(t, EMPTY_SERVICE)
          && stages.at(0, World(NO_DATA, t, service))
          && stages.at(0, World(NO_DATA.(report := Some(RESTORED_REPORT)), t, service)))
    && (forall i, w :: stages.at(i, w) ==> stages.kept(w.target, w.service))
    && (forall j: nat, w :: stages.at(j + 1, w) ==> stages.safe(j, w.target))
    && (forall i: nat :: i < |steps| ==> (StepState(steps[i]).Some? ==> !Terminal(StepState(steps[i]).value)))
  }

  /** The steps from position from on keep their stages. */
  ghost predicate Runnable(env: Env, stages: Stages, from: nat) {
    Startable(env.steps, stages) && StagesWork(env.bodies, env.steps, FreshConfig(env), stages, from)
  }

  /** Replays rebuild the stages. */
  ghost predicate Replayable(env: Env, stages: Stages) {
    && DistinctNames(env.steps)
    && Startable(env.steps, stages)
    && ReplaysWork(env.bodies, env.steps, FreshConfig(env), stages)
  }

  ghost predicate Resumable(env: Env, stages: Stages) {
    Runnable(env, stages, 0) && Replayable(env, stages)
  }

  // ----- what runs keep -----

  /** The checkpoint names a resumable step whose stage the target still supports. */
  ghost predicate NamesSafeStep(steps: seq<Step>, stages: Stages, ck: Checkpoint, t: Target) {
    exists j: nat :: j <= LAST_RESUMABLE && j < |steps|
                     && ck.lastStep == Some(ClassName(steps[j])) && stages.safe(j, t)
  }

  ghost predicate CheckpointFits(env: Env, stages: Stages, ck: Checkpoint, t: Target) {
    && ck.job == env.job && ck.version == 1 && ck.config == FreshConfig(env) && ck.state.Known?
    && (ck.state.state == Completed || (!Terminal(ck.state.state) && NamesSafeStep(env.steps, stages, ck, t)))
  }

  ghost predicate Fits(env: Env, stages: Stages, s: RunnerState) {
    env.job in s.checkpoints ==> CheckpointFits(env, stages, s.checkpoints[env.job], s.world.target)
  }

  ghost predicate BetweenRuns(env: Env, stages: Stages, s: RunnerState) {
    stages.kept(s.world.target, s.world.service) && Fits(env, stages, s)
  }

  ghost predicate AtStep(env: Env, stages: Stages, i: nat, s: RunnerState) {
    stages.at(i, s.world) && Ready(i, s.machine) && Fits(env, stages, s)
  }

  ghost predicate AfterStep(env: Env, stages: Stages, i: nat, after: RunnerState, end: StepEnd) {
    if end.StepDone? then AtStep(env, stages, i + 1, after) else BetweenRuns(env, stages, after)
  }

  lemma FitsStays(env: Env, stages: Stages, s: RunnerState, t: RunnerState)
    requires Fits(env, stages, s) && t.checkpoints == s.checkpoints
    requires StaysSafe(stages, s.world.target, t.world.target)
    ensures Fits(env, stages, t)
  {
  }

  lemma SavedFits(env: Env, stages: Stages, i: nat, s: RunnerState)
    requires i < |env.steps| && Startable(env.steps, stages)
    requires stages.at(i + 1, s.world) && Ready(i + 1, s.machine)
    ensures Fits(env, stages, SaveCheckpoint(env, FreshConfig(env), i, s))
  {
    var ck := BuildCheckpoint(env, FreshConfig(env), env.steps[i], s.machine);
    assert ck.lastStep == Some(ClassName(env.steps[i]));
  }

  /** The state an attempt leaves when it fails: the step can be attempted again. */
  ghost predicate CanRetry(env: Env, stages: Stages, i: nat, s: RunnerState, after: RunnerState) {
    && stages.at(i, World(s.world.ctx, after.world.target, after.world.service))
    && Ready(i, after.machine)
    && Fits(env, stages, after)
  }

  /** The end of an attempt whose body has completed. */
  lemma FinishFits(env: Env, stages: Stages, i: nat, choice: Choice, keepsRetried: bool, s: RunnerState)
    requires i < |env.steps| && Startable(env.steps, stages)
    requires stages.at(i + 1, s.world) && Ready(i + 1, s.machine) && Fits(env, stages, s)
    ensures var (after, failure) := FinishAttempt(env, FreshConfig(env), i, choice, keepsRetried, s);
            after.world == s.world && after.machine == s.machine && Fits(env, stages, after)
  {
    var reported := Reported(env.steps[i], choice, keepsRetried, s.counters);
    SavedFits(env, stages, i, s.(counters := MergeCounters(reported, s.counters)));
  }

  lemma AfterBodyFits(env: Env, stages: Stages, s: RunnerState, b: BodyEnd)
    requires Fits(env, stages, s) && StaysSafe(stages, s.world.target, b.world.target)
    ensures var after := AfterBody(s, b);
            after.world == b.world && after.machine == b.machine && Fits(env, stages, after)
  {
    FitsStays(env, stages, s, AfterBody(s, b));
  }

  lemma AttemptFits(env: Env, stages: Stages, from: nat, i: nat, number: nat, choice: Choice, s: RunnerState)
    requires from <= i < |env.steps| && Runnable(env, stages, from) && AtStep(env, stages, i, s)
    ensures var (after, failure) := Attempt(env, FreshConfig(env), i, number, choice, s);
            if failure.None? then AtStep(env, stages, i + 1, after) else CanRetry(env, stages, i, s, after)
  {
    var config, step := FreshConfig(env), env.steps[i];
    var begun := Logged(s, Attempted(i, number));
    var done := env.bodies.complete(config, step, choice, true, s.machine, s.world);
    var stopped := env.bodies.stopped(config, step, choice, true, s.machine, s.world);
    assert StepWorks(env.bodies, step, config, stages, i, choice, s.machine, s.world);
    assert s.world == World(s.world.ctx, s.world.target, s.world.service);
    AfterBodyFits(env, stages, begun, done);
    AfterBodyFits(env, stages, begun, stopped);
    FinishFits(env, stages, i, choice, done.keepsRetried, AfterBody(begun, done));
  }

  lemma RetryKeepsOn(env: Env, stages: Stages, from: nat, i: nat, number: nat, choice: Choice, s: RunnerState)
    requires from <= i < |env.steps| && Runnable(env, stages, from) && AtStep(env, stages, i, s)
    ensures var turn := TakeTurn(env, FreshConfig(env), i, number, choice, s);
            if turn.Again? then AtStep(env, stages, i, turn.after) else AfterStep(env, stages, i, turn.after, turn.end)
  {
    AttemptFits(env, stages, from, i, number, choice, s);
    var mid, saved, tail := TurnHasShape(env, FreshConfig(env), i, number, choice, s);
  }

  // ----- a step, a run -----

  ghost function AtStepInv(env: Env, stages: Stages, i: nat): TurnInv {
    (n: nat, t: RunnerState) => AtStep(env, stages, i, t)
  }

  ghost function AfterStepPost(env: Env, stages: Stages, i: nat): TurnPost {
    (after: RunnerState, end: StepEnd) => AfterStep(env, stages, i, after, end)
  }

  lemma TurnCarriesStage(env: Env, stages: Stages, from: nat, i: nat, oracle: Oracle, n: nat, t: RunnerState)
    requires from <= i < |env.steps| && Runnable(env, stages, from) && AtStepInv(env, stages, i)(n, t)
    ensures CarriesTurn(TakeTurn(env, FreshConfig(env), i, n + 1, oracle(i, n + 1), t), n,
                        AtStepInv(env, stages, i), AfterStepPost(env, stages, i))
  {
    RetryKeepsOn(env, stages, from, i, n + 1, oracle(i, n + 1), t);
  }

  lemma EnterKeepsStage(env: Env, stages: Stages, i: nat, s: RunnerState)
    requires i < |env.steps| && Startable(env.steps, stages) && AtStep(env, stages, i, s)
    ensures AtStep(env, stages, i, EnterStep(s, env.steps[i]))
  {
    EnterStepMoves(s, env.steps[i]);
    FitsStays(env, stages, s, EnterStep(s, env.steps[i]));
  }

  lemma StageTurns(env: Env, stages: Stages, from: nat, i: nat, oracle: Oracle)
    requires from <= i < |env.steps| && Runnable(env, stages, from)
    ensures TurnsCarry(TurnsOf(env, FreshConfig(env), i, oracle), AtStepInv(env, stages, i),
                       AfterStepPost(env, stages, i))
  {
    var inv, post := AtStepInv(env, stages, i), AfterStepPost(env, stages, i);
    var turns := TurnsOf(env, FreshConfig(env), i, oracle);
    forall n: nat, t | inv(n, t) ensures CarriesTurn(turns(n, t), n, inv, post) {
      TurnsApply(env, FreshConfig(env), i, oracle, n, t);
      TurnCarriesStage(env, stages, from, i, oracle, n, t);
    }
  }

  lemma StepKeepsStages(env: Env, stages: Stages, from: nat, i: nat, oracle: Oracle, s: RunnerState)
    requires from <= i < |env.steps| && Runnable(env, stages, from) && AtStep(env, stages, i, s)
    ensures var (after, end) := RunStep(env, FreshConfig(env), i, oracle, s); AfterStep(env, stages, i, after, end)
  {
    EnterKeepsStage(env, stages, i, s);
    StageTurns(env, stages, from, i, oracle);
    RunStepRule(env, FreshConfig(env), i, oracle, s, AtStepInv(env, stages, i), AfterStepPost(env, stages, i));
  }

  /** How a run ends: past the last stage, or somewhere between runs. */
  ghost predicate RunEnds(env: Env, stages: Stages, after: RunnerState, end: RunEnd) {
    && BetweenRuns(env, stages, after)
    && (end.Finished? ==> stages.at(|env.steps|, after.world))
  }

  ghost function StageInv(env: Env, stages: Stages, from: nat): StepInv {
    (i: nat, t: RunnerState) => from <= i && AtStep(env, stages, i, t)
  }

  ghost function StagePost(env: Env, stages: Stages): RunPost {
    (after: RunnerState, end: RunEnd) => RunEnds(env, stages, after, end)
  }

  lemma RollbackBetweenRuns(env: Env, stages: Stages, s: RunnerState, start: nat, at: nat)
    requires BetweenRuns(env, stages, s)
    ensures BetweenRuns(env, stages, Rollback(s, start, at))
  {
    RollbackKeeps(SaveOf, s, start, at);
    FitsStays(env, stages, s, Rollback(s, start, at));
  }

  lemma StepCarriesStages(env: Env, stages: Stages, from: nat, oracle: Oracle, start: nat, j: nat, t: RunnerState)
    requires j < |env.steps| && Runnable(env, stages, from) && StageInv(env, stages, from)(j, t)
    ensures CarriesStep(RunStep(env, FreshConfig(env), j, oracle, t), start, j, StageInv(env, stages, from),
                        StagePost(env, stages))
  {
    StepKeepsStages(env, stages, from, j, oracle, t);
    var (after, end) := RunStep(env, FreshConfig(env), j, oracle, t);
    if end.StepFailed? {
      RollbackBetweenRuns(env, stages, after, start, j);
    }
  }

  lemma EndCarriesStages(env: Env, stages: Stages, from: nat, t: RunnerState)
    requires Runnable(env, stages, from) && StageInv(env, stages, from)(|env.steps|, t)
    ensures CarriesEnd(t, |env.steps|, StagePost(env, stages))
  {
    FitsStays(env, stages, t, Enter(t, Completed));
  }

  lemma RunKeepsStages(env: Env, stages: Stages, from: nat, start: nat, oracle: Oracle, s: RunnerState)
    requires from <= start <= |env.steps| && Runnable(env, stages, from) && AtStep(env, stages, start, s)
    ensures var (after, end) := RunSteps(env, FreshConfig(env), start, oracle, s); RunEnds(env, stages, after, end)
  {
    var inv, post := StageInv(env, stages, from), StagePost(env, stages);
    var runners := RunnersOf(env, FreshConfig(env), oracle);
    forall j: nat, t | j < |runners| && inv(j, t) ensures CarriesStep(runners[j](t), start, j, inv, post) {
      RunnersApply(env, FreshConfig(env), oracle, j, t);
      StepCarriesStages(env, stages, from, oracle, start, j, t);
    }
    forall t | inv(|env.steps|, t) ensures CarriesEnd(t, |env.steps|, post) {
      EndCarriesStages(env, stages, from, t);
    }
    RunStepsRule(env, FreshConfig(env), start, oracle, s, inv, post);
  }

  // ----- launches -----

  lemma FreshKeepsStages(env: Env, stages: Stages, oracle: Oracle, s: RunnerState)
    requires Runnable(env, stages, 0) && BetweenRuns(env, stages, s)
    requires env.initialState.Some? ==> !Terminal(env.initialState.value)
    ensures RunEnds(env, stages, RunFresh(env, oracle, s).0, RunFresh(env, oracle, s).1)
  {
    var start := FreshStart(env, s);
    assert start.world == World(NO_DATA, s.world.target, s.world.service);
    FitsStays(env, stages, s, start);
    RunKeepsStages(env, stages, 0, 0, oracle, start);
  }

  /** During a replay towards position j + 1. */
  ghost predicate Rebuilding(env: Env, stages: Stages, j: nat, i: nat, t: RunnerState) {
    stages.at(i, t.world) && !Terminal(t.machine) && stages.safe(j, t.world.target) && Fits(env, stages, t)
  }

  ghost function RebuildPost(env: Env, stages: Stages): StateInv {
    (t: RunnerState) => BetweenRuns(env, stages, t)
  }

  /** While a checkpoint after step j is replayed, it stays the one in the repository. */
  lemma FitsAsSafe(env: Env, stages: Stages, j: nat, s: RunnerState, t: RunnerState)
    requires Fits(env, stages, s) && t.checkpoints == s.checkpoints
    requires j <= LAST_RESUMABLE && j < |env.steps| && env.job in s.checkpoints
    requires s.checkpoints[env.job].lastStep == Some(ClassName(env.steps[j])) && stages.safe(j, t.world.target)
    ensures Fits(env, stages, t)
  {
  }

  ghost predicate Stored(env: Env, j: nat, t: RunnerState) {
    && j <= LAST_RESUMABLE && j < |env.steps| && env.job in t.checkpoints
    && t.checkpoints[env.job].lastStep == Some(ClassName(env.steps[j]))
  }

  lemma ReplayStepRebuilds(env: Env, stages: Stages, j: nat, i: nat, choice: Choice, t: RunnerState)
    requires Replayable(env, stages) && i <= j && Stored(env, j, t) && Rebuilding(env, stages, j, i, t)
    ensures var (after, ok) := ReplayStep(env, FreshConfig(env), i, choice, t);
            Stored(env, j, after)
                && (if ok then Rebuilding(env, stages, j, i + 1, after) else BetweenRuns(env, stages, after))
  {
    var config, step := FreshConfig(env), env.steps[i];
    var entered := EnterStep(t, step);
    EnterStepMoves(t, step);
    FitsAsSafe(env, stages, j, t, entered);
    var done := env.bodies.complete(config, step, choice, false, entered.machine, entered.world);
    var stopped := env.bodies.stopped(config, step, choice, false, entered.machine, entered.world);
    assert ReplayWorks(env.bodies, step, config, stages, i, j, choice, entered.machine, entered.world);
    FitsAsSafe(env, stages, j, t, AfterBody(entered, done));
    FitsAsSafe(env, stages, j, t, AfterBody(entered, stopped));
  }

  ghost function StoredInv(env: Env, stages: Stages, j: nat): ReplayInv {
    (i: nat, t: RunnerState) => Stored(env, j, t) && Rebuilding(env, stages, j, i, t)
  }

  lemma ReplayerRebuilds(env: Env, stages: Stages, oracle: Oracle, j: nat, i: nat, t: RunnerState)
    requires Replayable(env, stages) && i <= j && i < |env.steps| && StoredInv(env, stages, j)(i, t)
    ensures CarriesReplay(ReplayStep(env, FreshConfig(env), i, oracle(i, 0), t), i,
                          StoredInv(env, stages, j), RebuildPost(env, stages))
  {
    ReplayStepRebuilds(env, stages, j, i, oracle(i, 0), t);
  }

  lemma ReplayRebuilds(env: Env, stages: Stages, oracle: Oracle, j: nat, s: RunnerState)
    requires Replayable(env, stages) && Stored(env, j, s) && Rebuilding(env, stages, j, 0, s)
    ensures var (after, ok) := Replay(ReplayersOf(env, FreshConfig(env), oracle), j + 1, s);
            if ok then Rebuilding(env, stages, j, j + 1, after) else BetweenRuns(env, stages, after)
  {
    var inv, post := StoredInv(env, stages, j), RebuildPost(env, stages);
    forall i: nat, t | i < j + 1 && inv(i, t)
      ensures CarriesReplay(ReplayStep(env, FreshConfig(env), i, oracle(i, 0), t), i, inv, post)
    {
      ReplayerRebuilds(env, stages, oracle, j, i, t);
    }
    ReplayStepsRule(env, FreshConfig(env), oracle, j + 1, s, inv, post);
  }

  lemma RestoredRebuilds(env: Env, stages: Stages, freshService: bool, j: nat, s: RunnerState)
    requires Replayable(env, stages) && BetweenRuns(env, stages, s) && Stored(env, j, s)
    requires s.checkpoints[env.job].state.Known? && !Terminal(s.checkpoints[env.job].state.state)
    requires stages.safe(j, s.world.target)
    ensures var restored := RestoredState(s.checkpoints[env.job], freshService, s);
            Stored(env, j, restored) && Rebuilding(env, stages, j, 0, restored)
  {
    var restored := RestoredState(s.checkpoints[env.job], freshService, s);
    assert stages.kept(s.world.target, EMPTY_SERVICE);
    FitsAsSafe(env, stages, j, s, restored);
  }

  lemma StoredResumesAfter(env: Env, j: nat, s: RunnerState)
    requires DistinctNames(env.steps) && Stored(env, j, s)
    ensures ResumeIndex(env, s.checkpoints[env.job]) == Some(j + 1)
  {
    IndexOfFindsOwnPosition(env.steps, j);
  }

  lemma RebuiltRunsOn(env: Env, stages: Stages, from: nat, oracle: Oracle, j: nat, t: RunnerState)
    requires Runnable(env, stages, from) && from <= j + 1 && j <= LAST_RESUMABLE && j < |env.steps|
             && Rebuilding(env, stages, j, j + 1, t)
    ensures var (after, end) := RunSteps(env, FreshConfig(env), j + 1, oracle, t); RunEnds(env, stages, after, end)
  {
    RunKeepsStages(env, stages, from, j + 1, oracle, t);
  }

  lemma ResumedKeepsStages(env: Env, stages: Stages, from: nat, freshService: bool, oracle: Oracle, s: RunnerState,
                           j: nat)
    requires Replayable(env, stages) && Runnable(env, stages, from) && from <= j + 1
    requires BetweenRuns(env, stages, s) && Stored(env, j, s)
    requires s.checkpoints[env.job].state.Known? && !Terminal(s.checkpoints[env.job].state.state)
    requires stages.safe(j, s.world.target) && s.checkpoints[env.job].config == FreshConfig(env)
    ensures var (after, end) := RunResumed(env, s.checkpoints[env.job], freshService, oracle, s);
            RunEnds(env, stages, after, end)
  {
    var ck, config := s.checkpoints[env.job], FreshConfig(env);
    StoredResumesAfter(env, j, s);
    assert ResumeConfig(env, ck) == config;
    var restored := RestoredState(ck, freshService, s);
    RestoredRebuilds(env, stages, freshService, j, s);
    ReplayRebuilds(env, stages, oracle, j, restored);
    var (replayed, ok) := Replay(ReplayersOf(env, config, oracle), j + 1, restored);
    if ok {
      RebuiltRunsOn(env, stages, from, oracle, j, replayed);
    }
  }

  lemma ResumeKeepsStages(env: Env, stages: Stages, freshService: bool, oracle: Oracle, s: RunnerState)
    requires Resumable(env, stages) && BetweenRuns(env, stages, s)
    ensures var (after, end) := ResumeMigration(env, freshService, oracle, s); RunEnds(env, stages, after, end)
  {
    if ValidateCheckpoint(env.job, Lookup(s.checkpoints, env.job)).None? {
      var ck := s.checkpoints[env.job];
      assert CheckpointFits(env, stages, ck, s.world.target);
      var j: nat :| j <= LAST_RESUMABLE && j < |env.steps|
                    && ck.lastStep == Some(ClassName(env.steps[j])) && stages.safe(j, s.world.target);
      ResumedKeepsStages(env, stages, 0, freshService, oracle, s, j);
    }
  }

  lemma LaunchKeepsStages(env: Env, stages: Stages, launch: Launch, s: RunnerState)
    requires Resumable(env, stages) && BetweenRuns(env, stages, s)
    requires env.initialState.Some? ==> !Terminal(env.initialState.value)
    ensures RunEnds(env, stages, RunLaunch(env, launch, s).0, RunLaunch(env, launch, s).1)
  {
    if launch.resume {
      ResumeKeepsStages(env, stages, launch.freshService, launch.oracle, s);
    } else {
      var from := if launch.freshService then s.(world := s.world.(service := EMPTY_SERVICE)) else s;
      FitsStays(env, stages, s, from);
      FreshKeepsStages(env, stages, launch.oracle, from);
    }
  }

  /** Whatever chain of fresh runs and resumes a job goes through, it stays between
      its stages, and a run of it that finishes is past the last one. */
  lemma {:induction false} JobKeepsStages(env: Env, stages: Stages, launches: seq<Launch>, s: RunnerState)
    requires Resumable(env, stages) && BetweenRuns(env, stages, s)
    requires env.initialState.Some? ==> !Terminal(env.initialState.value)
    requires launches != []
    ensures RunEnds(env, stages, RunJob(env, launches, s).0, RunJob(env, launches, s).1)
  {
    var n := |launches| - 1;
    if n > 0 {
      JobKeepsStages(env, stages, launches[..n], s);
    }
    LaunchKeepsStages(env, stages, launches[n], if n == 0 then s else RunJob(env, launches[..n], s).0);
  }

  // ----- a run nothing goes wrong in -----

  /** No first attempt raises. */
  ghost predicate Clean(oracle: Oracle) {
    forall i :: oracle(i, 1).fault.None?
  }

  lemma CleanTurn(env: Env, stages: Stages, from: nat, i: nat, choice: Choice, s: RunnerState)
    requires from <= i < |env.steps| && Runnable(env, stages, from) && AtStep(env, stages, i, s) && choice.fault.None?
    ensures var turn := TakeTurn(env, FreshConfig(env), i, 1, choice, s); turn.Over? && turn.end.StepDone?
  {
    assert StepWorks(env.bodies, env.steps[i], FreshConfig(env), stages, i, choice, s.machine, s.world);
  }

  lemma CleanStep(env: Env, stages: Stages, from: nat, i: nat, oracle: Oracle, s: RunnerState)
    requires from <= i < |env.steps| && Runnable(env, stages, from) && AtStep(env, stages, i, s)
    requires oracle(i, 1).fault.None?
    ensures RunStep(env, FreshConfig(env), i, oracle, s).1.StepDone?
  {
    EnterKeepsStage(env, stages, i, s);
    CleanTurn(env, stages, from, i, oracle(i, 1), EnterStep(s, env.steps[i]));
    TurnsStop(env, FreshConfig(env), i, oracle);
  }

  ghost function FinishesPost(): RunPost {
    (after: RunnerState, end: RunEnd) => end.Finished?
  }

  lemma CleanStepCarries(env: Env, stages: Stages, from: nat, oracle: Oracle, start: nat, j: nat, t: RunnerState)
    requires j < |env.steps| && Runnable(env, stages, from) && Clean(oracle) && StageInv(env, stages, from)(j, t)
    ensures CarriesStep(RunStep(env, FreshConfig(env), j, oracle, t), start, j, StageInv(env, stages, from),
                        FinishesPost())
  {
    StepKeepsStages(env, stages, from, j, oracle, t);
    CleanStep(env, stages, from, j, oracle, t);
  }

  /** A run in which no first attempt raises finishes. */
  lemma CleanRunFinishes(env: Env, stages: Stages, from: nat, start: nat, oracle: Oracle, s: RunnerState)
    requires from <= start <= |env.steps| && Runnable(env, stages, from) && AtStep(env, stages, start, s)
             && Clean(oracle)
    ensures RunSteps(env, FreshConfig(env), start, oracle, s).1.Finished?
  {
    var inv, post := StageInv(env, stages, from), FinishesPost();
    var runners := RunnersOf(env, FreshConfig(env), oracle);
    forall j: nat, t | j < |runners| && inv(j, t) ensures CarriesStep(runners[j](t), start, j, inv, post) {
      RunnersApply(env, FreshConfig(env), oracle, j, t);
      CleanStepCarries(env, stages, from, oracle, start, j, t);
    }
    forall t | inv(|env.steps|, t) ensures CarriesEnd(t, |env.steps|, post) {
    }
    RunStepsRule(env, FreshConfig(env), start, oracle, s, inv, post);
  }

  lemma CleanFreshRunFinishes(env: Env, stages: Stages, oracle: Oracle, s: RunnerState)
    requires Runnable(env, stages, 0) && BetweenRuns(env, stages, s) && Clean(oracle)
    requires env.initialState.Some? ==> !Terminal(env.initialState.value)
    ensures RunFresh(env, oracle, s).1.Finished?
  {
    var start := FreshStart(env, s);
    assert start.world == World(NO_DATA, s.world.target, s.world.service);
    FitsStays(env, stages, s, start);
    CleanRunFinishes(env, stages, 0, 0, oracle, start);
  }

  // ----- a resume nothing goes wrong in -----

  /** No replay raises. */
  ghost predicate CleanReplays(oracle: Oracle) {
    forall i :: oracle(i, 0).fault.None?
  }

  ghost predicate NoState(t: RunnerState) {
    false
  }

  lemma CleanReplayStep(env: Env, stages: Stages, j: nat, i: nat, choice: Choice, t: RunnerState)
    requires Replayable(env, stages) && i <= j && Stored(env, j, t) && Rebuilding(env, stages, j, i, t)
    requires choice.fault.None?
    ensures ReplayStep(env, FreshConfig(env), i, choice, t).1
  {
    var step, entered := env.steps[i], EnterStep(t, env.steps[i]);
    EnterStepMoves(t, step);
    assert ReplayWorks(env.bodies, step, FreshConfig(env), stages, i, j, choice, entered.machine, entered.world);
  }

  lemma CleanReplayerRebuilds(env: Env, stages: Stages, oracle: Oracle, j: nat, i: nat, t: RunnerState)
    requires Replayable(env, stages) && i <= j && i < |env.steps| && StoredInv(env, stages, j)(i, t)
    requires CleanReplays(oracle)
    ensures CarriesReplay(ReplayStep(env, FreshConfig(env), i, oracle(i, 0), t), i, StoredInv(env, stages, j), NoState)
  {
    CleanReplayStep(env, stages, j, i, oracle(i, 0), t);
    ReplayStepRebuilds(env, stages, j, i, oracle(i, 0), t);
  }

  lemma CleanReplayRebuilds(env: Env, stages: Stages, oracle: Oracle, j: nat, s: RunnerState)
    requires Replayable(env, stages) && Stored(env, j, s) && Rebuilding(env, stages, j, 0, s) && CleanReplays(oracle)
    ensures var (after, ok) := Replay(ReplayersOf(env, FreshConfig(env), oracle), j + 1, s);
            ok && Rebuilding(env, stages, j, j + 1, after)
  {
    var inv := StoredInv(env, stages, j);
    forall i: nat, t | i < j + 1 && inv(i, t)
      ensures CarriesReplay(ReplayStep(env, FreshConfig(env), i, oracle(i, 0), t), i, inv, NoState)
    {
      CleanReplayerRebuilds(env, stages, oracle, j, i, t);
    }
    ReplayStepsRule(env, FreshConfig(env), oracle, j + 1, s, inv, NoState);
  }

  /** From a checkpoint after step j that the target still supports. */
  lemma CleanResumedFinishes(env: Env, stages: Stages, from: nat, freshService: bool, oracle: Oracle,
                             s: RunnerState, j: nat)
    requires Replayable(env, stages) && Runnable(env, stages, from) && from <= j + 1
    requires BetweenRuns(env, stages, s) && Stored(env, j, s)
    requires s.checkpoints[env.job].state.Known? && !Terminal(s.checkpoints[env.job].state.state)
    requires stages.safe(j, s.world.target) && s.checkpoints[env.job].config == FreshConfig(env)
    requires Clean(oracle) && CleanReplays(oracle)
    ensures RunResumed(env, s.checkpoints[env.job], freshService, oracle, s).1.Finished?
  {
    var ck, config := s.checkpoints[env.job], FreshConfig(env);
    StoredResumesAfter(env, j, s);
    assert ResumeConfig(env, ck) == config;
    var restored := RestoredState(ck, freshService, s);
    RestoredRebuilds(env, stages, freshService, j, s);
    CleanReplayRebuilds(env, stages, oracle, j, restored);
    var replayed := Replay(ReplayersOf(env, config, oracle), j + 1, restored).0;
    CleanRunFinishes(env, stages, from, j + 1, oracle, replayed);
  }

  /** Recovery: between runs, a stored checkpoint that is not COMPLETED can be resumed
      to the end, whatever happened before. */
  lemma CleanResumeFinishes(env: Env, stages: Stages, freshService: bool, oracle: Oracle, s: RunnerState)
    requires Resumable(env, stages) && BetweenRuns(env, stages, s) && Clean(oracle) && CleanReplays(oracle)
    requires env.job in s.checkpoints && s.checkpoints[env.job].state != Known(Completed)
    ensures ResumeMigration(env, freshService, oracle, s).1.Finished?
  {
    var ck := s.checkpoints[env.job];
    assert CheckpointFits(env, stages, ck, s.world.target);
    var j: nat :| j <= LAST_RESUMABLE && j < |env.steps|
                  && ck.lastStep == Some(ClassName(env.steps[j])) && stages.safe(j, s.world.target);
    CleanResumedFinishes(env, stages, 0, freshService, oracle, s, j);
  }
}
