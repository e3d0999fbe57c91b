/** Which configuration a run works with, and that a dry one never writes to the target. */
module RunConfigurations {
  import opened Prelude
  import opened Records
  import opened StateMachine
  import opened StepRegistries
  import opened StepContexts
  import opened Rehydration
  import opened Targets
  import opened StepBodies
  import opened Runner
  import opened RunnerProtocol
  import opened JobProtocol

  // ----- the target of a dry run -----

  /** Executing a step under this configuration leaves the target as it is. */
  ghost predicate WritesNothing(bodies: Bodies, config: Configuration) {
    && (forall step, choice, machine, w ::
          bodies.complete(config, step, choice, true, machine, w).world.target == w.target)
    && (forall step, choice, machine, w ::
          bodies.stopped(config, step, choice, true, machine, w).world.target == w.target)
  }

  /** So does replaying one, under any configuration. */
  ghost predicate ReplaysWriteNothing(bodies: Bodies) {
    && (forall config, step, choice, machine, w ::
          bodies.complete(config, step, choice, false, machine, w).world.target == w.target)
    && (forall config, step, choice, machine, w ::
          bodies.stopped(config, step, choice, false, machine, w).world.target == w.target)
  }

  /** Bodies that write neither in a dry run nor in a replay. */
  ghost predicate DryIsHarmless(bodies: Bodies) {
    ReplaysWriteNothing(bodies) && forall config :: IsDryConfig(config) ==> WritesNothing(bodies, config)
  }

  predicate IsDryConfig(config: Configuration) {
    config.dryRun
  }

  lemma DryBodyKeepsTarget(plan: Plan, config: Configuration, step: Step, choice: Choice, perform: bool,
                           machine: MigrationState, w: World)
    requires config.dryRun || !perform
    ensures CompleteBody(plan, config, step, choice, perform, machine, w).world.target == w.target
  {
  }

  lemma StoppedDryBodyKeepsTarget(plan: Plan, config: Configuration, step: Step, choice: Choice, perform: bool,
                                  machine: MigrationState, w: World)
    requires config.dryRun || !perform
    ensures StoppedBody(plan, config, step, choice, perform, machine, w).world.target == w.target
  {
  }

  lemma DryStepsWriteNothing(plan: Plan, config: Configuration)
    requires config.dryRun
    ensures WritesNothing(MigrationBodies(plan), config)
  {
    var bodies := MigrationBodies(plan);
    forall step, choice, machine, w
      ensures bodies.complete(config, step, choice, true, machine, w).world.target == w.target
    {
      DryBodyKeepsTarget(plan, config, step, choice, true, machine, w);
    }
    forall step, choice, machine, w
      ensures bodies.stopped(config, step, choice, true, machine, w).world.target == w.target
    {
      StoppedDryBodyKeepsTarget(plan, config, step, choice, true, machine, w);
    }
  }

  lemma MigrationReplaysWriteNothing(plan: Plan)
    ensures ReplaysWriteNothing(MigrationBodies(plan))
  {
    var bodies := MigrationBodies(plan);
    forall config, step, choice, machine, w
      ensures bodies.complete(config, step, choice, false, machine, w).world.target == w.target
    {
      DryBodyKeepsTarget(plan, config, step, choice, false, machine, w);
    }
    forall config, step, choice, machine, w
      ensures bodies.stopped(config, step, choice, false, machine, w).world.target == w.target
    {
      StoppedDryBodyKeepsTarget(plan, config, step, choice, false, machine, w);
    }
  }

  lemma MigrationDryIsHarmless(plan: Plan)
    ensures DryIsHarmless(MigrationBodies(plan))
  {
    MigrationReplaysWriteNothing(plan);
    forall config | IsDryConfig(config) ensures WritesNothing(MigrationBodies(plan), config) {
      DryStepsWriteNothing(plan, config);
    }
  }

  lemma DryAttemptKeepsTarget(env: Env, config: Configuration, i: nat, number: nat, choice: Choice, s: RunnerState)
    requires i < |env.steps| && WritesNothing(env.bodies, config)
    ensures Attempt(env, config, i, number, choice, s).0.world.target == s.world.target
  {
    var step := env.steps[i];
    assert env.bodies.complete(config, step, choice, true, s.machine, s.world).world.target == s.world.target;
    assert env.bodies.stopped(config, step, choice, true, s.machine, s.world).world.target == s.world.target;
  }

  lemma DryTurnKeepsTarget(env: Env, config: Configuration, i: nat, number: nat, choice: Choice, s: RunnerState)
    requires i < |env.steps| && WritesNothing(env.bodies, config)
    ensures TakeTurn(env, config, i, number, choice, s).after.world.target == s.world.target
  {
    DryAttemptKeepsTarget(env, config, i, number, choice, s);
    var mid, saved, tail := TurnHasShape(env, config, i, number, choice, s);
  }

  ghost function HasTarget(target: Target): StateInv {
    (t: RunnerState) => t.world.target == target
  }

  lemma DryRunKeepsTarget(env: Env, config: Configuration, start: nat, oracle: Oracle, s: RunnerState)
    requires start <= |env.steps| && WritesNothing(env.bodies, config)
    ensures RunSteps(env, config, start, oracle, s).0.world.target == s.world.target
  {
    var p := HasTarget(s.world.target);
    forall i: nat, number: nat, t | i < |env.steps| && p(t)
      ensures p(TakeTurn(env, config, i, number, oracle(i, number), t).after)
    {
      DryTurnKeepsTarget(env, config, i, number, oracle(i, number), t);
    }
    RunPreserves(env, config, start, oracle, s, p);
  }

  // ----- the configuration of saved checkpoints -----

  /** What t has saved since s, it has saved for this job and under this configuration. */
  ghost predicate SavedUnder(env: Env, config: Configuration, s: RunnerState, t: RunnerState) {
    && |SavesIn(s)| <= |SavesIn(t)|
    && (forall job :: job != env.job ==> Lookup(t.checkpoints, job) == Lookup(s.checkpoints, job))
    && (if |SavesIn(t)| == |SavesIn(s)| then t.checkpoints == s.checkpoints
        else env.job in t.checkpoints && t.checkpoints[env.job].config == config)
  }

  ghost function SavedUnderInv(env: Env, config: Configuration, s: RunnerState): StateInv {
    (t: RunnerState) => SavedUnder(env, config, s, t)
  }

  lemma TurnSavesUnder(env: Env, config: Configuration, i: nat, number: nat, choice: Choice, s: RunnerState,
                       t: RunnerState)
    requires i < |env.steps| && SavedUnder(env, config, s, t)
    ensures SavedUnder(env, config, s, TakeTurn(env, config, i, number, choice, t).after)
  {
    var saved, m := TurnOnTrail(env, config, i, number, choice, t);
    var after := TakeTurn(env, config, i, number, choice, t).after;
    SavedOnce(env, config, i, m, saved, s, t, after);
  }

  lemma SavedOnce(env: Env, config: Configuration, i: nat, m: MigrationState, saved: bool, s: RunnerState,
                  t: RunnerState, after: RunnerState)
    requires i < |env.steps| && SavedUnder(env, config, s, t)
    requires SavesIn(after) == SavesIn(t) + (if saved then [i] else [])
    requires after.checkpoints == (if saved then t.checkpoints[env.job := BuildCheckpoint(env, config, env.steps[i], m)]
                                   else t.checkpoints)
    ensures SavedUnder(env, config, s, after)
  {
  }

  lemma MovesSaveNothing(env: Env, config: Configuration, s: RunnerState)
    ensures KeptByMoves(SavedUnderInv(env, config, s))
  {
    var p := SavedUnderInv(env, config, s);
    forall t, state | p(t) ensures p(Enter(t, state)) {
      EnterCollects(SaveOf, t, state);
    }
    forall t, at | p(t) ensures p(Logged(t, RolledBack(at))) {
      CollectLogged(SaveOf, t, RolledBack(at));
    }
  }

  lemma RunSavesUnder(env: Env, config: Configuration, start: nat, oracle: Oracle, s: RunnerState, t: RunnerState)
    requires start <= |env.steps| && SavedUnder(env, config, s, t)
    ensures SavedUnder(env, config, s, RunSteps(env, config, start, oracle, t).0)
  {
    var p := SavedUnderInv(env, config, s);
    forall i: nat, number: nat, u | i < |env.steps| && p(u)
      ensures p(TakeTurn(env, config, i, number, oracle(i, number), u).after)
    {
      TurnSavesUnder(env, config, i, number, oracle(i, number), s, u);
    }
    MovesSaveNothing(env, config, s);
    RunPreserves(env, config, start, oracle, t, p);
  }

  // ----- replays -----

  /** A replay saves nothing, and does not write if its bodies do not. */
  ghost predicate Replayed(env: Env, s: RunnerState, t: RunnerState) {
    && SavesIn(t) == SavesIn(s) && t.checkpoints == s.checkpoints
    && (ReplaysWriteNothing(env.bodies) ==> t.world.target == s.world.target)
  }

  /** What a replayed step leaves, apart from the counters. */
  lemma ReplayStepEnds(env: Env, config: Configuration, i: nat, choice: Choice, s: RunnerState)
    requires i < |env.steps|
    ensures var step, entered := env.steps[i], EnterStep(s, env.steps[i]);
            var done := env.bodies.complete(config, step, choice, false, entered.machine, entered.world);
            var stopped := env.bodies.stopped(config, step, choice, false, entered.machine, entered.world);
            var after := ReplayStep(env, config, i, choice, s).0.(counters := entered.counters);
            after in {entered, AfterBody(entered, stopped), AfterBody(entered, done)}
  {
  }

  lemma ReplayedBody(env: Env, s: RunnerState, entered: RunnerState, b: BodyEnd)
    requires Replayed(env, s, entered)
    requires ReplaysWriteNothing(env.bodies) ==> b.world.target == entered.world.target
    ensures Replayed(env, s, AfterBody(entered, b))
  {
    AfterBodyCollects(SaveOf, entered, b);
  }

  lemma ReplayedButCounters(env: Env, s: RunnerState, t: RunnerState, counters: Option<Counters>)
    requires Replayed(env, s, t.(counters := counters))
    ensures Replayed(env, s, t)
  {
  }

  lemma EnteredToReplay(env: Env, s: RunnerState, step: Step)
    ensures Replayed(env, s, EnterStep(s, step))
  {
    EnterStepCollects(SaveOf, s, step);
    EnterStepMoves(s, step);
  }

  lemma ReplayStepWritesNothing(env: Env, config: Configuration, i: nat, choice: Choice, s: RunnerState)
    requires i < |env.steps|
    ensures Replayed(env, s, ReplayStep(env, config, i, choice, s).0)
  {
    var step, entered := env.steps[i], EnterStep(s, env.steps[i]);
    var done := env.bodies.complete(config, step, choice, false, entered.machine, entered.world);
    var stopped := env.bodies.stopped(config, step, choice, false, entered.machine, entered.world);
    EnteredToReplay(env, s, step);
    ReplayedBody(env, s, entered, done);
    ReplayedBody(env, s, entered, stopped);
    ReplayStepEnds(env, config, i, choice, s);
    ReplayedButCounters(env, s, ReplayStep(env, config, i, choice, s).0, entered.counters);
  }

  ghost function ReplayedInv(env: Env, s: RunnerState): ReplayInv {
    (n: nat, t: RunnerState) => Replayed(env, s, t)
  }

  ghost function ReplayedPost(env: Env, s: RunnerState): StateInv {
    (t: RunnerState) => Replayed(env, s, t)
  }

  lemma ReplayerWritesNothing(env: Env, config: Configuration, oracle: Oracle, s: RunnerState, j: nat, t: RunnerState)
    requires j < |env.steps| && Replayed(env, s, t)
    ensures CarriesReplay(ReplayStep(env, config, j, oracle(j, 0), t), j, ReplayedInv(env, s), ReplayedPost(env, s))
  {
    ReplayStepWritesNothing(env, config, j, oracle(j, 0), t);
  }

  lemma ReplayWritesNothing(env: Env, config: Configuration, oracle: Oracle, n: nat, s: RunnerState)
    requires n <= |env.steps|
    ensures Replayed(env, s, Replay(ReplayersOf(env, config, oracle), n, s).0)
  {
    var inv, post := ReplayedInv(env, s), ReplayedPost(env, s);
    forall j: nat, t | j < n && inv(j, t)
      ensures CarriesReplay(ReplayStep(env, config, j, oracle(j, 0), t), j, inv, post)
    {
      ReplayerWritesNothing(env, config, oracle, s, j, t);
    }
    ReplayStepsRule(env, config, oracle, n, s, inv, post);
  }

  // ----- resuming -----

  predicate IsDryRunner(env: Env) {
    env.initialConfig.Some? && env.initialConfig.value.dryRun
  }

  /** A configuration that goes on where the stored one stopped: the same archives, folders, dates,
      workers and rate, and dry if and only if the stored one or the runner's own is. */
  ghost predicate GoesOn(env: Env, stored: Configuration, config: Configuration) {
    && config.archiveNames == stored.archiveNames
    && config.folderPaths == stored.folderPaths
    && config.startDate == stored.startDate
    && config.endDate == stored.endDate
    && config.uploadWorkers == stored.uploadWorkers
    && config.uploadRate == stored.uploadRate
    && (config.dryRun <==> stored.dryRun || IsDryRunner(env))
  }

  /** What a launch has saved, if anything, has a configuration with this property. */
  ghost predicate SavesOnly(env: Env, p: Configuration -> bool, s: RunnerState, after: RunnerState) {
    && (forall job :: job != env.job ==> Lookup(after.checkpoints, job) == Lookup(s.checkpoints, job))
    && (if |SavesIn(after)| <= |SavesIn(s)| then after.checkpoints == s.checkpoints
        else env.job in after.checkpoints && p(after.checkpoints[env.job].config))
  }

  ghost function GoingOn(env: Env, stored: Configuration): Configuration -> bool {
    (config: Configuration) => GoesOn(env, stored, config)
  }

  lemma SavedUnderSavesOnly(env: Env, config: Configuration, p: Configuration -> bool, s: RunnerState, t: RunnerState)
    requires SavedUnder(env, config, s, t) && p(config)
    ensures SavesOnly(env, p, s, t)
  {
  }

  /** How the two parts of a resume follow each other. */
  lemma ResumeParts(env: Env, freshService: bool, oracle: Oracle, s: RunnerState) returns (replayed: RunnerState)
    requires env.job in s.checkpoints
    ensures Replayed(env, s, replayed)
    ensures var ck, after := s.checkpoints[env.job], ResumeMigration(env, freshService, oracle, s).0;
            || after == replayed
            || exists start: nat :: start <= |env.steps|
                 && after == RunSteps(env, ResumeConfig(env, ck), start, oracle, replayed).0
  {
    replayed := s;
    var ck := s.checkpoints[env.job];
    if ValidateCheckpoint(env.job, Some(ck)).None? && ResumeIndex(env, ck).Some? {
      var start, config := ResumeIndex(env, ck).value, ResumeConfig(env, ck);
      var restored := RestoredState(ck, freshService, s);
      ReplayWritesNothing(env, config, oracle, start, restored);
      replayed := Replay(ReplayersOf(env, config, oracle), start, restored).0;
      assert Replayed(env, s, restored);
      assert ResumeMigration(env, freshService, oracle, s) == RunResumed(env, ck, freshService, oracle, s);
    }
  }

  /** Every checkpoint a resume saves has the archives, folders, dates, workers and rate of the
      stored one, and is dry if and only if the stored one or the runner is. The oracle may end
      the resume after any save, so this speaks of each of them. */
  lemma ResumeKeepsConfiguration(env: Env, freshService: bool, oracle: Oracle, s: RunnerState)
    requires env.job in s.checkpoints
    ensures SavesOnly(env, GoingOn(env, s.checkpoints[env.job].config), s,
                      ResumeMigration(env, freshService, oracle, s).0)
  {
    var ck, after := s.checkpoints[env.job], ResumeMigration(env, freshService, oracle, s).0;
    var replayed := ResumeParts(env, freshService, oracle, s);
    var config, p := ResumeConfig(env, ck), GoingOn(env, ck.config);
    assert SavedUnder(env, config, s, replayed);
    if after != replayed {
      var start: nat :| start <= |env.steps| && after == RunSteps(env, config, start, oracle, replayed).0;
      RunSavesUnder(env, config, start, oracle, s, replayed);
    }
    SavedUnderSavesOnly(env, config, p, s, after);
  }

  function DryOnly(): Configuration -> bool {
    (config: Configuration) => config.dryRun
  }

  /** If the stored checkpoint or the runner is dry, a resume writes nothing to the target and
      saves dry checkpoints only. */
  lemma DryResumeWritesNothing(env: Env, freshService: bool, oracle: Oracle, s: RunnerState)
    requires DryIsHarmless(env.bodies) && env.job in s.checkpoints
    requires s.checkpoints[env.job].config.dryRun || IsDryRunner(env)
    ensures var after := ResumeMigration(env, freshService, oracle, s).0;
            after.world.target == s.world.target && SavesOnly(env, DryOnly(), s, after)
  {
    var ck, after := s.checkpoints[env.job], ResumeMigration(env, freshService, oracle, s).0;
    ResumeKeepsConfiguration(env, freshService, oracle, s);
    var replayed := ResumeParts(env, freshService, oracle, s);
    var config := ResumeConfig(env, ck);
    assert IsDryConfig(config);
    if after != replayed {
      var start: nat :| start <= |env.steps| && after == RunSteps(env, config, start, oracle, replayed).0;
      DryRunKeepsTarget(env, config, start, oracle, replayed);
    }
  }

  /** Dry or not, a resume leaves the target alone until its first attempt: the replay writes nothing. */
  lemma ReplayLeavesTarget(env: Env, config: Configuration, oracle: Oracle, n: nat, s: RunnerState)
    requires DryIsHarmless(env.bodies) && n <= |env.steps|
    ensures Replay(ReplayersOf(env, config, oracle), n, s).0.world.target == s.world.target
  {
    ReplayWritesNothing(env, config, oracle, n, s);
  }

  // ----- fresh runs and whole jobs -----

  /** A fresh run's configuration: the runner's own, and without one, every item, one worker, no rate. */
  ghost predicate StartsWith(env: Env, config: Configuration) {
    match env.initialConfig
    case Some(own) => config == own
    case None =>
      && !config.dryRun && config.archiveNames.None? && config.folderPaths.None?
      && config.startDate.None? && config.endDate.None? && config.uploadWorkers == 1 && config.uploadRate.None?
  }

  ghost function StartingWith(env: Env): Configuration -> bool {
    (config: Configuration) => StartsWith(env, config)
  }

  lemma FreshRunConfiguration(env: Env, oracle: Oracle, s: RunnerState)
    ensures SavesOnly(env, StartingWith(env), s, RunFresh(env, oracle, s).0)
  {
    var initial := if env.initialState.Some? then env.initialState.value else MigrationState.Created;
    var before := s.(machine := initial, counters := None, world := s.world.(ctx := NO_DATA));
    EnterCollects(SaveOf, before, Initializing);
    assert SavedUnder(env, FreshConfig(env), s, FreshStart(env, s));
    RunSavesUnder(env, FreshConfig(env), 0, oracle, s, FreshStart(env, s));
    SavedUnderSavesOnly(env, FreshConfig(env), StartingWith(env), s, RunFresh(env, oracle, s).0);
  }

  lemma DryFreshRunWritesNothing(env: Env, oracle: Oracle, s: RunnerState)
    requires DryIsHarmless(env.bodies) && IsDryRunner(env)
    ensures RunFresh(env, oracle, s).0.world.target == s.world.target
  {
    assert IsDryConfig(FreshConfig(env));
    DryRunKeepsTarget(env, FreshConfig(env), 0, oracle, FreshStart(env, s));
  }

  lemma DryLaunchWritesNothing(env: Env, launch: Launch, s: RunnerState)
    requires DryIsHarmless(env.bodies) && IsDryRunner(env)
    ensures RunLaunch(env, launch, s).0.world.target == s.world.target
  {
    if !launch.resume {
      var from := if launch.freshService then s.(world := s.world.(service := EMPTY_SERVICE)) else s;
      DryFreshRunWritesNothing(env, launch.oracle, from);
    } else if env.job in s.checkpoints {
      DryResumeWritesNothing(env, launch.freshService, launch.oracle, s);
    }
  }

  /** A dry runner leaves the target alone through any chain of fresh runs and resumes. */
  lemma {:induction false} DryJobWritesNothing(env: Env, launches: seq<Launch>, s: RunnerState)
    requires DryIsHarmless(env.bodies) && IsDryRunner(env) && launches != []
    ensures RunJob(env, launches, s).0.world.target == s.world.target
  {
    var n := |launches| - 1;
    if n > 0 {
      DryJobWritesNothing(env, launches[..n], s);
    }
    DryLaunchWritesNothing(env, launches[n], if n == 0 then s else RunJob(env, launches[..n], s).0);
  }

  /** The same for the migration steps: if the stored checkpoint or the runner is dry, a resume
      writes nothing and saves dry checkpoints only. */
  lemma DryMigrationResumeWritesNothing(plan: Plan, env: Env, freshService: bool, oracle: Oracle, s: RunnerState)
    requires env.bodies == MigrationBodies(plan) && env.job in s.checkpoints
    requires s.checkpoints[env.job].config.dryRun || IsDryRunner(env)
    ensures var after := ResumeMigration(env, freshService, oracle, s).0;
            after.world.target == s.world.target && SavesOnly(env, DryOnly(), s, after)
  {
    MigrationDryIsHarmless(plan);
    DryResumeWritesNothing(env, freshService, oracle, s);
  }

  /** And a dry runner of theirs never writes. */
  lemma DryMigrationJobWritesNothing(plan: Plan, env: Env, launches: seq<Launch>, s: RunnerState)
    requires env.bodies == MigrationBodies(plan) && IsDryRunner(env) && launches != []
    ensures RunJob(env, launches, s).0.world.target == s.world.target
  {
    MigrationDryIsHarmless(plan);
    DryJobWritesNothing(env, launches, s);
  }

  /** A dry run by one runner, resumed by any other, leaves the target alone as well: only the
      first runner need have been dry, as long as it has saved something. */
  lemma DryCheckpointStaysDry(dry: Env, other: Env, run: Oracle, freshService: bool, resume: Oracle, s: RunnerState)
    requires DryIsHarmless(dry.bodies) && DryIsHarmless(other.bodies) && IsDryRunner(dry) && other.job == dry.job
    requires |SavesIn(RunFresh(dry, run, s).0)| > |SavesIn(s)|
    ensures ResumeMigration(other, freshService, resume, RunFresh(dry, run, s).0).0.world.target == s.world.target
  {
    FreshRunConfiguration(dry, run, s);
    DryFreshRunWritesNothing(dry, run, s);
    DryResumeWritesNothing(other, freshService, resume, RunFresh(dry, run, s).0);
  }

  // ----- resuming with another runner -----

  /** A runner for the same job that was built with another configuration. */
  ghost predicate SameButConfig(env: Env, other: Env) {
    other == env.(initialConfig := other.initialConfig)
  }

  lemma AttemptsMatch(env: Env, other: Env, config: Configuration, i: nat, number: nat, choice: Choice, s: RunnerState)
    requires SameButConfig(env, other) && i < |env.steps|
    ensures Attempt(env, config, i, number, choice, s) == Attempt(other, config, i, number, choice, s)
  {
  }

  lemma TurnsMatch(env: Env, other: Env, config: Configuration, i: nat, number: nat, choice: Choice, s: RunnerState)
    requires SameButConfig(env, other) && i < |env.steps|
    ensures TakeTurn(env, config, i, number, choice, s) == TakeTurn(other, config, i, number, choice, s)
  {
    AttemptsMatch(env, other, config, i, number, choice, s);
  }

  lemma {:induction false} RetryLoopsMatch(a: Turns, b: Turns, limit: nat, made: nat, s: RunnerState)
    requires StopsAt(a, limit) && StopsAt(b, limit) && forall n: nat, t :: a(n, t) == b(n, t)
    ensures RetryLoop(a, limit, made, s) == RetryLoop(b, limit, made, s)
    decreases limit - made
  {
    if a(made, s).Again? {
      RetryLoopsMatch(a, b, limit, made + 1, a(made, s).after);
    }
  }

  lemma StepsMatch(env: Env, other: Env, config: Configuration, i: nat, oracle: Oracle, s: RunnerState)
    requires SameButConfig(env, other) && i < |env.steps|
    ensures RunStep(env, config, i, oracle, s) == RunStep(other, config, i, oracle, s)
  {
    var a, b := TurnsOf(env, config, i, oracle), TurnsOf(other, config, i, oracle);
    TurnsStop(env, config, i, oracle);
    TurnsStop(other, config, i, oracle);
    forall n: nat, t ensures a(n, t) == b(n, t) {
      TurnsApply(env, config, i, oracle, n, t);
      TurnsApply(other, config, i, oracle, n, t);
      TurnsMatch(env, other, config, i, n + 1, oracle(i, n + 1), t);
    }
    RetryLoopsMatch(a, b, env.retry.limit, 0, EnterStep(s, env.steps[i]));
  }

  lemma {:induction false} StepLoopsMatch(a: seq<StepRunner>, b: seq<StepRunner>, start: nat, i: nat, s: RunnerState)
    requires i <= |a| == |b| && forall j: nat, t :: j < |a| ==> a[j](t) == b[j](t)
    ensures StepLoop(a, start, i, s) == StepLoop(b, start, i, s)
    decreases |a| - i
  {
    if i < |a| && a[i](s).1.StepDone? {
      StepLoopsMatch(a, b, start, i + 1, a[i](s).0);
    }
  }

  lemma RunsMatch(env: Env, other: Env, config: Configuration, start: nat, oracle: Oracle, s: RunnerState)
    requires SameButConfig(env, other) && start <= |env.steps|
    ensures RunSteps(env, config, start, oracle, s) == RunSteps(other, config, start, oracle, s)
  {
    var a, b := RunnersOf(env, config, oracle), RunnersOf(other, config, oracle);
    forall j: nat, t | j < |a| ensures a[j](t) == b[j](t) {
      RunnersApply(env, config, oracle, j, t);
      RunnersApply(other, config, oracle, j, t);
      StepsMatch(env, other, config, j, oracle, t);
    }
    StepLoopsMatch(a, b, start, start, s);
  }

  lemma {:induction false} ReplayLoopsMatch(a: seq<Replayer>, b: seq<Replayer>, n: nat, s: RunnerState)
    requires n <= |a| == |b| && forall j: nat, t :: j < |a| ==> a[j](t) == b[j](t)
    ensures Replay(a, n, s) == Replay(b, n, s)
  {
    if n > 0 {
      ReplayLoopsMatch(a, b, n - 1, s);
    }
  }

  lemma ReplayStepsMatch(env: Env, other: Env, config: Configuration, i: nat, choice: Choice, s: RunnerState)
    requires SameButConfig(env, other) && i < |env.steps|
    ensures ReplayStep(env, config, i, choice, s) == ReplayStep(other, config, i, choice, s)
  {
  }

  lemma ReplaysMatch(env: Env, other: Env, config: Configuration, oracle: Oracle, n: nat, s: RunnerState)
    requires SameButConfig(env, other) && n <= |env.steps|
    ensures Replay(ReplayersOf(env, config, oracle), n, s) == Replay(ReplayersOf(other, config, oracle), n, s)
  {
    var a, b := ReplayersOf(env, config, oracle), ReplayersOf(other, config, oracle);
    forall j: nat, t | j < |a| ensures a[j](t) == b[j](t) {
      ReplayersApply(env, config, oracle, j, t);
      ReplayersApply(other, config, oracle, j, t);
      ReplayStepsMatch(env, other, config, j, oracle(j, 0), t);
    }
    ReplayLoopsMatch(a, b, n, s);
  }

  /** A resume does not depend on the configuration its runner was built with, except that a dry
      runner makes it dry: any two runners that agree in that go on in the same way. */
  lemma AnyRunnerResumesAlike(env: Env, other: Env, freshService: bool, oracle: Oracle, s: RunnerState)
    requires SameButConfig(env, other) && env.job in s.checkpoints
    requires s.checkpoints[env.job].config.dryRun || (IsDryRunner(env) <==> IsDryRunner(other))
    ensures ResumeMigration(env, freshService, oracle, s) == ResumeMigration(other, freshService, oracle, s)
  {
    var ck := s.checkpoints[env.job];
    var start, config := ResumeIndex(env, ck), ResumeConfig(env, ck);
    assert config == ResumeConfig(other, ck) && start == ResumeIndex(other, ck);
    if ck.state.Known? && start.Some? {
      var restored := RestoredState(ck, freshService, s);
      ReplaysMatch(env, other, config, oracle, start.value, restored);
      RunsMatch(env, other, config, start.value, oracle,
                Replay(ReplayersOf(env, config, oracle), start.value, restored).0);
    }
  }
}
