/** What becomes of a job that failed: it can always be brought to its end, and the end
    is that of an uninterrupted run if and only if the target it started with is
    transparent. */
module Recovery {
  import opened Prelude
  import opened Records
  import opened StateMachine
  import opened StepRegistries
  import opened StepContexts
  import opened Rehydration
  import opened Targets
  import opened Uploads
  import opened StepBodies
  import opened Runner
  import opened RunnerProtocol
  import opened JobProtocol
  import opened Resumption
  import opened MigrationStages
  import opened MigrationJobs

  // ----- every job can be finished -----

  /** Neither a first attempt nor a replay raises. */
  ghost predicate Smooth(oracle: Oracle) {
    Clean(oracle) && CleanReplays(oracle)
  }

  /** Resumes a job that has a checkpoint to resume from, and starts any other one over. */
  function Restart(env: Env, s: RunnerState, freshService: bool, oracle: Oracle): Launch {
    Launch(env.job in s.checkpoints && s.checkpoints[env.job].state != Known(Completed), freshService, oracle)
  }

  lemma RestartFinishes(env: Env, stages: Stages, freshService: bool, oracle: Oracle, s: RunnerState)
    requires Resumable(env, stages) && BetweenRuns(env, stages, s) && Smooth(oracle)
    requires env.initialState.Some? ==> !Terminal(env.initialState.value)
    ensures RunLaunch(env, Restart(env, s, freshService, oracle), s).1.Finished?
  {
    if Restart(env, s, freshService, oracle).resume {
      CleanResumeFinishes(env, stages, freshService, oracle, s);
    } else {
      var from := if freshService then s.(world := s.world.(service := EMPTY_SERVICE)) else s;
      FitsStays(env, stages, s, from);
      CleanFreshRunFinishes(env, stages, oracle, from);
    }
  }

  lemma OneMoreLaunch(env: Env, launches: seq<Launch>, launch: Launch, s: RunnerState)
    requires launches != []
    ensures RunJob(env, launches + [launch], s) == RunLaunch(env, launch, RunJob(env, launches, s).0)
  {
    assert (launches + [launch])[..|launches|] == launches;
  }

  /** Recovery: whatever fresh runs and resumes a job has been through, failing anywhere,
      one restart in which nothing raises finishes it; from a transparent target with
      exactly the results of an uninterrupted run. */
  lemma EveryJobRecovers(plan: Plan, env: Env, e: Expected, launches: seq<Launch>, s: RunnerState,
                         freshService: bool, oracle: Oracle)
    requires MigrationJob(plan, env, e) && BeforeJob(env, e, s) && launches != [] && Smooth(oracle)
    ensures var all := launches + [Restart(env, RunJob(env, launches, s).0, freshService, oracle)];
            && RunJob(env, all, s).1.Finished?
            && FinishedAs(e, None, RunJob(env, all, s).0)
            && (Transparent(e) ==> FinishedAsExpected(e, RunJob(env, all, s).0))
  {
    var stages, now := StagesOf(plan, e, None), RunJob(env, launches, s).0;
    var restart := Restart(env, now, freshService, oracle);
    JobFinishesAs(plan, env, e, None, launches, s);
    JobIsRunnable(plan, env, e, None, 0);
    JobIsReplayable(plan, env, e, None);
    RestartFinishes(env, stages, freshService, oracle, now);
    OneMoreLaunch(env, launches, restart, s);
    JobFinishesAs(plan, env, e, None, launches + [restart], s);
    if Transparent(e) {
      ResumeEqualsUninterrupted(plan, env, e, launches + [restart], s);
    }
  }

  // ----- a run that fails at a chosen step -----

  const OUTAGE := Failure("The service is unavailable.", false, 0.0, None)

  /** Every attempt of step k raises before its body; nothing else does. */
  function FailingAt(k: nat): Oracle {
    (i: nat, n: nat) =>
      Choice(if i == k && n > 0 then Some(Fault(InPrepare, OUTAGE)) else None,
             StopPoint([], 0), None, RESTORED_REPORT, false)
  }

  /** Between attempts of a step that only raises before its body. */
  ghost predicate StillAtStep(env: Env, stages: Stages, i: nat, s: RunnerState, t: RunnerState) {
    AtStep(env, stages, i, t) && t.checkpoints == s.checkpoints
  }

  ghost function StillInv(env: Env, stages: Stages, i: nat, s: RunnerState): TurnInv {
    (n: nat, t: RunnerState) => StillAtStep(env, stages, i, s, t)
  }

  ghost function FailsPost(s: RunnerState): TurnPost {
    (after: RunnerState, end: StepEnd) => end.StepFailed? && after.checkpoints == s.checkpoints
  }

  lemma FaultyTurn(env: Env, stages: Stages, from: nat, i: nat, number: nat, choice: Choice, s: RunnerState,
                   t: RunnerState)
    requires from <= i < |env.steps| && i <= LAST_RESUMABLE && Runnable(env, stages, from)
    requires choice.fault.Some? && choice.fault.value.phase.InPrepare? && StillAtStep(env, stages, i, s, t)
    ensures var turn := TakeTurn(env, FreshConfig(env), i, number, choice, t);
            && turn.after.checkpoints == s.checkpoints
            && (if turn.Again? then AtStep(env, stages, i, turn.after) else turn.end.StepFailed?)
  {
    RetryKeepsOn(env, stages, from, i, number, choice, t);
  }

  lemma FaultyStepFails(env: Env, stages: Stages, from: nat, i: nat, s: RunnerState)
    requires from <= i < |env.steps| && i <= LAST_RESUMABLE && Runnable(env, stages, from) && AtStep(env, stages, i, s)
    ensures var (after, end) := RunStep(env, FreshConfig(env), i, FailingAt(i), s);
            end.StepFailed? && after.checkpoints == s.checkpoints
  {
    var config, oracle := FreshConfig(env), FailingAt(i);
    var inv, post, turns := StillInv(env, stages, i, s), FailsPost(s), TurnsOf(env, config, i, oracle);
    EnterKeepsStage(env, stages, i, s);
    EnterStepMoves(s, env.steps[i]);
    forall n: nat, t | inv(n, t) ensures CarriesTurn(turns(n, t), n, inv, post) {
      TurnsApply(env, config, i, oracle, n, t);
      FaultyTurn(env, stages, from, i, n + 1, oracle(i, n + 1), s, t);
    }
    RunStepRule(env, config, i, oracle, s, inv, post);
  }

  /** The checkpoint is the one saved after step i, by a run that was not over. */
  ghost predicate SavedAfter(env: Env, i: nat, t: RunnerState) {
    && i < |env.steps| && env.job in t.checkpoints
    && var ck := t.checkpoints[env.job];
       && ck.job == env.job && ck.version == 1 && ck.config == FreshConfig(env)
       && ck.lastStep == Some(ClassName(env.steps[i])) && ck.state.Known? && !Terminal(ck.state.state)
  }

  lemma CleanTurnSaves(env: Env, stages: Stages, i: nat, choice: Choice, s: RunnerState)
    requires i < |env.steps| && i < LAST_RESUMABLE && Runnable(env, stages, 0) && AtStep(env, stages, i, s)
    requires choice.fault.None?
    ensures SavedAfter(env, i, TakeTurn(env, FreshConfig(env), i, 1, choice, s).after)
  {
    CleanTurn(env, stages, 0, i, choice, s);
    RetryKeepsOn(env, stages, 0, i, 1, choice, s);
    var mid, saved, tail := TurnHasShape(env, FreshConfig(env), i, 1, choice, s);
  }

  lemma CleanStepSaves(env: Env, stages: Stages, i: nat, oracle: Oracle, s: RunnerState)
    requires i < |env.steps| && i < LAST_RESUMABLE && Runnable(env, stages, 0) && AtStep(env, stages, i, s)
    requires oracle(i, 1).fault.None?
    ensures SavedAfter(env, i, RunStep(env, FreshConfig(env), i, oracle, s).0)
  {
    var entered := EnterStep(s, env.steps[i]);
    EnterKeepsStage(env, stages, i, s);
    CleanTurn(env, stages, 0, i, oracle(i, 1), entered);
    CleanTurnSaves(env, stages, i, oracle(i, 1), entered);
    TurnsStop(env, FreshConfig(env), i, oracle);
    TurnsApply(env, FreshConfig(env), i, oracle, 0, entered);
  }

  ghost function UntilFailureInv(env: Env, stages: Stages, k: nat): StepInv {
    (j: nat, t: RunnerState) => j <= k && AtStep(env, stages, j, t) && (j > 0 ==> SavedAfter(env, j - 1, t))
  }

  /** The run has failed at step k, and step k - 1 was the last one saved. */
  ghost predicate FailedThere(env: Env, k: nat, after: RunnerState, end: RunEnd) {
    end.FailedAt? && end.at == k && (k > 0 ==> SavedAfter(env, k - 1, after))
  }

  ghost function FailedPost(env: Env, k: nat): RunPost {
    (after: RunnerState, end: RunEnd) => FailedThere(env, k, after, end)
  }

  lemma RollbackKeepsCheckpoint(env: Env, i: nat, s: RunnerState, start: nat, at: nat)
    requires SavedAfter(env, i, s)
    ensures SavedAfter(env, i, Rollback(s, start, at))
  {
    RollbackKeeps(SaveOf, s, start, at);
  }

  lemma StepUntilFailure(env: Env, stages: Stages, k: nat, j: nat, t: RunnerState)
    requires k < |env.steps| && k <= LAST_RESUMABLE && Runnable(env, stages, 0) && j < |env.steps|
    requires UntilFailureInv(env, stages, k)(j, t)
    ensures CarriesStep(RunStep(env, FreshConfig(env), j, FailingAt(k), t), 0, j,
                        UntilFailureInv(env, stages, k), FailedPost(env, k))
  {
    var oracle := FailingAt(k);
    if j < k {
      CleanStep(env, stages, 0, j, oracle, t);
      CleanStepSaves(env, stages, j, oracle, t);
      StepKeepsStages(env, stages, 0, j, oracle, t);
    } else {
      FaultyStepFails(env, stages, 0, k, t);
      if k > 0 {
        RollbackKeepsCheckpoint(env, k - 1, RunStep(env, FreshConfig(env), k, oracle, t).0, 0, k);
      }
    }
  }

  lemma RunFailsThere(env: Env, stages: Stages, k: nat, s: RunnerState)
    requires k < |env.steps| && k <= LAST_RESUMABLE && Runnable(env, stages, 0) && AtStep(env, stages, 0, s)
    ensures var (after, end) := RunSteps(env, FreshConfig(env), 0, FailingAt(k), s); FailedThere(env, k, after, end)
  {
    var config, oracle := FreshConfig(env), FailingAt(k);
    var inv, post := UntilFailureInv(env, stages, k), FailedPost(env, k);
    var runners := RunnersOf(env, config, oracle);
    forall j: nat, t | j < |runners| && inv(j, t) ensures CarriesStep(runners[j](t), 0, j, inv, post) {
      RunnersApply(env, config, oracle, j, t);
      StepUntilFailure(env, stages, k, j, t);
    }
    RunStepsRule(env, config, 0, oracle, s, inv, post);
  }

  lemma FreshRunFailsThere(env: Env, stages: Stages, k: nat, s: RunnerState)
    requires k < |env.steps| && k <= LAST_RESUMABLE && Runnable(env, stages, 0) && BetweenRuns(env, stages, s)
    requires env.initialState.Some? ==> !Terminal(env.initialState.value)
    ensures var (after, end) := RunFresh(env, FailingAt(k), s);
            FailedThere(env, k, after, end) && BetweenRuns(env, stages, after)
  {
    var start := FreshStart(env, s);
    assert start.world == World(NO_DATA, s.world.target, s.world.service);
    FitsStays(env, stages, s, start);
    RunFailsThere(env, stages, k, start);
    FreshKeepsStages(env, stages, FailingAt(k), s);
  }

  // ----- a resume from any other target -----

  /** What holds between runs does not depend on the batch that is allowed. */
  lemma BetweenRunsForAny(plan: Plan, env: Env, e: Expected, allowed: Allowed, other: Allowed, s: RunnerState)
    requires BetweenRuns(env, StagesOf(plan, e, allowed), s)
    ensures BetweenRuns(env, StagesOf(plan, e, other), s)
  {
    if env.job in s.checkpoints && s.checkpoints[env.job].state != Known(Completed) {
      var ck := s.checkpoints[env.job];
      assert CheckpointFits(env, StagesOf(plan, e, allowed), ck, s.world.target);
      var j: nat :| j <= LAST_RESUMABLE && j < |env.steps| && ck.lastStep == Some(ClassName(env.steps[j]))
                    && StagesOf(plan, e, allowed).safe(j, s.world.target);
      assert StagesOf(plan, e, other).safe(j, s.world.target);
    }
  }

  /** After a checkpoint of the upload the target holds everything the upload writes. */
  lemma SavedUploadIsSafe(plan: Plan, env: Env, e: Expected, allowed: Allowed, s: RunnerState)
    requires MigrationPipeline(env.steps) && BetweenRuns(env, StagesOf(plan, e, allowed), s) && SavedAfter(env, 3, s)
    ensures StagesOf(plan, e, allowed).safe(3, s.world.target)
  {
    var ck := s.checkpoints[env.job];
    assert CheckpointFits(env, StagesOf(plan, e, allowed), ck, s.world.target);
    var j: nat :| j <= LAST_RESUMABLE && j < |env.steps| && ck.lastStep == Some(ClassName(env.steps[j]))
                  && StagesOf(plan, e, allowed).safe(j, s.world.target);
  }

  /** A resume from there, when only the steps after the upload are known to keep their stages. */
  lemma ResumedFromUpload(env: Env, stages: Stages, oracle: Oracle, s: RunnerState)
    requires Runnable(env, stages, 4) && Replayable(env, stages) && Smooth(oracle)
    requires BetweenRuns(env, stages, s) && SavedAfter(env, 3, s) && stages.safe(3, s.world.target)
    ensures var (after, end) := ResumeMigration(env, false, oracle, s);
            end.Finished? && stages.at(|env.steps|, after.world)
  {
    CleanResumedFinishes(env, stages, 4, false, oracle, s, 3);
    ResumedKeepsStages(env, stages, 4, false, oracle, s, 3);
  }

  lemma RebuildingJob(plan: Plan, env: Env, e: Expected)
    requires MigrationJob(plan, env, e)
    ensures Runnable(env, StagesOf(plan, e, RebuiltBatch(e)), 4)
    ensures Replayable(env, StagesOf(plan, e, RebuiltBatch(e)))
  {
    JobIsRunnable(plan, env, e, RebuiltBatch(e), 4);
    JobIsReplayable(plan, env, e, RebuiltBatch(e));
  }

  /** It finishes with the rebuilt upload. */
  lemma ResumedWithRebuiltUpload(plan: Plan, env: Env, e: Expected, oracle: Oracle, s: RunnerState)
    requires MigrationJob(plan, env, e) && Smooth(oracle)
    requires BetweenRuns(env, StagesOf(plan, e, RebuiltBatch(e)), s) && SavedAfter(env, 3, s)
    ensures ResumeMigration(env, false, oracle, s).1.Finished?
    ensures FinishedAs(e, RebuiltBatch(e), ResumeMigration(env, false, oracle, s).0)
  {
    RebuildingJob(plan, env, e);
    SavedUploadIsSafe(plan, env, e, RebuiltBatch(e), s);
    ResumedFromUpload(env, StagesOf(plan, e, RebuiltBatch(e)), oracle, s);
    FinishedStage(plan, e, RebuiltBatch(e), |env.steps|, ResumeMigration(env, false, oracle, s).0);
  }

  const SMOOTH: Oracle := (i, n) => Choice(None, StopPoint([], 0), None, RESTORED_REPORT, false)

  /** A fresh run that fails at verification, and a resume in which nothing raises. */
  const INTERRUPTED_BEFORE_VERIFICATION := [Launch(false, false, FailingAt(4)), Launch(true, false, SMOOTH)]

  lemma TwoLaunches(env: Env, first: Launch, second: Launch, s: RunnerState)
    ensures RunJob(env, [first, second], s) == RunLaunch(env, second, RunLaunch(env, first, s).0)
  {
    assert [first, second] == [first] + [second];
    OneMoreLaunch(env, [first], second, s);
  }

  lemma FailsBeforeVerification(plan: Plan, env: Env, e: Expected, s: RunnerState)
    requires MigrationJob(plan, env, e) && BeforeJob(env, e, s)
    ensures var failed := RunFresh(env, FailingAt(4), s).0;
            BetweenRuns(env, StagesOf(plan, e, RebuiltBatch(e)), failed) && SavedAfter(env, 3, failed)
  {
    var exact := ExactBatch(e);
    JobIsRunnable(plan, env, e, exact, 0);
    JobStartsBetweenRuns(plan, env, e, exact, s);
    FreshRunFailsThere(env, StagesOf(plan, e, exact), 4, s);
    BetweenRunsForAny(plan, env, e, exact, RebuiltBatch(e), RunFresh(env, FailingAt(4), s).0);
  }

  /** From any target this chain finishes with the rebuilt upload. */
  lemma InterruptedChainRebuilds(plan: Plan, env: Env, e: Expected, s: RunnerState)
    requires MigrationJob(plan, env, e) && BeforeJob(env, e, s)
    ensures RunJob(env, INTERRUPTED_BEFORE_VERIFICATION, s).1.Finished?
    ensures FinishedAs(e, RebuiltBatch(e), RunJob(env, INTERRUPTED_BEFORE_VERIFICATION, s).0)
  {
    FailsBeforeVerification(plan, env, e, s);
    ResumedWithRebuiltUpload(plan, env, e, SMOOTH, RunFresh(env, FailingAt(4), s).0);
    TwoLaunches(env, INTERRUPTED_BEFORE_VERIFICATION[0], INTERRUPTED_BEFORE_VERIFICATION[1], s);
  }

  lemma AnotherBatchIsNotExpected(e: Expected, s: RunnerState)
    requires FinishedAs(e, RebuiltBatch(e), s) && RebuiltBatch(e) != ExactBatch(e)
    ensures !FinishedAsExpected(e, s)
  {
  }

  /** If it is not transparent, that is another batch than the one a run in which nothing
      raises reports. */
  lemma OpaqueTargetMakesResumesDiffer(plan: Plan, env: Env, e: Expected, s: RunnerState)
    requires MigrationJob(plan, env, e) && BeforeJob(env, e, s) && !Transparent(e)
    ensures RunJob(env, INTERRUPTED_BEFORE_VERIFICATION, s).1.Finished?
    ensures !FinishedAsExpected(e, RunJob(env, INTERRUPTED_BEFORE_VERIFICATION, s).0)
  {
    InterruptedChainRebuilds(plan, env, e, s);
    OpaqueStartRebuildsOtherwise(plan, e);
    AnotherBatchIsNotExpected(e, RunJob(env, INTERRUPTED_BEFORE_VERIFICATION, s).0);
  }

  lemma UniqueIsNotEmpty(docs: seq<TransformedDocument>)
    requires docs != []
    ensures Unique(docs) != []
  {
    UniqueHasDistinctKeys(docs);
    assert docs[0].sourceIdentifier in Keys(docs);
  }

  /** Such targets exist for every source with a document to write: one that holds another
      document under its identifier. */
  lemma OpaqueTargetExists(plan: Plan, e: Expected) returns (other: Expected)
    requires Expects(plan, e) && !e.config.dryRun && e.transformation.documents != []
    ensures Expects(plan, other) && other.config == e.config && !Transparent(other)
  {
    var docs := Unique(e.transformation.documents);
    UniqueIsNotEmpty(e.transformation.documents);
    var d := docs[0];
    var held := d.(checksum := d.checksum + ['x']);
    var start := Upload(Target(map[], map[], map[]), held);
    other := ExpectedResults(plan, e.config, start);
    assert other.transformation == e.transformation;
    assert MapDocument(held).checksum != MapDocument(d).checksum;
    assert d in docs && !Accepts(start, d) && Retrieve(start, d.sourceIdentifier).Some?;
  }

  /** Resume equals uninterrupted, for every chain that finishes, if and only if the
      target the job starts with is transparent. */
  lemma ResumeEqualsUninterruptedExactlyWhen(plan: Plan, env: Env, e: Expected, s: RunnerState)
    requires MigrationJob(plan, env, e) && BeforeJob(env, e, s)
    ensures (forall launches :: launches != [] && RunJob(env, launches, s).1.Finished? ==>
               FinishedAsExpected(e, RunJob(env, launches, s).0))
       <==> Transparent(e)
  {
    if Transparent(e) {
      forall launches | launches != [] && RunJob(env, launches, s).1.Finished?
        ensures FinishedAsExpected(e, RunJob(env, launches, s).0)
      {
        ResumeEqualsUninterrupted(plan, env, e, launches, s);
      }
    } else {
      OpaqueTargetMakesResumesDiffer(plan, env, e, s);
    }
  }
}
