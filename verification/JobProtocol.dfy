/** Chains of runs: failing, resuming and failing again keeps the checkpoint at the
    last saved step, and every resume continues right after it. */
module JobProtocol {
  import opened Prelude
  import opened StateMachine
  import opened StepRegistries
  import opened Records
  import opened StepContexts
  import opened Rehydration
  import opened StepBodies
  import opened Runner
  import opened RunnerProtocol
  import opened RunHistory

  // ----- where a resume continues -----

  /** No two steps of the pipeline share a class name. */
  ghost predicate DistinctNames(steps: seq<Step>) {
    forall i, j :: 0 <= i < j < |steps| ==> ClassName(steps[i]) != ClassName(steps[j])
  }

  lemma ResumeContinuesAfter(env: Env, config: Configuration, s: RunnerState, i: nat)
    requires DistinctNames(env.steps) && CheckpointNames(env, config, s, i)
    ensures ResumeIndex(env, s.checkpoints[env.job]) == Some(i + 1)
  {
    IndexOfFindsOwnPosition(env.steps, i);
  }

  lemma ResumeKeepsConfig(env: Env, s: RunnerState, i: nat)
    requires CheckpointNames(env, FreshConfig(env), s, i)
    ensures ResumeConfig(env, s.checkpoints[env.job]) == FreshConfig(env)
  {
  }

  // ----- replaying keeps the trail -----

  /** A replayed step writes no checkpoint and completes nothing. */
  ghost predicate Untouched(s: RunnerState, t: RunnerState) {
    && SavesIn(t) == SavesIn(s) && SuccessesIn(t) == SuccessesIn(s)
    && t.checkpoints == s.checkpoints
    && (Healthy(s.machine) ==> Healthy(t.machine))
  }

  lemma AfterBodyLeaves(s: RunnerState, b: BodyEnd)
    requires Healthy(s.machine) ==> Healthy(b.machine)
    ensures Untouched(s, AfterBody(s, b))
  {
    AfterBodyCollects(SaveOf, s, b);
    AfterBodyCollects(SuccessOf, s, b);
  }

  /** A body's movement is neither a save nor a success. */
  lemma AfterBodyCollects<T>(f: Event -> Option<T>, s: RunnerState, b: BodyEnd)
    requires f(Entered(b.machine)).None?
    ensures Collect(f, AfterBody(s, b).log) == Collect(f, s.log)
    ensures AfterBody(s, b).checkpoints == s.checkpoints && AfterBody(s, b).machine == b.machine
  {
    if b.machine != s.machine {
      var moved := s.(world := b.world, machine := b.machine);
      CollectLogged(f, moved, Entered(b.machine));
      assert Collect(f, s.log) + [] == Collect(f, s.log);
    }
  }

  lemma EnterStepLeaves(s: RunnerState, step: Step)
    ensures Untouched(s, EnterStep(s, step))
  {
    EnterStepCollects(SaveOf, s, step);
    EnterStepCollects(SuccessOf, s, step);
    EnterStepMoves(s, step);
  }

  /** A body that a replay runs, completely or not. */
  lemma ReplayedBodyLeaves(step: Step, s: RunnerState, entered: RunnerState, b: BodyEnd)
    requires Untouched(s, entered) && MovesAsExpected(step, entered.machine, b.machine)
    ensures Untouched(s, AfterBody(entered, b))
  {
    AfterBodyLeaves(entered, b);
    UntouchedThrough(s, entered, AfterBody(entered, b));
  }

  lemma SameButCounters(s: RunnerState, t: RunnerState, counters: Option<Counters>)
    requires Untouched(s, t)
    ensures Untouched(s, t.(counters := counters))
  {
  }

  lemma ReplayStepLeaves(env: Env, config: Configuration, i: nat, choice: Choice, s: RunnerState)
    requires i < |env.steps| && MovesOnlyAtTheEnd(env.bodies)
    ensures Untouched(s, ReplayStep(env, config, i, choice, s).0)
  {
    var step, entered := env.steps[i], EnterStep(s, env.steps[i]);
    EnterStepLeaves(s, step);
    var done := env.bodies.complete(config, step, choice, false, entered.machine, entered.world);
    var stopped := env.bodies.stopped(config, step, choice, false, entered.machine, entered.world);
    ReplayedBodyLeaves(step, s, entered, done);
    ReplayedBodyLeaves(step, s, entered, stopped);
    var ended := AfterBody(entered, done);
    SameButCounters(s, ended, MergeCounters(Reported(step, choice, done.keepsRetried, ended.counters), ended.counters));
  }

  lemma UntouchedThrough(s: RunnerState, t: RunnerState, u: RunnerState)
    requires Untouched(s, t) && Untouched(t, u)
    ensures Untouched(s, u)
  {
  }

  type ReplayInv = (nat, RunnerState) -> bool

  ghost predicate CarriesReplay(result: (RunnerState, bool), j: nat, inv: ReplayInv, post: StateInv) {
    if result.1 then inv(j + 1, result.0) else post(result.0)
  }

  /** A property of the replay loop holds when every replayed step carries it on. */
  lemma {:induction false} ReplayRule(replayers: seq<Replayer>, n: nat, s: RunnerState, inv: ReplayInv, post: StateInv)
    requires n <= |replayers| && inv(0, s)
    requires forall j: nat, t :: j < n && inv(j, t) ==> CarriesReplay(replayers[j](t), j, inv, post)
    ensures var (after, ok) := Replay(replayers, n, s); if ok then inv(n, after) else post(after)
  {
    if n > 0 {
      ReplayRule(replayers, n - 1, s, inv, post);
      var (before, ok) := Replay(replayers, n - 1, s);
      if ok {
        assert CarriesReplay(replayers[n - 1](before), n - 1, inv, post);
      }
    }
  }

  lemma ReplayersApply(env: Env, config: Configuration, oracle: Oracle, j: nat, t: RunnerState)
    requires j < |env.steps|
    ensures ReplayersOf(env, config, oracle)[j](t) == ReplayStep(env, config, j, oracle(j, 0), t)
  {
  }

  /** The same for the replay of a resume. */
  lemma ReplayStepsRule(env: Env, config: Configuration, oracle: Oracle, n: nat, s: RunnerState, inv: ReplayInv,
                        post: StateInv)
    requires n <= |env.steps| && inv(0, s)
    requires forall j: nat, t :: j < n && inv(j, t) ==>
      CarriesReplay(ReplayStep(env, config, j, oracle(j, 0), t), j, inv, post)
    ensures var (after, ok) := Replay(ReplayersOf(env, config, oracle), n, s); if ok then inv(n, after) else post(after)
  {
    var replayers := ReplayersOf(env, config, oracle);
    forall j: nat, t | j < n && inv(j, t) ensures CarriesReplay(replayers[j](t), j, inv, post) {
      ReplayersApply(env, config, oracle, j, t);
    }
    ReplayRule(replayers, n, s, inv, post);
  }

  ghost function UntouchedInv(s: RunnerState): ReplayInv {
    (n: nat, t: RunnerState) => Untouched(s, t)
  }

  ghost function UntouchedPost(s: RunnerState): StateInv {
    (t: RunnerState) => Untouched(s, t)
  }

  lemma ReplayerLeaves(env: Env, config: Configuration, oracle: Oracle, s: RunnerState, j: nat, t: RunnerState)
    requires j < |env.steps| && MovesOnlyAtTheEnd(env.bodies) && Untouched(s, t)
    ensures CarriesReplay(ReplayStep(env, config, j, oracle(j, 0), t), j, UntouchedInv(s), UntouchedPost(s))
  {
    ReplayStepLeaves(env, config, j, oracle(j, 0), t);
  }

  lemma ReplayLeaves(env: Env, config: Configuration, oracle: Oracle, n: nat, s: RunnerState)
    requires n <= |env.steps| && MovesOnlyAtTheEnd(env.bodies)
    ensures Untouched(s, Replay(ReplayersOf(env, config, oracle), n, s).0)
  {
    var inv, post := UntouchedInv(s), UntouchedPost(s);
    forall j: nat, t | j < n && inv(j, t)
      ensures CarriesReplay(ReplayStep(env, config, j, oracle(j, 0), t), j, inv, post)
    {
      ReplayerLeaves(env, config, oracle, s, j, t);
    }
    ReplayStepsRule(env, config, oracle, n, s, inv, post);
  }

  // ----- one launch -----

  /** What holds of a job between launches. */
  ghost predicate JobTrail(env: Env, lossless: bool, s: RunnerState) {
    Trail(env, FreshConfig(env), lossless, s)
  }

  lemma FreshStartLeaves(env: Env, s: RunnerState)
    requires env.initialState.Some? ==> Healthy(env.initialState.value)
    ensures var t := FreshStart(env, s);
            SavesIn(t) == SavesIn(s) && SuccessesIn(t) == SuccessesIn(s)
            && t.checkpoints == s.checkpoints && Healthy(t.machine)
  {
    var initial := if env.initialState.Some? then env.initialState.value else MigrationState.Created;
    var before := s.(machine := initial, counters := None, world := s.world.(ctx := NO_DATA));
    EnterCollects(SaveOf, before, Initializing);
    EnterCollects(SuccessOf, before, Initializing);
  }

  lemma FreshStaysOnTrail(env: Env, lossless: bool, oracle: Oracle, s: RunnerState)
    requires MovesOnlyAtTheEnd(env.bodies) && (lossless ==> Lossless(oracle))
    requires env.initialState.Some? ==> Healthy(env.initialState.value)
    requires JobTrail(env, lossless, s) && SavesIn(s) == []
    ensures RunTrail(env, FreshConfig(env), lossless, RunFresh(env, oracle, s).0, RunFresh(env, oracle, s).1)
  {
    FreshStartLeaves(env, s);
    SameViewSameTrail(env, FreshConfig(env), lossless, s, FreshStart(env, s));
    RunStaysOnTrail(env, FreshConfig(env), lossless, 0, oracle, FreshStart(env, s));
  }

  /** How a resume of a job on the trail ends: it is refused, or the replay raises,
      or it runs on and stays on the trail. */
  ghost predicate ResumeTrail(env: Env, lossless: bool, s: RunnerState, after: RunnerState, end: RunEnd) {
    && JobTrail(env, lossless, after)
    && match end
       case Rejected(reason) =>
         && after == s
         && (reason == NoCheckpoint <==> SavesIn(s) == [])
         && (reason == NoCheckpoint || reason == NotResumable)
       case Finished => after.machine == Completed && MaySave(SavesIn(after), |env.steps|)
       case FailedAt(at, _, _) => at < |env.steps| && after.machine == Failed
       case EscapedAt(_) => true
  }

  lemma ReplayedRunsOn(env: Env, lossless: bool, oracle: Oracle, s: RunnerState, last: nat, replayed: RunnerState)
    requires MovesOnlyAtTheEnd(env.bodies) && (lossless ==> Lossless(oracle))
    requires JobTrail(env, lossless, s) && SavesIn(s) != [] && last == SavesIn(s)[|SavesIn(s)| - 1]
    requires SavesIn(replayed) == SavesIn(s) && SuccessesIn(replayed) == SuccessesIn(s)
    requires replayed.checkpoints == s.checkpoints && Healthy(replayed.machine)
    ensures last < |env.steps|
    ensures var (after, end) := RunSteps(env, FreshConfig(env), last + 1, oracle, replayed);
            RunTrail(env, FreshConfig(env), lossless, after, end)
  {
    SameViewSameTrail(env, FreshConfig(env), lossless, s, replayed);
    RunStaysOnTrail(env, FreshConfig(env), lossless, last + 1, oracle, replayed);
  }

  lemma RestoredLeaves(ck: Checkpoint, freshService: bool, s: RunnerState)
    requires ck.state.Known? && Healthy(ck.state.state)
    ensures var t := RestoredState(ck, freshService, s);
            SavesIn(t) == SavesIn(s) && SuccessesIn(t) == SuccessesIn(s)
            && t.checkpoints == s.checkpoints && Healthy(t.machine)
  {
  }

  lemma ResumedStaysOnTrail(env: Env, lossless: bool, freshService: bool, oracle: Oracle, s: RunnerState, last: nat)
    requires DistinctNames(env.steps) && MovesOnlyAtTheEnd(env.bodies) && (lossless ==> Lossless(oracle))
    requires JobTrail(env, lossless, s) && SavesIn(s) != [] && last == SavesIn(s)[|SavesIn(s)| - 1]
    ensures CheckpointNames(env, FreshConfig(env), s, last)
    ensures var (after, end) := RunResumed(env, s.checkpoints[env.job], freshService, oracle, s);
            JobTrail(env, lossless, after) && (end.EscapedAt? || RunTrail(env, FreshConfig(env), lossless, after, end))
  {
    var ck, config := s.checkpoints[env.job], FreshConfig(env);
    ResumeContinuesAfter(env, config, s, last);
    ResumeKeepsConfig(env, s, last);
    var restored := RestoredState(ck, freshService, s);
    RestoredLeaves(ck, freshService, s);
    ReplayLeaves(env, config, oracle, last + 1, restored);
    var (replayed, ok) := Replay(ReplayersOf(env, config, oracle), last + 1, restored);
    if ok {
      ReplayedRunsOn(env, lossless, oracle, s, last, replayed);
    } else {
      SameViewSameTrail(env, config, lossless, s, replayed);
    }
  }

  /** The last step a job on the trail has saved. */
  function LastSave(s: RunnerState): nat
    requires SavesIn(s) != []
  {
    SavesIn(s)[|SavesIn(s)| - 1]
  }

  /** A resume that completes steps completes those right after the last save, in order. */
  ghost predicate ContinuesAfter(last: nat, n: nat, s: RunnerState, after: RunnerState) {
    var count := |SuccessesIn(after)| - |SuccessesIn(s)|;
    && 0 <= count && last + 1 + count <= n
    && SuccessesIn(after) == SuccessesIn(s) + Range(last + 1, last + 1 + count)
  }

  lemma RangeContinues(last: nat, k: nat, n: nat, s: RunnerState, after: RunnerState)
    requires last + 1 <= k <= n && SuccessesIn(after) == SuccessesIn(s) + Range(last + 1, k)
    ensures ContinuesAfter(last, n, s, after)
  {
  }

  lemma SuffixContinues(last: nat, n: nat, s: RunnerState, replayed: RunnerState, after: RunnerState, end: RunEnd)
    requires last < n && SuccessesIn(replayed) == SuccessesIn(s)
    requires ExecutedSuffix(replayed, last + 1, n, after, end)
    ensures ContinuesAfter(last, n, s, after)
  {
    match end
    case Finished => RangeContinues(last, n, n, s, after);
    case FailedAt(at, _, _) => RangeContinues(last, at, n, s, after);
    case EscapedAt(at) => RangeContinues(last, at, n, s, after);
  }

  lemma NothingReplayedContinues(last: nat, n: nat, s: RunnerState, replayed: RunnerState)
    requires last < n && SuccessesIn(replayed) == SuccessesIn(s)
    ensures ContinuesAfter(last, n, s, replayed)
  {
    assert SuccessesIn(s) + Range(last + 1, last + 1) == SuccessesIn(s);
  }

  lemma ReplayedContinues(env: Env, oracle: Oracle, last: nat, s: RunnerState, replayed: RunnerState)
    requires last < |env.steps| && SuccessesIn(replayed) == SuccessesIn(s)
    ensures ContinuesAfter(last, |env.steps|, s, RunSteps(env, FreshConfig(env), last + 1, oracle, replayed).0)
  {
    RunExecutesItsSuffix(env, FreshConfig(env), last + 1, oracle, replayed);
    var (after, end) := RunSteps(env, FreshConfig(env), last + 1, oracle, replayed);
    SuffixContinues(last, |env.steps|, s, replayed, after, end);
  }

  lemma ResumedContinues(env: Env, freshService: bool, oracle: Oracle, s: RunnerState, last: nat)
    requires DistinctNames(env.steps) && MovesOnlyAtTheEnd(env.bodies)
    requires CheckpointNames(env, FreshConfig(env), s, last)
    ensures ContinuesAfter(last, |env.steps|, s, RunResumed(env, s.checkpoints[env.job], freshService, oracle, s).0)
  {
    var ck, config := s.checkpoints[env.job], FreshConfig(env);
    ResumeContinuesAfter(env, config, s, last);
    ResumeKeepsConfig(env, s, last);
    var restored := RestoredState(ck, freshService, s);
    RestoredLeaves(ck, freshService, s);
    ReplayLeaves(env, config, oracle, last + 1, restored);
    var (replayed, ok) := Replay(ReplayersOf(env, config, oracle), last + 1, restored);
    if ok {
      ReplayedContinues(env, oracle, last, s, replayed);
    } else {
      NothingReplayedContinues(last, |env.steps|, s, replayed);
    }
  }

  lemma ResumeKeepsTrail(env: Env, lossless: bool, freshService: bool, oracle: Oracle, s: RunnerState)
    requires DistinctNames(env.steps) && MovesOnlyAtTheEnd(env.bodies) && (lossless ==> Lossless(oracle))
    requires JobTrail(env, lossless, s)
    ensures ResumeTrail(env, lossless, s, ResumeMigration(env, freshService, oracle, s).0,
                        ResumeMigration(env, freshService, oracle, s).1)
  {
    if SavesIn(s) != [] && ValidateCheckpoint(env.job, Lookup(s.checkpoints, env.job)).None? {
      ResumedStaysOnTrail(env, lossless, freshService, oracle, s, LastSave(s));
    }
  }

  /** The job's last save was made by a run that had completed the migration. */
  predicate SavedCompleted(env: Env, s: RunnerState) {
    env.job in s.checkpoints && s.checkpoints[env.job].state == Known(Completed)
  }

  lemma AcceptedExactlyWhen(env: Env, lossless: bool, freshService: bool, oracle: Oracle, s: RunnerState)
    requires DistinctNames(env.steps) && MovesOnlyAtTheEnd(env.bodies) && (lossless ==> Lossless(oracle))
    requires JobTrail(env, lossless, s)
    ensures ResumeMigration(env, freshService, oracle, s).1.Rejected? <==> SavesIn(s) == [] || SavedCompleted(env, s)
  {
    if SavesIn(s) != [] && !SavedCompleted(env, s) {
      ResumedStaysOnTrail(env, lossless, freshService, oracle, s, LastSave(s));
    }
  }

  /** An accepted resume starts at the step after the last save and completes steps from there. */
  ghost predicate StartsAfterLastSave(env: Env, s: RunnerState, after: RunnerState) {
    && SavesIn(s) != [] && env.job in s.checkpoints
    && ResumeIndex(env, s.checkpoints[env.job]) == Some(LastSave(s) + 1)
    && ContinuesAfter(LastSave(s), |env.steps|, s, after)
  }

  lemma AcceptedStartsAfterLastSave(env: Env, lossless: bool, freshService: bool, oracle: Oracle, s: RunnerState)
    requires DistinctNames(env.steps) && MovesOnlyAtTheEnd(env.bodies)
    requires JobTrail(env, lossless, s) && SavesIn(s) != [] && !SavedCompleted(env, s)
    ensures StartsAfterLastSave(env, s, ResumeMigration(env, freshService, oracle, s).0)
  {
    assert CheckpointNames(env, FreshConfig(env), s, LastSave(s));
    ResumeContinuesAfter(env, FreshConfig(env), s, LastSave(s));
    ResumedContinues(env, freshService, oracle, s, LastSave(s));
  }

  /** A resume of a job on the trail is refused if and only if nothing was saved or the
      job had completed. Otherwise it starts at the step after the last save, completes
      steps from there in order, and stays on the trail. */
  lemma ResumeStaysOnTrail(env: Env, lossless: bool, freshService: bool, oracle: Oracle, s: RunnerState)
    requires DistinctNames(env.steps) && MovesOnlyAtTheEnd(env.bodies) && (lossless ==> Lossless(oracle))
    requires JobTrail(env, lossless, s)
    ensures var (after, end) := ResumeMigration(env, freshService, oracle, s);
            && ResumeTrail(env, lossless, s, after, end)
            && (end.Rejected? <==> SavesIn(s) == [] || SavedCompleted(env, s))
            && (!end.Rejected? ==> StartsAfterLastSave(env, s, after))
  {
    ResumeKeepsTrail(env, lossless, freshService, oracle, s);
    AcceptedExactlyWhen(env, lossless, freshService, oracle, s);
    if SavesIn(s) != [] && !SavedCompleted(env, s) {
      AcceptedStartsAfterLastSave(env, lossless, freshService, oracle, s);
    }
  }

  // ----- which resumes are refused -----

  /** The reason a resume gives for its refusal holds of the stored checkpoint. */
  ghost predicate Explains(env: Env, s: RunnerState, reason: Rejection) {
    if env.job !in s.checkpoints then reason == NoCheckpoint
    else
      var ck := s.checkpoints[env.job];
      match reason
      case NoCheckpoint => false
      case WrongJob => ck.job != env.job
      case UnsupportedVersion => ck.version != 1
      case UnsupportedState => ck.state.Unrecognised?
      case NotResumable => ck.state == Known(Completed) || ck.state == Known(Cancelled)
      case UnknownStep => ck.lastStep.Some? && forall step :: step in env.steps ==> ClassName(step) != ck.lastStep.value
  }

  /** A checkpoint of this job, of the known version, in a state a migration may be in before its
      end, after a step the pipeline has. */
  ghost predicate CanBeResumed(env: Env, s: RunnerState) {
    env.job in s.checkpoints &&
    var ck := s.checkpoints[env.job];
    && ck.job == env.job && ck.version == 1
    && ck.state.Known? && ck.state.state != Completed && ck.state.state != Cancelled
    && (ck.lastStep.Some? ==> exists step :: step in env.steps && ClassName(step) == ck.lastStep.value)
  }

  lemma KnownStepExactlyWhen(env: Env, ck: Checkpoint)
    ensures ResumeIndex(env, ck).Some?
       <==> ck.lastStep.None? || exists step :: step in env.steps && ClassName(step) == ck.lastStep.value
  {
    if ck.lastStep.Some? {
      if step :| step in env.steps && ClassName(step) == ck.lastStep.value {
        var i :| 0 <= i < |env.steps| && env.steps[i] == step;
        assert IndexOf(env.steps, ck.lastStep.value).Some?;
      }
    }
  }

  lemma RunIsNeverRejected(env: Env, config: Configuration, start: nat, oracle: Oracle, s: RunnerState)
    requires start <= |env.steps|
    ensures !RunSteps(env, config, start, oracle, s).1.Rejected?
  {
    RunExecutesItsSuffix(env, config, start, oracle, s);
  }

  /** Whatever the repository holds, a resume is refused if and only if its checkpoint cannot be
      resumed; then it says why, and changes nothing. */
  lemma RefusedExactlyWhen(env: Env, freshService: bool, oracle: Oracle, s: RunnerState)
    ensures var (after, end) := ResumeMigration(env, freshService, oracle, s);
            && (end.Rejected? <==> !CanBeResumed(env, s))
            && (end.Rejected? ==> after == s && Explains(env, s, end.reason))
  {
    if env.job in s.checkpoints {
      var ck := s.checkpoints[env.job];
      KnownStepExactlyWhen(env, ck);
      var start := ResumeIndex(env, ck);
      if ValidateCheckpoint(env.job, Some(ck)).None? && start.Some? {
        var config, restored := ResumeConfig(env, ck), RestoredState(ck, freshService, s);
        var replayed := Replay(ReplayersOf(env, config, oracle), start.value, restored).0;
        RunIsNeverRejected(env, config, start.value, oracle, replayed);
      }
    }
  }

  // ----- chains of launches -----

  /** A job: the first launch is a fresh run, the others resume it. */
  ghost predicate IsChain(launches: seq<Launch>, lossless: bool) {
    && launches != [] && !launches[0].resume
    && (forall k :: 0 < k < |launches| ==> launches[k].resume)
    && (lossless ==> forall k :: 0 <= k < |launches| ==> Lossless(launches[k].oracle))
  }

  /** A job that has not been started yet. */
  ghost predicate NotStarted(env: Env, s: RunnerState) {
    s.log == [] && env.job !in s.checkpoints
  }

  lemma ChainPrefix(launches: seq<Launch>, lossless: bool)
    requires IsChain(launches, lossless) && |launches| > 1
    ensures IsChain(launches[..|launches| - 1], lossless)
  {
  }

  /** Over any chain of failing and resuming runs the saves climb without leaving
      a step out, the stored checkpoint is the last save and never FAILED, and,
      when no acknowledgement of a save is lost, the steps that completed are
      exactly 0, 1, 2, ...: each one once, and in order. */
  lemma {:induction false} JobStaysOnTrail(env: Env, lossless: bool, launches: seq<Launch>, s: RunnerState)
    requires DistinctNames(env.steps) && MovesOnlyAtTheEnd(env.bodies)
    requires env.initialState.Some? ==> Healthy(env.initialState.value)
    requires IsChain(launches, lossless) && NotStarted(env, s)
    ensures JobTrail(env, lossless, RunJob(env, launches, s).0)
    ensures RunJob(env, launches, s).1.Finished? ==> MaySave(SavesIn(RunJob(env, launches, s).0), |env.steps|)
  {
    var n := |launches| - 1;
    var launch := launches[n];
    if n == 0 {
      var from := if launch.freshService then s.(world := s.world.(service := EMPTY_SERVICE)) else s;
      FreshStaysOnTrail(env, lossless, launch.oracle, from);
    } else {
      ChainPrefix(launches, lossless);
      JobStaysOnTrail(env, lossless, launches[..n], s);
      ResumeStaysOnTrail(env, lossless, launch.freshService, launch.oracle, RunJob(env, launches[..n], s).0);
    }
  }

  lemma AllStepsSaved(env: Env, t: RunnerState)
    requires JobTrail(env, true, t) && MaySave(SavesIn(t), |env.steps|)
    ensures SuccessesIn(t) == Range(0, |env.steps|)
  {
    var saves := SavesIn(t);
    if saves != [] {
      assert saves[|saves| - 1] == |saves| - 1;
    }
  }

  /** When such a job finishes, every step was completed exactly once, in order. */
  lemma FinishedJobCompletedEveryStepOnce(env: Env, launches: seq<Launch>, s: RunnerState)
    requires DistinctNames(env.steps) && MovesOnlyAtTheEnd(env.bodies)
    requires env.initialState.Some? ==> Healthy(env.initialState.value)
    requires IsChain(launches, true) && NotStarted(env, s)
    requires RunJob(env, launches, s).1.Finished?
    ensures SuccessesIn(RunJob(env, launches, s).0) == Range(0, |env.steps|)
  {
    JobStaysOnTrail(env, true, launches, s);
    AllStepsSaved(env, RunJob(env, launches, s).0);
  }

  /** Lost acknowledgements or not, every step up to the last save was saved ... */
  lemma {:induction false} ClimbReaches(saves: seq<nat>, k: nat)
    requires Climbs(saves) && saves != [] && k <= saves[|saves| - 1]
    ensures exists j :: 0 <= j < |saves| && saves[j] == k
  {
    var n := |saves| - 1;
    if n > 0 && k <= saves[n - 1] {
      ClimbReaches(saves[..n], k);
      var j :| 0 <= j < n && saves[..n][j] == k;
      assert saves[j] == k;
    } else {
      assert saves[n] == k;
    }
  }

  /** ... and none before its predecessor. */
  lemma {:induction false} PredecessorSavedBefore(saves: seq<nat>, j: nat)
    requires Climbs(saves) && j < |saves| && saves[j] > 0
    ensures exists h :: 0 <= h < j && saves[h] == saves[j] - 1
  {
    if saves[j - 1] == saves[j] {
      PredecessorSavedBefore(saves, j - 1);
    }
  }

  // ----- what a resume forgets -----

  /** A resume restores the retry counters as zero, since no checkpoint carries
      them: it loses nothing if and only if there was nothing to lose. */
  lemma ResumeForgetsRetries(env: Env, config: Configuration, s: RunnerState, i: nat, freshService: bool)
    requires CheckpointNames(env, config, s, i)
    ensures var restored := RestoredState(s.checkpoints[env.job], freshService, s);
            && restored.counters == Some(NO_COUNTERS)
            && (NoHigher(s.counters, restored.counters) <==> s.counters.None? || s.counters == Some(NO_COUNTERS))
  {
  }

  // ----- a checkpoint in a failed state -----

  lemma TurnStaysStuck(env: Env, config: Configuration, i: nat, number: nat, choice: Choice, s: RunnerState)
    requires i < |env.steps| && MovesOnlyAtTheEnd(env.bodies) && !Healthy(s.machine)
    ensures TakeTurn(env, config, i, number, choice, s).after.machine == s.machine
  {
    var mid, saved, tail := TurnHasShape(env, config, i, number, choice, s);
    AttemptStaysStuck(env, config, i, number, choice, s);
  }

  ghost function StuckIn(state: MigrationState): StateInv {
    (t: RunnerState) => t.machine == state
  }

  lemma TurnsStayStuck(env: Env, config: Configuration, oracle: Oracle, state: MigrationState)
    requires MovesOnlyAtTheEnd(env.bodies) && !Healthy(state)
    ensures KeptByTurns(env, config, oracle, StuckIn(state))
  {
    var p := StuckIn(state);
    forall i: nat, number: nat, t | i < |env.steps| && p(t)
      ensures p(TakeTurn(env, config, i, number, oracle(i, number), t).after)
    {
      TurnStaysStuck(env, config, i, number, oracle(i, number), t);
    }
  }

  lemma {:induction false} OnlyCompletedFinishes(runners: seq<StepRunner>, start: nat, i: nat, s: RunnerState)
    requires i <= |runners|
    ensures StepLoop(runners, start, i, s).1.Finished? ==> StepLoop(runners, start, i, s).0.machine == Completed
    decreases |runners| - i
  {
    if i < |runners| {
      OnlyCompletedFinishes(runners, start, i + 1, runners[i](s).0);
    }
  }

  /** A run that starts FAILED or CANCELLED stays there and never finishes. */
  lemma StuckRunNeverFinishes(env: Env, config: Configuration, start: nat, oracle: Oracle, s: RunnerState)
    requires start <= |env.steps| && MovesOnlyAtTheEnd(env.bodies) && !Healthy(s.machine)
    ensures RunSteps(env, config, start, oracle, s).0.machine == s.machine
    ensures !RunSteps(env, config, start, oracle, s).1.Finished?
  {
    TurnsStayStuck(env, config, oracle, s.machine);
    RunPreserves(env, config, start, oracle, s, StuckIn(s.machine));
    OnlyCompletedFinishes(RunnersOf(env, config, oracle), start, start, s);
  }

  /** So does a fresh run of a runner whose initial state is one of them. */
  lemma StuckStartNeverFinishes(env: Env, oracle: Oracle, s: RunnerState)
    requires MovesOnlyAtTheEnd(env.bodies) && env.initialState.Some? && !Healthy(env.initialState.value)
    ensures RunFresh(env, oracle, s).0.machine == env.initialState.value && !RunFresh(env, oracle, s).1.Finished?
  {
    StuckRunNeverFinishes(env, FreshConfig(env), 0, oracle, FreshStart(env, s));
  }

  lemma ReplayStepStaysStuck(env: Env, config: Configuration, i: nat, choice: Choice, s: RunnerState)
    requires i < |env.steps| && MovesOnlyAtTheEnd(env.bodies) && !Healthy(s.machine)
    ensures ReplayStep(env, config, i, choice, s).0.machine == s.machine
  {
    var step := env.steps[i];
    var entered := EnterStep(s, step);
    assert MovesAsExpected(step, s.machine,
                           env.bodies.complete(config, step, choice, false, s.machine, entered.world).machine);
    assert MovesAsExpected(step, s.machine,
                           env.bodies.stopped(config, step, choice, false, s.machine, entered.world).machine);
  }

  lemma ReplayStaysStuck(env: Env, config: Configuration, oracle: Oracle, n: nat, s: RunnerState)
    requires n <= |env.steps| && MovesOnlyAtTheEnd(env.bodies) && !Healthy(s.machine)
    ensures Replay(ReplayersOf(env, config, oracle), n, s).0.machine == s.machine
  {
    var inv: ReplayInv := (n: nat, t: RunnerState) => t.machine == s.machine;
    var post := StuckIn(s.machine);
    forall j: nat, t | j < n && inv(j, t)
      ensures CarriesReplay(ReplayStep(env, config, j, oracle(j, 0), t), j, inv, post)
    {
      ReplayStepStaysStuck(env, config, j, oracle(j, 0), t);
    }
    ReplayStepsRule(env, config, oracle, n, s, inv, post);
  }

  /** The resume use case accepts a FAILED checkpoint of its job, but no run from
      one can ever finish. */
  lemma FailedCheckpointCannotFinish(env: Env, freshService: bool, oracle: Oracle, s: RunnerState)
    requires MovesOnlyAtTheEnd(env.bodies) && env.job in s.checkpoints
    requires s.checkpoints[env.job].job == env.job && s.checkpoints[env.job].version == 1
    requires s.checkpoints[env.job].state == Known(Failed)
    ensures ValidateCheckpoint(env.job, Lookup(s.checkpoints, env.job)) == None
    ensures !ResumeMigration(env, freshService, oracle, s).1.Finished?
  {
    var ck := s.checkpoints[env.job];
    var start := ResumeIndex(env, ck);
    if start.Some? {
      var config, restored := ResumeConfig(env, ck), RestoredState(ck, freshService, s);
      ReplayStaysStuck(env, config, oracle, start.value, restored);
      var (replayed, ok) := Replay(ReplayersOf(env, config, oracle), start.value, restored);
      StuckRunNeverFinishes(env, config, start.value, oracle, replayed);
    }
  }
}
