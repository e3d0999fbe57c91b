/** The pipeline runner as a function of everything it does not control: where
    attempts raise, how far they got, and how upload workers were scheduled. */
module Runner {
  import opened Prelude
  import opened Records
  import opened StateMachine
  import opened StepRegistries
  import opened StepContexts
  import opened RetryPolicies
  import opened Rehydration
  import opened ErrorBreakdowns
  import opened StepBodies

  // ----- retry decisions -----

  function Retryable(classifier: Option<Failure -> bool>, f: Failure): bool {
    if classifier.Some? then classifier.value(f) else f.hasRetryAfter
  }

  function Wish(f: Failure): real {
    if f.hasRetryAfter then f.retryAfter else 0.0
  }

  /** The runner's retry decision; the retry-after wish of the failure can only lengthen the delay. */
  function DecideRetry(policy: Option<ValidPolicy>, classifier: Option<Failure -> bool>, f: Failure, number: nat)
    : Option<RetryDecision>
  {
    if policy.None? || !Retryable(classifier, f) then None
    else
      var decision := Decide(policy.value, number, true);
      if decision.Some? && Wish(f) > decision.value.delay then Some(decision.value.(delay := Wish(f))) else decision
  }

  function AttemptLimit(policy: Option<ValidPolicy>): nat {
    if policy.Some? then policy.value.maxAttempts else 1
  }

  /** Retry decisions by failure and attempt number, and the number of attempts they allow. */
  datatype Rules = Rules(limit: nat, decide: (Failure, nat) -> Option<RetryDecision>)

  ghost predicate Terminating(rules: Rules) {
    && rules.limit >= 1
    && forall f, n: nat :: rules.decide(f, n).Some? && rules.decide(f, n).value.shouldRetry ==> n < rules.limit
  }

  type RetryRules = rules: Rules | Terminating(rules)
    ghost witness Rules(1, (f, n) => None)

  /** The rules a policy and a classifier give. */
  function RulesOf(policy: Option<ValidPolicy>, classifier: Option<Failure -> bool>): RetryRules {
    PolicyTerminates(policy, classifier);
    Rules(AttemptLimit(policy), (f: Failure, n: nat) => DecideRetry(policy, classifier, f, n))
  }

  lemma PolicyTerminates(policy: Option<ValidPolicy>, classifier: Option<Failure -> bool>)
    ensures Terminating(Rules(AttemptLimit(policy), (f: Failure, n: nat) => DecideRetry(policy, classifier, f, n)))
  {
    forall f, n: nat
      | DecideRetry(policy, classifier, f, n).Some? && DecideRetry(policy, classifier, f, n).value.shouldRetry
      ensures n < AttemptLimit(policy)
    {
    }
  }

  // ----- state -----

  /** What is fixed for a job. */
  datatype Env = Env(
    bodies: Bodies,
    job: string,
    steps: seq<Step>,
    retry: RetryRules,
    initialState: Option<MigrationState>,
    initialConfig: Option<Configuration>)

  /** The snapshot saved after a step. The retry counters are never copied into it. */
  datatype Checkpoint = Checkpoint(
    job: string,
    lastStep: Option<StepName>,
    state: StoredState,
    config: Configuration,
    throttled: nat,
    retryAfters: nat,
    temporary: nat,
    version: int)

  datatype RetryRecord = RetryRecord(job: string, step: StepName, attempt: nat, reason: string)

  datatype Event =
    | Entered(state: MigrationState)
    | Attempted(step: nat, number: nat)
    | Slept(delay: real)
    | Saved(step: nat)
    | Succeeded(step: nat)
    | RolledBack(step: nat)

  datatype RunnerState = RunnerState(
    world: World,
    machine: MigrationState,
    counters: Option<Counters>,
    checkpoints: map<string, Checkpoint>,
    records: map<string, seq<RetryRecord>>,
    log: seq<Event>)

  function Logged(s: RunnerState, e: Event): RunnerState {
    s.(log := s.log + [e])
  }

  /** A guarded transition of the runner's machine. */
  function Enter(s: RunnerState, state: MigrationState): RunnerState {
    if CanTransition(s.machine, state) then Logged(s.(machine := state), Entered(state)) else s
  }

  function StepState(step: Step): Option<MigrationState> {
    match ClassName(step)
    case DiscoverArchivesStep => Some(Discovering)
    case ExtractItemsStep => Some(Extracting)
    case TransformItemsStep => Some(Transforming)
    case UploadItemsStep => Some(Uploading)
    case VerifyItemsStep => Some(Verifying)
    case FinalizeMigrationStep => Some(Finalizing)
    case OtherName(_) => None
  }

  function EnterStep(s: RunnerState, step: Step): RunnerState {
    var state := StepState(step);
    if state.Some? then Enter(s, state.value) else s
  }

  // ----- counters -----

  function Max(a: nat, b: nat): nat {
    if a >= b then a else b
  }

  /** What a step reports: a migration step starts from the runner's counters and
      clears the retry count, except a verification in dry-run mode. */
  function Reported(step: Step, choice: Choice, keepsRetried: bool, latest: Option<Counters>): Option<Counters> {
    if step.Custom? then choice.counters
    else if latest.None? then Some(NO_COUNTERS)
    else if keepsRetried then latest
    else Some(latest.value.(retried := 0))
  }

  function MergeCounters(current: Option<Counters>, latest: Option<Counters>): Option<Counters> {
    if current.None? then latest
    else if latest.None? then current
    else
      var c, l := current.value, latest.value;
      Some(Counters(Max(c.retried, l.retried), Max(c.throttled, l.throttled),
                    Max(c.retryAfters, l.retryAfters), Max(c.temporary, l.temporary)))
  }

  function CountRetry(latest: Option<Counters>, f: Failure): Counters {
    var c := if latest.Some? then latest.value else NO_COUNTERS;
    Counters(c.retried + 1,
             c.throttled + (if f.statusCode == Some(429) then 1 else 0),
             c.retryAfters + (if f.hasRetryAfter && f.retryAfter > 0.0 then 1 else 0),
             c.temporary + (if f.statusCode == Some(503) then 1 else 0))
  }

  // ----- one attempt -----

  function BuildCheckpoint(env: Env, config: Configuration, step: Step, machine: MigrationState): Checkpoint {
    Checkpoint(env.job, Some(ClassName(step)), Known(machine), config, 0, 0, 0, 1)
  }

  function SaveCheckpoint(env: Env, config: Configuration, i: nat, s: RunnerState): RunnerState
    requires i < |env.steps|
  {
    Logged(s.(checkpoints := s.checkpoints[env.job := BuildCheckpoint(env, config, env.steps[i], s.machine)]), Saved(i))
  }

  /** After a body has ended: its world, and the machine if the body moved it. */
  function AfterBody(s: RunnerState, b: BodyEnd): RunnerState {
    if b.machine == s.machine then s.(world := b.world)
    else Logged(s.(world := b.world, machine := b.machine), Entered(b.machine))
  }

  /** The rest of an attempt once the body has produced its result. */
  function FinishAttempt(env: Env, config: Configuration, i: nat, choice: Choice, keepsRetried: bool, s: RunnerState)
    : (RunnerState, Option<Failure>)
    requires i < |env.steps|
  {
    var reported := Reported(env.steps[i], choice, keepsRetried, s.counters);
    var merged := s.(counters := MergeCounters(reported, s.counters));
    if choice.fault.Some? && choice.fault.value.phase.InFinalize? then (merged, Some(choice.fault.value.failure))
    else if choice.fault.Some? && choice.fault.value.phase == InSave(false) then
      (merged, Some(choice.fault.value.failure))
    else
      var saved := SaveCheckpoint(env, config, i, merged);
      if choice.fault.Some? && choice.fault.value.phase == InSave(true) then (saved, Some(choice.fault.value.failure))
      else (Logged(saved, Succeeded(i)), None)
  }

  function Attempt(env: Env, config: Configuration, i: nat, number: nat, choice: Choice, s: RunnerState)
    : (RunnerState, Option<Failure>)
    requires i < |env.steps|
  {
    var begun := Logged(s, Attempted(i, number));
    if choice.fault.Some? && choice.fault.value.phase.InPrepare? then (begun, Some(choice.fault.value.failure))
    else if choice.fault.Some? && choice.fault.value.phase.InBody? then
      (AfterBody(begun, env.bodies.stopped(config, env.steps[i], choice, true, begun.machine, begun.world)),
       Some(choice.fault.value.failure))
    else
      var b := env.bodies.complete(config, env.steps[i], choice, true, begun.machine, begun.world);
      if !b.ok then (AfterBody(begun, b), Some(MISSING_INPUT))
      else FinishAttempt(env, config, i, choice, b.keepsRetried, AfterBody(begun, b))
  }

  // ----- retrying one step -----

  function RecordsOf(records: map<string, seq<RetryRecord>>, job: string): seq<RetryRecord> {
    if job in records then records[job] else []
  }

  /** Prepares the next attempt: record, counters, sleep, and the context the failed attempt started from. */
  function PrepareRetry(env: Env, i: nat, number: nat, f: Failure, delay: real, ctx: StepData, s: RunnerState)
    : RunnerState
    requires i < |env.steps|
  {
    var record := RetryRecord(env.job, ClassName(env.steps[i]), number, f.message);
    Logged(s.(records := s.records[env.job := RecordsOf(s.records, env.job) + [record]],
              counters := Some(CountRetry(s.counters, f)),
              world := s.world.(ctx := ctx)),
           Slept(delay))
  }

  /** A failed step carries what its error breakdown is built from. */
  datatype StepEnd = StepDone | StepFailed(ctx: StepData, step: FailedStep) | StepEscaped

  /** One turn of the retry loop: the step is over, or it is tried again. */
  datatype Turn = Over(after: RunnerState, end: StepEnd) | Again(after: RunnerState)

  function TakeTurn(env: Env, config: Configuration, i: nat, number: nat, choice: Choice, s: RunnerState): (turn: Turn)
    requires i < |env.steps|
    ensures turn.Again? ==> number < env.retry.limit
  {
    var (after, failure) := Attempt(env, config, i, number, choice, s);
    if failure.None? then Over(after, StepDone)
    else
      var decision := env.retry.decide(failure.value, number);
      if decision.Some? && decision.value.shouldRetry then
        Again(PrepareRetry(env, i, number, failure.value, decision.value.delay, s.world.ctx, after))
      else if !CanTransition(after.machine, Failed) then Over(after, StepEscaped)
      else Over(Enter(after, Failed),
                StepFailed(s.world.ctx, FailedStep(ClassName(env.steps[i]), decision.Some?, number)))
  }

  /** The turns of one step's retry loop, by the number of attempts already made. */
  type Turns = (nat, RunnerState) -> Turn

  ghost predicate StopsAt(turns: Turns, limit: nat) {
    forall made: nat, s :: turns(made, s).Again? ==> made + 1 < limit
  }

  function TurnsOf(env: Env, config: Configuration, i: nat, oracle: Oracle): Turns
    requires i < |env.steps|
  {
    (made: nat, s: RunnerState) => TakeTurn(env, config, i, made + 1, oracle(i, made + 1), s)
  }

  lemma TurnsStop(env: Env, config: Configuration, i: nat, oracle: Oracle)
    requires i < |env.steps|
    ensures StopsAt(TurnsOf(env, config, i, oracle), env.retry.limit)
  {
    var turns := TurnsOf(env, config, i, oracle);
    forall made: nat, s | turns(made, s).Again? ensures made + 1 < env.retry.limit {
      assert turns(made, s) == TakeTurn(env, config, i, made + 1, oracle(i, made + 1), s);
    }
  }

  /** The retry loop: the measure is the number of attempts the policy still allows. */
  function RetryLoop(turns: Turns, limit: nat, made: nat, s: RunnerState): (RunnerState, StepEnd)
    requires StopsAt(turns, limit)
    decreases limit - made
  {
    match turns(made, s)
    case Over(after, end) => (after, end)
    case Again(after) => RetryLoop(turns, limit, made + 1, after)
  }

  function RunStep(env: Env, config: Configuration, i: nat, oracle: Oracle, s: RunnerState): (RunnerState, StepEnd)
    requires i < |env.steps|
  {
    TurnsStop(env, config, i, oracle);
    RetryLoop(TurnsOf(env, config, i, oracle), env.retry.limit, 0, EnterStep(s, env.steps[i]))
  }

  // ----- a run -----

  /** How a run ends. Escaped stands for an exception that leaves run(); at is the
      position of the step that ended the run, or the number of steps after the last one. */
  datatype RunEnd =
    | Finished
    | FailedAt(at: nat, ctx: StepData, step: FailedStep)
    | EscapedAt(at: nat)
    | Rejected(reason: Rejection)

  /** The error breakdown of a failed run's report. */
  function FailureBreakdown(end: RunEnd): (entries: seq<ErrorEntry>)
    requires end.FailedAt?
    ensures entries != []
  {
    Breakdown(end.ctx, FailedStatus, Some(end.step))
  }

  datatype Rejection = NoCheckpoint | WrongJob | UnsupportedVersion | UnsupportedState | NotResumable | UnknownStep

  /** The failing step is rolled back first, then this run's completed steps, latest first. */
  function Rollback(s: RunnerState, start: nat, at: nat): RunnerState
    decreases at
  {
    var rolled := Logged(s, RolledBack(at));
    if at <= start then rolled else Rollback(rolled, start, at - 1)
  }

  /** What running one step does to the runner. */
  type StepRunner = RunnerState -> (RunnerState, StepEnd)

  function RunnersOf(env: Env, config: Configuration, oracle: Oracle): (r: seq<StepRunner>)
    ensures |r| == |env.steps|
  {
    seq(|env.steps|, i requires 0 <= i < |env.steps| => (s: RunnerState) => RunStep(env, config, i, oracle, s))
  }

  /** The step loop from position i, and the final transition after the last step. */
  function StepLoop(runners: seq<StepRunner>, start: nat, i: nat, s: RunnerState): (RunnerState, RunEnd)
    requires i <= |runners|
    decreases |runners| - i
  {
    if i == |runners| then
      if CanTransition(s.machine, Completed) then (Enter(s, Completed), Finished) else (s, EscapedAt(i))
    else
      var (after, end) := runners[i](s);
      match end
      case StepDone => StepLoop(runners, start, i + 1, after)
      case StepFailed(ctx, step) => (Rollback(after, start, i), FailedAt(i, ctx, step))
      case StepEscaped => (after, EscapedAt(i))
  }

  function RunSteps(env: Env, config: Configuration, start: nat, oracle: Oracle, s: RunnerState): (RunnerState, RunEnd)
    requires start <= |env.steps|
  {
    StepLoop(RunnersOf(env, config, oracle), start, start, s)
  }

  function FreshConfig(env: Env): Configuration {
    if env.initialConfig.Some? then env.initialConfig.value else DEFAULT_CONFIGURATION
  }

  function FreshStart(env: Env, s: RunnerState): RunnerState {
    var initial := if env.initialState.Some? then env.initialState.value else MigrationState.Created;
    Enter(s.(machine := initial, counters := None, world := s.world.(ctx := NO_DATA)), Initializing)
  }

  function RunFresh(env: Env, oracle: Oracle, s: RunnerState): (RunnerState, RunEnd) {
    RunSteps(env, FreshConfig(env), 0, oracle, FreshStart(env, s))
  }

  // ----- resuming -----

  /** The checks of the resume use case on a stored checkpoint. */
  function ValidateCheckpoint(job: string, stored: Option<Checkpoint>): Option<Rejection> {
    if stored.None? then Some(NoCheckpoint)
    else
      var ck := stored.value;
      if ck.job != job then Some(WrongJob)
      else if ck.version != 1 then Some(UnsupportedVersion)
      else if ck.state.Unrecognised? then Some(UnsupportedState)
      else if ck.state.state == Completed || ck.state.state == Cancelled then Some(NotResumable)
      else None
  }

  function ResumeConfig(env: Env, ck: Checkpoint): Configuration {
    ck.config.(dryRun := ck.config.dryRun || (env.initialConfig.Some? && env.initialConfig.value.dryRun))
  }

  const RESTORED_REPORT := Report(false, 0, [], None, None, None)

  function RestoredState(ck: Checkpoint, freshService: bool, s: RunnerState): RunnerState
    requires ck.state.Known?
  {
    s.(machine := ck.state.state,
       counters := Some(Counters(0, ck.throttled, ck.retryAfters, ck.temporary)),
       world := World(NO_DATA.(report := Some(RESTORED_REPORT)), s.world.target,
                      if freshService then EMPTY_SERVICE else s.world.service))
  }

  /** Replays one completed step; false stands for an exception that leaves run(). */
  function ReplayStep(env: Env, config: Configuration, i: nat, choice: Choice, s: RunnerState): (RunnerState, bool)
    requires i < |env.steps|
  {
    var step := env.steps[i];
    var entered := EnterStep(s, step);
    if choice.fault.Some? then
      if choice.fault.value.phase.InPrepare? then (entered, false)
      else (AfterBody(entered, env.bodies.stopped(config, step, choice, false, entered.machine, entered.world)), false)
    else
      var b := env.bodies.complete(config, step, choice, false, entered.machine, entered.world);
      var ended := AfterBody(entered, b);
      var reported := Reported(step, choice, b.keepsRetried, ended.counters);
      (if b.ok then ended.(counters := MergeCounters(reported, ended.counters)) else ended, b.ok)
  }

  type Replayer = RunnerState -> (RunnerState, bool)

  function ReplayersOf(env: Env, config: Configuration, oracle: Oracle): (r: seq<Replayer>)
    ensures |r| == |env.steps|
  {
    seq(|env.steps|, i requires 0 <= i < |env.steps| => (s: RunnerState) => ReplayStep(env, config, i, oracle(i, 0), s))
  }

  /** Replays the first n steps. */
  function Replay(replayers: seq<Replayer>, n: nat, s: RunnerState): (RunnerState, bool)
    requires n <= |replayers|
  {
    if n == 0 then (s, true)
    else
      var (before, ok) := Replay(replayers, n - 1, s);
      if !ok then (before, false) else replayers[n - 1](before)
  }

  function ResumeIndex(env: Env, ck: Checkpoint): (r: Option<nat>)
    ensures r.Some? ==> r.value <= |env.steps|
  {
    if ck.lastStep.None? then Some(0)
    else
      var index := IndexOf(env.steps, ck.lastStep.value);
      if index.Some? then Some(index.value + 1) else None
  }

  function RunResumed(env: Env, ck: Checkpoint, freshService: bool, oracle: Oracle, s: RunnerState)
    : (RunnerState, RunEnd)
    requires ck.state.Known?
  {
    var start := ResumeIndex(env, ck);
    if start.None? then (s, Rejected(UnknownStep))
    else
      var config := ResumeConfig(env, ck);
      var (replayed, ok) := Replay(ReplayersOf(env, config, oracle), start.value, RestoredState(ck, freshService, s));
      if !ok then (replayed, EscapedAt(0))
      else RunSteps(env, config, start.value, oracle, replayed)
  }

  function ResumeMigration(env: Env, freshService: bool, oracle: Oracle, s: RunnerState): (RunnerState, RunEnd) {
    var stored := Lookup(s.checkpoints, env.job);
    var rejection := ValidateCheckpoint(env.job, stored);
    if rejection.Some? then (s, Rejected(rejection.value))
    else RunResumed(env, stored.value, freshService, oracle, s)
  }

  // ----- a job: any chain of fresh runs and resumes -----

  datatype Launch = Launch(resume: bool, freshService: bool, oracle: Oracle)

  function RunLaunch(env: Env, launch: Launch, s: RunnerState): (RunnerState, RunEnd) {
    if launch.resume then ResumeMigration(env, launch.freshService, launch.oracle, s)
    else
      RunFresh(env, launch.oracle,
               if launch.freshService then s.(world := s.world.(service := EMPTY_SERVICE)) else s)
  }

  function RunJob(env: Env, launches: seq<Launch>, s: RunnerState): (RunnerState, RunEnd)
    requires launches != []
  {
    var n := |launches| - 1;
    RunLaunch(env, launches[n], if n == 0 then s else RunJob(env, launches[..n], s).0)
  }
}
