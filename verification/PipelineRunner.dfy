/** The runner as an object: its two loops over steps and attempts, its repositories
    and its state machine, proved to compute the runs of module Runner. */
module PipelineRunners {
  import opened Prelude
  import opened Records
  import opened StateMachine
  import opened StepRegistries
  import opened StepContexts
  import opened RetryPolicies
  import opened Rehydration
  import opened Targets
  import opened ErrorBreakdowns
  import opened StepBodies
  import opened StepExecution
  import opened Runner
  import opened Repositories

  class PipelineRunner {
    const plan: Plan
    const job: string
    const steps: seq<Step>
    const retry: RetryRules
    const initialState: Option<MigrationState>
    const initialConfig: Option<Configuration>
    const executor: StepExecutor
    const target: TargetAdapter
    const checkpoints: InMemoryCheckpointRepository
    const retries: InMemoryRetryRepository
    var machine: MigrationStateMachine
    var metrics: Option<Counters>
    ghost var log: seq<Event>

    /** The steps are the registered ones in execution order. */
    constructor (plan: Plan, job: string, registry: StepRegistry, retry: RetryRules,
                 initialState: Option<MigrationState>, initialConfig: Option<Configuration>,
                 target: TargetAdapter, checkpoints: InMemoryCheckpointRepository, retries: InMemoryRetryRepository)
      ensures Valid() && fresh(machine) && fresh(executor) && fresh(executor.rehydrator)
      ensures Environment()
              == Env(MigrationBodies(plan), job, Resolve(registry.steps), retry, initialState, initialConfig)
      ensures State() == RunnerState(World(NO_DATA, target.State(), EMPTY_SERVICE), MigrationState.Created, None,
                                     checkpoints.checkpoints, retries.records, [])
      ensures this.target == target && this.checkpoints == checkpoints && this.retries == retries
    {
      this.plan, this.job, this.retry, this.steps := plan, job, retry, Resolve(registry.steps);
      this.initialState, this.initialConfig := initialState, initialConfig;
      this.target, this.checkpoints, this.retries := target, checkpoints, retries;
      metrics, log := None, [];
      machine := new MigrationStateMachine(MigrationState.Created);
      executor := new StepExecutor(plan, target);
    }

    ghost predicate Valid()
      reads this, executor
    {
      executor.target == target && executor.plan == plan
    }

    function Environment(): Env {
      Env(MigrationBodies(plan), job, steps, retry, initialState, initialConfig)
    }

    ghost function State(): RunnerState
      reads this, executor, target, executor.rehydrator, checkpoints, retries, machine
    {
      RunnerState(World(executor.ctx, target.State(), executor.rehydrator.State()), machine.currentState, metrics,
                  checkpoints.checkpoints, retries.records, log)
    }

    /** The guarded transition. */
    method Enter(state: MigrationState)
      modifies this`log, machine
      ensures State() == Runner.Enter(old(State()), state)
    {
      if CanTransition(machine.currentState, state) {
        var _ := machine.TransitionTo(state);
        log := log + [Entered(state)];
      }
    }

    method EnterStep(step: Step)
      modifies this`log, machine
      ensures State() == Runner.EnterStep(old(State()), step)
    {
      var state := StepState(step);
      if state.Some? {
        Enter(state.value);
      }
    }

    /** Notes a movement a body made. */
    method NoteMovement(before: MigrationState)
      modifies this`log
      ensures log == old(log) + if machine.currentState == before then [] else [Entered(machine.currentState)]
    {
      if machine.currentState != before {
        log := log + [Entered(machine.currentState)];
      } else {
        assert log + [] == log;
      }
    }

    /** Runs a step body to its end. */
    method CompleteStep(config: Configuration, step: Step, choice: Choice, perform: bool)
      returns (ok: bool, keepsRetried: bool)
      requires Valid()
      modifies this`log, executor`ctx, target, executor.rehydrator, machine
      ensures Valid()
      ensures var b := CompleteBody(plan, config, step, choice, perform, old(machine.currentState), old(State().world));
              State() == AfterBody(old(State()), b) && ok == b.ok && keepsRetried == b.keepsRetried
    {
      var before := machine.currentState;
      ok, keepsRetried := executor.Complete(config, step, choice, perform, machine);
      NoteMovement(before);
    }

    /** Runs a step body that raises on the way. */
    method StopStep(config: Configuration, step: Step, choice: Choice, perform: bool)
      requires Valid()
      modifies this`log, executor`ctx, target, executor.rehydrator, machine
      ensures Valid()
      ensures State() == AfterBody(old(State()), StoppedBody(plan, config, step, choice, perform,
                                                             old(machine.currentState), old(State().world)))
    {
      var before := machine.currentState;
      executor.Stop(config, step, choice, perform, machine);
      NoteMovement(before);
    }

    method SaveCheckpoint(config: Configuration, i: nat)
      requires i < |steps|
      modifies this`log, checkpoints
      ensures State() == Runner.SaveCheckpoint(Environment(), config, i, old(State()))
    {
      var name, state := ClassName(steps[i]), machine.currentState;
      checkpoints.SaveCheckpoint(Checkpoint(job, Some(name), Known(state), config, 0, 0, 0, 1));
      log := log + [Saved(i)];
    }

    /** The part of an attempt after the body: metrics, finalize, checkpoint. */
    method FinishAttempt(config: Configuration, i: nat, choice: Choice, keepsRetried: bool)
      returns (failure: Option<Failure>)
      requires i < |steps|
      modifies this`log, this`metrics, checkpoints
      ensures (State(), failure) == Runner.FinishAttempt(Environment(), config, i, choice, keepsRetried, old(State()))
    {
      metrics := MergeCounters(Reported(steps[i], choice, keepsRetried, metrics), metrics);
      if choice.fault.Some? && (choice.fault.value.phase.InFinalize? || choice.fault.value.phase == InSave(false)) {
        return Some(choice.fault.value.failure);
      }
      SaveCheckpoint(config, i);
      if choice.fault.Some? && choice.fault.value.phase == InSave(true) {
        return Some(choice.fault.value.failure);
      }
      log := log + [Succeeded(i)];
      return None;
    }
  
    /** One attempt of step i. */
    method RunAttempt(config: Configuration, i: nat, number: nat, choice: Choice) returns (failure: Option<Failure>)
      requires Valid() && i < |steps|
      modifies this`log, this`metrics, executor`ctx, target, executor.rehydrator, machine, checkpoints
      ensures Valid()
      ensures (State(), failure) == Attempt(Environment(), config, i, number, choice, old(State()))
    {
      log := log + [Attempted(i, number)];
      if choice.fault.Some? && choice.fault.value.phase.InPrepare? {
        return Some(choice.fault.value.failure);
      }
      if choice.fault.Some? && choice.fault.value.phase.InBody? {
        StopStep(config, steps[i], choice, true);
        return Some(choice.fault.value.failure);
      }
      var ok, keepsRetried := CompleteStep(config, steps[i], choice, true);
      if !ok {
        return Some(MISSING_INPUT);
      }
      failure := FinishAttempt(config, i, choice, keepsRetried);
    }

    /** Records a retry and restores the context the failed attempt started from. */
    method PrepareRetry(i: nat, number: nat, failure: Failure, delay: real, context: StepData)
      requires Valid() && i < |steps|
      modifies this`log, this`metrics, executor`ctx, retries
      ensures Valid()
      ensures State() == Runner.PrepareRetry(Environment(), i, number, failure, delay, context, old(State()))
    {
      metrics := Some(CountRetry(metrics, failure));
      retries.Save(RetryRecord(job, ClassName(steps[i]), number, failure.message));
      executor.ctx := context;
      log := log + [Slept(delay)];
    }
  
    /** One attempt and what is decided after it: again tells whether the step is tried once more. */
    method TakeTurn(config: Configuration, i: nat, number: nat, choice: Choice) returns (again: bool, end: StepEnd)
      requires Valid() && i < |steps|
      modifies this`log, this`metrics, executor`ctx, target, executor.rehydrator, machine, checkpoints, retries
      ensures Valid()
      ensures Runner.TakeTurn(Environment(), config, i, number, choice, old(State()))
           == if again then Again(State()) else Over(State(), end)
    {
      var context := executor.ctx;
      var failure := RunAttempt(config, i, number, choice);
      if failure.None? {
        return false, StepDone;
      }
      var decision := retry.decide(failure.value, number);
      if decision.Some? && decision.value.shouldRetry {
        PrepareRetry(i, number, failure.value, decision.value.delay, context);
        return true, StepDone;
      }
      if !CanTransition(machine.currentState, Failed) {
        return false, StepEscaped;
      }
      Enter(Failed);
      return false, StepFailed(context, FailedStep(ClassName(steps[i]), decision.Some?, number));
    }

    /** Attempts a step until it is over. */
    method LoopTurns(config: Configuration, i: nat, oracle: Oracle, ghost turns: Turns) returns (end: StepEnd)
      requires Valid() && i < |steps| && StopsAt(turns, retry.limit)
      requires forall n: nat, s ::
        turns(n, s) == Runner.TakeTurn(Environment(), config, i, n + 1, oracle(i, n + 1), s)
      modifies this`log, this`metrics, executor`ctx, target, executor.rehydrator, machine, checkpoints, retries
      ensures Valid()
      ensures (State(), end) == RetryLoop(turns, retry.limit, 0, old(State()))
    {
      var number := 1;
      while true
        invariant Valid() && number >= 1
        invariant RetryLoop(turns, retry.limit, 0, old(State())) == RetryLoop(turns, retry.limit, number - 1, State())
        decreases retry.limit - number
      {
        ghost var before := State();
        var again;
        again, end := TakeTurn(config, i, number, oracle(i, number));
        assert turns(number - 1, before) == if again then Again(State()) else Over(State(), end);
        if !again {
          return;
        }
        number := number + 1;
      }
    }

    /** One step: its lifecycle state, then the retry loop. */
    method RunStep(config: Configuration, i: nat, oracle: Oracle) returns (end: StepEnd)
      requires Valid() && i < |steps|
      modifies this`log, this`metrics, executor`ctx, target, executor.rehydrator, machine, checkpoints, retries
      ensures Valid()
      ensures (State(), end) == Runner.RunStep(Environment(), config, i, oracle, old(State()))
    {
      TurnsStop(Environment(), config, i, oracle);
      EnterStep(steps[i]);
      end := LoopTurns(config, i, oracle, TurnsOf(Environment(), config, i, oracle));
    }
  
    /** Rolls the failing step back, then the completed ones, latest first. */
    method RollbackSteps(completed: seq<nat>, current: nat, ghost start: nat)
      requires |completed| == current - start
      requires forall k :: 0 <= k < |completed| ==> completed[k] == start + k
      modifies this`log
      ensures State() == Rollback(old(State()), start, current)
    {
      log := log + [RolledBack(current)];
      var k := |completed|;
      while k > 0
        invariant 0 <= k <= |completed|
        invariant Rollback(old(State()), start, current)
                  == if k == 0 then State() else Rollback(State(), start, start + k - 1)
      {
        k := k - 1;
        log := log + [RolledBack(completed[k])];
      }
    }

    /** The step loop, and what ends it. */
    method LoopSteps(config: Configuration, start: nat, oracle: Oracle, ghost runners: seq<StepRunner>)
      returns (end: RunEnd)
      requires Valid() && start <= |steps| == |runners|
      requires forall j: nat, s :: j < |steps| ==> runners[j](s) == Runner.RunStep(Environment(), config, j, oracle, s)
      modifies this`log, this`metrics, executor`ctx, target, executor.rehydrator, machine, checkpoints, retries
      ensures Valid()
      ensures (State(), end) == StepLoop(runners, start, start, old(State()))
    {
      var completed: seq<nat> := [];
      for i := start to |steps|
        invariant Valid()
        invariant |completed| == i - start && forall k :: 0 <= k < |completed| ==> completed[k] == start + k
        invariant StepLoop(runners, start, start, old(State())) == StepLoop(runners, start, i, State())
      {
        ghost var before := State();
        var result := RunStep(config, i, oracle);
        assert runners[i](before) == (State(), result);
        match result {
          case StepDone =>
            completed := completed + [i];
          case StepFailed(ctx, step) =>
            RollbackSteps(completed, i, start);
            return FailedAt(i, ctx, step);
          case StepEscaped =>
            return EscapedAt(i);
        }
      }
      if !CanTransition(machine.currentState, Completed) {
        return EscapedAt(|steps|);
      }
      Enter(Completed);
      return Finished;
    }

    method RunSteps(config: Configuration, start: nat, oracle: Oracle) returns (end: RunEnd)
      requires Valid() && start <= |steps|
      modifies this`log, this`metrics, executor`ctx, target, executor.rehydrator, machine, checkpoints, retries
      ensures Valid()
      ensures (State(), end) == Runner.RunSteps(Environment(), config, start, oracle, old(State()))
    {
      end := LoopSteps(config, start, oracle, RunnersOf(Environment(), config, oracle));
    }
  
    /** A fresh run. */
    method Run(oracle: Oracle) returns (end: RunEnd)
      requires Valid()
      modifies this`machine, this`log, this`metrics, executor`ctx, target, executor.rehydrator, checkpoints, retries
      ensures Valid() && fresh(machine)
      ensures (State(), end) == RunFresh(Environment(), oracle, old(State()))
    {
      machine := new MigrationStateMachine(if initialState.Some? then initialState.value else MigrationState.Created);
      metrics := None;
      executor.ctx := NO_DATA;
      Enter(Initializing);
      end := RunSteps(FreshConfig(Environment()), 0, oracle);
    }

    /** Replays one completed step; false stands for an exception that leaves the resume. */
    method ReplayStep(config: Configuration, i: nat, choice: Choice) returns (ok: bool)
      requires Valid() && i < |steps|
      modifies this`log, this`metrics, executor`ctx, target, executor.rehydrator, machine
      ensures Valid()
      ensures (State(), ok) == Runner.ReplayStep(Environment(), config, i, choice, old(State()))
    {
      EnterStep(steps[i]);
      if choice.fault.Some? {
        if !choice.fault.value.phase.InPrepare? {
          StopStep(config, steps[i], choice, false);
        }
        return false;
      }
      var keepsRetried;
      ok, keepsRetried := CompleteStep(config, steps[i], choice, false);
      if ok {
        metrics := MergeCounters(Reported(steps[i], choice, keepsRetried, metrics), metrics);
      }
    }

    /** Replays the first n steps, stopping at the first that raises. */
    method LoopReplays(config: Configuration, n: nat, oracle: Oracle, ghost replayers: seq<Replayer>) returns (ok: bool)
      requires Valid() && n <= |steps| == |replayers|
      requires forall j: nat, s ::
        j < |steps| ==> replayers[j](s) == Runner.ReplayStep(Environment(), config, j, oracle(j, 0), s)
      modifies this`log, this`metrics, executor`ctx, target, executor.rehydrator, machine
      ensures Valid()
      ensures (State(), ok) == Replay(replayers, n, old(State()))
    {
      for i := 0 to n
        invariant Valid()
        invariant Replay(replayers, i, old(State())) == (State(), true)
      {
        ghost var before := State();
        ok := ReplayStep(config, i, oracle(i, 0));
        assert replayers[i](before) == (State(), ok);
        ReplayOneMore(replayers, i, old(State()), before, State(), ok);
        if !ok {
          ReplayStops(replayers, i + 1, n, old(State()));
          return;
        }
      }
      return true;
    }

    /** The resume use case: check the stored checkpoint, restore, replay, run on. */
    method Resume(freshService: bool, oracle: Oracle) returns (end: RunEnd)
      requires Valid()
      modifies this`machine, this`log, this`metrics
      modifies executor, target, executor.rehydrator, machine, checkpoints, retries
      ensures Valid()
      ensures (State(), end) == ResumeMigration(Environment(), freshService, oracle, old(State()))
    {
      var stored := checkpoints.LoadCheckpoint(job);
      var rejection := ValidateCheckpoint(job, stored);
      if rejection.Some? {
        return Rejected(rejection.value);
      }
      end := ResumeFrom(stored.value, freshService, oracle);
    }

    method Restore(ck: Checkpoint, freshService: bool)
      requires Valid() && ck.state.Known?
      modifies this`machine, this`metrics, executor
      ensures Valid() && fresh(machine)
      ensures executor.rehydrator == old(executor.rehydrator) || fresh(executor.rehydrator)
      ensures State() == RestoredState(ck, freshService, old(State()))
    {
      machine := new MigrationStateMachine(ck.state.state);
      metrics := Some(Counters(0, ck.throttled, ck.retryAfters, ck.temporary));
      executor.ctx := NO_DATA.(report := Some(RESTORED_REPORT));
      if freshService {
        executor.rehydrator := new SisRehydrator();
      }
    }

    method ResumeFrom(ck: Checkpoint, freshService: bool, oracle: Oracle) returns (end: RunEnd)
      requires Valid() && ck.state.Known?
      modifies this`machine, this`log, this`metrics
      modifies executor, target, executor.rehydrator, machine, checkpoints, retries
      ensures Valid()
      ensures (State(), end) == RunResumed(Environment(), ck, freshService, oracle, old(State()))
    {
      var start := ResumeIndex(Environment(), ck);
      if start.None? {
        return Rejected(UnknownStep);
      }
      var config := ResumeConfig(Environment(), ck);
      Restore(ck, freshService);
      var ok := LoopReplays(config, start.value, oracle, ReplayersOf(Environment(), config, oracle));
      if !ok {
        return EscapedAt(0);
      }
      end := RunSteps(config, start.value, oracle);
    }
  }

  lemma ReplayOneMore(replayers: seq<Replayer>, i: nat, s: RunnerState, before: RunnerState, after: RunnerState,
                      ok: bool)
    requires i < |replayers| && Replay(replayers, i, s) == (before, true) && replayers[i](before) == (after, ok)
    ensures Replay(replayers, i + 1, s) == (after, ok)
  {
  }

  /** Once a replayed step has raised, the later ones are not looked at. */
  lemma {:induction false} ReplayStops(replayers: seq<Replayer>, i: nat, n: nat, s: RunnerState)
    requires i <= n <= |replayers| && !Replay(replayers, i, s).1
    ensures Replay(replayers, n, s) == Replay(replayers, i, s)
  {
    if i < n {
      ReplayStops(replayers, i, n - 1, s);
    }
  }
}
