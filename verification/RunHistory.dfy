/** What one run does, read off its log: which steps complete, which are rolled
    back, how retries are numbered and delayed, and which states it visits. */
module RunHistory {
  import opened Prelude
  import opened StateMachine
  import opened StepRegistries
  import opened StableSorting
  import opened RetryPolicies
  import opened StepContexts
  import opened Records
  import opened StepBodies
  import opened Runner
  import opened RunnerProtocol

  // ----- which steps complete and which are rolled back -----

  function RollbacksIn(s: RunnerState): seq<nat> {
    Collect(RollbackOf, s.log)
  }

  /** [at, at - 1, ..., start] */
  function Descending(at: nat, start: nat): seq<nat>
    decreases at
  {
    if at <= start then [at] else [at] + Descending(at - 1, start)
  }

  lemma {:induction false} RollbackOrder(s: RunnerState, start: nat, at: nat)
    ensures RollbacksIn(Rollback(s, start, at)) == RollbacksIn(s) + Descending(at, start)
    decreases at
  {
    CollectLogged(RollbackOf, s, RolledBack(at));
    if at > start {
      RollbackOrder(Logged(s, RolledBack(at)), start, at - 1);
      SeqAssociates(RollbacksIn(s), [at], Descending(at - 1, start));
    }
  }

  /** Successes and rollbacks so far, for a run from s that has completed the steps before i. */
  ghost predicate CompletedUpTo(s: RunnerState, start: nat, i: nat, t: RunnerState) {
    && start <= i
    && SuccessesIn(t) == SuccessesIn(s) + Range(start, i)
    && RollbacksIn(t) == RollbacksIn(s)
  }

  /** What a run from start has completed and rolled back at its end. */
  ghost predicate ExecutedSuffix(s: RunnerState, start: nat, n: nat, after: RunnerState, end: RunEnd) {
    match end
    case Finished => CompletedUpTo(s, start, n, after)
    case FailedAt(at, _, _) =>
      && start <= at < n
      && SuccessesIn(after) == SuccessesIn(s) + Range(start, at)
      && RollbacksIn(after) == RollbacksIn(s) + Descending(at, start)
    case EscapedAt(at) => at <= n && CompletedUpTo(s, start, at, after)
    case Rejected(_) => false
  }

  lemma RollbacksInTurn(i: nat, number: nat, before: MigrationState, after: MigrationState,
                        saved: bool, succeeded: bool, tail: seq<Event>)
    requires |tail| <= 1 && (tail != [] ==> tail[0].Slept? || tail[0].Entered?)
    ensures Collect(RollbackOf, TurnEvents(i, number, before, after, saved, succeeded, tail)) == []
  {
    CollectTurn(RollbackOf, i, number, before, after, saved, succeeded, tail);
  }

  lemma TurnRollsNothingBack(env: Env, config: Configuration, i: nat, number: nat, choice: Choice, s: RunnerState)
    requires i < |env.steps|
    ensures RollbacksIn(TakeTurn(env, config, i, number, choice, s).after) == RollbacksIn(s)
  {
    var moved, saved, succeeded, tail := TurnAppends(env, config, i, number, choice, s);
    RollbacksInTurn(i, number, s.machine, moved, saved, succeeded, tail);
    CollectConcat(RollbackOf, s.log, TurnEvents(i, number, s.machine, moved, saved, succeeded, tail));
  }

  /** What a turn adds: a success if it ends the step well, and nothing else. */
  ghost predicate CompletesTurn(s: RunnerState, i: nat, turn: Turn) {
    && SuccessesIn(turn.after) == SuccessesIn(s) + (if turn.Over? && turn.end.StepDone? then [i] else [])
    && RollbacksIn(turn.after) == RollbacksIn(s)
  }

  lemma TurnCompletes(env: Env, config: Configuration, i: nat, number: nat, choice: Choice, s: RunnerState)
    requires i < |env.steps|
    ensures CompletesTurn(s, i, TakeTurn(env, config, i, number, choice, s))
  {
    var saved, m := TurnOnTrail(env, config, i, number, choice, s);
    TurnRollsNothingBack(env, config, i, number, choice, s);
  }

  ghost function SameHistory(s: RunnerState): TurnInv {
    (n: nat, t: RunnerState) => SuccessesIn(t) == SuccessesIn(s) && RollbacksIn(t) == RollbacksIn(s)
  }

  ghost function StepHistory(s: RunnerState, i: nat): TurnPost {
    (after: RunnerState, end: StepEnd) =>
      && SuccessesIn(after) == SuccessesIn(s) + (if end.StepDone? then [i] else [])
      && RollbacksIn(after) == RollbacksIn(s)
  }

  lemma HistoryAfterTurn(i: nat, s: RunnerState, n: nat, t: RunnerState, turn: Turn)
    requires SameHistory(s)(n, t) && CompletesTurn(t, i, turn)
    ensures CarriesTurn(turn, n, SameHistory(s), StepHistory(s, i))
  {
    assert SuccessesIn(s) + [] == SuccessesIn(s);
  }

  lemma TurnCarriesHistory(env: Env, config: Configuration, i: nat, oracle: Oracle, s: RunnerState, n: nat,
                           t: RunnerState)
    requires i < |env.steps| && SameHistory(s)(n, t)
    ensures CarriesTurn(TakeTurn(env, config, i, n + 1, oracle(i, n + 1), t), n, SameHistory(s), StepHistory(s, i))
  {
    TurnCompletes(env, config, i, n + 1, oracle(i, n + 1), t);
    HistoryAfterTurn(i, s, n, t, TakeTurn(env, config, i, n + 1, oracle(i, n + 1), t));
  }

  lemma HistoryTurns(env: Env, config: Configuration, i: nat, oracle: Oracle, s: RunnerState)
    requires i < |env.steps|
    ensures TurnsCarry(TurnsOf(env, config, i, oracle), SameHistory(s), StepHistory(s, i))
  {
    var inv, post := SameHistory(s), StepHistory(s, i);
    var turns := TurnsOf(env, config, i, oracle);
    forall n: nat, t | inv(n, t) ensures CarriesTurn(turns(n, t), n, inv, post) {
      TurnsApply(env, config, i, oracle, n, t);
      TurnCarriesHistory(env, config, i, oracle, s, n, t);
    }
  }

  lemma StepCompletes(env: Env, config: Configuration, i: nat, oracle: Oracle, s: RunnerState)
    requires i < |env.steps|
    ensures StepHistory(s, i)(RunStep(env, config, i, oracle, s).0, RunStep(env, config, i, oracle, s).1)
  {
    EnterStepCollects(SuccessOf, s, env.steps[i]);
    EnterStepCollects(RollbackOf, s, env.steps[i]);
    HistoryTurns(env, config, i, oracle, s);
    RunStepRule(env, config, i, oracle, s, SameHistory(s), StepHistory(s, i));
  }

  ghost function SuffixInv(s: RunnerState, start: nat): StepInv {
    (i: nat, t: RunnerState) => CompletedUpTo(s, start, i, t)
  }

  ghost function SuffixPost(s: RunnerState, start: nat, n: nat): RunPost {
    (after: RunnerState, end: RunEnd) => ExecutedSuffix(s, start, n, after, end)
  }

  lemma RolledBackHistory(s: RunnerState, start: nat, j: nat, after: RunnerState)
    requires CompletedUpTo(s, start, j, after)
    ensures var r := Rollback(after, start, j);
            SuccessesIn(r) == SuccessesIn(s) + Range(start, j)
                && RollbacksIn(r) == RollbacksIn(s) + Descending(j, start)
  {
    RollbackKeeps(SuccessOf, after, start, j);
    RollbackOrder(after, start, j);
  }

  lemma StepCarriesSuffix(env: Env, config: Configuration, oracle: Oracle, s: RunnerState, start: nat, j: nat,
                          t: RunnerState)
    requires j < |env.steps| && SuffixInv(s, start)(j, t)
    ensures CarriesStep(RunStep(env, config, j, oracle, t), start, j, SuffixInv(s, start),
                        SuffixPost(s, start, |env.steps|))
  {
    StepCompletes(env, config, j, oracle, t);
    var (after, end) := RunStep(env, config, j, oracle, t);
    if end.StepDone? {
      assert SuccessesIn(s) + Range(start, j) + [j] == SuccessesIn(s) + Range(start, j + 1);
    } else {
      assert SuccessesIn(t) + [] == SuccessesIn(t);
      if end.StepFailed? {
        RolledBackHistory(s, start, j, after);
      }
    }
  }

  lemma EndCarriesSuffix(env: Env, s: RunnerState, start: nat, t: RunnerState)
    requires SuffixInv(s, start)(|env.steps|, t)
    ensures CarriesEnd(t, |env.steps|, SuffixPost(s, start, |env.steps|))
  {
    EnterCollects(SuccessOf, t, Completed);
    EnterCollects(RollbackOf, t, Completed);
  }

  /** A run completes exactly the steps from its start up to where it ends, each
      once and in order; a failed run then rolls back the failing step and the
      steps this run completed, latest first, and no other run rolls anything back. */
  lemma RunExecutesItsSuffix(env: Env, config: Configuration, start: nat, oracle: Oracle, s: RunnerState)
    requires start <= |env.steps|
    ensures var (after, end) := RunSteps(env, config, start, oracle, s);
            ExecutedSuffix(s, start, |env.steps|, after, end)
  {
    var inv, post := SuffixInv(s, start), SuffixPost(s, start, |env.steps|);
    assert SuccessesIn(s) + Range(start, start) == SuccessesIn(s);
    var runners := RunnersOf(env, config, oracle);
    forall j: nat, t | j < |runners| && inv(j, t) ensures CarriesStep(runners[j](t), start, j, inv, post) {
      RunnersApply(env, config, oracle, j, t);
      StepCarriesSuffix(env, config, oracle, s, start, j, t);
    }
    forall t | inv(|env.steps|, t) ensures CarriesEnd(t, |env.steps|, post) {
      EndCarriesSuffix(env, s, start, t);
    }
    RunStepsRule(env, config, start, oracle, s, inv, post);
  }

  // ----- how the attempts of one step fail -----

  /** The state in which a step's next attempt begins, after so many earlier ones. */
  function BeforeAttempt(turns: Turns, made: nat, s: RunnerState): RunnerState {
    if made == 0 then s else turns(made - 1, BeforeAttempt(turns, made - 1, s)).after
  }

  /** The failures of a step's attempts, by attempt number. */
  type Failures = nat -> Option<Failure>

  /** How each attempt of step i fails, if it does, when the step runs from s. */
  function FailuresOf(env: Env, config: Configuration, i: nat, oracle: Oracle, s: RunnerState): Failures
    requires i < |env.steps|
  {
    var turns, entered := TurnsOf(env, config, i, oracle), EnterStep(s, env.steps[i]);
    (number: nat) =>
      if number == 0 then None
      else Attempt(env, config, i, number, oracle(i, number), BeforeAttempt(turns, number - 1, entered)).1
  }

  /** An attempt fails with what its circumstances raise, or because an input is missing. */
  lemma FailureIsTheRaisedOne(env: Env, config: Configuration, i: nat, oracle: Oracle, s: RunnerState, number: nat)
    requires i < |env.steps| && number >= 1
    ensures var failure := FailuresOf(env, config, i, oracle, s)(number);
            failure.Some? ==>
              || failure.value == MISSING_INPUT
              || (oracle(i, number).fault.Some? && failure.value == oracle(i, number).fault.value.failure)
  {
  }

  /** As long as attempts are retried, the loop reaches the states these failures start from. */
  lemma {:induction false} LoopReachesAttempt(turns: Turns, limit: nat, made: nat, s: RunnerState)
    requires StopsAt(turns, limit)
    requires forall n: nat :: n < made ==> turns(n, BeforeAttempt(turns, n, s)).Again?
    ensures RetryLoop(turns, limit, 0, s) == RetryLoop(turns, limit, made, BeforeAttempt(turns, made, s))
  {
    if made > 0 {
      LoopReachesAttempt(turns, limit, made - 1, s);
      assert turns(made - 1, BeforeAttempt(turns, made - 1, s)).Again?;
    }
  }

  ghost predicate ReachedTurnsCarry(turns: Turns, s: RunnerState, inv: TurnInv, post: TurnPost) {
    forall n: nat :: inv(n, BeforeAttempt(turns, n, s)) ==>
      CarriesTurn(turns(n, BeforeAttempt(turns, n, s)), n, inv, post)
  }

  /** A property of the retry loop holds when every turn it reaches carries it on. */
  lemma {:induction false} ReachedRule(turns: Turns, limit: nat, made: nat, s: RunnerState, inv: TurnInv,
                                       post: TurnPost)
    requires StopsAt(turns, limit) && inv(made, BeforeAttempt(turns, made, s))
    requires ReachedTurnsCarry(turns, s, inv, post)
    ensures var (after, end) := RetryLoop(turns, limit, made, BeforeAttempt(turns, made, s)); post(after, end)
    decreases limit - made
  {
    var t := BeforeAttempt(turns, made, s);
    assert CarriesTurn(turns(made, t), made, inv, post);
    if turns(made, t).Again? {
      assert BeforeAttempt(turns, made + 1, s) == turns(made, t).after;
      ReachedRule(turns, limit, made + 1, s, inv, post);
    }
  }

  /** The same for one step of a run. */
  lemma RunStepReachedRule(env: Env, config: Configuration, i: nat, oracle: Oracle, s: RunnerState,
                           inv: TurnInv, post: TurnPost)
    requires i < |env.steps| && inv(0, EnterStep(s, env.steps[i]))
    requires ReachedTurnsCarry(TurnsOf(env, config, i, oracle), EnterStep(s, env.steps[i]), inv, post)
    ensures post(RunStep(env, config, i, oracle, s).0, RunStep(env, config, i, oracle, s).1)
  {
    TurnsStop(env, config, i, oracle);
    ReachedRule(TurnsOf(env, config, i, oracle), env.retry.limit, 0, EnterStep(s, env.steps[i]), inv, post);
  }

  /** The turn after n earlier ones, and how its attempt fails. */
  lemma ReachedTurn(env: Env, config: Configuration, i: nat, oracle: Oracle, s: RunnerState, n: nat)
    requires i < |env.steps|
    ensures var turns := TurnsOf(env, config, i, oracle);
            var t := BeforeAttempt(turns, n, EnterStep(s, env.steps[i]));
            && turns(n, t) == TakeTurn(env, config, i, n + 1, oracle(i, n + 1), t)
            && FailuresOf(env, config, i, oracle, s)(n + 1) == Attempt(env, config, i, n + 1, oracle(i, n + 1), t).1
  {
    TurnsApply(env, config, i, oracle, n,
               BeforeAttempt(TurnsOf(env, config, i, oracle), n, EnterStep(s, env.steps[i])));
  }

  // ----- what a raising attempt leaves -----

  /** Raised before the body: nothing has changed. Inside it: what the body had already done. In
      finalize, or before the checkpoint is stored: what the body did, and no checkpoint. After that:
      the checkpoint as well. No attempt that raises completes its step. */
  ghost predicate LeftBy(env: Env, config: Configuration, i: nat, choice: Choice, s: RunnerState, after: RunnerState,
                         phase: Phase)
    requires i < |env.steps|
  {
    var done := env.bodies.complete(config, env.steps[i], choice, true, s.machine, s.world);
    var stopped := env.bodies.stopped(config, env.steps[i], choice, true, s.machine, s.world);
    match phase
    case InPrepare => after.world == s.world && after.machine == s.machine && after.counters == s.counters
    case InBody => after.world == stopped.world && after.machine == stopped.machine && after.counters == s.counters
    case InFinalize => after.world == done.world && after.machine == done.machine
    case InSave(_) => after.world == done.world && after.machine == done.machine
  }

  lemma RaisingAttemptLeaves(env: Env, config: Configuration, i: nat, number: nat, choice: Choice, s: RunnerState)
    requires i < |env.steps| && choice.fault.Some?
    requires env.bodies.complete(config, env.steps[i], choice, true, s.machine, s.world).ok
    ensures var (after, failure) := Attempt(env, config, i, number, choice, s);
            && failure == Some(choice.fault.value.failure)
            && LeftBy(env, config, i, choice, s, after, choice.fault.value.phase)
  {
  }

  /** It stores a checkpoint if and only if it raises after that was stored. */
  lemma RaisingAttemptSaves(env: Env, config: Configuration, i: nat, number: nat, choice: Choice, s: RunnerState)
    requires i < |env.steps| && choice.fault.Some?
    requires env.bodies.complete(config, env.steps[i], choice, true, s.machine, s.world).ok
    ensures var after := Attempt(env, config, i, number, choice, s).0;
            after.checkpoints == if choice.fault.value.phase == InSave(true)
                                 then s.checkpoints[env.job := BuildCheckpoint(env, config, env.steps[i],
                                                                               after.machine)]
                                 else s.checkpoints
  {
  }

  // ----- retry records -----

  /** One record for each of the attempts 1, 2, ..., count, with the message of its failure. */
  ghost predicate RetriesRecorded(env: Env, step: Step, failures: Failures, count: nat,
                                  before: seq<RetryRecord>, after: seq<RetryRecord>)
  {
    && |after| == |before| + count && before <= after
    && forall n: nat :: 1 <= n <= count ==>
         && failures(n).Some?
         && after[|before| + n - 1] == RetryRecord(env.job, ClassName(step), n, failures(n).value.message)
  }

  lemma OneMoreRecord(env: Env, step: Step, failures: Failures, count: nat,
                      before: seq<RetryRecord>, sofar: seq<RetryRecord>, after: seq<RetryRecord>)
    requires RetriesRecorded(env, step, failures, count, before, sofar) && failures(count + 1).Some?
    requires after == sofar + [RetryRecord(env.job, ClassName(step), count + 1, failures(count + 1).value.message)]
    ensures RetriesRecorded(env, step, failures, count + 1, before, after)
  {
  }

  ghost predicate RecordedSoFar(env: Env, i: nat, failures: Failures, count: nat, s: RunnerState, t: RunnerState)
    requires i < |env.steps|
  {
    && count < env.retry.limit
    && RetriesRecorded(env, env.steps[i], failures, count, RecordsOf(s.records, env.job), RecordsOf(t.records, env.job))
  }

  ghost predicate NumberedRecords(env: Env, i: nat, failures: Failures, s: RunnerState, after: RunnerState)
    requires i < |env.steps|
  {
    exists count :: RecordedSoFar(env, i, failures, count, s, after)
  }

  ghost function RecordedInv(env: Env, i: nat, failures: Failures, s: RunnerState): TurnInv
    requires i < |env.steps|
  {
    (n: nat, t: RunnerState) => RecordedSoFar(env, i, failures, n, s, t)
  }

  ghost function RecordedPost(env: Env, i: nat, failures: Failures, s: RunnerState): TurnPost
    requires i < |env.steps|
  {
    (after: RunnerState, end: StepEnd) => NumberedRecords(env, i, failures, s, after)
  }

  /** What a turn does to the retry records: one more if it is taken again. */
  ghost predicate RecordsTurn(env: Env, i: nat, number: nat, failure: Option<Failure>, s: RunnerState, turn: Turn)
    requires i < |env.steps|
  {
    if turn.Again? then
      failure.Some? && number < env.retry.limit
      && RecordAdded(env, env.steps[i], number, failure.value, s.records, turn.after.records)
    else turn.after.records == s.records
  }

  lemma TurnRecords(env: Env, config: Configuration, i: nat, number: nat, choice: Choice, s: RunnerState)
    requires i < |env.steps|
    ensures RecordsTurn(env, i, number, Attempt(env, config, i, number, choice, s).1, s,
                        TakeTurn(env, config, i, number, choice, s))
  {
    var mid, saved, tail := TurnHasShape(env, config, i, number, choice, s);
  }

  lemma RecordsAfterTurn(env: Env, i: nat, failures: Failures, s: RunnerState, n: nat, t: RunnerState, turn: Turn)
    requires i < |env.steps| && RecordedInv(env, i, failures, s)(n, t)
    requires RecordsTurn(env, i, n + 1, failures(n + 1), t, turn)
    ensures CarriesTurn(turn, n, RecordedInv(env, i, failures, s), RecordedPost(env, i, failures, s))
  {
    if turn.Again? {
      OneMoreRecord(env, env.steps[i], failures, n, RecordsOf(s.records, env.job), RecordsOf(t.records, env.job),
                    RecordsOf(turn.after.records, env.job));
    } else {
      assert RecordedSoFar(env, i, failures, n, s, turn.after);
    }
  }

  lemma ReachedTurnRecords(env: Env, config: Configuration, i: nat, oracle: Oracle, s: RunnerState, n: nat)
    requires i < |env.steps|
    ensures var turns := TurnsOf(env, config, i, oracle);
            var t := BeforeAttempt(turns, n, EnterStep(s, env.steps[i]));
            RecordsTurn(env, i, n + 1, FailuresOf(env, config, i, oracle, s)(n + 1), t, turns(n, t))
  {
    ReachedTurn(env, config, i, oracle, s, n);
    TurnRecords(env, config, i, n + 1, oracle(i, n + 1),
                BeforeAttempt(TurnsOf(env, config, i, oracle), n, EnterStep(s, env.steps[i])));
  }

  lemma RecordedTurns(env: Env, config: Configuration, i: nat, oracle: Oracle, s: RunnerState)
    requires i < |env.steps|
    ensures var failures := FailuresOf(env, config, i, oracle, s);
            ReachedTurnsCarry(TurnsOf(env, config, i, oracle), EnterStep(s, env.steps[i]),
                              RecordedInv(env, i, failures, s), RecordedPost(env, i, failures, s))
  {
    var failures := FailuresOf(env, config, i, oracle, s);
    var inv, post := RecordedInv(env, i, failures, s), RecordedPost(env, i, failures, s);
    var turns, entered := TurnsOf(env, config, i, oracle), EnterStep(s, env.steps[i]);
    forall n: nat | inv(n, BeforeAttempt(turns, n, entered))
      ensures CarriesTurn(turns(n, BeforeAttempt(turns, n, entered)), n, inv, post)
    {
      ReachedTurnRecords(env, config, i, oracle, s, n);
      RecordsAfterTurn(env, i, failures, s, n, BeforeAttempt(turns, n, entered),
                       turns(n, BeforeAttempt(turns, n, entered)));
    }
  }

  /** The records one step leaves for its job are numbered 1, 2, 3, ..., with no
      gap, name the step, carry the message of that attempt's failure, and are
      fewer than the attempts the policy allows. */
  lemma RetryRecordsAreNumbered(env: Env, config: Configuration, i: nat, oracle: Oracle, s: RunnerState)
    requires i < |env.steps|
    ensures NumberedRecords(env, i, FailuresOf(env, config, i, oracle, s), s, RunStep(env, config, i, oracle, s).0)
  {
    var failures := FailuresOf(env, config, i, oracle, s);
    EnterStepMoves(s, env.steps[i]);
    assert env.retry.limit >= 1;
    RecordedTurns(env, config, i, oracle, s);
    RunStepReachedRule(env, config, i, oracle, s, RecordedInv(env, i, failures, s), RecordedPost(env, i, failures, s));
  }

  // ----- sleeps between attempts -----

  /** The runner slept once after each of the attempts 1, 2, ..., count, as decided for its failure. */
  ghost predicate SleptAsDecided(rules: Rules, failures: Failures, count: nat, before: seq<real>, after: seq<real>) {
    && |after| == |before| + count && before <= after
    && forall n: nat :: 1 <= n <= count ==>
         failures(n).Some? && DecidedFor(rules, failures(n).value, n, after[|before| + n - 1])
  }

  lemma SleepsOfTurn(i: nat, number: nat, before: MigrationState, after: MigrationState,
                     saved: bool, succeeded: bool, tail: seq<Event>)
    requires |tail| <= 1 && (tail != [] ==> tail[0].Slept? || tail[0].Entered?)
    ensures Collect(DelayOf, TurnEvents(i, number, before, after, saved, succeeded, tail))
         == if tail != [] && tail[0].Slept? then [tail[0].delay] else []
  {
    CollectTurn(DelayOf, i, number, before, after, saved, succeeded, tail);
  }

  /** What a turn does to the sleeps: one more if it is taken again. */
  ghost predicate SleepsTurn(env: Env, number: nat, failure: Option<Failure>, s: RunnerState, turn: Turn) {
    if turn.Again? then
      exists d :: failure.Some? && number < env.retry.limit
        && DecidedFor(env.retry, failure.value, number, d) && SleepsIn(turn.after) == SleepsIn(s) + [d]
    else SleepsIn(turn.after) == SleepsIn(s)
  }

  lemma TurnSleeps(env: Env, config: Configuration, i: nat, number: nat, choice: Choice, s: RunnerState)
    requires i < |env.steps|
    ensures SleepsTurn(env, number, Attempt(env, config, i, number, choice, s).1, s,
                       TakeTurn(env, config, i, number, choice, s))
  {
    var mid, saved, tail := TurnHasShape(env, config, i, number, choice, s);
    var turn := TakeTurn(env, config, i, number, choice, s);
    var succeeded := turn.Over? && turn.end.StepDone?;
    SeqAssociates(s.log, AttemptEvents(i, number, s.machine, mid.machine, saved, succeeded), tail);
    SleepsOfTurn(i, number, s.machine, mid.machine, saved, succeeded, tail);
    CollectConcat(DelayOf, s.log, TurnEvents(i, number, s.machine, mid.machine, saved, succeeded, tail));
    if turn.Again? {
      assert SleepsIn(turn.after) == SleepsIn(s) + [tail[0].delay];
    } else {
      assert SleepsIn(s) + [] == SleepsIn(s);
    }
  }

  ghost predicate SleptSoFar(env: Env, failures: Failures, count: nat, s: RunnerState, t: RunnerState) {
    count < env.retry.limit && SleptAsDecided(env.retry, failures, count, SleepsIn(s), SleepsIn(t))
  }

  ghost function SleptInv(env: Env, failures: Failures, s: RunnerState): TurnInv {
    (n: nat, t: RunnerState) => SleptSoFar(env, failures, n, s, t)
  }

  ghost function SleptPost(env: Env, failures: Failures, s: RunnerState): TurnPost {
    (after: RunnerState, end: StepEnd) => exists count :: SleptSoFar(env, failures, count, s, after)
  }

  lemma OneMoreSleep(rules: Rules, failures: Failures, count: nat, before: seq<real>, sofar: seq<real>, d: real)
    requires SleptAsDecided(rules, failures, count, before, sofar)
    requires failures(count + 1).Some? && DecidedFor(rules, failures(count + 1).value, count + 1, d)
    ensures SleptAsDecided(rules, failures, count + 1, before, sofar + [d])
  {
  }

  lemma SleptAfterTurn(env: Env, failures: Failures, s: RunnerState, n: nat, t: RunnerState, turn: Turn)
    requires SleptInv(env, failures, s)(n, t) && SleepsTurn(env, n + 1, failures(n + 1), t, turn)
    ensures CarriesTurn(turn, n, SleptInv(env, failures, s), SleptPost(env, failures, s))
  {
    if turn.Again? {
      var d :| failures(n + 1).Some? && DecidedFor(env.retry, failures(n + 1).value, n + 1, d)
               && SleepsIn(turn.after) == SleepsIn(t) + [d];
      OneMoreSleep(env.retry, failures, n, SleepsIn(s), SleepsIn(t), d);
    } else {
      assert SleptSoFar(env, failures, n, s, turn.after);
    }
  }

  lemma ReachedTurnSleeps(env: Env, config: Configuration, i: nat, oracle: Oracle, s: RunnerState, n: nat)
    requires i < |env.steps|
    ensures var turns := TurnsOf(env, config, i, oracle);
            var t := BeforeAttempt(turns, n, EnterStep(s, env.steps[i]));
            SleepsTurn(env, n + 1, FailuresOf(env, config, i, oracle, s)(n + 1), t, turns(n, t))
  {
    ReachedTurn(env, config, i, oracle, s, n);
    TurnSleeps(env, config, i, n + 1, oracle(i, n + 1),
               BeforeAttempt(TurnsOf(env, config, i, oracle), n, EnterStep(s, env.steps[i])));
  }

  lemma SleepingTurns(env: Env, config: Configuration, i: nat, oracle: Oracle, s: RunnerState)
    requires i < |env.steps|
    ensures var failures := FailuresOf(env, config, i, oracle, s);
            ReachedTurnsCarry(TurnsOf(env, config, i, oracle), EnterStep(s, env.steps[i]),
                              SleptInv(env, failures, s), SleptPost(env, failures, s))
  {
    var failures := FailuresOf(env, config, i, oracle, s);
    var inv, post := SleptInv(env, failures, s), SleptPost(env, failures, s);
    var turns, entered := TurnsOf(env, config, i, oracle), EnterStep(s, env.steps[i]);
    forall n: nat | inv(n, BeforeAttempt(turns, n, entered))
      ensures CarriesTurn(turns(n, BeforeAttempt(turns, n, entered)), n, inv, post)
    {
      ReachedTurnSleeps(env, config, i, oracle, s, n);
      SleptAfterTurn(env, failures, s, n, BeforeAttempt(turns, n, entered), turns(n, BeforeAttempt(turns, n, entered)));
    }
  }

  /** Within one step the runner sleeps once before each further attempt, as the
      rules decide for the failure of the attempt before it. */
  lemma StepSleeps(env: Env, config: Configuration, i: nat, oracle: Oracle, s: RunnerState) returns (count: nat)
    requires i < |env.steps|
    ensures SleptSoFar(env, FailuresOf(env, config, i, oracle, s), count, s, RunStep(env, config, i, oracle, s).0)
  {
    var failures := FailuresOf(env, config, i, oracle, s);
    EnterStepCollects(DelayOf, s, env.steps[i]);
    SleepingTurns(env, config, i, oracle, s);
    assert env.retry.limit >= 1;
    RunStepReachedRule(env, config, i, oracle, s, SleptInv(env, failures, s), SleptPost(env, failures, s));
    count :| SleptSoFar(env, failures, count, s, RunStep(env, config, i, oracle, s).0);
  }

  function Longer(a: real, b: real): real {
    if b > a then b else a
  }

  lemma DecidedDelayIsTheLonger(policy: ValidPolicy, classifier: Option<Failure -> bool>, f: Failure, number: nat,
                                d: real)
    requires number >= 1 && DecidedFor(RulesOf(Some(policy), classifier), f, number, d)
    ensures d == Longer(CalculateDelay(policy, number, true), Wish(f))
    ensures Retryable(classifier, f) && number < policy.maxAttempts
  {
    assert RulesOf(Some(policy), classifier).decide(f, number) == DecideRetry(Some(policy), classifier, f, number);
  }

  /** Under a retry policy, the k-th sleep of a step follows a retryable failure of
      attempt k and is the longer of the policy's delay for attempt k and what that
      failure asked for; there are fewer sleeps than the maximum number of attempts. */
  lemma SleepsFollowThePolicy(env: Env, policy: ValidPolicy, classifier: Option<Failure -> bool>,
                              config: Configuration, i: nat, oracle: Oracle, s: RunnerState, k: nat)
    requires i < |env.steps| && env.retry == RulesOf(Some(policy), classifier)
    requires 1 <= k <= |SleepsIn(RunStep(env, config, i, oracle, s).0)| - |SleepsIn(s)|
    ensures var slept := SleepsIn(RunStep(env, config, i, oracle, s).0);
            var failure := FailuresOf(env, config, i, oracle, s)(k);
            && failure.Some? && Retryable(classifier, failure.value)
            && slept[|SleepsIn(s)| + k - 1] == Longer(CalculateDelay(policy, k, true), Wish(failure.value))
    ensures k < policy.maxAttempts
  {
    var count := StepSleeps(env, config, i, oracle, s);
    var slept, failure := SleepsIn(RunStep(env, config, i, oracle, s).0), FailuresOf(env, config, i, oracle, s)(k);
    assert failure.Some? && DecidedFor(env.retry, failure.value, k, slept[|SleepsIn(s)| + k - 1]);
    DecidedDelayIsTheLonger(policy, classifier, failure.value, k, slept[|SleepsIn(s)| + k - 1]);
  }

  // ----- the states a run visits -----

  function StatesIn(s: RunnerState): seq<MigrationState> {
    Collect(StateOf, s.log)
  }

  /** From this position on, states never go back in the lifecycle, and the last one is the machine's. */
  ghost predicate InOrder(states: seq<MigrationState>, from: nat, machine: MigrationState) {
    && from < |states|
    && states[|states| - 1] == machine
    && forall j, k :: from <= j < k < |states| ==> LifecycleRank(states[j]) <= LifecycleRank(states[k])
  }

  lemma OneMoreState(states: seq<MigrationState>, from: nat, machine: MigrationState, state: MigrationState)
    requires InOrder(states, from, machine) && LifecycleRank(machine) <= LifecycleRank(state)
    ensures InOrder(states + [state], from, state)
  {
    assert states[|states| - 1] == machine;
  }

  /** The highest lifecycle rank a step may be started in. */
  function StartRank(step: Step): nat {
    if StepState(step).Some? then LifecycleRank(StepState(step).value) else LifecycleRank(Completed)
  }

  /** In rank order a step's state never lies before the states of earlier steps. */
  lemma StartRanksFollowRanks(a: Step, b: Step)
    requires Rank(a) <= Rank(b)
    ensures StartRank(a) <= StartRank(b)
  {
  }

  ghost predicate Orderly(from: nat, ceiling: nat, t: RunnerState) {
    && InOrder(StatesIn(t), from, t.machine)
    && (t.machine == Completed || LifecycleRank(t.machine) <= ceiling)
    && LifecycleRank(t.machine) <= LifecycleRank(Completed)
  }

  lemma EnterInOrder(s: RunnerState, from: nat, state: MigrationState)
    requires InOrder(StatesIn(s), from, s.machine) && LifecycleRank(s.machine) <= LifecycleRank(state)
    ensures InOrder(StatesIn(Enter(s, state)), from, Enter(s, state).machine)
  {
    CollectLogged(StateOf, s.(machine := state), Entered(state));
    OneMoreState(StatesIn(s), from, s.machine, state);
  }

  lemma EnterStaysOrderly(s: RunnerState, from: nat, ceiling: nat, state: MigrationState)
    requires Orderly(from, ceiling, s) && LifecycleRank(state) == ceiling < LifecycleRank(Completed)
    ensures Orderly(from, ceiling, Enter(s, state))
  {
    if s.machine != Completed {
      EnterInOrder(s, from, state);
    }
  }

  lemma StepStateRank(step: Step)
    requires StepState(step).Some?
    ensures LifecycleRank(StepState(step).value) == StartRank(step) < LifecycleRank(Completed)
  {
  }

  lemma EnterStepInOrder(s: RunnerState, from: nat, step: Step)
    requires Orderly(from, StartRank(step), s)
    ensures Orderly(from, StartRank(step), EnterStep(s, step))
  {
    var state := StepState(step);
    if state.Some? {
      StepStateRank(step);
      EnterStaysOrderly(s, from, StartRank(step), state.value);
    }
  }

  /** The states a turn visits: the body's, then FAILED if the run ends there. */
  ghost predicate TurnStates(s: RunnerState, turn: Turn, moved: MigrationState) {
    && StatesIn(turn.after) == StatesIn(s) + (if s.machine != moved then [moved] else [])
                               + (if turn.Over? && turn.end.StepFailed? then [Failed] else [])
    && turn.after.machine == (if turn.Over? && turn.end.StepFailed? then Failed else moved)
  }

  lemma StatesInTurn(i: nat, number: nat, before: MigrationState, after: MigrationState,
                     saved: bool, succeeded: bool, tail: seq<Event>)
    requires |tail| <= 1 && (tail != [] ==> tail[0].Slept? || tail[0] == Entered(Failed))
    ensures Collect(StateOf, TurnEvents(i, number, before, after, saved, succeeded, tail))
         == (if before != after then [after] else []) + (if tail != [] && tail[0].Entered? then [Failed] else [])
  {
    CollectTurn(StateOf, i, number, before, after, saved, succeeded, tail);
  }

  lemma TurnVisits(env: Env, config: Configuration, i: nat, number: nat, choice: Choice, s: RunnerState)
    returns (moved: MigrationState)
    requires i < |env.steps|
    ensures TurnStates(s, TakeTurn(env, config, i, number, choice, s), moved)
    ensures moved == Attempt(env, config, i, number, choice, s).0.machine
    ensures TakeTurn(env, config, i, number, choice, s).Over?
            && TakeTurn(env, config, i, number, choice, s).end.StepEscaped?
            ==> !CanTransition(moved, Failed)
  {
    var mid, saved, tail := TurnHasShape(env, config, i, number, choice, s);
    moved := mid.machine;
    var turn := TakeTurn(env, config, i, number, choice, s);
    var succeeded := turn.Over? && turn.end.StepDone?;
    var events := AttemptEvents(i, number, s.machine, moved, saved, succeeded);
    SeqAssociates(s.log, events, tail);
    StatesInTurn(i, number, s.machine, moved, saved, succeeded, tail);
    CollectConcat(StateOf, s.log, events + tail);
    SeqAssociates(StatesIn(s), if s.machine != moved then [moved] else [],
                  if turn.Over? && turn.end.StepFailed? then [Failed] else []);
  }

  /** The state a body may move an orderly machine to. */
  lemma AttemptStaysOrderly(env: Env, config: Configuration, i: nat, number: nat, choice: Choice, s: RunnerState)
    requires i < |env.steps| && MovesOnlyAtTheEnd(env.bodies)
    requires LifecycleRank(s.machine) <= LifecycleRank(Completed)
    ensures var m := Attempt(env, config, i, number, choice, s).0.machine;
            m == s.machine || m == Completed
  {
    var step := env.steps[i];
    assert MovesAsExpected(step, s.machine,
                           env.bodies.complete(config, step, choice, true, s.machine, s.world).machine);
    assert MovesAsExpected(step, s.machine, env.bodies.stopped(config, step, choice, true, s.machine, s.world).machine);
  }

  /** How a step leaves the states: orderly, or in FAILED after an orderly walk, or stuck in COMPLETED. */
  ghost predicate OrderlyEnd(from: nat, ceiling: nat, after: RunnerState, end: StepEnd) {
    match end
    case StepDone => Orderly(from, ceiling, after)
    case StepFailed(_, _) => InOrder(StatesIn(after), from, after.machine) && after.machine == Failed
    case StepEscaped => InOrder(StatesIn(after), from, after.machine) && after.machine == Completed
  }

  ghost function OrderInv(from: nat, ceiling: nat): TurnInv {
    (n: nat, t: RunnerState) => Orderly(from, ceiling, t)
  }

  ghost function OrderPost(from: nat, ceiling: nat): TurnPost {
    (after: RunnerState, end: StepEnd) => OrderlyEnd(from, ceiling, after, end)
  }

  lemma OrderAfterTurn(from: nat, ceiling: nat, n: nat, s: RunnerState, turn: Turn, moved: MigrationState)
    requires OrderInv(from, ceiling)(n, s) && TurnStates(s, turn, moved) && (moved == s.machine || moved == Completed)
    requires turn.Over? && turn.end.StepEscaped? ==> !CanTransition(moved, Failed)
    ensures CarriesTurn(turn, n, OrderInv(from, ceiling), OrderPost(from, ceiling))
  {
    var states := StatesIn(s) + (if s.machine != moved then [moved] else []);
    if s.machine != moved {
      OneMoreState(StatesIn(s), from, s.machine, moved);
    } else {
      assert StatesIn(s) + [] == StatesIn(s);
    }
    assert InOrder(states, from, moved);
    if turn.Over? && turn.end.StepFailed? {
      OneMoreState(states, from, moved, Failed);
    } else {
      assert states + [] == states;
    }
  }

  lemma OrderlyMachine(from: nat, ceiling: nat, n: nat, s: RunnerState)
    requires OrderInv(from, ceiling)(n, s)
    ensures LifecycleRank(s.machine) <= LifecycleRank(Completed)
  {
  }

  lemma TurnCarriesOrder(env: Env, config: Configuration, i: nat, oracle: Oracle, from: nat, ceiling: nat, n: nat,
                         t: RunnerState)
    requires i < |env.steps| && MovesOnlyAtTheEnd(env.bodies) && OrderInv(from, ceiling)(n, t)
    ensures CarriesTurn(TakeTurn(env, config, i, n + 1, oracle(i, n + 1), t), n, OrderInv(from, ceiling),
                        OrderPost(from, ceiling))
  {
    OrderlyMachine(from, ceiling, n, t);
    var moved := TurnVisits(env, config, i, n + 1, oracle(i, n + 1), t);
    AttemptStaysOrderly(env, config, i, n + 1, oracle(i, n + 1), t);
    OrderAfterTurn(from, ceiling, n, t, TakeTurn(env, config, i, n + 1, oracle(i, n + 1), t), moved);
  }

  lemma OrderlyTurns(env: Env, config: Configuration, i: nat, oracle: Oracle, from: nat, ceiling: nat)
    requires i < |env.steps| && MovesOnlyAtTheEnd(env.bodies)
    ensures TurnsCarry(TurnsOf(env, config, i, oracle), OrderInv(from, ceiling), OrderPost(from, ceiling))
  {
    var inv, post := OrderInv(from, ceiling), OrderPost(from, ceiling);
    var turns := TurnsOf(env, config, i, oracle);
    forall n: nat, t | inv(n, t) ensures CarriesTurn(turns(n, t), n, inv, post) {
      TurnsApply(env, config, i, oracle, n, t);
      TurnCarriesOrder(env, config, i, oracle, from, ceiling, n, t);
    }
  }

  lemma StepStaysInOrder(env: Env, config: Configuration, i: nat, oracle: Oracle, from: nat, s: RunnerState)
    requires i < |env.steps| && MovesOnlyAtTheEnd(env.bodies) && Orderly(from, StartRank(env.steps[i]), s)
    ensures OrderlyEnd(from, StartRank(env.steps[i]),
                       RunStep(env, config, i, oracle, s).0, RunStep(env, config, i, oracle, s).1)
  {
    var ceiling := StartRank(env.steps[i]);
    EnterStepInOrder(s, from, env.steps[i]);
    OrderlyTurns(env, config, i, oracle, from, ceiling);
    RunStepRule(env, config, i, oracle, s, OrderInv(from, ceiling), OrderPost(from, ceiling));
  }

  /** The rank up to which the machine may have come when step i is about to start. */
  function Ceiling(steps: seq<Step>, i: nat): nat {
    if i < |steps| then StartRank(steps[i]) else LifecycleRank(Completed)
  }

  ghost function WalkInv(env: Env, from: nat): StepInv {
    (i: nat, t: RunnerState) => Orderly(from, Ceiling(env.steps, i), t)
  }

  ghost function WalkPost(from: nat): RunPost {
    (after: RunnerState, end: RunEnd) =>
      InOrder(StatesIn(after), from, after.machine) && (after.machine == Completed || after.machine == Failed)
  }

  lemma CeilingGrows(steps: seq<Step>, i: nat, from: nat, t: RunnerState)
    requires i < |steps| && Sorted(Rank, steps) && Orderly(from, StartRank(steps[i]), t)
    ensures Orderly(from, Ceiling(steps, i + 1), t)
  {
    if i + 1 < |steps| {
      assert Rank(steps[i]) <= Rank(steps[i + 1]);
      StartRanksFollowRanks(steps[i], steps[i + 1]);
    }
  }

  lemma StepCarriesWalk(env: Env, config: Configuration, oracle: Oracle, from: nat, start: nat, j: nat, t: RunnerState)
    requires j < |env.steps| && MovesOnlyAtTheEnd(env.bodies) && Sorted(Rank, env.steps) && WalkInv(env, from)(j, t)
    ensures CarriesStep(RunStep(env, config, j, oracle, t), start, j, WalkInv(env, from), WalkPost(from))
  {
    StepStaysInOrder(env, config, j, oracle, from, t);
    var (after, end) := RunStep(env, config, j, oracle, t);
    if end.StepDone? {
      CeilingGrows(env.steps, j, from, after);
    } else if end.StepFailed? {
      RollbackKeeps(StateOf, after, start, j);
    }
  }

  lemma EndCarriesWalk(env: Env, from: nat, t: RunnerState)
    requires WalkInv(env, from)(|env.steps|, t)
    ensures CarriesEnd(t, |env.steps|, WalkPost(from))
  {
    if CanTransition(t.machine, Completed) {
      EnterInOrder(t, from, Completed);
    }
  }

  lemma FreshStartInOrder(env: Env, s: RunnerState)
    requires env.initialState.Some? ==> !Terminal(env.initialState.value)
    ensures Orderly(|StatesIn(s)|, Ceiling(env.steps, 0), FreshStart(env, s))
  {
    var initial := if env.initialState.Some? then env.initialState.value else MigrationState.Created;
    var before := s.(machine := initial, counters := None, world := s.world.(ctx := NO_DATA));
    CollectLogged(StateOf, before.(machine := Initializing), Entered(Initializing));
  }

  /** A fresh run over rank-sorted steps visits lifecycle states that never go
      backwards in canonical order, and ends in COMPLETED or FAILED. */
  lemma LifecycleNeverGoesBack(env: Env, oracle: Oracle, s: RunnerState)
    requires MovesOnlyAtTheEnd(env.bodies) && Sorted(Rank, env.steps)
    requires env.initialState.Some? ==> !Terminal(env.initialState.value)
    ensures var after := RunFresh(env, oracle, s).0;
            && InOrder(StatesIn(after), |StatesIn(s)|, after.machine)
            && (after.machine == Completed || after.machine == Failed)
  {
    var from, config := |StatesIn(s)|, FreshConfig(env);
    FreshStartInOrder(env, s);
    var inv, post := WalkInv(env, from), WalkPost(from);
    var runners := RunnersOf(env, config, oracle);
    forall j: nat, t | j < |runners| && inv(j, t) ensures CarriesStep(runners[j](t), 0, j, inv, post) {
      RunnersApply(env, config, oracle, j, t);
      StepCarriesWalk(env, config, oracle, from, 0, j, t);
    }
    forall t | inv(|env.steps|, t) ensures CarriesEnd(t, |env.steps|, post) {
      EndCarriesWalk(env, from, t);
    }
    RunStepsRule(env, config, 0, oracle, FreshStart(env, s), inv, post);
  }

  // ----- exceptions that leave run() -----

  /** A failure that is not retried leaves run() as an exception, instead of ending in
      FAILED, if and only if the machine is in a terminal state other than FAILED: it was
      cancelled before the attempt, or the attempt's body has already completed it. */
  lemma EscapesExactlyAfterCompleted(env: Env, config: Configuration, i: nat, number: nat, choice: Choice,
                                     s: RunnerState)
    requires i < |env.steps|
    requires Attempt(env, config, i, number, choice, s).1.Some?
    requires TakeTurn(env, config, i, number, choice, s).Over?
    ensures var escaped, m := TakeTurn(env, config, i, number, choice, s).end.StepEscaped?,
                              Attempt(env, config, i, number, choice, s).0.machine;
            && (escaped <==> Terminal(m) && m != Failed)
            && (MovesOnlyAtTheEnd(env.bodies) ==> (escaped <==> s.machine == Cancelled || m == Completed))
  {
    if MovesOnlyAtTheEnd(env.bodies) {
      if Healthy(s.machine) {
        AttemptStaysHealthy(env, config, i, number, choice, s);
      } else {
        AttemptStaysStuck(env, config, i, number, choice, s);
      }
    }
  }

  /** Such a failure exists: saving the checkpoint of the final step fails. */
  lemma FailedFinalSaveEscapes(env: Env, plan: Plan, config: Configuration, i: nat, number: nat, choice: Choice,
                               s: RunnerState)
    requires env.bodies == MigrationBodies(plan) && i < |env.steps| && env.steps[i] == FinalizeMigration
    requires !Terminal(s.machine)
    requires choice.fault.Some? && choice.fault.value.phase == InSave(false)
    requires env.retry.decide(choice.fault.value.failure, number).None?
    ensures TakeTurn(env, config, i, number, choice, s)
            == Over(Attempt(env, config, i, number, choice, s).0, StepEscaped)
  {
  }
}
