/** When an attempt is retried, how long the runner waits, and what its retry counters count. */
module RetryCounts {
  import opened Prelude
  import opened Records
  import opened StateMachine
  import opened StepRegistries
  import opened RetryPolicies
  import opened ErrorBreakdowns
  import opened StepBodies
  import opened Runner
  import opened RunnerProtocol
  import opened RunHistory

  // ----- when an attempt is retried -----

  /** The classifier's judgement; without a classifier, whether the failure asks to be retried at all. */
  predicate JudgedRetryable(classifier: Option<Failure -> bool>, failure: Failure) {
    match classifier
    case Some(judge) => judge(failure)
    case None => failure.hasRetryAfter
  }

  predicate GrantsRetry(policy: Option<ValidPolicy>, classifier: Option<Failure -> bool>, failure: Failure,
                        number: nat)
  {
    && policy.Some? && policy.value.strategy != NoRetry && number < policy.value.maxAttempts
    && JudgedRetryable(classifier, failure)
  }

  lemma DecisionGrants(policy: Option<ValidPolicy>, classifier: Option<Failure -> bool>, failure: Failure, number: nat)
    requires number >= 1
    ensures var decision := RulesOf(policy, classifier).decide(failure, number);
            decision.Some? && decision.value.shouldRetry <==> GrantsRetry(policy, classifier, failure, number)
  {
    assert RulesOf(policy, classifier).decide(failure, number) == DecideRetry(policy, classifier, failure, number);
  }

  lemma RetriedAsDecided(env: Env, config: Configuration, i: nat, number: nat, choice: Choice, s: RunnerState)
    requires i < |env.steps|
    ensures var failure := Attempt(env, config, i, number, choice, s).1;
            TakeTurn(env, config, i, number, choice, s).Again?
            <==> failure.Some? && env.retry.decide(failure.value, number).Some?
                 && env.retry.decide(failure.value, number).value.shouldRetry
  {
  }

  /** An attempt is retried if and only if it failed, there is a policy that retries at all, the
      failure is retryable, and attempts are left. */
  lemma RetriedExactlyWhen(env: Env, policy: Option<ValidPolicy>, classifier: Option<Failure -> bool>,
                           config: Configuration, i: nat, number: nat, choice: Choice, s: RunnerState)
    requires i < |env.steps| && number >= 1 && env.retry == RulesOf(policy, classifier)
    ensures var failure := Attempt(env, config, i, number, choice, s).1;
            TakeTurn(env, config, i, number, choice, s).Again?
            <==> failure.Some? && GrantsRetry(policy, classifier, failure.value, number)
  {
    RetriedAsDecided(env, config, i, number, choice, s);
    var failure := Attempt(env, config, i, number, choice, s).1;
    if failure.Some? {
      DecisionGrants(policy, classifier, failure.value, number);
    }
  }

  // ----- fixed delays -----

  /** Under a fixed delay the k-th sleep of a step is that delay, or longer only when the failure
      before it asked for longer. */
  lemma FixedSleeps(env: Env, policy: ValidPolicy, classifier: Option<Failure -> bool>, config: Configuration, i: nat,
                    oracle: Oracle, s: RunnerState, k: nat)
    requires i < |env.steps| && env.retry == RulesOf(Some(policy), classifier) && policy.strategy == FixedDelay
    requires 1 <= k <= |SleepsIn(RunStep(env, config, i, oracle, s).0)| - |SleepsIn(s)|
    ensures var slept := SleepsIn(RunStep(env, config, i, oracle, s).0)[|SleepsIn(s)| + k - 1];
            var failure := FailuresOf(env, config, i, oracle, s)(k);
            && failure.Some?
            && slept == (if failure.value.hasRetryAfter && failure.value.retryAfter > policy.fixedDelay
                         then failure.value.retryAfter else policy.fixedDelay)
  {
    SleepsFollowThePolicy(env, policy, classifier, config, i, oracle, s, k);
    DelayWithoutBackoff(policy, k);
  }

  /** Without a policy, or under one that does not retry, a step is attempted once. */
  lemma NeverRetried(env: Env, policy: Option<ValidPolicy>, classifier: Option<Failure -> bool>,
                     config: Configuration, i: nat, oracle: Oracle, s: RunnerState)
    requires i < |env.steps| && env.retry == RulesOf(policy, classifier)
    requires policy.None? || policy.value.strategy == NoRetry
    ensures AttemptsIn(RunStep(env, config, i, oracle, s).0) == AttemptsIn(s) + [(i, 1)]
  {
    var entered := EnterStep(s, env.steps[i]);
    RetriedExactlyWhen(env, policy, classifier, config, i, 1, oracle(i, 1), entered);
    TurnsStop(env, config, i, oracle);
    TurnsApply(env, config, i, oracle, 0, entered);
    TurnAttempts(env, config, i, 1, oracle(i, 1), entered);
    EnterStepCollects(AttemptOf, s, env.steps[i]);
  }

  // ----- what the counters count -----

  /** The counters, where absent ones are zero. */
  function CountersOf(counters: Option<Counters>): Counters {
    if counters.Some? then counters.value else NO_COUNTERS
  }

  predicate IsThrottling(failure: Failure) {
    failure.statusCode == Some(429)
  }

  predicate IsTemporary(failure: Failure) {
    failure.statusCode == Some(503)
  }

  predicate AsksToWait(failure: Failure) {
    failure.hasRetryAfter && failure.retryAfter > 0.0
  }

  /** How many of the failures 1, 2, ..., n are of a kind. */
  function CountOf(kind: Failure -> bool, failures: Failures, n: nat): nat {
    if n == 0 then 0
    else CountOf(kind, failures, n - 1) + (if failures(n).Some? && kind(failures(n).value) then 1 else 0)
  }

  /** Merging what a custom step reports with what the runner has counted gives the least
      counters above both. */
  lemma MergedCountersAreLeast(reported: Option<Counters>, counted: Option<Counters>)
    ensures NoHigher(reported, MergeCounters(reported, counted)) && NoHigher(counted, MergeCounters(reported, counted))
    ensures forall c :: NoHigher(reported, c) && NoHigher(counted, c) ==> NoHigher(MergeCounters(reported, counted), c)
  {
  }

  lemma FinishKeepsCounters(env: Env, config: Configuration, i: nat, choice: Choice, keepsRetried: bool, s: RunnerState)
    requires i < |env.steps| && !env.steps[i].Custom?
    ensures CountersOf(FinishAttempt(env, config, i, choice, keepsRetried, s).0.counters) == CountersOf(s.counters)
  {
  }

  /** A migration step adds nothing to the counters itself. */
  lemma AttemptKeepsCounters(env: Env, config: Configuration, i: nat, number: nat, choice: Choice, s: RunnerState)
    requires i < |env.steps| && !env.steps[i].Custom?
    ensures CountersOf(Attempt(env, config, i, number, choice, s).0.counters) == CountersOf(s.counters)
  {
    var begun := Logged(s, Attempted(i, number));
    if choice.fault.None? || choice.fault.value.phase.InFinalize? || choice.fault.value.phase.InSave? {
      var b := env.bodies.complete(config, env.steps[i], choice, true, begun.machine, begun.world);
      if b.ok {
        FinishKeepsCounters(env, config, i, choice, b.keepsRetried, AfterBody(begun, b));
      }
    }
  }

  predicate Bumped(before: nat, after: nat, counts: bool) {
    after == before + if counts then 1 else 0
  }

  /** What a turn does to the counters: a retry counts one, and its failure by kind. */
  ghost predicate CountsTurn(failure: Option<Failure>, s: RunnerState, turn: Turn) {
    var before, after := CountersOf(s.counters), CountersOf(turn.after.counters);
    if turn.Again? then
      && failure.Some?
      && after.retried == before.retried + 1
      && Bumped(before.throttled, after.throttled, IsThrottling(failure.value))
      && Bumped(before.temporary, after.temporary, IsTemporary(failure.value))
      && Bumped(before.retryAfters, after.retryAfters, AsksToWait(failure.value))
    else after == before
  }

  lemma TurnCounts(env: Env, config: Configuration, i: nat, number: nat, choice: Choice, s: RunnerState)
    requires i < |env.steps| && !env.steps[i].Custom?
    ensures CountsTurn(Attempt(env, config, i, number, choice, s).1, s, TakeTurn(env, config, i, number, choice, s))
  {
    AttemptKeepsCounters(env, config, i, number, choice, s);
  }

  /** The counters after n retries of one step. */
  ghost predicate CountedSoFar(failures: Failures, n: nat, before: Counters, after: Counters) {
    && after.retried == before.retried + n
    && after.throttled == before.throttled + CountOf(IsThrottling, failures, n)
    && after.temporary == before.temporary + CountOf(IsTemporary, failures, n)
    && after.retryAfters == before.retryAfters + CountOf(AsksToWait, failures, n)
  }

  ghost predicate CountedAndSlept(failures: Failures, n: nat, s: RunnerState, t: RunnerState) {
    && CountedSoFar(failures, n, CountersOf(s.counters), CountersOf(t.counters))
    && |SleepsIn(t)| == |SleepsIn(s)| + n
  }

  ghost function CountedInv(failures: Failures, s: RunnerState): TurnInv {
    (n: nat, t: RunnerState) => CountedAndSlept(failures, n, s, t)
  }

  ghost function CountedPost(failures: Failures, s: RunnerState): TurnPost {
    (after: RunnerState, end: StepEnd) => exists n :: CountedAndSlept(failures, n, s, after)
  }

  /** What a turn does to the number of sleeps. */
  ghost predicate SleepsOnce(s: RunnerState, turn: Turn) {
    |SleepsIn(turn.after)| == |SleepsIn(s)| + if turn.Again? then 1 else 0
  }

  lemma TurnSleepsOnce(env: Env, config: Configuration, i: nat, number: nat, choice: Choice, s: RunnerState)
    requires i < |env.steps|
    ensures SleepsOnce(s, TakeTurn(env, config, i, number, choice, s))
  {
    TurnSleeps(env, config, i, number, choice, s);
  }

  lemma CountedAfterTurn(failures: Failures, s: RunnerState, n: nat, t: RunnerState, turn: Turn)
    requires CountedInv(failures, s)(n, t) && CountsTurn(failures(n + 1), t, turn) && SleepsOnce(t, turn)
    ensures CarriesTurn(turn, n, CountedInv(failures, s), CountedPost(failures, s))
  {
    if turn.Again? {
      assert CountedAndSlept(failures, n + 1, s, turn.after);
    } else {
      assert CountedAndSlept(failures, n, s, turn.after);
    }
  }

  lemma ReachedTurnCounts(env: Env, config: Configuration, i: nat, oracle: Oracle, s: RunnerState, n: nat)
    requires i < |env.steps| && !env.steps[i].Custom?
    ensures var turns := TurnsOf(env, config, i, oracle);
            var t := BeforeAttempt(turns, n, EnterStep(s, env.steps[i]));
            && CountsTurn(FailuresOf(env, config, i, oracle, s)(n + 1), t, turns(n, t))
            && SleepsOnce(t, turns(n, t))
  {
    var t := BeforeAttempt(TurnsOf(env, config, i, oracle), n, EnterStep(s, env.steps[i]));
    ReachedTurn(env, config, i, oracle, s, n);
    TurnCounts(env, config, i, n + 1, oracle(i, n + 1), t);
    TurnSleepsOnce(env, config, i, n + 1, oracle(i, n + 1), t);
  }

  lemma CountedTurns(env: Env, config: Configuration, i: nat, oracle: Oracle, s: RunnerState)
    requires i < |env.steps| && !env.steps[i].Custom?
    ensures var failures := FailuresOf(env, config, i, oracle, s);
            ReachedTurnsCarry(TurnsOf(env, config, i, oracle), EnterStep(s, env.steps[i]),
                              CountedInv(failures, s), CountedPost(failures, s))
  {
    var failures := FailuresOf(env, config, i, oracle, s);
    var inv, post := CountedInv(failures, s), CountedPost(failures, s);
    var turns, entered := TurnsOf(env, config, i, oracle), EnterStep(s, env.steps[i]);
    forall n: nat | inv(n, BeforeAttempt(turns, n, entered))
      ensures CarriesTurn(turns(n, BeforeAttempt(turns, n, entered)), n, inv, post)
    {
      ReachedTurnCounts(env, config, i, oracle, s, n);
      CountedAfterTurn(failures, s, n, BeforeAttempt(turns, n, entered), turns(n, BeforeAttempt(turns, n, entered)));
    }
  }

  /** Over the attempts of one migration step the counters grow by exactly its retries, and among
      the retried failures by those with status 429, those with status 503, and those that ask
      to wait. */
  lemma StepCountsItsFailures(env: Env, config: Configuration, i: nat, oracle: Oracle, s: RunnerState)
    requires i < |env.steps| && !env.steps[i].Custom?
    ensures var after, failures := RunStep(env, config, i, oracle, s).0, FailuresOf(env, config, i, oracle, s);
            && |SleepsIn(s)| <= |SleepsIn(after)|
            && CountedSoFar(failures, |SleepsIn(after)| - |SleepsIn(s)|, CountersOf(s.counters),
                            CountersOf(after.counters))
  {
    var failures, entered := FailuresOf(env, config, i, oracle, s), EnterStep(s, env.steps[i]);
    EnterStepCollects(DelayOf, s, env.steps[i]);
    EnterStepMoves(s, env.steps[i]);
    CountedTurns(env, config, i, oracle, s);
    assert CountedAndSlept(failures, 0, s, entered);
    RunStepReachedRule(env, config, i, oracle, s, CountedInv(failures, s), CountedPost(failures, s));
  }

  // ----- how a step fails -----

  /** The attempts 1, 2, ..., n of step i. */
  function NumberedAttempts(i: nat, n: nat): seq<(nat, nat)> {
    if n == 0 then [] else NumberedAttempts(i, n - 1) + [(i, n)]
  }

  /** Before an attempt the step has its first context again, and n attempts behind it. */
  ghost predicate AttemptedSoFar(i: nat, n: nat, s: RunnerState, t: RunnerState) {
    t.world.ctx == s.world.ctx && AttemptsIn(t) == AttemptsIn(s) + NumberedAttempts(i, n)
  }

  /** What a failed step tells the report: the context it was given, its name, the attempts it took,
      and whether the failure of the last one could have been retried. */
  ghost predicate TellsOfFailure(env: Env, i: nat, failures: Failures, s: RunnerState, after: RunnerState, end: StepEnd)
    requires i < |env.steps|
  {
    end.StepFailed? ==>
      && end.ctx == s.world.ctx
      && end.step.name == ClassName(env.steps[i])
      && end.step.attempts >= 1 && failures(end.step.attempts).Some?
      && AttemptsIn(after) == AttemptsIn(s) + NumberedAttempts(i, end.step.attempts)
      && (end.step.retryable <==> env.retry.decide(failures(end.step.attempts).value, end.step.attempts).Some?)
  }

  ghost function AttemptedInv(i: nat, s: RunnerState): TurnInv {
    (n: nat, t: RunnerState) => AttemptedSoFar(i, n, s, t)
  }

  ghost function FailurePost(env: Env, i: nat, failures: Failures, s: RunnerState): TurnPost
    requires i < |env.steps|
  {
    (after: RunnerState, end: StepEnd) => TellsOfFailure(env, i, failures, s, after, end)
  }

  /** What a turn that fails the step tells of it, and that one taken again restores the context. */
  ghost predicate FailsTurn(env: Env, i: nat, number: nat, failure: Option<Failure>, s: RunnerState, turn: Turn)
    requires i < |env.steps|
  {
    && AttemptsIn(turn.after) == AttemptsIn(s) + [(i, number)]
    && (turn.Again? ==> turn.after.world.ctx == s.world.ctx)
    && (turn.Over? && turn.end.StepFailed? ==>
          && failure.Some? && turn.end.ctx == s.world.ctx
          && turn.end.step == FailedStep(ClassName(env.steps[i]), env.retry.decide(failure.value, number).Some?,
                                         number))
  }

  lemma TurnFails(env: Env, config: Configuration, i: nat, number: nat, choice: Choice, s: RunnerState)
    requires i < |env.steps|
    ensures FailsTurn(env, i, number, Attempt(env, config, i, number, choice, s).1, s,
                      TakeTurn(env, config, i, number, choice, s))
  {
    TurnAttempts(env, config, i, number, choice, s);
  }

  lemma AttemptedAfterTurn(env: Env, i: nat, failures: Failures, s: RunnerState, n: nat, t: RunnerState, turn: Turn)
    requires i < |env.steps| && AttemptedInv(i, s)(n, t) && FailsTurn(env, i, n + 1, failures(n + 1), t, turn)
    ensures CarriesTurn(turn, n, AttemptedInv(i, s), FailurePost(env, i, failures, s))
  {
    SeqAssociates(AttemptsIn(s), NumberedAttempts(i, n), [(i, n + 1)]);
  }

  lemma FailingTurns(env: Env, config: Configuration, i: nat, oracle: Oracle, s: RunnerState)
    requires i < |env.steps|
    ensures var failures := FailuresOf(env, config, i, oracle, s);
            ReachedTurnsCarry(TurnsOf(env, config, i, oracle), EnterStep(s, env.steps[i]),
                              AttemptedInv(i, s), FailurePost(env, i, failures, s))
  {
    var failures := FailuresOf(env, config, i, oracle, s);
    var inv, post := AttemptedInv(i, s), FailurePost(env, i, failures, s);
    var turns, entered := TurnsOf(env, config, i, oracle), EnterStep(s, env.steps[i]);
    forall n: nat | inv(n, BeforeAttempt(turns, n, entered))
      ensures CarriesTurn(turns(n, BeforeAttempt(turns, n, entered)), n, inv, post)
    {
      var t := BeforeAttempt(turns, n, entered);
      ReachedTurn(env, config, i, oracle, s, n);
      TurnFails(env, config, i, n + 1, oracle(i, n + 1), t);
      AttemptedAfterTurn(env, i, failures, s, n, t, turns(n, t));
    }
  }

  lemma StepTellsOfFailure(env: Env, config: Configuration, i: nat, oracle: Oracle, s: RunnerState)
    requires i < |env.steps|
    ensures TellsOfFailure(env, i, FailuresOf(env, config, i, oracle, s), s, RunStep(env, config, i, oracle, s).0,
                           RunStep(env, config, i, oracle, s).1)
  {
    var failures := FailuresOf(env, config, i, oracle, s);
    EnterStepCollects(AttemptOf, s, env.steps[i]);
    EnterStepMoves(s, env.steps[i]);
    assert AttemptsIn(s) + [] == AttemptsIn(s);
    assert AttemptedSoFar(i, 0, s, EnterStep(s, env.steps[i]));
    FailingTurns(env, config, i, oracle, s);
    RunStepReachedRule(env, config, i, oracle, s, AttemptedInv(i, s), FailurePost(env, i, failures, s));
  }

  lemma DecisionExists(policy: Option<ValidPolicy>, classifier: Option<Failure -> bool>, failure: Failure, number: nat)
    requires number >= 1
    ensures RulesOf(policy, classifier).decide(failure, number).Some?
       <==> policy.Some? && JudgedRetryable(classifier, failure)
  {
    assert RulesOf(policy, classifier).decide(failure, number) == DecideRetry(policy, classifier, failure, number);
  }

  /** A step that fails was attempted so and so often, without gap, always from the context it was
      given, and its audit entry tells that number, the step's name, and whether a policy was there
      and judged the last failure retryable. */
  lemma FailedStepTells(env: Env, policy: Option<ValidPolicy>, classifier: Option<Failure -> bool>,
                        config: Configuration, i: nat, oracle: Oracle, s: RunnerState)
    requires i < |env.steps| && env.retry == RulesOf(policy, classifier)
    requires RunStep(env, config, i, oracle, s).1.StepFailed?
    ensures var (after, end) := RunStep(env, config, i, oracle, s);
            var failure := FailuresOf(env, config, i, oracle, s)(end.step.attempts);
            && end.ctx == s.world.ctx && end.step.name == ClassName(env.steps[i])
            && AttemptsIn(after) == AttemptsIn(s) + NumberedAttempts(i, end.step.attempts)
            && failure.Some?
            && (end.step.retryable <==> policy.Some? && JudgedRetryable(classifier, failure.value))
  {
    StepTellsOfFailure(env, config, i, oracle, s);
    var end, failures := RunStep(env, config, i, oracle, s).1, FailuresOf(env, config, i, oracle, s);
    DecisionExists(policy, classifier, failures(end.step.attempts).value, end.step.attempts);
  }
}
