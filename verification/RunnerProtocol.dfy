/** What every run keeps, whatever the steps are and wherever attempts raise. */
module RunnerProtocol {
  import opened Prelude
  import opened StateMachine
  import opened StepRegistries
  import opened StableSorting
  import opened StepContexts
  import opened RetryPolicies
  import opened Records
  import opened StepBodies
  import opened Runner
  import Uploads

  // ----- reading the log -----

  function Collect<T>(f: Event -> Option<T>, log: seq<Event>): seq<T> {
    if log == [] then []
    else
      var n := |log| - 1;
      Collect(f, log[..n]) + Picked(f, log[n])
  }

  function Picked<T>(f: Event -> Option<T>, e: Event): seq<T> {
    if f(e).Some? then [f(e).value] else []
  }

  function StateOf(e: Event): Option<MigrationState> {
    if e.Entered? then Some(e.state) else None
  }

  function SaveOf(e: Event): Option<nat> {
    if e.Saved? then Some(e.step) else None
  }

  function SuccessOf(e: Event): Option<nat> {
    if e.Succeeded? then Some(e.step) else None
  }

  function RollbackOf(e: Event): Option<nat> {
    if e.RolledBack? then Some(e.step) else None
  }

  function DelayOf(e: Event): Option<real> {
    if e.Slept? then Some(e.delay) else None
  }

  /** All attempts, as pairs of step position and attempt number. */
  function AttemptOf(e: Event): Option<(nat, nat)> {
    if e.Attempted? then Some((e.step, e.number)) else None
  }

  lemma {:induction false} CollectConcat<T>(f: Event -> Option<T>, a: seq<Event>, b: seq<Event>)
    ensures Collect(f, a + b) == Collect(f, a) + Collect(f, b)
  {
    if b == [] {
      assert a + b == a;
    } else {
      var init := b[..|b| - 1];
      assert (a + b)[..|a + b| - 1] == a + init;
      CollectConcat(f, a, init);
    }
  }

  lemma CollectLogged<T>(f: Event -> Option<T>, s: RunnerState, e: Event)
    ensures Collect(f, Logged(s, e).log) == Collect(f, s.log) + Picked(f, e)
  {
    assert (s.log + [e])[..|s.log|] == s.log;
  }

  /** [from, from + 1, ..., to - 1] */
  function Range(from: nat, to: nat): (r: seq<nat>)
    requires from <= to
    ensures |r| == to - from
  {
    seq(to - from, k requires 0 <= k < to - from => from + k)
  }

  // ----- one attempt -----

  /** The events of one attempt. */
  function AttemptEvents(i: nat, number: nat, before: MigrationState, after: MigrationState, saved: bool,
                         succeeded: bool)
    : seq<Event>
  {
    [Attempted(i, number)]
    + (if before != after then [Entered(after)] else [])
    + (if saved then [Saved(i)] else [])
    + (if succeeded then [Succeeded(i)] else [])
  }

  ghost predicate AttemptShape(env: Env, config: Configuration, i: nat, number: nat, s: RunnerState,
                               after: RunnerState, saved: bool, succeeded: bool)
    requires i < |env.steps|
  {
    && after.log == s.log + AttemptEvents(i, number, s.machine, after.machine, saved, succeeded)
    && after.records == s.records
    && (succeeded ==> saved)
    && after.checkpoints
       == (if saved then s.checkpoints[env.job := BuildCheckpoint(env, config, env.steps[i], after.machine)]
           else s.checkpoints)
  }

  function LosesSave(choice: Choice): bool {
    choice.fault.Some? && choice.fault.value.phase == InSave(true)
  }

  lemma FinishShape(env: Env, config: Configuration, i: nat, choice: Choice, keepsRetried: bool, s: RunnerState)
    returns (saved: bool)
    requires i < |env.steps|
    ensures var (after, failure) := FinishAttempt(env, config, i, choice, keepsRetried, s);
            && after.log == s.log + (if saved then [Saved(i)] else []) + (if failure.None? then [Succeeded(i)] else [])
            && after.records == s.records && after.machine == s.machine && after.world == s.world
            && (failure.None? ==> saved)
            && (saved && failure.Some? ==> LosesSave(choice))
            && after.checkpoints
               == (if saved then s.checkpoints[env.job := BuildCheckpoint(env, config, env.steps[i], s.machine)]
                   else s.checkpoints)
  {
    saved := choice.fault.None? || choice.fault.value.phase == InSave(true)
             || choice.fault.value.phase.InPrepare? || choice.fault.value.phase.InBody?;
  }

  /** What the body itself appends: nothing, or the state it moved to. */
  lemma BodyShape(s: RunnerState, i: nat, number: nat, b: BodyEnd)
    ensures AfterBody(Logged(s, Attempted(i, number)), b).log
         == s.log + AttemptEvents(i, number, s.machine, b.machine, false, false)
    ensures AfterBody(Logged(s, Attempted(i, number)), b)
         == s.(world := b.world, machine := b.machine, log := AfterBody(Logged(s, Attempted(i, number)), b).log)
  {
    var begun := [Attempted(i, number)];
    assert begun + [] + [] + [] == begun && begun + [Entered(b.machine)] + [] + [] == begun + [Entered(b.machine)];
    if b.machine != s.machine {
      SeqAssociates(s.log, begun, [Entered(b.machine)]);
    }
  }

  lemma ShapeOfFinish(i: nat, number: nat, before: MigrationState, after: MigrationState, saved: bool, succeeded: bool,
                      log: seq<Event>)
    ensures log + AttemptEvents(i, number, before, after, false, false)
            + (if saved then [Saved(i)] else []) + (if succeeded then [Succeeded(i)] else [])
         == log + AttemptEvents(i, number, before, after, saved, succeeded)
  {
    var events := [Attempted(i, number)] + (if before != after then [Entered(after)] else []);
    var kept, success := if saved then [Saved(i)] else [], if succeeded then [Succeeded(i)] else [];
    assert AttemptEvents(i, number, before, after, false, false) == events;
    assert AttemptEvents(i, number, before, after, saved, succeeded) == events + kept + success;
    assert log + events + kept + success == log + (events + kept + success);
  }

  lemma AttemptHasShape(env: Env, config: Configuration, i: nat, number: nat, choice: Choice, s: RunnerState)
    returns (saved: bool)
    requires i < |env.steps|
    ensures var (after, failure) := Attempt(env, config, i, number, choice, s);
            && AttemptShape(env, config, i, number, s, after, saved, failure.None?)
            && (saved && failure.Some? ==> LosesSave(choice))
  {
    var begun := Logged(s, Attempted(i, number));
    saved := false;
    if choice.fault.Some? && choice.fault.value.phase.InPrepare? {
      BodyShape(s, i, number, BodyEnd(s.world, s.machine, false, false));
    } else if choice.fault.Some? && choice.fault.value.phase.InBody? {
      BodyShape(s, i, number, env.bodies.stopped(config, env.steps[i], choice, true, begun.machine, begun.world));
    } else {
      var b := env.bodies.complete(config, env.steps[i], choice, true, begun.machine, begun.world);
      BodyShape(s, i, number, b);
      if b.ok {
        saved := FinishShape(env, config, i, choice, b.keepsRetried, AfterBody(begun, b));
        var failure := FinishAttempt(env, config, i, choice, b.keepsRetried, AfterBody(begun, b)).1;
        ShapeOfFinish(i, number, s.machine, b.machine, saved, failure.None?, s.log);
      }
    }
  }

  lemma CollectOne<T>(f: Event -> Option<T>, e: Event)
    ensures Collect(f, [e]) == Picked(f, e)
    ensures Collect(f, []) == []
  {
    assert [e][..0] == [];
  }

  // ----- one turn of the retry loop -----

  /** A retry adds one record, with the failure's message, to its job's list. */
  ghost predicate RecordAdded(env: Env, step: Step, number: nat, failure: Failure,
                              before: map<string, seq<RetryRecord>>, after: map<string, seq<RetryRecord>>)
  {
    RecordsOf(after, env.job)
      == RecordsOf(before, env.job) + [RetryRecord(env.job, ClassName(step), number, failure.message)]
  }

  /** d is the delay decided, after this failure of the numbered attempt, for trying again. */
  ghost predicate DecidedFor(rules: Rules, failure: Failure, number: nat, d: real) {
    && rules.decide(failure, number).Some?
    && rules.decide(failure, number).value.shouldRetry
    && rules.decide(failure, number).value.delay == d
  }

  /** The events of a turn: the attempt's, then a sleep, or the transition to FAILED, or nothing. */
  ghost predicate TurnShape(env: Env, config: Configuration, i: nat, number: nat, s: RunnerState, turn: Turn,
                            mid: RunnerState, failure: Option<Failure>, saved: bool, tail: seq<Event>)
    requires i < |env.steps|
  {
    && AttemptShape(env, config, i, number, s, mid, saved, turn.Over? && turn.end.StepDone?)
    && turn.after.log == mid.log + tail
    && turn.after.checkpoints == mid.checkpoints
    && match turn {
         case Over(after, StepDone) => tail == [] && after == mid
         case Over(after, StepEscaped) => tail == [] && after == mid && !CanTransition(mid.machine, Failed)
         case Over(after, StepFailed(_, _)) =>
           tail == [Entered(Failed)] && after.machine == Failed && CanTransition(mid.machine, Failed)
           && after.records == mid.records && after.world == mid.world
         case Again(after) =>
           |tail| == 1 && tail[0].Slept? && after.machine == mid.machine
           && failure.Some? && DecidedFor(env.retry, failure.value, number, tail[0].delay)
           && after.world.ctx == s.world.ctx && after.world.target == mid.world.target
           && after.world.service == mid.world.service
           && RecordAdded(env, env.steps[i], number, failure.value, s.records, after.records)
       }
  }

  lemma TurnHasShape(env: Env, config: Configuration, i: nat, number: nat, choice: Choice, s: RunnerState)
    returns (mid: RunnerState, saved: bool, tail: seq<Event>)
    requires i < |env.steps|
    ensures TurnShape(env, config, i, number, s, TakeTurn(env, config, i, number, choice, s), mid,
                      Attempt(env, config, i, number, choice, s).1, saved, tail)
    ensures mid == Attempt(env, config, i, number, choice, s).0
    ensures saved && !(TakeTurn(env, config, i, number, choice, s) == Over(mid, StepDone)) ==> LosesSave(choice)
  {
    var failure := Attempt(env, config, i, number, choice, s).1;
    mid := Attempt(env, config, i, number, choice, s).0;
    saved := AttemptHasShape(env, config, i, number, choice, s);
    tail := [];
    assert mid.log + [] == mid.log;
    if failure.Some? {
      var decision := env.retry.decide(failure.value, number);
      if decision.Some? && decision.value.shouldRetry {
        tail := [Slept(decision.value.delay)];
      } else if CanTransition(mid.machine, Failed) {
        tail := [Entered(Failed)];
      }
    }
  }

  /** What a turn appends to the log. */
  function TurnEvents(i: nat, number: nat, before: MigrationState, after: MigrationState, saved: bool, succeeded: bool,
                      tail: seq<Event>): seq<Event>
  {
    AttemptEvents(i, number, before, after, saved, succeeded) + tail
  }

  lemma TurnAppends(env: Env, config: Configuration, i: nat, number: nat, choice: Choice, s: RunnerState)
    returns (moved: MigrationState, saved: bool, succeeded: bool, tail: seq<Event>)
    requires i < |env.steps|
    ensures TakeTurn(env, config, i, number, choice, s).after.log
         == s.log + TurnEvents(i, number, s.machine, moved, saved, succeeded, tail)
    ensures |tail| <= 1 && (tail != [] ==> tail[0].Slept? || tail[0] == Entered(Failed))
    ensures succeeded ==> saved
    ensures succeeded <==> TakeTurn(env, config, i, number, choice, s).Over?
                           && TakeTurn(env, config, i, number, choice, s).end.StepDone?
  {
    var mid;
    mid, saved, tail := TurnHasShape(env, config, i, number, choice, s);
    var turn := TakeTurn(env, config, i, number, choice, s);
    moved := mid.machine;
    succeeded := turn.Over? && turn.end.StepDone?;
    SeqAssociates(s.log, AttemptEvents(i, number, s.machine, moved, saved, succeeded), tail);
  }

  lemma CollectOptional<T>(f: Event -> Option<T>, log: seq<Event>, present: bool, e: Event)
    ensures Collect(f, log + (if present then [e] else [])) == Collect(f, log) + (if present then Picked(f, e) else [])
  {
    if present {
      assert (log + [e])[..|log|] == log;
    } else {
      assert log + [] == log && Collect(f, log) + [] == Collect(f, log);
    }
  }

  /** Reading one kind of event off an attempt. */
  lemma CollectAttempt<T>(f: Event -> Option<T>, i: nat, number: nat, before: MigrationState, after: MigrationState,
                          saved: bool, succeeded: bool)
    ensures Collect(f, AttemptEvents(i, number, before, after, saved, succeeded))
         == Picked(f, Attempted(i, number))
            + (if before != after then Picked(f, Entered(after)) else [])
            + (if saved then Picked(f, Saved(i)) else [])
            + (if succeeded then Picked(f, Succeeded(i)) else [])
  {
    var begun := [Attempted(i, number)];
    var moved := begun + (if before != after then [Entered(after)] else []);
    var kept := moved + (if saved then [Saved(i)] else []);
    CollectOne(f, Attempted(i, number));
    CollectOptional(f, begun, before != after, Entered(after));
    CollectOptional(f, moved, saved, Saved(i));
    CollectOptional(f, kept, succeeded, Succeeded(i));
  }

  /** Reading one kind of event off a turn. */
  lemma CollectTurn<T>(f: Event -> Option<T>, i: nat, number: nat, before: MigrationState, after: MigrationState,
                       saved: bool, succeeded: bool, tail: seq<Event>)
    requires |tail| <= 1
    ensures Collect(f, TurnEvents(i, number, before, after, saved, succeeded, tail))
         == Picked(f, Attempted(i, number))
            + (if before != after then Picked(f, Entered(after)) else [])
            + (if saved then Picked(f, Saved(i)) else [])
            + (if succeeded then Picked(f, Succeeded(i)) else [])
            + (if tail == [] then [] else Picked(f, tail[0]))
  {
    var events := AttemptEvents(i, number, before, after, saved, succeeded);
    CollectAttempt(f, i, number, before, after, saved, succeeded);
    if tail == [] {
      CollectOptional(f, events, false, Attempted(i, number));
    } else {
      assert tail == [tail[0]];
      CollectOptional(f, events, true, tail[0]);
    }
  }

  // ----- retries of one step -----

  /** Every turn appends one item to a view of the runner. */
  ghost predicate TurnsAppend<T(!new)>(turns: Turns, view: RunnerState -> seq<T>, item: nat -> T) {
    forall n: nat, t :: view(turns(n, t).after) == view(t) + [item(n + 1)]
  }

  /** So the loop appends one item for each turn it takes. */
  lemma {:induction false} LoopAppends<T(!new)>(turns: Turns, limit: nat, view: RunnerState -> seq<T>, item: nat -> T,
                                                made: nat, s: RunnerState)
    returns (count: nat)
    requires StopsAt(turns, limit) && made < limit
    requires TurnsAppend(turns, view, item)
    ensures 1 <= count <= limit - made
    ensures view(RetryLoop(turns, limit, made, s).0)
            == view(s) + seq(count, k requires 0 <= k < count => item(made + 1 + k))
    decreases limit - made
  {
    var turn := turns(made, s);
    if turn.Again? {
      var later := LoopAppends(turns, limit, view, item, made + 1, turn.after);
      count := later + 1;
      var all := seq(count, k requires 0 <= k < count => item(made + 1 + k));
      var rest := seq(later, k requires 0 <= k < later => item(made + 1 + 1 + k));
      assert all == [item(made + 1)] + rest;
      assert view(s) + all == view(s) + [item(made + 1)] + rest;
    } else {
      count := 1;
    }
  }

  function AttemptsIn(s: RunnerState): seq<(nat, nat)> {
    Collect(AttemptOf, s.log)
  }

  lemma AttemptsInTurn(i: nat, number: nat, before: MigrationState, after: MigrationState,
                       saved: bool, succeeded: bool, tail: seq<Event>)
    requires |tail| <= 1 && (tail != [] ==> !tail[0].Attempted?)
    ensures Collect(AttemptOf, TurnEvents(i, number, before, after, saved, succeeded, tail)) == [(i, number)]
  {
    CollectTurn(AttemptOf, i, number, before, after, saved, succeeded, tail);
  }

  lemma TurnAttempts(env: Env, config: Configuration, i: nat, number: nat, choice: Choice, s: RunnerState)
    requires i < |env.steps|
    ensures AttemptsIn(TakeTurn(env, config, i, number, choice, s).after) == AttemptsIn(s) + [(i, number)]
  {
    var moved, saved, succeeded, tail := TurnAppends(env, config, i, number, choice, s);
    AttemptsInTurn(i, number, s.machine, moved, saved, succeeded, tail);
    CollectConcat(AttemptOf, s.log, TurnEvents(i, number, s.machine, moved, saved, succeeded, tail));
  }

  lemma EnterCollects<T>(f: Event -> Option<T>, s: RunnerState, state: MigrationState)
    requires f(Entered(state)).None?
    ensures Collect(f, Enter(s, state).log) == Collect(f, s.log)
  {
    CollectLogged(f, s.(machine := state), Entered(state));
  }

  lemma EnterStepCollects<T>(f: Event -> Option<T>, s: RunnerState, step: Step)
    requires forall state :: f(Entered(state)).None?
    ensures Collect(f, EnterStep(s, step).log) == Collect(f, s.log)
  {
    var state := StepState(step);
    if state.Some? {
      EnterCollects(f, s, state.value);
    }
  }

  function AttemptItem(i: nat): nat -> (nat, nat) {
    (n: nat) => (i, n)
  }

  lemma TurnsApply(env: Env, config: Configuration, i: nat, oracle: Oracle, n: nat, t: RunnerState)
    requires i < |env.steps|
    ensures TurnsOf(env, config, i, oracle)(n, t) == TakeTurn(env, config, i, n + 1, oracle(i, n + 1), t)
  {
  }

  /** A step is attempted with consecutive numbers from 1, at most as often as the policy allows. */
  lemma AttemptsAreBounded(env: Env, config: Configuration, i: nat, oracle: Oracle, s: RunnerState) returns (count: nat)
    requires i < |env.steps|
    ensures 1 <= count <= env.retry.limit
    ensures AttemptsIn(RunStep(env, config, i, oracle, s).0)
         == AttemptsIn(s) + seq(count, k requires 0 <= k < count => AttemptItem(i)(0 + 1 + k))
  {
    TurnsStop(env, config, i, oracle);
    TurnsAppendAttempts(env, config, i, oracle);
    EnterStepCollects(AttemptOf, s, env.steps[i]);
    count := LoopAppends(TurnsOf(env, config, i, oracle), env.retry.limit, AttemptsIn, AttemptItem(i), 0,
                         EnterStep(s, env.steps[i]));
  }

  lemma TurnsAppendAttempts(env: Env, config: Configuration, i: nat, oracle: Oracle)
    requires i < |env.steps|
    ensures TurnsAppend(TurnsOf(env, config, i, oracle), AttemptsIn, AttemptItem(i))
  {
    var turns := TurnsOf(env, config, i, oracle);
    forall n: nat, t ensures AttemptsIn(turns(n, t).after) == AttemptsIn(t) + [AttemptItem(i)(n + 1)] {
      TurnsApply(env, config, i, oracle, n, t);
      TurnAttempts(env, config, i, n + 1, oracle(i, n + 1), t);
    }
  }

  // ----- two induction rules, one for each loop of run() -----

  type TurnInv = (nat, RunnerState) -> bool
  type TurnPost = (RunnerState, StepEnd) -> bool

  /** A turn carries the invariant on, or establishes the postcondition. */
  ghost predicate CarriesTurn(turn: Turn, n: nat, inv: TurnInv, post: TurnPost) {
    if turn.Over? then post(turn.after, turn.end) else inv(n + 1, turn.after)
  }

  ghost predicate TurnsCarry(turns: Turns, inv: TurnInv, post: TurnPost) {
    forall n: nat, t :: inv(n, t) ==> CarriesTurn(turns(n, t), n, inv, post)
  }

  /** A property of the retry loop holds when every turn carries it on. */
  lemma {:induction false} RetryRule(turns: Turns, limit: nat, made: nat, s: RunnerState, inv: TurnInv, post: TurnPost)
    requires StopsAt(turns, limit) && inv(made, s)
    requires TurnsCarry(turns, inv, post)
    ensures post(RetryLoop(turns, limit, made, s).0, RetryLoop(turns, limit, made, s).1)
    decreases limit - made
  {
    assert CarriesTurn(turns(made, s), made, inv, post);
    if turns(made, s).Again? {
      RetryRule(turns, limit, made + 1, turns(made, s).after, inv, post);
    }
  }

  /** The same for one step of a run. */
  lemma RunStepRule(env: Env, config: Configuration, i: nat, oracle: Oracle, s: RunnerState, inv: TurnInv,
                    post: TurnPost)
    requires i < |env.steps| && inv(0, EnterStep(s, env.steps[i]))
    requires TurnsCarry(TurnsOf(env, config, i, oracle), inv, post)
    ensures post(RunStep(env, config, i, oracle, s).0, RunStep(env, config, i, oracle, s).1)
  {
    TurnsStop(env, config, i, oracle);
    RetryRule(TurnsOf(env, config, i, oracle), env.retry.limit, 0, EnterStep(s, env.steps[i]), inv, post);
  }

  type StepInv = (nat, RunnerState) -> bool
  type RunPost = (RunnerState, RunEnd) -> bool

  ghost predicate CarriesStep(result: (RunnerState, StepEnd), start: nat, j: nat, inv: StepInv, post: RunPost) {
    match result.1
    case StepDone => inv(j + 1, result.0)
    case StepFailed(ctx, step) => post(Rollback(result.0, start, j), FailedAt(j, ctx, step))
    case StepEscaped => post(result.0, EscapedAt(j))
  }

  ghost predicate CarriesEnd(t: RunnerState, n: nat, post: RunPost) {
    if CanTransition(t.machine, Completed) then post(Enter(t, Completed), Finished) else post(t, EscapedAt(n))
  }

  ghost predicate StepsCarry(runners: seq<StepRunner>, start: nat, inv: StepInv, post: RunPost) {
    forall j: nat, t :: j < |runners| && inv(j, t) ==> CarriesStep(runners[j](t), start, j, inv, post)
  }

  /** A property of the step loop holds when every step carries it on. */
  lemma {:induction false} StepRule(runners: seq<StepRunner>, start: nat, i: nat, s: RunnerState, inv: StepInv,
                                    post: RunPost)
    requires i <= |runners| && inv(i, s)
    requires StepsCarry(runners, start, inv, post)
    requires forall t :: inv(|runners|, t) ==> CarriesEnd(t, |runners|, post)
    ensures post(StepLoop(runners, start, i, s).0, StepLoop(runners, start, i, s).1)
    decreases |runners| - i
  {
    if i < |runners| {
      var result := runners[i](s);
      assert CarriesStep(result, start, i, inv, post);
      if result.1.StepDone? {
        StepRule(runners, start, i + 1, result.0, inv, post);
      }
    } else {
      assert CarriesEnd(s, |runners|, post);
    }
  }

  lemma RunnersApply(env: Env, config: Configuration, oracle: Oracle, j: nat, t: RunnerState)
    requires j < |env.steps|
    ensures RunnersOf(env, config, oracle)[j](t) == RunStep(env, config, j, oracle, t)
  {
  }

  /** The same for a run. */
  lemma RunStepsRule(env: Env, config: Configuration, start: nat, oracle: Oracle, s: RunnerState, inv: StepInv,
                     post: RunPost)
    requires start <= |env.steps| && inv(start, s)
    requires StepsCarry(RunnersOf(env, config, oracle), start, inv, post)
    requires forall t :: inv(|env.steps|, t) ==> CarriesEnd(t, |env.steps|, post)
    ensures post(RunSteps(env, config, start, oracle, s).0, RunSteps(env, config, start, oracle, s).1)
  {
    StepRule(RunnersOf(env, config, oracle), start, start, s, inv, post);
  }

  // ----- the trail of checkpoints -----

  function SavesIn(s: RunnerState): seq<nat> {
    Collect(SaveOf, s.log)
  }

  function SuccessesIn(s: RunnerState): seq<nat> {
    Collect(SuccessOf, s.log)
  }

  /** Neither failed nor cancelled. */
  predicate Healthy(m: MigrationState) {
    m != Failed && m != Cancelled
  }

  /** Saves start at the first step and never leave one out: each save repeats the
      previous step's (after a lost acknowledgement) or moves on to the next. */
  ghost predicate Climbs(saves: seq<nat>) {
    && (saves != [] ==> saves[0] == 0)
    && forall k :: 0 < k < |saves| ==> saves[k] == saves[k - 1] || saves[k] == saves[k - 1] + 1
  }

  /** Step i may be saved next. */
  predicate MaySave(saves: seq<nat>, i: nat) {
    if saves == [] then i == 0 else i == saves[|saves| - 1] || i == saves[|saves| - 1] + 1
  }

  ghost predicate CheckpointNames(env: Env, config: Configuration, s: RunnerState, i: nat) {
    && i < |env.steps| && env.job in s.checkpoints
    && var ck := s.checkpoints[env.job];
       && ck.job == env.job && ck.version == 1 && ck.config == config
       && ck.lastStep == Some(ClassName(env.steps[i]))
       && ck.state.Known? && Healthy(ck.state.state)
       && ck.throttled == 0 && ck.retryAfters == 0 && ck.temporary == 0
  }

  /** The saves so far climb, and the stored checkpoint is the last of them. When
      no acknowledgement is ever lost, saves and successes are the same list 0, 1, 2, ... */
  ghost predicate Trail(env: Env, config: Configuration, lossless: bool, s: RunnerState) {
    var saves := SavesIn(s);
    && Climbs(saves)
    && (if saves == [] then env.job !in s.checkpoints else CheckpointNames(env, config, s, saves[|saves| - 1]))
    && (lossless ==> saves == SuccessesIn(s) == Range(0, |saves|))
  }

  ghost predicate OnTrail(env: Env, config: Configuration, lossless: bool, i: nat, s: RunnerState) {
    && Trail(env, config, lossless, s)
    && MaySave(SavesIn(s), i)
    && (lossless ==> |SavesIn(s)| == i)
    && Healthy(s.machine)
  }

  ghost predicate Lossless(oracle: Oracle) {
    forall i, n :: !LosesSave(oracle(i, n))
  }

  lemma ClimbOn(saves: seq<nat>, i: nat)
    requires Climbs(saves) && MaySave(saves, i)
    ensures Climbs(saves + [i])
  {
  }

  lemma SavesInTurn(i: nat, number: nat, before: MigrationState, after: MigrationState,
                    saved: bool, succeeded: bool, tail: seq<Event>)
    requires |tail| <= 1 && (tail != [] ==> tail[0].Slept? || tail[0].Entered?)
    ensures Collect(SaveOf, TurnEvents(i, number, before, after, saved, succeeded, tail)) == if saved then [i] else []
    ensures Collect(SuccessOf, TurnEvents(i, number, before, after, saved, succeeded, tail))
            == if succeeded then [i] else []
  {
    CollectTurn(SaveOf, i, number, before, after, saved, succeeded, tail);
    CollectTurn(SuccessOf, i, number, before, after, saved, succeeded, tail);
  }

  /** What a turn does to the trail: at most one save, of this step, and a success only with it. */
  ghost predicate TrailTurn(env: Env, config: Configuration, i: nat, s: RunnerState, turn: Turn, saved: bool,
                            m: MigrationState)
    requires i < |env.steps|
  {
    var succeeded := turn.Over? && turn.end.StepDone?;
    && SavesIn(turn.after) == SavesIn(s) + (if saved then [i] else [])
    && SuccessesIn(turn.after) == SuccessesIn(s) + (if succeeded then [i] else [])
    && turn.after.checkpoints == (if saved then s.checkpoints[env.job := BuildCheckpoint(env, config, env.steps[i], m)]
                                  else s.checkpoints)
    && (succeeded ==> saved)
    && (turn.Over? && turn.end.StepFailed? ==> turn.after.machine == Failed)
    && (!(turn.Over? && turn.end.StepFailed?) ==> turn.after.machine == m)
    && (turn.Over? && turn.end.StepEscaped? ==> Terminal(m) && m != Failed)
  }

  lemma TurnOnTrail(env: Env, config: Configuration, i: nat, number: nat, choice: Choice, s: RunnerState)
    returns (saved: bool, m: MigrationState)
    requires i < |env.steps|
    ensures TrailTurn(env, config, i, s, TakeTurn(env, config, i, number, choice, s), saved, m)
    ensures m == Attempt(env, config, i, number, choice, s).0.machine
    ensures saved && !(TakeTurn(env, config, i, number, choice, s).Over?
                       && TakeTurn(env, config, i, number, choice, s).end.StepDone?)
            ==> LosesSave(choice)
  {
    var turn := TakeTurn(env, config, i, number, choice, s);
    var mid, tail;
    mid, saved, tail := TurnHasShape(env, config, i, number, choice, s);
    m := mid.machine;
    var succeeded := turn.Over? && turn.end.StepDone?;
    SeqAssociates(s.log, AttemptEvents(i, number, s.machine, m, saved, succeeded), tail);
    SavesInTurn(i, number, s.machine, m, saved, succeeded, tail);
    CollectConcat(SaveOf, s.log, TurnEvents(i, number, s.machine, m, saved, succeeded, tail));
    CollectConcat(SuccessOf, s.log, TurnEvents(i, number, s.machine, m, saved, succeeded, tail));
  }

  lemma AttemptStaysHealthy(env: Env, config: Configuration, i: nat, number: nat, choice: Choice, s: RunnerState)
    requires i < |env.steps| && MovesOnlyAtTheEnd(env.bodies) && Healthy(s.machine)
    ensures Healthy(Attempt(env, config, i, number, choice, s).0.machine)
  {
    AttemptMoves(env, config, i, number, choice, s);
  }

  /** An attempt moves the machine only as its body does. */
  lemma AttemptMoves(env: Env, config: Configuration, i: nat, number: nat, choice: Choice, s: RunnerState)
    requires i < |env.steps| && MovesOnlyAtTheEnd(env.bodies)
    ensures MovesAsExpected(env.steps[i], s.machine, Attempt(env, config, i, number, choice, s).0.machine)
  {
    var step := env.steps[i];
    assert MovesAsExpected(step, s.machine,
                           env.bodies.complete(config, step, choice, true, s.machine, s.world).machine);
    assert MovesAsExpected(step, s.machine, env.bodies.stopped(config, step, choice, true, s.machine, s.world).machine);
  }

  /** Neither a terminal state reached by failure nor a cancelled one is ever left. */
  lemma AttemptStaysStuck(env: Env, config: Configuration, i: nat, number: nat, choice: Choice, s: RunnerState)
    requires i < |env.steps| && MovesOnlyAtTheEnd(env.bodies) && !Healthy(s.machine)
    ensures Attempt(env, config, i, number, choice, s).0.machine == s.machine
  {
    AttemptMoves(env, config, i, number, choice, s);
  }

  /** How a step leaves the trail. */
  ghost predicate StepTrail(env: Env, config: Configuration, lossless: bool, i: nat, after: RunnerState, end: StepEnd) {
    match end
    case StepDone => OnTrail(env, config, lossless, i + 1, after)
    case StepFailed(_, _) => Trail(env, config, lossless, after) && after.machine == Failed
    case StepEscaped => Trail(env, config, lossless, after) && after.machine == Completed
  }

  /** The trail reads the checkpoints, the saves and the successes only. */
  lemma SameViewSameTrail(env: Env, config: Configuration, lossless: bool, s: RunnerState, t: RunnerState)
    requires Trail(env, config, lossless, s)
    requires SavesIn(t) == SavesIn(s) && SuccessesIn(t) == SuccessesIn(s) && t.checkpoints == s.checkpoints
    ensures Trail(env, config, lossless, t)
  {
  }

  lemma TrailSaved(env: Env, config: Configuration, lossless: bool, i: nat, s: RunnerState, t: RunnerState,
                   m: MigrationState)
    requires i < |env.steps| && OnTrail(env, config, lossless, i, s) && Healthy(m)
    requires SavesIn(t) == SavesIn(s) + [i] && (lossless ==> SuccessesIn(t) == SuccessesIn(s) + [i])
    requires t.checkpoints == s.checkpoints[env.job := BuildCheckpoint(env, config, env.steps[i], m)]
    ensures Trail(env, config, lossless, t)
    ensures MaySave(SavesIn(t), i) && MaySave(SavesIn(t), i + 1) && (lossless ==> |SavesIn(t)| == i + 1)
  {
    ClimbOn(SavesIn(s), i);
    if lossless {
      assert Range(0, i + 1) == Range(0, i) + [i];
    }
  }

  lemma TrailAfterTurn(env: Env, config: Configuration, lossless: bool, i: nat, s: RunnerState, turn: Turn,
                       saved: bool, m: MigrationState)
    requires i < |env.steps| && OnTrail(env, config, lossless, i, s)
    requires TrailTurn(env, config, i, s, turn, saved, m) && Healthy(m)
    requires lossless && saved ==> turn.Over? && turn.end.StepDone?
    ensures turn.Again? ==> OnTrail(env, config, lossless, i, turn.after)
    ensures turn.Over? ==> StepTrail(env, config, lossless, i, turn.after, turn.end)
  {
    if saved {
      TrailSaved(env, config, lossless, i, s, turn.after, m);
    } else {
      assert SavesIn(s) + [] == SavesIn(s) && SuccessesIn(s) + [] == SuccessesIn(s);
      SameViewSameTrail(env, config, lossless, s, turn.after);
    }
  }

  ghost function TrailInv(env: Env, config: Configuration, lossless: bool, i: nat): TurnInv {
    (n: nat, t: RunnerState) => OnTrail(env, config, lossless, i, t)
  }

  ghost function TrailPost(env: Env, config: Configuration, lossless: bool, i: nat): TurnPost {
    (after: RunnerState, end: StepEnd) => StepTrail(env, config, lossless, i, after, end)
  }

  lemma TrailCarries(env: Env, config: Configuration, lossless: bool, i: nat, n: nat, t: RunnerState, turn: Turn,
                     saved: bool, m: MigrationState)
    requires i < |env.steps| && TrailInv(env, config, lossless, i)(n, t)
    requires TrailTurn(env, config, i, t, turn, saved, m) && Healthy(m)
    requires lossless && saved ==> turn.Over? && turn.end.StepDone?
    ensures CarriesTurn(turn, n, TrailInv(env, config, lossless, i), TrailPost(env, config, lossless, i))
  {
    TrailAfterTurn(env, config, lossless, i, t, turn, saved, m);
  }

  lemma HealthyOnTrail(env: Env, config: Configuration, lossless: bool, i: nat, n: nat, t: RunnerState)
    requires TrailInv(env, config, lossless, i)(n, t)
    ensures Healthy(t.machine)
  {
  }

  lemma TurnsStayOnTrail(env: Env, config: Configuration, lossless: bool, i: nat, oracle: Oracle, n: nat,
                         t: RunnerState)
    requires i < |env.steps| && MovesOnlyAtTheEnd(env.bodies) && (lossless ==> Lossless(oracle))
    requires TrailInv(env, config, lossless, i)(n, t)
    ensures CarriesTurn(TakeTurn(env, config, i, n + 1, oracle(i, n + 1), t), n,
                        TrailInv(env, config, lossless, i), TrailPost(env, config, lossless, i))
  {
    HealthyOnTrail(env, config, lossless, i, n, t);
    var saved, m := TurnOnTrail(env, config, i, n + 1, oracle(i, n + 1), t);
    AttemptStaysHealthy(env, config, i, n + 1, oracle(i, n + 1), t);
    TrailCarries(env, config, lossless, i, n, t, TakeTurn(env, config, i, n + 1, oracle(i, n + 1), t), saved, m);
  }

  lemma TrailTurns(env: Env, config: Configuration, lossless: bool, i: nat, oracle: Oracle)
    requires i < |env.steps| && MovesOnlyAtTheEnd(env.bodies) && (lossless ==> Lossless(oracle))
    ensures TurnsCarry(TurnsOf(env, config, i, oracle), TrailInv(env, config, lossless, i),
                       TrailPost(env, config, lossless, i))
  {
    var inv, post := TrailInv(env, config, lossless, i), TrailPost(env, config, lossless, i);
    var turns := TurnsOf(env, config, i, oracle);
    forall n: nat, t | inv(n, t) ensures CarriesTurn(turns(n, t), n, inv, post) {
      TurnsApply(env, config, i, oracle, n, t);
      TurnsStayOnTrail(env, config, lossless, i, oracle, n, t);
    }
  }

  lemma StepStaysOnTrail(env: Env, config: Configuration, lossless: bool, i: nat, oracle: Oracle, s: RunnerState)
    requires i < |env.steps| && MovesOnlyAtTheEnd(env.bodies) && (lossless ==> Lossless(oracle))
    requires OnTrail(env, config, lossless, i, s)
    ensures StepTrail(env, config, lossless, i, RunStep(env, config, i, oracle, s).0,
                      RunStep(env, config, i, oracle, s).1)
  {
    EnteredStaysOnTrail(env, config, lossless, i, s);
    TrailTurns(env, config, lossless, i, oracle);
    RunStepRule(env, config, i, oracle, s, TrailInv(env, config, lossless, i), TrailPost(env, config, lossless, i));
  }

  lemma EnterStepMoves(s: RunnerState, step: Step)
    ensures var t := EnterStep(s, step);
            && t.checkpoints == s.checkpoints && t.records == s.records
            && t.world == s.world && t.counters == s.counters
            && (Healthy(s.machine) ==> Healthy(t.machine))
  {
  }

  lemma EnteredStaysOnTrail(env: Env, config: Configuration, lossless: bool, i: nat, s: RunnerState)
    requires i < |env.steps| && OnTrail(env, config, lossless, i, s)
    ensures OnTrail(env, config, lossless, i, EnterStep(s, env.steps[i]))
  {
    EnterStepCollects(SaveOf, s, env.steps[i]);
    EnterStepCollects(SuccessOf, s, env.steps[i]);
    EnterStepMoves(s, env.steps[i]);
    SameViewSameTrail(env, config, lossless, s, EnterStep(s, env.steps[i]));
  }

  // ----- a whole run on the trail -----

  lemma {:induction false} RollbackKeeps<T>(f: Event -> Option<T>, s: RunnerState, start: nat, at: nat)
    requires forall step :: f(RolledBack(step)).None?
    ensures var r := Rollback(s, start, at);
            && Collect(f, r.log) == Collect(f, s.log)
            && r.machine == s.machine && r.checkpoints == s.checkpoints && r.world == s.world
            && r.counters == s.counters && r.records == s.records
    decreases at
  {
    CollectLogged(f, s, RolledBack(at));
    if at > start {
      RollbackKeeps(f, Logged(s, RolledBack(at)), start, at - 1);
    }
  }

  /** How a run leaves the trail: with FAILED, with an escape after COMPLETED, or finished. */
  ghost predicate RunTrail(env: Env, config: Configuration, lossless: bool, after: RunnerState, end: RunEnd) {
    && Trail(env, config, lossless, after)
    && match end
       case Finished => after.machine == Completed && MaySave(SavesIn(after), |env.steps|)
       case FailedAt(at, _, _) => at < |env.steps| && after.machine == Failed
       case EscapedAt(at) => at < |env.steps| && after.machine == Completed
       case Rejected(_) => false
  }

  ghost function RunTrailInv(env: Env, config: Configuration, lossless: bool): StepInv {
    (i: nat, t: RunnerState) => OnTrail(env, config, lossless, i, t)
  }

  ghost function RunTrailPost(env: Env, config: Configuration, lossless: bool): RunPost {
    (after: RunnerState, end: RunEnd) => RunTrail(env, config, lossless, after, end)
  }

  lemma RolledBackStaysOnTrail(env: Env, config: Configuration, lossless: bool, s: RunnerState, start: nat, at: nat)
    requires Trail(env, config, lossless, s)
    ensures Trail(env, config, lossless, Rollback(s, start, at)) && Rollback(s, start, at).machine == s.machine
  {
    RollbackKeeps(SaveOf, s, start, at);
    RollbackKeeps(SuccessOf, s, start, at);
    SameViewSameTrail(env, config, lossless, s, Rollback(s, start, at));
  }

  lemma RunnerCarriesTrail(env: Env, config: Configuration, lossless: bool, oracle: Oracle, start: nat, j: nat,
                           t: RunnerState)
    requires j < |env.steps| && MovesOnlyAtTheEnd(env.bodies) && (lossless ==> Lossless(oracle))
    requires RunTrailInv(env, config, lossless)(j, t)
    ensures CarriesStep(RunStep(env, config, j, oracle, t), start, j,
                        RunTrailInv(env, config, lossless), RunTrailPost(env, config, lossless))
  {
    StepStaysOnTrail(env, config, lossless, j, oracle, t);
    var (after, end) := RunStep(env, config, j, oracle, t);
    EndedStepCarriesTrail(env, config, lossless, start, j, after, end);
  }

  lemma EndedStepCarriesTrail(env: Env, config: Configuration, lossless: bool, start: nat, j: nat,
                              after: RunnerState, end: StepEnd)
    requires j < |env.steps| && StepTrail(env, config, lossless, j, after, end)
    ensures CarriesStep((after, end), start, j, RunTrailInv(env, config, lossless), RunTrailPost(env, config, lossless))
  {
    if end.StepFailed? {
      RolledBackStaysOnTrail(env, config, lossless, after, start, j);
    }
  }

  lemma FinishStaysOnTrail(env: Env, config: Configuration, lossless: bool, t: RunnerState)
    requires RunTrailInv(env, config, lossless)(|env.steps|, t)
    ensures CarriesEnd(t, |env.steps|, RunTrailPost(env, config, lossless))
  {
    EnterCollects(SaveOf, t, Completed);
    EnterCollects(SuccessOf, t, Completed);
  }

  /** From a healthy start, a run keeps the checkpoint at the last saved step, never
      stores FAILED or CANCELLED, and ends in COMPLETED or, through the failure
      path, in FAILED; an exception leaves run() only after COMPLETED was reached. */
  lemma RunStaysOnTrail(env: Env, config: Configuration, lossless: bool, start: nat, oracle: Oracle, s: RunnerState)
    requires start <= |env.steps| && MovesOnlyAtTheEnd(env.bodies) && (lossless ==> Lossless(oracle))
    requires OnTrail(env, config, lossless, start, s)
    ensures RunTrail(env, config, lossless, RunSteps(env, config, start, oracle, s).0,
                     RunSteps(env, config, start, oracle, s).1)
  {
    var inv, post := RunTrailInv(env, config, lossless), RunTrailPost(env, config, lossless);
    var runners := RunnersOf(env, config, oracle);
    forall j: nat, t | j < |runners| && inv(j, t) ensures CarriesStep(runners[j](t), start, j, inv, post) {
      RunnersApply(env, config, oracle, j, t);
      RunnerCarriesTrail(env, config, lossless, oracle, start, j, t);
    }
    forall t | inv(|env.steps|, t) ensures CarriesEnd(t, |env.steps|, post) {
      FinishStaysOnTrail(env, config, lossless, t);
    }
    RunStepsRule(env, config, start, oracle, s, inv, post);
  }

  // ----- properties every single turn keeps -----

  type StateInv = RunnerState -> bool

  ghost predicate KeptByTurns(env: Env, config: Configuration, oracle: Oracle, p: StateInv) {
    forall i: nat, number: nat, t :: i < |env.steps| && p(t) ==>
      p(TakeTurn(env, config, i, number, oracle(i, number), t).after)
  }

  ghost predicate KeptByMoves(p: StateInv) {
    && (forall t, state :: p(t) ==> p(Enter(t, state)))
    && (forall t, at :: p(t) ==> p(Logged(t, RolledBack(at))))
  }

  lemma {:induction false} RollbackPreserves(s: RunnerState, start: nat, at: nat, p: StateInv)
    requires KeptByMoves(p) && p(s)
    ensures p(Rollback(s, start, at))
    decreases at
  {
    if at > start {
      RollbackPreserves(Logged(s, RolledBack(at)), start, at - 1, p);
    }
  }

  lemma {:induction false} LoopPreserves(turns: Turns, limit: nat, made: nat, s: RunnerState, p: StateInv)
    requires StopsAt(turns, limit) && p(s)
    requires forall n: nat, t :: p(t) ==> p(turns(n, t).after)
    ensures p(RetryLoop(turns, limit, made, s).0)
    decreases limit - made
  {
    if turns(made, s).Again? {
      LoopPreserves(turns, limit, made + 1, turns(made, s).after, p);
    }
  }

  lemma {:induction false} StepsPreserve(runners: seq<StepRunner>, start: nat, i: nat, s: RunnerState, p: StateInv)
    requires i <= |runners| && p(s) && KeptByMoves(p)
    requires forall j: nat, t :: j < |runners| && p(t) ==> p(runners[j](t).0)
    ensures p(StepLoop(runners, start, i, s).0)
    decreases |runners| - i
  {
    if i < |runners| {
      var result := runners[i](s);
      if result.1.StepDone? {
        StepsPreserve(runners, start, i + 1, result.0, p);
      } else if result.1.StepFailed? {
        RollbackPreserves(result.0, start, i, p);
      }
    }
  }

  lemma StepPreserves(env: Env, config: Configuration, i: nat, oracle: Oracle, s: RunnerState, p: StateInv)
    requires i < |env.steps| && KeptByTurns(env, config, oracle, p) && KeptByMoves(p) && p(s)
    ensures p(RunStep(env, config, i, oracle, s).0)
  {
    var turns := TurnsOf(env, config, i, oracle);
    TurnsStop(env, config, i, oracle);
    assert p(EnterStep(s, env.steps[i]));
    forall n: nat, t | p(t) ensures p(turns(n, t).after) {
      TurnsApply(env, config, i, oracle, n, t);
    }
    LoopPreserves(turns, env.retry.limit, 0, EnterStep(s, env.steps[i]), p);
  }

  /** What turns, transitions and rollbacks keep, a run keeps. */
  lemma RunPreserves(env: Env, config: Configuration, start: nat, oracle: Oracle, s: RunnerState, p: StateInv)
    requires start <= |env.steps| && KeptByTurns(env, config, oracle, p) && KeptByMoves(p) && p(s)
    ensures p(RunSteps(env, config, start, oracle, s).0)
  {
    var runners := RunnersOf(env, config, oracle);
    forall j: nat, t | j < |runners| && p(t) ensures p(runners[j](t).0) {
      RunnersApply(env, config, oracle, j, t);
      StepPreserves(env, config, j, oracle, t, p);
    }
    StepsPreserve(runners, start, start, s, p);
  }

  // ----- retry counters -----

  /** No counter of a is above its counterpart in b; absent counters are below all. */
  ghost predicate NoHigher(a: Option<Counters>, b: Option<Counters>) {
    a.Some? ==>
      && b.Some?
      && a.value.retried <= b.value.retried && a.value.throttled <= b.value.throttled
      && a.value.retryAfters <= b.value.retryAfters && a.value.temporary <= b.value.temporary
  }

  lemma AttemptCountersGrow(env: Env, config: Configuration, i: nat, number: nat, choice: Choice, s: RunnerState)
    requires i < |env.steps|
    ensures NoHigher(s.counters, Attempt(env, config, i, number, choice, s).0.counters)
  {
  }

  lemma TurnCountersGrow(env: Env, config: Configuration, i: nat, number: nat, choice: Choice, s: RunnerState)
    requires i < |env.steps|
    ensures NoHigher(s.counters, TakeTurn(env, config, i, number, choice, s).after.counters)
  {
    AttemptCountersGrow(env, config, i, number, choice, s);
  }

  ghost function AtLeast(floor: Option<Counters>): StateInv {
    (t: RunnerState) => NoHigher(floor, t.counters)
  }

  lemma NoHigherThrough(a: Option<Counters>, b: Option<Counters>, c: Option<Counters>)
    requires NoHigher(a, b) && NoHigher(b, c)
    ensures NoHigher(a, c)
  {
  }

  lemma TurnsKeepCounters(env: Env, config: Configuration, oracle: Oracle, floor: Option<Counters>)
    ensures KeptByTurns(env, config, oracle, AtLeast(floor))
  {
    var p := AtLeast(floor);
    forall i: nat, number: nat, t | i < |env.steps| && p(t)
      ensures p(TakeTurn(env, config, i, number, oracle(i, number), t).after)
    {
      TurnCountersGrow(env, config, i, number, oracle(i, number), t);
      NoHigherThrough(floor, t.counters, TakeTurn(env, config, i, number, oracle(i, number), t).after.counters);
    }
  }

  lemma MovesKeepCounters(floor: Option<Counters>)
    ensures KeptByMoves(AtLeast(floor))
  {
  }

  /** The retry counters never decrease within a run, whatever the steps report. */
  lemma CountersNeverDecrease(env: Env, config: Configuration, start: nat, oracle: Oracle, s: RunnerState)
    requires start <= |env.steps|
    ensures NoHigher(s.counters, RunSteps(env, config, start, oracle, s).0.counters)
  {
    TurnsKeepCounters(env, config, oracle, s.counters);
    MovesKeepCounters(s.counters);
    RunPreserves(env, config, start, oracle, s, AtLeast(s.counters));
  }

  function SleepsIn(s: RunnerState): seq<real> {
    Collect(DelayOf, s.log)
  }

  function Retried(counters: Option<Counters>): nat {
    if counters.Some? then counters.value.retried else 0
  }

  /** The attempt gets as far as reporting retries of its own: only custom steps do. */
  predicate ReportsRetries(env: Env, config: Configuration, i: nat, choice: Choice, s: RunnerState)
    requires i < |env.steps|
  {
    && env.steps[i].Custom?
    && (choice.fault.None? || choice.fault.value.phase.InFinalize? || choice.fault.value.phase.InSave?)
    && env.bodies.complete(config, env.steps[i], choice, true, s.machine, s.world).ok
  }

  /** The attempt reports no more retries than the runner has counted. */
  predicate Modest(env: Env, config: Configuration, i: nat, choice: Choice, s: RunnerState)
    requires i < |env.steps|
  {
    ReportsRetries(env, config, i, choice, s) ==> Retried(choice.counters) <= Retried(s.counters)
  }

  lemma SleepsInTurn(i: nat, number: nat, before: MigrationState, after: MigrationState,
                     saved: bool, succeeded: bool, tail: seq<Event>)
    requires |tail| <= 1 && (tail != [] ==> tail[0].Slept? || tail[0].Entered?)
    ensures |Collect(DelayOf, TurnEvents(i, number, before, after, saved, succeeded, tail))|
         == if tail != [] && tail[0].Slept? then 1 else 0
  {
    CollectTurn(DelayOf, i, number, before, after, saved, succeeded, tail);
  }

  lemma FinishCountsReport(env: Env, config: Configuration, i: nat, choice: Choice, keepsRetried: bool, s: RunnerState)
    requires i < |env.steps|
    ensures Retried(FinishAttempt(env, config, i, choice, keepsRetried, s).0.counters)
         == if env.steps[i].Custom? then Max(Retried(choice.counters), Retried(s.counters)) else Retried(s.counters)
  {
  }

  lemma AttemptCountsReport(env: Env, config: Configuration, i: nat, number: nat, choice: Choice, s: RunnerState)
    requires i < |env.steps|
    ensures Retried(Attempt(env, config, i, number, choice, s).0.counters)
         == if ReportsRetries(env, config, i, choice, s) then Max(Retried(choice.counters), Retried(s.counters))
            else Retried(s.counters)
  {
    var begun := Logged(s, Attempted(i, number));
    if choice.fault.None? || choice.fault.value.phase.InFinalize? || choice.fault.value.phase.InSave? {
      var b := env.bodies.complete(config, env.steps[i], choice, true, begun.machine, begun.world);
      if b.ok {
        FinishCountsReport(env, config, i, choice, b.keepsRetried, AfterBody(begun, b));
      }
    }
  }

  /** The retries counted beyond the sleeps. */
  function Surplus(s: RunnerState): int {
    Retried(s.counters) - |SleepsIn(s)|
  }

  lemma TurnSurplus(env: Env, config: Configuration, i: nat, number: nat, choice: Choice, s: RunnerState)
    requires i < |env.steps|
    ensures Surplus(TakeTurn(env, config, i, number, choice, s).after) - Surplus(s)
         == Retried(Attempt(env, config, i, number, choice, s).0.counters) - Retried(s.counters)
  {
    var mid, saved, tail := TurnHasShape(env, config, i, number, choice, s);
    var turn := TakeTurn(env, config, i, number, choice, s);
    var succeeded := turn.Over? && turn.end.StepDone?;
    SeqAssociates(s.log, AttemptEvents(i, number, s.machine, mid.machine, saved, succeeded), tail);
    SleepsInTurn(i, number, s.machine, mid.machine, saved, succeeded, tail);
    CollectConcat(DelayOf, s.log, TurnEvents(i, number, s.machine, mid.machine, saved, succeeded, tail));
  }

  /** The surplus never shrinks, and stays as it is in exactly the modest turns. */
  ghost predicate SurplusGrows(modest: bool, before: RunnerState, after: RunnerState) {
    Surplus(after) >= Surplus(before) && (Surplus(after) == Surplus(before) <==> modest)
  }

  lemma TurnCountsRetries(env: Env, config: Configuration, i: nat, number: nat, choice: Choice, s: RunnerState)
    requires i < |env.steps|
    ensures SurplusGrows(Modest(env, config, i, choice, s), s, TakeTurn(env, config, i, number, choice, s).after)
  {
    TurnSurplus(env, config, i, number, choice, s);
    AttemptCountsReport(env, config, i, number, choice, s);
  }

  lemma EnterKeepsSurplus(s: RunnerState, state: MigrationState)
    ensures Surplus(Enter(s, state)) == Surplus(s)
  {
    EnterCollects(DelayOf, s, state);
  }

  lemma {:induction false} RollbackKeepsSurplus(s: RunnerState, start: nat, at: nat)
    ensures Surplus(Rollback(s, start, at)) == Surplus(s)
    decreases at
  {
    CollectLogged(DelayOf, s, RolledBack(at));
    if at > start {
      RollbackKeepsSurplus(Logged(s, RolledBack(at)), start, at - 1);
    }
  }

  // ----- the same along the two loops -----

  /** Which turns are modest, by the number of attempts already made. */
  type Modesty = (nat, RunnerState) -> bool

  function ModestyOf(env: Env, config: Configuration, i: nat, oracle: Oracle): Modesty
    requires i < |env.steps|
  {
    (made: nat, s: RunnerState) => Modest(env, config, i, oracle(i, made + 1), s)
  }

  /** Every attempt the retry loop makes is modest. */
  predicate ModestLoop(turns: Turns, modest: Modesty, limit: nat, made: nat, s: RunnerState)
    requires StopsAt(turns, limit)
    decreases limit - made
  {
    && modest(made, s)
    && (turns(made, s).Again? ==> ModestLoop(turns, modest, limit, made + 1, turns(made, s).after))
  }

  ghost predicate TurnsGrow(turns: Turns, modest: Modesty) {
    forall n: nat, t :: SurplusGrows(modest(n, t), t, turns(n, t).after)
  }

  lemma {:induction false} LoopSurplus(turns: Turns, modest: Modesty, limit: nat, made: nat, s: RunnerState)
    requires StopsAt(turns, limit) && TurnsGrow(turns, modest)
    ensures SurplusGrows(ModestLoop(turns, modest, limit, made, s), s, RetryLoop(turns, limit, made, s).0)
    decreases limit - made
  {
    assert SurplusGrows(modest(made, s), s, turns(made, s).after);
    if turns(made, s).Again? {
      LoopSurplus(turns, modest, limit, made + 1, turns(made, s).after);
    }
  }

  predicate ModestStep(env: Env, config: Configuration, i: nat, oracle: Oracle, s: RunnerState)
    requires i < |env.steps|
  {
    TurnsStop(env, config, i, oracle);
    ModestLoop(TurnsOf(env, config, i, oracle), ModestyOf(env, config, i, oracle), env.retry.limit, 0,
               EnterStep(s, env.steps[i]))
  }

  lemma StepSurplus(env: Env, config: Configuration, i: nat, oracle: Oracle, s: RunnerState)
    requires i < |env.steps|
    ensures SurplusGrows(ModestStep(env, config, i, oracle, s), s, RunStep(env, config, i, oracle, s).0)
  {
    TurnsStop(env, config, i, oracle);
    TurnsGrowSurplus(env, config, i, oracle);
    EnterStepKeepsSurplus(s, env.steps[i]);
    LoopSurplus(TurnsOf(env, config, i, oracle), ModestyOf(env, config, i, oracle), env.retry.limit, 0,
                EnterStep(s, env.steps[i]));
  }

  lemma TurnsGrowSurplus(env: Env, config: Configuration, i: nat, oracle: Oracle)
    requires i < |env.steps|
    ensures TurnsGrow(TurnsOf(env, config, i, oracle), ModestyOf(env, config, i, oracle))
  {
    var turns, modest := TurnsOf(env, config, i, oracle), ModestyOf(env, config, i, oracle);
    forall n: nat, t ensures SurplusGrows(modest(n, t), t, turns(n, t).after) {
      TurnsApply(env, config, i, oracle, n, t);
      TurnCountsRetries(env, config, i, n + 1, oracle(i, n + 1), t);
    }
  }

  lemma EnterStepKeepsSurplus(s: RunnerState, step: Step)
    ensures Surplus(EnterStep(s, step)) == Surplus(s)
  {
    EnterStepCollects(DelayOf, s, step);
    EnterStepMoves(s, step);
  }

  type StepModesty = RunnerState -> bool

  function ModestStepsOf(env: Env, config: Configuration, oracle: Oracle): (r: seq<StepModesty>)
    ensures |r| == |env.steps|
  {
    seq(|env.steps|, i requires 0 <= i < |env.steps| => (s: RunnerState) => ModestStep(env, config, i, oracle, s))
  }

  /** Every step the step loop runs is modest. */
  predicate ModestFrom(runners: seq<StepRunner>, modest: seq<StepModesty>, i: nat, s: RunnerState)
    requires i <= |runners| == |modest|
    decreases |runners| - i
  {
    i < |runners| ==>
      modest[i](s) && (runners[i](s).1.StepDone? ==> ModestFrom(runners, modest, i + 1, runners[i](s).0))
  }

  lemma {:induction false} StepsSurplus(runners: seq<StepRunner>, modest: seq<StepModesty>, start: nat, i: nat,
                                        s: RunnerState)
    requires i <= |runners| == |modest|
    requires forall j: nat, t :: j < |runners| ==> SurplusGrows(modest[j](t), t, runners[j](t).0)
    ensures SurplusGrows(ModestFrom(runners, modest, i, s), s, StepLoop(runners, start, i, s).0)
    decreases |runners| - i
  {
    if i == |runners| {
      EnterKeepsSurplus(s, Completed);
    } else {
      var (after, end) := runners[i](s);
      assert SurplusGrows(modest[i](s), s, after);
      if end.StepDone? {
        StepsSurplus(runners, modest, start, i + 1, after);
      } else {
        RollbackKeepsSurplus(after, start, i);
      }
    }
  }

  /** No attempt of the run reports more retries than the runner has counted by then. */
  predicate ModestRun(env: Env, config: Configuration, start: nat, oracle: Oracle, s: RunnerState)
    requires start <= |env.steps|
  {
    ModestFrom(RunnersOf(env, config, oracle), ModestStepsOf(env, config, oracle), start, s)
  }

  /** The runner's retry count grows by at least the number of retries of the run, one
      for each sleep, and by exactly that number if and only if no custom step
      reports more retries than were counted when it did. */
  lemma RetriedItemsCountRetries(env: Env, config: Configuration, start: nat, oracle: Oracle, s: RunnerState)
    requires start <= |env.steps|
    ensures var after := RunSteps(env, config, start, oracle, s).0;
            var counted, slept := Retried(after.counters) - Retried(s.counters), |SleepsIn(after)| - |SleepsIn(s)|;
            && counted >= slept
            && (counted == slept <==> ModestRun(env, config, start, oracle, s))
  {
    var runners, modest := RunnersOf(env, config, oracle), ModestStepsOf(env, config, oracle);
    forall j: nat, t | j < |runners| ensures SurplusGrows(modest[j](t), t, runners[j](t).0) {
      RunnersApply(env, config, oracle, j, t);
      StepSurplus(env, config, j, oracle, t);
    }
    StepsSurplus(runners, modest, start, start, s);
  }

  /** The count is too high as soon as the run's first step reports more than was counted. */
  lemma OverReportIsCounted(env: Env, config: Configuration, start: nat, oracle: Oracle, s: RunnerState)
    requires start < |env.steps|
    requires ReportsRetries(env, config, start, oracle(start, 1), EnterStep(s, env.steps[start]))
    requires Retried(oracle(start, 1).counters) > Retried(s.counters)
    ensures var after := RunSteps(env, config, start, oracle, s).0;
            Retried(after.counters) - Retried(s.counters) > |SleepsIn(after)| - |SleepsIn(s)|
  {
    RetriedItemsCountRetries(env, config, start, oracle, s);
    EnterStepMoves(s, env.steps[start]);
    TurnsStop(env, config, start, oracle);
    assert !ModestStep(env, config, start, oracle, s);
    var modest := ModestStepsOf(env, config, oracle);
    assert !modest[start](s);
  }

  /** Such a run exists: one custom step that reports one retry and succeeds at once. */
  lemma OverReportExists(job: string, retry: RetryRules, step: Step, w: World)
    returns (env: Env, oracle: Oracle, s: RunnerState)
    requires step.Custom?
    ensures env.steps == [step] && s.world == w
    ensures var after := RunSteps(env, FreshConfig(env), 0, oracle, s).0;
            Retried(after.counters) - Retried(s.counters) > |SleepsIn(after)| - |SleepsIn(s)|
  {
    var bodies := Bodies((_, _, _, _, machine, w) => BodyEnd(w, machine, true, false),
                         (_, _, _, _, machine, w) => BodyEnd(w, machine, false, false));
    env := Env(bodies, job, [step], retry, None, None);
    oracle := (i, n) => Choice(None, Uploads.StopPoint([], 0), Some(Counters(1, 0, 0, 0)), RESTORED_REPORT, false);
    s := RunnerState(w, MigrationState.Created, None, map[], map[], []);
    OverReportIsCounted(env, FreshConfig(env), 0, oracle, s);
  }

  /** No step is ever told to report more retries than the run starts with. */
  ghost predicate Quiet(oracle: Oracle, floor: nat) {
    forall i, n :: Retried(oracle(i, n).counters) <= floor
  }

  ghost function CountsRetries(from: RunnerState): StateInv {
    (t: RunnerState) => Retried(t.counters) >= Retried(from.counters) && Surplus(t) == Surplus(from)
  }

  lemma TurnsCountRetries(env: Env, config: Configuration, oracle: Oracle, s: RunnerState)
    requires Quiet(oracle, Retried(s.counters))
    ensures KeptByTurns(env, config, oracle, CountsRetries(s))
  {
    var p := CountsRetries(s);
    forall i: nat, number: nat, t | i < |env.steps| && p(t)
      ensures p(TakeTurn(env, config, i, number, oracle(i, number), t).after)
    {
      TurnCountsRetries(env, config, i, number, oracle(i, number), t);
      TurnCountersGrow(env, config, i, number, oracle(i, number), t);
    }
  }

  lemma MovesCountNothing(s: RunnerState)
    ensures KeptByMoves(CountsRetries(s))
  {
    var p := CountsRetries(s);
    forall t, state | p(t) ensures p(Enter(t, state)) {
      EnterKeepsSurplus(t, state);
    }
    forall t, at | p(t) ensures p(Logged(t, RolledBack(at))) {
      CollectLogged(DelayOf, t, RolledBack(at));
    }
  }

  /** A caller can rely on the exact count when no step reports more retries than
      the run starts with, in particular when steps report none. */
  lemma QuietRunsCountRetries(env: Env, config: Configuration, start: nat, oracle: Oracle, s: RunnerState)
    requires start <= |env.steps| && Quiet(oracle, Retried(s.counters))
    ensures var after := RunSteps(env, config, start, oracle, s).0;
            Retried(after.counters) == Retried(s.counters) + |SleepsIn(after)| - |SleepsIn(s)|
  {
    TurnsCountRetries(env, config, oracle, s);
    MovesCountNothing(s);
    RunPreserves(env, config, start, oracle, s, CountsRetries(s));
  }
}
