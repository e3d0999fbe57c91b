/** The migration lifecycle and its transition guard. */
module StateMachine {
  import opened Prelude

  datatype MigrationState =
    | Created | Initializing | Discovering | Extracting | Transforming | Uploading
    | Verifying | Finalizing | Completed | Failed | Paused | Cancelled

  /** A state as a checkpoint stores it: its spelling, which may also be one the
      enumeration does not know. */
  datatype StoredState = Known(state: MigrationState) | Unrecognised(text: string)

  predicate Terminal(s: MigrationState) {
    s in {Completed, Failed, Cancelled}
  }

  predicate CanTransition(current: MigrationState, state: MigrationState) {
    if Terminal(current) then state == current else true
  }

  /** Transition when the guard allows it, as every step and the runner do. */
  function Advance(current: MigrationState, state: MigrationState): (r: MigrationState)
    ensures Terminal(current) ==> r == current
  {
    if CanTransition(current, state) then state else current
  }

  /** Position of a state in the canonical lifecycle order. */
  function LifecycleRank(s: MigrationState): nat {
    match s
    case Created => 0
    case Initializing => 1
    case Discovering => 2
    case Extracting => 3
    case Transforming => 4
    case Uploading => 5
    case Verifying => 6
    case Finalizing => 7
    case Completed => 8
    case Failed => 9
    case Paused => 10
    case Cancelled => 11
  }

  class MigrationStateMachine {
    var currentState: MigrationState
    var previousState: Option<MigrationState>
    const initialState: MigrationState

    constructor (currentState: MigrationState)
      ensures this.currentState == currentState && previousState == None && initialState == currentState
    {
      this.currentState := currentState;
      previousState := None;
      initialState := currentState;
    }

    /** Moves to a state, or reports false and changes nothing where the source raises. */
    method TransitionTo(state: MigrationState) returns (ok: bool)
      modifies this`currentState, this`previousState
      ensures ok == CanTransition(old(currentState), state)
      ensures ok ==> currentState == state && previousState == Some(old(currentState))
      ensures !ok ==> currentState == old(currentState) && previousState == old(previousState)
    {
      if !CanTransition(currentState, state) {
        return false;
      }
      previousState := Some(currentState);
      currentState := state;
      return true;
    }

    method Reset()
      modifies this`currentState, this`previousState
      ensures currentState == initialState && previousState == None
    {
      currentState := initialState;
      previousState := None;
    }
  }
}
