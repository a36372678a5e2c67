/** The game's state machine (lib/game/engine/GameState.ts): the current
    and the previous phase, the time spent in the current phase, and a fixed
    table of allowed transitions. A disallowed transition is refused and
    changes nothing. */
module States {

  datatype Phase = Idle | Playing | Paused | GameOver | DeathModal | Countdown

  /** The allowed successors of each phase. */
  function Successors(p: Phase): seq<Phase> {
    match p
    case Idle => [Playing]
    case Playing => [Paused, GameOver, DeathModal]
    case Paused => [Playing, Idle]
    case GameOver => [Idle, Playing]
    case DeathModal => [Countdown, Idle]
    case Countdown => [Playing]
  }

  predicate CanTransition(from: Phase, to: Phase) {
    to in Successors(from)
  }

  /** No phase may be re-entered from itself. */
  lemma NoSelfTransitions(p: Phase)
    ensures !CanTransition(p, p)
  {
  }

  /** Play is entered only from the start screen, a pause, game over or the
      end of a countdown; the death modal only from play. */
  lemma EntriesIntoPlay(p: Phase)
    ensures CanTransition(p, Playing) <==> p in {Idle, Paused, GameOver, Countdown}
    ensures CanTransition(p, DeathModal) <==> p == Playing
    ensures CanTransition(p, Countdown) <==> p == DeathModal
  {
  }

  /** The start screen and the countdown both lead only into play. */
  lemma OnlyPlayFollows(q: Phase)
    ensures CanTransition(Idle, q) <==> q == Playing
    ensures CanTransition(Countdown, q) <==> q == Playing
  {
  }

  /** A sequence of phases in which every step is allowed. */
  predicate IsRun(r: seq<Phase>) {
    forall i :: 0 <= i < |r| - 1 ==> CanTransition(r[i], r[i + 1])
  }

  /** A shortest allowed route from a phase back to the start screen. */
  function RouteToIdle(p: Phase): (r: seq<Phase>)
    ensures |r| >= 1 && r[0] == p && r[|r| - 1] == Idle
    ensures IsRun(r)
    ensures forall i :: 0 <= i < |r| - 1 ==> r[i] != Idle
  {
    match p
    case Idle => [Idle]
    case Playing => [Playing, Paused, Idle]
    case Paused => [Paused, Idle]
    case GameOver => [GameOver, Idle]
    case DeathModal => [DeathModal, Idle]
    case Countdown => [Countdown, Playing, Paused, Idle]
  }

  class GameState {
    var state: Phase
    var previousState: Phase
    var stateTime: real

    /** The recorded previous phase is one the machine could have come
        from: either nothing has happened since a reset, or the last change
        was an allowed transition. */
    ghost predicate Valid()
      reads this
    {
      (previousState == Idle && state == Idle) || CanTransition(previousState, state)
    }

    constructor ()
      ensures Valid()
      ensures state == Idle && previousState == Idle && stateTime == 0.0
    {
      state := Idle;
      previousState := Idle;
      stateTime := 0.0;
    }

    function Current(): Phase
      reads this
    {
      state
    }

    predicate Is(s: Phase)
      reads this
    {
      state == s
    }

    predicate IsAny(states: seq<Phase>)
      reads this
    {
      state in states
    }

    /** Moves to `newState` when the table allows it, remembering the old
        phase and restarting the phase clock; otherwise refuses and changes
        nothing. */
    method Transition(newState: Phase) returns (ok: bool)
      requires Valid()
      modifies this
      ensures Valid()
      ensures ok <==> CanTransition(old(state), newState)
      ensures ok ==> state == newState && previousState == old(state) && stateTime == 0.0
      ensures !ok ==> state == old(state) && previousState == old(previousState) && stateTime == old(stateTime)
    {
      if !CanTransitionTo(newState) {
        return false;
      }

      previousState := state;
      state := newState;
      stateTime := 0.0;
      return true;
    }

    predicate CanTransitionTo(newState: Phase)
      reads this
    {
      CanTransition(state, newState)
    }

    method Update(deltaTime: real)
      modifies this
      ensures stateTime == old(stateTime) + deltaTime
      ensures state == old(state) && previousState == old(previousState)
    {
      stateTime := stateTime + deltaTime;
    }

    method Reset()
      modifies this
      ensures Valid()
      ensures state == Idle && previousState == Idle && stateTime == 0.0
    {
      state := Idle;
      previousState := Idle;
      stateTime := 0.0;
    }
  }
}
