/** The game engine (lib/game/engine/GameEngine.ts): it owns the state
    machine, the input, the player, the obstacle generator and the
    difficulty, and drives them from frame callbacks.

    The browser's frame scheduler is modelled as the map `pending` from
    handles to the callback each will run: `requestAnimationFrame` adds an
    entry under a new handle, `cancelAnimationFrame` removes one, and the
    platform fires a frame by calling `RunFrame` with a pending handle. What
    the engine tells its host (the callbacks) and which sound cues it plays
    are recorded, in order, in `events`. The clock (`performance.now()` and
    the frame timestamp) and the random draws of the obstacle generator are
    parameters. Drawing is left out. */
module Engine {
  import opened GameConfig
  import opened Wrappers
  import opened Geometry
  import opened Entities
  import opened Players
  import opened Obstacles
  import opened Generators
  import opened Difficulty
  import opened States
  import opened Input
  import opened EngineRules

  /** The three frame callbacks the engine schedules. */
  datatype Loop = IdleFrame | GameFrame | CountdownFrame

  /** The sound cues the engine plays. */
  datatype Cue = StartCue | JumpCue | PointCue | GameOverCue | MilestoneCue

  /** What the engine reports: the host callbacks and the sound cues. */
  datatype Event =
    | GameStarted
    | ScoreChanged(score: int)
    | HighScoreChanged(highScore: int)
    | GameEnded(finalScore: int)
    | LifeUsed
    | Sound(cue: Cue)

  /** The lives the host hands in: how many are left, when they were last
      refilled and how long until the next refill (both only displayed). */
  datatype LivesState = LivesState(count: int, lastResetAt: real, secondsUntilReset: real)

  /** A life is left to continue with. */
  predicate CanContinue(lives: Option<LivesState>)
    ensures CanContinue(lives) ==> lives.Some?
  {
    lives.Some? && lives.value.count > 0
  }

  /** The schedule after cancelling `handle`, when there is one. */
  function Without(p: map<nat, Loop>, handle: Option<nat>): (q: map<nat, Loop>)
    ensures forall h :: h in q <==> h in p && handle != Some(h)
    ensures forall h :: h in q ==> q[h] == p[h]
  {
    if handle.Some? then p - {handle.value} else p
  }

  /** The kind of the recorded active loop, when it is pending. */
  function ActiveKind(p: map<nat, Loop>, active: Option<nat>): Option<Loop> {
    if active.Some? && active.value in p then Some(p[active.value]) else None
  }

  /** The scheduling discipline between frames. The idle loop is pending
      exactly under the recorded idle handle, and it is pending whenever the
      game waits for the player (start screen, game over, death modal). The
      game loop or the countdown loop is pending exactly under the recorded
      animation handle, and one of them is pending exactly while playing or
      counting down, matching the phase. */
  predicate ScheduleOk(p: map<nat, Loop>, idle: Option<nat>, active: Option<nat>, phase: Phase) {
    && (idle.Some? ==> idle.value in p && p[idle.value] == IdleFrame)
    && (forall h :: h in p && p[h] == IdleFrame ==> idle == Some(h))
    && (phase == Idle || phase == GameOver || phase == DeathModal ==> idle.Some?)
    && (active.Some? ==> active.value in p && p[active.value] != IdleFrame)
    && (forall h :: h in p && p[h] != IdleFrame ==> active == Some(h))
    && (phase == Playing <==> ActiveKind(p, active) == Some(GameFrame))
    && (phase == Countdown <==> ActiveKind(p, active) == Some(CountdownFrame))
  }

  /** Under the discipline at most one idle loop and at most one other loop
      are pending, and a pending game or countdown loop matches the phase. */
  lemma ScheduleOkMeansOneOfEach(p: map<nat, Loop>, idle: Option<nat>, active: Option<nat>, phase: Phase,
                                 h1: nat, h2: nat)
    requires ScheduleOk(p, idle, active, phase)
    requires h1 in p && h2 in p
    ensures p[h1] == IdleFrame && p[h2] == IdleFrame ==> h1 == h2
    ensures p[h1] != IdleFrame && p[h2] != IdleFrame ==> h1 == h2
    ensures p[h1] == GameFrame ==> phase == Playing
    ensures p[h1] == CountdownFrame ==> phase == Countdown
  {
  }

  /** Adding a fresh handle keeps every pending callback as it was. */
  lemma AddKeeps(p: map<nat, Loop>, h: nat, k: Loop)
    requires h !in p
    ensures forall j :: j in p ==> j in p[h := k] && p[h := k][j] == p[j]
  {
  }

  /** A run started from a waiting phase puts the game loop beside the
      idle loop, which is left to lapse. */
  lemma RunScheduled(p: map<nat, Loop>, idle: Option<nat>, active: Option<nat>, phase: Phase, n: nat)
    requires n !in p && ScheduleOk(p, idle, active, phase)
    requires phase == Idle || phase == GameOver
    ensures ScheduleOk(p[n := GameFrame], idle, Some(n), Playing)
  {
    AddKeeps(p, n, GameFrame);
  }

  /** The fired game or countdown loop may be replaced by a new one under
      a fresh handle, for a phase that matches the new loop. */
  lemma ActiveReplaced(p: map<nat, Loop>, h: nat, n: nat, idle: Option<nat>,
                       k1: Loop, ph1: Phase, k2: Loop, ph2: Phase)
    requires h !in p && n !in p && k1 != IdleFrame && k2 != IdleFrame
    requires ScheduleOk(p[h := k1], idle, Some(h), ph1)
    requires (ph2 == Playing <==> k2 == GameFrame) && (ph2 == Countdown <==> k2 == CountdownFrame)
    ensures ScheduleOk(p[n := k2], idle, Some(n), ph2)
  {
    var q, r := p[h := k1], p[n := k2];
    assert forall k :: k in p ==> q[k] == p[k] && r[k] == p[k];
    forall k | k in p
      ensures p[k] == IdleFrame
    {
      assert q[k] == p[k];
    }
  }

  /** The fired game or countdown loop may lapse once play is over, when
      the idle loop is already pending. */
  lemma ActiveDropped(p: map<nat, Loop>, h: nat, idle: Option<nat>, k1: Loop, ph1: Phase, ph2: Phase)
    requires h !in p && k1 != IdleFrame && idle.Some?
    requires ScheduleOk(p[h := k1], idle, Some(h), ph1)
    requires ph2 != Playing && ph2 != Countdown
    ensures ScheduleOk(p, idle, None, ph2)
  {
    var q := p[h := k1];
    forall k | k in p
      ensures p[k] == IdleFrame
    {
      assert q[k] == p[k];
    }
  }

  /** The fired game or countdown loop may lapse once play is over, when
      the idle loop is requested in its place. */
  lemma ActiveDroppedIdleAdded(p: map<nat, Loop>, h: nat, n: nat, k1: Loop, ph1: Phase, ph2: Phase)
    requires h !in p && n !in p && k1 != IdleFrame
    requires ScheduleOk(p[h := k1], None, Some(h), ph1)
    requires ph2 != Playing && ph2 != Countdown
    ensures ScheduleOk(p[n := IdleFrame], Some(n), None, ph2)
  {
    AddKeeps(p, h, k1);
  }

  /** While the game waits for the player, the fired idle loop was the
      only pending callback and no other loop is recorded. */
  lemma WaitingSchedule(p: map<nat, Loop>, h: nat, active: Option<nat>, phase: Phase)
    requires h !in p && ScheduleOk(p[h := IdleFrame], Some(h), active, phase)
    requires phase == Idle || phase == GameOver || phase == DeathModal
    ensures p == map[] && active == None
  {
    AddKeeps(p, h, IdleFrame);
  }

  /** The fired idle loop may be replaced by a new one under a fresh handle. */
  lemma IdleRequeued(p: map<nat, Loop>, h: nat, n: nat, active: Option<nat>, phase: Phase)
    requires h !in p && n !in p && ScheduleOk(p[h := IdleFrame], Some(h), active, phase)
    ensures ScheduleOk(p[n := IdleFrame], Some(n), active, phase)
  {
    var q, r := p[h := IdleFrame], p[n := IdleFrame];
    assert forall k :: k in p ==> q[k] == p[k] && r[k] == p[k];
    assert ActiveKind(r, active) == ActiveKind(q, active);
  }

  /** During play the fired idle loop may lapse. */
  lemma IdleLapsed(p: map<nat, Loop>, h: nat, active: Option<nat>)
    requires h !in p && ScheduleOk(p[h := IdleFrame], Some(h), active, Playing)
    ensures ScheduleOk(p, None, active, Playing)
  {
    var q := p[h := IdleFrame];
    assert forall k :: k in p ==> q[k] == p[k];
    assert ActiveKind(p, active) == ActiveKind(q, active);
  }

  /** Only the game loop pending suits play. */
  lemma OnlyGameLoop(n: nat)
    ensures ScheduleOk(map[n := GameFrame], None, Some(n), Playing)
  {
  }

  /** After the death modal's keys either the countdown loop alone is
      pending, or the idle loop alone outside play. */
  lemma ModalRescheduled(p: map<nat, Loop>, idle: Option<nat>, active: Option<nat>, phase: Phase)
    requires phase == Countdown ==> idle == None && active.Some? && p == map[active.value := CountdownFrame]
    requires phase != Countdown ==> phase != Playing && active == None && idle.Some? && p == map[idle.value := IdleFrame]
    ensures ScheduleOk(p, idle, active, phase)
  {
  }

  /** What `gameOver` reports: the game-over cue, the new high score when
      there is one, and the final score unless the lives system shows the
      death modal instead. */
  function GameOverEvents(score: real, highScore: real, lives: Option<LivesState>): (r: seq<Event>)
    ensures 1 <= |r| <= 3 && r[0] == Sound(GameOverCue)
    ensures HighScoreChanged(score.Floor) in r <==> score > highScore
    ensures GameEnded(score.Floor) in r <==> lives.None?
  {
    [Sound(GameOverCue)]
    + (if score > highScore then [HighScoreChanged(score.Floor)] else [])
    + (if lives.None? then [GameEnded(score.Floor)] else [])
  }

  /** The death-modal selection after the arrow keys of one frame: up picks
      "continue" when a life is left and "restart" otherwise; down picks
      "restart". */
  function SelectionAfterKeys(selection: Choice, up: bool, down: bool, canContinue: bool): (c: Choice)
    ensures c == Continue ==> canContinue || (!up && !down && selection == Continue)
    ensures down && !up ==> c == Restart
  {
    if up then (if canContinue then Continue else Restart)
    else if down then Restart
    else selection
  }

  /** The engine's values a step starts from: the run's score and high
      score, the lives, the phase and the schedule. */
  datatype Run = Run(score: real, highScore: real, isNewHighScore: bool, livesState: Option<LivesState>,
                     phase: Phase, pending: map<nat, Loop>, nextHandle: nat,
                     idleLoopId: Option<nat>, animationFrameId: Option<nat>)

  /** The schedule after `gameOver`, from the schedule of `before`: the
      active loop is cancelled and the idle loop requested unless one is
      recorded. */
  predicate ScheduleEnded(before: Run, pending: map<nat, Loop>, nextHandle: nat,
                          idleLoopId: Option<nat>, animationFrameId: Option<nat>)
  {
    && animationFrameId == None
    && var p := Without(before.pending, before.animationFrameId);
       if before.idleLoopId.Some?
       then pending == p && idleLoopId == before.idleLoopId && nextHandle == before.nextHandle
       else pending == p[before.nextHandle := IdleFrame] && idleLoopId == Some(before.nextHandle) &&
            nextHandle == before.nextHandle + 1
  }

  /** The obstacle is active and its box meets the box. */
  ghost predicate HitBy(box: Rect, o: Obstacle)
    reads o.body, o.body.position
  {
    o.body.active && Intersects(box, o.body.GetHitbox())
  }

  /** Some obstacle of `s` is hit by the box, scanning from the back. */
  ghost predicate Hits(box: Rect, s: seq<Obstacle>)
    reads set o | o in s :: o.body
    reads set o | o in s :: o.body.position
  {
    if |s| == 0 then false
    else
      var prefix := s[..|s| - 1];
      assert forall o :: o in prefix ==> o in s;
      Hits(box, prefix) || HitBy(box, s[|s| - 1])
  }

  /** `Hits` depends only on the obstacles' bodies and positions. */
  twostate lemma HitsFrame(s: seq<Obstacle>)
    requires forall o :: o in s ==> unchanged(o.body, o.body.position)
    ensures forall box :: Hits(box, s) == old(Hits(box, s))
  {
  }

  /** `Hits` holds exactly when some index of `s` is hit, which is what the
      front-to-back scan of `checkCollisions` looks for. */
  lemma {:induction false} HitsSomeIndex(box: Rect, s: seq<Obstacle>)
    ensures Hits(box, s) <==> exists i :: 0 <= i < |s| && HitBy(box, s[i])
  {
    if |s| > 0 {
      var prefix := s[..|s| - 1];
      HitsSomeIndex(box, prefix);
      assert forall i :: 0 <= i < |prefix| ==> prefix[i] == s[i];
      if Hits(box, s) && !HitBy(box, s[|s| - 1]) {
        var i :| 0 <= i < |prefix| && HitBy(box, prefix[i]);
        assert HitBy(box, s[i]);
      }
      if !Hits(box, s) {
        forall i | 0 <= i < |s|
          ensures !HitBy(box, s[i])
        {
          if i < |prefix| {
            assert s[i] == prefix[i];
          }
        }
      }
    }
  }

  /** The platform's frame scheduler (`requestAnimationFrame` and
      `cancelAnimationFrame`): the callbacks it holds, by handle, and the
      handle it hands out next. Handles are never reused. */
  class FrameScheduler {
    var pending: map<nat, Loop>
    var nextHandle: nat

    ghost predicate Valid()
      reads this
    {
      forall h :: h in pending ==> h < nextHandle
    }

    constructor ()
      ensures Valid() && pending == map[] && nextHandle == 0
    {
      pending := map[];
      nextHandle := 0;
    }

    /** `requestAnimationFrame`: a new handle, under which `loop` runs on a
        coming frame. */
    method Request(loop: Loop) returns (handle: nat)
      requires Valid()
      modifies this
      ensures Valid()
      ensures handle == old(nextHandle) && handle !in old(pending) && nextHandle == handle + 1
      ensures pending == old(pending)[handle := loop]
    {
      handle := nextHandle;
      pending := pending[handle := loop];
      nextHandle := nextHandle + 1;
    }

    /** `cancelAnimationFrame`: a pending callback is dropped; any other
        handle is ignored. */
    method Cancel(handle: nat)
      requires Valid()
      modifies this
      ensures Valid()
      ensures pending == old(pending) - {handle} && nextHandle == old(nextHandle)
    {
      pending := pending - {handle};
    }

    /** The platform fires a pending frame: the callback leaves the
        schedule and is run. */
    method Take(handle: nat) returns (loop: Loop)
      requires Valid() && handle in pending
      modifies this
      ensures Valid()
      ensures loop == old(pending)[handle] && pending == old(pending) - {handle}
      ensures nextHandle == old(nextHandle)
    {
      loop := pending[handle];
      pending := pending - {handle};
    }
  }

  class GameEngine {
    const gameState: GameState
    const input: InputManager
    const player: Player
    const generator: ObstacleGenerator
    const difficulty: DifficultyManager
    /** The platform's frame scheduler the engine requests frames from. */
    const frames: FrameScheduler

    var score: real
    var highScore: real
    var groundOffset: real
    var lastTimestamp: real
    var animationFrameId: Option<nat>
    var idleLoopId: Option<nat>
    var isNewHighScore: bool
    var livesState: Option<LivesState>
    var deathModalSelection: Choice
    var countdownValue: int
    var countdownStartTime: real
    var hoveredOption: Option<Choice>
    /** Everything reported so far, in order. */
    var events: seq<Event>

    ghost function Footprint(): set<object>
      reads generator
    {
      {this, gameState, input, difficulty, frames} + player.Repr() + generator.Repr
    }

    /** The sub-systems are valid and own disjoint objects. Only the
        sub-systems are read, so changing the engine's own fields keeps it. */
    ghost predicate Valid()
      reads gameState, frames, difficulty, generator, player, player.body, player.body.position, player.body.velocity
    {
      gameState.Valid() && frames.Valid() && PartsValid()
    }

    /** The player, the obstacles and the difficulty are valid, and the
        obstacles own nothing of the player's or the engine's. */
    ghost predicate PartsValid()
      reads difficulty, generator, player, player.body, player.body.position, player.body.velocity
    {
      && player.Valid() && generator.Valid() && difficulty.Valid()
      && player.Repr() !! generator.Repr
      && this !in generator.Repr && gameState !in generator.Repr && input !in generator.Repr
      && difficulty !in generator.Repr && frames !in generator.Repr
    }

    ghost predicate Scheduled()
      reads this`idleLoopId, this`animationFrameId, gameState, frames
    {
      ScheduleOk(frames.pending, idleLoopId, animationFrameId, gameState.state)
    }

    /** The run's own fields other than the modal selection are kept. */
    twostate predicate RunKept()
      reads this`score, this`highScore, this`groundOffset, this`lastTimestamp, this`isNewHighScore,
              this`livesState, this`countdownValue, this`countdownStartTime, this`hoveredOption, this`events
    {
      && score == old(score) && highScore == old(highScore) && groundOffset == old(groundOffset)
      && lastTimestamp == old(lastTimestamp) && isNewHighScore == old(isNewHighScore)
      && livesState == old(livesState) && countdownValue == old(countdownValue)
      && countdownStartTime == old(countdownStartTime) && hoveredOption == old(hoveredOption)
      && events == old(events)
    }

    twostate predicate ScheduleKept()
      reads this`idleLoopId, this`animationFrameId, frames
    {
      frames.pending == old(frames.pending) && frames.nextHandle == old(frames.nextHandle) &&
      idleLoopId == old(idleLoopId) && animationFrameId == old(animationFrameId)
    }
    /** The sub-systems are untouched. */
    twostate predicate WorldKept()
      reads gameState, player, player.body, player.body.position, player.body.velocity, generator, difficulty
    {
      unchanged(gameState, player, player.body, player.body.position, player.body.velocity, generator, difficulty)
    }

    /** A run has begun: everything is reset, play is entered, the host is
        told, and the frame clock restarts at `now`. */
    twostate predicate StartedRun(now: real)
      reads this`score, this`highScore, this`groundOffset, this`lastTimestamp, this`isNewHighScore,
              this`livesState, this`countdownValue, this`countdownStartTime, this`hoveredOption, this`events, this`deathModalSelection,
              gameState, player, player.body, player.body.position, player.body.velocity, generator, difficulty
    {
      && gameState.state == Playing
      && score == 0.0 && groundOffset == 0.0 && !isNewHighScore
      && player.AtSpawn() && generator.Fresh() && difficulty.currentLevel == 0
      && events == old(events) + [Sound(StartCue), GameStarted]
      && lastTimestamp == now
      && highScore == old(highScore) && livesState == old(livesState)
      && deathModalSelection == old(deathModalSelection) && hoveredOption == old(hoveredOption)
      && countdownValue == old(countdownValue) && countdownStartTime == old(countdownStartTime)
    }

    /** Back on the start screen with everything reset, nothing reported. */
    twostate predicate RestartedRun()
      reads this`score, this`highScore, this`groundOffset, this`lastTimestamp, this`isNewHighScore,
              this`livesState, this`countdownValue, this`countdownStartTime, this`hoveredOption, this`events,
              gameState, player, player.body, player.body.position, player.body.velocity, generator, difficulty
    {
      && gameState.state == Idle
      && score == 0.0 && groundOffset == 0.0 && !isNewHighScore
      && player.AtSpawn() && generator.Fresh() && difficulty.currentLevel == 0
      && events == old(events) && lastTimestamp == old(lastTimestamp)
      && highScore == old(highScore) && livesState == old(livesState) && hoveredOption == old(hoveredOption)
      && countdownValue == old(countdownValue) && countdownStartTime == old(countdownStartTime)
    }

    /** A life is spent and the countdown has begun; the run (score,
        player, obstacles, level) is kept as it was at death. */
    twostate predicate ContinuedRun(now: real)
      reads this`score, this`highScore, this`groundOffset, this`lastTimestamp, this`isNewHighScore,
              this`livesState, this`countdownValue, this`countdownStartTime, this`hoveredOption, this`events,
              gameState, player, player.body, player.body.position, player.body.velocity, generator, difficulty
    {
      && old(livesState).Some?
      && livesState == Some(old(livesState).value.(count := old(livesState).value.count - 1))
      && events == old(events) + [LifeUsed]
      && countdownValue == COUNTDOWN_FROM && countdownStartTime == now && lastTimestamp == now
      && gameState.state == (if old(gameState.state) == DeathModal then Countdown else old(gameState.state))
      && score == old(score) && highScore == old(highScore) && groundOffset == old(groundOffset)
      && isNewHighScore == old(isNewHighScore) && hoveredOption == old(hoveredOption)
      && unchanged(player, player.body, player.body.position, player.body.velocity, generator, difficulty)
    }

    /** The run after one frame of death-modal keys: the arrows move the
        selection, and space or up confirms it. */
    twostate predicate ModalHandled(now: real)
      reads this`score, this`highScore, this`groundOffset, this`lastTimestamp, this`isNewHighScore,
              this`livesState, this`countdownValue, this`countdownStartTime, this`hoveredOption, this`events, this`deathModalSelection,
              gameState, player, player.body, player.body.position, player.body.velocity, generator, difficulty
    {
      var canContinue := CanContinue(old(livesState));
      var selection := SelectionAfterKeys(old(deathModalSelection), old(input.IsKeyJustPressed(ARROW_UP)),
                                          old(input.IsKeyJustPressed(ARROW_DOWN)), canContinue);
      && deathModalSelection == selection
      && (old(input.IsJumpJustPressed()) && selection == Continue && canContinue ==> ContinuedRun(now))
      && (old(input.IsJumpJustPressed()) && !(selection == Continue && canContinue) ==> RestartedRun())
      && (!old(input.IsJumpJustPressed()) ==> RunKept() && WorldKept())
    }

    /** The schedule after the modal branch of the idle loop as written: the
        schedule the keys leave (see `ModalScheduled`), then one more idle
        loop requested and recorded. After a confirmed key the recorded
        handle is the second one requested, and the idle loop that
        `startIdleLoop` requested for a restart stays pending unrecorded. */
    twostate predicate ModalRequeuedAsWritten()
      reads this`idleLoopId, this`animationFrameId, this`deathModalSelection, this`livesState, frames
    {
      var n := old(frames.nextHandle);
      var rest := Without(old(frames.pending), old(idleLoopId));
      var canContinue := CanContinue(old(livesState));
      var continued := old(input.IsJumpJustPressed()) && deathModalSelection == Continue && canContinue;
      && (continued ==>
            idleLoopId == Some(n + 1) && animationFrameId == Some(n) && frames.nextHandle == n + 2 &&
            frames.pending == rest[n := CountdownFrame][n + 1 := IdleFrame])
      && (old(input.IsJumpJustPressed()) && !continued ==>
            idleLoopId == Some(n + 1) && animationFrameId == old(animationFrameId) && frames.nextHandle == n + 2 &&
            frames.pending == rest[n := IdleFrame][n + 1 := IdleFrame])
      && (!old(input.IsJumpJustPressed()) ==>
            idleLoopId == Some(n) && animationFrameId == old(animationFrameId) && frames.nextHandle == n + 1 &&
            frames.pending == old(frames.pending)[n := IdleFrame])
    }

    /** The schedule after `startCountdown`: the idle loop is cancelled and
        the countdown loop requested. */
    twostate predicate CountdownScheduled()
      reads this`idleLoopId, this`animationFrameId, frames
    {
      idleLoopId == None && animationFrameId == Some(old(frames.nextHandle)) && frames.nextHandle == old(frames.nextHandle) + 1 &&
      frames.pending == Without(old(frames.pending), old(idleLoopId))[old(frames.nextHandle) := CountdownFrame]
    }

    /** The schedule after a restart: the idle loop is cancelled and a new
        one requested. */
    twostate predicate IdleRescheduled()
      reads this`idleLoopId, this`animationFrameId, frames
    {
      idleLoopId == Some(old(frames.nextHandle)) && animationFrameId == old(animationFrameId) &&
      frames.nextHandle == old(frames.nextHandle) + 1 &&
      frames.pending == Without(old(frames.pending), old(idleLoopId))[old(frames.nextHandle) := IdleFrame]
    }

    /** The schedule after `start`: the game loop is requested. */
    twostate predicate GameLoopScheduled()
      reads this`idleLoopId, this`animationFrameId, frames
    {
      animationFrameId == Some(old(frames.nextHandle)) && frames.nextHandle == old(frames.nextHandle) + 1 &&
      idleLoopId == old(idleLoopId) && frames.pending == old(frames.pending)[old(frames.nextHandle) := GameFrame]
    }

    /** The schedule after death-modal keys. */
    twostate predicate ModalScheduled()
      reads this`idleLoopId, this`animationFrameId, frames
    {
      var canContinue := CanContinue(old(livesState));
      var selection := SelectionAfterKeys(old(deathModalSelection), old(input.IsKeyJustPressed(ARROW_UP)),
                                          old(input.IsKeyJustPressed(ARROW_DOWN)), canContinue);
      && (old(input.IsJumpJustPressed()) && selection == Continue && canContinue ==> CountdownScheduled())
      && (old(input.IsJumpJustPressed()) && !(selection == Continue && canContinue) ==> IdleRescheduled())
      && (!old(input.IsJumpJustPressed()) ==> ScheduleKept())
    }

    /** The run after `gameOver`: the player is dead, a better score becomes
        the high score, and the machine moves to the death modal (with
        lives) or to game over (without), the modal preselecting "continue"
        only while a life is left. */
    twostate predicate EndedRun()
      reads this`score, this`highScore, this`groundOffset, this`lastTimestamp, this`isNewHighScore,
              this`livesState, this`countdownValue, this`countdownStartTime, this`hoveredOption, this`events, this`deathModalSelection,
              gameState, player
    {
      && player.state == Dead && player.isGrounded == old(player.isGrounded)
      && player.animationFrame == old(player.animationFrame) && player.animationTimer == old(player.animationTimer)
      && score == old(score)
      && (old(score) > old(highScore) ==> highScore == old(score) && isNewHighScore)
      && (old(score) <= old(highScore) ==> highScore == old(highScore) && !isNewHighScore)
      && (var target := if old(livesState).Some? then DeathModal else Phase.GameOver;
          gameState.state == if CanTransition(old(gameState.state), target) then target else old(gameState.state))
      && (old(livesState).Some? ==>
            deathModalSelection == if old(livesState).value.count > 0 then Continue else Restart)
      && (old(livesState).None? ==> deathModalSelection == old(deathModalSelection))
      && events == old(events) + GameOverEvents(old(score), old(highScore), old(livesState))
      && groundOffset == old(groundOffset) && lastTimestamp == old(lastTimestamp)
      && livesState == old(livesState) && hoveredOption == old(hoveredOption)
      && countdownValue == old(countdownValue) && countdownStartTime == old(countdownStartTime)
    }

    /** The engine's values now. */
    ghost function RunNow(): Run
      reads this`score, this`highScore, this`isNewHighScore, this`livesState, this`idleLoopId, this`animationFrameId,
            gameState, frames
    {
      Run(score, highScore, isNewHighScore, livesState, gameState.state, frames.pending, frames.nextHandle,
          idleLoopId, animationFrameId)
    }

    /** The schedule after `gameOver`: the active loop is cancelled and the
        idle loop started unless one is recorded. */
    twostate predicate EndedSchedule()
      reads this`idleLoopId, this`animationFrameId, frames
    {
      ScheduleEnded(old(RunNow()), frames.pending, frames.nextHandle, idleLoopId, animationFrameId)
    }

    /** The score, the level and the reports after a frame's checks from
        `before`: the frame's points at `scrollSpeed` plus `bonus`, a whole
        number of pass bonuses; after `prefix`, the game-over reports when
        the frame `collided`, the pass cue, the score and the milestone cue,
        the last by the test as written. */
    ghost predicate FrameScored(before: Run, scrollSpeed: real, prefix: seq<Event>, collided: bool, bonus: int)
      reads this`score, this`events, difficulty
    {
      && 0 <= bonus && bonus % PASS_BONUS == 0
      && score == before.score + ScoreIncrement(scrollSpeed) + bonus as real
      && difficulty.currentLevel == LevelFor(score)
      && events == prefix
                   + (if collided then GameOverEvents(before.score, before.highScore, before.livesState) else [])
                   + (if bonus > 0 then [Sound(PointCue)] else [])
                   + [ScoreChanged(score.Floor)]
                   + (if MilestoneAsWritten(score) then [Sound(MilestoneCue)] else [])
    }

    /** The run after a frame's collision check from `before`: a collision
        kills the player, makes a better score the high score, ends the
        schedule and moves a game in play to the death modal (with lives)
        or to game over; otherwise all of `before` but the score is kept. */
    ghost predicate FrameChecked(before: Run, collided: bool)
      reads this`score, this`highScore, this`isNewHighScore, this`livesState, this`idleLoopId, this`animationFrameId,
            frames, gameState, player
    {
      var now := RunNow();
      && (collided ==>
            player.state == Dead &&
            ScheduleEnded(before, now.pending, now.nextHandle, now.idleLoopId, now.animationFrameId) &&
            now.highScore == (if before.score > before.highScore then before.score else before.highScore) &&
            now.isNewHighScore == (before.score > before.highScore) &&
            (before.phase == Playing ==>
               now.phase == if before.livesState.Some? then DeathModal else Phase.GameOver))
      && (!collided ==> now == before.(score := now.score))
    }

    constructor ()
      ensures fresh(player.Repr()) && fresh(generator.Repr) && fresh(gameState) && fresh(input) && fresh(difficulty) && fresh(frames)
      ensures gameState.state == Idle && player.AtSpawn() && generator.Fresh() && difficulty.currentLevel == 0
      ensures input.keys == map[] && input.justPressed == map[] && input.enabled
      ensures score == 0.0 && highScore == 0.0 && groundOffset == 0.0 && lastTimestamp == 0.0
      ensures frames.pending == map[] && animationFrameId == None && idleLoopId == None
      ensures !isNewHighScore && livesState == None && deathModalSelection == Continue
      ensures countdownValue == COUNTDOWN_FROM && countdownStartTime == 0.0 && hoveredOption == None
      ensures events == []
      ensures Valid()
    {
      score := 0.0;
      highScore := 0.0;
      groundOffset := 0.0;
      lastTimestamp := 0.0;
      animationFrameId := None;
      idleLoopId := None;
      isNewHighScore := false;
      livesState := None;
      deathModalSelection := Continue;
      countdownValue := COUNTDOWN_FROM;
      countdownStartTime := 0.0;
      hoveredOption := None;
      events := [];
      var s := new GameState();
      var i := new InputManager();
      var p := new Player();
      var d := new DifficultyManager();
      var f := new FrameScheduler();
      var g := new ObstacleGenerator();
      gameState, input, player, generator, difficulty, frames := s, i, p, g, d, f;
    }

    /** Sets the engine going: the idle loop listens for the first key. On a
        freshly built engine this establishes the scheduling discipline. */
    method Init()
      requires Valid()
      modifies this`idleLoopId, frames
      ensures Valid() && RunKept() && deathModalSelection == old(deathModalSelection)
      ensures animationFrameId == old(animationFrameId)
      ensures old(idleLoopId).None? ==>
                idleLoopId == Some(old(frames.nextHandle)) &&
                frames.pending == old(frames.pending)[old(frames.nextHandle) := IdleFrame]
      ensures old(idleLoopId).None? ==> frames.nextHandle == old(frames.nextHandle) + 1
      ensures old(idleLoopId).Some? ==> ScheduleKept()
      ensures (old(frames.pending) == map[] && old(idleLoopId).None? && old(animationFrameId).None? &&
               gameState.state == Idle) ==> Scheduled()
    {
      StartIdleLoop();
    }

    /** Requests the idle loop unless one is recorded. */
    method StartIdleLoop()
      requires frames.Valid()
      modifies this`idleLoopId, frames
      ensures frames.Valid()
      ensures old(idleLoopId).Some? ==> ScheduleKept()
      ensures old(idleLoopId).None? ==>
                idleLoopId == Some(old(frames.nextHandle)) && frames.nextHandle == old(frames.nextHandle) + 1 &&
                frames.pending == old(frames.pending)[old(frames.nextHandle) := IdleFrame]
    {
      if idleLoopId.Some? {
        return;
      }
      var handle := frames.Request(IdleFrame);
      idleLoopId := Some(handle);
    }

    /** Cancels the recorded idle loop, if any, and forgets it. */
    method StopIdleLoop()
      requires frames.Valid()
      modifies this`idleLoopId, frames
      ensures frames.Valid()
      ensures idleLoopId == None && frames.pending == Without(old(frames.pending), old(idleLoopId))
      ensures frames.nextHandle == old(frames.nextHandle)
    {
      if idleLoopId.Some? {
        frames.Cancel(idleLoopId.value);
        idleLoopId := None;
      }
    }

    /** Fires one pending frame. The idle loop run here is the corrected
        one (see `IdleLoop`); with it, the scheduling discipline holds
        after every frame. */
    method RunFrame(handle: nat, timestamp: real, now: real, draws: SpawnDraws)
      requires Valid() && Scheduled()
      requires handle in frames.pending
      modifies Footprint()
      ensures Valid() && Scheduled()
      ensures fresh(Footprint() - old(Footprint()))
    {
      ghost var before := frames.pending;
      var loop := frames.Take(handle);
      assert frames.pending[handle := loop] == before;
      match loop
      case IdleFrame => IdleLoop(now);
      case GameFrame => GameLoop(handle, timestamp, now, draws);
      case CountdownFrame => CountdownLoop(handle, timestamp, now);
    }

    /** The idle loop, corrected. As written, the loop never forgets its own
        handle once it has fired: when it fires during play it lapses but
        stays recorded, and `startIdleLoop` at the next death then requests
        nothing (see `IdleLoopAsWritten`). Here the fired handle is
        forgotten on entry and every re-request goes through
        `startIdleLoop`, so exactly the recorded idle loop is pending.

        On the start screen with no lives left it only waits. In the death
        modal it handles the modal's keys. On the start screen or after a
        game over, a jump starts a run. In any other phase it only waits,
        and it lapses once play is under way. */
    method IdleLoop(now: real)
      requires Valid()
      requires idleLoopId.Some? && idleLoopId.value !in frames.pending
      requires ScheduleOk(frames.pending[idleLoopId.value := IdleFrame], idleLoopId, animationFrameId, gameState.state)
      modifies Footprint()
      ensures Valid() && Scheduled()
      ensures fresh(Footprint() - old(Footprint()))
      ensures var s := old(gameState.state);
              var noLives := old(livesState).Some? && old(livesState).value.count == 0;
              var starts := ((s == Idle && !noLives) || s == Phase.GameOver) && old(input.IsJumpJustPressed());
              (starts ==> StartedRun(now) && input.justPressed == old(input.justPressed)) &&
              (s == DeathModal ==> ModalHandled(now) && input.justPressed == map[]) &&
              (!starts && s != DeathModal ==>
                 gameState.state == s && RunKept() && WorldKept() && input.justPressed == map[] &&
                 deathModalSelection == old(deathModalSelection))
    {
      ghost var fired := idleLoopId.value;
      ghost var p := frames.pending;
      if gameState.Is(Idle) && livesState.Some? && livesState.value.count == 0 {
        Requeue(p, fired);
        return;
      }

      if gameState.Is(DeathModal) {
        WaitingSchedule(p, fired, animationFrameId, gameState.state);
        ModalIdle(now);
        return;
      }

      if gameState.Is(Idle) || gameState.Is(Phase.GameOver) {
        if input.IsJumpJustPressed() {
          WaitingSchedule(p, fired, animationFrameId, gameState.state);
          StartFromWaiting(now);
          return;
        }
      }

      if !gameState.Is(Playing) {
        Requeue(p, fired);
      } else {
        idleLoopId := None;
        input.ClearJustPressed();
        IdleLapsed(p, fired, animationFrameId);
      }
    }

    /** The idle loop keeps waiting: this frame's presses are dropped and
        the loop is requested again. */
    method Requeue(ghost p: map<nat, Loop>, ghost fired: nat)
      requires frames.Valid() && gameState.state != Playing
      requires idleLoopId == Some(fired) && frames.pending == p
      requires fired !in p && ScheduleOk(p[fired := IdleFrame], Some(fired), animationFrameId, gameState.state)
      modifies this`idleLoopId, frames, input
      ensures frames.Valid() && Scheduled()
      ensures input.justPressed == map[]
    {
      idleLoopId := None;
      input.ClearJustPressed();
      StartIdleLoop();
      IdleRequeued(p, fired, idleLoopId.value, animationFrameId, gameState.state);
    }

    /** A jump on the start screen or after a game over starts a run. */
    method StartFromWaiting(now: real)
      requires Valid() && (gameState.state == Idle || gameState.state == Phase.GameOver)
      requires frames.pending == map[] && idleLoopId.Some? && animationFrameId == None
      modifies this`score, this`groundOffset, this`isNewHighScore, this`events, this`lastTimestamp
      modifies this`animationFrameId, this`idleLoopId, frames
      modifies gameState, player, player.body, player.body.position, player.body.velocity, generator, difficulty
      ensures Valid() && Scheduled()
      ensures fresh(Footprint() - old(Footprint()))
      ensures StartedRun(now)
    {
      idleLoopId := None;
      StopIdleLoop();
      Start(now);
      OnlyGameLoop(animationFrameId.value);
    }

    /** The idle loop in the death modal. It requests its next frame before
        the modal's keys are handled, so that a continue or a restart, which
        stop the idle loop, cancel that frame rather than leave a second
        idle loop behind. */
    method ModalIdle(now: real)
      requires Valid() && gameState.state == DeathModal
      requires frames.pending == map[] && idleLoopId.Some? && animationFrameId == None
      modifies Footprint()
      ensures Valid() && Scheduled()
      ensures fresh(Footprint() - old(Footprint()))
      ensures ModalHandled(now) && input.justPressed == map[]
    {
      RequestIdleFrame();
      ModalKeys(now);
    }

    /** The modal's keys of one frame, handled while the idle loop is
        pending. */
    method ModalKeys(now: real)
      requires Valid() && gameState.state == DeathModal && animationFrameId == None
      requires idleLoopId.Some? && frames.pending == map[idleLoopId.value := IdleFrame]
      modifies Footprint()
      ensures Valid() && Scheduled()
      ensures fresh(Footprint() - old(Footprint()))
      ensures ModalHandled(now) && input.justPressed == map[]
    {
      ProcessDeathModalInput(now);
      input.ClearJustPressed();
      ModalRescheduled(frames.pending, idleLoopId, animationFrameId, gameState.state);
    }

    /** The idle loop as written: the fired handle stays recorded, and the
        loop re-requests itself directly. Fired during play it lapses yet
        leaves its stale handle behind. */
    method IdleLoopAsWritten(now: real)
      requires Valid()
      modifies Footprint()
      ensures fresh(Footprint() - old(Footprint()))
      ensures old(gameState.state) == Playing ==>
                gameState.state == Playing && ScheduleKept() && RunKept() && WorldKept() &&
                input.justPressed == map[]
      ensures Valid()
    {
      if gameState.Is(Idle) && livesState.Some? && livesState.value.count == 0 {
        input.ClearJustPressed();
        RequestIdleFrame();
        return;
      }

      if gameState.Is(DeathModal) {
        ModalAsWritten(now);
        return;
      }

      if gameState.Is(Idle) || gameState.Is(Phase.GameOver) {
        if input.IsJumpJustPressed() {
          StopIdleLoop();
          Start(now);
          return;
        }
      }

      input.ClearJustPressed();
      if !gameState.Is(Playing) {
        RequestIdleFrame();
      }
    }

    /** The modal branch of the idle loop as written: the keys are handled
        first, then the idle loop is requested again and its handle recorded
        over whatever the keys left there. */
    method ModalAsWritten(now: real)
      requires Valid() && gameState.state == DeathModal
      modifies Footprint()
      ensures fresh(Footprint() - old(Footprint()))
      ensures input.justPressed == map[] && idleLoopId.Some?
      ensures ModalRequeuedAsWritten()
      ensures Valid()
    {
      ProcessDeathModalInput(now);
      ClearAndRequestIdle();
    }

    /** The end of an idle frame as written: the keys are consumed and the
        idle loop is requested again over the recorded handle. */
    method ClearAndRequestIdle()
      requires Valid()
      modifies input, this`idleLoopId, frames
      ensures input.justPressed == map[] && idleLoopId.Some?
      ensures idleLoopId == Some(old(frames.nextHandle)) && frames.nextHandle == old(frames.nextHandle) + 1
      ensures frames.pending == old(frames.pending)[old(frames.nextHandle) := IdleFrame]
      ensures Valid()
    {
      input.ClearJustPressed();
      RequestIdleFrame();
    }

    /** `idleLoopId = requestAnimationFrame(idleLoop)`: the idle loop is
        requested and its handle recorded, whatever was recorded before. */
    method RequestIdleFrame()
      requires Valid()
      modifies this`idleLoopId, frames
      ensures idleLoopId == Some(old(frames.nextHandle)) && frames.nextHandle == old(frames.nextHandle) + 1
      ensures frames.pending == old(frames.pending)[old(frames.nextHandle) := IdleFrame]
      ensures Valid()
    {
      var handle := frames.Request(IdleFrame);
      idleLoopId := Some(handle);
    }

    /** Starts a run from the start screen or after a game over; in any
        other phase nothing happens. The idle loop, if pending, is left to
        lapse on its own. */
    method Start(now: real)
      requires Valid()
      modifies this`score, this`groundOffset, this`isNewHighScore, this`events, this`lastTimestamp
      modifies this`animationFrameId, frames
      modifies gameState, player, player.body, player.body.position, player.body.velocity, generator, difficulty
      ensures fresh(Footprint() - old(Footprint()))
      ensures old(gameState.state) == Idle || old(gameState.state) == Phase.GameOver ==>
                StartedRun(now) && GameLoopScheduled()
      ensures !(old(gameState.state) == Idle || old(gameState.state) == Phase.GameOver) ==>
                RunKept() && ScheduleKept() && WorldKept() && deathModalSelection == old(deathModalSelection)
      ensures old(Scheduled()) ==> Scheduled()
      ensures Valid()
    {
      if gameState.Is(Idle) || gameState.Is(Phase.GameOver) {
        BeginRun(now);
      }
    }

    /** `Start` from a waiting phase: a fresh world, the `Playing` phase and
        a requested game loop. */
    method BeginRun(now: real)
      requires Valid() && (gameState.state == Idle || gameState.state == Phase.GameOver)
      modifies this`score, this`groundOffset, this`isNewHighScore, this`events, this`lastTimestamp
      modifies this`animationFrameId, frames
      modifies gameState, player, player.body, player.body.position, player.body.velocity, generator, difficulty
      ensures fresh(Footprint() - old(Footprint()))
      ensures StartedRun(now) && GameLoopScheduled()
      ensures old(Scheduled()) ==> Scheduled()
      ensures Valid()
    {
      ghost var wasScheduled, phase := Scheduled(), gameState.state;
      FreshRun(now);
      RequestGameLoop(wasScheduled, phase);
    }

    /** The world is reset, play is entered, the host is told, and the
        frame clock restarts at `now`. */
    method FreshRun(now: real)
      requires Valid() && (gameState.state == Idle || gameState.state == Phase.GameOver)
      modifies this`score, this`groundOffset, this`isNewHighScore, this`events, this`lastTimestamp
      modifies gameState, player, player.body, player.body.position, player.body.velocity, generator, difficulty
      ensures fresh(Footprint() - old(Footprint()))
      ensures StartedRun(now)
      ensures Valid()
    {
      Reset();
      var accepted := gameState.Transition(Playing);
      events := events + [Sound(StartCue), GameStarted];
      lastTimestamp := now;
    }

    /** The game loop is requested; a schedule that was consistent in a
        waiting phase stays consistent in play. */
    method RequestGameLoop(ghost wasScheduled: bool, ghost phase: Phase)
      requires frames.Valid() && gameState.state == Playing && (phase == Idle || phase == Phase.GameOver)
      requires wasScheduled ==> ScheduleOk(frames.pending, idleLoopId, animationFrameId, phase)
      modifies this`animationFrameId, frames
      ensures GameLoopScheduled()
      ensures wasScheduled ==> Scheduled()
      ensures frames.Valid()
    {
      ghost var p := frames.pending;
      var handle := frames.Request(GameFrame);
      if wasScheduled {
        RunScheduled(p, idleLoopId, animationFrameId, phase, handle);
      }
      animationFrameId := Some(handle);
    }

    /** One frame of play. The simulation advances by the frame time capped
        at 32 ms; the loop re-requests itself while play goes on. */
    method GameLoop(handle: nat, timestamp: real, now: real, draws: SpawnDraws)
      requires Valid()
      requires animationFrameId == Some(handle) && handle !in frames.pending
      requires ScheduleOk(frames.pending[handle := GameFrame], idleLoopId, animationFrameId, gameState.state)
      modifies Footprint()
      ensures Valid() && Scheduled()
      ensures fresh(Footprint() - old(Footprint()))
      ensures gameState.state == Playing || gameState.state == DeathModal || gameState.state == Phase.GameOver
      ensures old(score) + POINTS_PER_FRAME <= score
      ensures lastTimestamp == timestamp && input.justPressed == map[]
      ensures highScore >= old(highScore)
    {
      ghost var p, idle := frames.pending, idleLoopId;
      assert ActiveKind(p[handle := GameFrame], animationFrameId) == Some(GameFrame);
      var deltaTime := timestamp - lastTimestamp;
      lastTimestamp := timestamp;
      var cappedDelta := CappedDelta(deltaTime);
      gameState.Update(cappedDelta);
      KeepsValid(this);
      ghost var collided, bonus := PlayFrame(cappedDelta, now, draws);
      assert p - {handle} == p;
      label Played:
      RequeueGameLoop(p, handle, idle);
      assert unchanged@Played(gameState, difficulty, generator, player, player.body, player.body.position, player.body.velocity);
      KeepsValid@Played(this);
    }

    /** The body of a game frame between the clock and the re-request: the
        keys, the simulation while still playing, and the key edges
        cleared. The schedule is kept unless the run ended. */
    method PlayFrame(deltaTime: real, now: real, draws: SpawnDraws) returns (ghost collided: bool, ghost bonus: int)
      requires Valid() && gameState.state == Playing
      modifies Footprint()
      ensures fresh(Footprint() - old(Footprint()))
      ensures gameState.state == Playing ==> ScheduleKept()
      ensures gameState.state != Playing ==>
                (gameState.state == DeathModal || gameState.state == Phase.GameOver) && EndedSchedule()
      ensures old(score) + POINTS_PER_FRAME <= score && highScore >= old(highScore)
      ensures lastTimestamp == old(lastTimestamp) && input.justPressed == map[]
      ensures Valid()
      ensures collided <==> Hits(player.GetHitbox(), generator.obstacles)
      ensures bonus == PASS_BONUS * PassedExcept(generator.obstacles, old(ScoredSet(generator.obstacles)), player.X())
      ensures FrameChecked(old(RunNow()), collided)
    {
      collided, bonus := SteerAndUpdate(deltaTime, now, draws);
      input.ClearJustPressed();
    }

    /** The keys of a game frame, then the simulation while still playing. */
    method SteerAndUpdate(deltaTime: real, now: real, draws: SpawnDraws) returns (ghost collided: bool, ghost bonus: int)
      requires Valid() && gameState.state == Playing
      modifies Footprint()
      ensures fresh(Footprint() - old(Footprint()))
      ensures gameState.state == Playing ==> ScheduleKept()
      ensures gameState.state != Playing ==>
                (gameState.state == DeathModal || gameState.state == Phase.GameOver) && EndedSchedule()
      ensures old(score) + POINTS_PER_FRAME <= score && highScore >= old(highScore)
      ensures lastTimestamp == old(lastTimestamp)
      ensures Valid()
      ensures collided <==> Hits(player.GetHitbox(), generator.obstacles)
      ensures bonus == PASS_BONUS * PassedExcept(generator.obstacles, old(ScoredSet(generator.obstacles)), player.X())
      ensures FrameChecked(old(RunNow()), collided)
    {
      ProcessInput(now);
      if gameState.Is(Playing) {
        collided, bonus := Update(deltaTime, draws);
      }
    }

    /** The end of a game frame: the loop re-requests itself while play goes
        on; otherwise it lapses, the idle loop having taken over. */
    method RequeueGameLoop(ghost p: map<nat, Loop>, ghost handle: nat, ghost idle: Option<nat>)
      requires frames.Valid() && handle !in p
      requires ScheduleOk(p[handle := GameFrame], idle, Some(handle), Playing)
      requires gameState.state == Playing ==>
                 frames.pending == p && idleLoopId == idle && animationFrameId == Some(handle)
      requires gameState.state != Playing ==>
                 gameState.state != Countdown && animationFrameId == None &&
                 if idle.Some?
                 then frames.pending == p && idleLoopId == idle
                 else idleLoopId.Some? && idleLoopId.value !in p && frames.pending == p[idleLoopId.value := IdleFrame]
      modifies this`animationFrameId, frames
      ensures frames.Valid() && Scheduled()
    {
      if gameState.Is(Playing) {
        var next := frames.Request(GameFrame);
        animationFrameId := Some(next);
        ActiveReplaced(p, handle, next, idle, GameFrame, Playing, GameFrame, Playing);
      } else if idle.Some? {
        ActiveDropped(p, handle, idle, GameFrame, Playing, gameState.state);
      } else {
        ActiveDroppedIdleAdded(p, handle, idleLoopId.value, GameFrame, Playing, gameState.state);
      }
    }

    /** The keys of one frame of the game loop. While playing, a jump press
        jumps (with a cue unless already jumping) and holding down ducks,
        releasing it stands up; on the start screen or after a game over a
        jump starts a run; in the death modal the modal's keys apply; in a
        countdown or a pause nothing happens. */
    method ProcessInput(now: real)
      requires Valid()
      modifies Footprint()
      ensures Valid()
      ensures fresh(Footprint() - old(Footprint()))
      ensures var s := old(gameState.state);
              var jump := old(input.IsJumpJustPressed());
              ((s == Idle || s == Phase.GameOver) && jump ==> StartedRun(now) && GameLoopScheduled()) &&
              (((s == Idle || s == Phase.GameOver) && !jump) || s == Paused || s == Countdown ==>
                 RunKept() && ScheduleKept() && WorldKept() && deathModalSelection == old(deathModalSelection)) &&
              (s == DeathModal ==> ModalHandled(now) && ModalScheduled())
      ensures old(gameState.state) == Playing ==>
                Steered() && ScoredSet(generator.obstacles) == old(ScoredSet(generator.obstacles))
    {
      if gameState.Is(Idle) {
        if input.IsJumpJustPressed() {
          Start(now);
        }
      } else if gameState.Is(Playing) {
        Steer();
      } else if gameState.Is(Phase.GameOver) {
        if input.IsJumpJustPressed() {
          Start(now);
        }
      } else if gameState.Is(DeathModal) {
        ProcessDeathModalInput(now);
      }
    }

    /** The keys during play: jump launches the player (with a cue unless
        already airborne), holding duck ducks, releasing it stands up. The
        run, the schedule, the obstacles and the level are untouched. */
    twostate predicate Steered()
      reads this`score, this`highScore, this`lastTimestamp, this`isNewHighScore, this`livesState,
            this`deathModalSelection, this`events, this`idleLoopId, this`animationFrameId, frames,
            gameState, player, player.body, player.body.velocity, generator, difficulty
    {
      var jump := old(input.IsJumpJustPressed());
      var duck := old(input.IsDuckPressed());
      && gameState.state == old(gameState.state) && ScheduleKept()
      && score == old(score) && highScore == old(highScore) && lastTimestamp == old(lastTimestamp)
      && isNewHighScore == old(isNewHighScore)
      && livesState == old(livesState) && deathModalSelection == old(deathModalSelection)
      && events == old(events) + (if jump && old(player.state) != Jumping then [Sound(JumpCue)] else [])
      && unchanged(generator, difficulty)
      && (jump && old(player.isGrounded && player.state == Running) ==>
            player.state == Jumping && player.body.velocity.y == JUMP_VELOCITY)
      && (old(player.state) == Ducking ==>
            player.state != Jumping && player.body.velocity.y == old(player.body.velocity.y))
      && (!jump && duck && old(player.isGrounded && player.state != Jumping) ==> player.state == Ducking)
      && (!jump && !duck && old(player.state) == Ducking ==> player.state == Running)
    }

    /** The playing branch of `ProcessInput`. */
    method Steer()
      requires Valid()
      modifies this`events, player, player.body, player.body.position, player.body.velocity
      ensures Steered()
      ensures ScoredSet(generator.obstacles) == old(ScoredSet(generator.obstacles))
      ensures Valid()
    {
      if input.IsJumpJustPressed() {
        if player.CurrentState() != Jumping {
          events := events + [Sound(JumpCue)];
        }
        player.Jump();
      }
      HoldDuck();
    }

    /** Holding duck ducks the player, releasing it stands them up. */
    method HoldDuck()
      requires player.Valid()
      modifies player, player.body, player.body.position
      ensures player.Valid()
      ensures input.IsDuckPressed() && old(player.isGrounded && player.state != Jumping) ==> player.state == Ducking
      ensures !input.IsDuckPressed() && old(player.state) == Ducking ==> player.state == Running
      ensures old(player.state) == Jumping ==> player.state == Jumping
      ensures old(player.state) != Jumping ==> player.state != Jumping
      ensures player.body.velocity.y == old(player.body.velocity.y)
    {
      if input.IsDuckPressed() {
        player.Duck();
      } else {
        player.StandUp();
      }
    }

    /** The death modal's keys of one frame. */
    method ProcessDeathModalInput(now: real)
      requires Valid()
      modifies this`deathModalSelection
      modifies this`livesState, this`events, this`idleLoopId, this`countdownValue, this`countdownStartTime
      modifies this`lastTimestamp, this`animationFrameId, this`score, this`groundOffset, this`isNewHighScore
      modifies gameState, player, player.body, player.body.position, player.body.velocity, generator, difficulty, frames
      ensures Valid()
      ensures fresh(Footprint() - old(Footprint()))
      ensures ModalHandled(now) && ModalScheduled()
    {
      SelectByKeys();
      if input.IsJumpJustPressed() {
        ConfirmDeathModalSelection(now);
      }
    }

    /** The arrow keys move the modal's selection. */
    method SelectByKeys()
      modifies this`deathModalSelection
      ensures deathModalSelection == SelectionAfterKeys(old(deathModalSelection), input.IsKeyJustPressed(ARROW_UP),
                                                        input.IsKeyJustPressed(ARROW_DOWN), CanContinue(livesState))
    {
      var canContinue := CanContinue(livesState);
      if input.IsKeyJustPressed(ARROW_UP) {
        deathModalSelection := if canContinue then Continue else Restart;
      } else if input.IsKeyJustPressed(ARROW_DOWN) {
        deathModalSelection := Restart;
      }
    }

    /** Acts on the modal's selection: "continue" with a life left spends
        it and starts the countdown; anything else restarts from the start
        screen. */
    method ConfirmDeathModalSelection(now: real)
      requires Valid()
      modifies this`livesState, this`events, this`idleLoopId, this`countdownValue, this`countdownStartTime
      modifies this`lastTimestamp, this`animationFrameId, this`score, this`groundOffset, this`isNewHighScore
      modifies gameState, player, player.body, player.body.position, player.body.velocity, generator, difficulty, frames
      ensures Valid()
      ensures fresh(Footprint() - old(Footprint()))
      ensures old(deathModalSelection) == Continue && old(CanContinue(livesState)) ==>
                ContinuedRun(now) && CountdownScheduled()
      ensures !(old(deathModalSelection) == Continue && old(CanContinue(livesState))) ==>
                RestartedRun() && IdleRescheduled()
    {
      var canContinue := CanContinue(livesState);
      if deathModalSelection == Continue && canContinue {
        ContinueFromModal(now);
      } else {
        RestartFromModal();
      }
    }

    /** The continue branch of the modal: a life is spent and the
        countdown starts. */
    method ContinueFromModal(now: real)
      requires Valid() && CanContinue(livesState)
      modifies this`livesState, this`events, this`idleLoopId, this`countdownValue, this`countdownStartTime
      modifies this`lastTimestamp, this`animationFrameId, gameState, frames
      ensures ContinuedRun(now) && CountdownScheduled()
      ensures Valid()
    {
      livesState := Some(livesState.value.(count := livesState.value.count - 1));
      events := events + [LifeUsed];
      StartCountdown(now);
    }

    /** The restart branch of the modal: back to a fresh start screen with
        a new idle loop. */
    method RestartFromModal()
      requires Valid()
      modifies this`idleLoopId, this`score, this`groundOffset, this`isNewHighScore
      modifies gameState, player, player.body, player.body.position, player.body.velocity, generator, difficulty, frames
      ensures fresh(Footprint() - old(Footprint()))
      ensures RestartedRun() && IdleRescheduled()
      ensures Valid()
    {
      StopAndReset();
      StartIdleLoop();
    }

    /** The idle loop is stopped and the world reset to the start screen. */
    method StopAndReset()
      requires Valid()
      modifies this`idleLoopId, this`score, this`groundOffset, this`isNewHighScore
      modifies gameState, player, player.body, player.body.position, player.body.velocity, generator, difficulty, frames
      ensures fresh(Footprint() - old(Footprint()))
      ensures RestartedRun()
      ensures idleLoopId == None && frames.pending == Without(old(frames.pending), old(idleLoopId))
      ensures frames.nextHandle == old(frames.nextHandle) && animationFrameId == old(animationFrameId)
      ensures Valid()
    {
      StopIdleLoop();
      ResetToStartScreen();
    }

    /** A fresh world on the start screen. */
    method ResetToStartScreen()
      requires Valid()
      modifies this`score, this`groundOffset, this`isNewHighScore
      modifies gameState, player, player.body, player.body.position, player.body.velocity, generator, difficulty
      ensures fresh(Footprint() - old(Footprint()))
      ensures RestartedRun()
      ensures Valid()
    {
      Reset();
      var accepted := gameState.Transition(Idle);
    }

    /** Stops the idle loop and counts down from 3 before play resumes. */
    method StartCountdown(now: real)
      requires Valid()
      modifies this`idleLoopId, this`countdownValue, this`countdownStartTime, this`lastTimestamp
      modifies this`animationFrameId, gameState, frames
      ensures Valid()
      ensures CountdownScheduled()
      ensures countdownValue == COUNTDOWN_FROM && countdownStartTime == now && lastTimestamp == now
      ensures gameState.state == if old(gameState.state) == DeathModal then Countdown else old(gameState.state)
    {
      StopIdleLoop();
      SetCountdownClock(now);
      var handle := frames.Request(CountdownFrame);
      animationFrameId := Some(handle);
    }

    /** The countdown starts from 3 at `now`, in the `Countdown` phase. */
    method SetCountdownClock(now: real)
      requires gameState.Valid()
      modifies this`countdownValue, this`countdownStartTime, this`lastTimestamp, gameState
      ensures gameState.Valid()
      ensures countdownValue == COUNTDOWN_FROM && countdownStartTime == now && lastTimestamp == now
      ensures gameState.state == if old(gameState.state) == DeathModal then Countdown else old(gameState.state)
    {
      countdownValue := COUNTDOWN_FROM;
      countdownStartTime := now;
      var accepted := gameState.Transition(Countdown);
      lastTimestamp := now;
    }

    /** One frame of the countdown: a new number is shown with a beep, and
        after 3.5 seconds play resumes; otherwise the loop re-requests
        itself. */
    method CountdownLoop(handle: nat, timestamp: real, now: real)
      requires Valid()
      requires animationFrameId == Some(handle) && handle !in frames.pending
      requires ScheduleOk(frames.pending[handle := CountdownFrame], idleLoopId, animationFrameId, gameState.state)
      modifies Footprint()
      ensures fresh(Footprint() - old(Footprint()))
      ensures CountdownTicked(timestamp, now)
      ensures Valid() && Scheduled()
    {
      ghost var p, idle := frames.pending, idleLoopId;
      assert ActiveKind(p[handle := CountdownFrame], animationFrameId) == Some(CountdownFrame);
      if timestamp - countdownStartTime >= COUNTDOWN_LENGTH {
        EndCountdown(p, handle, idle, timestamp, now);
      } else {
        RequeueCountdown(p, handle, idle, timestamp, now);
      }
    }

    /** What one countdown frame does: the number shown follows the elapsed
        time (a beep with each new one), and after 3.5 seconds the player is
        back at the spawn point with the nearby obstacles cleared and play
        resumed, while before that nothing else moves. The run's score and
        lives are kept either way. */
    twostate predicate CountdownTicked(timestamp: real, now: real)
      reads this`score, this`highScore, this`lastTimestamp, this`livesState, this`countdownValue, this`events,
            gameState, player, player.body, player.body.position, player.body.velocity, generator, difficulty
    {
      var elapsed := timestamp - old(countdownStartTime);
      && CountdownShown(elapsed, old(countdownValue), old(events))
      && (elapsed >= COUNTDOWN_LENGTH ==> Resumed(now, old(Beyond(generator.obstacles, PLAYER_X + RESUME_CLEARANCE))))
      && (elapsed < COUNTDOWN_LENGTH ==>
            gameState.state == Countdown && lastTimestamp == old(lastTimestamp) && WorldKept())
      && score == old(score) && highScore == old(highScore) && livesState == old(livesState)
    }

    /** The number `elapsed` milliseconds into the countdown is shown, with
        a beep, when it differs from the number `before` shown until then
        and is not negative; `reported` are the events until then. */
    predicate CountdownShown(elapsed: real, before: int, reported: seq<Event>)
      reads this`countdownValue, this`events
    {
      var shown := CountdownValueAt(elapsed);
      && countdownValue == (if shown != before && shown >= 0 then shown else before)
      && events == reported + (if shown != before && shown >= 0 then [Sound(PointCue)] else [])
    }

    /** Play has resumed at `now` with the player at the spawn point and
        only the obstacles `kept` left. */
    ghost predicate Resumed(now: real, kept: seq<Obstacle>)
      reads this`lastTimestamp, gameState, player, player.body, player.body.position, player.body.velocity, generator
    {
      gameState.state == Playing && player.AtSpawn() && lastTimestamp == now && generator.obstacles == kept
    }

    /** The countdown is over: the last number is shown, play resumes, and
        the game loop takes the countdown loop's place. `countdownLoop`
        shows the number before resuming; the two steps touch disjoint
        state, so here play resumes first. */
    method EndCountdown(ghost p: map<nat, Loop>, ghost handle: nat, ghost idle: Option<nat>, timestamp: real, now: real)
      requires Valid() && gameState.state == Countdown && handle !in p
      requires timestamp - countdownStartTime >= COUNTDOWN_LENGTH
      requires frames.pending == p && idleLoopId == idle && animationFrameId == Some(handle)
      requires ScheduleOk(p[handle := CountdownFrame], idle, Some(handle), Countdown)
      modifies this`countdownValue, this`events, this`lastTimestamp, this`animationFrameId
      modifies gameState, player, player.body, player.body.position, player.body.velocity, generator, frames
      ensures CountdownShown(timestamp - countdownStartTime, old(countdownValue), old(events))
      ensures Resumed(now, old(Beyond(generator.obstacles, PLAYER_X + RESUME_CLEARANCE)))
      ensures generator.Repr == old(generator.Repr)
      ensures Scheduled()
      ensures Valid()
    {
      var elapsed := timestamp - countdownStartTime;
      ResumePlay(p, handle, idle, now);
      ShowCountdown(elapsed);
    }

    /** Play resumes, the game loop taking the countdown loop's place. */
    method ResumePlay(ghost p: map<nat, Loop>, ghost handle: nat, ghost idle: Option<nat>, now: real)
      requires Valid() && gameState.state == Countdown && handle !in p
      requires frames.pending == p && idleLoopId == idle && animationFrameId == Some(handle)
      requires ScheduleOk(p[handle := CountdownFrame], idle, Some(handle), Countdown)
      modifies this`lastTimestamp, this`animationFrameId
      modifies gameState, player, player.body, player.body.position, player.body.velocity, generator, frames
      ensures Resumed(now, old(Beyond(generator.obstacles, PLAYER_X + RESUME_CLEARANCE)))
      ensures generator.Repr == old(generator.Repr)
      ensures Scheduled()
      ensures Valid()
    {
      ResumeFromDeath(now);
      ActiveReplaced(p, handle, animationFrameId.value, idle, CountdownFrame, Countdown, GameFrame, Playing);
    }

    /** The countdown goes on: the number shown is updated and the loop
        re-requests itself. */
    method RequeueCountdown(ghost p: map<nat, Loop>, ghost handle: nat, ghost idle: Option<nat>, timestamp: real, now: real)
      requires frames.Valid() && gameState.state == Countdown && handle !in p
      requires timestamp - countdownStartTime < COUNTDOWN_LENGTH
      requires frames.pending == p && idleLoopId == idle && animationFrameId == Some(handle)
      requires ScheduleOk(p[handle := CountdownFrame], idle, Some(handle), Countdown)
      modifies this`countdownValue, this`events, this`animationFrameId, frames
      ensures CountdownTicked(timestamp, now)
      ensures frames.Valid() && Scheduled()
    {
      ShowCountdown(timestamp - countdownStartTime);
      var next := frames.Request(CountdownFrame);
      animationFrameId := Some(next);
      ActiveReplaced(p, handle, next, idle, CountdownFrame, Countdown, CountdownFrame, Countdown);
    }

    /** A new number of the countdown is shown with a beep. */
    method ShowCountdown(elapsed: real)
      modifies this`countdownValue, this`events
      ensures CountdownShown(elapsed, old(countdownValue), old(events))
    {
      var newValue := COUNTDOWN_FROM - (elapsed / 1000.0).Floor;
      if newValue != countdownValue && newValue >= 0 {
        countdownValue := newValue;
        events := events + [Sound(PointCue)];
      }
    }

    /** Play resumes after a continue: the player is back at the spawn
        point, obstacles within 200 of it are cleared, and the score and
        level are kept. */
    method ResumeFromDeath(now: real)
      requires Valid()
      modifies this`lastTimestamp, this`animationFrameId
      modifies gameState, player, player.body, player.body.position, player.body.velocity, generator, frames
      ensures Valid() && generator.Repr == old(generator.Repr)
      ensures player.AtSpawn()
      ensures generator.obstacles == old(Beyond(generator.obstacles, PLAYER_X + RESUME_CLEARANCE))
      ensures forall o :: o in generator.obstacles ==> o.X() > PLAYER_X + RESUME_CLEARANCE
      ensures gameState.state == if CanTransition(old(gameState.state), Playing) then Playing else old(gameState.state)
      ensures lastTimestamp == now
      ensures GameLoopScheduled()
    {
      Respawn();
      var accepted := gameState.Transition(Playing);
      lastTimestamp := now;
      var handle := frames.Request(GameFrame);
      animationFrameId := Some(handle);
    }

    /** The player goes back to the spawn point and the obstacles within
        200 of it are cleared. */
    method Respawn()
      requires Valid()
      modifies player, player.body, player.body.position, player.body.velocity, generator
      ensures Valid() && generator.Repr == old(generator.Repr)
      ensures player.AtSpawn()
      ensures generator.obstacles == old(Beyond(generator.obstacles, PLAYER_X + RESUME_CLEARANCE))
      ensures forall o :: o in generator.obstacles ==> o.X() > PLAYER_X + RESUME_CLEARANCE
    {
      ghost var kept := Beyond(generator.obstacles, PLAYER_X + RESUME_CLEARANCE);
      assert forall o :: o in generator.obstacles ==> o.body.position in generator.Repr;
      player.Reset();
      assert Beyond(generator.obstacles, PLAYER_X + RESUME_CLEARANCE) == kept;
      assert player.X() == PLAYER_X;
      generator.ClearNearby(player.X() + RESUME_CLEARANCE);
    }

    /** One step of play: the player moves, the ground pattern scrolls, the
        obstacles move and spawn, a collision with the moved obstacles ends
        the run, and the frame's points (the base rate scaled by speed, plus
        10 per obstacle passed and not yet paid) are added. The level
        follows the score; the host is told the score; the milestone cue
        plays by the test as written, which compares the score with the
        score less 0.15 and so misses crossings made by faster frames or by
        bonuses (see `MilestoneAsWrittenMissesCrossings`).

        As written, the frame's points are added even in the frame that
        ends the run, after the final score has been reported. */
    method Update(deltaTime: real, draws: SpawnDraws) returns (ghost collided: bool, ghost bonus: int)
      requires Valid()
      modifies this`groundOffset, this`score, this`events, this`highScore, this`isNewHighScore
      modifies this`animationFrameId, this`deathModalSelection, this`idleLoopId
      modifies player, player.body.position, player.body.velocity, generator.Repr, difficulty, gameState, frames
      ensures Valid()
      ensures fresh(Footprint() - old(Footprint()))
      ensures var moved := player.Moved(deltaTime); moved
      ensures var stepped := player.Stepped(deltaTime); !collided ==> stepped
      ensures groundOffset == WrapGround(old(groundOffset) + old(difficulty.scrollSpeed))
      ensures collided <==> Hits(player.GetHitbox(), generator.obstacles)
      ensures bonus == PASS_BONUS * PassedExcept(generator.obstacles, old(ScoredSet(generator.obstacles)), player.X())
      ensures var scored := FrameScored(old(RunNow()), old(difficulty.scrollSpeed), old(events), collided, bonus); scored
      ensures var checked := FrameChecked(old(RunNow()), collided); checked
      ensures old(score) + POINTS_PER_FRAME <= score && highScore >= old(highScore)
      ensures generator.Moved(old(generator.obstacles), deltaTime, old(difficulty.scrollSpeed), old(difficulty.currentLevel),
                              old(difficulty.ScaryFactor()), draws)
      ensures generator.PaidAfter(old(generator.obstacles), player.X())
    {
      ghost var paid := ScoredSet(generator.obstacles);
      var scrollSpeed := difficulty.Speed();
      ghost var ground := WrapGround(groundOffset + scrollSpeed);
      SpeedBounds(difficulty.currentLevel, difficulty.currentLevel);
      MoveWorld(deltaTime, scrollSpeed, draws);
      assert groundOffset == ground;
      assert player.Moved(deltaTime);
      ghost var paidNow := ScoredSet(generator.obstacles);
      collided, bonus := CollideAndScore(scrollSpeed);
      PassedExceptAgree(generator.obstacles, paidNow, paid, player.X());
    }

    /** The checking part of a frame: a collision ends the run, then the
        frame's points are added. Nothing moves. */
    method CollideAndScore(scrollSpeed: real) returns (ghost collided: bool, ghost bonus: int)
      requires Valid() && BASE_SCROLL_SPEED <= scrollSpeed
      modifies this`score, this`events, this`highScore, this`isNewHighScore
      modifies this`animationFrameId, this`deathModalSelection, this`idleLoopId
      modifies player`state, difficulty`currentLevel, difficulty`scrollSpeed, gameState, frames, (set o | o in generator.obstacles)`scored
      ensures Valid()
      ensures collided <==> Hits(player.GetHitbox(), generator.obstacles)
      ensures bonus == PASS_BONUS * PassedExcept(generator.obstacles, old(ScoredSet(generator.obstacles)), player.X())
      ensures !collided ==> player.state == old(player.state)
      ensures player.Motion() == old(player.Motion())
      ensures FrameScored(old(RunNow()), scrollSpeed, old(events), collided, bonus)
      ensures FrameChecked(old(RunNow()), collided)
      ensures old(score) + POINTS_PER_FRAME <= score && highScore >= old(highScore)
      ensures groundOffset == old(groundOffset) && Footprint() == old(Footprint())
      ensures unchanged(generator)
      ensures forall o :: o in generator.obstacles ==> o.scored == (old(o.scored) || o.X() + o.body.width < player.X())
    {
      ghost var before := RunNow();
      collided := CheckCollisions();
      label Checked:
      bonus := AddFrameScore(scrollSpeed);
      KeepsValid@Checked(this);
    }

    /** A step that leaves the generator and the player's objects alone and
        keeps the machine, the schedule and the difficulty valid keeps the
        engine valid. */
    static twostate lemma KeepsValid(e: GameEngine)
      requires old(e.Valid())
      requires e.gameState.Valid() && e.frames.Valid() && e.difficulty.Valid()
      requires unchanged(e.generator, e.player, e.player.body, e.player.body.position, e.player.body.velocity)
      ensures e.Valid()
    {
    }

    /** A step that leaves the generator, the player's position and the
        obstacles' bodies alone leaves what each obstacle owes as it was. */
    static twostate lemma PassesKept(e: GameEngine)
      requires unchanged(e.generator, e.player, e.player.body, e.player.body.position)
      requires forall o :: o in e.generator.obstacles ==> unchanged(o.body, o.body.position)
      ensures e.player.X() == old(e.player.X())
      ensures forall paid | old(allocated(paid)) ::
                PassedExcept(e.generator.obstacles, paid, e.player.X()) == old(PassedExcept(e.generator.obstacles, paid, e.player.X()))
    {
    }

    /** A whole number of pass bonuses. */
    static lemma BonusIsMultiple(n: int)
      requires 0 <= n
      ensures 0 <= PASS_BONUS * n && (PASS_BONUS * n) % PASS_BONUS == 0 && (PASS_BONUS * n) / PASS_BONUS == n
    {
    }

    /** The moving part of a frame: the player, the ground pattern and the
        obstacles, which move at `scrollSpeed` and spawn by the current
        level and scary chance. */
    method MoveWorld(deltaTime: real, scrollSpeed: real, draws: SpawnDraws)
      requires Valid()
      modifies this`groundOffset, player, player.body.position, player.body.velocity, generator.Repr
      ensures Valid() && fresh(generator.Repr - old(generator.Repr))
      ensures player.Stepped(deltaTime)
      ensures generator.Stepped(old(generator.obstacles), deltaTime, scrollSpeed, difficulty.currentLevel, difficulty.ScaryFactor(), draws)
      ensures groundOffset == WrapGround(old(groundOffset) + scrollSpeed)
      ensures RunNow() == old(RunNow()) && events == old(events)
    {
      ghost var ground := WrapGround(groundOffset + scrollSpeed);
      player.Update(deltaTime);
      groundOffset := WrapGround(groundOffset + scrollSpeed);
      assert groundOffset == ground;
      generator.Update(deltaTime, scrollSpeed, difficulty.Level(), difficulty.ScaryFactor(), draws);
      assert groundOffset == ground;
    }

    /** The scoring part of a frame: the base points scaled by the speed,
        then the pass bonus (with a cue), then the level, the report to the
        host and the milestone cue. */
    method AddFrameScore(scrollSpeed: real) returns (ghost bonus: int)
      requires difficulty.Valid() && generator.Valid()
      requires BASE_SCROLL_SPEED <= scrollSpeed
      modifies this`score, this`events, difficulty`currentLevel, difficulty`scrollSpeed, (set o | o in generator.obstacles)`scored
      ensures difficulty.Valid()
      ensures player.Motion() == old(player.Motion())
      ensures RunNow() == old(RunNow()).(score := score)
      ensures forall box :: Hits(box, generator.obstacles) == old(Hits(box, generator.obstacles))
      ensures bonus == PASS_BONUS * old(PassedCount(generator.obstacles, player.X()))
      ensures bonus == PASS_BONUS * PassedExcept(generator.obstacles, old(ScoredSet(generator.obstacles)), player.X())
      ensures 0 <= bonus && bonus % PASS_BONUS == 0
      ensures score == old(score) + ScoreIncrement(scrollSpeed) + bonus as real
      ensures old(score) + POINTS_PER_FRAME <= score
      ensures difficulty.currentLevel == LevelFor(score)
      ensures events == old(events)
                        + (if bonus > 0 then [Sound(PointCue)] else [])
                        + [ScoreChanged(score.Floor)]
                        + (if MilestoneAsWritten(score) then [Sound(MilestoneCue)] else [])
      ensures forall o :: o in generator.obstacles ==> o.scored == (old(o.scored) || o.X() + o.body.width < player.X())
    {
      ghost var owed := PassedCount(generator.obstacles, player.X());
      score := score + ScoreIncrement(scrollSpeed);
      assert PassedCount(generator.obstacles, player.X()) == owed;
      bonus := AddPassBonus();
      LevelAndReport();
    }

    /** The end of `updateScore`: the level follows the score, which is
        then reported, with the milestone cue as written. The obstacles
        are not touched. */
    method LevelAndReport()
      requires difficulty.Valid()
      modifies this`events, difficulty`currentLevel, difficulty`scrollSpeed
      ensures difficulty.Valid() && difficulty.currentLevel == LevelFor(score)
      ensures RunNow() == old(RunNow()) && player.Motion() == old(player.Motion())
      ensures events == old(events) + [ScoreChanged(score.Floor)]
                        + (if MilestoneAsWritten(score) then [Sound(MilestoneCue)] else [])
      ensures forall box :: Hits(box, generator.obstacles) == old(Hits(box, generator.obstacles))
      ensures forall paid | old(allocated(paid)) ::
                PassedExcept(generator.obstacles, paid, player.X()) == old(PassedExcept(generator.obstacles, paid, player.X()))
    {
      difficulty.Update(score);
      ReportScoreAsWritten();
      HitsFrame(generator.obstacles);
    }

    /** The pass bonus of `updateScore`: each obstacle the player has just
        passed pays once, with a cue when anything was paid. */
    method AddPassBonus() returns (ghost bonus: int)
      requires generator.Valid()
      modifies this`score, this`events, (set o | o in generator.obstacles)`scored
      ensures forall box :: Hits(box, generator.obstacles) == old(Hits(box, generator.obstacles))
      ensures RunNow() == old(RunNow()).(score := score) && player.Motion() == old(player.Motion())
      ensures bonus == PASS_BONUS * old(PassedCount(generator.obstacles, player.X()))
      ensures 0 <= bonus && bonus % PASS_BONUS == 0
      ensures score == old(score) + bonus as real
      ensures events == old(events) + (if bonus > 0 then [Sound(PointCue)] else [])
      ensures bonus == PASS_BONUS * PassedExcept(generator.obstacles, old(ScoredSet(generator.obstacles)), player.X())
      ensures forall o :: o in generator.obstacles ==> o.scored == (old(o.scored) || o.X() + o.body.width < player.X())
    {
      var bonusPoints := generator.CheckPassedObstacles(player.X());
      label Paid:
      if bonusPoints > 0 {
        events := events + [Sound(PointCue)];
      }
      score := score + bonusPoints as real;
      bonus := bonusPoints;
      BonusIsMultiple(old(PassedCount(generator.obstacles, player.X())));
      PassesKept@Paid(this);
      HitsFrame(generator.obstacles);
    }

    /** The score is reported to the host, then, as written, the milestone
        cue plays when the score less one base increment lies in a lower
        hundred. */
    method ReportScoreAsWritten()
      modifies this`events
      ensures events == old(events) + [ScoreChanged(score.Floor)]
                        + (if MilestoneAsWritten(score) then [Sound(MilestoneCue)] else [])
    {
      events := events + [ScoreChanged(score.Floor)];

      if MilestoneAsWritten(score) {
        events := events + [Sound(MilestoneCue)];
      }
    }

    /** The report with the milestone test corrected: the cue plays when the
        frame took the score from `before` across a multiple of 100. */
    method ReportScore(before: real)
      modifies this`events
      ensures events == old(events) + [ScoreChanged(score.Floor)]
                        + (if MilestoneCrossed(before, score) then [Sound(MilestoneCue)] else [])
    {
      events := events + [ScoreChanged(score.Floor)];

      if MilestoneCrossed(before, score) {
        events := events + [Sound(MilestoneCue)];
      }
    }

    /** Ends the run at the first active obstacle whose box meets the
        player's (inset) hitbox. */
    method CheckCollisions() returns (ghost collided: bool)
      requires Valid()
      modifies this`highScore, this`isNewHighScore, this`events, this`animationFrameId,
               this`deathModalSelection, this`idleLoopId, player`state, gameState, frames
      ensures Valid()
      ensures collided <==> old(Hits(player.GetHitbox(), generator.obstacles))
      ensures collided <==> Hits(player.GetHitbox(), generator.obstacles)
      ensures PassedCount(generator.obstacles, player.X()) == old(PassedCount(generator.obstacles, player.X()))
      ensures ScoredSet(generator.obstacles) == old(ScoredSet(generator.obstacles))
      ensures collided ==> EndedRun() && EndedSchedule()
      ensures player.Motion() == old(player.Motion())
      ensures !collided ==> unchanged(this, player, gameState, frames)
      ensures FrameChecked(old(RunNow()), collided)
      ensures events == old(events) + (if collided then GameOverEvents(old(score), old(highScore), old(livesState)) else [])
      ensures score == old(score) && groundOffset == old(groundOffset)
    {
      var hit := FindCollision();
      if hit {
        GameOver();
      }
      collided := hit;
    }

    /** The search of `checkCollisions`: the obstacles are scanned in order
        for the first active one whose box meets the player's (inset)
        hitbox. Nothing changes. */
    method FindCollision() returns (hit: bool)
      requires Valid()
      ensures hit <==> Hits(player.GetHitbox(), generator.obstacles)
    {
      var playerHitbox := player.GetHitbox();
      var obstacles := generator.GetObstacles();

      HitsSomeIndex(playerHitbox, obstacles);
      var i := 0;
      while i < |obstacles|
        invariant 0 <= i <= |obstacles|
        invariant forall k :: 0 <= k < i ==> !HitBy(playerHitbox, obstacles[k])
      {
        if obstacles[i].body.IsActive() && Intersects(playerHitbox, obstacles[i].body.GetHitbox()) {
          assert HitBy(playerHitbox, obstacles[i]);
          return true;
        }
        i := i + 1;
      }
      return false;
    }

    /** The run ends: the player dies, the high score is updated, the
        active loop is cancelled, and the machine shows the death modal
        (with lives) or game over (without); the idle loop then listens. */
    method GameOver()
      requires Valid()
      modifies this`highScore, this`isNewHighScore, this`events, this`animationFrameId,
               this`deathModalSelection, this`idleLoopId, player`state, gameState, frames
      ensures Valid()
      ensures EndedRun() && EndedSchedule()
    {
      MarkDeath();
      CloseRun();
    }

    /** The first half of `gameOver`: the player dies, the cue plays and the
        high score is recorded. */
    method MarkDeath()
      requires player.Valid()
      modifies this`highScore, this`isNewHighScore, this`events, player`state
      ensures player.Valid() && player.state == Dead && player.isGrounded == old(player.isGrounded)
      ensures player.animationFrame == old(player.animationFrame) && player.animationTimer == old(player.animationTimer)
      ensures score > old(highScore) ==> highScore == score && isNewHighScore
      ensures score <= old(highScore) ==> highScore == old(highScore) && !isNewHighScore
      ensures events == old(events) + [Sound(GameOverCue)]
                        + (if score > old(highScore) then [HighScoreChanged(score.Floor)] else [])
    {
      player.Die();
      events := events + [Sound(GameOverCue)];
      RecordHighScore();
    }

    /** The second half of `gameOver`: the active loop is cancelled and the
        machine moves to its ending screen, where the idle loop listens. */
    method CloseRun()
      requires gameState.Valid() && frames.Valid()
      modifies this`deathModalSelection, this`events, this`idleLoopId, this`animationFrameId, gameState, frames
      ensures gameState.Valid() && frames.Valid() && EndedSchedule()
      ensures var target := if livesState.Some? then DeathModal else Phase.GameOver;
              gameState.state == if CanTransition(old(gameState.state), target) then target else old(gameState.state)
      ensures livesState.Some? ==> deathModalSelection == if livesState.value.count > 0 then Continue else Restart
      ensures livesState.None? ==> deathModalSelection == old(deathModalSelection)
      ensures events == old(events) + (if livesState.None? then [GameEnded(score.Floor)] else [])
    {
      StopGameLoop();
      ShowEnding();
    }

    /** The high-score part of `gameOver`: a better score becomes the high
        score and is reported. */
    method RecordHighScore()
      modifies this`highScore, this`isNewHighScore, this`events
      ensures score > old(highScore) ==> highScore == score && isNewHighScore
      ensures score <= old(highScore) ==> highScore == old(highScore) && !isNewHighScore
      ensures events == old(events) + (if score > old(highScore) then [HighScoreChanged(score.Floor)] else [])
    {
      if score > highScore {
        highScore := score;
        isNewHighScore := true;
        events := events + [HighScoreChanged(highScore.Floor)];
      } else {
        isNewHighScore := false;
      }
    }

    /** Cancels the recorded active loop, if any, and forgets it. */
    method StopGameLoop()
      requires frames.Valid()
      modifies this`animationFrameId, frames
      ensures frames.Valid()
      ensures animationFrameId == None && frames.pending == Without(old(frames.pending), old(animationFrameId))
      ensures frames.nextHandle == old(frames.nextHandle)
    {
      if animationFrameId.Some? {
        frames.Cancel(animationFrameId.value);
        animationFrameId := None;
      }
    }

    /** The branch at the end of `gameOver`: with lives, the death modal
        preselecting "continue" only while a life is left; without, game
        over and the final score. Either way the idle loop then listens. */
    method ShowEnding()
      requires gameState.Valid() && frames.Valid()
      modifies this`deathModalSelection, this`events, this`idleLoopId, gameState, frames
      ensures gameState.Valid() && frames.Valid()
      ensures var target := if livesState.Some? then DeathModal else Phase.GameOver;
              gameState.state == if CanTransition(old(gameState.state), target) then target else old(gameState.state)
      ensures livesState.Some? ==> deathModalSelection == if livesState.value.count > 0 then Continue else Restart
      ensures livesState.None? ==> deathModalSelection == old(deathModalSelection)
      ensures events == old(events) + (if livesState.None? then [GameEnded(score.Floor)] else [])
      ensures old(idleLoopId).Some? ==>
                frames.pending == old(frames.pending) && idleLoopId == old(idleLoopId) &&
                frames.nextHandle == old(frames.nextHandle)
      ensures old(idleLoopId).None? ==>
                frames.pending == old(frames.pending)[old(frames.nextHandle) := IdleFrame] &&
                idleLoopId == Some(old(frames.nextHandle)) && frames.nextHandle == old(frames.nextHandle) + 1
    {
      if livesState.Some? {
        deathModalSelection := if livesState.value.count > 0 then Continue else Restart;
        var accepted := gameState.Transition(DeathModal);
        StartIdleLoop();
      } else {
        var accepted := gameState.Transition(Phase.GameOver);
        events := events + [GameEnded(score.Floor)];
        StartIdleLoop();
      }
    }

    /** Back to the start of a run: score, ground, player, obstacles,
        difficulty and the state machine. */
    method Reset()
      requires Valid()
      modifies this`score, this`groundOffset, this`isNewHighScore
      modifies gameState, player, player.body, player.body.position, player.body.velocity, generator, difficulty
      ensures Valid()
      ensures score == 0.0 && groundOffset == 0.0 && !isNewHighScore
      ensures player.AtSpawn() && generator.Fresh() && generator.Repr == {generator}
      ensures difficulty.currentLevel == 0
      ensures gameState.state == Idle && gameState.previousState == Idle
    {
      score := 0.0;
      groundOffset := 0.0;
      isNewHighScore := false;
      player.Reset();
      generator.Reset();
      difficulty.Reset();
      gameState.Reset();
    }

    method SetHighScore(score: real)
      modifies this`highScore
      ensures highScore == score
      ensures ScheduleKept() && this.score == old(this.score) && events == old(events)
      ensures livesState == old(livesState) && deathModalSelection == old(deathModalSelection)
      ensures groundOffset == old(groundOffset) && lastTimestamp == old(lastTimestamp) && isNewHighScore == old(isNewHighScore)
      ensures countdownValue == old(countdownValue) && countdownStartTime == old(countdownStartTime)
      ensures hoveredOption == old(hoveredOption)
    {
      highScore := score;
    }

    method SetLivesState(lives: LivesState)
      modifies this`livesState
      ensures livesState == Some(lives)
      ensures ScheduleKept() && score == old(score) && highScore == old(highScore) && events == old(events)
      ensures deathModalSelection == old(deathModalSelection)
      ensures groundOffset == old(groundOffset) && lastTimestamp == old(lastTimestamp) && isNewHighScore == old(isNewHighScore)
      ensures countdownValue == old(countdownValue) && countdownStartTime == old(countdownStartTime)
      ensures hoveredOption == old(hoveredOption)
    {
      livesState := Some(lives);
    }

    function GetLivesState(): Option<LivesState>
      reads this
    {
      livesState
    }

    /** The score as shown: the largest whole number not above it. */
    function GetScore(): (s: int)
      reads this
      ensures s as real <= score < s as real + 1.0
    {
      score.Floor
    }

    function GetHighScore(): (s: int)
      reads this
      ensures s as real <= highScore < s as real + 1.0
    {
      highScore.Floor
    }

    predicate IsGameOver()
      reads this, gameState
    {
      gameState.Is(Phase.GameOver)
    }

    /** Cancels both loops. Under the scheduling discipline nothing is
        left pending. */
    method Destroy()
      requires frames.Valid()
      modifies this`idleLoopId, frames
      ensures idleLoopId == None
      ensures animationFrameId == old(animationFrameId) && frames.nextHandle == old(frames.nextHandle)
      ensures frames.pending == Without(Without(old(frames.pending), old(animationFrameId)), old(idleLoopId))
      ensures old(Scheduled()) ==> frames.pending == map[]
      ensures RunKept() && deathModalSelection == old(deathModalSelection)
    {
      if animationFrameId.Some? {
        frames.Cancel(animationFrameId.value);
      }
      StopIdleLoop();
    }

    /** The mouse moves over the canvas: in the death modal the button
        under it is highlighted and selected; elsewhere nothing is. */
    method HandleCanvasMouseMove(x: real, y: real)
      modifies this`hoveredOption, this`deathModalSelection
      ensures old(gameState.state) != DeathModal ==>
                hoveredOption == None && deathModalSelection == old(deathModalSelection)
      ensures old(gameState.state) == DeathModal ==>
                var target := ButtonAt(x, y, CanContinue(livesState));
                hoveredOption == target &&
                deathModalSelection == (if target != old(hoveredOption) && target.Some? then target.value
                                        else old(deathModalSelection))
      ensures ScheduleKept() && score == old(score) && highScore == old(highScore) && events == old(events)
      ensures livesState == old(livesState) && lastTimestamp == old(lastTimestamp)
      ensures countdownValue == old(countdownValue) && isNewHighScore == old(isNewHighScore)
      ensures groundOffset == old(groundOffset) && countdownStartTime == old(countdownStartTime)
    {
      if !gameState.Is(DeathModal) {
        if hoveredOption.Some? {
          hoveredOption := None;
        }
        return;
      }

      var canContinue := CanContinue(livesState);
      var newHovered := ButtonAt(x, y, canContinue);
      if newHovered != hoveredOption {
        hoveredOption := newHovered;
        if newHovered.Some? {
          deathModalSelection := newHovered.value;
        }
      }
    }

    /** A click on the canvas: in the death modal, a click on a button
        selects and confirms it ("continue" only with a life left). */
    method HandleCanvasClick(x: real, y: real, now: real)
      requires Valid()
      modifies Footprint()
      ensures Valid()
      ensures fresh(Footprint() - old(Footprint()))
      ensures var target := ButtonAt(x, y, CanContinue(old(livesState)));
              (old(gameState.state) == DeathModal && target == Some(Continue) ==>
                 deathModalSelection == Continue && ContinuedRun(now) && CountdownScheduled()) &&
              (old(gameState.state) == DeathModal && target == Some(Restart) ==>
                 deathModalSelection == Restart && RestartedRun() && IdleRescheduled()) &&
              (old(gameState.state) != DeathModal || target == None ==>
                 RunKept() && ScheduleKept() && WorldKept() && deathModalSelection == old(deathModalSelection))
      ensures old(Scheduled()) ==> Scheduled()
    {
      if !gameState.Is(DeathModal) {
        return;
      }

      var canContinue := CanContinue(livesState);
      ButtonsDisjoint(x, y);

      if canContinue && IsPointInRect(x, y, CONTINUE_BUTTON) {
        ClickButton(Continue, now);
        return;
      }

      if IsPointInRect(x, y, RESTART_BUTTON) {
        ClickButton(Restart, now);
      }
    }

    /** A clicked modal button becomes the selection and is confirmed. */
    method ClickButton(choice: Choice, now: real)
      requires Valid() && gameState.state == DeathModal
      requires choice == Continue ==> CanContinue(livesState)
      modifies Footprint()
      ensures Valid()
      ensures fresh(Footprint() - old(Footprint()))
      ensures deathModalSelection == choice
      ensures choice == Continue ==> ContinuedRun(now) && CountdownScheduled()
      ensures choice == Restart ==> RestartedRun() && IdleRescheduled()
      ensures old(Scheduled()) ==> Scheduled()
    {
      ghost var wasScheduled := Scheduled();
      if wasScheduled {
        ghost var h := idleLoopId.value;
        assert frames.pending == (frames.pending - {h})[h := IdleFrame];
        WaitingSchedule(frames.pending - {h}, h, animationFrameId, gameState.state);
        assert Without(frames.pending, idleLoopId) == map[];
      }
      deathModalSelection := choice;
      ConfirmDeathModalSelection(now);
      if wasScheduled {
        ModalRescheduled(frames.pending, idleLoopId, animationFrameId, gameState.state);
      }
    }
  }

  /** As written, an idle loop that fires during play (after a continue
      confirmed by key, since the modal branch requests the idle loop again
      after the keys, or after the host started a run with `start()` while
      the idle loop was pending) lapses but leaves its handle recorded;
      when the run then ends, `startIdleLoop` sees the stale handle and
      requests nothing. The death modal is left with nothing scheduled at
      all, so its keys are never read. */
  method IdleHandleGoesStaleAsWritten(e: GameEngine, now: real)
    requires e.Valid() && e.Scheduled()
    requires e.gameState.state == Playing && e.idleLoopId.Some?
    modifies e.Footprint()
    ensures e.gameState.state == DeathModal || e.gameState.state == Phase.GameOver
    ensures e.idleLoopId.Some? && e.frames.pending == map[]
    ensures !e.Scheduled()
  {
    var loop := e.frames.Take(e.idleLoopId.value);
    e.IdleLoopAsWritten(now);
    e.GameOver();
  }

  /** With the corrected idle loop the same sequence leaves exactly one idle
      loop pending when the run ends. */
  method IdleHandleStaysLive(e: GameEngine, now: real)
    requires e.Valid() && e.Scheduled()
    requires e.gameState.state == Playing && e.idleLoopId.Some?
    modifies e.Footprint()
    ensures e.gameState.state == DeathModal || e.gameState.state == Phase.GameOver
    ensures e.Scheduled()
    ensures e.idleLoopId.Some? && e.idleLoopId.value in e.frames.pending && e.frames.pending[e.idleLoopId.value] == IdleFrame
  {
    ghost var before := e.frames.pending;
    var loop := e.frames.Take(e.idleLoopId.value);
    assert e.frames.pending[e.idleLoopId.value := IdleFrame] == before;
    e.IdleLoop(now);
    e.GameOver();
  }

  /** As written, a restart confirmed by key in the death modal leaves two
      idle loops pending: `startIdleLoop` requests one and records it, then
      the modal branch of the idle loop requests another over that handle.
      Both keep re-requesting themselves, each recording its own handle, so
      they co-exist until the next start. A start by key runs in the earlier
      loop, whose `stopIdleLoop` cancels the recorded one. A start by the
      host's click calls no `stopIdleLoop`, so both lapse in play and leave
      the recorded handle stale, as in the first finding. */
  method ModalRestartLeavesTwoIdleLoopsAsWritten(e: GameEngine, now: real)
    requires e.Valid() && e.gameState.state == DeathModal && e.animationFrameId == None
    requires e.idleLoopId.Some? && e.frames.pending == map[e.idleLoopId.value := IdleFrame]
    requires e.input.IsJumpJustPressed() && !CanContinue(e.livesState)
    modifies e.Footprint()
    ensures var n := old(e.frames.nextHandle);
            e.frames.pending == map[n := IdleFrame, n + 1 := IdleFrame] && e.idleLoopId == Some(n + 1)
    ensures !e.Scheduled()
  {
    var loop := e.frames.Take(e.idleLoopId.value);
    assert Without(e.frames.pending, e.idleLoopId) == map[];
    e.ModalAsWritten(now);
    assert e.frames.pending[old(e.frames.nextHandle)] == IdleFrame;
  }

  /** With the idle frame requested before the keys, the same restart
      leaves exactly the recorded idle loop pending. */
  method ModalRestartLeavesOneIdleLoop(e: GameEngine, now: real)
    requires e.Valid() && e.gameState.state == DeathModal && e.animationFrameId == None
    requires e.idleLoopId.Some? && e.frames.pending == map[e.idleLoopId.value := IdleFrame]
    requires e.input.IsJumpJustPressed() && !CanContinue(e.livesState)
    modifies e.Footprint()
    ensures e.gameState.state == Idle && e.Scheduled()
    ensures e.idleLoopId.Some? && e.frames.pending == map[e.idleLoopId.value := IdleFrame]
  {
    var loop := e.frames.Take(e.idleLoopId.value);
    e.ModalIdle(now);
    var h := e.idleLoopId.value;
    assert e.frames.pending == (e.frames.pending - {h})[h := IdleFrame];
    WaitingSchedule(e.frames.pending - {h}, h, e.animationFrameId, e.gameState.state);
  }
}
