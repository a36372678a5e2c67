/** The tuning constants every component of the simulation reads
    (lib/game/engine/GameConfig.ts). Colours are presentational and left out.
    Every constant is an exact rational; no IEEE rounding is modelled. */
module GameConfig {

  // Virtual resolution of the playfield
  const GAME_WIDTH: real := 600.0
  const GAME_HEIGHT: real := 200.0

  // Physics: variable gravity
  const GRAVITY: real := 0.6              // rising
  const GRAVITY_FALLING: real := 1.2      // falling
  const JUMP_VELOCITY: real := -13.0
  const JUMP_APEX_THRESHOLD: real := 2.0  // |vy| below this is "at the apex"
  const JUMP_APEX_GRAVITY: real := 0.3
  const TERMINAL_VELOCITY: real := 18.0

  // Player
  const PLAYER_X: real := 50.0
  const PLAYER_WIDTH: real := 32.0
  const PLAYER_HEIGHT: real := 48.0
  const PLAYER_DUCK_HEIGHT: real := 28.0
  const GROUND_Y: real := 160.0

  // Obstacles
  const OBSTACLE_MIN_WIDTH: real := 24.0
  const OBSTACLE_MAX_WIDTH: real := 48.0
  const OBSTACLE_MIN_HEIGHT: real := 32.0
  const OBSTACLE_MAX_HEIGHT: real := 48.0
  const AIR_OBSTACLE_HEIGHT: real := 24.0
  const AIR_OBSTACLE_Y: real := 100.0

  // Scrolling
  const BASE_SCROLL_SPEED: real := 2.5
  const MAX_SCROLL_SPEED: real := 10.0

  // Difficulty
  const MAX_LEVEL: int := 15
  const SCORE_THRESHOLDS: seq<int> :=
    [50, 150, 300, 500, 750,
     1000, 1400, 1900, 2500,
     3200, 4000, 5000, 6200,
     7500, 9000]

  // Obstacle generation
  const MIN_OBSTACLE_GAP: real := 350.0
  const MAX_OBSTACLE_GAP: real := 700.0
  const INITIAL_OBSTACLE_DELAY: real := 2000.0

  // Time of day, as fractions of the maximum level
  const DAY_END: real := 0.3
  const SUNSET_END: real := 0.5
  const DUSK_END: real := 0.7

  // Scoring
  const POINTS_PER_FRAME: real := 0.15
  const MILESTONE_INTERVAL: real := 100.0

  predicate StrictlyIncreasing(s: seq<int>) {
    forall i, j :: 0 <= i < j < |s| ==> s[i] < s[j]
  }

  /** The level computation stops at the first threshold above the score;
      that is only sound because the table is strictly increasing. */
  lemma ThresholdsStrictlyIncreasing()
    ensures StrictlyIncreasing(SCORE_THRESHOLDS)
  {
  }

  /** One threshold per level. */
  lemma ThresholdsCoverEveryLevel()
    ensures |SCORE_THRESHOLDS| == MAX_LEVEL
    ensures SCORE_THRESHOLDS[0] > 0
  {
  }

  lemma SpeedAndGapRangesNonEmpty()
    ensures 0.0 < BASE_SCROLL_SPEED < MAX_SCROLL_SPEED
    ensures 0.0 < MIN_OBSTACLE_GAP < MAX_OBSTACLE_GAP
  {
  }

  lemma GravityRegimesOrdered()
    ensures 0.0 < JUMP_APEX_GRAVITY < GRAVITY < GRAVITY_FALLING
    ensures JUMP_VELOCITY < 0.0 && -JUMP_VELOCITY < TERMINAL_VELOCITY
    ensures GRAVITY < JUMP_APEX_THRESHOLD
  {
  }

  lemma PlayerFitsAboveGround()
    ensures 0.0 < PLAYER_DUCK_HEIGHT < PLAYER_HEIGHT < GROUND_Y
  {
  }

  lemma TimeOfDayBandsOrdered()
    ensures 0.0 < DAY_END < SUNSET_END < DUSK_END < 1.0
  {
  }
}
