/** The engine's per-frame arithmetic and screen rules
    (lib/game/engine/GameEngine.ts): the frame-time cap, the score a frame
    earns, the scrolling ground pattern, the countdown numbers, the
    milestone cue, the death-modal buttons, and which obstacles each pose of
    the player can meet. The engine class itself is in module Engine. */
module EngineRules {
  import opened GameConfig
  import opened Wrappers
  import opened Geometry
  import opened Obstacles
  import opened Difficulty
  import opened Players

  /** The two answers the death modal offers. */
  datatype Choice = Continue | Restart

  /** The longest frame the simulation advances by, in milliseconds. */
  const FRAME_CAP: real := 32.0
  /** The width of one tile of the ground pattern. */
  const GROUND_TILE: real := 16.0
  /** The first number the countdown shows. */
  const COUNTDOWN_FROM: int := 3
  /** How long the countdown lasts before play resumes, in milliseconds. */
  const COUNTDOWN_LENGTH: real := 3500.0
  /** How far ahead of the player obstacles are cleared on a continue. */
  const RESUME_CLEARANCE: real := 200.0

  /** The frame time handed to the simulation. */
  function CappedDelta(delta: real): (d: real)
    ensures d <= FRAME_CAP
    ensures delta <= FRAME_CAP ==> d == delta
    ensures FRAME_CAP <= delta ==> d == FRAME_CAP
  {
    Min(delta, FRAME_CAP)
  }

  /** The score one frame of play earns before bonuses: the base rate scaled
      by how much faster than the base speed the world scrolls. */
  function ScoreIncrement(speed: real): (inc: real)
    ensures BASE_SCROLL_SPEED <= speed ==> POINTS_PER_FRAME <= inc
    ensures speed <= MAX_SCROLL_SPEED ==> inc <= 4.0 * POINTS_PER_FRAME
  {
    POINTS_PER_FRAME * (speed / BASE_SCROLL_SPEED)
  }

  /** At every level a frame earns between the base rate (0.15) and four
      times it (0.6), more at higher levels. */
  lemma ScoreIncrementRange(low: int, high: int)
    requires 0 <= low <= high <= MAX_LEVEL
    ensures POINTS_PER_FRAME <= ScoreIncrement(SpeedFor(low)) <= ScoreIncrement(SpeedFor(high)) <= 4.0 * POINTS_PER_FRAME
    ensures ScoreIncrement(SpeedFor(0)) == POINTS_PER_FRAME
    ensures 0 < low ==> POINTS_PER_FRAME < ScoreIncrement(SpeedFor(low))
  {
    SpeedBounds(low, high);
    if 0 < low {
      SpeedGrowsFromBase(low);
    }
  }

  lemma SpeedGrowsFromBase(level: int)
    requires 0 < level <= MAX_LEVEL
    ensures BASE_SCROLL_SPEED < SpeedFor(level)
  {
    var p := ProgressOf(level);
    assert 0.0 < p;
    ProductPositive(p, p);
  }

  lemma ProductPositive(a: real, b: real)
    requires 0.0 < a && 0.0 < b
    ensures 0.0 < a * b
  {
  }

  /** JavaScript's `%` by the ground tile width: the remainder takes the
      sign of the dividend. */
  function WrapGround(offset: real): (r: real)
    decreases if offset < 0.0 then 1 else 0
    ensures 0.0 <= offset ==> 0.0 <= r < GROUND_TILE
    ensures offset < 0.0 ==> -GROUND_TILE < r <= 0.0
  {
    if offset < 0.0 then -WrapGround(-offset)
    else offset - GROUND_TILE * (offset / GROUND_TILE).Floor as real
  }

  /** For a non-negative offset the wrapped one lies within one tile and
      differs from it by whole tiles only, so the drawn pattern looks the
      same; an offset already within one tile is kept. */
  lemma WrapGroundKeepsPattern(offset: real)
    requires 0.0 <= offset
    ensures 0.0 <= WrapGround(offset) < GROUND_TILE
    ensures WrapGround(offset) <= offset
    ensures offset - WrapGround(offset) == GROUND_TILE * ((offset - WrapGround(offset)) / GROUND_TILE).Floor as real
    ensures offset < GROUND_TILE ==> WrapGround(offset) == offset
  {
    var k := (offset / GROUND_TILE).Floor;
    assert k as real <= offset / GROUND_TILE < k as real + 1.0;
    assert (offset - WrapGround(offset)) / GROUND_TILE == k as real;
  }

  /** The number the countdown shows after `elapsed` milliseconds. */
  function CountdownValueAt(elapsed: real): (v: int)
    ensures 0.0 <= elapsed ==> v <= COUNTDOWN_FROM
    ensures 0.0 <= elapsed < 1000.0 ==> v == COUNTDOWN_FROM
  {
    COUNTDOWN_FROM - (elapsed / 1000.0).Floor
  }

  /** The countdown shows 3 - k during the k-th second. */
  lemma CountdownBands(elapsed: real, k: int)
    ensures CountdownValueAt(elapsed) == COUNTDOWN_FROM - k <==>
              1000.0 * k as real <= elapsed < 1000.0 * (k + 1) as real
  {
    var f := (elapsed / 1000.0).Floor;
    assert f as real <= elapsed / 1000.0 < f as real + 1.0;
  }

  /** Until play resumes the countdown shows 3, 2, 1 and then 0 for its last
      half second; it never shows a negative number. */
  lemma CountdownBeforeResume(elapsed: real)
    requires 0.0 <= elapsed < COUNTDOWN_LENGTH
    ensures 0 <= CountdownValueAt(elapsed) <= COUNTDOWN_FROM
    ensures 3000.0 <= elapsed ==> CountdownValueAt(elapsed) == 0
  {
    var f := (elapsed / 1000.0).Floor;
    assert f as real <= elapsed / 1000.0 < f as real + 1.0;
  }

  /** The milestone test as the engine writes it: the score's hundreds
      against those of the score less one base-rate frame. */
  predicate MilestoneAsWritten(score: real)
    ensures MilestoneAsWritten(score) <==>
              score - POINTS_PER_FRAME < MILESTONE_INTERVAL * (score / MILESTONE_INTERVAL).Floor as real
  {
    (score / MILESTONE_INTERVAL).Floor > ((score - POINTS_PER_FRAME) / MILESTONE_INTERVAL).Floor
  }

  /** A frame that took the score from `before` to `after` reached a new
      multiple of 100. */
  predicate MilestoneCrossed(before: real, after: real)
    ensures before <= after ==>
              (MilestoneCrossed(before, after) <==> before < MILESTONE_INTERVAL * (after / MILESTONE_INTERVAL).Floor as real)
  {
    (after / MILESTONE_INTERVAL).Floor > (before / MILESTONE_INTERVAL).Floor
  }

  /** A frame crosses a milestone exactly when some multiple of 100 lies
      above the old score and at or below the new one. */
  lemma MilestoneCrossedMeansBoundary(before: real, after: real, k: int)
    requires before <= after
    ensures before < MILESTONE_INTERVAL * k as real <= after ==> MilestoneCrossed(before, after)
    ensures MilestoneCrossed(before, after) ==>
              var m := (after / MILESTONE_INTERVAL).Floor;
              before < MILESTONE_INTERVAL * m as real <= after
  {
    var a := (after / MILESTONE_INTERVAL).Floor;
    var b := (before / MILESTONE_INTERVAL).Floor;
    assert MILESTONE_INTERVAL * a as real <= after < MILESTONE_INTERVAL * a as real + MILESTONE_INTERVAL;
    assert MILESTONE_INTERVAL * b as real <= before < MILESTONE_INTERVAL * b as real + MILESTONE_INTERVAL;
    if before < MILESTONE_INTERVAL * k as real <= after {
      assert b < k;
      assert k <= a;
    }
    if a > b {
      assert b + 1 <= a;
      assert MILESTONE_INTERVAL * (b + 1) as real <= MILESTONE_INTERVAL * a as real;
    }
  }

  /** The written test never fires without a crossing when the frame earned
      at least the base rate: it can only miss. */
  lemma MilestoneAsWrittenOnlyMisses(before: real, after: real)
    requires before + POINTS_PER_FRAME <= after
    ensures MilestoneAsWritten(after) ==> MilestoneCrossed(before, after)
  {
    var p := ((after - POINTS_PER_FRAME) / MILESTONE_INTERVAL).Floor;
    var b := (before / MILESTONE_INTERVAL).Floor;
    assert p as real <= (after - POINTS_PER_FRAME) / MILESTONE_INTERVAL < p as real + 1.0;
    assert b as real <= before / MILESTONE_INTERVAL < b as real + 1.0;
  }

  /** When a frame earns exactly the base rate, the written test is the
      crossing test. */
  lemma MilestoneAsWrittenAtBaseRate(before: real)
    ensures MilestoneAsWritten(before + POINTS_PER_FRAME) == MilestoneCrossed(before, before + POINTS_PER_FRAME)
  {
  }

  /** From 9000 points on the level is the top one, where the world
      scrolls at the maximum speed and a frame earns 0.6 points. */
  lemma TopLevelFrame()
    ensures LevelFor(9099.9) == MAX_LEVEL && SpeedFor(MAX_LEVEL) == MAX_SCROLL_SPEED
    ensures ScoreIncrement(SpeedFor(LevelFor(9099.9))) == 0.6
  {
    LevelBand(9099.9, MAX_LEVEL);
    TopSpeedFrame();
  }

  /** At the top level the speed is the maximum and a frame earns 0.6. */
  lemma TopSpeedFrame()
    ensures SpeedFor(MAX_LEVEL) == MAX_SCROLL_SPEED && ScoreIncrement(MAX_SCROLL_SPEED) == 0.6
  {
    assert ProgressOf(MAX_LEVEL) == 1.0;
  }

  /** The written test can miss a crossing when the frame earned more than
      the base rate. A frame that passes an obstacle at 95 (base rate plus
      the 10-point bonus) reaches 105.15 without a cue. So does a frame at
      the top level, where a frame earns 0.6 points, from 9099.9 to 9100.5.
      The test compares any score with the score less 0.15, so 100.5 reached
      from 99.9 is missed too, though at that score a frame earns too little
      to make that step. */
  lemma MilestoneAsWrittenMissesCrossings()
    ensures MilestoneCrossed(95.0, 95.0 + POINTS_PER_FRAME + 10.0) && !MilestoneAsWritten(95.0 + POINTS_PER_FRAME + 10.0)
    ensures MilestoneCrossed(99.9, 100.5) && !MilestoneAsWritten(100.5)
    ensures LevelFor(9099.9) == MAX_LEVEL && 9099.9 + ScoreIncrement(SpeedFor(LevelFor(9099.9))) == 9100.5
    ensures MilestoneCrossed(9099.9, 9100.5) && !MilestoneAsWritten(9100.5)
  {
    assert (105.15 / MILESTONE_INTERVAL).Floor == 1;
    assert (105.0 / MILESTONE_INTERVAL).Floor == 1;
    assert (95.0 / MILESTONE_INTERVAL).Floor == 0;
    assert (100.5 / MILESTONE_INTERVAL).Floor == 1;
    assert (100.35 / MILESTONE_INTERVAL).Floor == 1;
    assert (99.9 / MILESTONE_INTERVAL).Floor == 0;
    TopLevelFrame();
    assert 9100.5 / MILESTONE_INTERVAL == 91.005 && (91.005).Floor == 91;
    assert (9100.5 - POINTS_PER_FRAME) / MILESTONE_INTERVAL == 91.0035 && (91.0035).Floor == 91;
    assert 9099.9 / MILESTONE_INTERVAL == 90.999 && (90.999).Floor == 90;
  }

  /** The death modal's two buttons, centred horizontally, one above the
      other. */
  const CONTINUE_BUTTON: Rect := Rect(GAME_WIDTH / 2.0 - 70.0, 120.0 - 12.0, 140.0, 24.0)
  const RESTART_BUTTON: Rect := Rect(GAME_WIDTH / 2.0 - 70.0, 145.0 - 12.0, 140.0, 24.0)

  /** A point on or inside a rectangle: unlike hitboxes, the edges count. */
  predicate IsPointInRect(x: real, y: real, r: Rect)
    ensures IsPointInRect(x, y, r) ==> 0.0 <= r.width && 0.0 <= r.height
    ensures ((x == r.x || x == r.x + r.width) && (y == r.y || y == r.y + r.height) &&
             0.0 <= r.width && 0.0 <= r.height) ==> IsPointInRect(x, y, r)
  {
    x >= r.x && x <= r.x + r.width && y >= r.y && y <= r.y + r.height
  }

  /** No point is on both buttons, edges included. */
  lemma ButtonsDisjoint(x: real, y: real)
    ensures !(IsPointInRect(x, y, CONTINUE_BUTTON) && IsPointInRect(x, y, RESTART_BUTTON))
  {
  }

  /** The button under the cursor; "continue" counts only while a life is
      left. */
  function ButtonAt(x: real, y: real, canContinue: bool): (c: Option<Choice>)
    ensures c == Some(Continue) <==> canContinue && IsPointInRect(x, y, CONTINUE_BUTTON)
    ensures c == Some(Restart) <==> IsPointInRect(x, y, RESTART_BUTTON)
    ensures c == None <==> !(canContinue && IsPointInRect(x, y, CONTINUE_BUTTON)) && !IsPointInRect(x, y, RESTART_BUTTON)
  {
    ButtonsDisjoint(x, y);
    if canContinue && IsPointInRect(x, y, CONTINUE_BUTTON) then Some(Continue)
    else if IsPointInRect(x, y, RESTART_BUTTON) then Some(Restart)
    else None
  }

  /** The hitbox of a player standing on the ground with the given body
      height: the body's box inset by 4. */
  function GroundedHitbox(height: real): Rect {
    Shrink(Rect(PLAYER_X, GROUND_Y - height, PLAYER_WIDTH, height), 4.0)
  }

  /** A valid player on the ground has exactly this hitbox, so the lemmas
      below speak of the player's own `getHitbox`. */
  lemma GroundedPlayerHitbox(p: Player)
    requires p.Valid() && p.isGrounded
    ensures p.GetHitbox() == GroundedHitbox(p.body.height)
  {
  }

  /** The box of a freshly placed obstacle of a kind at `x`. */
  function ObstacleBox(kind: ObstacleType, x: real, widthDraw: real, heightDraw: real): Rect {
    var p := ConfigForType(kind, None, None, widthDraw, heightDraw);
    Rect(x, p.y, p.width, p.height)
  }

  /** Ducking passes under every air obstacle; standing, the player meets
      one exactly when they overlap horizontally. */
  lemma AirObstaclesNeedDucking(x: real)
    ensures !Intersects(GroundedHitbox(PLAYER_DUCK_HEIGHT), ObstacleBox(Air, x, 0.0, 0.0))
    ensures Intersects(GroundedHitbox(PLAYER_HEIGHT), ObstacleBox(Air, x, 0.0, 0.0)) <==>
              PLAYER_X + 4.0 < x + AIR_OBSTACLE_WIDTH && x < PLAYER_X + 4.0 + (PLAYER_WIDTH - 8.0)
  {
  }

  /** A ground obstacle meets a grounded player in either pose whenever they
      overlap horizontally: only a jump clears it. */
  lemma GroundObstaclesNeedJumping(x: real, widthDraw: real, heightDraw: real)
    requires IsDraw(widthDraw) && IsDraw(heightDraw)
    ensures var box := ObstacleBox(Ground, x, widthDraw, heightDraw);
            var overlap := PLAYER_X + 4.0 < x + box.width && x < PLAYER_X + 4.0 + (PLAYER_WIDTH - 8.0);
            (Intersects(GroundedHitbox(PLAYER_HEIGHT), box) <==> overlap) &&
            (Intersects(GroundedHitbox(PLAYER_DUCK_HEIGHT), box) <==> overlap)
  {
  }
}
