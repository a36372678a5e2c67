# Wizard Run — a verified model of the game core

This project models the simulation core of the "Wizard Run" endless side-scroller in Dafny. The core lives under `lib/game/` of the repository. A wizard runs along the ground. Obstacles scroll in from the right: ground obstacles must be jumped, air obstacles ducked under. The score grows every frame, and each obstacle passed earns a bonus. A growing score raises the level, which speeds the world up and tightens the gaps. A collision ends the run: it leads to a game-over screen, or to a death modal when the host runs a lives system. From the modal the player can spend a life, which starts a countdown and then resumes the run, or restart from the start screen.

The model has one module per source file:

| module | file | source |
|---|---|---|
| `GameConfig` | config.dfy | lib/game/engine/GameConfig.ts |
| `Vectors` | vector.dfy | lib/game/utils/Vector2.ts |
| `Geometry` | geometry.dfy | the hitbox rectangle of lib/game/utils/Rectangle.ts |
| `Entities` | entity.dfy | lib/game/entities/Entity.ts |
| `Players` | player.dfy | lib/game/entities/Player.ts |
| `Obstacles` | obstacle.dfy | lib/game/entities/Obstacle.ts |
| `Generators` | generator.dfy | lib/game/generators/ObstacleGenerator.ts |
| `Difficulty` | difficulty.dfy | lib/game/generators/DifficultyManager.ts |
| `States` | gamestate.dfy | lib/game/engine/GameState.ts |
| `Input` | input.dfy | lib/game/systems/InputManager.ts |
| `EngineRules` | engine_rules.dfy | the pure rules of lib/game/engine/GameEngine.ts |
| `Engine` | engine.dfy | the `GameEngine` class of lib/game/engine/GameEngine.ts |
| `Wrappers` | wrappers.dfy | `Option`, for the source's `null` and optional arguments |

The classes of the source that change their fields are Dafny classes with the same fields. These are `Vector2`, `Entity`, `Player`, `Obstacle`, `ObstacleGenerator`, `DifficultyManager`, `GameState`, `InputManager` and `GameEngine`. TypeScript inheritance becomes composition: a `Player` and an `Obstacle` each hold their `Entity` as `body`. Each method states its new state in terms of its old state. The loops of the source are `while` loops with invariants:
- the obstacle move (`MoveAll`), whose invariants state each obstacle's new speed and position directly;
- the pass-bonus scan (`PayPassed`), proved against the specification function `PassedCount`;
- the threshold scan (`ThresholdsReached`), proved against `LeadingCount`;
- the collision scan (`FindCollision`), proved against `Hits`.

The off-screen filter is not a loop: `DropOffScreen` sets the list to `Survivors`, a recursive filter. Lemmas prove the properties of each specification function.

The engine schedules frames through `requestAnimationFrame`. This is modelled as a `FrameScheduler`: a map from handles to the callback each handle will run, plus the next handle. The platform fires a frame through `GameEngine.RunFrame`. The predicate `Engine.ScheduleOk` states the discipline the corrected engine's loops keep:
- exactly the recorded idle loop is pending, and one is pending whenever the game waits for the player;
- exactly the recorded game or countdown loop is pending, and one is pending exactly while playing or counting down.

`RunFrame` preserves this discipline for every frame. The loops as written break it, as the findings below show: `IdleLoopAsWritten` leaves a stale idle handle, and `ModalAsWritten` leaves a second idle loop pending. What the engine reports to its host (the `callbacks`) and the sound cues it plays are recorded, in order, in an `events` sequence. The clock and the random draws are parameters.

## Model

| member | source | states |
|---|---|---|
| GameConfig.ThresholdsStrictlyIncreasing | lib/game/engine/GameConfig.ts:37-42 | the score thresholds are strictly increasing, which the early exit of the level scan relies on |
| GameConfig.ThresholdsCoverEveryLevel | lib/game/engine/GameConfig.ts:36-42 | there are exactly MAX_LEVEL = 15 thresholds, and the first is positive |
| GameConfig.SpeedAndGapRangesNonEmpty | lib/game/engine/GameConfig.ts:32-46 | 0 < base speed < maximum speed, and 0 < minimum gap < maximum gap |
| GameConfig.GravityRegimesOrdered | lib/game/engine/GameConfig.ts:9-14 | 0 < apex gravity < base gravity < falling gravity; the jump velocity is upward and smaller in magnitude than the terminal velocity; base gravity is below the apex threshold |
| GameConfig.PlayerFitsAboveGround | lib/game/engine/GameConfig.ts:18-21 | 0 < ducking height < standing height < ground line |
| GameConfig.TimeOfDayBandsOrdered | lib/game/engine/GameConfig.ts:50-55 | 0 < day end < sunset end < dusk end < 1 |
| Vectors.Vector2.constructor | lib/game/utils/Vector2.ts:4-7 | the new vector has the given coordinates |
| Vectors.Vector2.Set | lib/game/utils/Vector2.ts:9-13 | the coordinates become exactly (x, y), and the receiver itself is returned |
| Vectors.Vector2.Copy | lib/game/utils/Vector2.ts:15-19 | the receiver takes the argument's coordinates; a distinct argument is untouched; the receiver is returned |
| Vectors.Vector2.Clone | lib/game/utils/Vector2.ts:21-23 | a fresh vector with equal coordinates; nothing existing changes |
| Vectors.Vector2.Add | lib/game/utils/Vector2.ts:25-29 | the receiver gains the argument's coordinates (it doubles when it is its own argument); a distinct argument is untouched |
| Vectors.Vector2.Subtract | lib/game/utils/Vector2.ts:31-35 | the receiver loses the argument's coordinates; a distinct argument is untouched |
| Vectors.Vector2.Multiply | lib/game/utils/Vector2.ts:37-41 | both components are scaled by the scalar |
| Vectors.Vector2.Zero | lib/game/utils/Vector2.ts:56-58 | a fresh vector at (0, 0) |
| Vectors.Vector2.Sum | lib/game/utils/Vector2.ts:60-62 | a fresh vector holding the component-wise sum; the arguments are not modified |
| Vectors.Vector2.Difference | lib/game/utils/Vector2.ts:64-66 | a fresh vector holding the component-wise difference; the arguments are not modified |
| Vectors.AddThenSubtractRestores | lib/game/utils/Vector2.ts:25-35 | adding a distinct vector and subtracting it again restores the receiver, and the operand is unchanged |
| Vectors.SelfAddThenSubtractZeroes | lib/game/utils/Vector2.ts:25-35 | with the receiver as its own operand, the same two calls leave (0, 0) rather than the original |
| Geometry.Shrink | lib/game/entities/Entity.ts:53-56 | the inset box never has a negative size; when the inset fits, it lies inside the original and is 2n smaller on each axis |
| Geometry.Intersects | lib/game/engine/GameEngine.ts:339-349 | strict overlap: boxes apart or only touching, on either axis, do not collide |
| Geometry.IntersectsSymmetric | lib/game/engine/GameEngine.ts:339-349 | the collision test does not depend on the order of its two boxes |
| Geometry.ContainedIntersection | lib/game/entities/Entity.ts:53-56 | a box inside another meets only what the outer box meets, so a forgiving hitbox can only remove collisions |
| Geometry.ZeroSizeBoxCanStillIntersect | lib/game/entities/Entity.ts:53-56 | concrete boxes show that, under strict overlap, a box shrunk to zero size still meets a box that surrounds it |
| Entities.Entity.constructor | lib/game/entities/Entity.ts:13-18 | the position and size are the given ones; the velocity is (0, 0); the entity is active; its two vectors are fresh and distinct |
| Entities.Entity.SetX | lib/game/entities/Entity.ts:24-26 | the hitbox changes only in x, which becomes the value; the velocity is untouched |
| Entities.Entity.SetY | lib/game/entities/Entity.ts:32-34 | the hitbox changes only in y, which becomes the value; the velocity is untouched |
| Entities.Entity.SetActive | lib/game/entities/Entity.ts:36-42 | afterwards `IsActive` equals the argument, and the size is kept |
| Entities.Entity.GetForgivingHitbox | lib/game/entities/Entity.ts:53-56 | the hitbox inset by the amount (default 4), lying inside the plain hitbox whenever the inset fits |
| Players.GravityFor | lib/game/entities/Player.ts:59-72 | each gravity regime holds exactly on its velocity range: apex gravity iff abs(vy) < 2, falling gravity iff vy >= 2, base gravity iff vy <= -2 |
| Players.FallStep | lib/game/entities/Player.ts:74-75 | an airborne velocity step never exceeds the terminal velocity, strictly grows the velocity while below terminal, and is an unclamped gravity add when that fits |
| Players.RisingNeverSkipsApexBand | lib/game/entities/Player.ts:59-75 | a step from a velocity at or below -2 stays negative, so a rising jump cannot turn to falling without the apex band |
| Players.RisingAddsBaseGravity | lib/game/entities/Player.ts:59-75 | while every frame starts at or below -2, n frames add exactly n times the base gravity (by induction) |
| Players.JumpEntersApexBand | lib/game/entities/Player.ts:27-33 | a jump rises under base gravity for 18 frames and reaches vy = -1.6, inside the apex band, on the 19th |
| Players.Player.constructor | lib/game/entities/Player.ts:14-21 | the player spawns at (50, 112), sized 32 by 48, at rest, running and grounded, with the invariant established |
| Players.Player.Jump | lib/game/entities/Player.ts:27-33 | grounded and not ducking: vy = -13, airborne, jumping; otherwise pose, grounding and velocity are unchanged; the invariant is kept |
| Players.Player.Duck | lib/game/entities/Player.ts:35-41 | grounded and not jumping: ducking at height 28 with the feet on the ground; otherwise pose, height and y are unchanged |
| Players.Player.StandUp | lib/game/entities/Player.ts:43-49 | only from ducking: running at height 48 with y = 112; otherwise unchanged |
| Players.Player.Die | lib/game/entities/Player.ts:51-53 | the pose becomes dead; grounding and animation are kept |
| Players.Player.Update | lib/game/entities/Player.ts:55-98 | a dead player is frozen; otherwise one gravity step while airborne, a move by the velocity, a snap onto the ground at rest (a jump becomes a run), and the animation timer and frame advancing modulo 4; feet never go below the ground |
| Players.Player.Reset | lib/game/entities/Player.ts:204-216 | the spawn state: position (50, 112), velocity 0, size 32 by 48, running, grounded, animation counters zero |
| Players.Player.GetHitbox | lib/game/entities/Player.ts:218-222 | the collision box lies inside the body's box, never reaches below the ground, and is 24 wide |
| Obstacles.ConfigForType | lib/game/entities/Obstacle.ts:34-63 | placement by kind: a custom size wins; air at y = 100, 32 by 24; tall at y = 96, 32 by 64; ground with width in [24, 48) and height in [32, 48), its top placed from the minimum height 32 |
| Obstacles.GroundObstacleSinksBelowGround | lib/game/entities/Obstacle.ts:41-47 | a drawn ground obstacle rests on the ground iff the height draw is 0; otherwise its bottom is below the ground line (for example at 168 for the draw 0.5) |
| Obstacles.Obstacle.constructor | lib/game/entities/Obstacle.ts:17-32 | kind, variant and speed are as given; the obstacle is unscored and active; its box is the placement for its kind at x; velocity 0 |
| Obstacles.Obstacle.MarkScored | lib/game/entities/Obstacle.ts:69-71 | the obstacle is scored afterwards; the speed is kept |
| Obstacles.Obstacle.Update | lib/game/entities/Obstacle.ts:77-79 | the box moves left by exactly the scroll speed, whatever the frame time; y and the size are unchanged |
| Obstacles.Obstacle.SetScrollSpeed | lib/game/entities/Obstacle.ts:81-83 | the speed becomes the argument; the scored flag is kept |
| Obstacles.AirChance | lib/game/entities/Obstacle.ts:338 | the air chance is 0.035 per level, in [0, 0.35], and capped at 0.35 from level 10 on |
| Obstacles.ChooseType | lib/game/entities/Obstacle.ts:340-347 | never tall; air iff the draw is below the air chance; always ground at level 0 |
| Obstacles.AirOnlyGrowsWithLevel | lib/game/entities/Obstacle.ts:338-347 | a draw that yields air at one level yields air at every higher level |
| Obstacles.ChooseVariant | lib/game/entities/Obstacle.ts:350 | scary iff the draw is below the scary chance; always friendly at chance 0, always scary at chance 1 |
| Obstacles.CreateRandomObstacle | lib/game/entities/Obstacle.ts:330-353 | a fresh, valid, unscored obstacle whose kind, variant and box follow the draws as `ChooseType`, `ChooseVariant` and `ConfigForType` say; never tall |
| Generators.GapFactor | lib/game/generators/ObstacleGenerator.ts:63-65 | the gap scale is 1 - 0.03 per level, never below 0.7, at most 1 for non-negative levels, and 0.7 from level 10 on |
| Generators.NextGapWithinScaledRange | lib/game/generators/ObstacleGenerator.ts:61-68 | for every draw the redrawn gap lies in [minGap·f, maxGap·f], below the top when the range is wide, and positive when minGap is |
| Generators.DefaultGapBounds | lib/game/generators/ObstacleGenerator.ts:63-68 | with the default range, spawns are between 245 and 700 apart, and below 490 from level 10 on |
| Generators.Survivors | lib/game/generators/ObstacleGenerator.ts:33 | the filter keeps exactly the obstacles not off screen, in order, and keeps them distinct |
| Generators.SurvivorsKeepOrder | lib/game/generators/ObstacleGenerator.ts:33 | filtering a concatenation is the concatenation of the filtered parts, so the relative order of the kept obstacles is that of the list (by induction) |
| Generators.SurvivorsFrame | lib/game/generators/ObstacleGenerator.ts:33 | the filter's result depends only on the obstacles' bodies and positions |
| Generators.Beyond | lib/game/generators/ObstacleGenerator.ts:105 | the filter keeps exactly the obstacles strictly right of maxX, in order, and keeps them distinct |
| Generators.BeyondKeepsOrder | lib/game/generators/ObstacleGenerator.ts:105 | filtering a concatenation is the concatenation of the filtered parts, so the relative order of the kept obstacles is that of the list (by induction) |
| Generators.PassedCount | lib/game/generators/ObstacleGenerator.ts:90-101 | the number of passed, unscored obstacles never exceeds the number of obstacles |
| Generators.PassedCountZero | lib/game/generators/ObstacleGenerator.ts:90-101 | the count is zero iff no obstacle is passed and unscored (by induction) |
| Generators.PassedExcept | lib/game/generators/ObstacleGenerator.ts:90-101 | the number of obstacles the player has got past, not counting a given paid set, is at most the number of obstacles |
| Generators.PassedCountExcept | lib/game/generators/ObstacleGenerator.ts:90-101 | when exactly the paid obstacles are scored, the obstacles owed are those passed outside the paid set (by induction) |
| Generators.PassedExceptAgree | lib/game/generators/ObstacleGenerator.ts:90-101 | the count depends only on which obstacles of the list are paid (by induction) |
| Generators.ObstacleGenerator.constructor | lib/game/generators/ObstacleGenerator.ts:14-16 | the reset state: no obstacles, distance 350, clock 0, gaps 350 and 700 |
| Generators.ObstacleGenerator.Update | lib/game/generators/ObstacleGenerator.ts:18-47 | every obstacle takes the speed and moves left by it; exactly the off-screen ones are dropped, in order; the distance shrinks by the speed; from 2000 ms on, once the distance is used up, exactly one unscored obstacle spawns at 650 with the gap redrawn; every kept obstacle keeps its scored flag, width, height and active flag; obstacles stay distinct and own disjoint objects |
| Generators.ObstacleGenerator.Advance | lib/game/generators/ObstacleGenerator.ts:24-36 | the clock, move, filter and countdown part of a frame, with the same statements as `Update` before the spawn decision |
| Generators.ObstacleGenerator.DropOffScreen | lib/game/generators/ObstacleGenerator.ts:33 | the list becomes its survivors, and ownership is kept |
| Generators.ObstacleGenerator.MoveAll | lib/game/generators/ObstacleGenerator.ts:27-30 | every obstacle in the list has the new speed and has moved left by it; y, the scored flag and its body's size and active flag are kept |
| Generators.ObstacleGenerator.SpawnObstacle | lib/game/generators/ObstacleGenerator.ts:49-69 | exactly one fresh obstacle is appended, built from the draws at x = 650; the distance is the scaled gap draw; the clock and gaps are kept |
| Generators.ObstacleGenerator.SetGapRange | lib/game/generators/ObstacleGenerator.ts:75-78 | the gaps become the arguments; nothing else changes |
| Generators.ObstacleGenerator.Reset | lib/game/generators/ObstacleGenerator.ts:80-87 | no obstacles, distance 350, clock 0, last x 0, gaps 350 and 700 |
| Generators.ObstacleGenerator.CheckPassedObstacles | lib/game/generators/ObstacleGenerator.ts:90-101 | returns 10 times the number of passed, unscored obstacles and marks them scored; afterwards none is owed, so an immediate second call returns 0 |
| Generators.ObstacleGenerator.PayPassed | lib/game/generators/ObstacleGenerator.ts:93-98 | the loop pays 10 per passed, unscored obstacle, and every obstacle ends scored iff it was scored or is passed |
| Generators.ObstacleGenerator.PayIfPassed | lib/game/generators/ObstacleGenerator.ts:94-97 | one obstacle earns 10 iff it was passed and unscored, and is scored afterwards iff it was or is passed |
| Generators.ObstacleGenerator.ClearNearby | lib/game/generators/ObstacleGenerator.ts:104-107 | keeps exactly the obstacles right of maxX, in order; the distance becomes max(distance, minGap), so it never decreases |
| Difficulty.LeadingCount | lib/game/generators/DifficultyManager.ts:46-55 | the count of leading thresholds reached: every threshold before it is at or below the score, and the next one is above it |
| Difficulty.LeadingCountUnique | lib/game/generators/DifficultyManager.ts:49-55 | any n with those two properties is the count (by induction) |
| Difficulty.CountReached | lib/game/generators/DifficultyManager.ts:49-55 | the number of thresholds reached, wherever they sit, is at most the table's length |
| Difficulty.LeadingCountCountsAllReached | lib/game/generators/DifficultyManager.ts:49-55 | on a strictly increasing table, stopping at the first threshold above the score counts every threshold reached (by induction) |
| Difficulty.LevelFor | lib/game/generators/DifficultyManager.ts:44-57 | the level lies in [0, 15] and equals the leading count, so the cap never binds |
| Difficulty.LevelBand | lib/game/generators/DifficultyManager.ts:44-57 | the level is k iff the score is at or above the k-th threshold and below the next |
| Difficulty.LeadingCountMonotone | lib/game/generators/DifficultyManager.ts:49-55 | a higher score never gives a lower count (by induction) |
| Difficulty.LevelMonotone | lib/game/generators/DifficultyManager.ts:44-57 | s1 <= s2 implies level(s1) <= level(s2) |
| Difficulty.LevelExamples | lib/game/generators/DifficultyManager.ts:44-57 | scores 0 and 49.9 give level 0; 50 and 149 give 1; 150 gives 2; 8999 gives 14; 9000 and 100000 give 15 |
| Difficulty.ProgressOf | lib/game/generators/DifficultyManager.ts:21-23 | progress lies in [0, 1] for levels in range |
| Difficulty.SpeedBounds | lib/game/generators/DifficultyManager.ts:65-75 | within the level range the speed lies in [2.5, 10], never decreases with the level, and hits both ends |
| Difficulty.TimeOfDayByLevel | lib/game/generators/DifficultyManager.ts:26-36 | levels 0-4 are day, 5-7 sunset, 8-10 dusk, 11-15 night, each as an iff |
| Difficulty.TimeOfDayAt | lib/game/generators/DifficultyManager.ts:26-36 | day at level 0 and below, night at the top level and above |
| Difficulty.ScaryFactorAt | lib/game/generators/DifficultyManager.ts:39-42 | the scary factor is non-negative, at most 1 in range, 0 up to level 6 (40% progress), and 1 at the top level |
| Difficulty.ScaryFactorMonotone | lib/game/generators/DifficultyManager.ts:39-42 | the scary factor never decreases as the level rises |
| Difficulty.ObstacleParamsAt | lib/game/generators/DifficultyManager.ts:78-98 | in range, minGap shrinks by at most 25%, maxGap is twice minGap, airChance is in [0, 0.35], tallChance is in [0, 0.15] and is 0 up to 30% progress; the scary chance is the scary factor |
| Difficulty.DifficultyManager.constructor | lib/game/generators/DifficultyManager.ts:8-10 | level 0 at base speed, with the invariant that the speed is the level's speed |
| Difficulty.DifficultyManager.Update | lib/game/generators/DifficultyManager.ts:44-63 | the level becomes `LevelFor(score)`; the speed stays the level's speed and is unchanged when the level is |
| Difficulty.DifficultyManager.ThresholdsReached | lib/game/generators/DifficultyManager.ts:46-55 | the loop with early exit computes the leading count |
| Difficulty.DifficultyManager.UpdateScrollSpeed | lib/game/generators/DifficultyManager.ts:65-75 | the speed becomes 2.5 + 7.5·progress² for the current level, which is kept |
| Difficulty.DifficultyManager.Reset | lib/game/generators/DifficultyManager.ts:100-103 | level 0 at speed 2.5 |
| States.NoSelfTransitions | lib/game/engine/GameState.ts:47-54 | no phase may move to itself |
| States.EntriesIntoPlay | lib/game/engine/GameState.ts:47-54 | play is entered only from idle, paused, game over or countdown; the death modal only from play; the countdown only from the death modal |
| States.OnlyPlayFollows | lib/game/engine/GameState.ts:47-54 | idle and countdown each lead only to playing |
| States.RouteToIdle | lib/game/engine/GameState.ts:47-54 | every phase has an allowed route back to idle that passes through idle only at its end |
| States.GameState.constructor | lib/game/engine/GameState.ts:6-8 | idle, previous idle, time 0 |
| States.GameState.Transition | lib/game/engine/GameState.ts:30-40 | returns true iff the table allows the move; then current is the target, previous the old current, and the time is 0; otherwise nothing changes |
| States.GameState.Update | lib/game/engine/GameState.ts:42-44 | only the time in the phase grows by the frame time |
| States.GameState.Reset | lib/game/engine/GameState.ts:59-63 | idle, previous idle, time 0, from any phase |
| Input.InputManager.constructor | lib/game/systems/InputManager.ts:6-19 | no key held or pressed, enabled, not touching |
| Input.InputManager.HandleKeyDown | lib/game/systems/InputManager.ts:47-56 | the key is held afterwards; it becomes just pressed only if it was not already held, so auto-repeat does not press again |
| Input.InputManager.HandleKeyUp | lib/game/systems/InputManager.ts:58-61 | the key is neither held nor just pressed |
| Input.InputManager.HandleTouchStart | lib/game/systems/InputManager.ts:63-72 | with a touch, Space is held and just pressed and the start y is recorded; with none, nothing changes |
| Input.InputManager.HandleTouchEnd | lib/game/systems/InputManager.ts:74-79 | Space and ArrowDown are released and touching ends; just-pressed flags are kept |
| Input.InputManager.HandleTouchMove | lib/game/systems/InputManager.ts:81-95 | while touching, a move more than 30 below the start holds ArrowDown and releases Space; a smaller one releases ArrowDown; otherwise nothing changes |
| Input.InputManager.ClearJustPressed | lib/game/systems/InputManager.ts:117-119 | nothing counts as just pressed; held keys are kept |
| Input.InputManager.SetEnabled | lib/game/systems/InputManager.ts:121-123 | the flag becomes the argument; the maps are kept |
| Input.InputManager.Reset | lib/game/systems/InputManager.ts:125-129 | both maps are empty and touching ends |
| Input.DisabledReportsNothing | lib/game/systems/InputManager.ts:97-115 | while disabled no key, jump or duck is reported, whatever the maps hold |
| Input.HeldKeyRegistersOnce | lib/game/systems/InputManager.ts:47-56 | a key held and repeated after a frame clears it stays held but is not just pressed again |
| Input.TapThenSwipe | lib/game/systems/InputManager.ts:63-95 | a tap then a swipe down after a frame leaves a duck held and no jump |
| EngineRules.CappedDelta | lib/game/engine/GameEngine.ts:157 | the frame time is at most 32, and equals the raw delta below the cap |
| EngineRules.ScoreIncrement | lib/game/engine/GameEngine.ts:316 | a frame at a speed from the base speed on earns at least 0.15, and at most 0.6 up to the maximum speed |
| EngineRules.ScoreIncrementRange | lib/game/engine/GameEngine.ts:316 | a frame earns between 0.15 and 0.6 points, exactly 0.15 at level 0, more at any higher level, never less at a higher level |
| EngineRules.SpeedGrowsFromBase | lib/game/engine/GameEngine.ts:316 | from level 1 on the speed exceeds the base speed |
| EngineRules.WrapGround | lib/game/engine/GameEngine.ts:302 | JavaScript's `% 16`: a non-negative offset lands in [0, 16), a negative one in (-16, 0] |
| EngineRules.WrapGroundKeepsPattern | lib/game/engine/GameEngine.ts:302 | for a non-negative offset, JavaScript's `% 16` lies in [0, 16), differs from the offset by whole tiles, and keeps offsets already below 16 |
| EngineRules.CountdownValueAt | lib/game/engine/GameEngine.ts:265 | the number shown never exceeds 3 once time has started, and is 3 throughout the first second |
| EngineRules.CountdownBands | lib/game/engine/GameEngine.ts:263-265 | the countdown shows 3 - k exactly during the k-th second |
| EngineRules.CountdownBeforeResume | lib/game/engine/GameEngine.ts:263-280 | before the 3500 ms resume the countdown shows a value in [0, 3], and 0 during its last half second |
| EngineRules.MilestoneAsWritten | lib/game/engine/GameEngine.ts:331-334 | the cue fires iff the score less 0.15 lies below the last multiple of 100 at or below the score |
| EngineRules.MilestoneCrossed | lib/game/engine/GameEngine.ts:331-336 | for a score that did not fall, a crossing means the old score lies below the last multiple of 100 at or below the new one |
| EngineRules.MilestoneCrossedMeansBoundary | lib/game/engine/GameEngine.ts:331-336 | a frame crosses a milestone iff some multiple of 100 lies above the old score and at or below the new one |
| EngineRules.MilestoneAsWrittenOnlyMisses | lib/game/engine/GameEngine.ts:331-336 | as written, the test never fires without a crossing when the frame earned at least the base rate |
| EngineRules.MilestoneAsWrittenAtBaseRate | lib/game/engine/GameEngine.ts:331-336 | as written, the test is exact when a frame earns exactly the base rate |
| EngineRules.MilestoneAsWrittenMissesCrossings | lib/game/engine/GameEngine.ts:331-336 | as written, the test misses the crossing from 95 to 105.15 (a frame that passes an obstacle), and at the top level, where a frame earns exactly 0.6, the crossing from 9099.9 to 9100.5; the pair 99.9 to 100.5 is missed too, though a run at 99.9 earns only about 0.15 per frame |
| EngineRules.TopLevelFrame | lib/game/engine/GameEngine.ts:316 | a score of 9099.9 is at the top level, where the speed is the maximum and a frame earns exactly 0.6 |
| EngineRules.TopSpeedFrame | lib/game/engine/GameEngine.ts:316 | at the top level the speed is the maximum, and a frame at the maximum speed earns exactly 0.6 |
| EngineRules.ButtonsDisjoint | lib/game/engine/GameEngine.ts:484-506 | no point is on both modal buttons, edges included |
| EngineRules.IsPointInRect | lib/game/engine/GameEngine.ts:518-524 | a point counts as inside only for a box of non-negative size, and every corner of such a box is inside (edges are inclusive) |
| EngineRules.ButtonAt | lib/game/engine/GameEngine.ts:518-573 | the button under the cursor: continue iff a life is left and the point is on it, restart iff the point is on that button, none otherwise |
| EngineRules.AirObstaclesNeedDucking | lib/game/engine/GameEngine.ts:339-349 | a grounded ducking player never meets an air obstacle; standing, the player meets one iff they overlap horizontally |
| EngineRules.GroundObstaclesNeedJumping | lib/game/engine/GameEngine.ts:339-349 | a grounded player meets a ground obstacle in either pose iff they overlap horizontally, so only a jump clears it |
| EngineRules.GroundedPlayerHitbox | lib/game/entities/Player.ts:218-222 | a valid grounded player's hitbox is exactly the grounded hitbox of its height, the box the two lemmas above are about |
| Engine.Without | lib/game/engine/GameEngine.ts:97-102 | cancelling a handle removes exactly that entry and keeps every other callback |
| Engine.CanContinue | lib/game/engine/GameEngine.ts:231 | a life can be spent only when the host has handed in a lives snapshot |
| Engine.ScheduleOkMeansOneOfEach | lib/game/engine/GameEngine.ts:92-138 | under the discipline at most one idle loop and at most one other loop are pending, and a pending game or countdown loop matches the phase |
| Engine.RunScheduled | lib/game/engine/GameEngine.ts:140-149 | starting a run from a waiting phase keeps the discipline |
| Engine.ActiveReplaced | lib/game/engine/GameEngine.ts:176-179 | a fired game or countdown loop replaced by a new loop of the matching phase keeps the discipline |
| Engine.ActiveDropped | lib/game/engine/GameEngine.ts:176-179 | a fired game loop lapsing after the run ended, with the idle loop already pending, keeps the discipline |
| Engine.ActiveDroppedIdleAdded | lib/game/engine/GameEngine.ts:176-179 | a fired game loop lapsing with the idle loop newly requested keeps the discipline |
| Engine.WaitingSchedule | lib/game/engine/GameEngine.ts:104-129 | while the game waits for the player, the fired idle loop was the only pending callback |
| Engine.IdleRequeued | lib/game/engine/GameEngine.ts:132-137 | a fired idle loop requested again keeps the discipline |
| Engine.IdleLapsed | lib/game/engine/GameEngine.ts:134-137 | an idle loop lapsing during play keeps the discipline once its handle is forgotten |
| Engine.OnlyGameLoop | lib/game/engine/GameEngine.ts:140-149 | the game loop alone is a consistent schedule for play |
| Engine.ModalRescheduled | lib/game/engine/GameEngine.ts:114-120 | after the modal's keys, either the countdown loop alone or the idle loop alone is pending, consistently with the phase |
| Engine.SelectionAfterKeys | lib/game/engine/GameEngine.ts:212-222 | continue is selected only when a life is left or nothing changed it; down alone always selects restart |
| Engine.GameOverEvents | lib/game/engine/GameEngine.ts:351-383 | the game-over cue first, at most three reports; a new high score is reported iff the score beat it, and the final score iff no lives system is present |
| Engine.HitsSomeIndex | lib/game/engine/GameEngine.ts:339-349 | `Hits` (some active obstacle, scanned from the back, is met by the box) holds iff some index of the list is met, which is what the front-to-back scan looks for (by induction) |
| Engine.HitsFrame | lib/game/engine/GameEngine.ts:339-349 | `Hits` depends only on the obstacles' bodies and positions, so scoring them does not change it |
| Engine.FrameScheduler.constructor | lib/game/engine/GameEngine.ts:94 | an empty schedule whose first handle is 0 |
| Engine.FrameScheduler.Request | lib/game/engine/GameEngine.ts:94 | the callback is added under a new handle that was not pending |
| Engine.FrameScheduler.Cancel | lib/game/engine/GameEngine.ts:99 | exactly that handle's callback is dropped |
| Engine.FrameScheduler.Take | lib/game/engine/GameEngine.ts:151 | the platform fires a pending frame (calling `gameLoop` with its timestamp): the entry leaves the schedule, its callback is returned, and the next handle is kept |
| Engine.GameEngine.constructor | lib/game/engine/GameEngine.ts:42-69 | fresh sub-systems in their reset states, idle, score 0, no loops pending, no lives, continue selected, nothing reported |
| Engine.GameEngine.Init | lib/game/engine/GameEngine.ts:71-90 | the idle loop is requested under the next handle, which advances by one, unless an idle loop is recorded, in which case the schedule is kept; the game loop handle, the run and the selection are kept; on a fresh engine this establishes the scheduling discipline |
| Engine.GameEngine.StartIdleLoop | lib/game/engine/GameEngine.ts:92-95 | an idle loop is requested and recorded iff none is recorded |
| Engine.GameEngine.StopIdleLoop | lib/game/engine/GameEngine.ts:97-102 | the recorded idle loop is cancelled and forgotten |
| Engine.GameEngine.RunFrame | lib/game/engine/GameEngine.ts:151-180 | firing any pending frame keeps the engine valid and the scheduling discipline intact |
| Engine.GameEngine.IdleLoop | lib/game/engine/GameEngine.ts:104-138 | the corrected idle loop: with no lives on the start screen a jump starts nothing; in the death modal the keys are handled; on the start screen or after a game over a jump starts a run and its press is kept for the first game frame; otherwise nothing changes but the keys; the discipline holds afterwards |
| Engine.GameEngine.Requeue | lib/game/engine/GameEngine.ts:106-112 | the waiting idle loop drops this frame's presses and is requested again, keeping the discipline |
| Engine.GameEngine.StartFromWaiting | lib/game/engine/GameEngine.ts:123-129 | a jump on the start screen or after a game over starts a run with only the game loop pending |
| Engine.GameEngine.ModalIdle | lib/game/engine/GameEngine.ts:115-120 | the corrected modal branch: the idle loop is requested before the keys are handled, so after any key the discipline holds, and the keys have the effect `ProcessDeathModalInput` states (`ModalHandled`) |
| Engine.GameEngine.ModalKeys | lib/game/engine/GameEngine.ts:115-120 | the modal's keys handled while the idle loop is pending keep the discipline |
| Engine.GameEngine.IdleLoopAsWritten | lib/game/engine/GameEngine.ts:104-138 | fired during play, the loop as written lapses: phase, schedule and recorded idle handle are all unchanged, so the handle goes stale |
| Engine.GameEngine.ModalAsWritten | lib/game/engine/GameEngine.ts:115-120 | as written: the keys are handled, then one more idle loop is requested and recorded; after a continue the countdown loop and that idle loop are pending; after a restart two idle loops are pending and only the second is recorded; without a confirmation one idle loop is added to the old schedule |
| Engine.GameEngine.ClearAndRequestIdle | lib/game/engine/GameEngine.ts:117-118 | the presses are cleared and an idle loop is requested under the next handle and recorded over any previous handle; the rest of the schedule is kept |
| Engine.GameEngine.RequestIdleFrame | lib/game/engine/GameEngine.ts:110 | an idle loop is requested and its handle recorded over any previous one |
| Engine.GameEngine.Start | lib/game/engine/GameEngine.ts:140-149 | only from idle or game over: everything is reset, play begins, the start is reported and the game loop requested; in any other phase nothing changes |
| Engine.GameEngine.BeginRun | lib/game/engine/GameEngine.ts:141-148 | the run begins and the game loop is requested, keeping the discipline |
| Engine.GameEngine.FreshRun | lib/game/engine/GameEngine.ts:142-146 | a reset world in play, with the start cue and report, and the clock at now |
| Engine.GameEngine.RequestGameLoop | lib/game/engine/GameEngine.ts:147 | the game loop is requested and recorded; a consistent waiting schedule stays consistent in play |
| Engine.GameEngine.GameLoop | lib/game/engine/GameEngine.ts:151-180 | one frame of play keeps the discipline, ends in play, the death modal or game over, adds at least 0.15 to the score, never lowers the high score, and records the timestamp |
| Engine.GameEngine.PlayFrame | lib/game/engine/GameEngine.ts:162-174 | the keys and the simulation of a frame: the collision flag holds iff the player's final hitbox meets an active obstacle of the final list, the bonus is 10 per obstacle of that list passed and not scored before the frame, a collision ends the run (death modal or game over, high score, ended schedule) and otherwise everything but the score is kept; the presses are cleared |
| Engine.GameEngine.SteerAndUpdate | lib/game/engine/GameEngine.ts:162-168 | the keys, then the simulation only while still playing, with the collision flag, the bonus and the run after the check as `Update` states them |
| Engine.GameEngine.RequeueGameLoop | lib/game/engine/GameEngine.ts:176-179 | the game loop re-requests itself while playing and lapses otherwise, keeping the discipline |
| Engine.GameEngine.ProcessInput | lib/game/engine/GameEngine.ts:182-210 | dispatch by phase: a jump on the start screen or after game over starts a run; the playing keys steer; the death modal handles its keys; a countdown or pause changes nothing |
| Engine.GameEngine.Steer | lib/game/engine/GameEngine.ts:187-201 | a jump press jumps, with a cue unless already jumping; a jump while ducking is refused; holding down ducks; releasing stands up; the run and schedule are untouched |
| Engine.GameEngine.HoldDuck | lib/game/engine/GameEngine.ts:196-201 | holding down ducks a grounded player; releasing stands up a ducking one; a jump is not interrupted and none is started |
| Engine.GameEngine.ProcessDeathModalInput | lib/game/engine/GameEngine.ts:212-228 | the arrows move the selection, and a jump press confirms it, with the matching run and schedule |
| Engine.GameEngine.SelectByKeys | lib/game/engine/GameEngine.ts:213-222 | the selection becomes the one `SelectionAfterKeys` gives |
| Engine.GameEngine.ConfirmDeathModalSelection | lib/game/engine/GameEngine.ts:230-252 | continue with a life left: one life spent, reported, countdown scheduled; anything else: reset to the start screen with a new idle loop |
| Engine.GameEngine.ContinueFromModal | lib/game/engine/GameEngine.ts:233-243 | the count drops by exactly 1, the life is reported, and the countdown starts with the run kept |
| Engine.GameEngine.RestartFromModal | lib/game/engine/GameEngine.ts:244-251 | everything is reset to the start screen, and the idle loop is replaced |
| Engine.GameEngine.StopAndReset | lib/game/engine/GameEngine.ts:246-248 | the idle loop is cancelled and the world reset to idle |
| Engine.GameEngine.ResetToStartScreen | lib/game/engine/GameEngine.ts:247-248 | the world is reset to idle; the refused transition changes nothing |
| Engine.GameEngine.StartCountdown | lib/game/engine/GameEngine.ts:254-261 | the idle loop is cancelled, the countdown loop requested, and the countdown set to 3 at now |
| Engine.GameEngine.SetCountdownClock | lib/game/engine/GameEngine.ts:256-259 | the countdown is 3, started at now, in the countdown phase when coming from the death modal |
| Engine.GameEngine.CountdownLoop | lib/game/engine/GameEngine.ts:263-280 | one countdown frame shows the number for the elapsed time, with a beep on change; after 3500 ms play resumes with the player at the spawn point and the nearby obstacles cleared; before that nothing else moves; score and lives are kept; the discipline holds |
| Engine.GameEngine.EndCountdown | lib/game/engine/GameEngine.ts:263-277 | the last number is shown and play resumes, the game loop replacing the countdown loop |
| Engine.GameEngine.ResumePlay | lib/game/engine/GameEngine.ts:282-290 | play resumes with the game loop replacing the countdown loop, keeping the discipline |
| Engine.GameEngine.RequeueCountdown | lib/game/engine/GameEngine.ts:263-279 | the number is updated and the countdown loop re-requests itself, keeping the discipline |
| Engine.GameEngine.ShowCountdown | lib/game/engine/GameEngine.ts:264-269 | a new non-negative number is shown with a beep; otherwise nothing changes |
| Engine.GameEngine.ResumeFromDeath | lib/game/engine/GameEngine.ts:282-290 | the player is at the spawn point, exactly the obstacles beyond 250 remain, play is entered, the clock is now and the game loop is requested |
| Engine.GameEngine.Respawn | lib/game/engine/GameEngine.ts:283-285 | the player is reset and exactly the obstacles beyond the player's x + 200 remain |
| Engine.GameEngine.Update | lib/game/engine/GameEngine.ts:292-337 | the player steps; the obstacles take the speed, move, are filtered and may spawn as `ObstacleGenerator.Moved` states, from the speed, level and scary factor before the frame, keeping their size and active flag; each obstacle's scored flag is set iff it was set before the frame or the obstacle is now behind the player; the ground wraps by the speed; the collision flag holds iff the player's hitbox meets an active obstacle after the move; the bonus is 10 per obstacle passed and not yet scored; the score grows by 0.15·speed/2.5 plus the bonus, even in a frame that ended the run; the level follows the score; the events are the game-over ones, the pass cue, the score report and the milestone cue by the test as written; a collision ends the run, otherwise nothing else changes |
| Engine.GameEngine.CollideAndScore | lib/game/engine/GameEngine.ts:313-336 | the collision check, then the frame's points: the flag and the bonus as in `Update`, the score, the level and the events as in `Update` with the milestone test as written; each obstacle's scored flag is set iff it was set or the obstacle is behind the player; nothing moves |
| Engine.GameEngine.MoveWorld | lib/game/engine/GameEngine.ts:294-311 | the player takes one frame step (`Player.Update`), the obstacles take one generator step at the current speed, level and scary factor (`ObstacleGenerator.Update`), and the ground offset wraps by the speed; the run and the events are kept |
| Engine.GameEngine.AddFrameScore | lib/game/engine/GameEngine.ts:316-336 | the score gains the speed-scaled base points and 10 per obstacle passed and not yet scored; the level follows; the pass cue, the floored score report and the milestone cue by the test as written are reported; the collision test's result is kept; the scored flags are as in `CollideAndScore` |
| Engine.GameEngine.AddPassBonus | lib/game/engine/GameEngine.ts:318-323 | the score grows by 10 per obstacle passed and not yet scored, with the pass cue when anything was paid; the scored flags are as in `CollideAndScore`; the collision test's result and the run are otherwise kept |
| Engine.GameEngine.LevelAndReport | lib/game/engine/GameEngine.ts:326-336 | the level becomes the score's level, then the floored score and, by the test as written, the milestone cue are reported; the obstacles' collision and pass counts are kept |
| Engine.GameEngine.ReportScoreAsWritten | lib/game/engine/GameEngine.ts:329-336 | the floored score is reported, then the milestone cue iff the score less 0.15 lies in a lower hundred |
| Engine.GameEngine.ReportScore | lib/game/engine/GameEngine.ts:329-336 | the floored score is reported, then the milestone cue iff the frame crossed a multiple of 100 |
| Engine.GameEngine.CheckCollisions | lib/game/engine/GameEngine.ts:339-349 | the run ends (`GameOver`) iff some active obstacle's box meets the player's hitbox; otherwise nothing changes |
| Engine.GameEngine.FindCollision | lib/game/engine/GameEngine.ts:339-349 | the scan finds a hit iff some active obstacle's box meets the player's hitbox; nothing changes |
| Engine.GameEngine.GameOver | lib/game/engine/GameEngine.ts:351-383 | the player dies; the high score becomes max(high, score) and is new iff the score beat it; with lives the death modal selects continue iff a life is left; without lives game over is entered and the final score reported; the game loop is cancelled and the idle loop started |
| Engine.GameEngine.MarkDeath | lib/game/engine/GameEngine.ts:352-362 | the player dies, the cue plays and the high score is recorded |
| Engine.GameEngine.CloseRun | lib/game/engine/GameEngine.ts:364-382 | the game loop is cancelled and the ending screen entered, with the idle loop started |
| Engine.GameEngine.RecordHighScore | lib/game/engine/GameEngine.ts:356-362 | a better score becomes the high score and is reported, with the new-record flag set iff it was better |
| Engine.GameEngine.StopGameLoop | lib/game/engine/GameEngine.ts:365-368 | the recorded game loop is cancelled and forgotten |
| Engine.GameEngine.ShowEnding | lib/game/engine/GameEngine.ts:370-382 | with lives: the death modal, continue selected iff a life is left; without: game over and the final score; the idle loop started unless recorded |
| Engine.GameEngine.Reset | lib/game/engine/GameEngine.ts:436-446 | score 0, ground 0, no new record, player at spawn, generator, difficulty and state machine reset |
| Engine.GameEngine.SetHighScore | lib/game/engine/GameEngine.ts:448-450 | the high score becomes the argument; every other field of the engine and the schedule are kept |
| Engine.GameEngine.SetLivesState | lib/game/engine/GameEngine.ts:452-454 | the lives snapshot becomes the argument; every other field of the engine and the schedule are kept |
| Engine.GameEngine.GetScore | lib/game/engine/GameEngine.ts:460-462 | the largest whole number not above the score |
| Engine.GameEngine.GetHighScore | lib/game/engine/GameEngine.ts:464-466 | the largest whole number not above the high score |
| Engine.GameEngine.Destroy | lib/game/engine/GameEngine.ts:472-482 | the game loop and the idle loop are cancelled and the idle handle forgotten; the game loop handle stays recorded and the next handle is kept; under the discipline nothing is left pending |
| Engine.GameEngine.HandleCanvasMouseMove | lib/game/engine/GameEngine.ts:526-554 | outside the modal nothing is hovered; in it the button under the cursor is hovered and, when the hover changes to a button, selected; every other field and the schedule are kept |
| Engine.GameEngine.HandleCanvasClick | lib/game/engine/GameEngine.ts:556-573 | in the modal a click on continue (with a life left) continues, a click on restart restarts; otherwise nothing changes |
| Engine.GameEngine.ClickButton | lib/game/engine/GameEngine.ts:563-572 | the clicked button becomes the selection and is confirmed, keeping the discipline |
| Engine.IdleHandleGoesStaleAsWritten | lib/game/engine/GameEngine.ts:104-138 | as written, an idle loop fired during play followed by a collision leaves the idle handle recorded and nothing pending, which breaks the discipline |
| Engine.IdleHandleStaysLive | lib/game/engine/GameEngine.ts:104-138 | with the corrected idle loop the same sequence leaves exactly one idle loop pending and the discipline intact |
| Engine.ModalRestartLeavesTwoIdleLoopsAsWritten | lib/game/engine/GameEngine.ts:115-120 | as written, a restart confirmed by key in the death modal leaves two idle loops pending, of which only the second is recorded, which breaks the discipline |
| Engine.ModalRestartLeavesOneIdleLoop | lib/game/engine/GameEngine.ts:115-120 | with the corrected modal branch the same restart reaches the start screen with exactly the recorded idle loop pending and the discipline intact |

## Left out

- Drawing is not modelled: every `render` method, `Renderer` and `ParallaxSystem`, including the engine's `parallax.update` and `parallax.reset` calls. It has no effect on the simulation.
- Audio is not modelled. The engine's `audio.play*` calls appear only as `Sound` events in the engine's event sequence.
- The host callbacks (`onScoreChange`, `onGameOver`, `onHighScoreChange`, `onLifeUsed`, `onGameStart`) are recorded as events. The host's reactions are not modelled.
- `LivesService`, `LeaderboardService`, the React components and the pages are left out. The engine sees only the lives snapshot handed to `setLivesState`.
- `requestAnimationFrame` and `cancelAnimationFrame` are the `FrameScheduler`. `performance.now()` and the frame timestamp are parameters.
- Each `Math.random()` draw is a parameter in [0, 1), given in the order the source draws it.
- Numbers are exact reals. IEEE double rounding is not modelled: for example, 0.15·speed/2.5 is not rounded.
- lib/game/utils/Rectangle.ts is not part of this model. `Geometry.Intersects` (strict overlap on both axes) and `Geometry.Shrink` (inset on every side, sizes clamped at 0) state its documented behaviour as definitions.
- `Vector2.magnitude` and `normalize` are left out; they need a square root.
- The engine constructor's canvas, context, renderer and audio set-up are left out, as are event-listener registration, `preventDefault`, `getCanvasCoords` and the cursor style. The mouse handlers take canvas coordinates directly, and the touch handlers take the `clientY` of each touch.
- `InputManager.init`, `initTouch`, `destroy` and `destroyTouch` only register listeners, so they are left out.
- The plain getters are functions without contracts of their own, and the other members' contracts use them. These are:
  - `GameState.previous` and `timeInState`, read as fields;
  - `current`, `is` and `isAny`;
  - `Entity.x` and `y`;
  - `Obstacle.isScored` and `isOffScreen`;
  - the `DifficultyManager` getters;
  - the `InputManager` queries;
  - `getLivesState` and `isGameOver`.
- Engine.GameEngine.RunFrame: states only validity and the scheduling discipline. Its callees state what each kind of frame does.
- Engine.GameEngine.GameLoop: states the schedule, the resulting phase, the score's growth, the high score's monotonicity and the clock, but not the rest of the new state. `PlayFrame` states the collision, the bonus and the run after the check. The moves (`Player.Moved`, `ObstacleGenerator.Moved`), the scored flags (`ObstacleGenerator.PaidAfter`) and the score are stated by `Update`, from the state `ProcessInput` leaves; the composed frame does not restate them.
- Engine.GameEngine.PlayFrame: does not restate the movement and scoring clauses of `Update` (`Player.Moved`, `ObstacleGenerator.Moved`, `ObstacleGenerator.PaidAfter`, `FrameScored`). Those clauses are about the state after the keys, which the frame does not name.
- Engine.GameEngine.SteerAndUpdate: does not restate the movement and scoring clauses of `Update`, for the same reason as `PlayFrame`.
- Engine.GameEngine.Requeue: states only the schedule and the cleared presses.
- Engine.GameEngine.IdleLoopAsWritten: states only the behaviour when fired during play, which is the path the finding needs. The other branches are those of `IdleLoop`.
- Engine.GameEngine.ModalAsWritten: states the schedule it leaves and the cleared presses, but not the keys' effect on the run; `ProcessDeathModalInput` states that.
- Engine.GameEngine.EndCountdown: resumes play before showing the last number, while the source shows it first. The two steps touch disjoint state, so the resulting state is the same.
- Engine.GameEngine.Update: returns ghost values, the collision flag and the bonus, that name what the frame did. The source returns nothing.
- Engine.GameEngine.ModalIdle: requests the idle loop before the keys are handled, while the source requests it after them. This is the correction of the third finding; `ModalAsWritten` keeps the source's order.
- Engine.GameEngine.IdleLoop: is the corrected idle loop of the first and third findings; `IdleLoopAsWritten` and `ModalAsWritten` keep the source's behaviour.
- Obstacles.Obstacle.constructor: takes the variant as an argument. The source's default `'friendly'` for a caller that omits it is not modelled, since every caller in the core passes a variant.

These quirks of the source are kept as written:
- A ground obstacle's top is placed from the default height 32, not from its drawn height, so it sinks up to 16 below the ground (`Obstacles.GroundObstacleSinksBelowGround`).
- `createRandomObstacle` never yields a tall obstacle.
- A frame that ends the run still adds its points after the final score has been reported.
- The milestone cue compares the score with the score less one base increment, so it can miss a crossing (second finding). The engine's frame (`Update`, `CollideAndScore`, `AddFrameScore`, `LevelAndReport`) uses this test as written; `ReportScore` is the corrected report.
- The restart path's `transition('idle')` is refused, since `reset` has already set idle.
- `getObstacleParams` is never used by the engine.
- The level cap of 15 never binds, since there are exactly 15 thresholds.

## Findings

| source | as written | input that shows it | evidently intended | confidence | as-written member | corrected member |
|---|---|---|---|---|---|---|
| lib/game/engine/GameEngine.ts:104-138 | When the idle loop fires during play, it neither re-requests itself nor clears `idleLoopId`. Run ends then call `startIdleLoop`, which sees the stale handle and requests nothing, so the death modal or game-over screen has no loop reading its keys. | A continue is confirmed by key in the death modal: the idle loop handles the keys and then requests itself again, so it stays pending through the countdown. Or the host's click handler calls `start()` on the start screen (components/game/GameCanvas.tsx:32-36), which does not stop the idle loop. Either way the idle loop then fires in `playing`, and the next collision calls `gameOver`. | The fired idle loop forgets its handle, so that exactly the recorded idle loop is pending and `startIdleLoop` requests a new one at the next death. | not executed | Engine.IdleHandleGoesStaleAsWritten | Engine.IdleHandleStaysLive |
| lib/game/engine/GameEngine.ts:331-336 | The milestone cue compares the score with the score minus 0.15, the base rate of one frame. | A frame at 95 that passes an obstacle reaches 105.15 without the cue. At the top level a frame earns 0.6, and a frame from 9099.9 to 9100.5 also misses the cue. | The cue plays whenever the frame's score crosses a multiple of 100, comparing against the score before the frame's points. | not executed | EngineRules.MilestoneAsWrittenMissesCrossings | Engine.GameEngine.ReportScore |
| lib/game/engine/GameEngine.ts:115-120 | In the death modal the idle loop handles the keys, then requests itself again and records the new handle. A restart confirmed by key has already called `startIdleLoop`, which requested and recorded an idle loop, so two idle loops are pending and only the second is recorded. Each re-records its handle every frame, so they co-exist until the next start. A start by key runs in the earlier loop, whose `stopIdleLoop` cancels the recorded one. A start by the host's click calls no `stopIdleLoop`, so both lapse in play and leave the recorded handle stale, as in the first finding. After a continue, an idle loop stays pending through the countdown. | In the death modal with no life left, the idle loop is the only pending callback and fires with a jump pressed. | One idle loop at a time: the idle loop is requested before the keys are handled, so the restart's `stopIdleLoop` cancels it and `startIdleLoop` requests the only one. | not executed | Engine.ModalRestartLeavesTwoIdleLoopsAsWritten | Engine.ModalRestartLeavesOneIdleLoop |
