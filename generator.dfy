/** Obstacle spawning and bookkeeping
    (lib/game/generators/ObstacleGenerator.ts): it moves every live
    obstacle, drops the ones that left the screen, counts down the distance
    to the next spawn, spawns at the right edge once the start-up delay is
    over, and awards the pass bonus. Every obstacle it holds owns its own
    body and vectors, so moving one never moves another. */
module Generators {
  import opened GameConfig
  import opened Wrappers
  import opened Geometry
  import opened Entities
  import opened Obstacles

  /** Where new obstacles appear: 50 beyond the right edge. */
  const SPAWN_X: real := GAME_WIDTH + 50.0
  /** Points for every obstacle the player gets past. */
  const PASS_BONUS: int := 10

  /** The random draws one spawn consumes, in the order the source draws
      them: kind, variant, width, height, then the gap to the next spawn. */
  datatype SpawnDraws = SpawnDraws(typeDraw: real, variantDraw: real, widthDraw: real,
                                   heightDraw: real, gapDraw: real)

  predicate Distinct(s: seq<Obstacle>) {
    forall i, j :: 0 <= i < j < |s| ==> s[i] != s[j]
  }

  /** The gap scale at a level: 3% narrower per level, never below 70%. */
  function GapFactor(level: int): (f: real)
    ensures 0.7 <= f
    ensures 0 <= level ==> f <= 1.0
    ensures level >= 10 ==> f == 0.7
    ensures level <= 10 ==> f == 1.0 - 0.03 * level as real
  {
    Max(0.7, 1.0 - level as real * 0.03)
  }

  /** The distance to the next spawn: a draw between the scaled gaps. */
  function NextGap(minGap: real, maxGap: real, level: int, draw: real): real {
    var f := GapFactor(level);
    minGap * f + draw * (maxGap * f - minGap * f)
  }

  /** For any draw, the next gap lies in the gap range scaled by the
      level's factor, strictly below its top when the range is not a single
      point, and it is positive whenever the minimum gap is. */
  lemma NextGapWithinScaledRange(minGap: real, maxGap: real, level: int, draw: real)
    requires IsDraw(draw) && minGap <= maxGap
    ensures minGap * GapFactor(level) <= NextGap(minGap, maxGap, level, draw) <= maxGap * GapFactor(level)
    ensures minGap < maxGap ==> NextGap(minGap, maxGap, level, draw) < maxGap * GapFactor(level)
    ensures 0.0 < minGap ==> 0.0 < NextGap(minGap, maxGap, level, draw)
  {
    var f := GapFactor(level);
    ScaleMonotone(minGap, maxGap, f);
    Interpolate(minGap * f, maxGap * f, draw);
    if 0.0 < minGap {
      ScaleMonotone(0.0, minGap, f);
    }
  }

  lemma ScaleMonotone(a: real, b: real, f: real)
    requires a <= b && 0.0 < f
    ensures a * f <= b * f
    ensures a < b ==> a * f < b * f
  {
    assert b * f - a * f == (b - a) * f;
  }

  /** A point a fraction `t` of the way from `lo` to `hi` lies between
      them, and short of `hi` unless the two coincide. */
  lemma Interpolate(lo: real, hi: real, t: real)
    requires lo <= hi && 0.0 <= t < 1.0
    ensures lo <= lo + t * (hi - lo) <= hi
    ensures lo < hi ==> lo + t * (hi - lo) < hi
  {
    var span := hi - lo;
    var rest := 1.0 - t;
    ProductSign(t, span);
    ProductSign(rest, span);
    assert t * span + rest * span == span;
    if lo < hi {
      assert 0.0 < rest * span;
    }
  }

  lemma ProductSign(a: real, b: real)
    requires 0.0 <= a && 0.0 <= b
    ensures 0.0 <= a * b
    ensures 0.0 < a && 0.0 < b ==> 0.0 < a * b
  {
  }

  /** With the default gap range, spawns are between 245 and 700 apart,
      and from level 10 on between 245 and 490. */
  lemma DefaultGapBounds(level: int, draw: real)
    requires 0 <= level && IsDraw(draw)
    ensures 245.0 <= NextGap(MIN_OBSTACLE_GAP, MAX_OBSTACLE_GAP, level, draw) < 700.0
    ensures level >= 10 ==> NextGap(MIN_OBSTACLE_GAP, MAX_OBSTACLE_GAP, level, draw) < 490.0
  {
    var f := GapFactor(level);
    NextGapWithinScaledRange(MIN_OBSTACLE_GAP, MAX_OBSTACLE_GAP, level, draw);
    assert MIN_OBSTACLE_GAP * f >= 245.0;
    assert MAX_OBSTACLE_GAP * f <= 700.0;
  }

  /** The obstacles still on screen, in order. */
  function Survivors(s: seq<Obstacle>): (r: seq<Obstacle>)
    reads set o | o in s :: o.body
    reads set o | o in s :: o.body.position
    ensures forall o :: o in r ==> o in s && !o.IsOffScreen()
    ensures forall o :: o in s && !o.IsOffScreen() ==> o in r
    ensures Distinct(s) ==> Distinct(r)
    ensures |r| <= |s|
  {
    if |s| == 0 then []
    else
      var last := s[|s| - 1];
      var prefix := s[..|s| - 1];
      var kept := Survivors(prefix);
      assert last in s && forall o :: o in prefix ==> o in s;
      assert Distinct(s) ==> last !in prefix;
      if last.IsOffScreen() then kept else kept + [last]
  }

  /** Survivors depends only on the obstacles' bodies and positions. */
  twostate lemma SurvivorsFrame(s: seq<Obstacle>)
    requires forall o :: o in s ==> unchanged(o.body, o.body.position)
    ensures Survivors(s) == old(Survivors(s))
  {
  }

  /** The obstacles strictly to the right of `maxX`, in order. */
  function Beyond(s: seq<Obstacle>, maxX: real): (r: seq<Obstacle>)
    reads set o | o in s :: o.body.position
    ensures forall o :: o in r ==> o in s && o.X() > maxX
    ensures forall o :: o in s && o.X() > maxX ==> o in r
    ensures Distinct(s) ==> Distinct(r)
    ensures |r| <= |s|
  {
    if |s| == 0 then []
    else
      var last := s[|s| - 1];
      var prefix := s[..|s| - 1];
      var kept := Beyond(prefix, maxX);
      assert last in s && forall o :: o in prefix ==> o in s;
      assert Distinct(s) ==> last !in prefix;
      if last.X() > maxX then kept + [last] else kept
  }

  /** An obstacle the player has got past but not yet been paid for. */
  predicate Passed(o: Obstacle, playerX: real)
    reads o, o.body, o.body.position
  {
    !o.scored && o.X() + o.body.width < playerX
  }

  /** How many obstacles of `s` are passed and unpaid. */
  function PassedCount(s: seq<Obstacle>, playerX: real): (c: nat)
    reads set o | o in s :: o
    reads set o | o in s :: o.body
    reads set o | o in s :: o.body.position
    ensures c <= |s|
  {
    if |s| == 0 then 0
    else
      var prefix := s[..|s| - 1];
      var last := s[|s| - 1];
      assert last in s && forall o :: o in prefix ==> o in s;
      PassedCount(prefix, playerX) + (if Passed(last, playerX) then 1 else 0)
  }

  /** Nothing is owed exactly when no obstacle is passed and unpaid. */
  lemma {:induction false} PassedCountZero(s: seq<Obstacle>, playerX: real)
    ensures PassedCount(s, playerX) == 0 <==> forall o :: o in s ==> !Passed(o, playerX)
  {
    if |s| > 0 {
      var prefix := s[..|s| - 1];
      PassedCountZero(prefix, playerX);
      assert s == prefix + [s[|s| - 1]];
    }
  }

  /** The obstacles of `s` already paid for. */
  ghost function ScoredSet(s: seq<Obstacle>): set<Obstacle>
    reads (set o | o in s :: o)`scored
  {
    set o | o in s && o.scored
  }

  /** How many obstacles of `s` the player at `playerX` has got past,
      leaving out those in `paid`. */
  function PassedExcept(s: seq<Obstacle>, paid: set<Obstacle>, playerX: real): (c: nat)
    reads set o | o in s :: o.body
    reads set o | o in s :: o.body.position
    ensures c <= |s|
  {
    if |s| == 0 then 0
    else
      var o := s[|s| - 1];
      var prefix := s[..|s| - 1];
      assert o in s && forall q :: q in prefix ==> q in s;
      PassedExcept(prefix, paid, playerX) + (if o !in paid && o.X() + o.body.width < playerX then 1 else 0)
  }

  /** When exactly the obstacles in `paid` are scored, the obstacles owed
      are those passed outside `paid`. */
  lemma {:induction false} PassedCountExcept(s: seq<Obstacle>, paid: set<Obstacle>, playerX: real)
    requires forall o :: o in s ==> (o.scored <==> o in paid)
    ensures PassedCount(s, playerX) == PassedExcept(s, paid, playerX)
  {
    if |s| > 0 {
      var prefix := s[..|s| - 1];
      assert forall q :: q in prefix ==> q in s;
      PassedCountExcept(prefix, paid, playerX);
    }
  }

  /** Only which obstacles of `s` are in `paid` matters to the count. */
  lemma {:induction false} PassedExceptAgree(s: seq<Obstacle>, paid: set<Obstacle>, other: set<Obstacle>, playerX: real)
    requires forall o :: o in s ==> (o in paid <==> o in other)
    ensures PassedExcept(s, paid, playerX) == PassedExcept(s, other, playerX)
  {
    if |s| > 0 {
      var prefix := s[..|s| - 1];
      assert forall q :: q in prefix ==> q in s;
      PassedExceptAgree(prefix, paid, other, playerX);
    }
  }

  class ObstacleGenerator {
    var obstacles: seq<Obstacle>
    var lastObstacleX: real
    var distanceToNext: real
    var timeSinceStart: real
    var minGap: real
    var maxGap: real
    ghost var Repr: set<object>

    /** The generator owns its obstacles: no obstacle appears twice, and
        no two obstacles share a body or a vector. */
    ghost predicate Valid()
      reads this`Repr, this`obstacles
    {
      && this in Repr
      && Distinct(obstacles)
      && (forall o :: o in obstacles ==> o.Repr() <= Repr && o.Valid())
      && (forall o1, o2 :: o1 in obstacles && o2 in obstacles && o1 != o2 ==> o1.Repr() !! o2.Repr())
    }

    /** The state `reset` establishes. */
    ghost predicate Fresh()
      reads this
    {
      && obstacles == []
      && lastObstacleX == 0.0
      && distanceToNext == MIN_OBSTACLE_GAP
      && timeSinceStart == 0.0
      && minGap == MIN_OBSTACLE_GAP
      && maxGap == MAX_OBSTACLE_GAP
    }

    constructor ()
      ensures Valid() && Fresh()
      ensures Repr == {this}
    {
      obstacles := [];
      lastObstacleX := 0.0;
      distanceToNext := MIN_OBSTACLE_GAP;
      timeSinceStart := 0.0;
      minGap := MIN_OBSTACLE_GAP;
      maxGap := MAX_OBSTACLE_GAP;
      Repr := {this};
    }

    /** The moving part of one frame (see `Update`), from the obstacles
        `was`: everything but the obstacles' scored flags. */
    twostate predicate Moved(was: seq<Obstacle>, deltaTime: real, scrollSpeed: real, level: int, scaryChance: real,
                             draws: SpawnDraws)
      reads this, (set o | o in was :: o)`scrollSpeed, (set o | o in obstacles :: o)`scrollSpeed
      reads set o | o in was :: o.body, set o | o in obstacles :: o.body
      reads set o | o in was :: o.body.position, set o | o in obstacles :: o.body.position
    {
      && old(obstacles) == was
      && timeSinceStart == old(timeSinceStart) + deltaTime
      && minGap == old(minGap) && maxGap == old(maxGap)
      && (forall o :: o in was ==>
            o.scrollSpeed == scrollSpeed &&
            o.X() == old(o.X()) - scrollSpeed && o.body.position.y == old(o.body.position.y) &&
            o.body.width == old(o.body.width) && o.body.height == old(o.body.height) &&
            o.body.active == old(o.body.active))
      && var spawn := timeSinceStart >= INITIAL_OBSTACLE_DELAY && old(distanceToNext) - scrollSpeed <= 0.0;
         && (!spawn ==>
               obstacles == Survivors(was) &&
               distanceToNext == old(distanceToNext) - scrollSpeed &&
               lastObstacleX == old(lastObstacleX))
         && (spawn ==>
               |obstacles| > 0 && obstacles[..|obstacles| - 1] == Survivors(was) &&
               var last := obstacles[|obstacles| - 1];
               assert last in obstacles;
               Spawned(last, scrollSpeed, level, scaryChance, draws) && fresh(last) &&
               distanceToNext == NextGap(minGap, maxGap, level, draws.gapDraw) &&
               lastObstacleX == SPAWN_X)
    }

    /** The effect of one frame (see `Update`), from the obstacles `was`:
        the move, with every scored flag kept and the spawned obstacle
        unscored. */
    twostate predicate Stepped(was: seq<Obstacle>, deltaTime: real, scrollSpeed: real, level: int, scaryChance: real,
                               draws: SpawnDraws)
      reads this, set o | o in was :: o, set o | o in obstacles :: o
      reads set o | o in was :: o.body, set o | o in obstacles :: o.body
      reads set o | o in was :: o.body.position, set o | o in obstacles :: o.body.position
    {
      && Moved(was, deltaTime, scrollSpeed, level, scaryChance, draws)
      && (forall o :: o in obstacles ==> o.scored == (o in was && old(o.scored)))
    }

    /** The scored flags after a frame's pass check at `playerX`, from the
        obstacles `was` at the start of the frame: an obstacle is paid for
        when it was paid for before the frame or is now behind the player. */
    twostate predicate PaidAfter(was: seq<Obstacle>, playerX: real)
      reads this, set o | o in obstacles :: o
      reads set o | o in obstacles :: o.body, set o | o in obstacles :: o.body.position
    {
      forall o :: o in obstacles ==> o.scored == ((o in was && old(o.scored)) || o.X() + o.body.width < playerX)
    }

    /** One frame. Every obstacle takes the frame's scroll speed and moves
        left by it; the ones now off screen are dropped; the distance to the
        next spawn shrinks by the scroll speed; and once the start-up delay
        has passed and that distance is used up, one obstacle spawns. */
    method Update(deltaTime: real, scrollSpeed: real, level: int, scaryChance: real, draws: SpawnDraws)
      requires Valid()
      modifies Repr
      ensures Valid() && fresh(Repr - old(Repr))
      ensures Stepped(old(obstacles), deltaTime, scrollSpeed, level, scaryChance, draws)
    {
      Advance(deltaTime, scrollSpeed);

      if timeSinceStart < INITIAL_OBSTACLE_DELAY {
        return;
      }

      if distanceToNext <= 0.0 {
        label BeforeSpawn:
        SpawnObstacle(scrollSpeed, level, scaryChance, draws);
        SurvivorsFrame@BeforeSpawn(old(obstacles));
      }
    }

    /** The part of a frame before the spawn decision: the clock, the
        moves, the filter and the distance countdown. */
    method Advance(deltaTime: real, scrollSpeed: real)
      requires Valid()
      modifies this`timeSinceStart, this`obstacles, this`distanceToNext
      modifies set o | o in obstacles, set o | o in obstacles :: o.body.position
      ensures Valid() && Repr == old(Repr)
      ensures timeSinceStart == old(timeSinceStart) + deltaTime
      ensures distanceToNext == old(distanceToNext) - scrollSpeed
      ensures minGap == old(minGap) && maxGap == old(maxGap) && lastObstacleX == old(lastObstacleX)
      ensures forall o :: o in old(obstacles) ==>
                o.scrollSpeed == scrollSpeed && o.scored == old(o.scored) &&
                o.X() == old(o.X()) - scrollSpeed && o.body.position.y == old(o.body.position.y)
      ensures forall o :: o in old(obstacles) ==> unchanged(o.body)
      ensures obstacles == Survivors(old(obstacles))
    {
      timeSinceStart := timeSinceStart + deltaTime;
      distanceToNext := distanceToNext - scrollSpeed;
      MoveAll(deltaTime, scrollSpeed);
      assert obstacles == old(obstacles);
      DropOffScreen();
    }

    /** Keeps the obstacles still on screen. */
    method DropOffScreen()
      requires Valid()
      modifies this`obstacles
      ensures Valid()
      ensures obstacles == Survivors(old(obstacles))
    {
      obstacles := Survivors(obstacles);
    }

    /** Sets every obstacle's scroll speed and moves it by one frame. */
    method MoveAll(deltaTime: real, scrollSpeed: real)
      requires Valid()
      modifies set o | o in obstacles
      modifies set o | o in obstacles :: o.body.position
      ensures forall o :: o in obstacles ==>
                o.scrollSpeed == scrollSpeed && o.scored == old(o.scored) &&
                o.X() == old(o.X()) - scrollSpeed && o.body.position.y == old(o.body.position.y)
      ensures forall o :: o in obstacles ==> unchanged(o.body)
    {
      var i := 0;
      while i < |obstacles|
        invariant 0 <= i <= |obstacles|
        invariant forall k :: 0 <= k < i ==>
                    var o := obstacles[k];
                    o.scrollSpeed == scrollSpeed && o.scored == old(o.scored) &&
                    o.X() == old(o.X()) - scrollSpeed && o.body.position.y == old(o.body.position.y)
        invariant forall k :: i <= k < |obstacles| ==>
                    var o := obstacles[k];
                    o.scrollSpeed == old(o.scrollSpeed) && o.scored == old(o.scored) &&
                    o.X() == old(o.X()) && o.body.position.y == old(o.body.position.y)
        invariant forall k :: 0 <= k < |obstacles| ==> unchanged(obstacles[k].body)
      {
        var o := obstacles[i];
        forall k | 0 <= k < |obstacles| && k != i
          ensures obstacles[k] != o && o.body.position !in obstacles[k].Repr()
        {
          assert obstacles[k] in obstacles && o in obstacles;
        }
        o.SetScrollSpeed(scrollSpeed);
        o.Update(deltaTime);
        i := i + 1;
      }
    }

    /** What a spawn at `SPAWN_X` with these draws produces. */
    ghost predicate Spawned(o: Obstacle, scrollSpeed: real, level: int, scaryChance: real, draws: SpawnDraws)
      reads o`scrollSpeed, o.body, o.body.position
    {
      var p := ConfigForType(o.kind, None, None, draws.widthDraw, draws.heightDraw);
      && o.kind == ChooseType(level, draws.typeDraw)
      && o.variant == ChooseVariant(scaryChance, draws.variantDraw)
      && o.scrollSpeed == scrollSpeed && o.body.active
      && o.body.GetHitbox() == Rect(SPAWN_X, p.y, p.width, p.height)
    }

    /** Appends one random obstacle at the right edge and draws the gap to
        the next one. */
    method SpawnObstacle(scrollSpeed: real, level: int, scaryChance: real, draws: SpawnDraws)
      requires Valid()
      modifies this
      ensures Valid() && fresh(Repr - old(Repr))
      ensures |obstacles| == |old(obstacles)| + 1 && obstacles[..|old(obstacles)|] == old(obstacles)
      ensures fresh(obstacles[|obstacles| - 1]) && !obstacles[|obstacles| - 1].scored
      ensures Spawned(obstacles[|obstacles| - 1], scrollSpeed, level, scaryChance, draws)
      ensures lastObstacleX == SPAWN_X
      ensures distanceToNext == NextGap(minGap, maxGap, level, draws.gapDraw)
      ensures timeSinceStart == old(timeSinceStart) && minGap == old(minGap) && maxGap == old(maxGap)
    {
      var obstacle := CreateRandomObstacle(SPAWN_X, scrollSpeed, level, scaryChance,
                                           draws.typeDraw, draws.variantDraw, draws.widthDraw, draws.heightDraw);
      obstacles := obstacles + [obstacle];
      Repr := Repr + obstacle.Repr();
      lastObstacleX := SPAWN_X;

      var difficultyFactor := 1.0 - level as real * 0.03;
      var adjustedMinGap := minGap * Max(0.7, difficultyFactor);
      var adjustedMaxGap := maxGap * Max(0.7, difficultyFactor);
      distanceToNext := adjustedMinGap + draws.gapDraw * (adjustedMaxGap - adjustedMinGap);
      assert Max(0.7, difficultyFactor) == GapFactor(level);
      assert distanceToNext == minGap * GapFactor(level) + draws.gapDraw * (maxGap * GapFactor(level) - minGap * GapFactor(level));
    }

    function GetObstacles(): seq<Obstacle>
      reads this
    {
      obstacles
    }

    method SetGapRange(min: real, max: real)
      modifies this
      ensures minGap == min && maxGap == max
      ensures obstacles == old(obstacles) && Repr == old(Repr)
      ensures distanceToNext == old(distanceToNext) && timeSinceStart == old(timeSinceStart)
      ensures lastObstacleX == old(lastObstacleX)
    {
      minGap := min;
      maxGap := max;
    }

    method Reset()
      modifies this
      ensures Valid() && Fresh()
      ensures Repr == {this}
    {
      obstacles := [];
      lastObstacleX := 0.0;
      distanceToNext := MIN_OBSTACLE_GAP;
      timeSinceStart := 0.0;
      minGap := MIN_OBSTACLE_GAP;
      maxGap := MAX_OBSTACLE_GAP;
      Repr := {this};
    }

    /** Marks every passed, unpaid obstacle as paid and returns the bonus:
        10 per such obstacle. Afterwards no obstacle is passed and unpaid. */
    method CheckPassedObstacles(playerX: real) returns (pointsEarned: int)
      requires Valid()
      modifies (set o | o in obstacles)`scored
      ensures pointsEarned == PASS_BONUS * old(PassedCount(obstacles, playerX))
      ensures PassedCount(obstacles, playerX) == 0
      ensures forall o :: o in obstacles ==>
                o.scored == (old(o.scored) || o.X() + o.body.width < playerX) &&
                o.scrollSpeed == old(o.scrollSpeed)
      ensures pointsEarned == PASS_BONUS * PassedExcept(obstacles, old(ScoredSet(obstacles)), playerX)
    {
      PassedCountExcept(obstacles, ScoredSet(obstacles), playerX);
      pointsEarned := PayPassed(playerX);
      assert forall o :: o in obstacles ==> !Passed(o, playerX);
      PassedCountZero(obstacles, playerX);
    }

    /** The loop of `checkPassedObstacles`. */
    method PayPassed(playerX: real) returns (pointsEarned: int)
      requires Valid()
      modifies (set o | o in obstacles)`scored
      ensures pointsEarned == PASS_BONUS * old(PassedCount(obstacles, playerX))
      ensures forall o :: o in obstacles ==>
                o.scored == (old(o.scored) || o.X() + o.body.width < playerX) &&
                o.scrollSpeed == old(o.scrollSpeed)
    {
      pointsEarned := 0;
      var i := 0;
      while i < |obstacles|
        invariant 0 <= i <= |obstacles|
        invariant pointsEarned == PASS_BONUS * old(PassedCount(obstacles[..i], playerX))
        invariant forall k :: 0 <= k < i ==>
                    obstacles[k].scored == (old(obstacles[k].scored) || obstacles[k].X() + obstacles[k].body.width < playerX)
        invariant forall k :: i <= k < |obstacles| ==> obstacles[k].scored == old(obstacles[k].scored)
        invariant forall o :: o in obstacles ==> o.scrollSpeed == old(o.scrollSpeed)
      {
        var obstacle := obstacles[i];
        assert obstacles[..i + 1][..i] == obstacles[..i];
        assert old(PassedCount(obstacles[..i + 1], playerX)) ==
               old(PassedCount(obstacles[..i], playerX)) + (if old(Passed(obstacle, playerX)) then 1 else 0);
        var earned := PayIfPassed(obstacle, playerX);
        pointsEarned := pointsEarned + earned;
        i := i + 1;
      }
      assert obstacles[..i] == obstacles;
      forall o | o in obstacles
        ensures o.scored == (old(o.scored) || o.X() + o.body.width < playerX)
      {
        var k :| 0 <= k < |obstacles| && obstacles[k] == o;
      }
    }

    /** One step of `checkPassedObstacles`: an obstacle passed and unpaid
        is marked as paid and earns the bonus. */
    static method PayIfPassed(obstacle: Obstacle, playerX: real) returns (earned: int)
      modifies obstacle`scored
      ensures earned == if old(Passed(obstacle, playerX)) then PASS_BONUS else 0
      ensures obstacle.scored == (old(obstacle.scored) || obstacle.X() + obstacle.body.width < playerX)
      ensures obstacle.scrollSpeed == old(obstacle.scrollSpeed)
    {
      earned := 0;
      if !obstacle.IsScored() && obstacle.X() + obstacle.body.GetHitbox().width < playerX {
        obstacle.MarkScored();
        earned := PASS_BONUS;
      }
    }

    /** Drops every obstacle at or left of `maxX` and pushes the next spawn
        at least the minimum gap away. */
    method ClearNearby(maxX: real)
      requires Valid()
      modifies this
      ensures Valid() && Repr == old(Repr)
      ensures obstacles == old(Beyond(obstacles, maxX))
      ensures forall o :: o in obstacles ==> o.X() > maxX
      ensures distanceToNext == Max(old(distanceToNext), minGap)
      ensures minGap <= distanceToNext && old(distanceToNext) <= distanceToNext
      ensures minGap == old(minGap) && maxGap == old(maxGap)
      ensures timeSinceStart == old(timeSinceStart) && lastObstacleX == old(lastObstacleX)
    {
      obstacles := Beyond(obstacles, maxX);
      distanceToNext := Max(distanceToNext, minGap);
    }
  }

  /** Survivors keeps the order of the line: the survivors of two stretches
      laid end to end are those of the first followed by those of the
      second. */
  lemma {:induction false} SurvivorsKeepOrder(a: seq<Obstacle>, b: seq<Obstacle>)
    ensures Survivors(a + b) == Survivors(a) + Survivors(b)
  {
    if |b| == 0 {
      assert a + b == a;
    } else {
      var front := b[..|b| - 1];
      assert (a + b)[..|a + b| - 1] == a + front;
      assert (a + b)[|a + b| - 1] == b[|b| - 1];
      SurvivorsKeepOrder(a, front);
    }
  }

  /** Beyond keeps the order of the line, in the same sense as
      `SurvivorsKeepOrder`. */
  lemma {:induction false} BeyondKeepsOrder(a: seq<Obstacle>, b: seq<Obstacle>, maxX: real)
    ensures Beyond(a + b, maxX) == Beyond(a, maxX) + Beyond(b, maxX)
  {
    if |b| == 0 {
      assert a + b == a;
    } else {
      var front := b[..|b| - 1];
      assert (a + b)[..|a + b| - 1] == a + front;
      assert (a + b)[|a + b| - 1] == b[|b| - 1];
      BeyondKeepsOrder(a, front, maxX);
    }
  }
}
