/** Difficulty scaling (lib/game/generators/DifficultyManager.ts): the level
    is the number of leading score thresholds the score has reached, capped
    at the maximum level; the scroll speed eases in quadratically with the
    level; time of day and the scary factor follow the level's progress. */
module Difficulty {
  import opened GameConfig
  import opened Geometry

  datatype TimeOfDay = Day | Sunset | Dusk | Night

  /** The settings `getObstacleParams` reports for a level. */
  datatype ObstacleParams = ObstacleParams(minGap: real, maxGap: real, airChance: real,
                                           tallChance: real, scaryChance: real)

  /** The number of leading thresholds the score has reached: the scan
      stops at the first threshold above the score. */
  function LeadingCount(t: seq<int>, score: real): (n: nat)
    ensures n <= |t|
    ensures forall i :: 0 <= i < n ==> t[i] as real <= score
    ensures n < |t| ==> score < t[n] as real
  {
    if |t| == 0 || score < t[0] as real then 0
    else 1 + LeadingCount(t[1..], score)
  }

  /** The contract of LeadingCount pins it down: any `n` with the same two
      properties is the count. */
  lemma {:induction false} LeadingCountUnique(t: seq<int>, score: real, n: nat)
    requires n <= |t|
    requires forall i :: 0 <= i < n ==> t[i] as real <= score
    requires n < |t| ==> score < t[n] as real
    ensures LeadingCount(t, score) == n
  {
    if n > 0 {
      assert t[0] as real <= score;
      assert forall i :: 0 <= i < n - 1 ==> t[1..][i] == t[i + 1];
      LeadingCountUnique(t[1..], score, n - 1);
    }
  }

  /** How many thresholds the score has reached, wherever they sit. */
  function CountReached(t: seq<int>, score: real): (n: nat)
    ensures n <= |t|
  {
    if |t| == 0 then 0
    else (if t[0] as real <= score then 1 else 0) + CountReached(t[1..], score)
  }

  /** On an increasing table, stopping at the first threshold above the
      score loses nothing: it counts every threshold reached. */
  lemma {:induction false} LeadingCountCountsAllReached(t: seq<int>, score: real)
    requires StrictlyIncreasing(t)
    ensures LeadingCount(t, score) == CountReached(t, score)
  {
    if |t| > 0 {
      assert StrictlyIncreasing(t[1..]);
      LeadingCountCountsAllReached(t[1..], score);
      if score < t[0] as real {
        NoneReached(t[1..], score);
      }
    }
  }

  lemma {:induction false} NoneReached(t: seq<int>, score: real)
    requires forall i :: 0 <= i < |t| ==> score < t[i] as real
    ensures CountReached(t, score) == 0
  {
    if |t| > 0 {
      NoneReached(t[1..], score);
    }
  }

  /** The level for a score. */
  function LevelFor(score: real): (level: int)
    ensures 0 <= level <= MAX_LEVEL
    ensures level == LeadingCount(SCORE_THRESHOLDS, score)
  {
    var n := LeadingCount(SCORE_THRESHOLDS, score);
    if n < MAX_LEVEL then n else MAX_LEVEL
  }

  /** The level is `k` exactly when the score lies in the k-th band: at or
      above the k-th threshold and below the next one. */
  lemma LevelBand(score: real, k: int)
    requires 0 <= k <= MAX_LEVEL
    ensures LevelFor(score) == k <==>
              (k == 0 || SCORE_THRESHOLDS[k - 1] as real <= score) &&
              (k == MAX_LEVEL || score < SCORE_THRESHOLDS[k] as real)
  {
    ThresholdsStrictlyIncreasing();
    var t := SCORE_THRESHOLDS;
    if (k == 0 || t[k - 1] as real <= score) && (k == MAX_LEVEL || score < t[k] as real) {
      assert forall i :: 0 <= i < k ==> t[i] as real <= score by {
        forall i | 0 <= i < k
          ensures t[i] as real <= score
        {
          assert t[i] <= t[k - 1];
        }
      }
      LeadingCountUnique(t, score, k);
    }
  }

  /** A higher score never gives a lower level. */
  lemma {:induction false} LeadingCountMonotone(t: seq<int>, low: real, high: real)
    requires low <= high
    ensures LeadingCount(t, low) <= LeadingCount(t, high)
  {
    if |t| > 0 && t[0] as real <= low {
      LeadingCountMonotone(t[1..], low, high);
    }
  }

  lemma LevelMonotone(low: real, high: real)
    requires low <= high
    ensures LevelFor(low) <= LevelFor(high)
  {
    LeadingCountMonotone(SCORE_THRESHOLDS, low, high);
  }

  lemma LevelExamples()
    ensures LevelFor(0.0) == 0 && LevelFor(49.9) == 0
    ensures LevelFor(50.0) == 1 && LevelFor(149.0) == 1 && LevelFor(150.0) == 2
    ensures LevelFor(8999.0) == 14 && LevelFor(9000.0) == 15 && LevelFor(100000.0) == 15
  {
    LevelBand(0.0, 0);
    LevelBand(49.9, 0);
    LevelBand(50.0, 1);
    LevelBand(149.0, 1);
    LevelBand(150.0, 2);
    LevelBand(8999.0, 14);
    LevelBand(9000.0, 15);
    LevelBand(100000.0, 15);
  }

  /** The fraction of the maximum level reached. */
  function ProgressOf(level: int): (p: real)
    ensures 0 <= level <= MAX_LEVEL ==> 0.0 <= p <= 1.0
  {
    level as real / MAX_LEVEL as real
  }

  /** The scroll speed at a level: the base speed plus the speed range
      scaled by the square of the progress. */
  function SpeedFor(level: int): real {
    var p := ProgressOf(level);
    BASE_SCROLL_SPEED + (MAX_SCROLL_SPEED - BASE_SCROLL_SPEED) * (p * p)
  }

  /** Within the level range the speed stays between the base and the
      maximum speed, hits both ends, and never decreases with the level. */
  lemma SpeedBounds(low: int, high: int)
    requires 0 <= low <= high <= MAX_LEVEL
    ensures BASE_SCROLL_SPEED <= SpeedFor(low) <= SpeedFor(high) <= MAX_SCROLL_SPEED
    ensures SpeedFor(0) == BASE_SCROLL_SPEED && SpeedFor(MAX_LEVEL) == MAX_SCROLL_SPEED
  {
    var p, q := ProgressOf(low), ProgressOf(high);
    SquareMonotone(p, q);
    SquareMonotone(q, 1.0);
  }

  lemma SquareMonotone(a: real, b: real)
    requires 0.0 <= a <= b
    ensures 0.0 <= a * a <= b * b
  {
    assert b * b - a * a == (b - a) * (b + a);
    assert 0.0 <= (b - a) * (b + a);
    assert 0.0 <= a * a;
  }

  function TimeOfDayAt(level: int): (t: TimeOfDay)
    ensures level <= 0 ==> t == Day
    ensures MAX_LEVEL <= level ==> t == Night
  {
    var p := ProgressOf(level);
    if p < DAY_END then Day
    else if p < SUNSET_END then Sunset
    else if p < DUSK_END then Dusk
    else Night
  }

  /** Which levels show which time of day: 0-4 day, 5-7 sunset, 8-10
      dusk, 11-15 night. */
  lemma TimeOfDayByLevel(level: int)
    requires 0 <= level <= MAX_LEVEL
    ensures TimeOfDayAt(level) == Day <==> level <= 4
    ensures TimeOfDayAt(level) == Sunset <==> 5 <= level <= 7
    ensures TimeOfDayAt(level) == Dusk <==> 8 <= level <= 10
    ensures TimeOfDayAt(level) == Night <==> 11 <= level
  {
  }

  /** How scary obstacles get: zero up to 40% progress, then rising
      linearly to one at the maximum level. */
  function ScaryFactorAt(level: int): (s: real)
    ensures 0.0 <= s
    ensures level <= MAX_LEVEL ==> s <= 1.0
    ensures level <= 6 ==> s == 0.0
    ensures level == MAX_LEVEL ==> s == 1.0
  {
    Max(0.0, (ProgressOf(level) - 0.4) / 0.6)
  }

  /** The scary factor never decreases as the level rises. */
  lemma ScaryFactorMonotone(low: int, high: int)
    requires low <= high
    ensures ScaryFactorAt(low) <= ScaryFactorAt(high)
  {
  }

  function ObstacleParamsAt(level: int): (r: ObstacleParams)
    ensures 0 <= level <= MAX_LEVEL ==>
              0.75 * MIN_OBSTACLE_GAP <= r.minGap <= MIN_OBSTACLE_GAP &&
              r.maxGap == 2.0 * r.minGap &&
              0.0 <= r.airChance <= 0.35 &&
              0.0 <= r.tallChance <= 0.15
    ensures r.scaryChance == ScaryFactorAt(level)
    ensures ProgressOf(level) <= 0.3 ==> r.tallChance == 0.0
    ensures level == MAX_LEVEL ==> r.tallChance == 0.15 && r.airChance == 0.35
  {
    var levelFactor := ProgressOf(level);
    ObstacleParams(MIN_OBSTACLE_GAP * (1.0 - levelFactor * 0.25),
                   MAX_OBSTACLE_GAP * (1.0 - levelFactor * 0.25),
                   Min(0.35, levelFactor * 0.35),
                   Min(0.15, Max(0.0, (levelFactor - 0.3) * 0.25)),
                   ScaryFactorAt(level))
  }

  class DifficultyManager {
    var currentLevel: int
    const maxLevel: int := MAX_LEVEL
    var scrollSpeed: real

    /** The level is in range and the speed is always the one its level
        calls for. */
    ghost predicate Valid()
      reads this
    {
      0 <= currentLevel <= maxLevel && scrollSpeed == SpeedFor(currentLevel)
    }

    constructor ()
      ensures Valid() && currentLevel == 0 && scrollSpeed == BASE_SCROLL_SPEED
    {
      currentLevel := 0;
      scrollSpeed := BASE_SCROLL_SPEED;
    }

    function Level(): int
      reads this
    {
      currentLevel
    }

    function Speed(): real
      reads this
    {
      scrollSpeed
    }

    function Progress(): real
      reads this
    {
      currentLevel as real / maxLevel as real
    }

    function CurrentTimeOfDay(): TimeOfDay
      reads this
    {
      TimeOfDayAt(currentLevel)
    }

    function ScaryFactor(): real
      reads this
    {
      ScaryFactorAt(currentLevel)
    }

    function GetObstacleParams(): ObstacleParams
      reads this
    {
      ObstacleParamsAt(currentLevel)
    }

    /** Recomputes the level from the score; the speed is recomputed only
        when the level changes. */
    method Update(score: real)
      requires Valid()
      modifies this`currentLevel, this`scrollSpeed
      ensures Valid()
      ensures currentLevel == LevelFor(score)
      ensures currentLevel == old(currentLevel) ==> scrollSpeed == old(scrollSpeed)
    {
      var newLevel := ThresholdsReached(score);
      newLevel := if newLevel < maxLevel then newLevel else maxLevel;

      if newLevel != currentLevel {
        currentLevel := newLevel;
        UpdateScrollSpeed();
      }
    }

    /** The scan of `update` over the thresholds, stopping at the first one
        above the score. */
    method ThresholdsReached(score: real) returns (newLevel: nat)
      ensures newLevel == LeadingCount(SCORE_THRESHOLDS, score)
    {
      var thresholds := SCORE_THRESHOLDS;
      newLevel := 0;

      var i := 0;
      while i < |thresholds|
        invariant 0 <= i <= |thresholds|
        invariant newLevel == i
        invariant forall k :: 0 <= k < i ==> thresholds[k] as real <= score
      {
        if score >= thresholds[i] as real {
          newLevel := i + 1;
        } else {
          break;
        }
        i := i + 1;
      }
      LeadingCountUnique(thresholds, score, newLevel);
    }

    method UpdateScrollSpeed()
      modifies this`scrollSpeed
      ensures scrollSpeed == SpeedFor(currentLevel)
      ensures currentLevel == old(currentLevel)
    {
      var progressFactor := Progress();
      var speedRange := MAX_SCROLL_SPEED - BASE_SCROLL_SPEED;
      var easeIn := progressFactor * progressFactor;
      scrollSpeed := BASE_SCROLL_SPEED + speedRange * easeIn;
    }

    method Reset()
      modifies this
      ensures Valid() && currentLevel == 0 && scrollSpeed == BASE_SCROLL_SPEED
    {
      currentLevel := 0;
      scrollSpeed := BASE_SCROLL_SPEED;
    }
  }
}
