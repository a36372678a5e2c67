/** Obstacles (lib/game/entities/Obstacle.ts): a kind and a variant fixed at
    construction, a box placed by kind, a scored flag and a scroll speed.
    Each `Math.random()` the source draws is a parameter here, a real in
    [0, 1) given in the order the source draws it. Colours and drawing are
    presentational and left out. */
module Obstacles {
  import opened GameConfig
  import opened Wrappers
  import opened Geometry
  import opened Entities

  datatype ObstacleType = Ground | Air | Tall
  datatype Variant = Friendly | Scary

  /** The vertical position and the size chosen for a kind. */
  datatype Placement = Placement(y: real, width: real, height: real)

  /** A value `Math.random()` can return. */
  predicate IsDraw(r: real) {
    0.0 <= r < 1.0
  }

  const AIR_OBSTACLE_WIDTH: real := 32.0
  const TALL_OBSTACLE_WIDTH: real := 32.0
  const TALL_OBSTACLE_HEIGHT: real := 64.0

  /** The placement of an obstacle of the given kind. A custom size wins;
      otherwise a ground obstacle draws its width and height, the other kinds
      have fixed sizes. A ground obstacle's top is placed from the custom
      height or, without one, from the minimum height: its drawn height then
      makes it reach below the ground line rather than raise its top. */
  function ConfigForType(kind: ObstacleType, customWidth: Option<real>, customHeight: Option<real>,
                         widthDraw: real, heightDraw: real): (p: Placement)
    ensures customWidth.Some? ==> p.width == customWidth.value
    ensures customHeight.Some? ==> p.height == customHeight.value
    ensures kind == Ground && customHeight.Some? ==> p.y + p.height == GROUND_Y
    ensures kind == Ground && customHeight.None? ==> p.y == GROUND_Y - OBSTACLE_MIN_HEIGHT
    ensures kind == Ground && customHeight.None? && IsDraw(heightDraw) ==>
              OBSTACLE_MIN_HEIGHT <= p.height < OBSTACLE_MAX_HEIGHT &&
              GROUND_Y <= p.y + p.height < GROUND_Y + (OBSTACLE_MAX_HEIGHT - OBSTACLE_MIN_HEIGHT)
    ensures kind == Ground && customWidth.None? && IsDraw(widthDraw) ==>
              OBSTACLE_MIN_WIDTH <= p.width < OBSTACLE_MAX_WIDTH
    ensures kind == Air ==> p.y == AIR_OBSTACLE_Y
    ensures kind == Air && customWidth.None? ==> p.width == AIR_OBSTACLE_WIDTH
    ensures kind == Air && customHeight.None? ==> p.height == AIR_OBSTACLE_HEIGHT
    ensures kind == Tall ==> p.y == GROUND_Y - TALL_OBSTACLE_HEIGHT
    ensures kind == Tall && customWidth.None? ==> p.width == TALL_OBSTACLE_WIDTH
    ensures kind == Tall && customHeight.None? ==> p.y + p.height == GROUND_Y
  {
    match kind
    case Ground =>
      Placement(GROUND_Y - customHeight.GetOr(OBSTACLE_MIN_HEIGHT),
                customWidth.GetOr(OBSTACLE_MIN_WIDTH + widthDraw * (OBSTACLE_MAX_WIDTH - OBSTACLE_MIN_WIDTH)),
                customHeight.GetOr(OBSTACLE_MIN_HEIGHT + heightDraw * (OBSTACLE_MAX_HEIGHT - OBSTACLE_MIN_HEIGHT)))
    case Air =>
      Placement(AIR_OBSTACLE_Y, customWidth.GetOr(AIR_OBSTACLE_WIDTH), customHeight.GetOr(AIR_OBSTACLE_HEIGHT))
    case Tall =>
      Placement(GROUND_Y - TALL_OBSTACLE_HEIGHT, customWidth.GetOr(TALL_OBSTACLE_WIDTH),
                customHeight.GetOr(TALL_OBSTACLE_HEIGHT))
  }

  /** A drawn ground obstacle rests on the ground only for the smallest
      height draw; any other draw sinks its bottom below the ground line. */
  lemma GroundObstacleSinksBelowGround(widthDraw: real, heightDraw: real)
    requires IsDraw(heightDraw)
    ensures var p := ConfigForType(Ground, None, None, widthDraw, heightDraw);
            (p.y + p.height == GROUND_Y <==> heightDraw == 0.0) &&
            (heightDraw == 0.5 ==> p.y == 128.0 && p.height == 40.0 && p.y + p.height == 168.0)
  {
  }

  class Obstacle {
    const body: Entity
    const kind: ObstacleType
    const variant: Variant
    var scored: bool
    var scrollSpeed: real

    function Repr(): set<object> {
      {this} + body.Repr()
    }

    predicate Valid() {
      body.Valid()
    }

    constructor (x: real, kind: ObstacleType, scrollSpeed: real, variant: Variant,
                 customWidth: Option<real>, customHeight: Option<real>,
                 widthDraw: real, heightDraw: real)
      ensures Valid()
      ensures fresh(body) && fresh(body.position) && fresh(body.velocity)
      ensures this.kind == kind && this.variant == variant && this.scrollSpeed == scrollSpeed
      ensures !scored && body.active
      ensures var p := ConfigForType(kind, customWidth, customHeight, widthDraw, heightDraw);
              body.GetHitbox() == Rect(x, p.y, p.width, p.height)
      ensures body.velocity.x == 0.0 && body.velocity.y == 0.0
    {
      var p := ConfigForType(kind, customWidth, customHeight, widthDraw, heightDraw);
      body := new Entity(x, p.y, p.width, p.height);
      this.kind := kind;
      this.variant := variant;
      this.scrollSpeed := scrollSpeed;
      scored := false;
    }

    function X(): real
      reads body.position
    {
      body.position.x
    }

    function IsScored(): bool
      reads this
    {
      scored
    }

    method MarkScored()
      modifies this`scored
      ensures IsScored()
      ensures scrollSpeed == old(scrollSpeed)
    {
      scored := true;
    }

    /** Gone once its right edge has passed the left edge of the screen. */
    predicate IsOffScreen()
      reads body, body.position
    {
      body.position.x + body.width < 0.0
    }

    /** Moves left by the scroll speed; the frame time plays no part. */
    method Update(deltaTime: real)
      modifies body.position
      ensures body.GetHitbox() == old(body.GetHitbox()).(x := old(body.position.x) - scrollSpeed)
    {
      body.position.x := body.position.x - scrollSpeed;
    }

    method SetScrollSpeed(speed: real)
      modifies this
      ensures scrollSpeed == speed
      ensures scored == old(scored)
    {
      scrollSpeed := speed;
    }
  }

  /** The probability of an air obstacle at a level: 3.5% per level, capped
      at 35% from level 10 on. */
  function AirChance(level: int): (c: real)
    ensures 0 <= level ==> 0.0 <= c <= 0.35
    ensures level <= 0 ==> c <= 0.0
    ensures level >= 10 ==> c == 0.35
    ensures 0 <= level <= 10 ==> c == 0.035 * level as real
  {
    Min(0.35, level as real * 0.035)
  }

  /** The random kind: air when the draw falls under the air chance, ground
      otherwise. Tall obstacles are never chosen. */
  function ChooseType(level: int, draw: real): (t: ObstacleType)
    ensures t != Tall
    ensures t == Air <==> draw < AirChance(level)
    ensures level <= 0 && IsDraw(draw) ==> t == Ground
  {
    if draw < AirChance(level) then Air else Ground
  }

  /** A draw that yields an air obstacle at one level yields one at every
      higher level. */
  lemma AirOnlyGrowsWithLevel(low: int, high: int, draw: real)
    requires low <= high
    requires ChooseType(low, draw) == Air
    ensures ChooseType(high, draw) == Air
  {
  }

  function ChooseVariant(scaryChance: real, draw: real): (v: Variant)
    ensures v == Scary <==> draw < scaryChance
    ensures scaryChance <= 0.0 && IsDraw(draw) ==> v == Friendly
    ensures 1.0 <= scaryChance && IsDraw(draw) ==> v == Scary
  {
    if draw < scaryChance then Scary else Friendly
  }

  /** The factory: draws the kind, then the variant, then (inside the
      constructor) the size. */
  method CreateRandomObstacle(x: real, scrollSpeed: real, level: int, scaryChance: real,
                              typeDraw: real, variantDraw: real, widthDraw: real, heightDraw: real)
    returns (o: Obstacle)
    ensures fresh(o) && fresh(o.body) && fresh(o.body.position) && fresh(o.body.velocity)
    ensures o.Valid()
    ensures o.kind == ChooseType(level, typeDraw) && o.kind != Tall
    ensures o.variant == ChooseVariant(scaryChance, variantDraw)
    ensures !o.scored && o.scrollSpeed == scrollSpeed && o.body.active
    ensures var p := ConfigForType(o.kind, None, None, widthDraw, heightDraw);
            o.body.GetHitbox() == Rect(x, p.y, p.width, p.height)
  {
    var airChance := Min(0.35, level as real * 0.035);
    var kind: ObstacleType;
    if typeDraw < airChance {
      kind := Air;
    } else {
      kind := Ground;
    }
    var variant := if variantDraw < scaryChance then Scary else Friendly;
    o := new Obstacle(x, kind, scrollSpeed, variant, None, None, widthDraw, heightDraw);
  }
}
