/** The wizard the player controls (lib/game/entities/Player.ts): a pose
    machine with guarded jump/duck/stand-up, a three-regime gravity step with
    a terminal-velocity clamp and a ground snap, and a four-frame animation
    counter. Rendering is left out. */
module Players {
  import opened GameConfig
  import opened Vectors
  import opened Geometry
  import opened Entities

  datatype Pose = Running | Jumping | Ducking | Dead

  function Abs(r: real): real { if r < 0.0 then -r else r }

  /** The gravity of one airborne frame, chosen by the vertical velocity
      before the frame: floaty in the apex band, strong when falling, the base
      value when rising. */
  function GravityFor(vy: real): (g: real)
    ensures g == JUMP_APEX_GRAVITY <==> -JUMP_APEX_THRESHOLD < vy < JUMP_APEX_THRESHOLD
    ensures g == GRAVITY_FALLING <==> vy >= JUMP_APEX_THRESHOLD
    ensures g == GRAVITY <==> vy <= -JUMP_APEX_THRESHOLD
  {
    if Abs(vy) < JUMP_APEX_THRESHOLD then JUMP_APEX_GRAVITY
    else if vy > 0.0 then GRAVITY_FALLING
    else GRAVITY
  }

  /** Vertical velocity after one airborne frame. It never exceeds the
      terminal velocity and, below it, always grows (gravity pulls down). */
  function FallStep(vy: real): (v: real)
    ensures v <= TERMINAL_VELOCITY
    ensures vy < TERMINAL_VELOCITY ==> vy < v
    ensures vy + GravityFor(vy) <= TERMINAL_VELOCITY ==> v == vy + GravityFor(vy)
    ensures TERMINAL_VELOCITY < vy + GravityFor(vy) ==> v == TERMINAL_VELOCITY
  {
    Min(vy + GravityFor(vy), TERMINAL_VELOCITY)
  }

  /** A rising velocity can only turn positive from inside the apex band:
      a step from at or below -2 stays negative. */
  lemma RisingNeverSkipsApexBand(vy: real)
    requires vy <= -JUMP_APEX_THRESHOLD
    ensures FallStep(vy) < 0.0
  {
  }

  /** The velocity after `n` airborne frames. */
  function VelocityAfter(vy: real, n: nat): real
    decreases n
  {
    if n == 0 then vy else VelocityAfter(FallStep(vy), n - 1)
  }

  /** While every frame starts at or below -2, each frame adds exactly the
      base gravity. */
  lemma {:induction false} RisingAddsBaseGravity(vy: real, n: nat)
    requires vy + GRAVITY * (n as real - 1.0) <= -JUMP_APEX_THRESHOLD
    ensures VelocityAfter(vy, n) == vy + GRAVITY * n as real
    decreases n
  {
    if n > 0 {
      assert FallStep(vy) == vy + GRAVITY;
      RisingAddsBaseGravity(vy + GRAVITY, n - 1);
    }
  }

  /** A jump rises under base gravity for 18 frames and then enters the
      apex band, before its velocity ever turns positive. */
  lemma JumpEntersApexBand()
    ensures forall k: nat :: k <= 18 ==> VelocityAfter(JUMP_VELOCITY, k) <= -JUMP_APEX_THRESHOLD
    ensures VelocityAfter(JUMP_VELOCITY, 19) == -1.6
    ensures Abs(VelocityAfter(JUMP_VELOCITY, 19)) < JUMP_APEX_THRESHOLD
  {
    forall k: nat | k <= 18
      ensures VelocityAfter(JUMP_VELOCITY, k) <= -JUMP_APEX_THRESHOLD
    {
      RisingAddsBaseGravity(JUMP_VELOCITY, k);
    }
    RisingAddsBaseGravity(JUMP_VELOCITY, 19);
  }

  /** What one frame may change about the player's body and animation. */
  datatype Kinematics = Kinematics(x: real, y: real, vx: real, vy: real, width: real, height: real,
                                   active: bool, grounded: bool, frame: int, timer: real)

  /** One frame of the body and the animation, from `k` to `k'`, with
      frames of `frameLength` milliseconds. A dead player's body is frozen.
      Otherwise an airborne velocity takes one gravity step, the position
      moves by the velocity and, on reaching or passing the ground, snaps
      onto it at rest; the timer advances by `dt` and, on reaching the frame
      length, restarts and advances the frame modulo 4. Nothing else moves. */
  predicate MotionStep(k: Kinematics, dead: bool, dt: real, frameLength: real, k': Kinematics)
  {
    && (dead ==> k' == k)
    && (!dead ==>
          var vy := if k.grounded then k.vy else FallStep(k.vy);
          var y := k.y + vy;
          var floor := GROUND_Y - k'.height;
          (y >= floor ==> k'.y == floor && k'.vy == 0.0 && k'.grounded) &&
          (y < floor ==> k'.y == y && k'.vy == vy && k'.grounded == k.grounded))
    && (!dead ==>
          if k.timer + dt >= frameLength
          then k'.timer == 0.0 && k'.frame == (k.frame + 1) % 4
          else k'.timer == k.timer + dt && k'.frame == k.frame)
    && k'.x == k.x && k'.vx == k.vx && k'.width == k.width && k'.height == k.height && k'.active == k.active
  }

  class Player {
    const body: Entity
    var state: Pose
    var isGrounded: bool
    var animationFrame: int
    var animationTimer: real
    const animationSpeed: real := 100.0   // milliseconds per animation frame

    function Repr(): set<object> {
      {this} + body.Repr()
    }

    /** What every operation keeps: a fixed x and width; a height that is the
        standing or the ducking one (the latter whenever ducking); feet never
        below the ground and exactly on it, at rest, when grounded; running
        and ducking only on the ground, jumping only in the air; velocity at
        most terminal; animation counters in range. */
    ghost predicate Valid()
      reads this, body, body.position, body.velocity
    {
      && body.Valid()
      && body.position.x == PLAYER_X
      && body.width == PLAYER_WIDTH
      && (body.height == PLAYER_HEIGHT || body.height == PLAYER_DUCK_HEIGHT)
      && (state == Ducking ==> body.height == PLAYER_DUCK_HEIGHT)
      && body.position.y <= GROUND_Y - body.height
      && (isGrounded ==> body.position.y == GROUND_Y - body.height && body.velocity.y == 0.0)
      && (state == Jumping ==> !isGrounded)
      && (state == Running || state == Ducking ==> isGrounded)
      && body.velocity.y <= TERMINAL_VELOCITY
      && 0 <= animationFrame < 4
      && animationTimer < animationSpeed
    }

    /** The standing height goes with every pose but ducking. The dead pose
        keeps whatever height it had. */
    ghost predicate Upright()
      reads this, body
    {
      state == Running || state == Jumping ==> body.height == PLAYER_HEIGHT
    }

    /** The spawn state that the constructor and `reset` establish. */
    ghost predicate AtSpawn()
      reads this, body, body.position, body.velocity
    {
      && body.position.x == PLAYER_X && body.position.y == GROUND_Y - PLAYER_HEIGHT
      && body.velocity.x == 0.0 && body.velocity.y == 0.0
      && body.width == PLAYER_WIDTH && body.height == PLAYER_HEIGHT
      && state == Running && isGrounded
      && animationFrame == 0 && animationTimer == 0.0
    }

    constructor ()
      ensures Valid() && Upright() && AtSpawn()
      ensures fresh(body) && fresh(body.position) && fresh(body.velocity)
      ensures body.active
    {
      body := new Entity(PLAYER_X, GROUND_Y - PLAYER_HEIGHT, PLAYER_WIDTH, PLAYER_HEIGHT);
      state := Running;
      isGrounded := true;
      animationFrame := 0;
      animationTimer := 0.0;
    }

    function CurrentState(): Pose
      reads this
    {
      state
    }

    function X(): real
      reads body.position
    {
      body.position.x
    }

    /** Launches only from the ground and not while ducking; otherwise
        nothing changes. */
    method Jump()
      requires Valid()
      modifies this, body.velocity
      ensures Valid()
      ensures old(isGrounded && state != Ducking) ==>
                body.velocity.y == JUMP_VELOCITY && !isGrounded && state == Jumping
      ensures !old(isGrounded && state != Ducking) ==>
                state == old(state) && isGrounded == old(isGrounded) && body.velocity.y == old(body.velocity.y)
      ensures old(state) != Dead && old(Upright()) ==> Upright()
      ensures animationFrame == old(animationFrame) && animationTimer == old(animationTimer)
      ensures body.velocity.x == old(body.velocity.x)
    {
      if isGrounded && state != Ducking {
        body.velocity.y := JUMP_VELOCITY;
        isGrounded := false;
        state := Jumping;
      }
    }

    /** Ducks only on the ground and not mid-jump: the box shrinks to the
        ducking height with the feet kept on the ground. */
    method Duck()
      requires Valid()
      modifies this, body, body.position
      ensures Valid() && (old(Upright()) ==> Upright())
      ensures old(isGrounded && state != Jumping) ==>
                state == Ducking && body.height == PLAYER_DUCK_HEIGHT &&
                body.position.y + body.height == GROUND_Y
      ensures !old(isGrounded && state != Jumping) ==>
                state == old(state) && body.height == old(body.height) && body.position.y == old(body.position.y)
      ensures isGrounded == old(isGrounded) && body.width == old(body.width) && body.active == old(body.active)
      ensures body.position.x == old(body.position.x)
      ensures animationFrame == old(animationFrame) && animationTimer == old(animationTimer)
    {
      if isGrounded && state != Jumping {
        state := Ducking;
        body.height := PLAYER_DUCK_HEIGHT;
        body.position.y := GROUND_Y - PLAYER_DUCK_HEIGHT;
      }
    }

    /** Acts only from the ducking pose: back to running at full height. */
    method StandUp()
      requires Valid()
      modifies this, body, body.position
      ensures Valid() && (old(Upright()) ==> Upright())
      ensures old(state) == Ducking ==>
                state == Running && body.height == PLAYER_HEIGHT &&
                body.position.y == GROUND_Y - PLAYER_HEIGHT
      ensures old(state) != Ducking ==>
                state == old(state) && body.height == old(body.height) && body.position.y == old(body.position.y)
      ensures isGrounded == old(isGrounded) && body.width == old(body.width) && body.active == old(body.active)
      ensures body.position.x == old(body.position.x)
      ensures animationFrame == old(animationFrame) && animationTimer == old(animationTimer)
    {
      if state == Ducking {
        state := Running;
        body.height := PLAYER_HEIGHT;
        body.position.y := GROUND_Y - PLAYER_HEIGHT;
      }
    }

    method Die()
      requires Valid()
      modifies this`state
      ensures Valid() && state == Dead
      ensures isGrounded == old(isGrounded)
      ensures animationFrame == old(animationFrame) && animationTimer == old(animationTimer)
    {
      state := Dead;
    }

    /** The body and the animation counters as values. */
    ghost function Motion(): Kinematics
      reads this`isGrounded, this`animationFrame, this`animationTimer, body, body.position, body.velocity
    {
      Kinematics(body.position.x, body.position.y, body.velocity.x, body.velocity.y,
                 body.width, body.height, body.active, isGrounded, animationFrame, animationTimer)
    }

    /** The body's part of one frame (see `Update`): everything but the
        pose. */
    twostate predicate Moved(dt: real)
      reads this`isGrounded, this`animationFrame, this`animationTimer, body, body.position, body.velocity
    {
      MotionStep(old(Motion()), old(state) == Dead, dt, animationSpeed, Motion())
    }

    /** The effect of one frame (see `Update`): the body moves, and a jump
        that reaches the ground becomes a run. */
    twostate predicate Stepped(dt: real)
      reads this, body, body.position, body.velocity
    {
      Moved(dt) && state == (if old(state) == Jumping && isGrounded then Running else old(state))
    }

    /** One frame of physics and animation. A dead player is frozen. Airborne,
        the velocity takes one gravity step; the position then moves by the
        velocity and, on reaching or passing the ground, snaps onto it at
        rest (a jump becomes a run). The animation timer advances by `dt`
        and, once it reaches the frame length, restarts and advances the
        frame modulo 4. */
    method Update(dt: real)
      requires Valid()
      modifies this, body.position, body.velocity
      ensures Valid() && (old(Upright()) ==> Upright())
      ensures Stepped(dt)
    {
      if state == Dead {
        return;
      }

      if !isGrounded {
        var gravity: real;
        if Abs(body.velocity.y) < JUMP_APEX_THRESHOLD {
          gravity := JUMP_APEX_GRAVITY;
        } else if body.velocity.y > 0.0 {
          gravity := GRAVITY_FALLING;
        } else {
          gravity := GRAVITY;
        }
        body.velocity.y := body.velocity.y + gravity;
        body.velocity.y := Min(body.velocity.y, TERMINAL_VELOCITY);
      }

      body.position.y := body.position.y + body.velocity.y;

      var groundY := GROUND_Y - body.height;
      if body.position.y >= groundY {
        body.position.y := groundY;
        body.velocity.y := 0.0;
        isGrounded := true;
        if state == Jumping {
          state := Running;
        }
      }

      animationTimer := animationTimer + dt;
      if animationTimer >= animationSpeed {
        animationTimer := 0.0;
        animationFrame := (animationFrame + 1) % 4;
      }
    }

    /** Back to the spawn state, at the start of every run and every
        continue. */
    method Reset()
      requires Valid()
      modifies this, body, body.position, body.velocity
      ensures Valid() && Upright() && AtSpawn()
      ensures body.active == old(body.active)
    {
      var p := body.position.Set(PLAYER_X, GROUND_Y - PLAYER_HEIGHT);
      var v := body.velocity.Set(0.0, 0.0);
      body.width := PLAYER_WIDTH;
      body.height := PLAYER_HEIGHT;
      state := Running;
      isGrounded := true;
      animationFrame := 0;
      animationTimer := 0.0;
    }

    /** The collision box: the body's box inset by 4. It lies inside the
        body's box and never reaches below the ground. */
    function GetHitbox(): (r: Rect)
      requires Valid()
      reads this, body, body.position, body.velocity
      ensures Contains(body.GetHitbox(), r)
      ensures r.y + r.height <= GROUND_Y
      ensures r.width == PLAYER_WIDTH - 8.0
    {
      Shrink(body.GetHitbox(), 4.0)
    }
  }
}
