/** Keyboard and touch input (lib/game/systems/InputManager.ts): which key
    codes are held, which were pressed since the last frame cleared them,
    and a touch gesture translated into the same key codes (a tap is
    "Space", a downward swipe of more than 30 is "ArrowDown"). Registering
    the listeners with the document and the canvas is left out: each
    handler is a method the platform would call. */
module Input {

  const SPACE: string := "Space"
  const ARROW_UP: string := "ArrowUp"
  const ARROW_DOWN: string := "ArrowDown"
  /** How far a touch must move down to count as a swipe. */
  const SWIPE_THRESHOLD: real := 30.0

  /** A map lookup where a missing code reads as false. */
  predicate Flag(m: map<string, bool>, code: string) {
    code in m && m[code]
  }

  class InputManager {
    var keys: map<string, bool>
    var justPressed: map<string, bool>
    var enabled: bool
    var touchStartY: real
    var isTouching: bool

    constructor ()
      ensures keys == map[] && justPressed == map[]
      ensures enabled && touchStartY == 0.0 && !isTouching
    {
      keys := map[];
      justPressed := map[];
      enabled := true;
      touchStartY := 0.0;
      isTouching := false;
    }

    /** A key goes down: it is held from now on, and counts as just pressed
        only if it was not already held (auto-repeat does not re-press). */
    method HandleKeyDown(code: string)
      modifies this
      ensures keys == old(keys)[code := true]
      ensures justPressed == if old(Flag(keys, code)) then old(justPressed) else old(justPressed)[code := true]
      ensures enabled == old(enabled) && isTouching == old(isTouching) && touchStartY == old(touchStartY)
      ensures IsKeyDown(code) == enabled
      ensures !old(Flag(keys, code)) ==> IsKeyJustPressed(code) == enabled
      ensures old(Flag(keys, code)) ==> IsKeyJustPressed(code) == old(IsKeyJustPressed(code))
    {
      if !Flag(keys, code) {
        justPressed := justPressed[code := true];
      }
      keys := keys[code := true];
    }

    /** A key goes up: neither held nor just pressed. */
    method HandleKeyUp(code: string)
      modifies this
      ensures keys == old(keys)[code := false] && justPressed == old(justPressed)[code := false]
      ensures enabled == old(enabled) && isTouching == old(isTouching) && touchStartY == old(touchStartY)
      ensures !IsKeyDown(code) && !IsKeyJustPressed(code)
    {
      keys := keys[code := false];
      justPressed := justPressed[code := false];
    }

    /** A touch begins (`touches` holds the vertical position of each
        current touch): with at least one touch, it is a tap on "Space",
        pressed even if it was already held, and the start point is kept for
        swipe detection. */
    method HandleTouchStart(touches: seq<real>)
      modifies this
      ensures |touches| > 0 ==>
                touchStartY == touches[0] && isTouching &&
                keys == old(keys)[SPACE := true] && justPressed == old(justPressed)[SPACE := true]
      ensures |touches| == 0 ==>
                touchStartY == old(touchStartY) && isTouching == old(isTouching) &&
                keys == old(keys) && justPressed == old(justPressed)
      ensures enabled == old(enabled)
      ensures |touches| > 0 ==> IsJumpJustPressed() == enabled && IsJumpPressed() == enabled
    {
      if |touches| > 0 {
        touchStartY := touches[0];
        isTouching := true;
        justPressed := justPressed[SPACE := true];
        keys := keys[SPACE := true];
      }
    }

    /** The touch ends: both touch keys are released. Just-pressed flags
        stay until the frame clears them. */
    method HandleTouchEnd()
      modifies this
      ensures !isTouching
      ensures keys == old(keys)[SPACE := false][ARROW_DOWN := false]
      ensures justPressed == old(justPressed) && enabled == old(enabled) && touchStartY == old(touchStartY)
      ensures !IsDuckPressed() && !IsKeyDown(SPACE)
    {
      isTouching := false;
      keys := keys[SPACE := false];
      keys := keys[ARROW_DOWN := false];
    }

    /** The touch moves: while touching, a downward move of more than the
        swipe threshold from the start point holds "ArrowDown" and releases
        "Space"; any smaller move releases "ArrowDown". */
    method HandleTouchMove(touches: seq<real>)
      modifies this
      ensures |touches| > 0 && old(isTouching) && touches[0] - touchStartY > SWIPE_THRESHOLD ==>
                keys == old(keys)[ARROW_DOWN := true][SPACE := false]
      ensures |touches| > 0 && old(isTouching) && touches[0] - touchStartY <= SWIPE_THRESHOLD ==>
                keys == old(keys)[ARROW_DOWN := false]
      ensures !(|touches| > 0 && old(isTouching)) ==> keys == old(keys)
      ensures justPressed == old(justPressed) && enabled == old(enabled)
      ensures touchStartY == old(touchStartY) && isTouching == old(isTouching)
      ensures |touches| > 0 && old(isTouching) ==>
                IsDuckPressed() == (enabled && touches[0] - touchStartY > SWIPE_THRESHOLD)
    {
      if |touches| > 0 && isTouching {
        var currentY := touches[0];
        var deltaY := currentY - touchStartY;

        if deltaY > SWIPE_THRESHOLD {
          keys := keys[ARROW_DOWN := true];
          keys := keys[SPACE := false];
        } else {
          keys := keys[ARROW_DOWN := false];
        }
      }
    }

    predicate IsKeyDown(code: string)
      reads this
    {
      enabled && Flag(keys, code)
    }

    predicate IsKeyJustPressed(code: string)
      reads this
    {
      enabled && Flag(justPressed, code)
    }

    predicate IsJumpPressed()
      reads this
    {
      IsKeyDown(SPACE) || IsKeyDown(ARROW_UP)
    }

    predicate IsJumpJustPressed()
      reads this
    {
      IsKeyJustPressed(SPACE) || IsKeyJustPressed(ARROW_UP)
    }

    predicate IsDuckPressed()
      reads this
    {
      IsKeyDown(ARROW_DOWN)
    }

    /** Ends a frame: nothing counts as just pressed any more; held keys
        stay held. */
    method ClearJustPressed()
      modifies this
      ensures justPressed == map[]
      ensures keys == old(keys) && enabled == old(enabled)
      ensures isTouching == old(isTouching) && touchStartY == old(touchStartY)
      ensures forall code :: !IsKeyJustPressed(code)
    {
      justPressed := map[];
    }

    method SetEnabled(enabled: bool)
      modifies this
      ensures this.enabled == enabled
      ensures keys == old(keys) && justPressed == old(justPressed)
      ensures isTouching == old(isTouching) && touchStartY == old(touchStartY)
    {
      this.enabled := enabled;
    }

    /** Forgets every key and the touch; the touch start point and the
        enabled flag are kept. */
    method Reset()
      modifies this
      ensures keys == map[] && justPressed == map[] && !isTouching
      ensures enabled == old(enabled) && touchStartY == old(touchStartY)
      ensures forall code :: !IsKeyDown(code) && !IsKeyJustPressed(code)
    {
      keys := map[];
      justPressed := map[];
      isTouching := false;
    }
  }

  /** A disabled input manager reports nothing: no key is held or just
      pressed, and neither a jump nor a duck is asked for, whatever the
      maps hold. */
  lemma DisabledReportsNothing(input: InputManager, code: string)
    requires !input.enabled
    ensures !input.IsKeyDown(code) && !input.IsKeyJustPressed(code)
    ensures !input.IsJumpPressed() && !input.IsJumpJustPressed() && !input.IsDuckPressed()
  {
  }

  /** A held key that the platform repeats registers one press, not one per
      repeat: after the first press is cleared, a repeat does not press it
      again, though the key stays held. */
  method HeldKeyRegistersOnce(input: InputManager, code: string)
    requires input.enabled
    modifies input
    ensures input.IsKeyDown(code) && !input.IsKeyJustPressed(code)
  {
    input.HandleKeyDown(code);
    input.ClearJustPressed();
    input.HandleKeyDown(code);
  }

  /** A tap is a jump for one frame and stays held until the finger lifts;
      a swipe down after it turns the hold into a duck. */
  method TapThenSwipe(input: InputManager, startY: real)
    requires input.enabled
    modifies input
    ensures input.IsDuckPressed() && !input.IsJumpJustPressed() && !input.IsKeyDown(SPACE)
  {
    input.HandleTouchStart([startY]);
    assert input.IsJumpJustPressed();
    input.ClearJustPressed();
    input.HandleTouchMove([startY + 40.0]);
  }
}
