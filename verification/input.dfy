/**
 * The input aggregator (`InputService`): the set of held key codes and mouse
 * buttons, mouse movement accumulated while the pointer is locked, two touch
 * joysticks and touch buttons on mobile, and `getState`, which merges keyboard
 * and joystick into one intent and resets the accumulated movement. Browser
 * events are the method calls; `onShoot` / `onPause` emissions are returned
 * as booleans.
 */
module Input {
  import opened Common

  /** A touch joystick; `identifier` is -1 when no finger owns it. */
  datatype Joystick = Joystick(active: bool, startX: real, startY: real, currentX: real, currentY: real, identifier: int)

  const Released: Joystick := Joystick(false, 0.0, 0.0, 0.0, 0.0, -1)

  /** One entry of a touch event's `changedTouches`. */
  datatype Touch = Touch(identifier: int, clientX: real, clientY: real)

  datatype Stick = Move | Look

  /** What `getState` returns. */
  datatype InputState = InputState(forward: bool, backward: bool, left: bool, right: bool,
                                   jump: bool, sprint: bool, shoot: bool, pause: bool,
                                   mouseX: real, mouseY: real, mouseDeltaX: real, mouseDeltaY: real)

  /** Joystick travel (pixels) that is ignored in each axis. */
  const Deadzone: real := 10.0

  /** The movement intent of `getState`: keys (WASD or arrows) or the move joystick beyond the dead zone. */
  datatype Steering = Steering(forward: bool, backward: bool, left: bool, right: bool)

  function Steer(keys: set<string>, stick: Joystick): (r: Steering)
    ensures !stick.active ==> r == KeysOnly(keys)
  {
    var dx := stick.currentX - stick.startX;
    var dy := stick.currentY - stick.startY;
    Steering(
      "KeyW" in keys || "ArrowUp" in keys || (stick.active && dy < -Deadzone),
      "KeyS" in keys || "ArrowDown" in keys || (stick.active && dy > Deadzone),
      "KeyA" in keys || "ArrowLeft" in keys || (stick.active && dx < -Deadzone),
      "KeyD" in keys || "ArrowRight" in keys || (stick.active && dx > Deadzone))
  }

  function KeysOnly(keys: set<string>): Steering {
    Steering("KeyW" in keys || "ArrowUp" in keys, "KeyS" in keys || "ArrowDown" in keys,
             "KeyA" in keys || "ArrowLeft" in keys, "KeyD" in keys || "ArrowRight" in keys)
  }

  /**
   * The joystick only adds directions to the keyboard's: a released joystick or
   * one inside the dead zone adds nothing, it never asks for two opposite
   * directions, and it never cancels a held key.
   */
  lemma SteerDeadzone(keys: set<string>, stick: Joystick)
    ensures !stick.active ==> Steer(keys, stick) == KeysOnly(keys)
    ensures -Deadzone <= stick.currentX - stick.startX <= Deadzone && -Deadzone <= stick.currentY - stick.startY <= Deadzone
            ==> Steer(keys, stick) == KeysOnly(keys)
    ensures keys == {} ==> !(Steer(keys, stick).forward && Steer(keys, stick).backward)
    ensures keys == {} ==> !(Steer(keys, stick).left && Steer(keys, stick).right)
    ensures KeysOnly(keys).forward ==> Steer(keys, stick).forward
    ensures KeysOnly(keys).backward ==> Steer(keys, stick).backward
    ensures KeysOnly(keys).left ==> Steer(keys, stick).left
    ensures KeysOnly(keys).right ==> Steer(keys, stick).right
  {
  }

  /** The loop of the joystick move and end handlers: the first changed touch owned by `identifier`. */
  method FindTouch(touches: seq<Touch>, identifier: int) returns (k: Option<nat>)
    ensures k.Some? ==> k.value < |touches| && touches[k.value].identifier == identifier
    ensures k.Some? ==> forall j :: 0 <= j < k.value ==> touches[j].identifier != identifier
    ensures k.None? <==> forall j :: 0 <= j < |touches| ==> touches[j].identifier != identifier
  {
    var i := 0;
    while i < |touches|
      invariant 0 <= i <= |touches|
      invariant forall j :: 0 <= j < i ==> touches[j].identifier != identifier
    {
      if touches[i].identifier == identifier {
        return Some(i);
      }
      i := i + 1;
    }
    return None;
  }

  class InputDevice {
    var keys: set<string>
    var mouseButtons: set<int>
    var mouseDeltaX: real
    var mouseDeltaY: real
    var mouseX: real
    var mouseY: real
    var pointerLocked: bool
    var isMobile: bool
    var moveStick: Joystick
    var lookStick: Joystick
    var touchShootActive: bool
    /** Whether `initialize` has attached the canvas. */
    var hasCanvas: bool

    constructor ()
      ensures keys == {} && mouseButtons == {} && mouseDeltaX == 0.0 && mouseDeltaY == 0.0
      ensures mouseX == 0.0 && mouseY == 0.0 && !pointerLocked && !isMobile && !hasCanvas
      ensures moveStick == Released && lookStick == Released && !touchShootActive
    {
      keys, mouseButtons := {}, {};
      mouseDeltaX, mouseDeltaY, mouseX, mouseY := 0.0, 0.0, 0.0, 0.0;
      pointerLocked, isMobile, hasCanvas := false, false, false;
      moveStick, lookStick := Released, Released;
      touchShootActive := false;
    }

    /** `initialize(canvas)`; the user-agent test of `detectMobile` is the parameter `mobile`. */
    method Initialize(mobile: bool)
      modifies this
      ensures hasCanvas && isMobile == mobile
      ensures keys == old(keys) && mouseButtons == old(mouseButtons) && pointerLocked == old(pointerLocked)
      ensures mouseDeltaX == old(mouseDeltaX) && mouseDeltaY == old(mouseDeltaY)
      ensures moveStick == old(moveStick) && lookStick == old(lookStick) && touchShootActive == old(touchShootActive)
    {
      hasCanvas := true;
      isMobile := mobile;
    }

    /** `getState` without its reset: the merged intent and the movement accumulated so far. */
    function CurrentState(): (s: InputState)
      reads this
    {
      var steer := Steer(keys, moveStick);
      InputState(steer.forward, steer.backward, steer.left, steer.right,
                 "Space" in keys, "ShiftLeft" in keys || "ShiftRight" in keys,
                 0 in mouseButtons || touchShootActive, "Escape" in keys,
                 mouseX, mouseY, mouseDeltaX, mouseDeltaY)
    }

    /** `getState`: returns the current state and starts a new accumulation of mouse movement. */
    method GetState() returns (s: InputState)
      modifies this
      ensures s == old(CurrentState())
      ensures mouseDeltaX == 0.0 && mouseDeltaY == 0.0
      ensures CurrentState() == s.(mouseDeltaX := 0.0, mouseDeltaY := 0.0)
      ensures keys == old(keys) && mouseButtons == old(mouseButtons) && pointerLocked == old(pointerLocked)
      ensures isMobile == old(isMobile) && hasCanvas == old(hasCanvas)
      ensures moveStick == old(moveStick) && lookStick == old(lookStick) && touchShootActive == old(touchShootActive)
    {
      s := CurrentState();
      mouseDeltaX := 0.0;
      mouseDeltaY := 0.0;
    }

    /** `onKeyDown`: holds the key; Escape asks for a pause. */
    method OnKeyDown(code: string) returns (pause: bool)
      modifies this`keys
      ensures keys == old(keys) + {code}
      ensures pause <==> code == "Escape"
    {
      keys := keys + {code};
      pause := code == "Escape";
    }

    method OnKeyUp(code: string)
      modifies this`keys
      ensures keys == old(keys) - {code}
    {
      keys := keys - {code};
    }

    /** `onMouseDown`: holds the button; the left button shoots only while the pointer is locked. */
    method OnMouseDown(button: int) returns (shoot: bool)
      modifies this`mouseButtons
      ensures mouseButtons == old(mouseButtons) + {button}
      ensures shoot <==> button == 0 && pointerLocked
    {
      mouseButtons := mouseButtons + {button};
      shoot := button == 0 && pointerLocked;
    }

    method OnMouseUp(button: int)
      modifies this`mouseButtons
      ensures mouseButtons == old(mouseButtons) - {button}
    {
      mouseButtons := mouseButtons - {button};
    }

    /** `onMouseMove`: movement counts only while locked; the pointer position is always recorded. */
    method OnMouseMove(movementX: real, movementY: real, clientX: real, clientY: real)
      modifies this`mouseDeltaX, this`mouseDeltaY, this`mouseX, this`mouseY
      ensures pointerLocked ==> mouseDeltaX == old(mouseDeltaX) + movementX && mouseDeltaY == old(mouseDeltaY) + movementY
      ensures !pointerLocked ==> mouseDeltaX == old(mouseDeltaX) && mouseDeltaY == old(mouseDeltaY)
      ensures mouseX == clientX && mouseY == clientY
    {
      if pointerLocked {
        mouseDeltaX := mouseDeltaX + movementX;
        mouseDeltaY := mouseDeltaY + movementY;
      }
      mouseX := clientX;
      mouseY := clientY;
    }

    /** A click on the canvas asks the browser for pointer lock unless locked already or on mobile. */
    method RequestPointerLock() returns (requested: bool)
      ensures requested <==> hasCanvas && !pointerLocked && !isMobile
    {
      requested := hasCanvas && !pointerLocked && !isMobile;
    }

    /** `onPointerLockChange`: losing the lock on a desktop asks for a pause. */
    method OnPointerLockChange(lockedNow: bool) returns (pause: bool)
      modifies this`pointerLocked
      ensures pointerLocked == lockedNow
      ensures pause <==> old(pointerLocked) && !lockedNow && !isMobile
    {
      var wasLocked := pointerLocked;
      pointerLocked := lockedNow;
      pause := wasLocked && !pointerLocked && !isMobile;
    }

    /** `isLocked`: true while the pointer is locked and always on mobile. */
    predicate IsLocked()
      reads this
      ensures isMobile ==> IsLocked()
      ensures !isMobile ==> (IsLocked() <==> pointerLocked)
    {
      pointerLocked || isMobile
    }

    /** The mobile fire button: pressing holds the touch-shoot flag and shoots at once. */
    method ShootButtonDown() returns (shoot: bool)
      modifies this`touchShootActive
      ensures touchShootActive && shoot
    {
      touchShootActive := true;
      shoot := true;
    }

    method ShootButtonUp()
      modifies this`touchShootActive
      ensures !touchShootActive
    {
      touchShootActive := false;
    }

    /** The mobile jump button holds and releases the Space key. */
    method JumpButton(pressed: bool)
      modifies this`keys
      ensures keys == if pressed then old(keys) + {"Space"} else old(keys) - {"Space"}
    {
      if pressed {
        keys := keys + {"Space"};
      } else {
        keys := keys - {"Space"};
      }
    }

    function StickOf(which: Stick): Joystick
      reads this
    {
      if which == Move then moveStick else lookStick
    }

    method SetStick(which: Stick, j: Joystick)
      modifies this`moveStick, this`lookStick
      ensures which == Move ==> moveStick == j && lookStick == old(lookStick)
      ensures which == Look ==> lookStick == j && moveStick == old(moveStick)
    {
      if which == Move {
        moveStick := j;
      } else {
        lookStick := j;
      }
    }

    /** `handleJoystickStart`: the first changed touch takes the joystick, which starts where it landed. */
    method JoystickStart(which: Stick, changedTouches: seq<Touch>)
      requires |changedTouches| > 0
      modifies this`moveStick, this`lookStick
      ensures var t := changedTouches[0];
              StickOf(which) == Joystick(true, t.clientX, t.clientY, t.clientX, t.clientY, t.identifier)
      ensures which == Move ==> lookStick == old(lookStick)
      ensures which == Look ==> moveStick == old(moveStick)
    {
      var t := changedTouches[0];
      SetStick(which, Joystick(true, t.clientX, t.clientY, t.clientX, t.clientY, t.identifier));
    }

    /**
     * `handleJoystickMove`: for an active joystick, the first changed touch it
     * owns moves its thumb; on the look joystick twice the travel is added to the
     * accumulated mouse movement.
     */
    method JoystickMove(which: Stick, changedTouches: seq<Touch>)
      modifies this`moveStick, this`lookStick, this`mouseDeltaX, this`mouseDeltaY
      ensures var j := old(StickOf(which));
              if !j.active || (forall i :: 0 <= i < |changedTouches| ==> changedTouches[i].identifier != j.identifier)
              then moveStick == old(moveStick) && lookStick == old(lookStick)
                   && mouseDeltaX == old(mouseDeltaX) && mouseDeltaY == old(mouseDeltaY)
              else exists k :: (
                   && 0 <= k < |changedTouches| && changedTouches[k].identifier == j.identifier
                   && (forall i :: 0 <= i < k ==> changedTouches[i].identifier != j.identifier)
                   && StickOf(which) == j.(currentX := changedTouches[k].clientX, currentY := changedTouches[k].clientY)
                   && (which == Look ==>
                         && mouseDeltaX == old(mouseDeltaX) + (changedTouches[k].clientX - j.currentX) * 2.0
                         && mouseDeltaY == old(mouseDeltaY) + (changedTouches[k].clientY - j.currentY) * 2.0)
                   && (which == Move ==> mouseDeltaX == old(mouseDeltaX) && mouseDeltaY == old(mouseDeltaY)))
      ensures which == Move ==> lookStick == old(lookStick)
      ensures which == Look ==> moveStick == old(moveStick)
    {
      var j := StickOf(which);
      if !j.active {
        return;
      }
      var k := FindTouch(changedTouches, j.identifier);
      if k.Some? {
        var t := changedTouches[k.value];
        SetStick(which, j.(currentX := t.clientX, currentY := t.clientY));
        if which == Look {
          mouseDeltaX := mouseDeltaX + (t.clientX - j.currentX) * 2.0;
          mouseDeltaY := mouseDeltaY + (t.clientY - j.currentY) * 2.0;
        }
      }
    }

    /** `handleJoystickEnd`: when the owning finger lifts, the joystick is released. */
    method JoystickEnd(which: Stick, changedTouches: seq<Touch>)
      modifies this`moveStick, this`lookStick
      ensures var j := old(StickOf(which));
              if exists i :: 0 <= i < |changedTouches| && changedTouches[i].identifier == j.identifier
              then StickOf(which) == j.(active := false, identifier := -1)
              else StickOf(which) == j
      ensures which == Move ==> lookStick == old(lookStick)
      ensures which == Look ==> moveStick == old(moveStick)
    {
      var j := StickOf(which);
      var k := FindTouch(changedTouches, j.identifier);
      if k.Some? {
        SetStick(which, j.(active := false, identifier := -1));
      }
    }

    /** `destroy`: releases every key and button. */
    method Destroy()
      modifies this`keys, this`mouseButtons
      ensures keys == {} && mouseButtons == {}
    {
      keys := {};
      mouseButtons := {};
    }
  }
}
