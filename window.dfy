/**
 * The window's input callbacks and title bookkeeping, as transitions on the game
 * state, the camera's key flags and mouse record, and the window's own flags.
 * Events arrive as abstract key, action and button values; the clock is a parameter.
 */
module Windowing {
  import opened Wrappers
  import opened LinAlg
  import opened Camera
  import opened State

  const Width := 1920
  const Height := 1080

  datatype Key = KeyQ | KeyEscape | KeyTab | KeyX | KeyF11
               | KeyW | KeyS | KeyA | KeyD | KeyLeftShift | KeySpace
               | OtherKey(code: int)

  datatype Action = Press | Release | Repeat

  datatype Button = LeftButton | RightButton | MiddleButton | OtherButton(code: int)

  /** The six keys that drive a camera movement flag. */
  predicate MovementKey(key: Key) {
    key in {KeyW, KeyS, KeyA, KeyD, KeyLeftShift, KeySpace}
  }

  /** The movement flag a key drives. */
  function Flag(keys: Keys, key: Key): bool
    requires MovementKey(key)
  {
    match key
    case KeyW => keys.forward
    case KeyS => keys.back
    case KeyA => keys.left
    case KeyD => keys.right
    case KeyLeftShift => keys.shift
    case KeySpace => keys.space
  }

  /** The flags with the one `key` drives set to `held`. */
  function WithFlag(keys: Keys, key: Key, held: bool): (r: Keys)
    requires MovementKey(key)
    ensures forall k :: MovementKey(k) ==> Flag(r, k) == if k == key then held else Flag(keys, k)
  {
    match key
    case KeyW => keys.(forward := held)
    case KeyS => keys.(back := held)
    case KeyA => keys.(left := held)
    case KeyD => keys.(right := held)
    case KeyLeftShift => keys.(shift := held)
    case KeySpace => keys.(space := held)
  }

  /** Two flag records that agree on every movement key are equal. */
  lemma FlagsDetermineKeys(a: Keys, b: Keys)
    requires forall k :: MovementKey(k) ==> Flag(a, k) == Flag(b, k)
    ensures a == b
  {
    assert Flag(a, KeyW) == Flag(b, KeyW) && Flag(a, KeyS) == Flag(b, KeyS);
    assert Flag(a, KeyA) == Flag(b, KeyA) && Flag(a, KeyD) == Flag(b, KeyD);
    assert Flag(a, KeyLeftShift) == Flag(b, KeyLeftShift) && Flag(a, KeySpace) == Flag(b, KeySpace);
  }

  /** The decimal digits of a count, as std::to_string prints it. */
  function Decimal(n: nat): (s: string)
    ensures |s| > 0 && forall i :: 0 <= i < |s| ==> '0' <= s[i] <= '9'
    decreases n
  {
    var d := ['0' + (n % 10) as char];
    if n < 10 then d else Decimal(n / 10) + d
  }

  /** The number a string of decimal digits denotes, most significant digit first. */
  function DigitsValue(s: string): int {
    if s == [] then 0 else 10 * DigitsValue(s[..|s| - 1]) + (s[|s| - 1] as int - '0' as int)
  }

  /** Decimal(n) denotes n, and has no leading zero unless it is "0" itself. */
  lemma {:induction false} DecimalValue(n: nat)
    ensures DigitsValue(Decimal(n)) == n
    ensures Decimal(n)[0] == '0' ==> n == 0
    decreases n
  {
    var d := ['0' + (n % 10) as char];
    if n >= 10 {
      DecimalValue(n / 10);
      var s := Decimal(n / 10) + d;
      assert s[..|s| - 1] == Decimal(n / 10);
      assert s[0] == Decimal(n / 10)[0];
    }
  }

  /**
   * The mouse record after the cursor moves to (x, y) while the game runs: the first
   * event snaps the last position to the cursor (clearing the first-event flag only
   * when the old last position was non-zero on both axes), the offsets are the
   * scaled motion since the last position, and the last position becomes the cursor.
   */
  function MouseAfter(m: Mouse, x: real, y: real): Mouse {
    var last := if m.firstMouse then Vec2(x, y) else Vec2(m.lastX, m.lastY);
    m.(lastX := x, lastY := y, xoffset := (x - last.x) * m.sensitivity, yoffset := (y - last.y) * m.sensitivity,
       firstMouse := m.firstMouse && !(m.lastX != 0.0 && m.lastY != 0.0))
  }

  /**
   * Everything the input callbacks can change: the window's close, fullscreen and
   * resize flags, the pause and wireframe flags and the intent counter of the game
   * state, and the camera's key flags, mouse record, angles, direction, front
   * vector, field of view, clip planes and matrices.
   */
  datatype Controls = Controls(close: bool, fullscreen: bool, resized: bool,
                               paused: bool, wireframe: bool, intents: int,
                               keys: Keys, mouse: Mouse, pitch: real, yaw: real, direction: Vec3, front: Vec3,
                               fov: real, znear: real, zfar: real, matrices: Matrices)

  /** A key event through the key callback. */
  function KeyControls(c: Controls, key: Key, action: Action): Controls {
    var toggle := (key == KeyEscape || key == KeyTab) && action == Press;
    var paused := c.paused != toggle;
    c.(close := c.close || (key == KeyQ && action == Press),
       paused := paused,
       mouse := if toggle && !paused then c.mouse.(lastX := (Width / 2) as real, lastY := (Height / 2) as real) else c.mouse,
       wireframe := c.wireframe != (key == KeyX && action == Press),
       fullscreen := c.fullscreen != (key == KeyF11 && action == Press),
       keys := if MovementKey(key) && action != Repeat then WithFlag(c.keys, key, action == Press) else c.keys)
  }

  /** A mouse-button event through the click callback. */
  function ClickControls(c: Controls, button: Button, action: Action): Controls {
    c.(intents := c.intents + if !c.paused && button == LeftButton && action == Press then 1 else 0)
  }

  /**
   * A cursor event through the cursor callback: ignored while paused, otherwise the
   * mouse record, the angles, the direction, the front vector and the view follow.
   */
  function CursorControls(c: Controls, x: real, y: real, ops: FloatOps, pos: Vec3, up: Vec3): Controls {
    if c.paused then c
    else
      var mouse := MouseAfter(c.mouse, x, y);
      var pitch := Clamp(c.pitch - mouse.yoffset, -MaxPitch, MaxPitch);
      var yaw := c.yaw + mouse.xoffset;
      var front := ops.normalize(Direction(ops, yaw, pitch));
      c.(mouse := mouse, pitch := pitch, yaw := yaw, direction := Direction(ops, yaw, pitch), front := front,
         matrices := c.matrices.(view := ops.lookAt(pos, Add(pos, front), up)))
  }

  /** A scroll event through the scroll callback, paused or not. */
  function ScrollControls(c: Controls, y: real, ops: FloatOps): Controls {
    var fov := Clamp(c.fov + y, MinFov, MaxFov);
    c.(fov := fov, matrices := c.matrices.(projection := FlipY(ops.perspective(fov, FixedAspect, c.znear, c.zfar))))
  }

  /** The title shown once a second: the name, the frame count and the display mode. */
  function TitleText(title: string, fps: nat, fullscreen: bool): string {
    title + " | FPS: " + Decimal(fps) + (if fullscreen then " | Fullscreen" else " | Windowed")
  }

  class Window {
    const camera: FPSCamera
    const state: GameState
    var framebufferResized: bool
    var fullscreen: bool
    var lastUpdate: real
    var frameCount: nat
    /** Set once the user asks to close the window. */
    var shouldClose: bool

    /** The current values of everything the input callbacks can change. */
    ghost function Snapshot(): Controls
      reads this, camera, state
    {
      Controls(shouldClose, fullscreen, framebufferResized,
               state.paused, state.wireframe, state.noUserIntendedBoxes,
               camera.keys, camera.mouse, camera.pitch, camera.yaw, camera.cameraDirection, camera.cameraFront,
               camera.fov, camera.znear, camera.zfar, camera.matrices)
    }

    constructor (camera: FPSCamera, state: GameState)
      ensures this.camera == camera && this.state == state
      ensures !framebufferResized && !fullscreen && !shouldClose
      ensures lastUpdate == 0.0 && frameCount == 0
    {
      this.camera := camera;
      this.state := state;
      framebufferResized, fullscreen, shouldClose := false, false, false;
      lastUpdate, frameCount := 0.0, 0;
    }

    /**
     * Count one frame.  Once a second has passed since the last title update, the
     * title with the count so far is returned to be shown, the count restarts and
     * `lastUpdate` moves to `now`.
     */
    method UpdateTitle(title: string, now: real) returns (shown: Option<string>)
      modifies this`frameCount, this`lastUpdate
      ensures now - old(lastUpdate) >= 1.0 ==>
        shown == Some(TitleText(title, old(frameCount), fullscreen)) && frameCount == 1 && lastUpdate == now
      ensures now - old(lastUpdate) < 1.0 ==>
        shown == None && frameCount == old(frameCount) + 1 && lastUpdate == old(lastUpdate)
    {
      shown := None;
      if now - lastUpdate >= 1.0 {
        shown := Some(TitleText(title, frameCount, fullscreen));
        frameCount := 0;
        lastUpdate := now;
      }
      frameCount := frameCount + 1;
    }

    /** A left-button press while unpaused asks for one more box; nothing else does anything. */
    method MouseClick(button: Button, action: Action)
      modifies state`noUserIntendedBoxes
      ensures state.noUserIntendedBoxes ==
        old(state.noUserIntendedBoxes) + if !state.paused && button == LeftButton && action == Press then 1 else 0
      ensures Snapshot() == ClickControls(old(Snapshot()), button, action)
    {
      if state.paused {
        return;
      }
      if button == LeftButton && action == Press {
        state.noUserIntendedBoxes := state.noUserIntendedBoxes + 1;
      }
    }

    /**
     * Cursor motion.  Ignored while paused.  Otherwise the first-mouse event snaps
     * the last position to the cursor (and clears the flag only when the previous
     * last position was non-zero on both axes); the offsets are the scaled motion
     * since the last position, the last position becomes the cursor, and the camera
     * direction is updated from the offsets.
     */
    method MouseMove(xpos: real, ypos: real)
      modifies camera`mouse, camera`pitch, camera`yaw, camera`cameraDirection, camera`cameraFront,
               camera`matrices
      ensures state.paused ==>
        && camera.mouse == old(camera.mouse) && camera.pitch == old(camera.pitch) && camera.yaw == old(camera.yaw)
        && camera.cameraDirection == old(camera.cameraDirection) && camera.cameraFront == old(camera.cameraFront)
        && camera.matrices == old(camera.matrices)
      ensures !state.paused ==>
        && camera.mouse == MouseAfter(old(camera.mouse), xpos, ypos)
        && camera.pitch == Clamp(old(camera.pitch) - camera.mouse.yoffset, -MaxPitch, MaxPitch)
        && camera.yaw == old(camera.yaw) + camera.mouse.xoffset
        && camera.cameraDirection == Direction(camera.ops, camera.yaw, camera.pitch)
        && camera.cameraFront == camera.ops.normalize(camera.cameraDirection)
        && camera.ViewCurrent() && camera.matrices.projection == old(camera.matrices.projection)
      ensures Snapshot() == CursorControls(old(Snapshot()), xpos, ypos, camera.ops, camera.cameraPos, camera.cameraUp)
    {
      if state.paused {
        return;
      }
      TrackCursor(xpos, ypos);
      camera.UpdateCameraDirection();
    }

    /**
     * The mouse bookkeeping of the cursor callback: on the first event the last position
     * snaps to the cursor, then the offsets are the scaled motion since the last position,
     * which becomes the cursor.
     */
    method TrackCursor(xpos: real, ypos: real)
      modifies camera`mouse
      ensures camera.mouse == MouseAfter(old(camera.mouse), xpos, ypos)
    {
      var mouse := camera.mouse;
      if mouse.firstMouse {
        if mouse.lastX != 0.0 && mouse.lastY != 0.0 {
          mouse := mouse.(firstMouse := false);
        }
        mouse := mouse.(lastX := xpos, lastY := ypos);
      }
      mouse := mouse.(xoffset := (xpos - mouse.lastX) * mouse.sensitivity);
      mouse := mouse.(yoffset := (ypos - mouse.lastY) * mouse.sensitivity);
      camera.mouse := mouse.(lastX := xpos, lastY := ypos);
    }

    /** Scrolling changes the field of view by the vertical offset, paused or not. */
    method Scroll(yoffset: real)
      modifies camera`fov, camera`znear, camera`zfar, camera`matrices
      ensures camera.fov == Clamp(old(camera.fov) + yoffset, MinFov, MaxFov)
      ensures camera.znear == old(camera.znear) && camera.zfar == old(camera.zfar)
      ensures camera.matrices ==
        old(camera.matrices).(projection := FlipY(camera.ops.perspective(camera.fov, FixedAspect, camera.znear, camera.zfar)))
      ensures Snapshot() == ScrollControls(old(Snapshot()), yoffset, camera.ops)
    {
      camera.UpdateFOV(yoffset);
    }

    /**
     * Key events: Q requests close; Escape or Tab toggles pause, and unpausing puts
     * the last mouse position at the window centre; X toggles wireframe; F11 toggles
     * fullscreen; the six movement keys set their flag on press and clear it on release.
     */
    method KeyEvent(key: Key, action: Action)
      modifies this`shouldClose, this`fullscreen, state`paused, state`wireframe, camera`keys, camera`mouse
      ensures shouldClose == (old(shouldClose) || (key == KeyQ && action == Press))
      ensures var toggle := (key == KeyEscape || key == KeyTab) && action == Press;
              && state.paused == (old(state.paused) != toggle)
              && camera.mouse == if toggle && !state.paused
                                 then old(camera.mouse).(lastX := (Width / 2) as real, lastY := (Height / 2) as real)
                                 else old(camera.mouse)
      ensures state.wireframe == (old(state.wireframe) != (key == KeyX && action == Press))
      ensures fullscreen == (old(fullscreen) != (key == KeyF11 && action == Press))
      ensures MovementKey(key) && action != Repeat ==> camera.keys == WithFlag(old(camera.keys), key, action == Press)
      ensures !(MovementKey(key) && action != Repeat) ==> camera.keys == old(camera.keys)
      ensures Snapshot() == KeyControls(old(Snapshot()), key, action)
    {
      KeyFlags(key, action);
      MovementKeys(key, action);
    }

    /** The close, pause, wireframe and fullscreen keys. */
    method KeyFlags(key: Key, action: Action)
      modifies this`shouldClose, this`fullscreen, state`paused, state`wireframe, camera`mouse
      ensures Snapshot() == KeyControls(old(Snapshot()), key, action).(keys := old(camera.keys))
    {
      if key == KeyQ && action == Press {
        shouldClose := true;
      }
      PauseKey(key, action);
      DisplayKeys(key, action);
    }

    /** X pressed toggles wireframe; F11 pressed toggles fullscreen. */
    method DisplayKeys(key: Key, action: Action)
      modifies this`fullscreen, state`wireframe
      ensures state.wireframe == (old(state.wireframe) != (key == KeyX && action == Press))
      ensures fullscreen == (old(fullscreen) != (key == KeyF11 && action == Press))
    {
      if key == KeyX && action == Press {
        state.wireframe := !state.wireframe;
      }
      if key == KeyF11 && action == Press {
        if fullscreen {
          fullscreen := false;
        } else {
          fullscreen := true;
        }
      }
    }

    /** Escape or Tab pressed toggles pause; unpausing puts the last mouse position at the window centre. */
    method PauseKey(key: Key, action: Action)
      modifies state`paused, camera`mouse
      ensures var toggle := (key == KeyEscape || key == KeyTab) && action == Press;
              && state.paused == (old(state.paused) != toggle)
              && camera.mouse == if toggle && !state.paused
                                 then old(camera.mouse).(lastX := (Width / 2) as real, lastY := (Height / 2) as real)
                                 else old(camera.mouse)
    {
      if (key == KeyEscape && action == Press) || (key == KeyTab && action == Press) {
        state.paused := !state.paused;
        if !state.paused {
          camera.mouse := camera.mouse.(lastX := (Width / 2) as real, lastY := (Height / 2) as real);
        }
      }
    }

    /** The twelve press and release tests for the movement keys. */
    method MovementKeys(key: Key, action: Action)
      modifies camera`keys
      ensures MovementKey(key) && action != Repeat ==> camera.keys == WithFlag(old(camera.keys), key, action == Press)
      ensures !(MovementKey(key) && action != Repeat) ==> camera.keys == old(camera.keys)
    {
      if key == KeyW && action == Press {
        camera.keys := camera.keys.(forward := true);
      }
      if key == KeyW && action == Release {
        camera.keys := camera.keys.(forward := false);
      }
      if key == KeyS && action == Press {
        camera.keys := camera.keys.(back := true);
      }
      if key == KeyS && action == Release {
        camera.keys := camera.keys.(back := false);
      }
      if key == KeyA && action == Press {
        camera.keys := camera.keys.(left := true);
      }
      if key == KeyA && action == Release {
        camera.keys := camera.keys.(left := false);
      }
      if key == KeyD && action == Press {
        camera.keys := camera.keys.(right := true);
      }
      if key == KeyD && action == Release {
        camera.keys := camera.keys.(right := false);
      }
      if key == KeyLeftShift && action == Press {
        camera.keys := camera.keys.(shift := true);
      }
      if key == KeyLeftShift && action == Release {
        camera.keys := camera.keys.(shift := false);
      }
      if key == KeySpace && action == Press {
        camera.keys := camera.keys.(space := true);
      }
      if key == KeySpace && action == Release {
        camera.keys := camera.keys.(space := false);
      }
    }

    /** A resize only raises the flag the renderer checks after presenting. */
    method FramebufferResize()
      modifies this`framebufferResized
      ensures framebufferResized
      ensures Snapshot() == old(Snapshot()).(resized := true)
    {
      framebufferResized := true;
    }
  }

  /** A press sets exactly the pressed key's flag, a release clears exactly the released key's flag. */
  lemma KeyTransitions(keys: Keys, key: Key, k: Key)
    requires MovementKey(key) && MovementKey(k)
    ensures Flag(WithFlag(keys, key, true), key)
    ensures !Flag(WithFlag(keys, key, false), key)
    ensures k != key ==> (Flag(WithFlag(keys, key, true), k) == Flag(keys, k) &&
                          Flag(WithFlag(keys, key, false), k) == Flag(keys, k))
  {
  }

  /** Pressing and releasing the same key restores the flags. */
  lemma PressRelease(keys: Keys, key: Key)
    requires MovementKey(key) && !Flag(keys, key)
    ensures WithFlag(WithFlag(keys, key, true), key, false) == keys
  {
    FlagsDetermineKeys(WithFlag(WithFlag(keys, key, true), key, false), keys);
  }
}
