/**
 * The application: the clock tick and the main loop, which per iteration ticks the
 * clock, updates the title, dispatches the input events, moves the camera, draws a
 * frame, feeds the accumulator, spawns at most one box and then takes the physics
 * steps the accumulator holds, writing every body's pose back into its object.
 */
module App {
  import opened Wrappers
  import opened LinAlg
  import opened Physics
  import opened Models
  import opened Camera
  import opened Windowing
  import opened State
  import opened FrameProtocol
  import opened Rendering
  import opened TimeStep

  /** The window-system events one poll delivers, in order. */
  datatype InputEvent =
    | KeyInput(key: Key, action: Action)
    | ButtonInput(button: Button, action: Action)
    | CursorInput(x: real, y: real)
    | ScrollInput(yoffset: real)
    | ResizeInput

  /** What one main-loop iteration receives from outside: the clock, the events and the GPU's result codes. */
  datatype FrameInput = FrameInput(now: real, events: seq<InputEvent>, gpu: FrameGpu)

  /** Whether any of the events is a framebuffer resize. */
  predicate Resizes(es: seq<InputEvent>) {
    exists i :: 0 <= i < |es| && es[i].ResizeInput?
  }

  /** Whether the event is a pause toggle (Escape or Tab pressed). */
  predicate TogglesPause(e: InputEvent) {
    e.KeyInput? && (e.key == KeyEscape || e.key == KeyTab) && e.action == Press
  }

  /** Whether the pause flag is set after the events, starting from `paused`. */
  function PausedAfter(paused: bool, es: seq<InputEvent>): bool {
    if es == [] then paused else PausedAfter(paused, es[..|es| - 1]) != TogglesPause(es[|es| - 1])
  }

  /** The boxes the events ask for: left-button presses that arrive while unpaused. */
  function NewIntents(paused: bool, es: seq<InputEvent>): nat {
    if es == [] then 0
    else
      var front, e := es[..|es| - 1], es[|es| - 1];
      NewIntents(paused, front) +
      if !PausedAfter(paused, front) && e == ButtonInput(LeftButton, Press) then 1 else 0
  }

  /** Clicks while paused ask for nothing. */
  lemma {:induction false} PausedClicksIgnored(paused: bool, es: seq<InputEvent>)
    requires forall i :: 0 <= i < |es| ==> !TogglesPause(es[i])
    ensures PausedAfter(paused, es) == paused
    ensures paused ==> NewIntents(paused, es) == 0
  {
    if es != [] {
      PausedClicksIgnored(paused, es[..|es| - 1]);
    }
  }

  /** A batch of events asks for at most one box per event. */
  lemma {:induction false} IntentsBound(paused: bool, es: seq<InputEvent>)
    ensures NewIntents(paused, es) <= |es|
  {
    if es != [] {
      IntentsBound(paused, es[..|es| - 1]);
    }
  }

  /**
   * One event through its callback.  `pos` and `up` are the camera's position and
   * up vector, which no callback changes.
   */
  function OnEvent(c: Controls, e: InputEvent, ops: FloatOps, pos: Vec3, up: Vec3): Controls {
    match e
    case KeyInput(key, action) => KeyControls(c, key, action)
    case ButtonInput(button, action) => ClickControls(c, button, action)
    case CursorInput(x, y) => CursorControls(c, x, y, ops, pos, up)
    case ScrollInput(y) => ScrollControls(c, y, ops)
    case ResizeInput => c.(resized := true)
  }

  /** The controls after a batch of events, in order. */
  function ControlsAfter(c: Controls, es: seq<InputEvent>, ops: FloatOps, pos: Vec3, up: Vec3): Controls {
    if es == [] then c else OnEvent(ControlsAfter(c, es[..|es| - 1], ops, pos, up), es[|es| - 1], ops, pos, up)
  }

  /** One event's effect on the flags and the intent counter. */
  lemma OnEventSummary(c: Controls, e: InputEvent, ops: FloatOps, pos: Vec3, up: Vec3)
    ensures var r := OnEvent(c, e, ops, pos, up);
      && r.paused == (c.paused != TogglesPause(e))
      && r.intents == c.intents + (if !c.paused && e == ButtonInput(LeftButton, Press) then 1 else 0)
      && r.resized == (c.resized || e.ResizeInput?)
      && r.close == (c.close || e == KeyInput(KeyQ, Press))
  {
    match e
    case KeyInput(key, action) =>
    case ButtonInput(button, action) =>
    case CursorInput(x, y) =>
    case ScrollInput(y) =>
    case ResizeInput =>
  }

  /**
   * The batch's effect on the flags and the intent counter is the one the event
   * summaries give: pause is toggled once per Escape or Tab press, intents grow by
   * the unpaused left presses, the resize flag is raised by any resize and close by
   * any Q press.
   */
  lemma {:induction false} ControlsSummary(c: Controls, es: seq<InputEvent>, ops: FloatOps, pos: Vec3, up: Vec3)
    ensures var r := ControlsAfter(c, es, ops, pos, up);
      && r.paused == PausedAfter(c.paused, es)
      && r.intents == c.intents + NewIntents(c.paused, es)
      && r.resized == (c.resized || Resizes(es))
      && r.close == (c.close || exists i :: 0 <= i < |es| && es[i] == KeyInput(KeyQ, Press))
  {
    if es != [] {
      var front, e := es[..|es| - 1], es[|es| - 1];
      ControlsSummary(c, front, ops, pos, up);
      OnEventSummary(ControlsAfter(c, front, ops, pos, up), e, ops, pos, up);
      assert forall i :: 0 <= i < |front| ==> front[i] == es[i];
      assert Resizes(es) == (Resizes(front) || e.ResizeInput?);
    }
  }

  /** What one event leaves alone, by kind. */
  lemma OnEventKeeps(c: Controls, e: InputEvent, ops: FloatOps, pos: Vec3, up: Vec3)
    ensures var r := OnEvent(c, e, ops, pos, up);
      && r.znear == c.znear && r.zfar == c.zfar
      && (!e.KeyInput? ==> r.keys == c.keys && r.wireframe == c.wireframe && r.fullscreen == c.fullscreen)
      && (!e.CursorInput? ==>
            r.pitch == c.pitch && r.yaw == c.yaw && r.direction == c.direction && r.front == c.front &&
            r.matrices.view == c.matrices.view)
      && (!e.ScrollInput? ==> r.fov == c.fov && r.matrices.projection == c.matrices.projection)
  {
    match e
    case KeyInput(key, action) =>
    case ButtonInput(button, action) =>
    case CursorInput(x, y) =>
    case ScrollInput(y) =>
    case ResizeInput =>
  }

  /**
   * Events of one kind leave what the other callbacks own alone: without a key
   * event the key flags, wireframe and fullscreen stay; without a cursor event the
   * angles, direction, front vector and view stay; without a scroll event the field
   * of view and projection stay.  The clip planes never change.
   */
  lemma {:induction false} UnrelatedEventsKeep(c: Controls, es: seq<InputEvent>, ops: FloatOps, pos: Vec3, up: Vec3)
    ensures var r := ControlsAfter(c, es, ops, pos, up);
      && r.znear == c.znear && r.zfar == c.zfar
      && ((forall i :: 0 <= i < |es| ==> !es[i].KeyInput?) ==>
            r.keys == c.keys && r.wireframe == c.wireframe && r.fullscreen == c.fullscreen)
      && ((forall i :: 0 <= i < |es| ==> !es[i].CursorInput?) ==>
            r.pitch == c.pitch && r.yaw == c.yaw && r.direction == c.direction && r.front == c.front &&
            r.matrices.view == c.matrices.view)
      && ((forall i :: 0 <= i < |es| ==> !es[i].ScrollInput?) ==>
            r.fov == c.fov && r.matrices.projection == c.matrices.projection)
  {
    if es != [] {
      var front, e := es[..|es| - 1], es[|es| - 1];
      UnrelatedEventsKeep(c, front, ops, pos, up);
      OnEventKeeps(ControlsAfter(c, front, ops, pos, up), e, ops, pos, up);
      assert forall i :: 0 <= i < |front| ==> front[i] == es[i];
    }
  }

  /** The pitch limit and the field-of-view limits, once they hold, hold after any batch of events. */
  lemma {:induction false} ControlsStayInRange(c: Controls, es: seq<InputEvent>, ops: FloatOps, pos: Vec3, up: Vec3)
    requires -MaxPitch <= c.pitch <= MaxPitch && MinFov <= c.fov <= MaxFov
    ensures var r := ControlsAfter(c, es, ops, pos, up);
      -MaxPitch <= r.pitch <= MaxPitch && MinFov <= r.fov <= MaxFov
  {
    if es != [] {
      ControlsStayInRange(c, es[..|es| - 1], ops, pos, up);
    }
  }

  /**
   * The model matrix after a physics step: the body's rotation in columns 0 to 2,
   * the body's position in the translation column, then scaled by the lengths of
   * the previous matrix's first three columns.
   */
  function Reconciled(m: Mat4, pose: Pose, ops: FloatOps): (r: Mat4)
    ensures r.c3 == Point(pose.position) && TranslationOf(r) == pose.position
  {
    var rotation := ops.rotationOf(pose.orientation);
    Scale(Mat4(rotation.c0, rotation.c1, rotation.c2, Point(pose.position)),
          Vec3(ops.length(m.c0), ops.length(m.c1), ops.length(m.c2)))
  }

  /** The clock never runs backwards: each frame's time is at least the previous one's, the first at least `t0`. */
  predicate Monotone(t0: real, frames: seq<FrameInput>) {
    && (|frames| > 0 ==> t0 <= frames[0].now)
    && forall i :: 0 < i < |frames| ==> frames[i - 1].now <= frames[i].now
  }

  /**
   * The spawn throttle's effect on the box count and the object list: when `spawned`
   * one Box is appended after the old objects and counted, otherwise both stay.
   */
  predicate SpawnedOne(spawned: bool, n0: int, n1: int, objs0: seq<Model>, objs1: seq<Model>) {
    var k := if spawned then 1 else 0;
    && n1 == n0 + k && |objs1| == |objs0| + k && objs1[..|objs0|] == objs0
    && (spawned ==> objs1[|objs0|].kind == Archetype(Box))
  }

  /** The clock after the frames: the last frame's time, or `t0` before any. */
  function LastNow(t0: real, fs: seq<FrameInput>): real {
    if fs == [] then t0 else fs[|fs| - 1].now
  }

  /** The pause flag after every frame's events, starting from `p0`. */
  function PausedOver(p0: bool, fs: seq<FrameInput>): bool {
    if fs == [] then p0 else PausedAfter(PausedOver(p0, fs[..|fs| - 1]), fs[|fs| - 1].events)
  }

  /**
   * The deltas the frames feed the accumulator, from clock `t0` and pause flag `p0`:
   * each frame's delta is its time minus the previous frame's, fed only when the game
   * is running after that frame's events.
   */
  function FedOver(t0: real, p0: bool, fs: seq<FrameInput>): seq<real> {
    if fs == [] then []
    else
      var front := fs[..|fs| - 1];
      Fed(FedOver(t0, p0, front), fs[|fs| - 1].now - LastNow(t0, front), PausedOver(p0, fs))
  }

  /** Whether a batch of events holds a press of Q, the close request of the key callback. */
  ghost predicate Quits(es: seq<InputEvent>) {
    exists i :: 0 <= i < |es| && es[i] == KeyInput(KeyQ, Press)
  }

  /** Whether the window should close after the frames' events, starting from `c0`. */
  ghost predicate ClosedOver(c0: bool, fs: seq<FrameInput>) {
    if fs == [] then c0 else ClosedOver(c0, fs[..|fs| - 1]) || Quits(fs[|fs| - 1].events)
  }

  /** The close flag after the frames is raised exactly when it started raised or some frame pressed Q. */
  lemma {:induction false} ClosedOverAny(c0: bool, fs: seq<FrameInput>)
    ensures ClosedOver(c0, fs) <==> c0 || exists i :: 0 <= i < |fs| && Quits(fs[i].events)
  {
    if fs != [] {
      var front := fs[..|fs| - 1];
      ClosedOverAny(c0, front);
      if exists i :: 0 <= i < |front| && Quits(front[i].events) {
        var i :| 0 <= i < |front| && Quits(front[i].events);
        assert fs[i] == front[i];
      }
      if exists i :: 0 <= i < |fs| && Quits(fs[i].events) {
        var i :| 0 <= i < |fs| && Quits(fs[i].events);
        if i < |front| {
          assert front[i] == fs[i];
        }
      }
    }
  }

  /** No prefix of fewer than n frames has raised the close flag: the loop had no reason to stop before frame n. */
  ghost predicate OpenBefore(c0: bool, fs: seq<FrameInput>, n: nat) {
    forall k :: 0 <= k < n && k <= |fs| ==> !ClosedOver(c0, fs[..k])
  }

  /** A frame run while the flag is down extends the open prefix by one. */
  lemma OpenStep(c0: bool, fs: seq<FrameInput>, n: nat)
    requires n < |fs| && OpenBefore(c0, fs, n) && !ClosedOver(c0, fs[..n])
    ensures OpenBefore(c0, fs, n + 1)
  {
  }

  /**
   * The frame count at which the main loop stops is determined by the frames: the
   * first n with the flag raised after n frames, or all of them when it never is.
   */
  lemma StopIsFirstClose(c0: bool, fs: seq<FrameInput>, n: nat, m: nat)
    requires n <= |fs| && OpenBefore(c0, fs, n) && (n == |fs| || ClosedOver(c0, fs[..n]))
    requires m <= |fs| && OpenBefore(c0, fs, m) && (m == |fs| || ClosedOver(c0, fs[..m]))
    ensures n == m
  {
  }

  /** One more frame raises the close flag when it was raised or the frame's events press Q. */
  lemma ClosedStep(c0: bool, fs: seq<FrameInput>, k: nat)
    requires k < |fs|
    ensures ClosedOver(c0, fs[..k + 1]) == (ClosedOver(c0, fs[..k]) || Quits(fs[k].events))
  {
    assert fs[..k + 1][..k] == fs[..k];
  }

  /** One more frame: its events set the pause flag, its time the clock, and it feeds its delta unless paused. */
  lemma FrameOver(t0: real, p0: bool, fs: seq<FrameInput>, k: nat)
    requires k < |fs|
    ensures LastNow(t0, fs[..k + 1]) == fs[k].now
    ensures PausedOver(p0, fs[..k + 1]) == PausedAfter(PausedOver(p0, fs[..k]), fs[k].events)
    ensures FedOver(t0, p0, fs[..k + 1]) ==
      Fed(FedOver(t0, p0, fs[..k]), fs[k].now - LastNow(t0, fs[..k]), PausedOver(p0, fs[..k + 1]))
  {
    assert fs[..k + 1][..k] == fs[..k];
  }

  /** A monotone clock has not passed frame k's time after the first k frames. */
  lemma ClockBefore(t0: real, fs: seq<FrameInput>, k: nat)
    requires Monotone(t0, fs) && k < |fs|
    ensures LastNow(t0, fs[..k]) <= fs[k].now
  {
    if k > 0 {
      assert LastNow(t0, fs[..k]) == fs[k - 1].now;
    }
  }

  /**
   * The loop's accounting over one more frame: a frame accounted with the clock and
   * pause flag its events give carries FedOver, PausedOver and the step summary from
   * the first k frames to the first k + 1.
   */
  lemma RoundAccounted(t0: real, p0: bool, fs: seq<FrameInput>, k: nat, s0: seq<real>,
                       fed: seq<real>, acc: real, s1: seq<real>, paused: bool, fedOut: seq<real>, accOut: real, s2: seq<real>)
    requires k < |fs| && fed == FedOver(t0, p0, fs[..k]) && Summarised(fed, acc, s0, s1)
    requires paused == PausedAfter(PausedOver(p0, fs[..k]), fs[k].events)
    requires Accounted(fed, fs[k].now - LastNow(t0, fs[..k]), paused, fedOut, accOut, s1, s2)
    ensures LastNow(t0, fs[..k + 1]) == fs[k].now && PausedOver(p0, fs[..k + 1]) == paused
    ensures fedOut == FedOver(t0, p0, fs[..k + 1]) && Summarised(fedOut, accOut, s0, s2)
  {
    FrameOver(t0, p0, fs, k);
    SummarisedStep(fed, acc, fs[k].now - LastNow(t0, fs[..k]), paused, fedOut, accOut, s0, s1, s2);
  }

  /** No frame's events toggle the pause flag. */
  predicate NoToggles(fs: seq<FrameInput>) {
    forall i, j :: 0 <= i < |fs| && 0 <= j < |fs[i].events| ==> !TogglesPause(fs[i].events[j])
  }

  /** A monotone clock feeds no negative delta. */
  lemma {:induction false} FedOverNonNegative(t0: real, p0: bool, fs: seq<FrameInput>)
    requires Monotone(t0, fs)
    ensures NonNegative(FedOver(t0, p0, fs))
  {
    if fs != [] {
      var front := fs[..|fs| - 1];
      assert Monotone(t0, front);
      FedOverNonNegative(t0, p0, front);
      assert front != [] ==> LastNow(t0, front) == fs[|fs| - 2].now;
    }
  }

  /**
   * Without a pause toggle, a running game feeds the whole elapsed time and a paused
   * game feeds nothing.
   */
  lemma {:induction false} FedOverUntoggled(t0: real, p0: bool, fs: seq<FrameInput>)
    requires NoToggles(fs)
    ensures PausedOver(p0, fs) == p0
    ensures !p0 ==> Sum(FedOver(t0, p0, fs)) == LastNow(t0, fs) - t0
    ensures p0 ==> FedOver(t0, p0, fs) == []
  {
    if fs != [] {
      var front := fs[..|fs| - 1];
      assert NoToggles(front) by {
        forall i, j | 0 <= i < |front| && 0 <= j < |front[i].events| ensures !TogglesPause(front[i].events[j]) {
          assert front[i] == fs[i];
        }
      }
      FedOverUntoggled(t0, p0, front);
      var es := fs[|fs| - 1].events;
      assert forall j :: 0 <= j < |es| ==> !TogglesPause(es[j]) by {
        forall j | 0 <= j < |es| ensures !TogglesPause(es[j]) {
          assert es[j] == fs[|fs| - 1].events[j];
        }
      }
      PausedClicksIgnored(p0, es);
      if !p0 {
        var fed := FedOver(t0, p0, front);
        var d := fs[|fs| - 1].now - LastNow(t0, front);
        assert (fed + [d])[..|fed|] == fed;
      }
    }
  }

  /**
   * The headline of the loop: a game never paused over a monotone clock takes
   * floor((t - t0) * 60) physics steps by the last frame's time t.
   */
  lemma RunningSteps(t0: real, fs: seq<FrameInput>)
    requires Monotone(t0, fs) && NoToggles(fs)
    ensures TotalSteps(0.0, FedOver(t0, false, fs)) == ((LastNow(t0, fs) - t0) * 60.0).Floor
  {
    FedOverNonNegative(t0, false, fs);
    FedOverUntoggled(t0, false, fs);
    Chunking(0.0, FedOver(t0, false, fs));
  }

  /** The title the window shows before its frame rate. */
  const ApplicationName := "Vulkan Test"

  /** The loop's clock: the current time and the time since the previous tick. */
  class Application {
    const window: Window
    const render: Render
    const camera: FPSCamera
    const state: GameState
    var time: real
    var timeDelta: real
    var timeLast: real

    /** The window, the renderer and the camera share the one camera and game state. */
    ghost predicate Wired() {
      window.camera == camera && window.state == state && render.window == window && render.state == state
    }

    constructor (window: Window, render: Render, camera: FPSCamera, state: GameState)
      ensures this.window == window && this.render == render && this.camera == camera && this.state == state
      ensures timeLast == 0.0
    {
      this.window, this.render, this.camera, this.state := window, render, camera, state;
      time, timeDelta, timeLast := 0.0, 0.0, 0.0;
    }

    /** Read the clock: the delta is the time since the last tick, which becomes now. */
    method Tick(now: real)
      modifies this`time, this`timeDelta, this`timeLast
      ensures time == now && timeDelta == now - old(timeLast) && timeLast == now
    {
      time := now;
      timeDelta := time - timeLast;
      timeLast := time;
    }

    /** Hand one event to its callback. */
    method Dispatch(e: InputEvent)
      requires Wired()
      modifies window`shouldClose, window`fullscreen, window`framebufferResized, state`paused, state`wireframe,
               state`noUserIntendedBoxes, camera`keys, camera`mouse, camera`pitch, camera`yaw,
               camera`cameraDirection, camera`cameraFront, camera`matrices, camera`fov, camera`znear, camera`zfar
      ensures state.paused == (old(state.paused) != TogglesPause(e))
      ensures state.noUserIntendedBoxes ==
        old(state.noUserIntendedBoxes) + if !old(state.paused) && e == ButtonInput(LeftButton, Press) then 1 else 0
      ensures window.framebufferResized == (old(window.framebufferResized) || e.ResizeInput?)
      ensures window.shouldClose == (old(window.shouldClose) || e == KeyInput(KeyQ, Press))
      ensures window.Snapshot() == OnEvent(old(window.Snapshot()), e, camera.ops, camera.cameraPos, camera.cameraUp)
    {
      match e
      case KeyInput(key, action) => window.KeyEvent(key, action);
      case ButtonInput(button, action) => window.MouseClick(button, action);
      case CursorInput(x, y) => window.MouseMove(x, y);
      case ScrollInput(y) => window.Scroll(y);
      case ResizeInput => window.FramebufferResize();
    }

    /** glfwPollEvents: every pending event, in order, through its callback. */
    method PollEvents(es: seq<InputEvent>)
      requires Wired()
      modifies window`shouldClose, window`fullscreen, window`framebufferResized, state`paused, state`wireframe,
               state`noUserIntendedBoxes, camera`keys, camera`mouse, camera`pitch, camera`yaw,
               camera`cameraDirection, camera`cameraFront, camera`matrices, camera`fov, camera`znear, camera`zfar
      ensures state.paused == PausedAfter(old(state.paused), es)
      ensures state.noUserIntendedBoxes == old(state.noUserIntendedBoxes) + NewIntents(old(state.paused), es)
      ensures window.framebufferResized == (old(window.framebufferResized) || Resizes(es))
      ensures window.shouldClose == (old(window.shouldClose) || exists i :: 0 <= i < |es| && es[i] == KeyInput(KeyQ, Press))
      ensures window.Snapshot() == ControlsAfter(old(window.Snapshot()), es, camera.ops, camera.cameraPos, camera.cameraUp)
    {
      var k := 0;
      while k < |es|
        invariant 0 <= k <= |es|
        invariant window.Snapshot() == ControlsAfter(old(window.Snapshot()), es[..k], camera.ops, camera.cameraPos, camera.cameraUp)
      {
        Dispatch(es[k]);
        assert es[..k + 1][..k] == es[..k];
        k := k + 1;
      }
      assert es[..k] == es;
      ControlsSummary(old(window.Snapshot()), es, camera.ops, camera.cameraPos, camera.cameraUp);
    }

    /** The pose of the body the object owns. */
    ghost function BodyPose(o: Model): Pose
      requires o.physicsBody.Some? && o.physicsBody.value < |render.world.bodies|
      reads o, render.world
    {
      render.world.bodies[o.physicsBody.value].pose
    }

    /** The object's matrix and position follow its body's position. */
    ghost predicate Synced(o: Model)
      requires o.physicsBody.Some? && o.physicsBody.value < |render.world.bodies|
      reads o, render.world
    {
      TranslationOf(o.model) == BodyPose(o).position && o.position == BodyPose(o).position
    }

    /** The object has been written back from its matrix m0 when done, and still has m0 otherwise. */
    ghost predicate Written(o: Model, m0: Mat4, done: bool)
      requires o.physicsBody.Some? && o.physicsBody.value < |render.world.bodies|
      reads o, render.world
    {
      if done then Synced(o) && o.model == Reconciled(m0, BodyPose(o), camera.ops) else o.model == m0
    }

    /**
     * The write-back after a physics step: every object, static ones included, takes
     * its body's rotation and position, keeping its scale; nothing else changes.
     */
    method Reconcile()
      requires render.Valid()
      modifies render.objects
      ensures render.Valid()
      ensures forall i :: 0 <= i < |render.objects| ==> Synced(render.objects[i])
      ensures forall i :: 0 <= i < |render.objects| ==>
        render.objects[i].model == Reconciled(old(render.objects[i].model), BodyPose(render.objects[i]), camera.ops)
      ensures forall i :: 0 <= i < |render.objects| ==>
        render.objects[i].Mesh() == old(render.objects[i].Mesh()) && render.objects[i].scale == old(render.objects[i].scale)
    {
      var objs := render.objects;
      var i := 0;
      while i < |objs|
        invariant 0 <= i <= |objs| && render.Valid()
        invariant forall j :: 0 <= j < |objs| ==>
          && Written(objs[j], old(objs[j].model), j < i)
          && objs[j].Mesh() == old(objs[j].Mesh()) && objs[j].scale == old(objs[j].scale)
      {
        var o := objs[i];
        var pose := render.world.bodies[o.physicsBody.value].pose;
        o.SetModelMatrix(Reconciled(o.GetModelMatrix(), pose, camera.ops));
        i := i + 1;
      }
    }

    /**
     * The spawn throttle: while fewer boxes exist than were asked for, one box of the
     * configured size is added in front of the camera, launched along the camera
     * direction with the configured speed and mass, and counted.
     */
    method Spawn() returns (r: Outcome)
      requires Wired() && render.Valid() && state.Throttled()
      modifies render`objects, render`loadedModelClasses, render.statics`fields, render.world`bodies, render.buffers,
               state`noBoxes
      ensures render.Valid() && state.Throttled() && old(state.noBoxes) <= state.noBoxes
      ensures old(state.noBoxes) >= state.noUserIntendedBoxes ==>
        && r == Pass && state.noBoxes == old(state.noBoxes)
        && render.objects == old(render.objects) && render.world.bodies == old(render.world.bodies)
      ensures old(state.noBoxes) < state.noUserIntendedBoxes && r.Pass? ==>
        var position := camera.GetSpawnPositionInFront(1.0, -1.0, -0.2);
        var size := Vec3(state.newObjectScale, state.newObjectScale, state.newObjectScale);
        && state.noBoxes == old(state.noBoxes) + 1
        && |render.objects| == |old(render.objects)| + 1 && render.objects[..|old(render.objects)|] == old(render.objects)
        && render.objects[|old(render.objects)|].kind == Archetype(Box)
        && render.objects[|old(render.objects)|].model == InitialMatrix(size, true, position)
        && render.world.bodies == old(render.world.bodies) +
             [InitialBody(position, Dynamic, size).(linearVelocity := Times(camera.cameraDirection, state.newObjectVelocity),
                                                    mass := Some(state.newObjectMass))]
      ensures r.Fail? ==> state.noBoxes == old(state.noBoxes) && render.objects == old(render.objects)
      ensures forall i :: |old(render.objects)| <= i < |render.objects| ==> fresh(render.objects[i])
      ensures forall i :: 0 <= i < |render.objects| ==> render.objects[i] in old(render.objects) || fresh(render.objects[i])
    {
      r := Pass;
      if state.noBoxes < state.noUserIntendedBoxes {
        var spawnDistance := 1.0;
        var position := camera.GetSpawnPositionInFront(spawnDistance, -1.0, -0.2);
        var size := Vec3(state.newObjectScale, state.newObjectScale, state.newObjectScale);
        var box;
        box, r := render.AddModel(Box, position, size, Dynamic);
        if r.Fail? {
          return;
        }
        var velocity := Times(camera.GetCameraDirection(), state.newObjectVelocity);
        render.world.SetLinearVelocity(box.physicsBody.value, velocity);
        render.world.SetMass(box.physicsBody.value, state.newObjectMass);
        assert render.world.bodies == old(render.world.bodies) +
          [InitialBody(position, Dynamic, size).(linearVelocity := velocity, mass := Some(state.newObjectMass))];
        state.noBoxes := state.noBoxes + 1;
      }
    }

    /**
     * The physics catch-up: while a whole step is accumulated, step the world once by
     * `Step`, write the poses back and take the step off the accumulator.
     */
    method CatchUp(acc: real) returns (rest: real)
      requires render.Valid()
      modifies render.world`bodies, render.world`steps, render.objects
      ensures render.Valid()
      ensures rest == Settle(acc)
      ensures render.world.steps == old(render.world.steps) + Steps(StepsFor(acc))
      ensures StepsFor(acc) > 0 ==> forall i :: 0 <= i < |render.objects| ==> Synced(render.objects[i])
      ensures StepsFor(acc) == 0 ==>
        render.world.bodies == old(render.world.bodies) &&
        forall i :: 0 <= i < |render.objects| ==> render.objects[i].model == old(render.objects[i].model)
    {
      rest := acc;
      ghost var n: nat := 0;
      while rest >= TimeStep.Step
        invariant rest == acc - n as real * TimeStep.Step && n + StepsFor(rest) == StepsFor(acc)
        invariant render.Valid()
        invariant render.world.steps == old(render.world.steps) + Steps(n)
        invariant n > 0 ==> forall i :: 0 <= i < |render.objects| ==> Synced(render.objects[i])
        invariant n == 0 ==> render.world.bodies == old(render.world.bodies)
        invariant n == 0 ==> forall i :: 0 <= i < |render.objects| ==> render.objects[i].model == old(render.objects[i].model)
        decreases StepsFor(rest)
      {
        render.world.Update(TimeStep.Step);
        Reconcile();
        assert old(render.world.steps) + Steps(n) + [TimeStep.Step] == old(render.world.steps) + Steps(n + 1);
        rest := rest - TimeStep.Step;
        n := n + 1;
      }
    }

    /** Before the frame: tick, title, events and camera. */
    method Prepare(input: FrameInput)
      requires Wired() && render.Valid()
      modifies this`time, this`timeDelta, this`timeLast, window, state`paused, state`wireframe,
               state`noUserIntendedBoxes, camera
      ensures time == input.now && timeDelta == input.now - old(timeLast) && timeLast == input.now
      ensures state.paused == PausedAfter(old(state.paused), input.events)
      ensures state.noUserIntendedBoxes == old(state.noUserIntendedBoxes) + NewIntents(old(state.paused), input.events)
      ensures window.framebufferResized == (old(window.framebufferResized) || Resizes(input.events))
      ensures render.Valid()
      ensures window.shouldClose == (old(window.shouldClose) || exists i :: 0 <= i < |input.events| && input.events[i] == KeyInput(KeyQ, Press))
      ensures camera.cameraUp == old(camera.cameraUp)
      ensures var c := ControlsAfter(old(window.Snapshot()), input.events, camera.ops, old(camera.cameraPos), camera.cameraUp);
        window.Snapshot() == c.(matrices := c.matrices.(view := camera.matrices.view))
      ensures camera.cameraPos == Add(old(camera.cameraPos), KeyMotion(camera.ops, camera.keys, camera.cameraFront, camera.cameraUp,
                                                                 state.movementSpeed, timeDelta))
      ensures camera.ViewCurrent()
    {
      Tick(input.now);
      var _ := window.UpdateTitle(ApplicationName, time);
      ghost var before := window.Snapshot();
      assert before == old(window.Snapshot());
      PollEvents(input.events);
      ghost var c := window.Snapshot();
      assert c == ControlsAfter(before, input.events, camera.ops, old(camera.cameraPos), camera.cameraUp);
      assert camera.keys == c.keys && camera.cameraFront == c.front && camera.cameraPos == old(camera.cameraPos);
      camera.UpdateCameraPos(timeDelta, state.movementSpeed);
      assert window.Snapshot() == c.(matrices := c.matrices.(view := camera.matrices.view));
    }

    /** The first half of an iteration: everything up to and including the frame drawn. */
    method Present(input: FrameInput, ghost draws: seq<Draw>) returns (r: Outcome)
      requires Wired() && render.Valid() && render.Ready() && state.Throttled()
      requires draws == DrawList(render.objects, render.statics, render.currentFrame, render.textureCount)
      modifies this`time, this`timeDelta, this`timeLast, window, state`paused, state`wireframe,
               state`noUserIntendedBoxes, camera, render`trace, render`currentFrame
      ensures time == input.now && timeDelta == input.now - old(timeLast) && timeLast == input.now
      ensures state.paused == PausedAfter(old(state.paused), input.events)
      ensures state.noUserIntendedBoxes == old(state.noUserIntendedBoxes) + NewIntents(old(state.paused), input.events)
      ensures render.trace == old(render.trace) +
        FrameEvents(old(render.currentFrame), input.gpu, Ubo(Identity, camera.matrices.view, camera.matrices.projection),
                    draws, state.paused, old(window.framebufferResized) || Resizes(input.events))
      ensures window.shouldClose == (old(window.shouldClose) || Quits(input.events))
      ensures r.Pass? ==> render.Ready()
      ensures render.Valid() && state.Throttled() && state.noBoxes == old(state.noBoxes)
    {
      Prepare(input);
      assert DrawList(render.objects, render.statics, render.currentFrame, render.textureCount) == draws;
      r := render.DrawFrame(camera.matrices, input.gpu, draws);
    }

    /**
     * The second half of an iteration: when the game runs, the tick's delta is fed to
     * the accumulator; then the spawn throttle and the physics catch-up.  `fed` is the
     * sequence of deltas fed so far, which the accumulator summarises.
     */
    method Advance(acc: real, ghost fed: seq<real>) returns (r: Outcome, accOut: real, ghost fedOut: seq<real>)
      requires Wired() && render.Valid() && state.Throttled()
      requires 0.0 <= timeDelta && NonNegative(fed) && acc == Final(0.0, fed)
      modifies render`objects, render`loadedModelClasses, render.statics`fields, render.world`bodies, render.world`steps,
               render.buffers, render.objects, state`noBoxes
      ensures render.Valid() && state.Throttled() && old(state.noBoxes) <= state.noBoxes <= old(state.noBoxes) + 1
      ensures r.Pass? ==> Accounted(fed, timeDelta, state.paused, fedOut, accOut, old(render.world.steps), render.world.steps)
      ensures r.Pass? ==> SpawnedOne(old(state.noBoxes) < state.noUserIntendedBoxes, old(state.noBoxes), state.noBoxes,
                                     old(render.objects), render.objects)
      ensures r.Fail? ==> render.world.steps == old(render.world.steps)
      ensures forall i :: 0 <= i < |render.objects| ==> render.objects[i] in old(render.objects) || fresh(render.objects[i])
    {
      accOut := acc;
      if !state.paused {
        accOut := accOut + timeDelta;
      }
      fedOut := Fed(fed, timeDelta, state.paused);
      FeedStep(fed, timeDelta, state.paused);
      r, accOut := SpawnAndStep(accOut);
    }

    /** The spawn throttle, then the physics catch-up from accumulator `acc`. */
    method SpawnAndStep(acc: real) returns (r: Outcome, rest: real)
      requires Wired() && render.Valid() && state.Throttled()
      modifies render`objects, render`loadedModelClasses, render.statics`fields, render.world`bodies, render.world`steps,
               render.buffers, render.objects, state`noBoxes
      ensures render.Valid() && state.Throttled() && old(state.noBoxes) <= state.noBoxes <= old(state.noBoxes) + 1
      ensures r.Pass? ==> rest == Settle(acc) && render.world.steps == old(render.world.steps) + Steps(StepsFor(acc))
      ensures r.Pass? ==> SpawnedOne(old(state.noBoxes) < state.noUserIntendedBoxes, old(state.noBoxes), state.noBoxes,
                                     old(render.objects), render.objects)
      ensures r.Pass? && StepsFor(acc) > 0 ==> forall i :: 0 <= i < |render.objects| ==> Synced(render.objects[i])
      ensures r.Fail? ==> render.world.steps == old(render.world.steps)
      ensures forall i :: 0 <= i < |render.objects| ==> render.objects[i] in old(render.objects) || fresh(render.objects[i])
    {
      rest := acc;
      r := Spawn();
      if r.Fail? {
        return;
      }
      rest := CatchUp(acc);
    }

    /** One iteration of the main loop: the frame is drawn before the accumulator, the spawn and the steps. */
    method Iterate(input: FrameInput, acc: real, ghost fed: seq<real>) returns (r: Outcome, accOut: real, ghost fedOut: seq<real>)
      requires Wired() && render.Valid() && render.Ready() && state.Throttled()
      requires timeLast <= input.now
      requires NonNegative(fed) && acc == Final(0.0, fed)
      modifies this`time, this`timeDelta, this`timeLast, window, state`paused, state`wireframe,
               state`noUserIntendedBoxes, state`noBoxes, camera, render`trace, render`currentFrame, render`objects, render`loadedModelClasses,
               render.statics`fields, render.world`bodies, render.world`steps, render.buffers, render.objects
      ensures timeLast == input.now
      ensures render.Valid() && state.Throttled() && old(state.noBoxes) <= state.noBoxes <= old(state.noBoxes) + 1
      ensures r.Pass? ==> render.Ready()
      ensures timeDelta == input.now - old(timeLast)
      ensures state.paused == PausedAfter(old(state.paused), input.events)
      ensures window.shouldClose == (old(window.shouldClose) || Quits(input.events))
      ensures state.noUserIntendedBoxes == old(state.noUserIntendedBoxes) + NewIntents(old(state.paused), input.events)
      ensures r.Pass? ==> SpawnedOne(old(state.noBoxes) < state.noUserIntendedBoxes, old(state.noBoxes), state.noBoxes,
                                     old(render.objects), render.objects)
      ensures r.Pass? ==> Accounted(fed, timeDelta, state.paused, fedOut, accOut, old(render.world.steps), render.world.steps)
      ensures r.Fail? ==> render.world.steps == old(render.world.steps)
      ensures forall i :: 0 <= i < |render.objects| ==> render.objects[i] in old(render.objects) || fresh(render.objects[i])
    {
      r := Present(input, DrawList(render.objects, render.statics, render.currentFrame, render.textureCount));
      accOut, fedOut := acc, fed;
      if r.Fail? {
        return;
      }
      r, accOut, fedOut := Advance(acc, fed);
    }

    /**
     * Frame `k` of the main loop run by Iterate: when the clock, the pause flag and the
     * fed deltas are those of the first k frames from `t0` and `p0`, and the step log
     * grew from `s0` by their steps, then after the frame they are those of the first
     * k + 1 frames.
     */
    method Round(frames: seq<FrameInput>, k: nat, acc: real, ghost fed: seq<real>, ghost t0: real, ghost p0: bool,
                 ghost c0: bool, ghost s0: seq<real>) returns (r: Outcome, accOut: real, ghost fedOut: seq<real>)
      requires Wired() && render.Valid() && render.Ready() && state.Throttled()
      requires k < |frames| && Monotone(t0, frames)
      requires timeLast == LastNow(t0, frames[..k]) && state.paused == PausedOver(p0, frames[..k])
      requires window.shouldClose == ClosedOver(c0, frames[..k])
      requires fed == FedOver(t0, p0, frames[..k]) && Summarised(fed, acc, s0, render.world.steps)
      modifies this`time, this`timeDelta, this`timeLast, window, state`paused, state`wireframe,
               state`noUserIntendedBoxes, state`noBoxes, camera, render`trace, render`currentFrame, render`objects, render`loadedModelClasses,
               render.statics`fields, render.world`bodies, render.world`steps, render.buffers, render.objects
      ensures render.Valid() && state.Throttled() && old(state.noBoxes) <= state.noBoxes
      ensures window.shouldClose == ClosedOver(c0, frames[..k + 1])
      ensures r.Pass? ==> render.Ready()
      ensures r.Pass? ==>
        && timeLast == LastNow(t0, frames[..k + 1]) && state.paused == PausedOver(p0, frames[..k + 1])
        && fedOut == FedOver(t0, p0, frames[..k + 1]) && Summarised(fedOut, accOut, s0, render.world.steps)
      ensures r.Fail? ==> render.world.steps == old(render.world.steps)
      ensures forall i :: 0 <= i < |render.objects| ==> render.objects[i] in old(render.objects) || fresh(render.objects[i])
    {
      ClockBefore(t0, frames, k);
      ghost var steps0 := render.world.steps;
      ClosedStep(c0, frames, k);
      r, accOut, fedOut := Iterate(frames[k], acc, fed);
      if r.Pass? {
        RoundAccounted(t0, p0, frames, k, s0, fed, acc, steps0, state.paused, fedOut, accOut, render.world.steps);
      }
    }

    /**
     * The main loop: the projection is set once, then iterations run over the frames
     * the window system delivers until the window should close: it runs no frame
     * after the first one whose events raise the close flag.  The fed deltas
     * `fed` are those FedOver the frames run: each frame's delta, unless the game is
     * paused after its events.  However that time was split into frames, the loop
     * took floor(sum / Step) physics steps, each of length `Step`.
     */
    method MainLoop(aspect: real, frames: seq<FrameInput>) returns (r: Outcome, ghost fed: seq<real>, ran: nat)
      requires Wired() && render.Valid() && render.Ready() && state.Throttled()
      requires Monotone(timeLast, frames)
      modifies this`time, this`timeDelta, this`timeLast, window, state`paused, state`wireframe,
               state`noUserIntendedBoxes, state`noBoxes, camera, render`trace, render`currentFrame, render`objects, render`loadedModelClasses,
               render.statics`fields, render.world`bodies, render.world`steps, render.buffers, render.objects
      ensures ran <= |frames| && (r.Pass? ==> ran == |frames| || window.shouldClose)
      ensures OpenBefore(old(window.shouldClose), frames, ran)
      ensures r.Pass? ==> window.shouldClose == ClosedOver(old(window.shouldClose), frames[..ran])
      ensures render.Valid() && state.Throttled() && old(state.noBoxes) <= state.noBoxes
      ensures r.Pass? ==> render.Ready()
      ensures fed == FedOver(old(timeLast), old(state.paused), frames[..ran])
      ensures r.Pass? ==> timeLast == LastNow(old(timeLast), frames[..ran]) &&
                          state.paused == PausedOver(old(state.paused), frames[..ran])
      ensures NonNegative(fed) && render.world.steps == old(render.world.steps) + Steps(TotalSteps(0.0, fed))
      ensures TotalSteps(0.0, fed) == (Sum(fed) * 60.0).Floor
    {
      camera.SetPerspective(60.0, aspect, 0.05, 256.0);
      var acc := 0.0;
      fed, ran, r := [], 0, Pass;
      while ran < |frames| && !window.shouldClose
        invariant ran <= |frames|
        invariant render.Valid() && render.Ready() && state.Throttled() && old(state.noBoxes) <= state.noBoxes
        invariant timeLast == LastNow(old(timeLast), frames[..ran])
        invariant state.paused == PausedOver(old(state.paused), frames[..ran])
        invariant fed == FedOver(old(timeLast), old(state.paused), frames[..ran])
        invariant window.shouldClose == ClosedOver(old(window.shouldClose), frames[..ran])
        invariant OpenBefore(old(window.shouldClose), frames, ran)
        invariant Summarised(fed, acc, old(render.world.steps), render.world.steps)
        invariant forall i :: 0 <= i < |render.objects| ==> render.objects[i] in old(render.objects) || fresh(render.objects[i])
        decreases |frames| - ran
      {
        ghost var fed0 := fed;
        OpenStep(old(window.shouldClose), frames, ran);
        r, acc, fed := Round(frames, ran, acc, fed, old(timeLast), old(state.paused), old(window.shouldClose),
                                old(render.world.steps));
        if r.Fail? {
          fed := fed0;
          Chunking(0.0, fed);
          return;
        }
        ran := ran + 1;
      }
      Chunking(0.0, fed);
    }
  }
}