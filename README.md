# Vulkan-Demo sandbox core, modelled in Dafny

Vulkan-Demo is a small C++ physics sandbox. A first-person camera walks around a
scene of boxes: a static floor and four staggered brick walls. A left click spawns
a box that flies along the view direction, and a fixed-timestep physics world moves
every body. Each frame is drawn through a ring of two frame slots.

This project models the behaviour of that program's core, with floats as exact
`real`s and the GPU, physics and windowing libraries as opaque inputs.

- **The main loop** (`App`). Each iteration runs tick, title, events, camera, draw,
  accumulate, spawn and physics steps, in that order. The model covers:
  - the fixed-timestep accumulator, which skips paused time;
  - the spawn throttle, driven by the two box counters;
  - the write-back that copies every body's pose into its object's matrix after
    each physics step.
- **The accumulator arithmetic** (`TimeStep`). One pass takes `floor(acc * 60)`
  steps and leaves less than one step behind. Over any number of frames, the steps
  taken are `floor(60 * total time fed)`, however the time is split into frames.
- **The frame-slot protocol** (`FrameProtocol`, `Rendering.Render.DrawFrame`). Each
  Vulkan call of `drawFrame` that the fence protocol depends on (fence wait, acquire,
  uniform write, fence reset, command-buffer reset, recording, submit, present and
  swap-chain recreation) is an event appended to a trace. A failed begin or submit
  adds no event of its own, and recording is one event, not a begin and an end. The
  result codes of acquire, submit and present are inputs. A fence monitor gives the
  trace its meaning. The model proves that:
  - every frame waits only on a fence that will signal;
  - a completed frame resets a fence only before a submission on its slot (a frame
    that fails at its begin, end or submit has already reset its fence and leaves it
    unsignalled, which is harmless only because the failure ends the main loop);
  - a frame submits only with an unsignalled fence;
  - an out-of-date acquire returns early without advancing the slot.
- **The draw list** (`Rendering.DrawList`). There is one indexed draw per object,
  in object order. Each draw binds the class's texture slot, offset by the texture
  count on slot 1, and draws the class's range of the shared buffers.
- **The scene registry** (`Rendering.Render.AddModel`, `CreateScene`).
  - Each archetype class's mesh and texture are loaded once, keyed by its run-time
    class name, and the mesh is appended to the shared vertex and index buffers.
  - New objects are appended to the object list.
  - The scene generator lays out 981 boxes.
- **The model record and archetypes** (`Models`).
  - The initial translate-then-scale matrix, and the position field that mirrors
    the translation column.
  - The texture-path override.
  - The class-static counters, texture slots and draw ranges, and the base class's
    sentinel getters.
- **The vertex-deduplicating index builder** (`Mesh`, `Models.Model.LoadModelPath`).
- **The input callbacks and the camera** (`Windowing`, `Camera`).
  - The pause, wireframe, fullscreen and close flags.
  - The movement-key flags, the mouse record and the spawn-intent counter.
  - The title's frame counter.
  - The FOV and pitch clamps, and the key-driven camera motion.

C++ classes whose fields change in place are Dafny classes: `Application`,
`Render`, `Model`, `FPSCamera`, `Window`, `GameState` and `World`. The physics solver,
the OBJ reader, texture creation and the floating-point numerics (normalise, length,
quaternion to matrix, sine, cosine, perspective, look-at) are parameters of the model.

## Model

The specification functions that the contracts below are stated in (`Mesh.Dedup`, `Rendering.DrawOf`, `TimeStep.StepsFor`, `App.OnEvent`, `Camera.KeyMotion` and the like) are reference definitions of the source's behaviour; they have no row of their own, because the rows of the members whose contracts use them cite the same lines.

| member | source | states |
|---|---|---|
| App.Application.constructor | src/Application.hpp:22-29 | the clock starts with `timeLast` 0 and the parts are the ones given |
| App.Application.Tick | src/Application.cpp:15-19 | the delta is `now - timeLast` measured before the tick, then `timeLast` and `time` become `now` |
| App.Application.Dispatch | src/Window.cpp:14-19 | each event reaches its callback: the whole new input state (flags, intents, key flags, mouse record, angles, direction, front, fov and both matrices) is `OnEvent` of the old one; Escape/Tab press toggles pause, an unpaused left press adds one intent, a resize raises the flag, Q press requests close |
| App.Application.PollEvents | src/Application.cpp:43 | the whole input state after a batch is `ControlsAfter` the events in order; pause is the toggle count's parity applied to the old flag, intents grew by the unpaused left presses, the resize flag is set iff some event was a resize, close iff some event was a Q press |
| App.OnEventSummary | src/Window.cpp:44-182 | one event's callback toggles pause exactly on Escape/Tab press, adds an intent exactly on an unpaused left press, raises the resize flag exactly on a resize and requests close exactly on a Q press |
| App.ControlsSummary | src/Window.cpp:44-182 | over a batch, the callbacks' flags and intent counter are the pause parity, the unpaused left presses, any resize and any Q press |
| App.OnEventKeeps | src/Window.cpp:44-182 | each callback leaves what the others own alone: only key events touch the key flags, wireframe and fullscreen; only cursor events the angles, direction, front and view; only scroll events the fov and projection; none the clip planes |
| App.UnrelatedEventsKeep | src/Window.cpp:44-182 | a batch without key, cursor or scroll events leaves the state that kind of callback owns unchanged, and the clip planes always |
| App.ControlsStayInRange | src/Window.cpp:57-91 | pitch within `[-89, 89]` and fov within `[10, 145]` stay so after any batch of events |
| App.PausedClicksIgnored | src/Window.cpp:44-55 | without a pause toggle the pause flag stays, and while paused no click asks for a box |
| App.IntentsBound | src/Window.cpp:52-54 | a batch of events asks for at most one box per event |
| App.Reconciled | src/Application.cpp:85-115 | the written-back matrix has the body's position as its translation column `(p, 1)` |
| App.Application.Reconcile | src/Application.cpp:83-118 | after the write-back every object, static ones included, has translation column and `position` equal to its body's position, its matrix is the body's rotation re-scaled by the old column lengths, and its mesh and scale are untouched |
| App.Application.Spawn | src/Application.cpp:55-73 | with no outstanding intent nothing is spawned; otherwise exactly one Box is appended at the spawn point with uniform scale `newObjectScale`, velocity `cameraDirection * newObjectVelocity` and mass `newObjectMass`, and `noBoxes` rises by 1; `noBoxes <= noUserIntendedBoxes` is kept and `noBoxes` never decreases |
| App.Application.CatchUp | src/Application.cpp:77-122 | the catch-up loop takes `StepsFor(acc)` steps of exactly `Step`, leaves `Settle(acc)`, and after at least one step every object is synced with its body; with no step nothing moves |
| App.Application.Prepare | src/Application.cpp:41-44 | tick, title, event poll and camera update: the input state is `ControlsAfter` the events except the view, which the camera update rebuilds; the camera moves by `KeyMotion` of the keys held after the poll at `movementSpeed * timeDelta`; the view is current; pause, intent, resize and close are as the events give them |
| App.Application.Present | src/Application.cpp:41-48 | the frame drawn uses the camera matrices after this iteration's camera update and the object list from before this iteration's spawn and steps; the trace grows by exactly that frame's events |
| App.Application.Advance | src/Application.cpp:50-122 | the delta is fed to the accumulator only while running; the step log grows by exactly the steps the fed deltas account for; a failed spawn takes no step |
| App.Application.SpawnAndStep | src/Application.cpp:55-122 | with an intent outstanding one Box is appended after the old objects and counted, otherwise objects and count stay; then `StepsFor(acc)` steps are taken and, after at least one, every object, a box spawned now included, is synced with its body; `noBoxes` rises by at most 1 |
| App.Application.Iterate | src/Application.cpp:41-122 | one iteration keeps the throttle and the frame ring's invariants; pause is `PausedAfter` the frame's events and intents grew by their unpaused left presses; at most one box is spawned, exactly when an intent is outstanding after the events; the steps taken are accounted with that pause flag |
| App.Application.Round | src/Application.cpp:40-123 | one frame carries the loop's clock, pause flag and fed deltas from those of the first k frames to those of the first k + 1, keeping the step-log accounting |
| App.Application.MainLoop | src/Application.cpp:21-123 | over the frames delivered, the loop runs frames while the close flag is down and, when it passes, stops at the first frame count after which the flag is `ClosedOver` the frames (or at the end); the fed deltas are `FedOver` the frames run (each frame's delta unless paused after its events), the clock and pause flag are those after the frames; the steps taken are `floor(60 * sum of fed deltas)`, each of length `Step` |
| App.ClockBefore | src/Application.cpp:15-19 | with a clock that never runs backwards, the time after k frames is at most frame k's, so each tick's delta is non-negative |
| App.RoundAccounted | src/Application.cpp:40-123 | an accounted frame carries the fed deltas, the pause flag and the step summary of the first k frames to the first k + 1 |
| App.ClosedOverAny | src/Window.cpp:95-97 | after the frames the close flag is raised exactly when it started raised or some frame's events press Q |
| App.ClosedStep | src/Window.cpp:95-97 | one more frame raises the close flag when it was raised or that frame's events press Q |
| App.StopIsFirstClose | src/Application.cpp:40 | the loop's stopping frame count is unique for the frames: the first count after which the close flag is raised, or all the frames |
| App.FrameOver | src/Application.cpp:40-53 | one more frame sets the clock to its time and the pause flag by its events, and feeds its delta unless paused |
| App.FedOverNonNegative | src/Application.cpp:15-19 | with a clock that never runs backwards, every fed delta is non-negative |
| App.FedOverUntoggled | src/Application.cpp:50-53 | without a pause toggle the flag stays; a running game feeds exactly the elapsed time and a paused one feeds nothing |
| App.RunningSteps | src/Application.cpp:37-122 | a game never paused takes `floor(60 * (t - t0))` physics steps by clock time `t` |
| TimeStep.StepsForFloor | src/Application.cpp:77-122 | from a non-negative accumulator the catch-up takes `floor(acc * 60)` steps and leaves a remainder in `[0, Step)` |
| TimeStep.SettleBelowStep | src/Application.cpp:77 | an accumulator below one step takes no step and is kept |
| TimeStep.Chunking | src/Application.cpp:37-122 | over any frames, the steps taken are `floor((acc0 + total) * 60)` and the accumulator holds exactly the rest, below one step |
| TimeStep.ChunkingIndependent | src/Application.cpp:37-122 | two splittings of the same total time into frames take the same number of steps |
| TimeStep.FeedStep | src/Application.cpp:50-53 | a paused frame feeds nothing and takes no step; a running frame feeds its delta |
| TimeStep.SummarisedStep | src/Application.cpp:40-123 | the loop's accounting (fed deltas, accumulator, step log) is kept by every accounted iteration |
| Windowing.WithFlag | src/Window.cpp:138-175 | setting one movement key's flag changes that flag only |
| Windowing.KeyTransitions | src/Window.cpp:138-175 | a press sets exactly the pressed key's flag and a release clears exactly the released key's flag |
| Windowing.PressRelease | src/Window.cpp:138-143 | pressing and then releasing a key that was up restores all six flags |
| Windowing.Decimal | src/Window.cpp:28 | the frame count's text is a non-empty string of decimal digits |
| Windowing.DecimalValue | src/Window.cpp:28 | the digits denote the count, as `std::to_string` prints it, with no leading zero except for 0 |
| Windowing.Window.constructor | src/Window.hpp:18-35 | not resized, windowed, frame count 0, last update 0 |
| Windowing.Window.UpdateTitle | src/Window.cpp:24-42 | every call counts one frame; once a second has passed since `lastUpdate`, the title with the frames counted so far and the display mode is shown, the count restarts (so it is 1 after this frame) and `lastUpdate` becomes now; otherwise nothing is shown |
| Windowing.Window.MouseClick | src/Window.cpp:44-55 | an unpaused left press adds exactly one intent; anything else, and everything while paused, changes nothing |
| Windowing.Window.MouseMove | src/Window.cpp:57-85 | ignored while paused; otherwise offsets are `(pos - last) * sensitivity` with `last` snapped to the cursor on the first event, `firstMouse` cleared only when the old last position was non-zero on both axes, then `last := pos`; pitch is clamped, yaw grows, the direction is rebuilt from the new angles, the front is its normalisation and the view is rebuilt |
| Windowing.Window.TrackCursor | src/Window.cpp:66-82 | the mouse record becomes `MouseAfter` the cursor position: the first event snaps the last position to the cursor, the offsets are the scaled motion, and the cursor becomes the last position |
| Windowing.Window.Scroll | src/Window.cpp:87-91 | scrolling, paused or not, changes the FOV by the offset, clamped, and rebuilds the projection |
| Windowing.Window.KeyEvent | src/Window.cpp:93-176 | Q press requests close; Escape/Tab press toggles pause and unpausing recentres the last mouse position at `(WIDTH/2, HEIGHT/2)`; X press toggles wireframe; F11 press toggles fullscreen; movement keys set or clear their flag |
| Windowing.Window.KeyFlags | src/Window.cpp:95-137 | the flag part of the key callback: Q, Escape/Tab (with recentring on unpause), X and F11; the movement flags stay |
| Windowing.Window.PauseKey | src/Window.cpp:101-114 | Escape or Tab pressed toggles pause, and unpausing sets the last mouse position to `(WIDTH/2, HEIGHT/2)`; anything else changes neither |
| Windowing.Window.DisplayKeys | src/Window.cpp:115-134 | X pressed toggles wireframe and F11 pressed toggles fullscreen; anything else changes neither |
| Windowing.Window.MovementKeys | src/Window.cpp:138-175 | press/release of W, S, A, D, LeftShift, Space sets/clears its flag; other key/action pairs change no flag |
| Windowing.Window.FramebufferResize | src/Window.cpp:178-182 | the resize callback only raises `framebufferResized`, regardless of pause |
| Camera.Clamp | src/FPSCamera.hpp:148-152 | the result lies in `[lo, hi]`, equals the input when it already does, and is the nearer bound otherwise |
| Camera.ClampIdempotent | src/FPSCamera.hpp:145-152 | clamping an already clamped value changes nothing |
| Camera.FlipY | src/FPSCamera.hpp:81-82 | only the y entry of column 1 is negated |
| Camera.FlipYInvolution | src/FPSCamera.hpp:82 | flipping twice restores the projection |
| Camera.Axis | src/FPSCamera.hpp:89-110 | a pair of opposite keys contributes +1, -1, or 0 when both or neither are held |
| Camera.NoKeysNoMovement | src/FPSCamera.hpp:86-110 | with no key held the camera does not move |
| Camera.ForwardBackCancel | src/FPSCamera.hpp:89-94 | forward and back held together cancel |
| Camera.FPSCamera.constructor | src/FPSCamera.hpp:11-71 | the member initialisers (pitch 0, yaw -90, position (0,2,3), front (0,0,-1), up (0,1,0), mouse and keys defaults) and a view matrix that is current |
| Camera.FPSCamera.GetCameraTarget | src/FPSCamera.hpp:39 | the target is one front vector ahead of the position |
| Camera.FPSCamera.GetCameraDirection | src/FPSCamera.hpp:40 | the stored direction, which the spawn velocity uses |
| Camera.FPSCamera.SetPerspective | src/FPSCamera.hpp:73-83 | fov, znear and zfar are recorded and the projection is the y-flipped perspective; the view is kept |
| Camera.FPSCamera.UpdateCameraPos | src/FPSCamera.hpp:86-113 | the camera moves by `movementSpeed * timeDelta` along front, normalised right and up, once per held key, opposite keys subtracting; the view is rebuilt, the projection kept |
| Camera.FPSCamera.AddThenSub | src/FPSCamera.hpp:89-94 | the forward/back pair moves by its axis value times the displacement |
| Camera.FPSCamera.SubThenAdd | src/FPSCamera.hpp:96-110 | the left/right and shift/space pairs move by their axis value times the displacement |
| Camera.FPSCamera.Move | src/FPSCamera.hpp:89-110 | the six key tests together move by `Displacement` of the held keys |
| Camera.FPSCamera.UpdateCameraDirection | src/FPSCamera.hpp:115-131 | pitch becomes `clamp(pitch - yoffset, -89, 89)`, yaw `yaw + xoffset` with no clamp; the direction is rebuilt from the angles and the front is its normalisation |
| Camera.FPSCamera.UpdateFOV | src/FPSCamera.hpp:145-156 | fov becomes `clamp(fov + inc, 10, 145)` and the projection is rebuilt with aspect 1920/1080 and the stored clip planes, which stay |
| Camera.FPSCamera.GetSpawnPositionInFront | src/FPSCamera.hpp:159-168 | the spawn point minus the camera target is `distance` along the normalised direction plus `xOffset` along the normalised `up x forward` plus `yOffset` along up |
| Camera.SpawnLinear | src/FPSCamera.hpp:159-168 | the spawn point moves linearly in each argument, along forward, right and up |
| Camera.SpawnAtTarget | src/FPSCamera.hpp:159-168 | with zero distance and offsets the spawn point is the camera target |
| FrameProtocol.NextFrame | src/Render.cpp:290 | the next slot is below `MAX_FRAMES_IN_FLIGHT` and differs from the current one |
| FrameProtocol.NextFrameTwice | src/Render.cpp:290 | two advances return to the same slot |
| FrameProtocol.OutOfDateEarlyReturn | src/Render.cpp:231-233 | an out-of-date acquire only waits, acquires and recreates the swap chain, with no error |
| FrameProtocol.ResetOnlyBeforeSubmit | src/Render.cpp:240-266 | on a completed frame every fence reset is followed by a submission on the same slot |
| FrameProtocol.SubmitPathOrder | src/Render.cpp:222-280 | the completed submit path is wait, acquire, uniform write, fence reset, command-buffer reset, record, submit, present, then a recreate exactly when needed |
| FrameProtocol.FrameSafe | src/Render.cpp:222-288 | from fences none of which is unsignalled, every frame's events are admitted by the fence monitor, and a completed frame leaves no fence unsignalled |
| FrameProtocol.AfterWaitSafe | src/Render.cpp:226-288 | after the wait the slot's fence is signalled and the rest of the frame is admitted |
| FrameProtocol.AcquiredSafe | src/Render.cpp:238-288 | with an image acquired, the reset finds the fence not pending and the frame continues admitted |
| FrameProtocol.AfterResetSafe | src/Render.cpp:241-288 | after the reset the submission is handed an unsignalled fence and leaves it pending |
| FrameProtocol.FrameKeepsReady | src/Render.cpp:216-291 | the frame ring's invariant (admitted history, no fence unsignalled) holds after every completed frame |
| Rendering.DrawList | src/Render.cpp:406-427 | one draw per object, in object order, each the object's own draw |
| Rendering.SameArchetypeSameRange | src/Render.cpp:411-426 | objects of one archetype bind the same descriptor set and draw the same index range; only the matrix differs |
| Rendering.SlotBank | src/Render.cpp:407-415 | slot 0 binds the class's texture slot, slot 1 the same slot `textures.size()` further on |
| Rendering.Row | src/Render.cpp:44-47 | one row has one brick per unit coordinate, in order |
| Rendering.ScenePlanWalls | src/Render.cpp:24-80 | the scene is the floor then the front, left, right and back walls |
| Rendering.RowsLength | src/Render.cpp:43-49 | a wall of n rows has n times its width bricks |
| Rendering.SceneSize | src/Render.cpp:24-80 | the scene has 1 + 14 * (20 + 15 + 15 + 20) = 981 objects |
| Rendering.RowsIndex | src/Render.cpp:43-49 | brick k of row r sits at index `r * width + k` of the wall |
| Rendering.BrickFacts | src/Render.cpp:42-49 | every brick is a dynamic box of the brick size at height `row * 0.5`, and the stagger alternates from the wall's first value |
| Rendering.WallBricks | src/Render.cpp:43-49 | every brick of a wall is a dynamic box of the brick size |
| Rendering.SceneBodies | src/Render.cpp:26-80 | the floor comes first and is the only static object; everything after it is a brick |
| Rendering.Render.constructor | src/Render.hpp:27-69 | no objects, no loaded class, no frame slot, slot 0, empty trace |
| Rendering.Render.CreateSyncObjects | src/Render.cpp:308-333 | succeeds iff every slot's creations succeed, else raises the documented error; fences are created signalled, and on success the ring is ready |
| Rendering.Render.UpdateUniformBuffer | src/Render.cpp:293-306 | slot `currentImage` gets the identity model matrix and the camera's view and projection |
| Rendering.Render.RecordDraws | src/Render.cpp:405-427 | the loop records exactly the draw list |
| Rendering.Render.RecordCommandBuffer | src/Render.cpp:350-487 | a failed begin raises its error and records nothing; otherwise the draws (and the overlay while paused) are recorded and a failed end raises its error |
| Rendering.Render.DrawFrame | src/Render.cpp:216-291 | the trace grows by exactly the frame's events; the outcome is the first failing call's error; the slot advances unless the frame failed or the acquire was out of date; the resize flag is cleared when presented; a completed frame keeps the ring ready |
| Rendering.Render.WaitAndRender | src/Render.cpp:222-288 | the fence wait, then the rest of the frame |
| Rendering.Render.AcquireAndRender | src/Render.cpp:226-288 | out of date: recreate and return; other non-success non-suboptimal: raise; else the frame continues |
| Rendering.Render.RenderAcquired | src/Render.cpp:238-288 | uniform write, then fence reset, strictly before recording and submitting |
| Rendering.Render.RecordAndSubmit | src/Render.cpp:244-288 | reset and record the command buffer; submit only after a successful record; present only after a successful submit |
| Rendering.Render.PresentFrame | src/Render.cpp:269-288 | out of date, suboptimal or a pending resize clears the flag and recreates; any other failure raises |
| Rendering.Render.AddModel | src/Render.cpp:111-134 | a new object is built with counter id and rigid body; the class's mesh and texture load only when its name is not yet in `loadedModelClasses`, which it then joins; a repeat class leaves the shared buffers unchanged; exactly one object is appended on success; a failed load raises before listing |
| Rendering.Render.Construct | src/Render.cpp:115-116 | `new T(scale, true, position, true, bodyType, world)`: counter id, the class's paths, initial matrix, a new body, the class counter bumped |
| Rendering.Render.Register | src/Render.cpp:119-131 | the first object of a class loads it, later ones do not; the object is listed unless the load failed |
| Rendering.Render.Adopt | src/Render.cpp:131 | the object is appended at the end; earlier objects and their order are kept |
| Rendering.Render.LoadClass | src/Render.cpp:122-129 | mesh appended to the shared buffers, draw range and texture slot recorded, class marked loaded; on a failed load nothing changes |
| Rendering.Render.CreateScene | src/Render.cpp:24-109 | the objects after the old ones are exactly the floor and the four walls of the scene plan; the Box counter grows by 981; only the floor can fail, by a failed Box load |
| Rendering.Render.AddWalls | src/Render.cpp:41-80 | the four walls follow the floor, in front, left, right, back order, with no new load |
| Rendering.Render.AddWall | src/Render.cpp:42-49 | one wall's 14 rows, the stagger toggling each row |
| Rendering.Render.AddRow | src/Render.cpp:44-47 | one row's bricks, in coordinate order |
| Rendering.Render.AddBrick | src/Render.cpp:45-46 | the next brick of the row is laid after the ones before it |
| Rendering.Render.AddBox | src/Render.cpp:46 | `addModel<Box>` appends one object placed as asked, and only a first Box can fail |
| Models.ClassName | src/Render.cpp:119 | the class name is non-empty |
| Models.ClassNameInjective | src/Render.cpp:119-122 | distinct classes have distinct names, so the loaded-class set separates them |
| Models.ClassStatics.constructor | src/Models/Box.cpp:6-10 | all five statics of every archetype start at 0 |
| Models.InitialMatrix | src/Models/Model.cpp:12-46 | the diagonal is the scale and the translation column is `(position, 1)` with `matrixOffset`, the origin without |
| Models.CreateBoxBody | src/Models/Model.cpp:48-65 | a new body at `position`, unrotated, of the given type, with a box collider of half-extents `scale` |
| Models.Model.constructor | src/Models/Model.cpp:8-66 | the initial matrix, `position` equal to its translation column, empty paths and mesh, and a new body exactly when asked |
| Models.Model.Of | src/Models/Box.cpp:12-21 | the id is the class counter before construction, the counter grows by 1, the class's mesh and texture paths are set, scale, position and body type are forwarded |
| Models.Model.GetModelId | src/Models/Model.hpp:52 | the id given at construction |
| Models.Model.GetModelMatrix | src/Models/Model.hpp:59 | the last stored matrix |
| Models.Model.SetModelMatrix | src/Models/Model.hpp:62-65 | stores the matrix and sets `position` to its translation column |
| Models.Model.SetScale | src/Models/Model.hpp:54-57 | records the scale and post-multiplies columns 0-2; translation and `position` stay |
| Models.Model.GetTexturePath | src/Models/Model.hpp:68-71 | the override when non-empty, else the class's texture path |
| Models.Model.SetTexturePath | src/Models/Model.hpp:74 | only the override changes; the empty override reverts to the class path |
| Models.Model.GetModelCount | src/Models/Bridge.hpp:27 | the class's instance counter; 0 for a base model |
| Models.Model.GetTextureId | src/Models/Bridge.hpp:28-31 | the class's texture slot; -1 for a base model |
| Models.Model.GetVertexOffset | src/Models/Bridge.hpp:36 | the class's vertex offset; -1 for a base model |
| Models.Model.GetIndexOffset | src/Models/Bridge.hpp:38 | the class's index offset; -1 for a base model |
| Models.Model.GetIndicesCount | src/Models/Bridge.hpp:40 | the class's index count; -1 for a base model |
| Models.Model.SetTextureId | src/Models/Bridge.hpp:32-35 | writes the class-static slot, so every object of the class reads the new id; other classes are untouched; no-op on a base model |
| Models.Model.SetVertexOffset | src/Models/Bridge.hpp:37 | the class-static offset, seen by every object of the class; no-op on a base model |
| Models.Model.SetIndexOffset | src/Models/Bridge.hpp:39 | the class-static offset, seen by every object of the class; no-op on a base model |
| Models.Model.SetIndicesCount | src/Models/Bridge.hpp:41 | the class-static count, seen by every object of the class; no-op on a base model |
| Models.Model.LoadModelPath | src/Models/Model.cpp:77-120 | a failed load raises `warn + err` with buffers and offsets untouched; otherwise the mesh is the deduplicated corners, the offsets are the old buffer sizes, the count is the index count and the shared buffers get the lists appended |
| Models.Model.RecordDrawRange | src/Models/Model.cpp:114-116 | the three range setters in a row |
| Models.Model.AddShapes | src/Models/Model.cpp:91-112 | the builder over every corner of every shape, shape by shape |
| Models.Model.AddCorners | src/Models/Model.cpp:92-111 | the builder over one shape's corners |
| Models.CornerStep | src/Models/Model.cpp:93-110 | one corner is one builder step |
| Mesh.Vertices | src/Models/Model.cpp:93-103 | each corner's vertex, in order |
| Mesh.EmptyMeshWellFormed | src/Models/Model.hpp:40-42 | the empty lists and map are consistent |
| Mesh.PushShape | src/Models/Model.cpp:105-110 | one corner emits exactly one index, naming its vertex, and appends only that vertex |
| Mesh.PushWellFormed | src/Models/Model.cpp:105-108 | the map keeps indexing exactly the vertex list |
| Mesh.DedupFacts | src/Models/Model.cpp:91-112 | one index per corner in shape-then-corner order, `vertices[indices[k]]` is corner k's vertex, every index is in range, and the old lists are prefixes |
| Mesh.NoDuplicates | src/Models/Model.cpp:105-108 | the vertex list has no duplicates |
| Mesh.LoadedVerticesWhite | src/Models/Model.cpp:93-103 | every built vertex is white and has `texCoord.y = 1 - v` of some corner of the file, at that corner's position |
| Mesh.MeshBuffers.constructor | src/Render.hpp:27-28 | the shared buffers start empty |
| LinAlg.Translate | src/Models/Model.cpp:43 | translation changes column 3 only |
| LinAlg.Scale | src/Models/Model.cpp:46 | scaling does not touch column 3 |
| LinAlg.TranslateIdentity | src/Models/Model.cpp:43 | translating the identity puts `(v, 1)` in column 3 |
| LinAlg.ScaleCompose | src/Models/Model.hpp:54-57 | repeated `setScale` calls compound component-wise |
| Physics.Advance | src/Application.cpp:79 | the step keeps every body and replaces only its pose with the solver's |
| Physics.World.constructor | src/Render.cpp:136-146 | a world with no body and no step |
| Physics.World.CreateRigidBody | src/Models/Model.cpp:53 | the new body is appended and its handle is its index |
| Physics.World.SetType | src/Models/Model.cpp:55 | only that body's type changes |
| Physics.World.AddBoxCollider | src/Models/Model.cpp:60-63 | only that body's collider changes |
| Physics.World.SetLinearVelocity | src/Application.cpp:69 | only that body's velocity changes |
| Physics.World.SetMass | src/Application.cpp:70 | only that body's mass changes |
| Physics.World.Update | src/Application.cpp:79 | one solver step over all bodies, logged with its dt |
| State.GameState.constructor | src/State.hpp:3-15 | the member defaults, which satisfy the spawn throttle's invariant |

## Left out

- The Vulkan bootstrap, the render pass, the command pool and buffers, ImGui set-up and cleanup: foreign API set-up with no behaviour to state. `drawFrame`'s calls are trace events and their results are inputs.
- The ImGui overlay recorded while paused: it is one `overlay` flag on the recorded commands. Its sliders and the FOV reset button are not modelled.
- `vkDeviceWaitIdle` after the loop and the cleanup functions: foreign calls.
- `Model::updateVelocity` and `Model::updateAngularVelocity`: the frame loop sets velocity directly on the body, and angular velocity is never used.
- `Render::updateCharacterModelMatrix`: it computes a local matrix and discards it, so it has no effect.
- ReactPhysics3D: the solver is an opaque function from the bodies and dt to each body's new pose. Collision and mass derivation from colliders are not modelled.
- Physics.Advance: a step keeps every body's linear velocity, whereas the solver also integrates velocities (gravity, contacts); nothing in the core reads a velocity after a step.
- Float numerics: normalise, vector length, quaternion to matrix, sine, cosine, perspective and look-at are opaque functions. Every other quantity is an exact `real`, so float rounding, the float-to-double widening of mouse positions and the `float` narrowing of `glfwGetTime` are not modelled. The time step is the exact real 1/60.
- The float loop counters of `createScene` (`y += 0.5`, `x++`): they are counted with integers. Every value they take is exact in binary floating point.
- The structure offset `structureZ + 10.0`: it is 0, so it is folded into the wall constants.
- `std::hash<Vertex>`: vertices are a datatype with field-wise equality, which is what the map lookup relies on.
- tinyobj parsing and texture upload: the reader's result (shapes of corners, or warning and error text) and the texture slot are given by the `Assets` parameter.
- GLFW side effects: the window title is returned, not set; cursor mode, cursor warping and `glfwSetWindowMonitor` are not modelled; the clock is a parameter. `updateTitle` reads the clock itself (`glfwGetTime`); the model passes it the tick's time, so the two readings of one iteration are taken as equal. The frames the loop runs over, with their time, events and GPU result codes, are a parameter of `MainLoop`.
- Default arguments of `addModel`: the brick calls (src/Render.cpp:46, 57, 67, 77) and the spawn (src/Application.cpp:58-62) leave out the body type, which defaults to DYNAMIC (src/Render.hpp:52-53); the model passes `Dynamic` explicitly at those calls. `addModel` passes every argument to the archetype constructor, so the constructors' own defaults are never used.
- `addModel` returns a copy of the new object in C++. The model returns the object itself. The spawn throttle's velocity and mass writes go to the body, which is shared, so the meaning is the same.
- An exception raised by a failed load, acquire, record, submit or present: it is a `Fail` outcome that ends the main loop. A failed load has already built its object, created a body and bumped the class counter, as in the source.
- `textureCount`, the number of textures (`vulkanSetup.textures.size()`, src/Render.cpp:407-415): `addModel` creates a texture on each first load of a class (src/Render.cpp:124-125), so the count grows while `createScene` adds its first Box. It is fixed once `createScene` has run, because the main loop adds only Boxes, whose class is already loaded. The model takes that post-scene count as a constant given to the renderer's constructor and does not tie it to the texture slots `LoadClass` records.
- `FPSCamera::fov`, `znear`, `zfar` and `matrices.projection` before `setPerspective`: the C++ leaves them uninitialised; the model starts the three numbers at 0 and the projection at the identity.
- `FPSCamera::setCameraPos` and `setCameraDirection`: nothing in the core calls them.
- 32-bit integer counters (`noBoxes`, `frameCount`, class counters): they are unbounded integers, because none of them gets near its limit in the modelled behaviour.
- App.Application.Iterate: its contract does not restate the trace of the frame it draws or the camera update; App.Application.Present and App.Application.Prepare state them.
- App.Application.MainLoop: after a failed frame the clock and pause flag are not restated; the fed deltas and the step log are those of the frames before it, because a failed frame takes no step.
