/**
 * The renderer: the scene registry (the object list, the set of archetype classes
 * whose mesh and texture are loaded, the shared vertex and index buffers), the
 * frame-slot ring with its event trace, the draw list and the scene generator.
 */
module Rendering {
  import opened Wrappers
  import opened LinAlg
  import opened Physics
  import opened Mesh
  import opened Models
  import opened Camera
  import opened Windowing
  import opened State
  import opened FrameProtocol

  /** The asset loaders: the model-file reader and texture creation, which answers a descriptor slot. */
  datatype Assets = Assets(loadObj: string -> ObjLoad, createTexture: string -> int)

  /** The draw call one object contributes on frame slot `frame`. */
  function DrawOf(o: Model, frame: nat, textureCount: nat): Draw
    requires o.statics.Valid()
    reads o, o.statics
  {
    Draw((if frame == 1 then textureCount else 0) + o.GetTextureId(), o.GetModelMatrix(),
         o.GetIndicesCount(), o.GetIndexOffset(), o.GetVertexOffset())
  }

  /** The draw calls of a list of objects sharing the static storage `st`, in list order. */
  function DrawList(objs: seq<Model>, st: ClassStatics, frame: nat, textureCount: nat): (r: seq<Draw>)
    requires st.Valid() && forall i :: 0 <= i < |objs| ==> objs[i].statics == st
    reads objs
    reads st
    ensures |r| == |objs|
    ensures forall i :: 0 <= i < |objs| ==> r[i] == DrawOf(objs[i], frame, textureCount)
  {
    seq(|objs|, i requires 0 <= i < |objs| && objs[i].statics == st && st.Valid() reads objs, st => DrawOf(objs[i], frame, textureCount))
  }

  /** Objects of the same archetype draw the same index range and texture; only their matrices differ. */
  lemma SameArchetypeSameRange(a: Model, b: Model, frame: nat, textureCount: nat)
    requires a.statics == b.statics && a.statics.Valid() && a.kind == b.kind && a.kind.Archetype?
    ensures DrawOf(a, frame, textureCount) == DrawOf(b, frame, textureCount).(matrix := a.model)
  {
  }

  /** The second frame slot binds the second bank of descriptor sets, `textureCount` further on. */
  lemma SlotBank(o: Model, textureCount: nat)
    requires o.statics.Valid()
    ensures DrawOf(o, 1, textureCount).descriptorSet == DrawOf(o, 0, textureCount).descriptorSet + textureCount
    ensures DrawOf(o, 0, textureCount).descriptorSet == o.GetTextureId()
  {
  }

  /** Where createScene puts one object: position, scale and body type of a Box. */
  datatype Placement = Placement(position: Vec3, scale: Vec3, bodyType: BodyType)

  /**
   * One brick wall: bricks run along x (or along z) over the integer coordinates
   * start .. end - 1, at the fixed other coordinate `fixed`, shifted by `shift`; the
   * row stagger starts at `firstStep`.  The structure offset (structureZ + 10) is 0.
   */
  datatype Wall = Wall(alongX: bool, start: int, end: int, fixed: real, shift: real, firstStep: bool)

  const FrontWall := Wall(true, -10, 10, 0.0, 0.0, true)
  const LeftWall := Wall(false, -15, 0, -10.25, 0.25, false)
  const RightWall := Wall(false, -15, 0, 9.75, 0.25, true)
  const BackWall := Wall(true, -10, 10, -15.0, 0.0, false)

  const BrickSize := Vec3(0.5, 0.25, 0.5)
  const WallHeight := 7.0
  const WallStep := 0.5
  /** The rows a wall gets: y = 0, 0.5, ..., 6.5 while y < WallHeight. */
  const WallRows := 14

  /** The static floor slab. */
  const FloorSlab := Placement(Vec3(0.0, -0.5, 0.0), Vec3(20.0, 0.5, 20.0), Static)

  /** Whether row `row` of the wall is shifted by half a brick. */
  function Stagger(w: Wall, row: nat): bool {
    if row % 2 == 0 then w.firstStep else !w.firstStep
  }

  /** The brick at integer coordinate c of row `row`. */
  function Brick(w: Wall, row: nat, c: int): Placement {
    var y := row as real * WallStep;
    var offset := if Stagger(w, row) then 0.5 else 0.0;
    if w.alongX then Placement(Vec3(c as real + offset + w.shift, y, w.fixed), BrickSize, Dynamic)
    else Placement(Vec3(w.fixed, y, c as real + offset + w.shift), BrickSize, Dynamic)
  }

  /** One row of bricks, in coordinate order. */
  function Row(w: Wall, row: nat): (r: seq<Placement>)
    requires w.start <= w.end
    ensures |r| == w.end - w.start
    ensures forall k :: 0 <= k < |r| ==> r[k] == Brick(w, row, w.start + k)
  {
    seq(w.end - w.start, k requires 0 <= k < w.end - w.start => Brick(w, row, w.start + k))
  }

  /** The first n rows of the wall, bottom row first. */
  function Rows(w: Wall, n: nat): seq<Placement>
    requires w.start <= w.end
  {
    if n == 0 then [] else Rows(w, n - 1) + Row(w, n - 1)
  }

  /** The objects createScene adds, in order: the floor, then the front, left, right and back walls. */
  function ScenePlan(): seq<Placement> {
    [FloorSlab] + SceneWalls()
  }

  /** The four walls, in the order createScene builds them. */
  function SceneWalls(): seq<Placement> {
    Rows(FrontWall, WallRows) + Rows(LeftWall, WallRows) + Rows(RightWall, WallRows) + Rows(BackWall, WallRows)
  }

  /** The scene plan, wall by wall, as createScene's four loops append to it. */
  lemma ScenePlanWalls()
    ensures ScenePlan() == [FloorSlab] + Rows(FrontWall, WallRows) + Rows(LeftWall, WallRows) + Rows(RightWall, WallRows) + Rows(BackWall, WallRows)
  {
  }

  lemma {:induction false} RowsLength(w: Wall, n: nat)
    requires w.start <= w.end
    ensures |Rows(w, n)| == n * (w.end - w.start)
  {
    if n > 0 {
      RowsLength(w, n - 1);
    }
  }

  /** The scene has 1 + 14 * (20 + 15 + 15 + 20) = 981 objects. */
  lemma SceneSize()
    ensures |ScenePlan()| == 981
  {
    RowsLength(FrontWall, WallRows);
    RowsLength(LeftWall, WallRows);
    RowsLength(RightWall, WallRows);
    RowsLength(BackWall, WallRows);
  }

  /** Row r's bricks sit at index r * width .. (r + 1) * width - 1 of the wall's plan. */
  lemma {:induction false} RowsIndex(w: Wall, n: nat, r: nat, k: nat)
    requires w.start <= w.end && r < n && k < w.end - w.start
    ensures |Rows(w, r)| == r * (w.end - w.start)
    ensures r * (w.end - w.start) + k < |Rows(w, n)|
    ensures Rows(w, n)[r * (w.end - w.start) + k] == Brick(w, r, w.start + k)
  {
    RowsLength(w, r);
    RowsLength(w, n - 1);
    if r < n - 1 {
      RowsIndex(w, n - 1, r, k);
    }
  }

  /** Every brick is a dynamic box of the brick size; consecutive rows alternate their stagger. */
  lemma BrickFacts(w: Wall, row: nat, c: int)
    ensures Brick(w, row, c).bodyType == Dynamic && Brick(w, row, c).scale == BrickSize
    ensures Brick(w, row, c).position.y == row as real * 0.5
    ensures Stagger(w, row + 1) == !Stagger(w, row)
    ensures Stagger(w, 0) == w.firstStep
  {
  }

  /** Every placement is a dynamic box of the brick size. */
  predicate AllBricks(s: seq<Placement>) {
    forall k :: 0 <= k < |s| ==> s[k].bodyType == Dynamic && s[k].scale == BrickSize
  }

  lemma AllBricksConcat(a: seq<Placement>, b: seq<Placement>)
    requires AllBricks(a) && AllBricks(b)
    ensures AllBricks(a + b)
  {
  }

  lemma {:induction false} WallBricks(w: Wall, n: nat)
    requires w.start <= w.end
    ensures AllBricks(Rows(w, n))
  {
    if n > 0 {
      WallBricks(w, n - 1);
      AllBricksConcat(Rows(w, n - 1), Row(w, n - 1));
    }
  }

  /** The floor comes first and is the only static object of the scene; everything after it is a brick. */
  lemma SceneBodies()
    ensures ScenePlan()[0] == FloorSlab && FloorSlab.bodyType == Static
    ensures AllBricks(ScenePlan()[1..])
  {
    var front, left, right, back := Rows(FrontWall, WallRows), Rows(LeftWall, WallRows), Rows(RightWall, WallRows), Rows(BackWall, WallRows);
    WallBricks(FrontWall, WallRows);
    WallBricks(LeftWall, WallRows);
    WallBricks(RightWall, WallRows);
    WallBricks(BackWall, WallRows);
    AllBricksConcat(front, left);
    AllBricksConcat(front + left, right);
    AllBricksConcat(front + left + right, back);
    assert ScenePlan()[1..] == SceneWalls();
  }

  /** The static records after n more Boxes were constructed: only the Box counter moves, by n. */
  function Bumped(f: map<ModelClass, StaticFields>, n: int): map<ModelClass, StaticFields>
    requires Box in f
  {
    f[Box := f[Box].(totalNb := f[Box].totalNb + n)]
  }

  /**
   * From object list o0 and static records f0 to o1 and f1, Boxes were only appended:
   * o0 is a prefix of o1, and only the Box counter moved, by the number appended.
   */
  predicate Grew(o0: seq<Model>, f0: map<ModelClass, StaticFields>, o1: seq<Model>, f1: map<ModelClass, StaticFields>) {
    |o0| <= |o1| && o1[..|o0|] == o0 && Box in f0 && f1 == Bumped(f0, |o1| - |o0|)
  }

  lemma GrewTrans(o0: seq<Model>, f0: map<ModelClass, StaticFields>, o1: seq<Model>, f1: map<ModelClass, StaticFields>,
                  o2: seq<Model>, f2: map<ModelClass, StaticFields>)
    requires Grew(o0, f0, o1, f1) && Grew(o1, f1, o2, f2)
    ensures Grew(o0, f0, o2, f2)
  {
    assert o2[..|o0|] == o2[..|o1|][..|o0|];
  }

  /** Appending the next row to a plan that ends with a wall's first rows. */
  lemma RowsStep(plan: seq<Placement>, w: Wall, row: nat)
    requires w.start <= w.end
    ensures plan + Rows(w, row) + Row(w, row) == plan + Rows(w, row + 1)
  {
    assert Rows(w, row + 1) == Rows(w, row) + Row(w, row);
  }

  /** The stagger toggles from one row to the next. */
  lemma StaggerStep(w: Wall, row: nat)
    ensures Stagger(w, row + 1) == !Stagger(w, row)
  {
  }

  /** Extending a prefix by its next element. */
  lemma PrefixStep(p: seq<Placement>, s: seq<Placement>, k: nat)
    requires k < |s|
    ensures p + s[..k] + [s[k]] == p + s[..k + 1]
  {
    assert s[..k + 1] == s[..k] + [s[k]];
  }

  class Render {
    const window: Window
    const state: GameState
    const world: World
    const statics: ClassStatics
    const buffers: MeshBuffers
    const assets: Assets
    var objects: seq<Model>
    /** The run-time names of the archetype classes whose mesh and texture are loaded. */
    var loadedModelClasses: set<string>
    /** The number of textures, which sets the offset of the second descriptor bank. */
    const textureCount: nat
    /** The number of frame slots whose semaphores and fence exist. */
    var syncSlots: nat
    var currentFrame: nat
    /** Every GPU event since the synchronisation objects were created. */
    var trace: seq<GpuEvent>

    /** Every object refers to the one static storage, whose records cover every archetype. */
    ghost predicate SharedStatics()
      reads this`objects, statics, objects
    {
      statics.Valid() && forall i :: 0 <= i < |objects| ==> objects[i].statics == statics
    }

    /** Objects are distinct, well formed, share the static storage, and own a body of the world. */
    ghost predicate Valid()
      reads this`objects, statics, world, objects
    {
      && SharedStatics()
      && (forall i :: 0 <= i < |objects| ==>
            && objects[i].Valid()
            && objects[i].physicsBody.Some? && objects[i].physicsBody.value < |world.bodies|)
      && (forall i, j :: 0 <= i < j < |objects| ==> objects[i] != objects[j])
    }

    /** The fences as the events so far have left them. */
    ghost function Fences(): seq<FenceState>
      reads this`trace
    {
      Run(CreatedFences, trace)
    }

    /** The frame ring is set up: every event so far was admitted and no fence is left unsignalled. */
    ghost predicate Ready()
      reads this`syncSlots, this`currentFrame, this`trace
    {
      syncSlots == MaxFramesInFlight && currentFrame < MaxFramesInFlight &&
      SafeFrom(CreatedFences, trace) && NoneUnsignalled(Fences())
    }

    constructor (window: Window, state: GameState, world: World, statics: ClassStatics, buffers: MeshBuffers,
                 assets: Assets, textureCount: nat)
      requires statics.Valid()
      ensures this.window == window && this.state == state && this.world == world && this.statics == statics
      ensures this.buffers == buffers && this.assets == assets && this.textureCount == textureCount
      ensures objects == [] && loadedModelClasses == {} && syncSlots == 0 && currentFrame == 0 && trace == []
      ensures Valid()
    {
      this.window, this.state, this.world, this.statics := window, state, world, statics;
      this.buffers, this.assets, this.textureCount := buffers, assets, textureCount;
      objects, loadedModelClasses := [], {};
      syncSlots, currentFrame, trace := 0, 0, [];
    }

    /** Issue one GPU call. */
    method Emit(e: GpuEvent)
      modifies this`trace
      ensures trace == old(trace) + [e]
    {
      trace := trace + [e];
    }

    /**
     * Create the semaphores and the signalled fence of every frame slot; `created[i]`
     * says whether slot i's three creations succeed.  The first failure raises an error.
     */
    method CreateSyncObjects(created: seq<bool>) returns (r: Outcome)
      requires |created| == MaxFramesInFlight
      modifies this`syncSlots, this`trace
      ensures r.Pass? <==> forall i :: 0 <= i < |created| ==> created[i]
      ensures r.Fail? ==> r.error == "failed to create synchronization objects for a frame!"
      ensures trace == [] && Fences() == CreatedFences
      ensures r.Pass? ==> syncSlots == MaxFramesInFlight
      ensures r.Pass? && currentFrame < MaxFramesInFlight ==> Ready()
    {
      syncSlots := 0;
      trace := [];
      var i := 0;
      while i < MaxFramesInFlight
        invariant 0 <= i <= MaxFramesInFlight && syncSlots == i && trace == []
        invariant forall k :: 0 <= k < i ==> created[k]
      {
        if !created[i] {
          return Fail("failed to create synchronization objects for a frame!");
        }
        syncSlots := i + 1;
        i := i + 1;
      }
      r := Pass;
    }

    /** Write slot `slot`'s uniform buffer from the camera matrices. */
    method UpdateUniformBuffer(slot: nat, matrices: Matrices)
      modifies this`trace
      ensures trace == old(trace) + [WriteUniform(slot, Ubo(Identity, matrices.view, matrices.projection))]
    {
      Emit(WriteUniform(slot, Ubo(Identity, matrices.view, matrices.projection)));
    }

    /** The draw loop: one draw per object, in object order. */
    method RecordDraws() returns (draws: seq<Draw>)
      requires SharedStatics()
      ensures draws == DrawList(objects, statics, currentFrame, textureCount)
    {
      draws := [];
      var i := 0;
      while i < |objects|
        invariant 0 <= i <= |objects|
        invariant draws == DrawList(objects[..i], statics, currentFrame, textureCount)
      {
        var o := objects[i];
        var offset := 0;
        if currentFrame == 1 {
          offset := textureCount;
        }
        draws := draws + [Draw(offset + o.GetTextureId(), o.GetModelMatrix(), o.GetIndicesCount(),
                               o.GetIndexOffset(), o.GetVertexOffset())];
        assert objects[..i + 1][..i] == objects[..i];
        i := i + 1;
      }
      assert objects[..|objects|] == objects;
    }

    /** Begin the command buffer, record the draws and, while paused, the overlay, then end it. */
    method RecordCommandBuffer(image: nat, beginOk: bool, endOk: bool, ghost draws: seq<Draw>) returns (r: Outcome)
      requires SharedStatics() && draws == DrawList(objects, statics, currentFrame, textureCount)
      modifies this`trace
      ensures !beginOk ==> r == Fail(BeginErrorMessage()) && trace == old(trace)
      ensures beginOk ==>
        && trace == old(trace) + [RecordCommands(currentFrame, image, draws, state.paused)]
        && r == if endOk then Pass else Fail(EndErrorMessage())
    {
      if !beginOk {
        return Fail(BeginErrorMessage());
      }
      var list := RecordDraws();
      Emit(RecordCommands(currentFrame, image, list, state.paused));
      if !endOk {
        return Fail(EndErrorMessage());
      }
      r := Pass;
    }

    /**
     * One frame on the current slot.  An out-of-date acquire recreates the swap
     * chain and returns without advancing the slot; any other failure raises its
     * error; otherwise the frame is recorded, submitted and presented, a stale swap
     * chain or a pending resize recreates the swap chain, and the slot advances.
     */
    method DrawFrame(matrices: Matrices, g: FrameGpu, ghost draws: seq<Draw>) returns (r: Outcome)
      requires SharedStatics() && Ready() && draws == DrawList(objects, statics, currentFrame, textureCount)
      modifies this`trace, this`currentFrame, window`framebufferResized
      ensures trace == old(trace) + FrameEvents(old(currentFrame), g, Ubo(Identity, matrices.view, matrices.projection),
                                                draws, state.paused, old(window.framebufferResized))
      ensures r == match FrameResult(g, old(window.framebufferResized))
                   case None => Pass
                   case Some(message) => Fail(message)
      ensures currentFrame == if r.Pass? && g.acquire != OutOfDate then NextFrame(old(currentFrame)) else old(currentFrame)
      ensures window.framebufferResized ==
        (old(window.framebufferResized) && !(r.Pass? && g.acquire != OutOfDate))
      ensures r.Pass? ==> Ready()
    {
      ghost var t0 := trace;
      r := WaitAndRender(matrices, g, draws);
      FrameKeepsReady(t0, currentFrame, g, Ubo(Identity, matrices.view, matrices.projection), draws, state.paused,
                      old(window.framebufferResized));
      if r.Fail? || g.acquire == OutOfDate {
        return;
      }
      currentFrame := (currentFrame + 1) % MaxFramesInFlight;
    }

    /** Wait for the slot's fence, then the rest of the frame; the fence protocol is kept throughout. */
    method WaitAndRender(matrices: Matrices, g: FrameGpu, ghost draws: seq<Draw>) returns (r: Outcome)
      requires SharedStatics() && draws == DrawList(objects, statics, currentFrame, textureCount)
      modifies this`trace, window`framebufferResized
      ensures trace == old(trace) + FrameEvents(currentFrame, g, Ubo(Identity, matrices.view, matrices.projection),
                                                draws, state.paused, old(window.framebufferResized))
      ensures r == match FrameResult(g, old(window.framebufferResized))
                   case None => Pass
                   case Some(message) => Fail(message)
      ensures window.framebufferResized ==
        (old(window.framebufferResized) && !(r.Pass? && g.acquire != OutOfDate))
    {
      ghost var t0 := trace;
      Emit(WaitFence(currentFrame));
      r := AcquireAndRender(matrices, g, draws);
      WaitedEvents(t0, currentFrame, g, Ubo(Identity, matrices.view, matrices.projection), draws, state.paused,
                   old(window.framebufferResized));
    }

    /** After the fence wait: acquire, then either stop or write the uniforms, reset the fence and go on. */
    method AcquireAndRender(matrices: Matrices, g: FrameGpu, ghost draws: seq<Draw>) returns (r: Outcome)
      requires SharedStatics() && draws == DrawList(objects, statics, currentFrame, textureCount)
      modifies this`trace, window`framebufferResized
      ensures trace == old(trace) + AfterWait(currentFrame, g, Ubo(Identity, matrices.view, matrices.projection),
                                              draws, state.paused, old(window.framebufferResized))
      ensures r == match FrameResult(g, old(window.framebufferResized))
                   case None => Pass
                   case Some(message) => Fail(message)
      ensures window.framebufferResized ==
        (old(window.framebufferResized) && !(r.Pass? && g.acquire != OutOfDate))
    {
      Emit(AcquireImage(currentFrame));
      if g.acquire == OutOfDate {
        Emit(RecreateSwapChain);
        return Pass;
      } else if !Acquired(g.acquire) {
        return Fail(AcquireErrorMessage());
      }
      r := RenderAcquired(matrices, g, draws);
      AcquiredEvents(old(trace), currentFrame, g, Ubo(Identity, matrices.view, matrices.projection), draws, state.paused,
                     old(window.framebufferResized));
    }

    /** With an image acquired: write the uniforms, reset the fence, then record, submit and present. */
    method RenderAcquired(matrices: Matrices, g: FrameGpu, ghost draws: seq<Draw>) returns (r: Outcome)
      requires SharedStatics() && draws == DrawList(objects, statics, currentFrame, textureCount)
      modifies this`trace, window`framebufferResized
      ensures trace == old(trace) + ([WriteUniform(currentFrame, Ubo(Identity, matrices.view, matrices.projection))] +
                                     ([ResetFence(currentFrame)] +
                                      AfterReset(currentFrame, g, draws, state.paused, old(window.framebufferResized))))
      ensures r == if !g.beginOk then Fail(BeginErrorMessage())
                   else if !g.endOk then Fail(EndErrorMessage())
                   else if g.submit != Success then Fail(SubmitErrorMessage())
                   else if !NeedsRecreate(g.present, old(window.framebufferResized)) && g.present != Success
                   then Fail(PresentErrorMessage())
                   else Pass
      ensures window.framebufferResized == (old(window.framebufferResized) && !r.Pass?)
    {
      ghost var t0 := trace;
      UpdateUniformBuffer(currentFrame, matrices);
      Emit(ResetFence(currentFrame));
      r := RecordAndSubmit(g, draws);
      TwoThen(t0, WriteUniform(currentFrame, Ubo(Identity, matrices.view, matrices.projection)), ResetFence(currentFrame),
              AfterReset(currentFrame, g, draws, state.paused, old(window.framebufferResized)));
    }

    /** After the fence reset: reset and record the command buffer, submit it, then present. */
    method RecordAndSubmit(g: FrameGpu, ghost draws: seq<Draw>) returns (r: Outcome)
      requires SharedStatics() && draws == DrawList(objects, statics, currentFrame, textureCount)
      modifies this`trace, window`framebufferResized
      ensures trace == old(trace) + AfterReset(currentFrame, g, draws, state.paused, old(window.framebufferResized))
      ensures r == if !g.beginOk then Fail(BeginErrorMessage())
                   else if !g.endOk then Fail(EndErrorMessage())
                   else if g.submit != Success then Fail(SubmitErrorMessage())
                   else if !NeedsRecreate(g.present, old(window.framebufferResized)) && g.present != Success
                   then Fail(PresentErrorMessage())
                   else Pass
      ensures window.framebufferResized == (old(window.framebufferResized) && !r.Pass?)
    {
      ghost var t0 := trace;
      ghost var recorded := [ResetCommandBuffer(currentFrame), RecordCommands(currentFrame, g.imageIndex, draws, state.paused)];
      Emit(ResetCommandBuffer(currentFrame));
      r := RecordCommandBuffer(g.imageIndex, g.beginOk, g.endOk, draws);
      if r.Fail? {
        return;
      }
      assert trace == t0 + recorded;
      if g.submit != Success {
        return Fail(SubmitErrorMessage());
      }
      Emit(Submit(currentFrame));
      ghost var t1 := trace;
      r := PresentFrame(g);
      assert trace == t1 + AfterSubmit(currentFrame, g, old(window.framebufferResized));
      assert t0 + recorded + [Submit(currentFrame)] + AfterSubmit(currentFrame, g, old(window.framebufferResized))
          == t0 + (recorded + ([Submit(currentFrame)] + AfterSubmit(currentFrame, g, old(window.framebufferResized))));
    }

    /** Present the slot's image, then recreate the swap chain if it is stale or the window was resized. */
    method PresentFrame(g: FrameGpu) returns (r: Outcome)
      modifies this`trace, window`framebufferResized
      ensures trace == old(trace) + AfterSubmit(currentFrame, g, old(window.framebufferResized))
      ensures r == if !NeedsRecreate(g.present, old(window.framebufferResized)) && g.present != Success
                   then Fail(PresentErrorMessage()) else Pass
      ensures window.framebufferResized == (old(window.framebufferResized) && !r.Pass?)
    {
      Emit(Present(currentFrame, g.imageIndex));
      if g.present == OutOfDate || g.present == Suboptimal || window.framebufferResized {
        window.framebufferResized := false;
        Emit(RecreateSwapChain);
      } else if g.present != Success {
        return Fail(PresentErrorMessage());
      }
      r := Pass;
    }

    /**
     * Construct an archetype object with a rigid body at `position`; the first object
     * of its class loads the class's mesh into the shared buffers and its texture, and
     * marks the class loaded.  The object is appended to the object list.  A failed
     * mesh load raises its error before the object is listed or the class is marked.
     */
    method AddModel(cls: ModelClass, position: Vec3, scale: Vec3, bodyType: BodyType) returns (m: Model, r: Outcome)
      requires Valid()
      modifies this`objects, this`loadedModelClasses, statics`fields, world`bodies, buffers
      ensures Valid()
      ensures fresh(m) && m.kind == Archetype(cls) && m.statics == statics
      ensures m.modelId == old(statics.fields[cls].totalNb)
      ensures m.model == InitialMatrix(scale, true, position) && m.physicsBody == Some(|old(world.bodies)|)
      ensures world.bodies == old(world.bodies) + [InitialBody(position, bodyType, scale)]
      ensures ClassName(cls) in old(loadedModelClasses) ==>
        && r == Pass
        && loadedModelClasses == old(loadedModelClasses)
        && buffers.vertices == old(buffers.vertices) && buffers.indices == old(buffers.indices)
        && statics.fields == old(statics.fields)[cls := old(statics.fields[cls]).(totalNb := old(statics.fields[cls].totalNb) + 1)]
      ensures ClassName(cls) !in old(loadedModelClasses) ==>
        r == if assets.loadObj(MeshPath(cls)).Loaded? then Pass
             else Fail(assets.loadObj(MeshPath(cls)).warn + assets.loadObj(MeshPath(cls)).err)
      ensures ClassName(cls) !in old(loadedModelClasses) && r.Pass? ==>
        && loadedModelClasses == old(loadedModelClasses) + {ClassName(cls)}
        && buffers.vertices == old(buffers.vertices) + m.vertices
        && buffers.indices == old(buffers.indices) + m.indices
        && statics.fields[cls] == StaticFields(old(statics.fields[cls].totalNb) + 1,
                                               assets.createTexture(TexturePath(cls)),
                                               |old(buffers.vertices)|, |old(buffers.indices)|, |m.indices|)
        && (forall c :: c != cls ==> statics.fields[c] == old(statics.fields[c]))
      ensures r.Pass? ==> objects == old(objects) + [m]
      ensures r.Fail? ==> objects == old(objects) && loadedModelClasses == old(loadedModelClasses)
    {
      m := Construct(cls, position, scale, bodyType);
      r := Register(m, cls);
    }

    /** Model<cls>(scale, true, position, true, bodyType): a new object owning a new body, not yet listed. */
    method Construct(cls: ModelClass, position: Vec3, scale: Vec3, bodyType: BodyType) returns (m: Model)
      requires Valid()
      modifies statics`fields, world`bodies
      ensures Valid() && fresh(m) && m.Valid() && m !in objects
      ensures m.kind == Archetype(cls) && m.statics == statics && m.modelId == old(statics.fields[cls].totalNb)
      ensures m.meshPath == MeshPath(cls) && m.texturePath == TexturePath(cls) && m.overrideTexturePath == ""
      ensures m.model == InitialMatrix(scale, true, position) && m.physicsBody == Some(|old(world.bodies)|)
      ensures world.bodies == old(world.bodies) + [InitialBody(position, bodyType, scale)]
      ensures statics.fields == old(statics.fields)[cls := old(statics.fields[cls]).(totalNb := old(statics.fields[cls].totalNb) + 1)]
    {
      m := new Model.Of(cls, statics, scale, true, position, true, bodyType, world);
    }

    /**
     * After construction: the first object of its class loads the class, and the
     * object is listed unless that load failed.
     */
    method Register(m: Model, cls: ModelClass) returns (r: Outcome)
      requires Valid() && m.Valid() && m.statics == statics && m.kind == Archetype(cls) && m !in objects
      requires m.meshPath == MeshPath(cls) && m.texturePath == TexturePath(cls) && m.overrideTexturePath == ""
      requires m.physicsBody.Some? && m.physicsBody.value < |world.bodies|
      modifies m`vertices, m`indices, m`uniqueVertices, buffers, statics`fields, this`loadedModelClasses, this`objects
      ensures Valid()
      ensures ClassName(cls) in old(loadedModelClasses) ==>
        && r == Pass && loadedModelClasses == old(loadedModelClasses) && statics.fields == old(statics.fields)
        && buffers.vertices == old(buffers.vertices) && buffers.indices == old(buffers.indices)
      ensures ClassName(cls) !in old(loadedModelClasses) ==>
        && (r == if assets.loadObj(MeshPath(cls)).Loaded? then Pass
                 else Fail(assets.loadObj(MeshPath(cls)).warn + assets.loadObj(MeshPath(cls)).err))
        && (r.Pass? ==>
              && loadedModelClasses == old(loadedModelClasses) + {ClassName(cls)}
              && buffers.vertices == old(buffers.vertices) + m.vertices
              && buffers.indices == old(buffers.indices) + m.indices
              && statics.fields == old(statics.fields)[cls := old(statics.fields[cls]).(
                   textureId := assets.createTexture(TexturePath(cls)),
                   vertexOffset := |old(buffers.vertices)|, indexOffset := |old(buffers.indices)|, indicesCount := |m.indices|)])
      ensures r.Pass? ==> objects == old(objects) + [m]
      ensures r.Fail? ==> objects == old(objects) && loadedModelClasses == old(loadedModelClasses)
    {
      if ClassName(cls) !in loadedModelClasses {
        r := LoadClass(m, cls);
        if r.Fail? {
          return;
        }
      }
      Adopt(m);
      r := Pass;
    }

    /** Append a new object that owns a body of the world to the object list. */
    method Adopt(m: Model)
      requires Valid() && m.Valid() && m.statics == statics && m !in objects
      requires m.physicsBody.Some? && m.physicsBody.value < |world.bodies|
      modifies this`objects
      ensures Valid() && objects == old(objects) + [m]
    {
      objects := objects + [m];
    }

    /**
     * The first object of a class loads the class's mesh into the shared buffers,
     * records its draw range and texture, and marks the class loaded.
     */
    method LoadClass(m: Model, cls: ModelClass) returns (r: Outcome)
      requires statics.Valid() && m.Valid() && m.statics == statics && m.kind == Archetype(cls)
      requires m.meshPath == MeshPath(cls) && m.texturePath == TexturePath(cls) && m.overrideTexturePath == ""
      modifies m`vertices, m`indices, m`uniqueVertices, buffers, statics`fields, this`loadedModelClasses
      ensures statics.Valid() && m.Valid()
      ensures r == if assets.loadObj(MeshPath(cls)).Loaded? then Pass
                   else Fail(assets.loadObj(MeshPath(cls)).warn + assets.loadObj(MeshPath(cls)).err)
      ensures r.Fail? ==>
        && loadedModelClasses == old(loadedModelClasses) && statics.fields == old(statics.fields)
        && buffers.vertices == old(buffers.vertices) && buffers.indices == old(buffers.indices)
      ensures r.Pass? ==>
        && loadedModelClasses == old(loadedModelClasses) + {ClassName(cls)}
        && buffers.vertices == old(buffers.vertices) + m.vertices
        && buffers.indices == old(buffers.indices) + m.indices
        && statics.fields == old(statics.fields)[cls := old(statics.fields[cls]).(
             textureId := assets.createTexture(TexturePath(cls)),
             vertexOffset := |old(buffers.vertices)|, indexOffset := |old(buffers.indices)|, indicesCount := |m.indices|)]
    {
      r := m.LoadModelPath(buffers, assets.loadObj);
      if r.Fail? {
        return;
      }
      m.SetTextureId(assets.createTexture(m.GetTexturePath()));
      loadedModelClasses := loadedModelClasses + {ClassName(cls)};
    }

    /** Object o stands where p says: a Box with p's initial matrix, owning a body of p's type at p's position. */
    ghost predicate Placed(o: Model, p: Placement)
      reads o, world
    {
      && o.kind == Archetype(Box) && o.model == InitialMatrix(p.scale, true, p.position)
      && o.physicsBody.Some? && o.physicsBody.value < |world.bodies|
      && world.bodies[o.physicsBody.value] == InitialBody(p.position, p.bodyType, p.scale)
    }

    /** The objects from index `from` on are exactly the placements of `plan`, in order. */
    ghost predicate Laid(from: nat, plan: seq<Placement>)
      reads this`objects, objects, world
    {
      from + |plan| == |objects| && forall k :: 0 <= k < |plan| ==> Placed(objects[from + k], plan[k])
    }

    /**
     * The static floor, then the four walls of 14 staggered rows each.  Only the
     * floor can load the Box mesh, so only its failure can raise an error.
     */
    method CreateScene() returns (r: Outcome)
      requires Valid()
      modifies this`objects, this`loadedModelClasses, statics`fields, world`bodies, buffers
      ensures Valid()
      ensures r.Pass? ==>
        && |old(objects)| <= |objects| && objects[..|old(objects)|] == old(objects) && Laid(|old(objects)|, ScenePlan())
        && ClassName(Box) in loadedModelClasses
        && statics.fields[Box].totalNb == old(statics.fields[Box].totalNb) + |ScenePlan()|
      ensures r.Fail? ==>
        && objects == old(objects) && ClassName(Box) !in old(loadedModelClasses)
        && assets.loadObj(MeshPath(Box)).LoadFailed?
      ensures ClassName(Box) in old(loadedModelClasses) ==>
        && r.Pass? && loadedModelClasses == old(loadedModelClasses)
        && buffers.vertices == old(buffers.vertices) && buffers.indices == old(buffers.indices)
    {
      ghost var from := |objects|;
      r := AddBox(FloorSlab, from, []);
      if r.Fail? {
        return;
      }
      assert [] + [FloorSlab] == [FloorSlab];
      ghost var o0 := objects;
      AddWalls(from);
      assert objects[..|old(objects)|] == objects[..|o0|][..|old(objects)|];
    }

    /** The front, left, right and back walls, after the floor. */
    method AddWalls(ghost from: nat)
      requires Valid() && ClassName(Box) in loadedModelClasses && Laid(from, [FloorSlab])
      modifies this`objects, this`loadedModelClasses, statics`fields, world`bodies, buffers
      ensures Valid()
      ensures Laid(from, ScenePlan())
      ensures Grew(old(objects), old(statics.fields), objects, statics.fields)
      ensures loadedModelClasses == old(loadedModelClasses)
      ensures buffers.vertices == old(buffers.vertices) && buffers.indices == old(buffers.indices)
    {
      ghost var plan := [FloorSlab];
      AddWall(FrontWall, from, plan);
      plan := plan + Rows(FrontWall, WallRows);
      ghost var o1, f1 := objects, statics.fields;
      AddWall(LeftWall, from, plan);
      plan := plan + Rows(LeftWall, WallRows);
      GrewTrans(old(objects), old(statics.fields), o1, f1, objects, statics.fields);
      ghost var o2, f2 := objects, statics.fields;
      AddWall(RightWall, from, plan);
      plan := plan + Rows(RightWall, WallRows);
      GrewTrans(old(objects), old(statics.fields), o2, f2, objects, statics.fields);
      ghost var o3, f3 := objects, statics.fields;
      AddWall(BackWall, from, plan);
      GrewTrans(old(objects), old(statics.fields), o3, f3, objects, statics.fields);
      ScenePlanWalls();
    }

    /** One wall: rows y = 0, 0.5, ... below WallHeight, each one brick per unit coordinate, the stagger toggling per row. */
    method AddWall(w: Wall, ghost from: nat, ghost plan: seq<Placement>)
      requires w.start <= w.end
      requires Valid() && ClassName(Box) in loadedModelClasses && Laid(from, plan)
      modifies this`objects, this`loadedModelClasses, statics`fields, world`bodies, buffers
      ensures Valid() && Laid(from, plan + Rows(w, WallRows))
      ensures Grew(old(objects), old(statics.fields), objects, statics.fields)
      ensures loadedModelClasses == old(loadedModelClasses)
      ensures buffers.vertices == old(buffers.vertices) && buffers.indices == old(buffers.indices)
    {
      var step := w.firstStep;
      var y := 0.0;
      ghost var row := 0;
      while y < WallHeight
        invariant 0 <= row <= WallRows && y == row as real * WallStep && step == Stagger(w, row)
        invariant Valid() && ClassName(Box) in loadedModelClasses && Laid(from, plan + Rows(w, row))
        invariant Grew(old(objects), old(statics.fields), objects, statics.fields)
        invariant loadedModelClasses == old(loadedModelClasses)
        invariant buffers.vertices == old(buffers.vertices) && buffers.indices == old(buffers.indices)
        decreases WallRows - row
      {
        ghost var before, fields := objects, statics.fields;
        AddRow(w, row, step, y, from, plan + Rows(w, row));
        GrewTrans(old(objects), old(statics.fields), before, fields, objects, statics.fields);
        RowsStep(plan, w, row);
        StaggerStep(w, row);
        step := !step;
        y := y + WallStep;
        row := row + 1;
      }
      assert row == WallRows;
    }

    /** One row of a wall: a brick at every unit coordinate from the wall's start up to its end. */
    method AddRow(w: Wall, ghost row: nat, step: bool, y: real, ghost from: nat, ghost plan: seq<Placement>)
      requires w.start <= w.end && step == Stagger(w, row) && y == row as real * WallStep
      requires Valid() && ClassName(Box) in loadedModelClasses && Laid(from, plan)
      modifies this`objects, this`loadedModelClasses, statics`fields, world`bodies, buffers
      ensures Valid() && Laid(from, plan + Row(w, row))
      ensures Grew(old(objects), old(statics.fields), objects, statics.fields)
      ensures loadedModelClasses == old(loadedModelClasses)
      ensures buffers.vertices == old(buffers.vertices) && buffers.indices == old(buffers.indices)
    {
      var offset := if step then 0.5 else 0.0;
      var x := w.start as real;
      ghost var k := 0;
      while x < w.end as real
        invariant 0 <= k <= w.end - w.start && x == (w.start + k) as real
        invariant Valid() && ClassName(Box) in loadedModelClasses && Laid(from, plan + Row(w, row)[..k])
        invariant Grew(old(objects), old(statics.fields), objects, statics.fields)
        invariant loadedModelClasses == old(loadedModelClasses)
        invariant buffers.vertices == old(buffers.vertices) && buffers.indices == old(buffers.indices)
        decreases w.end - w.start - k
      {
        var position := if w.alongX then Vec3(x + offset + w.shift, y, w.fixed) else Vec3(w.fixed, y, x + offset + w.shift);
        ghost var before, fields := objects, statics.fields;
        AddBrick(w, row, k, position, from, plan);
        GrewTrans(old(objects), old(statics.fields), before, fields, objects, statics.fields);
        x := x + 1.0;
        k := k + 1;
      }
      assert Row(w, row)[..k] == Row(w, row);
    }

    /** The k-th brick of a row, at `position`, after the row's first k bricks. */
    method AddBrick(w: Wall, ghost row: nat, ghost k: nat, position: Vec3, ghost from: nat, ghost plan: seq<Placement>)
      requires w.start <= w.end && k < w.end - w.start && Placement(position, BrickSize, Dynamic) == Brick(w, row, w.start + k)
      requires Valid() && ClassName(Box) in loadedModelClasses && Laid(from, plan + Row(w, row)[..k])
      modifies this`objects, this`loadedModelClasses, statics`fields, world`bodies, buffers
      ensures Valid() && ClassName(Box) in loadedModelClasses && Laid(from, plan + Row(w, row)[..k + 1])
      ensures Grew(old(objects), old(statics.fields), objects, statics.fields)
      ensures loadedModelClasses == old(loadedModelClasses)
      ensures buffers.vertices == old(buffers.vertices) && buffers.indices == old(buffers.indices)
    {
      var _ := AddBox(Placement(position, BrickSize, Dynamic), from, plan + Row(w, row)[..k]);
      PrefixStep(plan, Row(w, row), k);
    }

    /**
     * addModel<Box> at p's position with p's scale and body type, appended after the
     * objects already laid out from `from` on.
     */
    method AddBox(p: Placement, ghost from: nat, ghost plan: seq<Placement>) returns (r: Outcome)
      requires Valid() && Laid(from, plan)
      modifies this`objects, this`loadedModelClasses, statics`fields, world`bodies, buffers
      ensures Valid()
      ensures ClassName(Box) in old(loadedModelClasses) ==>
        && r.Pass? && loadedModelClasses == old(loadedModelClasses)
        && buffers.vertices == old(buffers.vertices) && buffers.indices == old(buffers.indices)
        && Grew(old(objects), old(statics.fields), objects, statics.fields)
      ensures r.Pass? ==>
        && Laid(from, plan + [p]) && ClassName(Box) in loadedModelClasses
        && |objects| == |old(objects)| + 1 && objects[..|old(objects)|] == old(objects)
        && statics.fields[Box].totalNb == old(statics.fields[Box].totalNb) + 1
      ensures r.Fail? ==>
        && objects == old(objects) && ClassName(Box) !in old(loadedModelClasses)
        && assets.loadObj(MeshPath(Box)).LoadFailed?
    {
      ghost var before := objects;
      ghost var bodies := world.bodies;
      var m;
      m, r := AddModel(Box, p.position, p.scale, p.bodyType);
      if r.Pass? {
        forall k | 0 <= k < |plan|
          ensures Placed(objects[from + k], plan[k])
        {
          assert objects[from + k] == before[from + k];
          assert world.bodies[before[from + k].physicsBody.value] == bodies[before[from + k].physicsBody.value];
        }
        assert objects[from + |plan|] == m;
      }
    }
  }
}