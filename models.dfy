/**
 * The renderable model record and its archetypes.  The source gives each archetype
 * (Box, Bridge, Commodore, Hatchet, House, Skull) its own subclass of Model whose
 * draw range, texture slot and instance counter are class-static fields.  Here a
 * model carries its archetype as a tag and every model refers to one ClassStatics
 * object that holds the static fields of all archetype classes, one record per class.
 */
module Models {
  import opened Wrappers
  import opened LinAlg
  import opened Physics
  import opened Mesh

  datatype ModelClass = Box | Bridge | Commodore | Hatchet | House | Skull

  /** A plain Model, or an instance of one archetype subclass. */
  datatype Kind = Base | Archetype(cls: ModelClass)

  /** MODEL_PATH as each archetype constructor sets it. */
  function MeshPath(c: ModelClass): string {
    match c
    case Box => "models/cube.obj"
    case Bridge => "models/bridge.obj"
    case Commodore => "models/low_spec_commodore_pet.obj"
    case Hatchet => "models/hatchet.obj"
    case House => "models/house.obj"
    case Skull => "models/skull_monster.obj"
  }

  /** TEXTURE_PATH as each archetype constructor sets it. */
  function TexturePath(c: ModelClass): string {
    match c
    case Box => "textures/cube_rough.png"
    case Bridge => "textures/bridge_diffuse.png"
    case Commodore => "textures/c_pet_tex.png"
    case Hatchet => "textures/hatchet_diffuse.png"
    case House => "textures/house.png"
    case Skull => "textures/Skull_Monster_512.png"
  }

  /** The run-time class name addModel uses as its de-duplication key. */
  function ClassName(c: ModelClass): (r: string)
    ensures |r| > 0
  {
    match c
    case Box => "Box"
    case Bridge => "Bridge"
    case Commodore => "Commodore"
    case Hatchet => "Hatchet"
    case House => "House"
    case Skull => "Skull"
  }

  /** Distinct archetype classes have distinct run-time names. */
  lemma ClassNameInjective(c: ModelClass, d: ModelClass)
    ensures ClassName(c) == ClassName(d) <==> c == d
  {
  }

  /** The five class-static fields of one archetype class. */
  datatype StaticFields = StaticFields(totalNb: int, textureId: int, vertexOffset: int,
                                       indexOffset: int, indicesCount: int)

  const ZeroStatics := StaticFields(0, 0, 0, 0, 0)

  /** The static storage of every archetype class. */
  class ClassStatics {
    var fields: map<ModelClass, StaticFields>

    ghost predicate Valid()
      reads this
    {
      forall c: ModelClass :: c in fields
    }

    /** Static initialisation: every field of every archetype class starts at 0. */
    constructor ()
      ensures Valid()
      ensures forall c: ModelClass :: fields[c] == ZeroStatics
    {
      var f := map[Box := ZeroStatics, Bridge := ZeroStatics, Commodore := ZeroStatics,
                   Hatchet := ZeroStatics, House := ZeroStatics, Skull := ZeroStatics];
      fields := f;
      forall c: ModelClass
        ensures c in f && f[c] == ZeroStatics
      {
        match c
        case Box =>
        case Bridge =>
        case Commodore =>
        case Hatchet =>
        case House =>
        case Skull =>
      }
    }
  }

  /**
   * The model matrix a new model starts with: the identity, translated to `position`
   * when `matrixOffset` is set, then scaled by `scale`.
   */
  function InitialMatrix(scale: Vec3, matrixOffset: bool, position: Vec3): (m: Mat4)
    ensures m.c0 == Vec4(scale.x, 0.0, 0.0, 0.0)
    ensures m.c1 == Vec4(0.0, scale.y, 0.0, 0.0)
    ensures m.c2 == Vec4(0.0, 0.0, scale.z, 0.0)
    ensures m.c3 == Point(if matrixOffset then position else Origin)
  {
    var t := if matrixOffset then Translate(Identity, position) else Identity;
    Scale(t, scale)
  }

  /** The body a model with a rigid body gets: at `position`, unrotated, of the given type, with a box collider of half-extents `scale`. */
  function InitialBody(position: Vec3, bodyType: BodyType, scale: Vec3): RigidBody {
    RigidBody(Pose(position, IdentityOrientation), bodyType, Some(scale), Origin, None)
  }

  /** Create a rigid body at `position`, set its type and attach a box collider. */
  method CreateBoxBody(world: World, position: Vec3, bodyType: BodyType, scale: Vec3) returns (h: nat)
    modifies world`bodies
    ensures h == |old(world.bodies)|
    ensures world.bodies == old(world.bodies) + [InitialBody(position, bodyType, scale)]
  {
    h := world.CreateRigidBody(Pose(position, IdentityOrientation));
    world.SetType(h, bodyType);
    world.AddBoxCollider(h, scale);
  }

  class Model {
    const kind: Kind
    const statics: ClassStatics
    var modelId: int
    var scale: Vec3
    var model: Mat4
    var overrideTexturePath: string
    var meshPath: string
    var texturePath: string
    var position: Vec3
    var vertices: seq<Vertex>
    var indices: seq<int>
    var uniqueVertices: map<Vertex, int>
    /** The handle of the model's rigid body in the world, if it has one. */
    var physicsBody: Option<nat>

    /** `position` mirrors the translation column, and the model's own mesh lists are well formed. */
    ghost predicate Valid()
      reads this
    {
      position == TranslationOf(model) && WellFormed(MeshState(vertices, indices, uniqueVertices))
    }

    ghost function Mesh(): MeshState
      reads this
    {
      MeshState(vertices, indices, uniqueVertices)
    }

    /** Model::Model for a plain model with the given id. */
    constructor (modelId: int, statics: ClassStatics, scale: Vec3, matrixOffset: bool, position: Vec3,
                 createRigidBody: bool, bodyType: BodyType, world: World)
      modifies world`bodies
      ensures Valid()
      ensures kind == Base && this.statics == statics && this.modelId == modelId
      ensures this.scale == scale && model == InitialMatrix(scale, matrixOffset, position)
      ensures this.position == (if matrixOffset then position else Origin)
      ensures overrideTexturePath == "" && meshPath == "" && texturePath == ""
      ensures Mesh() == EmptyMesh
      ensures createRigidBody ==> physicsBody == Some(|old(world.bodies)|) &&
                                  world.bodies == old(world.bodies) + [InitialBody(position, bodyType, scale)]
      ensures !createRigidBody ==> physicsBody == None && world.bodies == old(world.bodies)
    {
      kind := Base;
      this.statics := statics;
      this.modelId := modelId;
      this.scale := scale;
      var m := InitialMatrix(scale, matrixOffset, position);
      model := m;
      this.position := TranslationOf(m);
      overrideTexturePath, meshPath, texturePath := "", "", "";
      vertices, indices, uniqueVertices := [], [], map[];
      if createRigidBody {
        var h := CreateBoxBody(world, position, bodyType, scale);
        physicsBody := Some(h);
      } else {
        physicsBody := None;
      }
    }

    /**
     * An archetype constructor (Box::Box, Bridge::Bridge, ...): the id is the class's
     * instance counter before construction, the rest is Model::Model, then the class
     * sets its two asset paths and increments its counter.
     */
    constructor Of(cls: ModelClass, statics: ClassStatics, scale: Vec3, matrixOffset: bool, position: Vec3,
                   createRigidBody: bool, bodyType: BodyType, world: World)
      requires statics.Valid()
      modifies statics`fields, world`bodies
      ensures Valid() && statics.Valid()
      ensures kind == Archetype(cls) && this.statics == statics
      ensures modelId == old(statics.fields[cls].totalNb)
      ensures statics.fields == old(statics.fields)[cls := old(statics.fields[cls]).(totalNb := old(statics.fields[cls].totalNb) + 1)]
      ensures meshPath == MeshPath(cls) && texturePath == TexturePath(cls) && overrideTexturePath == ""
      ensures this.scale == scale && model == InitialMatrix(scale, matrixOffset, position)
      ensures this.position == (if matrixOffset then position else Origin)
      ensures Mesh() == EmptyMesh
      ensures createRigidBody ==> physicsBody == Some(|old(world.bodies)|) &&
                                  world.bodies == old(world.bodies) + [InitialBody(position, bodyType, scale)]
      ensures !createRigidBody ==> physicsBody == None && world.bodies == old(world.bodies)
    {
      kind := Archetype(cls);
      this.statics := statics;
      var f := statics.fields[cls];
      modelId := f.totalNb;
      this.scale := scale;
      var m := InitialMatrix(scale, matrixOffset, position);
      model := m;
      this.position := TranslationOf(m);
      overrideTexturePath := "";
      vertices, indices, uniqueVertices := [], [], map[];
      if createRigidBody {
        var h := CreateBoxBody(world, position, bodyType, scale);
        physicsBody := Some(h);
      } else {
        physicsBody := None;
      }
      meshPath := MeshPath(cls);
      texturePath := TexturePath(cls);
      statics.fields := statics.fields[cls := f.(totalNb := f.totalNb + 1)];
    }

    function GetModelId(): (r: int)
      reads this
      ensures r == modelId
    {
      modelId
    }

    function GetModelMatrix(): (m: Mat4)
      reads this
      ensures m == model
    {
      model
    }

    /** Store m and copy its translation column into `position`. */
    method SetModelMatrix(m: Mat4)
      modifies this`model, this`position
      ensures model == m && position == TranslationOf(m)
      ensures GetModelMatrix() == m
    {
      model := m;
      position := TranslationOf(m);
    }

    /** Record the scale and post-multiply columns 0 to 2; the translation column and `position` stay. */
    method SetScale(s: Vec3)
      requires Valid()
      modifies this`scale, this`model, this`position
      ensures Valid()
      ensures scale == s && model == Scale(old(model), s)
      ensures TranslationOf(model) == TranslationOf(old(model)) && position == old(position)
    {
      scale := s;
      SetModelMatrix(Scale(model, s));
    }

    /** The per-instance override when one is set, the class's texture path otherwise. */
    function GetTexturePath(): (p: string)
      reads this
      ensures overrideTexturePath != "" ==> p == overrideTexturePath
      ensures overrideTexturePath == "" ==> p == texturePath
    {
      if |overrideTexturePath| > 0 then overrideTexturePath else texturePath
    }

    method SetTexturePath(path: string)
      modifies this`overrideTexturePath
      ensures overrideTexturePath == path
      ensures GetTexturePath() == if path == "" then texturePath else path
    {
      overrideTexturePath := path;
    }

    /** The instance counter of the model's class; 0 for a plain model. */
    function GetModelCount(): (r: int)
      requires statics.Valid()
      reads this, statics
      ensures kind.Base? ==> r == 0
      ensures kind.Archetype? ==> r == statics.fields[kind.cls].totalNb
    {
      if kind.Base? then 0 else statics.fields[kind.cls].totalNb
    }

    /** The texture slot of the model's class; the sentinel -1 for a plain model. */
    function GetTextureId(): (r: int)
      requires statics.Valid()
      reads this, statics
      ensures kind.Base? ==> r == -1
      ensures kind.Archetype? ==> r == statics.fields[kind.cls].textureId
    {
      if kind.Base? then -1 else statics.fields[kind.cls].textureId
    }

    /** The first vertex of the class's range in the shared vertex buffer; -1 for a plain model. */
    function GetVertexOffset(): (r: int)
      requires statics.Valid()
      reads this, statics
      ensures kind.Base? ==> r == -1
      ensures kind.Archetype? ==> r == statics.fields[kind.cls].vertexOffset
    {
      if kind.Base? then -1 else statics.fields[kind.cls].vertexOffset
    }

    /** The first index of the class's range in the shared index buffer; -1 for a plain model. */
    function GetIndexOffset(): (r: int)
      requires statics.Valid()
      reads this, statics
      ensures kind.Base? ==> r == -1
      ensures kind.Archetype? ==> r == statics.fields[kind.cls].indexOffset
    {
      if kind.Base? then -1 else statics.fields[kind.cls].indexOffset
    }

    /** The number of indices of the class's range; -1 for a plain model. */
    function GetIndicesCount(): (r: int)
      requires statics.Valid()
      reads this, statics
      ensures kind.Base? ==> r == -1
      ensures kind.Archetype? ==> r == statics.fields[kind.cls].indicesCount
    {
      if kind.Base? then -1 else statics.fields[kind.cls].indicesCount
    }

    method SetTextureId(id: int)
      requires statics.Valid()
      modifies statics`fields
      ensures statics.Valid()
      ensures kind.Base? ==> statics.fields == old(statics.fields)
      ensures kind.Archetype? ==>
        statics.fields == old(statics.fields)[kind.cls := old(statics.fields[kind.cls]).(textureId := id)]
      ensures forall other: Model :: other.statics == statics && other.kind == kind && kind.Archetype? ==>
        other.GetTextureId() == id
    {
      if kind.Archetype? {
        statics.fields := statics.fields[kind.cls := statics.fields[kind.cls].(textureId := id)];
      }
    }

    method SetVertexOffset(offset: int)
      requires statics.Valid()
      modifies statics`fields
      ensures statics.Valid()
      ensures kind.Base? ==> statics.fields == old(statics.fields)
      ensures kind.Archetype? ==>
        statics.fields == old(statics.fields)[kind.cls := old(statics.fields[kind.cls]).(vertexOffset := offset)]
      ensures forall other: Model :: other.statics == statics && other.kind == kind && kind.Archetype? ==>
        other.GetVertexOffset() == offset
    {
      if kind.Archetype? {
        statics.fields := statics.fields[kind.cls := statics.fields[kind.cls].(vertexOffset := offset)];
      }
    }

    method SetIndexOffset(offset: int)
      requires statics.Valid()
      modifies statics`fields
      ensures statics.Valid()
      ensures kind.Base? ==> statics.fields == old(statics.fields)
      ensures kind.Archetype? ==>
        statics.fields == old(statics.fields)[kind.cls := old(statics.fields[kind.cls]).(indexOffset := offset)]
      ensures forall other: Model :: other.statics == statics && other.kind == kind && kind.Archetype? ==>
        other.GetIndexOffset() == offset
    {
      if kind.Archetype? {
        statics.fields := statics.fields[kind.cls := statics.fields[kind.cls].(indexOffset := offset)];
      }
    }

    method SetIndicesCount(count: int)
      requires statics.Valid()
      modifies statics`fields
      ensures statics.Valid()
      ensures kind.Base? ==> statics.fields == old(statics.fields)
      ensures kind.Archetype? ==>
        statics.fields == old(statics.fields)[kind.cls := old(statics.fields[kind.cls]).(indicesCount := count)]
      ensures forall other: Model :: other.statics == statics && other.kind == kind && kind.Archetype? ==>
        other.GetIndicesCount() == count
    {
      if kind.Archetype? {
        statics.fields := statics.fields[kind.cls := statics.fields[kind.cls].(indicesCount := count)];
      }
    }

    /**
     * Load the model file and append its deduplicated mesh to the shared buffers.
     * On a load failure the error carries the loader's warning and error text and
     * nothing changes.  Otherwise the model's own lists grow by the builder's output,
     * the class's draw range records where that output lands in the shared buffers,
     * and the shared buffers get the model's lists appended.
     */
    method LoadModelPath(buffers: MeshBuffers, loadObj: string -> ObjLoad) returns (r: Outcome)
      requires Valid() && statics.Valid()
      modifies this`vertices, this`indices, this`uniqueVertices, buffers, statics`fields
      ensures Valid() && statics.Valid()
      ensures loadObj(meshPath).LoadFailed? ==>
        && r == Fail(loadObj(meshPath).warn + loadObj(meshPath).err)
        && Mesh() == old(Mesh())
        && buffers.vertices == old(buffers.vertices) && buffers.indices == old(buffers.indices)
        && statics.fields == old(statics.fields)
      ensures loadObj(meshPath).Loaded? ==>
        && r == Pass
        && Mesh() == Dedup(old(Mesh()), Vertices(Flatten(loadObj(meshPath).shapes)))
        && buffers.vertices == old(buffers.vertices) + vertices
        && buffers.indices == old(buffers.indices) + indices
        && (kind.Base? ==> statics.fields == old(statics.fields))
        && (kind.Archetype? ==> statics.fields == old(statics.fields)[kind.cls :=
              old(statics.fields[kind.cls]).(vertexOffset := |old(buffers.vertices)|,
                                             indexOffset := |old(buffers.indices)|,
                                             indicesCount := |indices|)])
    {
      var load := loadObj(meshPath);
      if load.LoadFailed? {
        return Fail(load.warn + load.err);
      }
      var shapes := load.shapes;
      ghost var start := Mesh();
      AddShapes(shapes);
      DedupFacts(start, Vertices(Flatten(shapes)));
      RecordDrawRange(|buffers.vertices|, |buffers.indices|, |indices|);
      buffers.vertices := buffers.vertices + vertices;
      buffers.indices := buffers.indices + indices;
      r := Pass;
    }

    /** setVertexOffset, setIndexOffset and setIndicesCount in a row, as the loader calls them. */
    method RecordDrawRange(vertexOffset: int, indexOffset: int, count: int)
      requires statics.Valid()
      modifies statics`fields
      ensures statics.Valid()
      ensures kind.Base? ==> statics.fields == old(statics.fields)
      ensures kind.Archetype? ==> statics.fields == old(statics.fields)[kind.cls :=
        old(statics.fields[kind.cls]).(vertexOffset := vertexOffset, indexOffset := indexOffset, indicesCount := count)]
    {
      if kind.Archetype? {
        var f := statics.fields[kind.cls];
        statics.fields := statics.fields[kind.cls := f.(vertexOffset := vertexOffset, indexOffset := indexOffset,
                                                        indicesCount := count)];
      }
    }

    /** The builder loop over every corner of every shape. */
    method AddShapes(shapes: seq<seq<Corner>>)
      modifies this`vertices, this`indices, this`uniqueVertices
      ensures Mesh() == Dedup(old(Mesh()), Vertices(Flatten(shapes)))
    {
      ghost var start := Mesh();
      var s := 0;
      while s < |shapes|
        invariant 0 <= s <= |shapes|
        invariant Mesh() == Dedup(start, Vertices(Flatten(shapes[..s])))
      {
        AddCorners(shapes[s], start, Flatten(shapes[..s]));
        assert shapes[..s + 1][..s] == shapes[..s];
        s := s + 1;
      }
      assert shapes[..|shapes|] == shapes;
    }

    /** The builder loop over the corners of one shape, appended after the corners `done`. */
    method AddCorners(shape: seq<Corner>, ghost start: MeshState, ghost done: seq<Corner>)
      requires Mesh() == Dedup(start, Vertices(done))
      modifies this`vertices, this`indices, this`uniqueVertices
      ensures Mesh() == Dedup(start, Vertices(done + shape))
    {
      var c := 0;
      assert done + shape[..c] == done;
      while c < |shape|
        invariant 0 <= c <= |shape|
        invariant Mesh() == Dedup(start, Vertices(done + shape[..c]))
      {
        var vertex := MakeVertex(shape[c]);
        if vertex !in uniqueVertices {
          uniqueVertices := uniqueVertices[vertex := |vertices|];
          vertices := vertices + [vertex];
        }
        indices := indices + [uniqueVertices[vertex]];
        CornerStep(start, done + shape[..c], shape[c]);
        assert done + shape[..c + 1] == done + shape[..c] + [shape[c]];
        c := c + 1;
      }
      assert shape[..|shape|] == shape;
    }
  }

  /** Pushing one more corner's vertex is one more step of the builder. */
  lemma CornerStep(st: MeshState, cs: seq<Corner>, c: Corner)
    ensures Dedup(st, Vertices(cs + [c])) == Push(Dedup(st, Vertices(cs)), MakeVertex(c))
  {
    var vs := Vertices(cs + [c]);
    assert vs[..|vs| - 1] == Vertices(cs);
  }
}
