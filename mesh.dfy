/**
 * Vertex data and the vertex-deduplicating index-buffer builder used when a model's
 * mesh is loaded.  A corner is one entry of a shape's index list as the OBJ loader
 * resolves it: its file position and its file texture coordinates.
 */
module Mesh {
  import opened LinAlg

  /** A vertex; datatype equality is field-wise, as Vertex::operator== is. */
  datatype Vertex = Vertex(pos: Vec3, color: Vec3, texCoord: Vec2)

  datatype Corner = Corner(pos: Vec3, uv: Vec2)

  /** What the OBJ loader yields: the shapes of the file, or its warning and error text. */
  datatype ObjLoad = Loaded(shapes: seq<seq<Corner>>) | LoadFailed(warn: string, err: string)

  const White := Vec3(1.0, 1.0, 1.0)

  /** The vertex built for one corner: white, with the texture v coordinate flipped. */
  function MakeVertex(c: Corner): Vertex {
    Vertex(c.pos, White, Vec2(c.uv.x, 1.0 - c.uv.y))
  }

  /** All corners of all shapes, shape by shape, in order. */
  function Flatten(shapes: seq<seq<Corner>>): (r: seq<Corner>)
    ensures shapes == [] ==> r == []
  {
    if shapes == [] then [] else Flatten(shapes[..|shapes| - 1]) + shapes[|shapes| - 1]
  }

  function Vertices(cs: seq<Corner>): (r: seq<Vertex>)
    ensures |r| == |cs| && forall k :: 0 <= k < |cs| ==> r[k] == MakeVertex(cs[k])
  {
    seq(|cs|, k requires 0 <= k < |cs| => MakeVertex(cs[k]))
  }

  /** A model's own vertex list, index list and vertex-to-index map. */
  datatype MeshState = MeshState(vertices: seq<Vertex>, indices: seq<int>, unique: map<Vertex, int>)

  const EmptyMesh := MeshState([], [], map[])

  /**
   * The map indexes exactly the vertex list, each vertex at its own position, and
   * every index points into the vertex list.
   */
  ghost predicate WellFormed(st: MeshState) {
    && (forall v :: v in st.unique ==> 0 <= st.unique[v] < |st.vertices| && st.vertices[st.unique[v]] == v)
    && (forall i :: 0 <= i < |st.vertices| ==> st.vertices[i] in st.unique && st.unique[st.vertices[i]] == i)
    && (forall k :: 0 <= k < |st.indices| ==> 0 <= st.indices[k] < |st.vertices|)
  }

  /** One corner through the loop body: a vertex not yet seen is appended, then its index is emitted. */
  function Push(st: MeshState, v: Vertex): MeshState {
    if v in st.unique then st.(indices := st.indices + [st.unique[v]])
    else MeshState(st.vertices + [v], st.indices + [|st.vertices|], st.unique[v := |st.vertices|])
  }

  /** The state after pushing every vertex of vs, in order, starting from st. */
  function Dedup(st: MeshState, vs: seq<Vertex>): MeshState
  {
    if vs == [] then st else Push(Dedup(st, vs[..|vs| - 1]), vs[|vs| - 1])
  }

  lemma EmptyMeshWellFormed()
    ensures WellFormed(EmptyMesh)
  {
  }

  /** One push extends both lists; the emitted index names v and v is the only vertex appended. */
  lemma PushShape(st: MeshState, v: Vertex)
    requires WellFormed(st)
    ensures var r := Push(st, v);
      && |r.indices| == |st.indices| + 1
      && r.indices[..|st.indices|] == st.indices
      && |st.vertices| <= |r.vertices|
      && r.vertices[..|st.vertices|] == st.vertices
      && 0 <= r.indices[|st.indices|] < |r.vertices|
      && r.vertices[r.indices[|st.indices|]] == v
      && (forall i :: |st.vertices| <= i < |r.vertices| ==> r.vertices[i] == v)
  {
  }

  /** One push keeps the state well formed. */
  lemma PushWellFormed(st: MeshState, v: Vertex)
    requires WellFormed(st)
    ensures WellFormed(Push(st, v))
  {
    var r := Push(st, v);
    if v !in st.unique {
      forall u | u in r.unique
        ensures 0 <= r.unique[u] < |r.vertices| && r.vertices[r.unique[u]] == u
      {
        if u != v {
          assert u in st.unique;
        }
      }
      forall i | 0 <= i < |r.vertices|
        ensures r.vertices[i] in r.unique && r.unique[r.vertices[i]] == i
      {
        if i < |st.vertices| {
          assert r.vertices[i] == st.vertices[i];
          assert st.vertices[i] != v;
        }
      }
    }
  }

  /**
   * r is st after pushing vs: both old lists are prefixes, exactly one index was
   * emitted per vertex, in order, each naming that vertex, and only vertices of vs
   * were appended.
   */
  ghost predicate Extends(st: MeshState, r: MeshState, vs: seq<Vertex>) {
    && |r.indices| == |st.indices| + |vs|
    && r.indices[..|st.indices|] == st.indices
    && |st.vertices| <= |r.vertices|
    && r.vertices[..|st.vertices|] == st.vertices
    && (forall j :: |st.indices| <= j < |st.indices| + |vs| ==>
          0 <= r.indices[j] < |r.vertices| && r.vertices[r.indices[j]] == vs[j - |st.indices|])
    && (forall i :: |st.vertices| <= i < |r.vertices| ==> r.vertices[i] in vs)
  }

  /** The builder's contract: from a well-formed state, pushing vs stays well formed and extends it. */
  lemma {:induction false} DedupFacts(st: MeshState, vs: seq<Vertex>)
    requires WellFormed(st)
    ensures WellFormed(Dedup(st, vs)) && Extends(st, Dedup(st, vs), vs)
  {
    if vs != [] {
      var n := |vs| - 1;
      DedupFacts(st, vs[..n]);
      var p := Dedup(st, vs[..n]);
      PushWellFormed(p, vs[n]);
      ExtendsStep(st, p, vs);
    }
  }

  lemma ExtendsStep(st: MeshState, p: MeshState, vs: seq<Vertex>)
    requires vs != [] && WellFormed(p)
    requires Extends(st, p, vs[..|vs| - 1])
    ensures Extends(st, Push(p, vs[|vs| - 1]), vs)
  {
    var n := |vs| - 1;
    PushShape(p, vs[n]);
    var r := Push(p, vs[n]);
    ExtendsPrefixes(st, p, r);
    ExtendsIndices(st, p, r, vs);
    ExtendsVertices(st, p, r, vs);
  }

  /** Prefixes of prefixes: what st's lists are to p's, they are to r's. */
  lemma ExtendsPrefixes(st: MeshState, p: MeshState, r: MeshState)
    requires |st.indices| <= |p.indices| <= |r.indices| && |st.vertices| <= |p.vertices| <= |r.vertices|
    requires p.indices[..|st.indices|] == st.indices && r.indices[..|p.indices|] == p.indices
    requires p.vertices[..|st.vertices|] == st.vertices && r.vertices[..|p.vertices|] == p.vertices
    ensures r.indices[..|st.indices|] == st.indices && r.vertices[..|st.vertices|] == st.vertices
  {
    assert r.indices[..|st.indices|] == r.indices[..|p.indices|][..|st.indices|];
    assert r.vertices[..|st.vertices|] == r.vertices[..|p.vertices|][..|st.vertices|];
  }

  /** After one more emitted index every emitted index still names its vertex. */
  lemma ExtendsIndices(st: MeshState, p: MeshState, r: MeshState, vs: seq<Vertex>)
    requires vs != [] && |p.indices| == |st.indices| + |vs| - 1
    requires |r.indices| == |p.indices| + 1 && r.indices[..|p.indices|] == p.indices
    requires |p.vertices| <= |r.vertices| && r.vertices[..|p.vertices|] == p.vertices
    requires 0 <= r.indices[|p.indices|] < |r.vertices| && r.vertices[r.indices[|p.indices|]] == vs[|vs| - 1]
    requires forall j :: |st.indices| <= j < |p.indices| ==>
      0 <= p.indices[j] < |p.vertices| && p.vertices[p.indices[j]] == vs[j - |st.indices|]
    ensures forall j :: |st.indices| <= j < |r.indices| ==>
      0 <= r.indices[j] < |r.vertices| && r.vertices[r.indices[j]] == vs[j - |st.indices|]
  {
    forall j | |st.indices| <= j < |p.indices|
      ensures 0 <= r.indices[j] < |r.vertices| && r.vertices[r.indices[j]] == vs[j - |st.indices|]
    {
      assert r.indices[j] == r.indices[..|p.indices|][j] == p.indices[j];
      assert r.vertices[p.indices[j]] == r.vertices[..|p.vertices|][p.indices[j]] == p.vertices[p.indices[j]];
    }
  }

  /** After appending copies of the last vertex every vertex appended since st is one of vs. */
  lemma ExtendsVertices(st: MeshState, p: MeshState, r: MeshState, vs: seq<Vertex>)
    requires vs != [] && |st.vertices| <= |p.vertices| <= |r.vertices| && r.vertices[..|p.vertices|] == p.vertices
    requires forall i :: |p.vertices| <= i < |r.vertices| ==> r.vertices[i] == vs[|vs| - 1]
    requires forall i :: |st.vertices| <= i < |p.vertices| ==> p.vertices[i] in vs[..|vs| - 1]
    ensures forall i :: |st.vertices| <= i < |r.vertices| ==> r.vertices[i] in vs
  {
    forall i | |st.vertices| <= i < |r.vertices|
      ensures r.vertices[i] in vs
    {
      if i < |p.vertices| {
        assert r.vertices[i] == r.vertices[..|p.vertices|][i] == p.vertices[i];
        var k :| 0 <= k < |vs| - 1 && vs[..|vs| - 1][k] == p.vertices[i];
        assert vs[k] == p.vertices[i];
      }
    }
  }

  /** A well-formed vertex list holds no vertex twice. */
  lemma NoDuplicates(st: MeshState)
    requires WellFormed(st)
    ensures forall i, j :: 0 <= i < j < |st.vertices| ==> st.vertices[i] != st.vertices[j]
  {
    forall i, j | 0 <= i < j < |st.vertices|
      ensures st.vertices[i] != st.vertices[j]
    {
      assert st.unique[st.vertices[i]] == i;
      assert st.unique[st.vertices[j]] == j;
    }
  }

  /** Every vertex built from a model file is white and has its texture v coordinate flipped. */
  lemma {:induction false} LoadedVerticesWhite(cs: seq<Corner>)
    ensures var r := Dedup(EmptyMesh, Vertices(cs));
      forall i :: 0 <= i < |r.vertices| ==>
        r.vertices[i].color == White &&
        exists k :: 0 <= k < |cs| && r.vertices[i].texCoord.y == 1.0 - cs[k].uv.y && r.vertices[i].pos == cs[k].pos
  {
    var vs := Vertices(cs);
    EmptyMeshWellFormed();
    DedupFacts(EmptyMesh, vs);
    var r := Dedup(EmptyMesh, vs);
    forall i | 0 <= i < |r.vertices|
      ensures r.vertices[i].color == White
      ensures exists k :: 0 <= k < |cs| && r.vertices[i].texCoord.y == 1.0 - cs[k].uv.y && r.vertices[i].pos == cs[k].pos
    {
      assert r.vertices[i] in vs;
      var k :| 0 <= k < |vs| && vs[k] == r.vertices[i];
      assert vs[k] == MakeVertex(cs[k]);
    }
  }

  /** The shared vertex and index buffers every loaded model appends to. */
  class MeshBuffers {
    var vertices: seq<Vertex>
    var indices: seq<int>

    constructor ()
      ensures vertices == [] && indices == []
    {
      vertices := [];
      indices := [];
    }
  }
}
