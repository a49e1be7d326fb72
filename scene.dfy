/** The imported scene the model loader walks, as plain values: a tree of
    nodes that refer to meshes by index, meshes with per-vertex attributes,
    faces and a material, and materials that list texture files per slot. */
module SceneGraph {
  import opened CoreTypes

  /** The importer's texture slots that the loader reads. */
  datatype Slot = BaseColor | Metalness | DiffuseRoughness | AmbientOcclusionSlot | HeightSlot | AmbientSlot

  /** The texture file names a material lists, per slot. */
  datatype Material = Material(files: map<Slot, seq<string>>)

  /** The file names listed under `slot`, none when the slot is absent. */
  function TextureFiles(m: Material, slot: Slot): (files: seq<string>) {
    if slot in m.files then m.files[slot] else []
  }

  datatype Face = Face(indices: seq<nat>)

  /** An imported mesh; `texCoords` is the first texture-coordinate set, if
      the mesh has one. */
  datatype SceneMesh = SceneMesh(
    positions: seq<Vec3>, normals: seq<Vec3>, texCoords: Option<seq<Vec3>>,
    tangents: seq<Vec3>, faces: seq<Face>, materialIndex: nat)

  datatype Node = Node(meshes: seq<nat>, children: seq<Node>)

  /** What the importer returns for a readable file; `incomplete` is the
      importer's "scene incomplete" flag. */
  datatype Scene = Scene(meshes: seq<SceneMesh>, materials: seq<Material>, root: Option<Node>, incomplete: bool)

  /** Every mesh index in the tree below `n` is below `count`. */
  ghost predicate NodeInRange(n: Node, count: nat)
    decreases n
  {
    (forall i :: 0 <= i < |n.meshes| ==> n.meshes[i] < count) &&
    (forall i :: 0 <= i < |n.children| ==> NodeInRange(n.children[i], count))
  }

  /** The per-vertex arrays of a mesh agree in length. */
  ghost predicate VertexArraysAgree(m: SceneMesh) {
    |m.normals| == |m.positions| &&
    (m.texCoords.Some? ==> |m.texCoords.value| == |m.positions| && |m.tangents| == |m.positions|)
  }

  /** Per-vertex arrays agree in length, and the material index exists. */
  ghost predicate MeshWellFormed(m: SceneMesh, materialCount: nat) {
    VertexArraysAgree(m) && m.materialIndex < materialCount
  }

  /** The guarantees the importer gives about a scene it returns. */
  ghost predicate WellFormed(s: Scene) {
    (forall i :: 0 <= i < |s.meshes| ==> MeshWellFormed(s.meshes[i], |s.materials|)) &&
    (s.root.Some? ==> NodeInRange(s.root.value, |s.meshes|))
  }

  /** The mesh indices met in a depth-first, pre-order walk: a node's own
      meshes, in order, before those of its children, child by child. */
  function PreOrder(n: Node): (order: seq<nat>)
    decreases n, 1
  {
    n.meshes + PreOrderAll(n.children)
  }

  function PreOrderAll(ns: seq<Node>): (order: seq<nat>)
    decreases ns, 0
  {
    if ns == [] then [] else PreOrderAll(ns[..|ns| - 1]) + PreOrder(ns[|ns| - 1])
  }

  /** Walking a concatenation of sibling lists walks the first, then the
      second. */
  lemma {:induction false} PreOrderAllAppend(a: seq<Node>, b: seq<Node>)
    ensures PreOrderAll(a + b) == PreOrderAll(a) + PreOrderAll(b)
    decreases |b|
  {
    if b == [] {
      assert a + b == a;
    } else {
      var front := b[..|b| - 1];
      assert (a + b)[..|a + b| - 1] == a + front;
      assert (a + b)[|a + b| - 1] == b[|b| - 1];
      PreOrderAllAppend(a, front);
    }
  }

  /** Depth-first pre-order: a node's walk is its own meshes, then the
      walks of the children before child `i`, then the walk of child `i`,
      then those of the children after it. */
  lemma {:induction false} PreOrderChild(n: Node, i: nat)
    requires i < |n.children|
    ensures PreOrder(n) == n.meshes + PreOrderAll(n.children[..i]) + PreOrder(n.children[i])
                           + PreOrderAll(n.children[i + 1..])
  {
    var cs := n.children;
    assert cs == cs[..i] + [cs[i]] + cs[i + 1..];
    PreOrderAllAppend(cs[..i] + [cs[i]], cs[i + 1..]);
    PreOrderAllAppend(cs[..i], [cs[i]]);
    assert [cs[i]][..0] == [];
  }

  /** The face indices, face after face, in order. */
  function FlattenIndices(faces: seq<Face>): (indices: seq<nat>)
  {
    if faces == [] then [] else FlattenIndices(faces[..|faces| - 1]) + faces[|faces| - 1].indices
  }

  /** Every face is a triangle (the importer triangulates). */
  ghost predicate AllTriangles(faces: seq<Face>) {
    forall i :: 0 <= i < |faces| ==> |faces[i].indices| == 3
  }

  /** For triangles the flattened list has three indices per face, and
      index `j` of face `i` sits at position `3 * i + j`. */
  lemma {:induction false} FlattenTriangles(faces: seq<Face>)
    requires AllTriangles(faces)
    ensures |FlattenIndices(faces)| == 3 * |faces|
    ensures forall i, j :: 0 <= i < |faces| && 0 <= j < 3 ==>
              FlattenIndices(faces)[3 * i + j] == faces[i].indices[j]
  {
    if faces != [] {
      var front := faces[..|faces| - 1];
      assert AllTriangles(front) by {
        forall i | 0 <= i < |front| ensures |front[i].indices| == 3 {
          assert front[i] == faces[i];
        }
      }
      FlattenTriangles(front);
      var last := faces[|faces| - 1].indices;
      assert FlattenIndices(faces) == FlattenIndices(front) + last;
      forall i, j | 0 <= i < |faces| && 0 <= j < 3
        ensures FlattenIndices(faces)[3 * i + j] == faces[i].indices[j]
      {
        if i < |front| {
          assert front[i] == faces[i];
          assert 3 * i + j < |FlattenIndices(front)|;
        } else {
          assert 3 * i + j == |FlattenIndices(front)| + j;
        }
      }
    }
  }

  /** The vertex built from entry `i` of an imported mesh: position and
      normal always; texture coordinates (first two components) and tangent
      only when the mesh has texture coordinates, zero otherwise. */
  function BuildVertex(m: SceneMesh, i: nat): (v: Vertex)
    requires i < |m.positions| && VertexArraysAgree(m)
  {
    if m.texCoords.Some? then
      Vertex(m.positions[i], m.normals[i], Vec2(m.texCoords.value[i].x, m.texCoords.value[i].y), m.tangents[i])
    else
      Vertex(m.positions[i], m.normals[i], Zero2, Zero3)
  }

  /** The vertices of an imported mesh, one per position, in order. */
  function Vertices(m: SceneMesh): (vs: seq<Vertex>)
    requires VertexArraysAgree(m)
    ensures |vs| == |m.positions|
    ensures forall i :: 0 <= i < |vs| ==> vs[i].position == m.positions[i] && vs[i].normal == m.normals[i]
  {
    seq(|m.positions|, i requires 0 <= i < |m.positions| => BuildVertex(m, i))
  }
}
