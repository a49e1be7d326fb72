/** A model loaded from a scene file: its meshes in scene-walk order, the
    directory its textures are read from, the cache from texture file name
    to texture name, and at most one default texture per role. */
module Models {
  import opened CoreTypes
  import opened GL
  import opened Meshes
  import opened SceneGraph
  import opened MaterialLoading

  /** The position of the last '/' in `s`, if any. */
  function LastSlash(s: string): (r: Option<nat>)
    ensures r.None? <==> '/' !in s
    ensures r.Some? ==> r.value < |s| && s[r.value] == '/' && '/' !in s[r.value + 1..]
  {
    if s == [] then None
    else if s[|s| - 1] == '/' then Some(|s| - 1)
    else
      var r := LastSlash(s[..|s| - 1]);
      assert s == s[..|s| - 1] + [s[|s| - 1]];
      r
  }

  /** The part of `path` before its last '/', or all of it when it has
      none. */
  function DirectoryOf(path: string): (d: string)
    ensures d <= path
    ensures '/' !in path ==> d == path
    ensures '/' in path ==> |d| < |path| && path[|d|] == '/' && '/' !in path[|d| + 1..]
  {
    match LastSlash(path)
    case None => path
    case Some(i) => path[..i]
  }

  /** The directory of a texture path is the directory it was joined from,
      whenever the file name has no '/' of its own. */
  lemma DirectoryOfPath(directory: string, name: string)
    requires '/' !in name
    ensures DirectoryOf(PathOf(directory, name)) == directory
  {
    var p := PathOf(directory, name);
    assert p == directory + "/" + name;
    assert p[|directory|] == '/';
    assert p[|directory| + 1..] == name;
    assert p[..|directory|] == directory;
    var d := DirectoryOf(p);
    assert |d| == |directory|;
  }

  /** The importer found the file and returned a complete scene with a
      root node. */
  predicate ImportSucceeded(r: Option<Scene>) {
    r.Some? && !r.value.incomplete && r.value.root.Some?
  }

  /** The buffers of `mesh` hold the vertices and the flattened face
      indices of the imported mesh `m`, with the counts to match. */
  ghost predicate BuiltFrom(mesh: Mesh, m: SceneMesh)
    reads mesh
  {
    VertexArraysAgree(m) &&
    mesh.Valid() &&
    mesh.vertexData == Vertices(m) && mesh.numVertices == |m.positions| &&
    mesh.indexData == FlattenIndices(m.faces) && mesh.numIndices == |FlattenIndices(m.faces)|
  }

  /** `mesh` has the vertex array name `vao` and the buffer names `buffer`
      (vertices) and `buffer + 1` (indices), as the driver hands them out
      when its next names are `vao` and `buffer`. */
  ghost predicate BufferNames(mesh: Mesh, vao: nat, buffer: nat)
    reads mesh
  {
    mesh.vao == vao && mesh.vbo == buffer && mesh.ebo == buffer + 1
  }

  /** `mesh` was built from imported mesh `src` of `scene`: its buffers
      hold that mesh's vertices and indices, and its texture table is right
      for that mesh's material under `defaults` and `cache`. */
  ghost predicate MeshOf(mesh: Mesh, scene: Scene, src: nat,
                         defaults: map<TextureType, Texture>, cache: map<string, nat>)
    reads mesh
  {
    src < |scene.meshes| && scene.meshes[src].materialIndex < |scene.materials| &&
    BuiltFrom(mesh, scene.meshes[src]) &&
    TableForMaterial(mesh.textures, scene.materials[scene.meshes[src].materialIndex], defaults, cache)
  }

  /** A mesh stays right for its material when the cache only gains
      entries. */
  lemma MeshOfExtends(mesh: Mesh, scene: Scene, src: nat, defaults: map<TextureType, Texture>,
                      c0: map<string, nat>, c1: map<string, nat>)
    requires MeshOf(mesh, scene, src, defaults, c0) && CacheExtends(c0, c1)
    ensures MeshOf(mesh, scene, src, defaults, c1)
  {
    TableForMaterialExtends(mesh.textures, scene.materials[scene.meshes[src].materialIndex], defaults, c0, c1);
  }

  /** Meshes built for a cache stay right when the cache only gains
      entries, and one more mesh built for the larger cache can join them. */
  lemma AppendBuilt(ms: seq<Mesh>, srcs: seq<nat>, mesh: Mesh, src: nat, scene: Scene, from: nat,
                    defaults: map<TextureType, Texture>, c0: map<string, nat>, c1: map<string, nat>)
    requires |ms| == |srcs| && from <= |ms|
    requires forall k :: from <= k < |ms| ==> MeshOf(ms[k], scene, srcs[k], defaults, c0)
    requires CacheExtends(c0, c1) && MeshOf(mesh, scene, src, defaults, c1)
    ensures forall k :: from <= k < |ms| + 1 ==> MeshOf((ms + [mesh])[k], scene, (srcs + [src])[k], defaults, c1)
  {
    forall k | from <= k < |ms| + 1
      ensures MeshOf((ms + [mesh])[k], scene, (srcs + [src])[k], defaults, c1)
    {
      if k < |ms| {
        MeshOfExtends(ms[k], scene, srcs[k], defaults, c0, c1);
      }
    }
  }

  class Model {
    var transform: Transform
    var meshes: seq<Mesh>
    var directory: string
    /** Texture file name to texture name; one name per file. */
    var loadedTextures: map<string, nat>
    /** One default texture per role at most. */
    var defaultTextures: map<TextureType, Texture>
    var flipTexturesVertically: bool
    var instanceMatrixVBO: nat
    /** The file names the loader was called for, in order. */
    ghost var loadLog: seq<string>
    /** For each mesh, the index of the imported mesh it was built from. */
    ghost var meshSources: seq<nat>

    /** Every cached file was loaded exactly once, every default is stored
        under its own role, and every mesh has a source. */
    ghost predicate Valid()
      reads this
    {
      KeyedByRole(defaultTextures) &&
      LogMatchesCache(loadLog, loadedTextures) &&
      |meshSources| == |meshes|
    }

    /** Every mesh from position `from` on was built from the imported
        mesh its source names. */
    ghost predicate MeshesBuiltFrom(scene: Scene, from: nat)
      reads this, meshes
    {
      |meshSources| == |meshes| && from <= |meshes| &&
      forall k {:trigger MeshOf(meshes[k], scene, meshSources[k], defaultTextures, loadedTextures)} ::
        from <= k < |meshes| ==> MeshOf(meshes[k], scene, meshSources[k], defaultTextures, loadedTextures)
    }

    constructor (flip: bool)
      ensures Valid()
      ensures flipTexturesVertically == flip && instanceMatrixVBO == 0
      ensures meshes == [] && directory == [] && loadedTextures == map[] && defaultTextures == map[]
      ensures loadLog == [] && meshSources == []
    {
      flipTexturesVertically := flip;
      instanceMatrixVBO := 0;
      transform := Transform(Zero3, Zero3, 0.0, Zero3);
      meshes, directory, loadedTextures, defaultTextures := [], [], map[], map[];
      loadLog, meshSources := [], [];
    }

    /** True exactly when some texture file has been loaded. */
    function HasTextures(): (b: bool)
      reads this
      ensures b <==> loadedTextures != map[]
      ensures Valid() ==> (b <==> loadLog != [])
    {
      assert loadLog != [] ==> loadLog[0] in loadLog;
      assert loadedTextures != map[] ==> exists name :: name in loadedTextures;
      |loadedTextures| > 0
    }

    function GetTransform(): (t: Transform)
      reads this
    {
      transform
    }

    /** Whether a texture of a role is present: not implemented, always
        no. */
    function HasTexture(role: TextureType): (b: bool)
      ensures !b
    {
      false
    }

    /** A default is set for `role` exactly when the table has an entry for
        it, and that entry has the role. */
    function HasDefaultTexture(role: TextureType): (b: bool)
      reads this
      ensures b <==> role in defaultTextures
      ensures b && Valid() ==> defaultTextures[role].kind == role
    {
      role in defaultTextures
    }

    /** Inserts or overwrites the default for the texture's role; every
        other role keeps its default, and nothing else changes. */
    method SetDefaultTexture(texture: Texture)
      requires Valid()
      modifies this`defaultTextures
      ensures Valid()
      ensures defaultTextures == old(defaultTextures)[texture.kind := texture]
      ensures HasDefaultTexture(texture.kind) && defaultTextures[texture.kind] == texture
      ensures forall r :: r != texture.kind ==>
                (HasDefaultTexture(r) <==> old(HasDefaultTexture(r))) &&
                (r in defaultTextures ==> defaultTextures[r] == old(defaultTextures)[r])
    {
      defaultTextures := defaultTextures[texture.kind := texture];
    }

    /** Replaces the transform; `GetTransform` returns it from then on. */
    method SetTransform(t: Transform)
      modifies this`transform
      ensures GetTransform() == t
    {
      transform := t;
    }

    /** Appends the role's default to `textures` when one is set;
        otherwise `textures` comes back unchanged. */
    function AddDefaultTexture(textures: seq<Texture>, role: TextureType): (r: seq<Texture>)
      reads this
      ensures role in defaultTextures ==> r == textures + [defaultTextures[role]]
      ensures role !in defaultTextures ==> r == textures
    {
      if role in defaultTextures then textures + [defaultTextures[role]] else textures
    }

    /** The textures a material lists under `slot`, tagged `role`, in
        order: a file already in the cache reuses its texture, any other is
        loaded from "<directory>/<name>" (as sRGB exactly for Albedo) and
        cached. */
    method LoadMaterialTextures(material: Material, slot: Slot, role: TextureType, loader: Loader)
      returns (textures: seq<Texture>)
      requires Valid()
      modifies this`loadedTextures, this`loadLog
      ensures Valid()
      ensures var r := Offer(old(loadedTextures), old(loadLog), TextureFiles(material, slot),
                             LoadEnv(loader, directory, flipTexturesVertically), role);
              textures == r.textures && loadedTextures == r.cache && loadLog == r.log
    {
      var files := TextureFiles(material, slot);
      ghost var env := LoadEnv(loader, directory, flipTexturesVertically);
      ghost var cache0, log0 := loadedTextures, loadLog;
      textures := [];
      for i := 0 to |files|
        invariant textures == Offer(cache0, log0, files[..i], env, role).textures
        invariant loadedTextures == Offer(cache0, log0, files[..i], env, role).cache
        invariant loadLog == Offer(cache0, log0, files[..i], env, role).log
      {
        var name := files[i];
        OfferNext(cache0, log0, files, env, role, i);
        var id := 0;
        if name in loadedTextures {
          id := loadedTextures[name];
        } else {
          id := loader(PathOf(directory, name), flipTexturesVertically, IsSrgb(role));
          loadLog := loadLog + [name];
          loadedTextures := loadedTextures[name := id];
        }
        textures := textures + [Texture(id, role)];
      }
      assert files[..|files|] == files;
      OfferKeepsLogMatched(cache0, log0, files, env, role);
    }

    /** The material branch of mesh processing: the six role groups loaded
        in slot order, each empty group then given its role's default, and
        the groups concatenated. */
    method LoadMaterial(material: Material, loader: Loader) returns (textures: seq<Texture>)
      requires Valid()
      modifies this`loadedTextures, this`loadLog
      ensures Valid()
      ensures var spec := MaterialTextures(old(loadedTextures), old(loadLog), material,
                                           LoadEnv(loader, directory, flipTexturesVertically), defaultTextures);
              textures == spec.textures && loadedTextures == spec.cache && loadLog == spec.log
      ensures old(loadLog) <= loadLog
    {
      ghost var env := LoadEnv(loader, directory, flipTexturesVertically);
      ghost var cache0, log0 := loadedTextures, loadLog;
      textures := [];
      for k := 0 to 6
        invariant Valid() && env == LoadEnv(loader, directory, flipTexturesVertically)
        invariant textures == MaterialFold(cache0, log0, material, env, defaultTextures, k).textures
        invariant loadedTextures == MaterialFold(cache0, log0, material, env, defaultTextures, k).cache
        invariant loadLog == MaterialFold(cache0, log0, material, env, defaultTextures, k).log
      {
        ghost var acc := MaterialFold(cache0, log0, material, env, defaultTextures, k);
        ghost var r := Offer(acc.cache, acc.log, TextureFiles(material, Slots[k]), env, Roles[k]);
        var maps := LoadMaterialTextures(material, Slots[k], Roles[k], loader);
        assert maps == r.textures && loadedTextures == r.cache && loadLog == r.log;
        if |maps| == 0 {
          maps := AddDefaultTexture(maps, Roles[k]);
        }
        assert maps == WithDefault(r.textures, Roles[k], defaultTextures);
        textures := textures + maps;
        assert MaterialFold(cache0, log0, material, env, defaultTextures, k + 1) ==
               Loaded(textures, loadedTextures, loadLog);
      }
      MaterialFoldLogGrows(cache0, log0, material, env, defaultTextures, 6);
    }

    /** Fills the fresh mesh `resMesh` from the imported mesh `m`: one
        vertex per position, the face indices in order, and the texture
        list of the mesh's material. */
    method ProcessMesh(scene: Scene, m: SceneMesh, resMesh: Mesh, ctx: Context, loader: Loader)
      requires Valid() && ctx.Valid()
      requires resMesh.Valid() && resMesh.textures == map[]
      requires MeshWellFormed(m, |scene.materials|)
      modifies this`loadedTextures, this`loadLog, resMesh, ctx
      ensures Valid() && ctx.Valid()
      ensures BuiltFrom(resMesh, m)
      ensures TableForMaterial(resMesh.textures, scene.materials[m.materialIndex], defaultTextures, loadedTextures)
      ensures var spec := MaterialTextures(old(loadedTextures), old(loadLog), scene.materials[m.materialIndex],
                                           LoadEnv(loader, directory, flipTexturesVertically), defaultTextures);
              resMesh.textures == FirstPerType(map[], spec.textures) && loadedTextures == spec.cache &&
              loadLog == spec.log
      ensures BufferNames(resMesh, old(ctx.nextVertexArray), old(ctx.nextBuffer))
      ensures old(loadLog) <= loadLog
      ensures ctx.nextVertexArray == old(ctx.nextVertexArray) + 1 && ctx.nextBuffer == old(ctx.nextBuffer) + 2
    {
      var vertices := [];
      for i := 0 to |m.positions|
        invariant vertices == Vertices(m)[..i]
      {
        var vertex := Vertex(m.positions[i], m.normals[i], Zero2, Zero3);
        if m.texCoords.Some? {
          vertex := vertex.(textureCoordinates := Vec2(m.texCoords.value[i].x, m.texCoords.value[i].y),
                            tangent := m.tangents[i]);
        }
        vertices := vertices + [vertex];
      }

      var indices := [];
      for i := 0 to |m.faces|
        invariant indices == FlattenIndices(m.faces[..i])
      {
        assert m.faces[..i + 1][..i] == m.faces[..i];
        for j := 0 to |m.faces[i].indices|
          invariant indices == FlattenIndices(m.faces[..i]) + m.faces[i].indices[..j]
        {
          indices := indices + [m.faces[i].indices[j]];
        }
      }
      assert m.faces[..|m.faces|] == m.faces;

      // The material index is unsigned, so this branch is always taken.
      var material := scene.materials[m.materialIndex];
      ghost var env := LoadEnv(loader, directory, flipTexturesVertically);
      ghost var cache0, log0 := loadedTextures, loadLog;
      var textures := LoadMaterial(material, loader);
      MaterialTable(cache0, log0, material, env, defaultTextures);
      resMesh.Setup(ctx, vertices, indices, textures);
    }

    /** The body of the walk over a node's own meshes: a fresh mesh is
        filled from imported mesh `src` and appended, loading its
        material's textures into the cache; the meshes from position
        `from` on stay built from their sources. */
    method AddMesh(scene: Scene, src: nat, ctx: Context, loader: Loader, ghost from: nat)
      requires Valid() && ctx.Valid()
      requires WellFormed(scene) && src < |scene.meshes|
      requires MeshesBuiltFrom(scene, from)
      modifies this`meshes, this`meshSources, this`loadedTextures, this`loadLog, ctx
      ensures Valid() && ctx.Valid()
      ensures meshSources == old(meshSources) + [src]
      ensures old(meshes) <= meshes && |meshes| == |old(meshes)| + 1
      ensures fresh(meshes[|old(meshes)|])
      ensures MeshOf(meshes[|old(meshes)|], scene, src, defaultTextures, loadedTextures)
      ensures MeshesBuiltFrom(scene, from)
      ensures CacheExtends(old(loadedTextures), loadedTextures)
      ensures var spec := old(MaterialTextures(loadedTextures, loadLog, scene.materials[scene.meshes[src].materialIndex],
                                               LoadEnv(loader, directory, flipTexturesVertically), defaultTextures));
              loadedTextures == spec.cache && loadLog == spec.log
      ensures BufferNames(meshes[|old(meshes)|], old(ctx.nextVertexArray), old(ctx.nextBuffer))
      ensures ctx.nextVertexArray == old(ctx.nextVertexArray) + 1 && ctx.nextBuffer == old(ctx.nextBuffer) + 2
      ensures old(loadLog) <= loadLog
    {
      var m := scene.meshes[src];
      var mesh := new Mesh();
      ProcessMesh(scene, m, mesh, ctx, loader);
      MaterialCacheExtends(old(loadedTextures), old(loadLog), scene.materials[m.materialIndex],
                           LoadEnv(loader, directory, flipTexturesVertically), defaultTextures);
      AppendBuilt(meshes, meshSources, mesh, src, scene, from, defaultTextures, old(loadedTextures), loadedTextures);
      meshes := meshes + [mesh];
      meshSources := meshSources + [src];
    }

    /** The first half of the walk at one node: a fresh mesh for each of
        the node's own meshes, in order. */
    method ProcessNodeMeshes(node: Node, scene: Scene, ctx: Context, loader: Loader, ghost from: nat)
      requires Valid() && ctx.Valid()
      requires WellFormed(scene) && NodeInRange(node, |scene.meshes|)
      requires MeshesBuiltFrom(scene, from)
      modifies this`meshes, this`meshSources, this`loadedTextures, this`loadLog, ctx
      ensures Valid() && ctx.Valid()
      ensures meshSources == old(meshSources) + node.meshes
      ensures old(meshes) <= meshes
      ensures forall m :: m in meshes && m !in old(meshes) ==> fresh(m)
      ensures MeshesBuiltFrom(scene, from)
      ensures CacheExtends(old(loadedTextures), loadedTextures) && old(loadLog) <= loadLog
      ensures ctx.nextVertexArray == old(ctx.nextVertexArray) + |node.meshes| &&
              ctx.nextBuffer == old(ctx.nextBuffer) + 2 * |node.meshes|
    {
      for i := 0 to |node.meshes|
        invariant Valid() && ctx.Valid()
        invariant meshSources == old(meshSources) + node.meshes[..i]
        invariant old(meshes) <= meshes
        invariant forall m :: m in meshes && m !in old(meshes) ==> fresh(m)
        invariant MeshesBuiltFrom(scene, from)
        invariant CacheExtends(old(loadedTextures), loadedTextures) && old(loadLog) <= loadLog
        invariant ctx.nextVertexArray == old(ctx.nextVertexArray) + i && ctx.nextBuffer == old(ctx.nextBuffer) + 2 * i
      {
        AddMesh(scene, node.meshes[i], ctx, loader, from);
      }
      assert node.meshes[..|node.meshes|] == node.meshes;
    }

    /** Walks the node tree depth first: the node's own meshes, then each
        child's subtree in order. Every mesh from position `from` on, those
        there before and those appended, is built from the imported mesh
        its source names. */
    method ProcessNode(node: Node, scene: Scene, ctx: Context, loader: Loader, ghost from: nat)
      requires Valid() && ctx.Valid()
      requires WellFormed(scene) && NodeInRange(node, |scene.meshes|)
      requires MeshesBuiltFrom(scene, from)
      modifies this`meshes, this`meshSources, this`loadedTextures, this`loadLog, ctx
      ensures Valid() && ctx.Valid()
      ensures meshSources == old(meshSources) + PreOrder(node)
      ensures old(meshes) <= meshes
      ensures forall m :: m in meshes && m !in old(meshes) ==> fresh(m)
      ensures MeshesBuiltFrom(scene, from)
      ensures CacheExtends(old(loadedTextures), loadedTextures) && old(loadLog) <= loadLog
      ensures ctx.nextVertexArray == old(ctx.nextVertexArray) + |PreOrder(node)| &&
              ctx.nextBuffer == old(ctx.nextBuffer) + 2 * |PreOrder(node)|
      decreases node
    {
      ProcessNodeMeshes(node, scene, ctx, loader, from);
      for i := 0 to |node.children|
        invariant Valid() && ctx.Valid()
        invariant meshSources == old(meshSources) + node.meshes + PreOrderAll(node.children[..i])
        invariant old(meshes) <= meshes
        invariant forall m :: m in meshes && m !in old(meshes) ==> fresh(m)
        invariant MeshesBuiltFrom(scene, from)
        invariant CacheExtends(old(loadedTextures), loadedTextures) && old(loadLog) <= loadLog
        invariant ctx.nextVertexArray == old(ctx.nextVertexArray) + |meshSources| - |old(meshSources)| &&
                  ctx.nextBuffer == old(ctx.nextBuffer) + 2 * (|meshSources| - |old(meshSources)|)
      {
        assert node.children[..i + 1][..i] == node.children[..i];
        ProcessNode(node.children[i], scene, ctx, loader, from);
      }
      assert node.children[..|node.children|] == node.children;
    }

    /** Imports the scene file at `path` (`imported` is what the importer
        returned for it). On a missing, incomplete or rootless scene nothing
        changes. Otherwise the directory becomes the part of `path` before
        its last '/', and the meshes of the scene tree are appended in
        depth-first pre-order. */
    method Load(path: string, imported: Option<Scene>, ctx: Context, loader: Loader)
      requires Valid() && ctx.Valid()
      requires ImportSucceeded(imported) ==> WellFormed(imported.value)
      modifies this, ctx
      ensures Valid() && ctx.Valid()
      ensures !ImportSucceeded(imported) ==> unchanged(this) && unchanged(ctx)
      ensures ImportSucceeded(imported) ==>
                var scene := imported.value;
                directory == DirectoryOf(path) &&
                meshSources == old(meshSources) + PreOrder(scene.root.value) &&
                old(meshes) <= meshes &&
                (forall m :: m in meshes && m !in old(meshes) ==> fresh(m)) &&
                MeshesBuiltFrom(scene, |old(meshes)|) &&
                CacheExtends(old(loadedTextures), loadedTextures) && old(loadLog) <= loadLog &&
                ctx.nextVertexArray == old(ctx.nextVertexArray) + |PreOrder(scene.root.value)| &&
                ctx.nextBuffer == old(ctx.nextBuffer) + 2 * |PreOrder(scene.root.value)|
      ensures defaultTextures == old(defaultTextures) && transform == old(transform)
      ensures instanceMatrixVBO == old(instanceMatrixVBO)
      ensures flipTexturesVertically == old(flipTexturesVertically)
    {
      if imported.None? || imported.value.incomplete || imported.value.root.None? {
        return;
      }
      var scene := imported.value;
      directory := DirectoryOf(path);
      ProcessNode(scene.root.value, scene, ctx, loader, |meshes|);
    }
  }
}
