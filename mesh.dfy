/** A renderable mesh: the contents of its vertex and element buffers, the
    driver names of those buffers, and a table holding at most one texture
    per role. */
module Meshes {
  import opened CoreTypes
  import opened GL

  const DiffuseSamplerName: string := "uMaterial.diffuseTexture1"
  const SpecularSamplerName: string := "uMaterial.specularTexture1"
  const NormalSamplerName: string := "uMaterial.normalTexture1"
  const UseSpecularName: string := "uUseSpecularTexture"
  const UseNormalName: string := "uUseNormalTexture"

  /** Fixed texture units: diffuse on 0, specular on 1, normal on 2. */
  const DiffuseUnit: nat := 0
  const SpecularUnit: nat := 1
  const NormalUnit: nat := 2

  /** Every entry of a role table is stored under its own role. */
  ghost predicate KeyedByRole(table: map<TextureType, Texture>) {
    forall k :: k in table ==> table[k].kind == k
  }

  /** The table that results from offering `ts`, in order, to `table`:
      a texture is stored only when its role has no entry yet. */
  function FirstPerType(table: map<TextureType, Texture>, ts: seq<Texture>): (t: map<TextureType, Texture>)
    decreases |ts|
  {
    if ts == [] then table
    else FirstPerType(if ts[0].kind in table then table else table[ts[0].kind := ts[0]], ts[1..])
  }

  /** The roles with an entry afterwards are those with one before, plus
      every role in the offered list. */
  lemma {:induction false} FirstPerTypeRoles(table: map<TextureType, Texture>, ts: seq<Texture>)
    ensures FirstPerType(table, ts).Keys == table.Keys + (set t | t in ts :: t.kind)
    decreases |ts|
  {
    if ts != [] {
      var next := if ts[0].kind in table then table else table[ts[0].kind := ts[0]];
      FirstPerTypeRoles(next, ts[1..]);
      assert ts == [ts[0]] + ts[1..];
      assert (set t | t in ts :: t.kind) == {ts[0].kind} + (set t | t in ts[1..] :: t.kind);
    }
  }

  /** An entry that exists is never overwritten. */
  lemma {:induction false} FirstPerTypeKeeps(table: map<TextureType, Texture>, ts: seq<Texture>, k: TextureType)
    requires k in table
    ensures k in FirstPerType(table, ts) && FirstPerType(table, ts)[k] == table[k]
    decreases |ts|
  {
    if ts != [] {
      var next := if ts[0].kind in table then table else table[ts[0].kind := ts[0]];
      FirstPerTypeKeeps(next, ts[1..], k);
    }
  }

  /** A role with no entry before gets the first texture of that role in
      the list; later textures of the same role are ignored. */
  lemma {:induction false} FirstPerTypeFirst(table: map<TextureType, Texture>, ts: seq<Texture>, i: nat)
    requires i < |ts| && ts[i].kind !in table
    requires forall j :: 0 <= j < i ==> ts[j].kind != ts[i].kind
    ensures ts[i].kind in FirstPerType(table, ts) && FirstPerType(table, ts)[ts[i].kind] == ts[i]
    decreases |ts|
  {
    var next := if ts[0].kind in table then table else table[ts[0].kind := ts[0]];
    if i == 0 {
      FirstPerTypeKeeps(next, ts[1..], ts[0].kind);
    } else {
      FirstPerTypeFirst(next, ts[1..], i - 1);
    }
  }

  /** A table keyed by role stays keyed by role. */
  lemma {:induction false} FirstPerTypeKeyedByRole(table: map<TextureType, Texture>, ts: seq<Texture>)
    requires KeyedByRole(table)
    ensures KeyedByRole(FirstPerType(table, ts))
    decreases |ts|
  {
    if ts != [] {
      var next := if ts[0].kind in table then table else table[ts[0].kind := ts[0]];
      FirstPerTypeKeyedByRole(next, ts[1..]);
    }
  }

  /** The names `BindTextures` may write. */
  const BindNames: set<string> :=
    {DiffuseSamplerName, SpecularSamplerName, NormalSamplerName, UseSpecularName, UseNormalName}

  /** The shader's integer uniforms after `BindTextures`, from those before:
      the sampler of each of diffuse, specular and normal is set to its
      unit exactly when that role is present, the two "use texture" flags
      are always set, and no other uniform changes. */
  function BindUniforms(before: map<string, int>, table: map<TextureType, Texture>): (u: map<string, int>)
    ensures UseSpecularName in u && (u[UseSpecularName] == 1 <==> Specular in table)
    ensures u[UseSpecularName] == 0 <==> Specular !in table
    ensures UseNormalName in u && (u[UseNormalName] == 1 <==> Normal in table)
    ensures u[UseNormalName] == 0 <==> Normal !in table
    ensures Diffuse in table ==> DiffuseSamplerName in u && u[DiffuseSamplerName] == DiffuseUnit as int
    ensures Specular in table ==> SpecularSamplerName in u && u[SpecularSamplerName] == SpecularUnit as int
    ensures Normal in table ==> NormalSamplerName in u && u[NormalSamplerName] == NormalUnit as int
    ensures Diffuse !in table ==> Unwritten(before, u, DiffuseSamplerName)
    ensures Specular !in table ==> Unwritten(before, u, SpecularSamplerName)
    ensures Normal !in table ==> Unwritten(before, u, NormalSamplerName)
    ensures forall name :: name !in BindNames ==> Unwritten(before, u, name)
  {
    var afterDiffuse := if Diffuse in table then before[DiffuseSamplerName := DiffuseUnit as int] else before;
    var afterSpecular :=
      if Specular in table then afterDiffuse[SpecularSamplerName := SpecularUnit as int][UseSpecularName := 1]
      else afterDiffuse[UseSpecularName := 0];
    if Normal in table then afterSpecular[NormalSamplerName := NormalUnit as int][UseNormalName := 1]
    else afterSpecular[UseNormalName := 0]
  }

  /** `name` has the same presence and value in both maps. */
  ghost predicate Unwritten<K, V>(before: map<K, V>, after: map<K, V>, name: K) {
    (name in after <==> name in before) && (name in before ==> after[name] == before[name])
  }

  /** The unit bindings after `BindTextures`, from those before: diffuse,
      specular and normal are bound on units 0, 1 and 2 when present, and
      every other unit keeps its binding. */
  function BindUnits(before: map<nat, nat>, table: map<TextureType, Texture>): (b: map<nat, nat>)
    ensures Diffuse in table ==> DiffuseUnit in b && b[DiffuseUnit] == table[Diffuse].id
    ensures Specular in table ==> SpecularUnit in b && b[SpecularUnit] == table[Specular].id
    ensures Normal in table ==> NormalUnit in b && b[NormalUnit] == table[Normal].id
    ensures Diffuse !in table ==> Unwritten(before, b, DiffuseUnit)
    ensures Specular !in table ==> Unwritten(before, b, SpecularUnit)
    ensures Normal !in table ==> Unwritten(before, b, NormalUnit)
    ensures forall unit :: unit > NormalUnit ==> Unwritten(before, b, unit)
  {
    var afterDiffuse := if Diffuse in table then before[DiffuseUnit := table[Diffuse].id] else before;
    var afterSpecular := if Specular in table then afterDiffuse[SpecularUnit := table[Specular].id] else afterDiffuse;
    if Normal in table then afterSpecular[NormalUnit := table[Normal].id] else afterSpecular
  }

  /** The active unit after `BindTextures`: the last of the three units it
      selected, or the one active before when it selected none. */
  function UnitAfterBind(table: map<TextureType, Texture>, before: nat): (u: nat)
    ensures u == before || u <= NormalUnit
    ensures Normal in table ==> u == NormalUnit
    ensures Diffuse !in table && Specular !in table && Normal !in table ==> u == before
  {
    if Normal in table then NormalUnit
    else if Specular in table then SpecularUnit
    else if Diffuse in table then DiffuseUnit
    else before
  }

  /** Every unit from 0 to `TextureTypeCount - 1` bound to texture 0. */
  function Unbound(count: nat): (b: map<nat, nat>)
    ensures forall u: nat :: u in b <==> u < count
    ensures forall u :: u in b ==> b[u] == 0
  {
    if count == 0 then map[] else Unbound(count - 1)[count - 1 := 0]
  }

  class Mesh {
    var vao: nat
    var vbo: nat
    var ebo: nat
    var numIndices: nat
    var numVertices: nat
    /** The data uploaded to the vertex and element buffers. */
    var vertexData: seq<Vertex>
    var indexData: seq<nat>
    /** At most one texture per role (a map has one value per key). */
    var textures: map<TextureType, Texture>

    ghost predicate Valid()
      reads this
    {
      KeyedByRole(textures)
    }

    /** A fresh mesh has every handle and count at 0 and no textures. */
    constructor ()
      ensures Valid()
      ensures vao == 0 && vbo == 0 && ebo == 0 && numIndices == 0 && numVertices == 0
      ensures vertexData == [] && indexData == [] && textures == map[]
    {
      vao, vbo, ebo, numIndices, numVertices := 0, 0, 0, 0, 0;
      vertexData, indexData, textures := [], [], map[];
    }

    /** Keeps the first texture of each role, records the counts, and
        generates and fills the vertex array and the two buffers. */
    method Setup(ctx: Context, vertices: seq<Vertex>, indices: seq<nat>, ts: seq<Texture>)
      requires Valid() && ctx.Valid()
      modifies this, ctx
      ensures Valid() && ctx.Valid()
      ensures textures == FirstPerType(old(textures), ts)
      ensures numIndices == |indices| && numVertices == |vertices|
      ensures indexData == indices && vertexData == vertices
      ensures vao == old(ctx.nextVertexArray) && vbo == old(ctx.nextBuffer) && ebo == old(ctx.nextBuffer) + 1
      ensures ctx.nextVertexArray == old(ctx.nextVertexArray) + 1 && ctx.nextBuffer == old(ctx.nextBuffer) + 2
      ensures ctx.nextName == old(ctx.nextName) && ctx.textures == old(ctx.textures)
      ensures ctx.bound == old(ctx.bound) && ctx.activeUnit == old(ctx.activeUnit)
    {
      FirstPerTypeKeyedByRole(textures, ts);
      for i := 0 to |ts|
        modifies this
        invariant FirstPerType(textures, ts[i..]) == FirstPerType(old(textures), ts)
      {
        assert ts[i..][1..] == ts[i + 1..];
        if ts[i].kind !in textures {
          textures := textures[ts[i].kind := ts[i]];
        }
      }
      assert ts[|ts|..] == [];
      numIndices := |indices|;
      numVertices := |vertices|;
      vao := ctx.GenVertexArray();
      vbo := ctx.GenBuffer();
      ebo := ctx.GenBuffer();
      vertexData := vertices;
      indexData := indices;
    }

    /** One sampler: set its uniform to `unit` and bind `id` on that unit. */
    method SetTexture(shader: ShaderProgram, ctx: Context, name: string, unit: nat, id: nat)
      modifies shader, ctx
      ensures shader.uniforms == old(shader.uniforms)[name := unit as int]
      ensures ctx.activeUnit == unit && ctx.bound == old(ctx.bound)[unit := id]
      ensures ctx.textures == old(ctx.textures) && ctx.nextName == old(ctx.nextName)
      ensures ctx.nextBuffer == old(ctx.nextBuffer) && ctx.nextVertexArray == old(ctx.nextVertexArray)
    {
      shader.SetUniform1i(name, unit as int);
      ctx.ActiveTexture(unit);
      ctx.BindTexture(id);
    }

    /** Sends the shader the samplers of the diffuse, specular and normal
        textures that are present and the two "use texture" flags. */
    method BindTextures(shader: ShaderProgram, ctx: Context)
      modifies shader, ctx
      ensures shader.uniforms == BindUniforms(old(shader.uniforms), textures)
      ensures ctx.bound == BindUnits(old(ctx.bound), textures)
      ensures ctx.activeUnit == UnitAfterBind(textures, old(ctx.activeUnit))
      ensures ctx.textures == old(ctx.textures) && ctx.nextName == old(ctx.nextName)
      ensures ctx.nextBuffer == old(ctx.nextBuffer) && ctx.nextVertexArray == old(ctx.nextVertexArray)
    {
      if Diffuse in textures {
        SetTexture(shader, ctx, DiffuseSamplerName, DiffuseUnit, textures[Diffuse].id);
      }
      if Specular in textures {
        SetTexture(shader, ctx, SpecularSamplerName, SpecularUnit, textures[Specular].id);
        shader.SetUniform1i(UseSpecularName, 1);
      } else {
        shader.SetUniform1i(UseSpecularName, 0);
      }
      if Normal in textures {
        SetTexture(shader, ctx, NormalSamplerName, NormalUnit, textures[Normal].id);
        shader.SetUniform1i(UseNormalName, 1);
      } else {
        shader.SetUniform1i(UseNormalName, 0);
      }
    }

    /** Binds texture 0 on every unit from 0 to `TextureTypeCount - 1`. */
    method UnbindTextures(ctx: Context)
      modifies ctx
      ensures ctx.bound == old(ctx.bound) + Unbound(TextureTypeCount)
      ensures ctx.activeUnit == TextureTypeCount - 1
      ensures ctx.textures == old(ctx.textures) && ctx.nextName == old(ctx.nextName)
      ensures ctx.nextBuffer == old(ctx.nextBuffer) && ctx.nextVertexArray == old(ctx.nextVertexArray)
    {
      for i := 0 to TextureTypeCount
        invariant ctx.bound == old(ctx.bound) + Unbound(i)
        invariant i > 0 ==> ctx.activeUnit == i - 1
        invariant ctx.textures == old(ctx.textures) && ctx.nextName == old(ctx.nextName)
        invariant ctx.nextBuffer == old(ctx.nextBuffer) && ctx.nextVertexArray == old(ctx.nextVertexArray)
      {
        ctx.ActiveTexture(i);
        ctx.BindTexture(0);
      }
    }
  }
}
