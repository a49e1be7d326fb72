/** Value types shared by the graphics code: texture roles, texture
    handles, vertices and transforms. Floating-point components are
    modelled as `real`. */
module CoreTypes {

  datatype Option<T> = None | Some(value: T)

  /** Every texture role the engine's sources use, in one enumeration. The
      position of each role is its enumerator value; `TextureTypeCount`
      follows the last role. */
  datatype TextureType =
    | Diffuse | Specular | Albedo | Metallic | Roughness
    | AmbientOcclusion | Normal | Height

  const TextureTypeCount: nat := 8

  /** The enumerator value of a role. */
  function Ordinal(t: TextureType): (n: nat)
    ensures n < TextureTypeCount
  {
    match t
    case Diffuse => 0
    case Specular => 1
    case Albedo => 2
    case Metallic => 3
    case Roughness => 4
    case AmbientOcclusion => 5
    case Normal => 6
    case Height => 7
  }

  /** Distinct roles have distinct enumerator values. */
  lemma OrdinalInjective(s: TextureType, t: TextureType)
    ensures Ordinal(s) == Ordinal(t) ==> s == t
  {
  }

  /** A GPU texture name together with the role it plays. */
  datatype Texture = Texture(id: nat, kind: TextureType)

  datatype Vec2 = Vec2(x: real, y: real)
  datatype Vec3 = Vec3(x: real, y: real, z: real)

  const Zero2: Vec2 := Vec2(0.0, 0.0)
  const Zero3: Vec3 := Vec3(0.0, 0.0, 0.0)

  function Add(a: Vec3, b: Vec3): (sum: Vec3) { Vec3(a.x + b.x, a.y + b.y, a.z + b.z) }
  function Sub(a: Vec3, b: Vec3): (difference: Vec3) { Vec3(a.x - b.x, a.y - b.y, a.z - b.z) }
  function Scale(a: Vec3, k: real): (scaled: Vec3) { Vec3(a.x * k, a.y * k, a.z * k) }
  function Neg(a: Vec3): (negated: Vec3) { Vec3(-a.x, -a.y, -a.z) }

  /** A vertex as uploaded to the vertex buffer. */
  datatype Vertex = Vertex(position: Vec3, normal: Vec3, textureCoordinates: Vec2, tangent: Vec3)

  /** Placement of a model in the world. */
  datatype Transform = Transform(position: Vec3, rotationAxis: Vec3, rotationAngle: real, scale: Vec3)
}
