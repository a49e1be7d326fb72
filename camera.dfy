/** A fly-through camera: a position, the forward, right and up directions
    derived from yaw and pitch, and a zoom (the vertical field of view in
    degrees). Angles, speeds and coordinates are `real`; the trigonometry
    that turns yaw and pitch into directions is a parameter. */
module Cameras {
  import opened CoreTypes

  datatype Movement = Right | Left | Forward | Backward | Up | Down

  const InitialYaw: real := -90.0
  const InitialPitch: real := 0.0
  const InitialZoom: real := 45.0
  /** Pitch stays within [-MaxPitch, MaxPitch] degrees. */
  const MaxPitch: real := 89.0
  /** Zoom stays within [MinZoom, MaxZoom] degrees. */
  const MinZoom: real := 1.0
  const MaxZoom: real := 45.0
  /** Degrees of zoom per unit of scroll per second. */
  const ZoomRate: real := 100.0

  /** The three directions of a camera. */
  datatype Basis = Basis(forward: Vec3, right: Vec3, up: Vec3)

  /** The directions for a yaw and a pitch, in degrees. */
  type BasisOf = (real, real) -> Basis

  /** Pitch after the two range checks: first against the upper bound,
      then against the lower one. */
  function ClampPitch(p: real): (r: real)
    ensures -MaxPitch <= r <= MaxPitch
    ensures -MaxPitch <= p <= MaxPitch ==> r == p
    ensures p > MaxPitch ==> r == MaxPitch
    ensures p < -MaxPitch ==> r == -MaxPitch
  {
    var upper := if p > MaxPitch then MaxPitch else p;
    if upper < -MaxPitch then -MaxPitch else upper
  }

  /** Zoom after the two range checks: first against the lower bound, then
      against the upper one. */
  function ClampZoom(z: real): (r: real)
    ensures MinZoom <= r <= MaxZoom
    ensures MinZoom <= z <= MaxZoom ==> r == z
    ensures z < MinZoom ==> r == MinZoom
    ensures z > MaxZoom ==> r == MaxZoom
  {
    var lower := if z < MinZoom then MinZoom else z;
    if lower > MaxZoom then MaxZoom else lower
  }

  /** Clamping twice is clamping once. */
  lemma ClampIdempotent(p: real, z: real)
    ensures ClampPitch(ClampPitch(p)) == ClampPitch(p)
    ensures ClampZoom(ClampZoom(z)) == ClampZoom(z)
  {
  }

  /** The change of position for one step of `velocity` along one of the
      directions, forwards or backwards. */
  function Displacement(movement: Movement, b: Basis, velocity: real): (d: Vec3) {
    match movement
    case Right => Scale(b.right, velocity)
    case Left => Neg(Scale(b.right, velocity))
    case Forward => Scale(b.forward, velocity)
    case Backward => Neg(Scale(b.forward, velocity))
    case Up => Scale(b.up, velocity)
    case Down => Neg(Scale(b.up, velocity))
  }

  /** The movement in the opposite direction. */
  function Opposite(movement: Movement): (o: Movement)
    ensures o != movement
  {
    match movement
    case Right => Left
    case Left => Right
    case Forward => Backward
    case Backward => Forward
    case Up => Down
    case Down => Up
  }

  /** Opposite movements are opposite displacements, so a step and a step
      back return to the start. */
  lemma OppositeCancels(movement: Movement, b: Basis, velocity: real, p: Vec3)
    ensures Opposite(Opposite(movement)) == movement
    ensures Displacement(Opposite(movement), b, velocity) == Neg(Displacement(movement, b, velocity))
    ensures Add(Add(p, Displacement(movement, b, velocity)), Displacement(Opposite(movement), b, velocity)) == p
  {
  }

  class Camera {
    var position: Vec3
    var forward: Vec3
    var right: Vec3
    var up: Vec3
    var movementSpeed: real
    var mouseSensitivity: real
    var yaw: real
    var pitch: real
    var zoom: real

    /** Pitch and zoom are within their ranges. */
    ghost predicate Valid()
      reads this
    {
      -MaxPitch <= pitch <= MaxPitch && MinZoom <= zoom <= MaxZoom
    }

    function Directions(): (b: Basis)
      reads this`forward, this`right, this`up
    {
      Basis(forward, right, up)
    }

    /** A camera at `cameraPos` looking down the negative z axis (yaw -90),
        level (pitch 0), with the widest zoom (45). */
    constructor (cameraPos: Vec3, speed: real, sensitivity: real, basisOf: BasisOf)
      ensures Valid()
      ensures position == cameraPos && movementSpeed == speed && mouseSensitivity == sensitivity
      ensures yaw == InitialYaw && pitch == InitialPitch && zoom == InitialZoom
      ensures Directions() == basisOf(InitialYaw, InitialPitch)
    {
      position, movementSpeed, mouseSensitivity := cameraPos, speed, sensitivity;
      yaw, pitch, zoom := InitialYaw, InitialPitch, InitialZoom;
      var b := basisOf(InitialYaw, InitialPitch);
      forward, right, up := b.forward, b.right, b.up;
    }

    /** Recomputes the directions from yaw and pitch. */
    method UpdateBasis(basisOf: BasisOf)
      modifies this`forward, this`right, this`up
      ensures Directions() == basisOf(yaw, pitch)
    {
      var b := basisOf(yaw, pitch);
      forward, right, up := b.forward, b.right, b.up;
    }

    /** One step of `movementSpeed * deltaTime` along a direction; only the
        position changes. */
    method Move(movement: Movement, deltaTime: real)
      requires Valid()
      modifies this`position
      ensures Valid()
      ensures position == Add(old(position), Displacement(movement, old(Directions()), old(movementSpeed) * deltaTime))
      ensures yaw == old(yaw) && pitch == old(pitch) && zoom == old(zoom)
    {
      var velocity := movementSpeed * deltaTime;
      match movement
      case Right => position := Add(position, Scale(right, velocity));
      case Left => position := Sub(position, Scale(right, velocity));
      case Forward => position := Add(position, Scale(forward, velocity));
      case Backward => position := Sub(position, Scale(forward, velocity));
      case Up => position := Add(position, Scale(up, velocity));
      case Down => position := Sub(position, Scale(up, velocity));
    }

    /** Turns by the mouse offsets: yaw grows without bound, pitch is
        clamped to [-89, 89], and the directions follow. */
    method Rotate(xOffset: real, yOffset: real, deltaTime: real, basisOf: BasisOf)
      requires Valid()
      modifies this`yaw, this`pitch, this`forward, this`right, this`up
      ensures Valid()
      ensures yaw == old(yaw) + xOffset * mouseSensitivity * deltaTime
      ensures pitch == ClampPitch(old(pitch) + yOffset * mouseSensitivity * deltaTime)
      ensures Directions() == basisOf(yaw, pitch)
    {
      yaw := yaw + xOffset * mouseSensitivity * deltaTime;
      pitch := pitch + yOffset * mouseSensitivity * deltaTime;
      if pitch > MaxPitch {
        pitch := MaxPitch;
      }
      if pitch < -MaxPitch {
        pitch := -MaxPitch;
      }
      UpdateBasis(basisOf);
    }

    /** Scrolling narrows the field of view (positive offset) or widens it,
        clamped to [1, 45]. */
    method Zoom(yOffset: real, deltaTime: real)
      requires Valid()
      modifies this`zoom
      ensures Valid()
      ensures zoom == ClampZoom(old(zoom) - yOffset * deltaTime * ZoomRate)
    {
      zoom := zoom - yOffset * deltaTime * ZoomRate;
      if zoom < MinZoom {
        zoom := MinZoom;
      }
      if zoom > MaxZoom {
        zoom := MaxZoom;
      }
    }
  }
}
