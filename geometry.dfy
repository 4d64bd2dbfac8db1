/** Three- and two-component vectors over the reals, standing in for glm::vec3 and glm::vec2. */
module Geometry {
  datatype Vec3 = Vec3(x: real, y: real, z: real)

  datatype Vec2 = Vec2(u: real, v: real)

  const ZERO3 := Vec3(0.0, 0.0, 0.0)
  const ZERO2 := Vec2(0.0, 0.0)

  /** The three fixed axes shared by the light manager and the movable light. */
  const LEFT_AXIS := Vec3(1.0, 0.0, 0.0)
  const UP_AXIS := Vec3(0.0, 1.0, 0.0)
  const FRONT_AXIS := Vec3(0.0, 0.0, 1.0)

  function Add(a: Vec3, b: Vec3): Vec3 {
    Vec3(a.x + b.x, a.y + b.y, a.z + b.z)
  }

  function Scale(a: Vec3, k: real): Vec3 {
    Vec3(a.x * k, a.y * k, a.z * k)
  }

  function Neg(a: Vec3): Vec3 {
    Vec3(-a.x, -a.y, -a.z)
  }

  /** The i-th component, 0 for x, 1 for y, 2 for z. */
  function Component(a: Vec3, i: nat): real
    requires i < 3
  {
    if i == 0 then a.x else if i == 1 then a.y else a.z
  }
}
