/**
  The part of the room-scanning SDK's result that the plan reads. A wall keeps
  its dimensions and the two columns of its 4x4 room-space transform that the
  projector uses: column 0, the wall's "right" axis, and column 3, its centre.
 */
module Room {

  datatype Vec3 = Vec3(x: real, y: real, z: real)

  /** SIMD3 arithmetic: v * k, a + b, a - b. */
  function Times(v: Vec3, k: real): Vec3 { Vec3(v.x * k, v.y * k, v.z * k) }
  function Plus(a: Vec3, b: Vec3): Vec3 { Vec3(a.x + b.x, a.y + b.y, a.z + b.z) }
  function Minus(a: Vec3, b: Vec3): Vec3 { Vec3(a.x - b.x, a.y - b.y, a.z - b.z) }

  datatype Wall = Wall(dimensions: Vec3, column0: Vec3, column3: Vec3)

  /** CapturedRoom, reduced to its ordered walls. */
  datatype CapturedRoom = CapturedRoom(walls: seq<Wall>)
}
