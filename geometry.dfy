/** Vectors, quaternions and the mutable scene-graph node whose transform
    the try-on code edits in place (scale, position, quaternion). */
module Geometry {

  /** A three.js Vector3, with exact reals in place of doubles. */
  datatype Vec3 = Vec3(x: real, y: real, z: real)

  /** A three.js Quaternion, components in X, Y, Z, W order. */
  datatype Quat = Quat(x: real, y: real, z: real, w: real)

  /** The three transform channels of a node, as a value. */
  datatype Transform = Transform(scale: Vec3, position: Vec3, quaternion: Quat)

  const Ones: Vec3 := Vec3(1.0, 1.0, 1.0)

  function Add(a: Vec3, b: Vec3): Vec3 {
    Vec3(a.x + b.x, a.y + b.y, a.z + b.z)
  }

  function Sub(a: Vec3, b: Vec3): Vec3 {
    Vec3(a.x - b.x, a.y - b.y, a.z - b.z)
  }

  /** Vector3.multiplyScalar */
  function Times(v: Vec3, k: real): Vec3 {
    Vec3(v.x * k, v.y * k, v.z * k)
  }

  function Dot(a: Vec3, b: Vec3): real {
    a.x * b.x + a.y * b.y + a.z * b.z
  }

  function Cross(a: Vec3, b: Vec3): Vec3 {
    Vec3(a.y * b.z - a.z * b.y, a.z * b.x - a.x * b.z, a.x * b.y - a.y * b.x)
  }

  function VectorPart(q: Quat): Vec3 {
    Vec3(q.x, q.y, q.z)
  }

  function NormSq(q: Quat): real {
    q.x * q.x + q.y * q.y + q.z * q.z + q.w * q.w
  }

  /** A mesh (an Object3D) of the render scene: the three channels the code
      reads and writes. Materials and geometry are not modelled. */
  class Node {
    var scale: Vec3
    var position: Vec3
    var quaternion: Quat

    function Pose(): Transform
      reads this
    {
      Transform(scale, position, quaternion)
    }
  }
}
