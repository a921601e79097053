/** The asset frame adapter: the authoring-convention offset and quaternion
    of a model are permuted into the engine frame, and the loaded mesh's
    scale, position and quaternion are edited in place. */
module Adapter {
  import opened Geometry
  import opened Settings

  /** The authored offset `d` becomes the displacement `(d0, d2, -d1)`. */
  function OffsetToEngine(d: Vec3): (r: Vec3)
    ensures OffsetToAuthoring(r) == d
    ensures Dot(r, r) == Dot(d, d)
  {
    Vec3(d.x, d.z, -d.y)
  }

  /** The inverse permutation, `(x, y, z)` to `(x, -z, y)`. */
  function OffsetToAuthoring(v: Vec3): Vec3 {
    Vec3(v.x, -v.z, v.y)
  }

  /** The authored quaternion `q` becomes `(q0, q2, -q1, q3)`: the vector
      part goes through the offset permutation, the scalar part stays. */
  function QuatToEngine(q: Quat): (r: Quat)
    ensures VectorPart(r) == OffsetToEngine(VectorPart(q))
    ensures r.w == q.w
    ensures NormSq(r) == NormSq(q)
    ensures QuatToAuthoring(r) == q
  {
    Quat(q.x, q.z, -q.y, q.w)
  }

  function QuatToAuthoring(q: Quat): Quat {
    Quat(q.x, -q.z, q.y, q.w)
  }

  lemma OffsetPermutationIsBijective(d: Vec3, v: Vec3)
    ensures OffsetToAuthoring(OffsetToEngine(d)) == d
    ensures OffsetToEngine(OffsetToAuthoring(v)) == v
    ensures OffsetToEngine(d) == v <==> d == OffsetToAuthoring(v)
  {
  }

  /** The permutation is a proper rotation (a quarter turn about X): it
      keeps dot products and cross products, so handedness is preserved. */
  lemma OffsetPermutationIsRotation(a: Vec3, b: Vec3)
    ensures Dot(OffsetToEngine(a), OffsetToEngine(b)) == Dot(a, b)
    ensures Cross(OffsetToEngine(a), OffsetToEngine(b)) == OffsetToEngine(Cross(a, b))
  {
  }

  /** Applied twice the permutation is not the identity but the half turn
      `(x, -y, -z)`; only four applications give the identity back. */
  lemma OffsetPermutationHasOrderFour(d: Vec3)
    ensures OffsetToEngine(OffsetToEngine(d)) == Vec3(d.x, -d.y, -d.z)
    ensures d.y != 0.0 || d.z != 0.0 ==> OffsetToEngine(OffsetToEngine(d)) != d
    ensures OffsetToEngine(OffsetToEngine(OffsetToEngine(OffsetToEngine(d)))) == d
  {
  }

  lemma QuatPermutationIsBijective(q: Quat, p: Quat)
    ensures QuatToAuthoring(QuatToEngine(q)) == q
    ensures QuatToEngine(QuatToAuthoring(p)) == p
    ensures QuatToEngine(q) == p <==> q == QuatToAuthoring(p)
  {
  }

  lemma UnitQuatStaysUnit(q: Quat)
    requires NormSq(q) == 1.0
    ensures NormSq(QuatToEngine(q)) == 1.0
  {
  }

  /** The shipped watch offset and identity quaternion; the quarter turn is
      an arithmetic example (the soft occluder's quaternion is copied as is). */
  lemma ShippedTransformExamples()
    ensures OffsetToEngine(Vec3(0.076, -0.916, -0.504)) == Vec3(0.076, -0.504, 0.916)
    ensures OffsetToAuthoring(Vec3(0.076, -0.504, 0.916)) == Vec3(0.076, -0.916, -0.504)
    ensures QuatToEngine(Quat(0.0, 0.0, 0.0, 1.0)) == Quat(0.0, 0.0, 0.0, 1.0)
    ensures QuatToEngine(Quat(0.707, 0.0, 0.0, 0.707)) == Quat(0.707, 0.0, 0.0, 0.707)
  {
  }

  /** JavaScript truthiness of `modelSettings.scale`: absent or zero skips it. */
  predicate ScaleApplies(ms: ModelSettings) {
    ms.scale.Some? && ms.scale.value != 0.0
  }

  /** The uniform factor the adapted scale ends up with. */
  function ScaleFactor(ms: ModelSettings): real {
    if ScaleApplies(ms) then ms.scale.value else 1.0
  }

  /** The transform of a freshly loaded model mesh after the adapter, from the
      transform it was loaded with. The scale is uniform, and a channel whose
      setting is absent keeps its loaded position or rotation. */
  function AdaptModel(t: Transform, ms: ModelSettings): (r: Transform)
    ensures r.scale.x == r.scale.y == r.scale.z
    ensures ms.offset.None? ==> r.position == t.position
    ensures ms.quaternion.None? ==> r.quaternion == t.quaternion
  {
    Transform(
      Times(Ones, ScaleFactor(ms)),
      if ms.offset.Some? then Add(t.position, OffsetToEngine(ms.offset.value)) else t.position,
      if ms.quaternion.Some? then QuatToEngine(ms.quaternion.value) else t.quaternion)
  }

  /** The edits of the model-load callback, in the source's order: reset the
      scale, multiply it, add the displacement, set the quaternion. */
  method AdaptModelNode(me: Node, ms: ModelSettings)
    modifies me
    ensures me.Pose() == AdaptModel(old(me.Pose()), ms)
  {
    me.scale := Ones;
    if ScaleApplies(ms) {
      me.scale := Times(me.scale, ms.scale.value);
    }
    if ms.offset.Some? {
      var displacement := OffsetToEngine(ms.offset.value);
      me.position := Add(me.position, displacement);
    }
    if ms.quaternion.Some? {
      me.quaternion := QuatToEngine(ms.quaternion.value);
    }
  }

  /** The scale is uniform and does not depend on the scale the mesh was
      loaded with; with no (or a zero) scale setting it is the unit scale. */
  lemma AdaptedScaleIsUniform(t: Transform, u: Transform, ms: ModelSettings)
    ensures AdaptModel(t, ms).scale == Vec3(ScaleFactor(ms), ScaleFactor(ms), ScaleFactor(ms))
    ensures AdaptModel(t, ms).scale == AdaptModel(u, ms).scale
    ensures !ScaleApplies(ms) ==> AdaptModel(t, ms).scale == Ones
  {
  }

  /** The displacement is added to the loaded position, and taking the loaded
      position away again and undoing the permutation gives the authored offset. */
  lemma AdaptedPositionRecoversOffset(t: Transform, ms: ModelSettings)
    ensures ms.offset.Some? ==>
      OffsetToAuthoring(Sub(AdaptModel(t, ms).position, t.position)) == ms.offset.value
    ensures ms.offset.None? ==> AdaptModel(t, ms).position == t.position
  {
  }

  /** The quaternion is set, not composed: with a quaternion setting, the
      result is the same whatever rotation the mesh had, undoing the
      permutation gives the authored quaternion, and it is a unit quaternion
      whenever the setting is. Without one, the rotation stays. */
  lemma AdaptedRotationIsAbsolute(t: Transform, u: Transform, ms: ModelSettings)
    ensures ms.quaternion.Some? ==> AdaptModel(t, ms).quaternion == AdaptModel(u, ms).quaternion
    ensures ms.quaternion.Some? ==> QuatToAuthoring(AdaptModel(t, ms).quaternion) == ms.quaternion.value
    ensures ms.quaternion.Some? && NormSq(ms.quaternion.value) == 1.0 ==>
      NormSq(AdaptModel(t, ms).quaternion) == 1.0
    ensures ms.quaternion.None? ==> AdaptModel(t, ms).quaternion == t.quaternion
  {
  }

  /** Running the adapter a second time on the same mesh changes nothing but
      the position, which moves by the displacement once more. */
  lemma AdaptingTwiceMovesTwice(t: Transform, ms: ModelSettings)
    ensures var once := AdaptModel(t, ms);
            var twice := AdaptModel(once, ms);
            twice.scale == once.scale && twice.quaternion == once.quaternion &&
            Sub(twice.position, once.position) == Sub(once.position, t.position)
  {
  }

  /** A hard occluder mesh only has its scale multiplied: no reset, no
      offset, no quaternion, so its placement stays as loaded. */
  function AdaptHardOccluder(t: Transform, k: real): (r: Transform)
    ensures r.position == t.position && r.quaternion == t.quaternion
    ensures k == 1.0 ==> r == t
  {
    t.(scale := Times(t.scale, k))
  }

  method AdaptHardOccluderNode(me: Node, k: real)
    modifies me
    ensures me.Pose() == AdaptHardOccluder(old(me.Pose()), k)
  {
    me.scale := Times(me.scale, k);
  }

  /** Unlike a model's, the occluder's scale composes with the loaded scale:
      the result depends on the loaded scale, and two factors multiply. */
  lemma HardOccluderScaleComposes(t: Transform, a: real, b: real)
    ensures AdaptHardOccluder(t, a).scale == Times(t.scale, a)
    ensures AdaptHardOccluder(AdaptHardOccluder(t, a), b) == AdaptHardOccluder(t, a * b)
  {
  }
}
