/** Occlusion setup: `set_occluder` picks a strategy from the active mode's
    `occluderType`; the soft cylinder is built and registered at once, the
    hard occluder is a model fetch whose completion is an event. */
module Occluder {
  import opened Geometry
  import opened Settings

  const SoftCylinderType: string := "SOFTCYLINDER"
  const ModelType: string := "MODEL"

  /** What `add_softOccluder` hands to the tracker helper: the cylinder mesh's
      transform, its radius and height, the fading width `dr`, the debug flag. */
  datatype SoftOccluder = SoftOccluder(mesh: Transform, radius: real, height: real, dr: real, debug: bool)

  datatype OccluderPlan =
    | SoftPlan(occluder: SoftOccluder)       // resolves immediately
    | HardPlan(url: string, scale: real)     // resolves (or not) when the fetch completes
    | NoOccluder                             // resolves immediately

  /** The soft cylinder: its radius is the exterior radius, its fading width is
      exterior minus interior, and its mesh is placed straight from the mode's
      engine-frame values, flattened along Z. */
  function BuildSoftOccluder(m: ModeSettings, debug: bool): (o: SoftOccluder)
    ensures o.radius == m.occluderRadiusRange.1
    ensures o.radius - o.dr == m.occluderRadiusRange.0
    ensures o.mesh.position == m.occluderOffset && o.mesh.quaternion == m.occluderQuaternion
    ensures o.mesh.scale.x == o.mesh.scale.y == 1.0 && o.mesh.scale.z == m.occluderFlattenCoeff
    ensures o.height == m.occluderHeight && o.debug == debug
  {
    var radius := m.occluderRadiusRange.1;
    var dr := m.occluderRadiusRange.1 - m.occluderRadiusRange.0;
    SoftOccluder(
      Transform(Vec3(1.0, 1.0, m.occluderFlattenCoeff), m.occluderOffset, m.occluderQuaternion),
      radius, m.occluderHeight, dr, debug)
  }

  function PlanOccluder(m: ModeSettings, debug: bool): (p: OccluderPlan)
    ensures p.SoftPlan? <==> m.occluderType == SoftCylinderType
    ensures p.HardPlan? <==> m.occluderType == ModelType
    ensures p.NoOccluder? <==> m.occluderType != SoftCylinderType && m.occluderType != ModelType
    ensures p.SoftPlan? ==> p.occluder == BuildSoftOccluder(m, debug)
    ensures p.HardPlan? ==> p.url == m.occluderModelUrl && p.scale == m.occluderScale
  {
    if m.occluderType == SoftCylinderType then SoftPlan(BuildSoftOccluder(m, debug))
    else if m.occluderType == ModelType then HardPlan(m.occluderModelUrl, m.occluderScale)
    else NoOccluder
  }

  /** Whether the promise `set_occluder` returns is already resolved. */
  predicate ResolvesAtOnce(p: OccluderPlan) {
    !p.HardPlan?
  }

  /** The shipped wrist mode builds a soft cylinder of radius 4.7, fading
      width 0.7 and flatten scale 0.6, at the origin, turned a quarter about X. */
  lemma ShippedSoftOccluder()
    ensures PlanOccluder(WristMode, false) == SoftPlan(SoftOccluder(
      Transform(Vec3(1.0, 1.0, 0.6), Vec3(0.0, 0.0, 0.0), Quat(0.707, 0.0, 0.0, 0.707)),
      4.7, 48.0, 0.7, false))
  {
  }
}
