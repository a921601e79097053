/** The static configuration the orchestrator reads: per-model settings,
    per-mode occluder settings, and the debug flag that matters to the
    session logic. The shipped configuration is given as constants. */
module Settings {
  import opened Geometry

  datatype Option<T> = None | Some(value: T)

  /** One loadable wearable asset. A setting the configuration object does
      not define is `None`. */
  datatype ModelSettings = ModelSettings(
    url: string,
    vtoMode: string,
    scale: Option<real>,
    offset: Option<Vec3>,
    quaternion: Option<Quat>)

  /** The occluder part of a tracking mode. `occluderRadiusRange` is
      (interior radius, exterior radius). */
  datatype ModeSettings = ModeSettings(
    occluderType: string,
    occluderRadiusRange: (real, real),
    occluderHeight: real,
    occluderOffset: Vec3,
    occluderQuaternion: Quat,
    occluderFlattenCoeff: real,
    occluderModelUrl: string,
    occluderScale: real)

  datatype Config = Config(
    models: map<string, ModelSettings>,
    modes: map<string, ModeSettings>,
    initialModel: string,
    debugOccluder: bool)

  /** The mode settings `main` looks up through the initial model's mode
      name; `None` when either lookup misses, which makes `main` throw. */
  function ActiveMode(c: Config): (r: Option<ModeSettings>)
    ensures r.Some? <==> c.initialModel in c.models && c.models[c.initialModel].vtoMode in c.modes
    ensures r.Some? ==> r.value in c.modes.Values
  {
    if c.initialModel in c.models && c.models[c.initialModel].vtoMode in c.modes
    then Some(c.modes[c.models[c.initialModel].vtoMode])
    else None
  }

  /** The shipped wrist mode (soft cylinder occluder). It defines no hard
      occluder URL or scale; the empty URL and unit scale stand for those. */
  const WristMode: ModeSettings := ModeSettings(
    "SOFTCYLINDER", (4.0, 4.7), 48.0, Vec3(0.0, 0.0, 0.0),
    Quat(0.707, 0.0, 0.0, 0.707), 0.6, "", 1.0)

  /** The shipped watch model. */
  const WristModel: ModelSettings := ModelSettings(
    "assets/watchCasio.glb", "wrist", Some(1.3 * 1.462),
    Some(Vec3(0.076, -0.916, -0.504)), Some(Quat(0.0, 0.0, 0.0, 1.0)))

  const Shipped: Config := Config(
    map["wristDemo" := WristModel], map["wrist" := WristMode], "wristDemo", false)
}
