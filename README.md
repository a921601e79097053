# VTOWatch session orchestrator, modelled in Dafny

`main.js` of the wrist "virtual try-on" demo drives a hand tracker and a
three.js scene through a chain of asynchronous stages. This project models
the two parts of it that hold logic of their own.

- **The session state machine.** The globals `_state`, `_VTOModel` and
  `_isInstructionsHidden` are changed by the window-load handler `main`, by
  the tracker's `start` callback, by the `set_occluder()` continuations, by
  `three.loadingManager.onLoad`, by `load_model` and its loader callback,
  and by `callbackTrack`/`hide_instructions`. Each handler or callback is an
  event.
  - `session.dfy` gives the session as a value (`Session.Session`), the
    events (`Session.Event`), one step per event (`Session.Step`) and runs
    over any event order (`Session.Run`). It proves an invariant of every
    reachable session, together with the guard, transition and scenario
    lemmas.
  - `machine.dfy` is the same machine as a class (`Machine.VtoSession`)
    whose fields are the globals and the tracker helper's object lists. It
    has one method per event. Each method's `ensures` ties the new state to
    `Session.Step` of the old one.
- **The asset frame adapter.** When a loaded mesh is attached, its scale is
  reset and multiplied, its position is moved by the authored offset
  permuted to `(d0, d2, -d1)`, and its quaternion is set to
  `(q0, q2, -q1, q3)`.
  - `adapter.dfy` holds the permutations as pure functions on exact `real`
    vectors, with their inverses. It also holds the mesh edits as a method
    on a mutable `Geometry.Node`, proved against the function
    `Adapter.AdaptModel`.
  - `occluder.dfy` holds the `set_occluder` dispatch and the soft-cylinder
    arithmetic.
- `geometry.dfy` holds vectors, quaternions and the mesh node.
- `settings.dfy` holds the configuration records and the shipped wrist
  configuration, as constants.

An event can fire only when the thing it completes exists. `Session.Enabled`
states this: the window load fires once, `onLoad` fires only after `start`
registered it, and a loader callback fires only while its fetch is in
flight. Beyond that, the environment may call the events in any order.
Calling a disabled event leaves `Session.Step` unchanged, and the class
methods require the event to be enabled.

Behaviour of `main.js` worth noting:

- The currently loaded model is never recorded. `_VTOModel` stays `null`
  (main.js:64), so requesting the same model twice is not a no-op. Each
  accepted request clears the attached object and fetches again
  (`Session.SameModelTwiceIsReloaded`). The `modelId === _VTOModel`
  comparison never rejects a real id (`Session.LoadGuard`).
- The hard occluder does not go through the frame adapter. Its scale is
  only multiplied by `occluderScale`, with no reset, offset or quaternion
  (main.js:231).
- The model scale is not composed with the loaded scale. It is first reset
  to 1 (main.js:162), so the result is the uniform `(s, s, s)`.
- Applying the axis permutation twice does not give the input back. Twice
  gives the half turn `(x, -y, -z)`, and only four applications return to
  the identity (`Adapter.OffsetPermutationHasOrderFour`). The inverse is its
  own function, `(x, y, z) ↦ (x, -z, y)`.
- The guard does not rule out overlapping fetches when events come in any
  order. If `onLoad` runs to completion (the `#loading` overlay still
  present) while a model fetch is in flight, the state is running again and
  a new request is accepted
  (`Session.OverlapAfterEarlyAllLoaded`).
- A model id missing from the catalogue is not a clean error. `load_model`
  has already set busy and cleared the model objects when it throws at
  `modelSettings.URL` (main.js:153-160). The session then stays busy until
  `onLoad` completes or a fetch issued earlier and still in flight attaches
  its mesh. The session records whether the last accepted request threw.
- No session is ever idle between two events. The occluder continuations set
  idle and then request the initial model, which the guard therefore accepts,
  so the state is busy when the event ends (`Session.NoReachableSessionIsIdle`).
- `onLoad` can throw. It calls `hide_loading` (main.js:202) before it sets
  running (main.js:203), and `hide_loading` removes the `#loading` overlay
  800 ms later (main.js:264-266). An `onLoad` after that reads the style of
  a missing element (main.js:263), throws, and leaves the state as it was.
  The event carries the outcome of the `#loading` lookup as a parameter.

## Model

| member | source | states |
|---|---|---|
| `Adapter.OffsetToEngine` | main.js:176-179 | the displacement added for offset `d` is undone by `(x,y,z) ↦ (x,-z,y)` and has the same length as `d` |
| `Adapter.OffsetPermutationIsBijective` | main.js:178 | `(d0,d2,-d1)` and `(x,-z,y)` are inverse both ways, so the map is a bijection |
| `Adapter.OffsetPermutationIsRotation` | main.js:178 | the permutation keeps dot and cross products: it is a proper rotation, not a reflection |
| `Adapter.OffsetPermutationHasOrderFour` | main.js:178 | applied twice it is `(x,-y,-z)`, not the identity unless `y = z = 0`; applied four times it is the identity |
| `Adapter.QuatToEngine` | main.js:181-183 | the vector part goes through the offset permutation, `w` is unchanged, the norm is kept, and the inverse permutation recovers the authored quaternion |
| `Adapter.QuatPermutationIsBijective` | main.js:183 | `(q0,q2,-q1,q3)` and its inverse undo each other both ways |
| `Adapter.UnitQuatStaysUnit` | main.js:183 | a unit authored quaternion gives a unit engine quaternion |
| `Adapter.ShippedTransformExamples` | main.js:36-37 | the watch offset `[0.076,-0.916,-0.504]` becomes `(0.076,-0.504,0.916)` and back; the watch's identity quaternion is unchanged; as an arithmetic example only, so is the quarter turn `(0.707,0,0,0.707)` (the soft occluder's value at main.js:19, which is copied without permutation) |
| `Adapter.AdaptModel` | main.js:162-184 | the adapted scale is uniform; without an offset setting the position stays, without a quaternion setting the rotation stays |
| `Adapter.AdaptModelNode` | main.js:161-184 | the in-place edits of the loaded mesh (reset scale, multiply, add displacement, set quaternion, each applied only when its setting is present) leave it at `AdaptModel` of its loaded transform |
| `Adapter.AdaptedScaleIsUniform` | main.js:162-175 | the scale ends up `(s,s,s)` whatever the loaded scale was, and `(1,1,1)` when the scale setting is absent or zero |
| `Adapter.AdaptedPositionRecoversOffset` | main.js:176-180 | the displacement is added to the loaded position; subtracting that position and inverting the permutation gives the authored offset; without an offset the position stays |
| `Adapter.AdaptedRotationIsAbsolute` | main.js:181-184 | with a quaternion setting the result does not depend on the prior rotation, inverts back to the authored quaternion, and is unit if the setting is; without one the rotation stays |
| `Adapter.AdaptingTwiceMovesTwice` | main.js:162-184 | running the adapter again changes only the position, which moves by the displacement a second time |
| `Adapter.AdaptHardOccluder` | main.js:231 | the hard occluder keeps its loaded position and rotation, and a unit `occluderScale` leaves it as loaded |
| `Adapter.AdaptHardOccluderNode` | main.js:230-231 | the hard occluder mesh only has its scale multiplied by `occluderScale` |
| `Adapter.HardOccluderScaleComposes` | main.js:229-231 | the occluder's scale is the loaded scale times `occluderScale`, and successive factors multiply |
| `Occluder.BuildSoftOccluder` | main.js:244-256 | radius is the exterior radius; radius minus `dr` is the interior radius; position and quaternion are the configured values with no permutation; scale is `(1,1,flattenCoeff)` |
| `Occluder.PlanOccluder` | main.js:214-224 | `'SOFTCYLINDER'` builds the soft occluder, `'MODEL'` fetches the hard one with its URL and scale, anything else has no occluder |
| `Occluder.ShippedSoftOccluder` | main.js:13-20 | the shipped wrist mode gives radius 4.7, `dr` 0.7, height 48, scale `(1,1,0.6)` at the origin |
| `Session.CodesAreDistinct` | main.js:66-72 | the five `_states` codes are pairwise distinct, so comparing codes is comparing states |
| `Settings.ActiveMode` | main.js:104-106 | a mode is found exactly when the initial model is in the catalogue and its `VTOMode` names a mode, and it is one of the configured modes |
| `Session.Load` | main.js:148-160 | `load_model` either changes nothing or leaves busy with the model objects cleared; it records whether it threw (unknown id); it adds at most that one id to the in-flight fetches; it never touches the occluders, the tracker, the flag or `_VTOModel` |
| `Session.Start` | main.js:195-224 | `start` marks the tracker ready and keeps the state and objects; the occluder promise is resolved exactly when the plan resolves at once (soft or none) and loading otherwise; only the soft plan registers a soft occluder |
| `Session.Step` | main.js:87-294 | an event that cannot fire changes nothing, no event writes `_VTOModel`, and the instructions flag never falls |
| `Session.InitIsValid` | main.js:63-74 | the initial globals satisfy the session invariant |
| `Session.LoadKeepsInv` | main.js:148-160 | a `load_model` call keeps the invariant |
| `Session.IdleBeforeInitialRequestIsValid` | main.js:206-208 | the session inside the occluder continuations, idle before the initial request, satisfies the invariant |
| `Session.StepKeepsInv` | main.js:87-294 | every event keeps the invariant: `_VTOModel` null, busy only with a fetch in flight or when the last accepted request threw, idle only once the occluder resolved (idle itself is seen only inside the occluder continuations), occluders matching the dispatched plan, in-flight ids in the catalogue |
| `Session.RunKeepsInv` | main.js:87-294 | the invariant holds after any sequence of events, in any order |
| `Session.ReachableSessionsAreValid` | main.js:63-294 | every session reachable from the initial globals satisfies the invariant |
| `Session.CurrentModelStaysNull` | main.js:64 | `_VTOModel` is `null` in every reachable session |
| `Session.StepLeavesIdle` | main.js:206-210 | from a valid session that is not idle, no event ends in idle: occluder resolution's idle is followed in the same event by an accepted request |
| `Session.RunLeavesIdle` | main.js:87-294 | along any sequence of events from a valid non-idle session, the state is never idle at the end |
| `Session.NoReachableSessionIsIdle` | main.js:206-210 | no session reachable from the initial globals is idle |
| `Session.LoadGuard` | main.js:149-152 | `load_model` changes nothing if and only if the state is neither idle nor running |
| `Session.LoadDroppedUnlessIdleOrRunning` | main.js:149-152 | in not-loaded, loading and busy, `load_model` is a no-op |
| `Session.AcceptedLoad` | main.js:153-160 | an accepted call sets busy, clears the model objects, keeps the occluders, and starts one fetch for a known id or throws for an unknown one; the next call while busy is dropped |
| `Session.SameModelTwiceIsReloaded` | main.js:148-210 | from occluder resolution, the initial model is fetched and attached (running, one object); requesting it again is accepted: busy, the object cleared, a second fetch in flight |
| `Session.ModelLoadedAddsOne` | main.js:186-189 | a completed fetch adds exactly its mesh, removes itself from the in-flight list and sets running, whatever the state was |
| `Session.AllLoadedIsIdempotent` | main.js:200-204 | `onLoad` sets running whatever the state while the loading overlay exists, and changes nothing once it is gone (`hide_loading` throws at main.js:263 first); after a completed `onLoad`, firing it again changes nothing |
| `Session.OccluderResolutionRequestsInitialModel` | main.js:206-210 | resolution sets idle and only then requests the initial model, which the guard therefore accepts: the state ends busy with that fetch in flight |
| `Session.DebugHardOccluderNeverResolves` | main.js:206-239 | with a hard occluder in debug mode no occluder is attached and the promise never resolves, so the continuation that requests the initial model never runs |
| `Session.HideRule` | main.js:270-294 | the flag becomes true exactly on a detected frame while it is false and the element exists, and never goes back |
| `Session.HiddenAtMostOnce` | main.js:270-294 | along any run the instructions are faded at most once, and the final flag is true exactly when it was true or they were faded |
| `Session.ShippedStartup` | main.js:86-210 | shipped configuration: window load gives loading, start registers the soft occluder, resolution gives busy on `wristDemo`, the attach gives running with that one object |
| `Session.AllLoadedBeforeAttach` | main.js:186-204 | `onLoad` before the model callback gives running (busy if the overlay is gone and it throws at main.js:263); the callback then adds the one object and the state is running either way |
| `Session.OverlapAfterEarlyAllLoaded` | main.js:148-204 | if `onLoad` completes while a fetch is in flight, a second request is accepted and both fetches attach an object; if it throws on the missing overlay, the request is dropped |
| `Machine.VtoSession.constructor` | main.js:63-74 | the globals start not loaded, with no model, the flag false and nothing attached |
| `Machine.VtoSession.OnWindowLoad` | main.js:87-125 | `main` sets loading, then starts the tracker, or throws when the initial model or its mode is missing |
| `Machine.VtoSession.OnTrackerReady` | main.js:195-224 | `start` registers `onLoad` and dispatches `set_occluder`, registering the soft occluder at once |
| `Machine.VtoSession.OnTrackerFailed` | main.js:123-125 | a tracker failure is rethrown and changes nothing else |
| `Machine.VtoSession.OnHardOccluderLoaded` | main.js:229-239 | the occluder's scale is multiplied; in debug mode it is neither attached nor resolved, otherwise it is attached and the promise resolves |
| `Machine.VtoSession.OnOccluderResolved` | main.js:206-210 | sets idle, then calls `load_model` on the initial model |
| `Machine.VtoSession.OnAllLoaded` | main.js:200-204 | sets running when the loading overlay exists; otherwise `hide_loading` throws at main.js:263 and the state is unchanged |
| `Machine.VtoSession.RequestLoad` | main.js:148-160 | the guard and the accepted path as in `Session.Step`; the outcome is dropped exactly when the state was neither idle nor running, and threw exactly when an accepted id is not in the catalogue |
| `Machine.VtoSession.OnModelLoaded` | main.js:160-190 | the mesh is adapted with its model's settings, added to the tracker, its fetch leaves the in-flight list, and the state is running |
| `Machine.VtoSession.CallbackTrack` | main.js:288-294 | hides the instructions only on a detected frame while the flag is false |
| `Machine.VtoSession.HideInstructions` | main.js:270-280 | returns when the element is missing; otherwise sets the flag |
| `Machine.ShippedStartup` | main.js:86-210 | through the class methods: the shipped session reaches busy with the initial fetch in flight |
| `Machine.ShippedAttach` | main.js:148-204 | through the class methods: a request while busy is dropped, a detected frame hides the instructions, and the attach and `onLoad` give running with one object |

## Left out

- DOM and timers are display side effects: `setFullScreen`, the fading in `hide_loading`, the canvas `zIndex` fix, the `setTimeout` removals and `change_camera`/`ChangeCameraHelper`. From `hide_instructions` only the flag is modelled. From `hide_loading` only its throw on a missing overlay is modelled. Whether each overlay element exists is a parameter of `CallbackTrack` and `OnAllLoaded`, because the timers that remove them are not modelled. The page is assumed to contain the two canvases and the camera button: without them `setFullScreen` (main.js:81), `ChangeCameraHelper.init` (main.js:98) or the `zIndex` fix (main.js:196) would throw, and the tracker would never start or `onLoad` never be registered.
- three.js rendering is foreign library code with no logic visible in this file: `setup_lighting` (PMREM, HDR environment map, tone mapping), `CylinderGeometry` and materials, the `debugMeshMaterial` traversal, and the debug material of the hard occluder.
- Network fetches are external and appear only as the events that report their completion: `GLTFLoader.load` and `RGBELoader.load`. A fetch that fails has no error callback in the source, so its completion event simply never happens.
- `HandTrackerThreeHelper` is external: its neural networks, stabilizer and pose estimation, and the settings passed to `init` (threshold, landmark labels, stabilizer options, position factors, network paths). Its object lists are modelled only as the sequences this file adds to and clears.
- Promise scheduling is not modelled as concurrency. The two `.then` continuations of `set_occluder()` are one event, `OnOccluderResolved`, which sets idle and then calls `load_model`.
- The event order guaranteed by a shared three.js `LoadingManager` is not modelled. In practice `onLoad` only fires once managed fetches have ended, but here `onLoad` may fire at any time after `start`.
- IEEE floating point is replaced by exact `real`. The permutations only negate and reorder, so they are exact. For the same reason `1.3 * 1.462` is the exact product and NaN does not exist.
- JavaScript truthiness is modelled only as far as the shipped values reach it. A scale setting is skipped when absent or zero. An offset or quaternion setting is applied whenever present, and is assumed to have three or four entries; shorter arrays would give NaN components.
- The shipped wrist mode defines no `occluderModelURL` or `occluderScale`. `settings.dfy` uses the empty URL and the unit scale for them, and these values are read only when the type is `'MODEL'`.
- The configuration objects (main.js:3-59) appear only as the constants `Settings.Shipped`, `Settings.WristMode` and `Settings.WristModel`. Their tracker-only fields are not modelled.
- `_VTOMode` (main.js:63, 105) is not a field. Its only use is the mode lookup, which `Settings.ActiveMode` gives.
