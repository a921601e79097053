/** The orchestrator of main.js as an object: the module globals become
    fields, and each handler, promise continuation and loader callback
    becomes a method. Every method moves the session exactly as the
    corresponding `Session.Step` does, so the lemmas of module Session hold
    of every order in which the environment calls them. */
module Machine {
  import opened Geometry
  import opened Settings
  import opened Adapter
  import opened Occluder
  import opened Session

  /** What a load_model call did: dropped by the guard, issued a fetch, or
      threw (unknown model id) after already setting busy. */
  datatype LoadOutcome = Dropped | Fetching | Threw

  class VtoSession {
    const config: Config
    var state: State
    var currentModel: Option<string>
    var instructionsHidden: bool
    var tracker: Tracker
    var occluder: OccluderPhase
    var softOccluder: Option<SoftOccluder>
    var occluders: seq<Node>
    var objects: seq<Node>
    var pending: seq<string>
    var threw: bool

    function Abs(): Session
      reads this
    {
      Session(state, currentModel, instructionsHidden, tracker, occluder,
              softOccluder, occluders, objects, pending, threw)
    }

    ghost predicate Valid()
      reads this
    {
      Inv(config, Abs())
    }

    /** The globals before the window load: not loaded, no model, flag false. */
    constructor (c: Config)
      ensures Valid() && config == c && Abs() == Init
    {
      config := c;
      state, currentModel, instructionsHidden := NotLoaded, None, false;
      tracker, occluder, softOccluder := NotStarted, Unset, None;
      occluders, objects, pending, threw := [], [], [], false;
      new;
      InitIsValid(c);
    }

    /** main: sets loading, then looks up the initial model and its mode and
        starts the tracker; a failed lookup throws before the tracker starts. */
    method OnWindowLoad()
      requires Valid() && Enabled(config, Abs(), WindowLoad)
      modifies this
      ensures Valid() && Abs() == Step(config, old(Abs()), WindowLoad)
    {
      ghost var s0 := Abs();
      state := Loading;
      if ActiveMode(config).None? {
        tracker := MainThrew;
      } else {
        tracker := InitPending;
      }
      StepKeepsInv(config, s0, WindowLoad);
    }

    /** start: registers onLoad, then set_occluder dispatches on the type. */
    method OnTrackerReady()
      requires Valid() && Enabled(config, Abs(), TrackerReady)
      modifies this
      ensures Valid() && Abs() == Step(config, old(Abs()), TrackerReady)
    {
      ghost var s0 := Abs();
      tracker := Ready;
      var m := ActiveMode(config).value;
      if m.occluderType == SoftCylinderType {
        softOccluder := Some(BuildSoftOccluder(m, config.debugOccluder));
        occluder := Resolved;
      } else if m.occluderType == ModelType {
        occluder := HardLoading;
      } else {
        occluder := Resolved;
      }
      StepKeepsInv(config, s0, TrackerReady);
    }

    /** The `.catch` of the tracker initialisation rethrows: nothing else changes. */
    method OnTrackerFailed()
      requires Valid() && Enabled(config, Abs(), TrackerFailed)
      modifies this
      ensures Valid() && Abs() == Step(config, old(Abs()), TrackerFailed)
    {
      ghost var s0 := Abs();
      tracker := InitFailed;
      StepKeepsInv(config, s0, TrackerFailed);
    }

    /** add_hardOccluder's loader callback: the mesh's scale is multiplied;
        in debug mode it returns without attaching and without resolving. */
    method OnHardOccluderLoaded(me: Node)
      requires Valid() && Enabled(config, Abs(), HardOccluderLoaded(me))
      modifies this, me
      ensures Valid() && Abs() == Step(config, old(Abs()), HardOccluderLoaded(me))
      ensures me.Pose() == AdaptHardOccluder(old(me.Pose()), ActiveMode(config).value.occluderScale)
    {
      ghost var s0 := Abs();
      AdaptHardOccluderNode(me, ActiveMode(config).value.occluderScale);
      if config.debugOccluder {
        occluder := Stalled;
      } else {
        occluders := occluders + [me];
        occluder := Resolved;
      }
      StepKeepsInv(config, s0, HardOccluderLoaded(me));
    }

    /** The two continuations of set_occluder(): set idle, then request the
        initial model. */
    method OnOccluderResolved()
      requires Valid() && Enabled(config, Abs(), OccluderResolved)
      modifies this
      ensures Valid() && Abs() == Step(config, old(Abs()), OccluderResolved)
    {
      ghost var s0 := Abs();
      occluder := Done;
      state := Idle;
      IdleBeforeInitialRequestIsValid(config, s0);
      var _ := RequestLoad(config.initialModel);
    }

    /** three.loadingManager.onLoad: hide_loading, then running, whatever the
        state. `overlayExists` is the outcome of the `#loading` lookup; once a
        timer has removed the overlay, hide_loading throws on it and the
        state is left as it was. */
    method OnAllLoaded(overlayExists: bool)
      requires Valid() && Enabled(config, Abs(), AllLoaded(overlayExists))
      modifies this
      ensures Valid() && Abs() == Step(config, old(Abs()), AllLoaded(overlayExists))
      ensures state == (if overlayExists then Running else old(state))
    {
      ghost var s0 := Abs();
      if !overlayExists {
        return;
      }
      state := Running;
      StepKeepsInv(config, s0, AllLoaded(overlayExists));
    }

    /** load_model: the guard, then busy, then clearing the model objects
        (not the occluders), then the fetch of the model's URL. */
    method RequestLoad(modelId: string) returns (outcome: LoadOutcome)
      requires Valid()
      modifies this
      ensures Valid() && Abs() == Step(config, old(Abs()), Event.RequestLoad(modelId))
      ensures outcome == Dropped <==> old(state) != Running && old(state) != Idle
      ensures outcome == Threw <==> outcome != Dropped && modelId !in config.models
    {
      ghost var s0 := Abs();
      if (state != Running && state != Idle) || Some(modelId) == currentModel {
        return Dropped;
      }
      state := Busy;
      objects := [];
      if modelId !in config.models {
        threw := true;
        outcome := Threw;
      } else {
        pending := pending + [modelId];
        threw := false;
        outcome := Fetching;
      }
      StepKeepsInv(config, s0, Event.RequestLoad(modelId));
    }

    /** The model loader callback of the k-th fetch in flight: adapt the
        mesh to the engine frame, add it to the tracker, set running. */
    method OnModelLoaded(k: nat, me: Node)
      requires Valid() && Enabled(config, Abs(), ModelLoaded(k, me))
      modifies this, me
      ensures Valid() && Abs() == Step(config, old(Abs()), ModelLoaded(k, me))
      ensures me.Pose() == AdaptModel(old(me.Pose()), config.models[old(pending)[k]])
    {
      ghost var s0 := Abs();
      var modelSettings := config.models[pending[k]];
      AdaptModelNode(me, modelSettings);
      objects := objects + [me];
      pending := pending[..k] + pending[k + 1..];
      state := Running;
      StepKeepsInv(config, s0, ModelLoaded(k, me));
    }

    /** callbackTrack: on a detected frame, while the flag is false, try to
        hide the instructions. */
    method CallbackTrack(isDetected: bool, elementExists: bool)
      requires Valid() && Enabled(config, Abs(), Track(isDetected, elementExists))
      modifies this
      ensures Valid() && Abs() == Step(config, old(Abs()), Track(isDetected, elementExists))
    {
      if isDetected {
        if !instructionsHidden {
          HideInstructions(elementExists);
        }
      }
    }

    /** hide_instructions: returns when the element is missing; otherwise
        fades it and sets the flag. */
    method HideInstructions(elementExists: bool)
      requires Valid() && (tracker == InitPending || tracker == Ready)
      modifies this
      ensures Valid()
      ensures Abs() == old(Abs()).(instructionsHidden := old(instructionsHidden) || elementExists)
    {
      if !elementExists {
        return;
      }
      instructionsHidden := true;
    }
  }

  /** The shipped configuration from the window load to the initial
      model's fetch: idle is passed through and the session is busy. */
  method ShippedStartup() returns (s: VtoSession)
    ensures fresh(s) && s.Valid() && s.config == Shipped && s.tracker == Ready
    ensures s.state == Busy && s.pending == ["wristDemo"] && s.objects == []
  {
    s := new VtoSession(Shipped);
    assert ActiveMode(Shipped) == Some(WristMode);
    s.OnWindowLoad();
    assert s.tracker == InitPending;
    s.OnTrackerReady();
    assert s.occluder == Resolved;
    s.OnOccluderResolved();
  }

  /** Then: a second request while busy is dropped, the first frame with a
      hand hides the instructions, the model attaches, onLoad fires last
      while the loading overlay is still shown. */
  method ShippedAttach(s: VtoSession, me: Node)
    requires s.Valid() && s.tracker == Ready
    requires s.state == Busy && s.pending == ["wristDemo"] && s.objects == []
    modifies s, me
    ensures s.state == Running && s.objects == [me] && s.pending == [] && s.instructionsHidden
  {
    var outcome := s.RequestLoad("wristDemo");
    assert outcome == Dropped;
    s.CallbackTrack(true, true);
    s.OnModelLoaded(0, me);
    s.OnAllLoaded(true);
  }
}
