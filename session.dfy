/** The session state machine as values: the abstract session, the events
    that drive it (each asynchronous completion is one event), one step per
    event, and runs over arbitrary event orders. The class in machine.dfy
    implements these steps in place. */
module Session {
  import opened Geometry
  import opened Settings
  import opened Occluder

  datatype State = NotLoaded | Loading | Idle | Running | Busy

  /** The numeric values of `_states`. */
  function Code(st: State): int {
    match st
    case NotLoaded => -1
    case Loading => 0
    case Idle => 1
    case Running => 2
    case Busy => 3
  }

  lemma CodesAreDistinct(a: State, b: State)
    ensures Code(a) == Code(b) <==> a == b
  {
  }

  /** Where the tracker initialisation stands. `MainThrew`: `main` failed to
      look up the initial model or its mode and never started the tracker. */
  datatype Tracker = NotStarted | MainThrew | InitPending | Ready | InitFailed

  /** Where the occluder promise stands. `Resolved`: resolved, its
      continuation not run yet; `Done`: continuation ran; `Stalled`: the
      debug branch returned without ever resolving. */
  datatype OccluderPhase = Unset | HardLoading | Resolved | Done | Stalled

  datatype Session = Session(
    state: State,
    currentModel: Option<string>,       // _VTOModel
    instructionsHidden: bool,           // _isInstructionsHidden
    tracker: Tracker,
    occluder: OccluderPhase,
    softOccluder: Option<SoftOccluder>, // registered soft occluder
    occluders: seq<Node>,               // registered hard occluders
    objects: seq<Node>,                 // model objects added to the tracker
    pending: seq<string>,               // model ids whose fetch is in flight
    threw: bool)                        // the last accepted load_model call threw after setting busy

  const Init: Session := Session(NotLoaded, None, false, NotStarted, Unset, None, [], [], [], false)

  datatype Event =
    | WindowLoad                                   // main()
    | TrackerReady                                 // tracker init resolved: start(three)
    | TrackerFailed                                // tracker init rejected
    | HardOccluderLoaded(mesh: Node)               // hard occluder fetch completed
    | OccluderResolved                             // the set_occluder() continuations
    | AllLoaded(overlayExists: bool)               // three.loadingManager.onLoad, with the #loading lookup's outcome
    | RequestLoad(id: string)                      // load_model(id)
    | ModelLoaded(k: nat, mesh: Node)              // the k-th in-flight model fetch completed
    | Track(isDetected: bool, elementExists: bool) // callbackTrack, with the DOM lookup's outcome

  /** An event can fire only once what it completes exists: the window load
      fires once, a callback fires only after it is registered, a fetch
      completes only while in flight. Beyond that, any order is possible. */
  predicate Enabled(c: Config, s: Session, e: Event) {
    match e
    case WindowLoad => s.tracker == NotStarted
    case TrackerReady => s.tracker == InitPending && ActiveMode(c).Some?
    case TrackerFailed => s.tracker == InitPending
    case HardOccluderLoaded(_) => s.occluder == HardLoading
    case OccluderResolved => s.occluder == Resolved
    case AllLoaded(_) => s.tracker == Ready
    case RequestLoad(_) => true
    case ModelLoaded(k, _) => k < |s.pending|
    case Track(_, _) => s.tracker == InitPending || s.tracker == Ready
  }

  /** load_model. The guard drops the call unless the state is idle or
      running, or when the id equals _VTOModel. An accepted call sets busy and
      clears the model objects (not the occluders); an id missing from the
      catalogue then throws before any fetch is issued. */
  function Load(c: Config, s: Session, id: string): (r: Session)
    ensures r == s || r.state == Busy
    ensures r != s ==> r.objects == [] && r.threw == (id !in c.models)
    ensures r.pending == s.pending || (id in c.models && r.pending == s.pending + [id])
    ensures r.occluders == s.occluders && r.softOccluder == s.softOccluder && r.occluder == s.occluder
    ensures r.tracker == s.tracker && r.instructionsHidden == s.instructionsHidden
    ensures r.currentModel == s.currentModel
  {
    if (s.state != Running && s.state != Idle) || Some(id) == s.currentModel then s
    else if id in c.models then s.(state := Busy, objects := [], pending := s.pending + [id], threw := false)
    else s.(state := Busy, objects := [], threw := true)
  }

  /** start: onLoad is registered and set_occluder dispatches. Only the
      soft cylinder and the absent occluder leave the promise resolved. */
  function Start(c: Config, s: Session): (r: Session)
    requires ActiveMode(c).Some?
    ensures r.tracker == Ready
    ensures r.state == s.state && r.objects == s.objects && r.pending == s.pending && r.occluders == s.occluders
    ensures var plan := PlanOccluder(ActiveMode(c).value, c.debugOccluder);
      && (r.occluder == Resolved <==> ResolvesAtOnce(plan))
      && (r.occluder == HardLoading <==> !ResolvesAtOnce(plan))
      && (r.softOccluder != s.softOccluder ==> plan.SoftPlan? && r.softOccluder == Some(plan.occluder))
  {
    var s1 := s.(tracker := Ready);
    match PlanOccluder(ActiveMode(c).value, c.debugOccluder)
    case SoftPlan(o) => s1.(softOccluder := Some(o), occluder := Resolved)
    case HardPlan(_, _) => s1.(occluder := HardLoading)
    case NoOccluder => s1.(occluder := Resolved)
  }

  /** The effect of one event; an event that cannot fire changes nothing,
      no event writes _VTOModel, and the instructions flag never falls. */
  function Step(c: Config, s: Session, e: Event): (r: Session)
    ensures !Enabled(c, s, e) ==> r == s
    ensures r.currentModel == s.currentModel
    ensures s.instructionsHidden ==> r.instructionsHidden
  {
    if !Enabled(c, s, e) then s
    else match e
      case WindowLoad =>
        s.(state := Loading, tracker := if ActiveMode(c).Some? then InitPending else MainThrew)
      case TrackerReady => Start(c, s)
      case TrackerFailed => s.(tracker := InitFailed)
      case HardOccluderLoaded(mesh) =>
        if c.debugOccluder then s.(occluder := Stalled)
        else s.(occluders := s.occluders + [mesh], occluder := Resolved)
      case OccluderResolved => Load(c, s.(occluder := Done, state := Idle), c.initialModel)
      case AllLoaded(overlayExists) =>
        // hide_loading reads the overlay's style first: once the overlay is
        // removed it throws, and the state is not set
        if overlayExists then s.(state := Running) else s
      case RequestLoad(id) => Load(c, s, id)
      case ModelLoaded(k, mesh) =>
        s.(objects := s.objects + [mesh], pending := s.pending[..k] + s.pending[k + 1..], state := Running)
      case Track(detected, present) =>
        if detected && !s.instructionsHidden && present then s.(instructionsHidden := true) else s
  }

  function Run(c: Config, s: Session, es: seq<Event>): Session
    decreases |es|
  {
    if es == [] then s else Run(c, Step(c, s, es[0]), es[1..])
  }

  /** Whether the event fades the instructions overlay out. */
  predicate HidesInstructions(c: Config, s: Session, e: Event) {
    Enabled(c, s, e) && e.Track? && e.isDetected && !s.instructionsHidden && e.elementExists
  }

  /** How many times the overlay is faded out along a run. */
  function HideCount(c: Config, s: Session, es: seq<Event>): nat
    decreases |es|
  {
    if es == [] then 0
    else (if HidesInstructions(c, s, es[0]) then 1 else 0) + HideCount(c, Step(c, s, es[0]), es[1..])
  }

  predicate IsHard(c: Config) {
    ActiveMode(c).Some? && ActiveMode(c).value.occluderType == ModelType
  }

  /** How the occluder part of the session agrees with the plan set_occluder chose. */
  predicate OccluderConsistent(c: Config, s: Session)
    requires ActiveMode(c).Some?
  {
    match PlanOccluder(ActiveMode(c).value, c.debugOccluder)
    case SoftPlan(o) =>
      s.softOccluder == Some(o) && s.occluders == [] && (s.occluder == Resolved || s.occluder == Done)
    case HardPlan(_, _) =>
      s.softOccluder == None &&
      ((s.occluder == Resolved || s.occluder == Done) <==> |s.occluders| == 1) &&
      (s.occluder == HardLoading || s.occluder == Stalled ==> s.occluders == []) &&
      (s.occluder == Stalled ==> c.debugOccluder) &&
      (c.debugOccluder ==> s.occluder == HardLoading || s.occluder == Stalled)
    case NoOccluder =>
      s.softOccluder == None && s.occluders == [] && (s.occluder == Resolved || s.occluder == Done)
  }

  /** What holds in every session reachable from Init. */
  predicate Inv(c: Config, s: Session) {
    && s.currentModel == None
    && (s.tracker == NotStarted <==> s.state == NotLoaded)
    && (s.tracker == NotStarted ==> s == Init)
    && (s.tracker == InitPending || s.tracker == Ready ==> ActiveMode(c).Some?)
    && (s.tracker != Ready ==>
          s.state == NotLoaded || s.state == Loading)
    && (s.tracker != Ready ==>
          s.occluder == Unset && s.softOccluder == None && s.occluders == [] &&
          s.objects == [] && s.pending == [] && !s.threw)
    && (s.tracker == Ready ==> s.occluder != Unset && OccluderConsistent(c, s))
    // idle is seen only inside the occluder continuations (see NoReachableSessionIsIdle)
    && (s.state == Idle ==> s.occluder == Done)
    && (s.state == Busy ==> s.pending != [] || s.threw)
    && (forall i | 0 <= i < |s.pending| :: s.pending[i] in c.models)
    && (s.instructionsHidden ==> s.tracker != NotStarted && s.tracker != MainThrew)
  }

  lemma InitIsValid(c: Config)
    ensures Inv(c, Init)
  {
  }

  lemma LoadKeepsInv(c: Config, s: Session, id: string)
    requires Inv(c, s)
    ensures Inv(c, Load(c, s, id))
  {
    var r := Load(c, s, id);
    if r.pending != s.pending {
      forall i | 0 <= i < |r.pending| ensures r.pending[i] in c.models {
        if i < |s.pending| { assert r.pending[i] == s.pending[i]; }
      }
    }
  }

  /** The session between the two occluder continuations: idle. */
  lemma IdleBeforeInitialRequestIsValid(c: Config, s: Session)
    requires Inv(c, s) && s.occluder == Resolved
    ensures Inv(c, s.(occluder := Done, state := Idle))
  {
  }

  lemma StepKeepsInv(c: Config, s: Session, e: Event)
    requires Inv(c, s)
    ensures Inv(c, Step(c, s, e))
  {
    if !Enabled(c, s, e) {
      return;
    }
    match e
    case WindowLoad =>
    case TrackerReady =>
    case TrackerFailed =>
    case HardOccluderLoaded(mesh) =>
    case OccluderResolved =>
      IdleBeforeInitialRequestIsValid(c, s);
      LoadKeepsInv(c, s.(occluder := Done, state := Idle), c.initialModel);
    case AllLoaded(_) =>
    case RequestLoad(id) =>
      LoadKeepsInv(c, s, id);
    case ModelLoaded(k, mesh) =>
      var rest := s.pending[..k] + s.pending[k + 1..];
      forall i | 0 <= i < |rest| ensures rest[i] in c.models {
        if i < k { assert rest[i] == s.pending[i]; } else { assert rest[i] == s.pending[i + 1]; }
      }
    case Track(detected, present) =>
  }

  /** Under every order of events, the invariant is kept. */
  lemma {:induction false} RunKeepsInv(c: Config, s: Session, es: seq<Event>)
    requires Inv(c, s)
    ensures Inv(c, Run(c, s, es))
    decreases |es|
  {
    if es != [] {
      StepKeepsInv(c, s, es[0]);
      RunKeepsInv(c, Step(c, s, es[0]), es[1..]);
    }
  }

  lemma ReachableSessionsAreValid(c: Config, es: seq<Event>)
    ensures Inv(c, Run(c, Init, es))
  {
    InitIsValid(c);
    RunKeepsInv(c, Init, es);
  }

  /** _VTOModel is never assigned, so it stays null along every run. */
  lemma CurrentModelStaysNull(c: Config, es: seq<Event>)
    ensures Run(c, Init, es).currentModel == None
  {
    ReachableSessionsAreValid(c, es);
  }

  /** load_model is a no-op exactly when the state is neither idle nor
      running: the `modelId === _VTOModel` disjunct never rejects an id. */
  lemma LoadGuard(c: Config, s: Session, id: string)
    requires Inv(c, s)
    ensures Step(c, s, RequestLoad(id)) == s <==> s.state != Idle && s.state != Running
  {
  }

  /** Guard completeness, for each state that is neither idle nor running. */
  lemma LoadDroppedUnlessIdleOrRunning(c: Config, s: Session, id: string)
    requires s.state in {NotLoaded, Loading, Busy}
    ensures Step(c, s, RequestLoad(id)) == s
  {
  }

  /** An accepted request sets busy, clears the model objects, keeps the
      occluders and the rest, and starts one fetch for a known id. A second
      request while that fetch is in flight is then dropped. */
  lemma AcceptedLoad(c: Config, s: Session, id: string, id2: string)
    requires Inv(c, s) && (s.state == Idle || s.state == Running)
    ensures var r := Step(c, s, RequestLoad(id));
      && r.state == Busy && r.objects == []
      && r.occluders == s.occluders && r.softOccluder == s.softOccluder
      && r.instructionsHidden == s.instructionsHidden && r.tracker == s.tracker
      && (id in c.models ==> r.pending == s.pending + [id] && !r.threw && Step(c, r, RequestLoad(id2)) == r)
      && (id !in c.models ==> r.pending == s.pending && r.threw)
  {
    var r := Step(c, s, RequestLoad(id));
    LoadDroppedUnlessIdleOrRunning(c, r, id2);
  }

  /** The same model requested again once it is attached is not a no-op:
      the guard accepts it, so the attached object is cleared and refetched. */
  lemma SameModelTwiceIsReloaded(c: Config, s: Session, mesh: Node)
    requires Inv(c, s) && s.occluder == Resolved && c.initialModel in c.models
    ensures var busy := Step(c, s, OccluderResolved);
      var running := Step(c, busy, ModelLoaded(|busy.pending| - 1, mesh));
      var again := Step(c, running, RequestLoad(c.initialModel));
      && running.state == Running && running.objects == [mesh]
      && again.state == Busy && again.objects == []
      && again.pending == running.pending + [c.initialModel]
  {
  }

  /** A completed model fetch adds exactly that one object and sets running,
      whatever the state was; the fetch leaves the in-flight list. */
  lemma ModelLoadedAddsOne(c: Config, s: Session, k: nat, mesh: Node)
    requires k < |s.pending|
    ensures var r := Step(c, s, ModelLoaded(k, mesh));
      && r.state == Running
      && r.objects == s.objects + [mesh]
      && |r.pending| == |s.pending| - 1
      && multiset(r.pending) + multiset{s.pending[k]} == multiset(s.pending)
      && r.occluders == s.occluders && r.instructionsHidden == s.instructionsHidden
  {
    var r := Step(c, s, ModelLoaded(k, mesh));
    assert s.pending == s.pending[..k] + [s.pending[k]] + s.pending[k + 1..];
  }

  /** onLoad sets running whatever the state, as long as the loading overlay
      is still there; once it is gone, hide_loading throws first and nothing
      changes. After a completed onLoad, repeating it changes nothing. */
  lemma AllLoadedIsIdempotent(c: Config, s: Session, overlayExists: bool)
    requires s.tracker == Ready
    ensures Step(c, s, AllLoaded(true)).state == Running
    ensures Step(c, s, AllLoaded(false)) == s
    ensures Step(c, Step(c, s, AllLoaded(true)), AllLoaded(overlayExists)) == Step(c, s, AllLoaded(true))
  {
  }

  /** Occluder resolution passes through idle, so the initial model request
      is always accepted: it sets busy and starts the initial model's fetch. */
  lemma OccluderResolutionRequestsInitialModel(c: Config, s: Session)
    requires Inv(c, s) && s.occluder == Resolved && c.initialModel in c.models
    ensures var r := Step(c, s, OccluderResolved);
      r.occluder == Done && r.state == Busy && r.objects == [] &&
      r.pending == s.pending + [c.initialModel]
  {
  }

  /** Idle never outlasts an event: occluder resolution sets it and, in the
      same event, makes the initial request, which the guard accepts. */
  lemma StepLeavesIdle(c: Config, s: Session, e: Event)
    requires Inv(c, s) && s.state != Idle
    ensures Step(c, s, e).state != Idle
  {
  }

  lemma {:induction false} RunLeavesIdle(c: Config, s: Session, es: seq<Event>)
    requires Inv(c, s) && s.state != Idle
    ensures Run(c, s, es).state != Idle
    decreases |es|
  {
    if es != [] {
      StepLeavesIdle(c, s, es[0]);
      StepKeepsInv(c, s, es[0]);
      RunLeavesIdle(c, Step(c, s, es[0]), es[1..]);
    }
  }

  /** No session between two events is idle. */
  lemma NoReachableSessionIsIdle(c: Config, es: seq<Event>)
    ensures Run(c, Init, es).state != Idle
  {
    InitIsValid(c);
    RunLeavesIdle(c, Init, es);
  }

  /** In a debug session with a hard occluder the occluder promise never
      resolves: no occluder is attached, and the continuation that requests
      the initial model never runs. */
  lemma DebugHardOccluderNeverResolves(c: Config, es: seq<Event>)
    requires IsHard(c) && c.debugOccluder
    ensures var r := Run(c, Init, es);
      r.occluder != Resolved && r.occluder != Done && r.occluders == []
  {
    ReachableSessionsAreValid(c, es);
  }

  /** The flag changes only on a detected frame while it is false and the
      element exists; then it becomes true. */
  lemma HideRule(c: Config, s: Session, e: Event)
    ensures Step(c, s, e).instructionsHidden == (s.instructionsHidden || HidesInstructions(c, s, e))
  {
  }

  /** Along any run the overlay is faded out at most once, and not at all once
      the flag is set. */
  lemma {:induction false} HiddenAtMostOnce(c: Config, s: Session, es: seq<Event>)
    ensures HideCount(c, s, es) <= (if s.instructionsHidden then 0 else 1)
    ensures Run(c, s, es).instructionsHidden == (s.instructionsHidden || HideCount(c, s, es) == 1)
    decreases |es|
  {
    if es != [] {
      HideRule(c, s, es[0]);
      HiddenAtMostOnce(c, Step(c, s, es[0]), es[1..]);
    }
  }

  /** The shipped configuration: start, tracker ready, occluder resolved (idle,
      then busy on the initial model), model attached (running). */
  lemma ShippedStartup(mesh: Node)
    ensures var s1 := Step(Shipped, Init, WindowLoad);
      var s2 := Step(Shipped, s1, TrackerReady);
      var s3 := Step(Shipped, s2, OccluderResolved);
      var s4 := Step(Shipped, s3, ModelLoaded(0, mesh));
      && s1.state == Loading && s2.state == Loading && s2.softOccluder.Some?
      && s3.state == Busy && s3.pending == ["wristDemo"]
      && s4.state == Running && s4.objects == [mesh] && s4.pending == []
  {
  }

  /** onLoad before the model callback: running once (or, with the overlay
      gone, still busy), and the later callback adds the one object and
      leaves the state running either way. */
  lemma AllLoadedBeforeAttach(c: Config, s: Session, overlayExists: bool, mesh: Node)
    requires s.tracker == Ready && s.state == Busy && |s.pending| == 1
    ensures var a := Step(c, s, AllLoaded(overlayExists));
      var b := Step(c, a, ModelLoaded(0, mesh));
      && a.state == (if overlayExists then Running else Busy)
      && b.state == Running && b.objects == s.objects + [mesh] && b.pending == []
  {
  }

  /** The guard alone does not keep loads from overlapping: if onLoad runs
      to completion (the overlay still there) while a fetch is in flight, a
      new request is accepted, and both fetches then each add an object. If
      the overlay is already gone, the state stays busy and the request is
      dropped. */
  lemma OverlapAfterEarlyAllLoaded(c: Config, s: Session, id: string, overlayExists: bool, m1: Node, m2: Node)
    requires s.tracker == Ready && s.state == Busy && s.pending == [id] && s.objects == []
    requires id in c.models && s.currentModel == None
    ensures var a := Step(c, s, AllLoaded(overlayExists));
      var b := Step(c, a, RequestLoad(id));
      var d := Step(c, Step(c, b, ModelLoaded(0, m1)), ModelLoaded(0, m2));
      && (overlayExists ==> b.pending == [id, id] && d.objects == [m1, m2] && d.state == Running)
      && (!overlayExists ==> b == s)
  {
  }
}
