/** The tracking hierarchy and pose-write systems of the OpenXR input layer:
    the marker components, the queries the two systems run, the state they
    produce as functions of the state they read, and the scene world whose
    parent and transform components the systems update in place. */
module Trackers {
  import opened Ecs

  /** The zero-sized marker components an application attaches to entities. */
  datatype Marker =
    | TrackingRoot
    | Tracker
    | LeftEye
    | RightEye
    | Hmd
    | LeftController
    | RightController
    | Controller

  datatype Hand = Left | Right

  function Opposite(h: Hand): (o: Hand)
    ensures o != h
  {
    match h
    case Left => Right
    case Right => Left
  }

  /** The marker that selects the controller entity of hand `h`. */
  function HandMarker(h: Hand): (m: Marker)
    ensures m == LeftController || m == RightController
  {
    match h
    case Left => LeftController
    case Right => RightController
  }

  /** The runtime's frame state, copied out of its lock once per pass. */
  datatype FrameState = FrameState(predictedDisplayTime: int, predictedDisplayPeriod: int, shouldRender: bool)

  /** The runtime instance, session and input-action handles the pose source is given. */
  datatype XrHandles = XrHandles(instance: nat, session: nat, input: nat)

  /** A grip pose already converted to the scene's vector and quaternion types. */
  datatype Pose = Pose(position: Vec3, orientation: Quat)

  /** The controller's grip pose for a hand, as the runtime reports it for a
      frame state (controller lookup, grip-space location and conversion,
      taken together as one function the model does not look inside). */
  type GripSource = (XrHandles, FrameState, Hand) -> Pose

  /** What an update pass ends with: both hands written, or the `unwrap` of a
      hand's single-entity lookup panicked. */
  datatype SyncOutcome = Synced | Panicked(hand: Hand, cause: QuerySingleError)

  datatype SyncPass = SyncPass(outcome: SyncOutcome, transforms: map<EntityId, Transform>)

  // ---------------------------------------------------------------- queries

  /** `Query<(Entity, With<OpenXRTrackingRoot>)>` */
  function RootQuery(entities: seq<EntityId>, markers: map<EntityId, set<Marker>>): (r: seq<EntityId>)
  {
    Select(entities, e => e in markers && TrackingRoot in markers[e])
  }

  /** `Query<Entity, Added<OpenXRTracker>>`: trackers whose marker was added
      since the system last ran. */
  function AddedTrackerQuery(entities: seq<EntityId>, markers: map<EntityId, set<Marker>>,
                             added: set<EntityId>): (r: seq<EntityId>)
  {
    Select(entities, e => e in added && e in markers && Tracker in markers[e])
  }

  /** The filter `With<hand's marker>, Without<other hand's marker>`. */
  predicate ControllerFilter(tags: set<Marker>, h: Hand)
  {
    HandMarker(h) in tags && HandMarker(Opposite(h)) !in tags
  }

  /** `Query<(&mut Transform, With<..>, Without<..>)>` for hand `h`: only
      entities that have a transform component match. */
  function ControllerQuery(entities: seq<EntityId>, markers: map<EntityId, set<Marker>>,
                           withTransform: set<EntityId>, h: Hand): (r: seq<EntityId>)
  {
    Select(entities, e => e in withTransform && e in markers && ControllerFilter(markers[e], h))
  }

  /** The set of entities carrying the tracking-root marker. */
  ghost function Roots(entities: seq<EntityId>, markers: map<EntityId, set<Marker>>): (r: set<EntityId>)
  {
    set e | e in entities && e in markers && TrackingRoot in markers[e]
  }

  /** The set of entities with a transform that pass hand `h`'s controller filter. */
  ghost function Controllers(entities: seq<EntityId>, markers: map<EntityId, set<Marker>>,
                             ts: map<EntityId, Transform>, h: Hand): (r: set<EntityId>)
  {
    set e | e in entities && e in ts && e in markers && ControllerFilter(markers[e], h)
  }

  // ------------------------------------------------------- adoption, as values

  /** The parent edges after `add_child(p, c)` is issued for each `c` of
      `children` in order: each child's parent becomes `p`, every other edge
      is kept. */
  function Reparent(parent: map<EntityId, EntityId>, children: seq<EntityId>, p: EntityId)
    : (r: map<EntityId, EntityId>)
    ensures r.Keys == parent.Keys + set c | c in children
    ensures forall c :: c in children ==> r[c] == p
    ensures forall e :: e in parent && e !in children ==> r[e] == parent[e]
  {
    if children == [] then parent
    else
      var last := children[|children| - 1];
      var before := children[..|children| - 1];
      assert forall c :: c in children ==> c in before || c == last;
      assert forall c :: c in before ==> c in children;
      Reparent(parent, before, p)[last := p]
  }

  /** The root lookup `adopt_open_xr_trackers` starts with. */
  function RootLookup(entities: seq<EntityId>, markers: map<EntityId, set<Marker>>)
    : (r: Result<EntityId, QuerySingleError>)
    ensures r.Ok? ==> r.value in entities && r.value in markers && TrackingRoot in markers[r.value]
  {
    var matches := RootQuery(entities, markers);
    assert GetSingle(matches).Ok? ==> GetSingle(matches).value in matches;
    GetSingle(matches)
  }

  /** The parent edges after one adoption pass: newly tagged trackers are
      attached to the root when the lookup finds exactly one, and nothing
      changes otherwise. */
  function AdoptedParents(entities: seq<EntityId>, markers: map<EntityId, set<Marker>>,
                          added: set<EntityId>, parent: map<EntityId, EntityId>)
    : (r: map<EntityId, EntityId>)
    ensures parent.Keys <= r.Keys
    ensures RootLookup(entities, markers).Err? ==> r == parent
  {
    match RootLookup(entities, markers)
    case Ok(root) => Reparent(parent, AddedTrackerQuery(entities, markers, added), root)
    case Err(_) => parent
  }

  // ------------------------------------------------------ pose write, as values

  /** Writing a pose into an entity's transform: translation and rotation take
      the pose's position and orientation; its scale and every other entity's
      transform are kept. */
  function WritePose(ts: map<EntityId, Transform>, e: EntityId, pose: Pose): (r: map<EntityId, Transform>)
    requires e in ts
    ensures r.Keys == ts.Keys
    ensures r[e].translation == pose.position && r[e].rotation == pose.orientation
    ensures r[e].scale == ts[e].scale
    ensures forall x :: x in ts && x != e ==> r[x] == ts[x]
  {
    ts[e := ts[e].(translation := pose.position, rotation := pose.orientation)]
  }

  /** The single-entity lookup for hand `h`'s controller. */
  function ControllerLookup(entities: seq<EntityId>, markers: map<EntityId, set<Marker>>,
                            ts: map<EntityId, Transform>, h: Hand)
    : (r: Result<EntityId, QuerySingleError>)
    ensures r.Ok? ==> r.value in entities && r.value in ts && r.value in markers
                      && ControllerFilter(markers[r.value], h)
  {
    var matches := ControllerQuery(entities, markers, ts.Keys, h);
    assert GetSingle(matches).Ok? ==> GetSingle(matches).value in matches;
    GetSingle(matches)
  }

  /** One pass of `update_open_xr_controllers` on frame state `fs`: the left
      hand first, then the right; a failed lookup stops the pass where it
      happens, so a right-hand failure keeps the left write. */
  function Sync(entities: seq<EntityId>, markers: map<EntityId, set<Marker>>,
                ts: map<EntityId, Transform>, handles: XrHandles, fs: FrameState,
                grip: GripSource): (r: SyncPass)
    ensures r.transforms.Keys == ts.Keys
    ensures r.outcome == Synced <==> ControllerLookup(entities, markers, ts, Left).Ok?
                                     && ControllerLookup(entities, markers, ts, Right).Ok?
  {
    match ControllerLookup(entities, markers, ts, Left)
    case Err(cause) => SyncPass(Panicked(Left, cause), ts)
    case Ok(l) =>
      var afterLeft := WritePose(ts, l, grip(handles, fs, Left));
      match ControllerLookup(entities, markers, ts, Right)
      case Err(cause) => SyncPass(Panicked(Right, cause), afterLeft)
      case Ok(r) => SyncPass(Synced, WritePose(afterLeft, r, grip(handles, fs, Right)))
  }

  // ------------------------------------------------------------- the world

  /** The scene state the two systems read and write. */
  class World {
    /** Every live entity, in query iteration order. */
    var entities: seq<EntityId>
    /** The marker components of each entity. */
    var markers: map<EntityId, set<Marker>>
    /** Parent edges of the hierarchy. */
    var parent: map<EntityId, EntityId>
    /** Transform components, for the entities that have one. */
    var transforms: map<EntityId, Transform>
    /** Entities whose tracker marker was inserted since adoption last ran:
        the change-detection state of the `Added<OpenXRTracker>` filter. */
    var trackerAdded: set<EntityId>
    /** The shared frame-state resource. */
    var frameState: FrameState

    ghost predicate Valid()
      reads this
    {
      && Distinct(entities)
      && (forall e :: e in markers <==> e in entities)
      && (forall e :: e in transforms ==> e in entities)
      && (forall e :: e in parent ==> e in entities && parent[e] in entities)
    }

    /** A scene with the given entities and components and no parent edges
        yet. */
    constructor (entities: seq<EntityId>, markers: map<EntityId, set<Marker>>,
                 transforms: map<EntityId, Transform>, trackerAdded: set<EntityId>,
                 frameState: FrameState)
      requires Distinct(entities)
      requires forall e :: e in markers <==> e in entities
      requires forall e :: e in transforms ==> e in entities
      ensures Valid()
      ensures this.entities == entities && this.markers == markers
      ensures this.transforms == transforms && this.trackerAdded == trackerAdded
      ensures this.frameState == frameState && parent == map[]
    {
      this.entities := entities;
      this.markers := markers;
      parent := map[];
      this.transforms := transforms;
      this.trackerAdded := trackerAdded;
      this.frameState := frameState;
    }

    /** `adopt_open_xr_trackers`: looks the root up and, when there is exactly
        one, issues `add_child(root, tracker)` for each newly tagged tracker;
        otherwise only reports the failed lookup, which is returned. Either
        way the run marks every tracker as seen, so the `Added` filter matches
        none of them on the next run. */
    method AdoptTrackers() returns (root: Result<EntityId, QuerySingleError>)
      requires Valid()
      modifies this`parent, this`trackerAdded
      ensures Valid()
      ensures root == RootLookup(entities, markers)
      ensures parent == AdoptedParents(entities, markers, old(trackerAdded), old(parent))
      ensures trackerAdded == {}
    {
      root := GetSingle(RootQuery(entities, markers));
      match root {
        case Ok(r) =>
          var trackers := AddedTrackerQuery(entities, markers, trackerAdded);
          assert forall t :: t in trackers ==> t in entities;
          var i := 0;
          while i < |trackers|
            invariant 0 <= i <= |trackers|
            invariant parent == Reparent(old(parent), trackers[..i], r)
          {
            assert trackers[..i + 1][..i] == trackers[..i];
            parent := parent[trackers[i] := r];
            i := i + 1;
          }
          assert trackers[..|trackers|] == trackers;
          assert root == RootLookup(entities, markers);
        case Err(_) =>
          // "root isnt spawned yet?" is logged; no parent edge changes
      }
      trackerAdded := {};
    }

    /** One hand's write in `update_open_xr_controllers`: looks up the single
        controller entity of hand `h` and sets its translation, then looks it
        up again and sets its rotation. A failed lookup is returned before any
        write; in the system it is the `unwrap` that panics. */
    method WriteControllerPose(h: Hand, pose: Pose) returns (lookup: Result<EntityId, QuerySingleError>)
      requires Valid()
      modifies this`transforms
      ensures Valid()
      ensures lookup == ControllerLookup(entities, markers, old(transforms), h)
      ensures transforms == if lookup.Ok? then WritePose(old(transforms), lookup.value, pose)
                            else old(transforms)
    {
      ghost var ts0 := transforms;
      lookup := GetSingle(ControllerQuery(entities, markers, transforms.Keys, h));
      assert lookup == ControllerLookup(entities, markers, ts0, h);
      if lookup.Err? {
        return;
      }
      var e := lookup.value;
      transforms := transforms[e := transforms[e].(translation := pose.position)];
      assert transforms.Keys == ts0.Keys;
      var again := GetSingle(ControllerQuery(entities, markers, transforms.Keys, h));
      transforms := transforms[again.value := transforms[again.value].(rotation := pose.orientation)];
    }

    /** `update_open_xr_controllers`: copies the frame state once, samples the
        left grip pose from it and writes it into the single left-only
        controller, then does the same for the right hand from the same copy.
        A lookup that does not find exactly one entity panics, which ends the
        pass. */
    method UpdateControllers(handles: XrHandles, grip: GripSource) returns (outcome: SyncOutcome)
      requires Valid()
      modifies this`transforms
      ensures Valid()
      ensures SyncPass(outcome, transforms)
              == Sync(entities, markers, old(transforms), handles, frameState, grip)
    {
      var fs := frameState;
      var left := grip(handles, fs, Left);
      var leftEntity := WriteControllerPose(Left, left);
      if leftEntity.Err? {
        return Panicked(Left, leftEntity.error);
      }
      var right := grip(handles, fs, Right);
      var rightEntity := WriteControllerPose(Right, right);
      if rightEntity.Err? {
        return Panicked(Right, rightEntity.error);
      }
      outcome := Synced;
    }
  }
}
