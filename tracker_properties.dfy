/** What the two tracker systems promise, stated over the functions that
    describe one adoption pass and one update pass. */
module TrackerProperties {
  import opened Ecs
  import opened Trackers

  // ----------------------------------------------------------------- queries

  /** The root query matches exactly the live entities carrying the
      tracking-root marker, each once. */
  lemma RootQueryMatchesRoots(entities: seq<EntityId>, markers: map<EntityId, set<Marker>>)
    ensures forall e :: e in RootQuery(entities, markers) <==> e in Roots(entities, markers)
    ensures Distinct(entities) ==> Distinct(RootQuery(entities, markers))
  {
  }

  /** The added-tracker query matches exactly the live entities that carry the
      tracker marker and are in the added set. */
  lemma AddedTrackerQueryMatchesNewTrackers(entities: seq<EntityId>, markers: map<EntityId, set<Marker>>,
                                            added: set<EntityId>, e: EntityId)
    ensures e in AddedTrackerQuery(entities, markers, added)
            <==> e in entities && e in added && e in markers && Tracker in markers[e]
  {
  }

  /** Hand `h`'s controller query matches exactly the live entities with a
      transform that pass the hand's `With`/`Without` filter. */
  lemma ControllerQueryMatchesControllers(entities: seq<EntityId>, markers: map<EntityId, set<Marker>>,
                                          ts: map<EntityId, Transform>, h: Hand)
    ensures forall e :: e in ControllerQuery(entities, markers, ts.Keys, h)
                        <==> e in Controllers(entities, markers, ts, h)
    ensures Distinct(entities) ==> Distinct(ControllerQuery(entities, markers, ts.Keys, h))
  {
  }

  // ---------------------------------------------------------- the root lookup

  /** Adoption finds root `root` exactly when `root` is the only entity that
      carries the tracking-root marker. */
  lemma RootLookupIffUniqueRoot(entities: seq<EntityId>, markers: map<EntityId, set<Marker>>, root: EntityId)
    requires Distinct(entities)
    ensures RootLookup(entities, markers) == Ok(root) <==> Roots(entities, markers) == {root}
  {
    var matches := RootQuery(entities, markers);
    GetSingleIffUnique(matches, root);
    assert forall e :: e in matches <==> e in Roots(entities, markers);
    if Roots(entities, markers) == {root} {
      assert root in Roots(entities, markers);
    }
  }

  // ---------------------------------------------------------------- adoption

  /** With exactly one tracking root, every newly tagged tracker has that root
      as its parent after adoption. */
  lemma AdoptionParentsEveryNewTracker(entities: seq<EntityId>, markers: map<EntityId, set<Marker>>,
                                       added: set<EntityId>, parent: map<EntityId, EntityId>, root: EntityId)
    requires Distinct(entities)
    requires Roots(entities, markers) == {root}
    ensures forall t :: t in entities && t in added && t in markers && Tracker in markers[t] ==>
              t in AdoptedParents(entities, markers, added, parent)
              && AdoptedParents(entities, markers, added, parent)[t] == root
  {
    RootLookupIffUniqueRoot(entities, markers, root);
    var trackers := AddedTrackerQuery(entities, markers, added);
    assert forall t :: t in entities && t in added && t in markers && Tracker in markers[t] ==> t in trackers;
  }

  /** With no tracking root, the lookup reports that nothing matched and no
      parent edge changes. */
  lemma AdoptionWithoutRootChangesNothing(entities: seq<EntityId>, markers: map<EntityId, set<Marker>>,
                                          added: set<EntityId>, parent: map<EntityId, EntityId>)
    requires Roots(entities, markers) == {}
    ensures RootLookup(entities, markers) == Err(NoEntities)
    ensures AdoptedParents(entities, markers, added, parent) == parent
  {
    var matches := RootQuery(entities, markers);
    assert forall e :: e in matches ==> e in Roots(entities, markers);
    EmptyIffNoMember(matches);
  }

  /** With two or more tracking roots, the lookup reports several matches and
      no parent edge changes. */
  lemma AdoptionWithSeveralRootsChangesNothing(entities: seq<EntityId>, markers: map<EntityId, set<Marker>>,
                                               added: set<EntityId>, parent: map<EntityId, EntityId>,
                                               a: EntityId, b: EntityId)
    requires a != b && a in Roots(entities, markers) && b in Roots(entities, markers)
    ensures RootLookup(entities, markers) == Err(MultipleEntities)
    ensures AdoptedParents(entities, markers, added, parent) == parent
  {
  }

  /** An entity that is not a newly tagged tracker keeps its parent edge, or
      keeps having none. */
  lemma AdoptionKeepsOtherParents(entities: seq<EntityId>, markers: map<EntityId, set<Marker>>,
                                  added: set<EntityId>, parent: map<EntityId, EntityId>, e: EntityId)
    requires !(e in entities && e in added && e in markers && Tracker in markers[e])
    ensures var r := AdoptedParents(entities, markers, added, parent);
            (e in r <==> e in parent) && (e in parent ==> r[e] == parent[e])
  {
  }

  /** When no tracker was added since the last pass, adoption is a no-op. */
  lemma AdoptionOfNothingChangesNothing(entities: seq<EntityId>, markers: map<EntityId, set<Marker>>,
                                        parent: map<EntityId, EntityId>)
    ensures AdoptedParents(entities, markers, {}, parent) == parent
  {
  }

  /** Running adoption again over the same added trackers changes nothing more:
      no tracker is attached twice or ends up under a second parent. */
  lemma AdoptionIsIdempotent(entities: seq<EntityId>, markers: map<EntityId, set<Marker>>,
                             added: set<EntityId>, parent: map<EntityId, EntityId>)
    ensures var once := AdoptedParents(entities, markers, added, parent);
            AdoptedParents(entities, markers, added, once) == once
  {
  }

  // ------------------------------------------------------------ update pass

  /** The left and right controller queries never match the same entity. */
  lemma ControllerQueriesAreDisjoint(entities: seq<EntityId>, markers: map<EntityId, set<Marker>>,
                                     withTransform: set<EntityId>, e: EntityId)
    ensures !(e in ControllerQuery(entities, markers, withTransform, Left)
              && e in ControllerQuery(entities, markers, withTransform, Right))
  {
  }

  /** The two hands' `With`/`Without` filters exclude each other, and a tag
      set carrying both hand markers passes neither. */
  lemma ControllerFiltersExclude(tags: set<Marker>)
    ensures !(ControllerFilter(tags, Left) && ControllerFilter(tags, Right))
    ensures LeftController in tags && RightController in tags
            ==> !ControllerFilter(tags, Left) && !ControllerFilter(tags, Right)
  {
  }

  /** An entity tagged as both the left and the right controller matches
      neither query. */
  lemma DoublyTaggedControllerMatchesNeither(entities: seq<EntityId>, markers: map<EntityId, set<Marker>>,
                                             withTransform: set<EntityId>, e: EntityId)
    requires e in markers && LeftController in markers[e] && RightController in markers[e]
    ensures e !in ControllerQuery(entities, markers, withTransform, Left)
    ensures e !in ControllerQuery(entities, markers, withTransform, Right)
  {
  }

  /** The controller lookup for hand `h` finds `e` exactly when `e` is the only
      entity with a transform that passes the hand's filter. */
  lemma ControllerLookupIffUnique(entities: seq<EntityId>, markers: map<EntityId, set<Marker>>,
                                  ts: map<EntityId, Transform>, h: Hand, e: EntityId)
    requires Distinct(entities)
    ensures ControllerLookup(entities, markers, ts, h) == Ok(e) <==> Controllers(entities, markers, ts, h) == {e}
  {
    var matches := ControllerQuery(entities, markers, ts.Keys, h);
    GetSingleIffUnique(matches, e);
    assert forall x :: x in matches <==> x in Controllers(entities, markers, ts, h);
    if Controllers(entities, markers, ts, h) == {e} {
      assert e in Controllers(entities, markers, ts, h);
    }
  }

  /** A pass completes exactly when each hand's query matches one entity. */
  lemma SyncSucceedsIffUniqueControllers(entities: seq<EntityId>, markers: map<EntityId, set<Marker>>,
                                         ts: map<EntityId, Transform>, handles: XrHandles,
                                         fs: FrameState, grip: GripSource)
    ensures Sync(entities, markers, ts, handles, fs, grip).outcome == Synced
            <==> |ControllerQuery(entities, markers, ts.Keys, Left)| == 1
                 && |ControllerQuery(entities, markers, ts.Keys, Right)| == 1
  {
  }

  /** After a completed pass, hand `h`'s controller has the translation and
      rotation of the grip pose sampled for `h` from the pass's frame state,
      and its old scale; the other hand's write does not touch it. */
  lemma SyncWritesGripPose(entities: seq<EntityId>, markers: map<EntityId, set<Marker>>,
                           ts: map<EntityId, Transform>, handles: XrHandles,
                           fs: FrameState, grip: GripSource, h: Hand, e: EntityId)
    requires Sync(entities, markers, ts, handles, fs, grip).outcome == Synced
    requires ControllerLookup(entities, markers, ts, h) == Ok(e)
    ensures var after := Sync(entities, markers, ts, handles, fs, grip).transforms;
            && e in after
            && after[e].translation == grip(handles, fs, h).position
            && after[e].rotation == grip(handles, fs, h).orientation
            && after[e].scale == ts[e].scale
  {
  }

  /** With exactly one left-only controller `l` and one right-only
      controller `r`, a pass completes, `l` takes the left grip pose and `r`
      the right one, both sampled from the pass's one frame state, and both
      keep their scale. */
  lemma SyncWritesUniqueControllers(entities: seq<EntityId>, markers: map<EntityId, set<Marker>>,
                                    ts: map<EntityId, Transform>, handles: XrHandles,
                                    fs: FrameState, grip: GripSource, l: EntityId, r: EntityId)
    requires Distinct(entities)
    requires Controllers(entities, markers, ts, Left) == {l}
    requires Controllers(entities, markers, ts, Right) == {r}
    ensures var pass := Sync(entities, markers, ts, handles, fs, grip);
            && pass.outcome == Synced
            && l in pass.transforms && r in pass.transforms
            && pass.transforms[l].translation == grip(handles, fs, Left).position
            && pass.transforms[l].rotation == grip(handles, fs, Left).orientation
            && pass.transforms[l].scale == ts[l].scale
            && pass.transforms[r].translation == grip(handles, fs, Right).position
            && pass.transforms[r].rotation == grip(handles, fs, Right).orientation
            && pass.transforms[r].scale == ts[r].scale
  {
    ControllerLookupIffUnique(entities, markers, ts, Left, l);
    ControllerLookupIffUnique(entities, markers, ts, Right, r);
    SyncWritesGripPose(entities, markers, ts, handles, fs, grip, Left, l);
    SyncWritesGripPose(entities, markers, ts, handles, fs, grip, Right, r);
  }

  /** A pass writes no transform other than the two controllers' and removes
      or adds none. */
  lemma SyncWritesOnlyControllers(entities: seq<EntityId>, markers: map<EntityId, set<Marker>>,
                                  ts: map<EntityId, Transform>, handles: XrHandles,
                                  fs: FrameState, grip: GripSource)
    ensures var after := Sync(entities, markers, ts, handles, fs, grip).transforms;
            && after.Keys == ts.Keys
            && forall x :: x in ts && ControllerLookup(entities, markers, ts, Left) != Ok(x)
                           && ControllerLookup(entities, markers, ts, Right) != Ok(x)
                           ==> after[x] == ts[x]
  {
  }

  /** A pass never changes any entity's scale. */
  lemma SyncKeepsScale(entities: seq<EntityId>, markers: map<EntityId, set<Marker>>,
                       ts: map<EntityId, Transform>, handles: XrHandles,
                       fs: FrameState, grip: GripSource, x: EntityId)
    requires x in ts
    ensures var after := Sync(entities, markers, ts, handles, fs, grip).transforms;
            x in after && after[x].scale == ts[x].scale
  {
  }

  /** When the left lookup fails, the pass stops before any write. */
  lemma LeftPanicWritesNothing(entities: seq<EntityId>, markers: map<EntityId, set<Marker>>,
                               ts: map<EntityId, Transform>, handles: XrHandles,
                               fs: FrameState, grip: GripSource, cause: QuerySingleError)
    requires ControllerLookup(entities, markers, ts, Left) == Err(cause)
    ensures Sync(entities, markers, ts, handles, fs, grip) == SyncPass(Panicked(Left, cause), ts)
  {
  }

  /** When only the right lookup fails, the left controller's pose has already
      been written when the pass stops: the hands are not isolated. */
  lemma RightPanicKeepsLeftWrite(entities: seq<EntityId>, markers: map<EntityId, set<Marker>>,
                                 ts: map<EntityId, Transform>, handles: XrHandles,
                                 fs: FrameState, grip: GripSource, l: EntityId, cause: QuerySingleError)
    requires ControllerLookup(entities, markers, ts, Left) == Ok(l)
    requires ControllerLookup(entities, markers, ts, Right) == Err(cause)
    ensures var pass := Sync(entities, markers, ts, handles, fs, grip);
            && pass.outcome == Panicked(Right, cause)
            && pass.transforms.Keys == ts.Keys
            && pass.transforms[l].translation == grip(handles, fs, Left).position
            && pass.transforms[l].rotation == grip(handles, fs, Left).orientation
            && forall x :: x in ts && x != l ==> pass.transforms[x] == ts[x]
  {
  }

  /** A second pass on the same frame state and pose source reaches the same
      outcome and leaves the transforms as the first left them. */
  lemma SyncIsIdempotent(entities: seq<EntityId>, markers: map<EntityId, set<Marker>>,
                         ts: map<EntityId, Transform>, handles: XrHandles,
                         fs: FrameState, grip: GripSource)
    ensures var once := Sync(entities, markers, ts, handles, fs, grip);
            Sync(entities, markers, once.transforms, handles, fs, grip) == once
  {
  }

  // ------------------------------------------------------------- scenarios

  /** The identity transform a spatial bundle starts with. */
  function Identity(): (t: Transform)
  {
    Transform(Vec3(0.0, 0.0, 0.0), Quat(0.0, 0.0, 0.0, 1.0), Vec3(1.0, 1.0, 1.0))
  }

  /** The entities an application spawns: a root (entity 0) and two
      controllers (entities 1 and 2), each with its hand marker, the
      controller marker and the tracker marker. */
  function SpawnedMarkers(): (m: map<EntityId, set<Marker>>)
  {
    map[0 := {TrackingRoot},
        1 := {LeftController, Controller, Tracker},
        2 := {RightController, Controller, Tracker}]
  }

  /** One adoption pass puts both spawned controllers under the root. */
  lemma ScenarioAdoptSpawnedControllers()
    ensures AdoptedParents([0, 1, 2], SpawnedMarkers(), {1, 2}, map[]) == map[1 := 0, 2 := 0]
  {
    assert RootQuery([0, 1, 2], SpawnedMarkers()) == [0];
    assert AddedTrackerQuery([0, 1, 2], SpawnedMarkers(), {1, 2}) == [1, 2];
  }

  /** An update pass over the spawned controllers copies the sampled grip
      poses into their transforms and leaves the root's alone. */
  lemma ScenarioUpdateSpawnedControllers(handles: XrHandles, fs: FrameState, grip: GripSource)
    ensures var ts := map[0 := Identity(), 1 := Identity(), 2 := Identity()];
            var pass := Sync([0, 1, 2], SpawnedMarkers(), ts, handles, fs, grip);
            && pass.outcome == Synced
            && pass.transforms[1] == Transform(grip(handles, fs, Left).position,
                                               grip(handles, fs, Left).orientation, Vec3(1.0, 1.0, 1.0))
            && pass.transforms[2] == Transform(grip(handles, fs, Right).position,
                                               grip(handles, fs, Right).orientation, Vec3(1.0, 1.0, 1.0))
            && pass.transforms[0] == Identity()
  {
    var ts := map[0 := Identity(), 1 := Identity(), 2 := Identity()];
    assert ts.Keys == {0, 1, 2};
    assert ControllerQuery([0, 1, 2], SpawnedMarkers(), ts.Keys, Left) == [1];
    assert ControllerQuery([0, 1, 2], SpawnedMarkers(), ts.Keys, Right) == [2];
  }

  /** Without a root, a spawned tracker stays parentless through three runs
      of adoption on the same scene: each run's root lookup finds nothing, and
      after the first the `Added` filter no longer matches the tracker. */
  method ScenarioNoRoot(fs: FrameState)
    returns (lookups: seq<Result<EntityId, QuerySingleError>>, parent: map<EntityId, EntityId>)
    ensures lookups == [Err(NoEntities), Err(NoEntities), Err(NoEntities)]
    ensures 7 !in parent
  {
    var markers := map[7 := {LeftController, Controller, Tracker}];
    assert RootQuery([7], markers) == [];
    var w := new World([7], markers, map[7 := Identity()], {7}, fs);
    var first := w.AdoptTrackers();
    var second := w.AdoptTrackers();
    var third := w.AdoptTrackers();
    lookups := [first, second, third];
    parent := w.parent;
  }

  /** A tracker tagged while no root exists is never adopted by a root that
      appears later: its one run under the `Added` filter found no root, and
      the run after the root is spawned no longer sees it. */
  method ScenarioRootSpawnedLate(fs: FrameState)
    returns (first: Result<EntityId, QuerySingleError>, second: Result<EntityId, QuerySingleError>,
             parent: map<EntityId, EntityId>)
    ensures first == Err(NoEntities) && second == Ok(0)
    ensures 7 !in parent
  {
    var before := map[7 := {LeftController, Controller, Tracker}];
    var after := before[0 := {TrackingRoot}];
    assert RootQuery([7], before) == [];
    assert RootQuery([7, 0], after) == [0];
    var w := new World([7], before, map[7 := Identity()], {7}, fs);
    first := w.AdoptTrackers();
    // the scene spawns the root
    w.entities := [7, 0];
    w.markers := after;
    w.transforms := w.transforms[0 := Identity()];
    second := w.AdoptTrackers();
    parent := w.parent;
  }
}
