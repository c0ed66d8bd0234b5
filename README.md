# OpenXR tracker hierarchy and controller pose write

This project models the two systems in bevy_openxr's `src/xr_input/trackers.rs`:

- `adopt_open_xr_trackers` attaches each entity that newly gained the tracker marker to the tracking root.
- `update_open_xr_controllers` runs once per frame. It copies the left and right grip poses from the XR runtime into the transforms of the two controller entities.

The scene is a class `Trackers.World`. Its fields are:

- the entities in query iteration order;
- each entity's marker components;
- the parent edges;
- the `Transform` components;
- the set of entities whose tracker marker was added since adoption last ran;
- the shared frame-state resource.

The two systems are methods of `World` that update the parent map and the transform map in place. Each method's postcondition ties the new state to a specification function of the old state: `AdoptedParents` for adoption and `Sync` for the update pass. The lemmas in `TrackerProperties` state the systems' promises about those functions.

Module layout:

- `ecs.dfy` (module `Ecs`) holds the parts of the entity-component system the systems rely on: query filtering (`Select`), the single-match lookup `get_single` (`GetSingle`) and the `Transform` component.
- `trackers.dfy` (module `Trackers`) holds the marker components, the queries, the specification functions and the `World` class.
- `tracker_properties.dfy` (module `TrackerProperties`) holds the lemmas.

Some of the code's behaviour differs from what a reader might expect of such a system; the model follows the code:

- **Several tracking roots.** One might expect the first root found to win. In the code, `get_single` fails when there are two or more roots, and adoption then does nothing but log.
- **Missing controller.** One might expect a hand whose controller entity is missing, or duplicated, to be skipped. In the code, the `unwrap` on `get_single_mut` panics. The model represents this as the outcome `Panicked(hand, cause)`.
- **Left hand written before a right-hand panic.** The left hand is written before the right lookup runs. So a right-hand panic leaves the left write in place, and the hands are not isolated (`RightPanicKeepsLeftWrite`).
- **Frame readiness.** The code does not check whether the frame state is ready. It samples and writes on every pass.
- **No retry of adoption.** `Added<OpenXRTracker>` matches a tracker only on the first run of the system after the marker was inserted, whether or not that run found a root. A tracker tagged while no root exists is therefore never adopted by a root that appears later (`ScenarioRootSpawnedLate`). `AdoptTrackers` models this by emptying the added set on every run.

## Model

| member | source | states |
|---|---|---|
| `Ecs.Select` | src/xr_input/trackers.rs:33 | iterating a query yields exactly the entities that pass its filter; an iteration order without repeats gives a result without repeats |
| `Ecs.GetSingle` | src/xr_input/trackers.rs:29-30 | the single-match lookup succeeds exactly when one entity matches and then yields it; no match is `NoEntities`, several is `MultipleEntities` |
| `Ecs.GetSingleIffUnique` | src/xr_input/trackers.rs:29 | on a repetition-free order, the lookup yields `e` exactly when `e` is the only match |
| `TrackerProperties.ControllerFiltersExclude` | src/xr_input/trackers.rs:46-52 | no tag set passes both hands' `With`/`Without` filters, and one carrying both hand markers passes neither |
| `TrackerProperties.RootQueryMatchesRoots` | src/xr_input/trackers.rs:27 | the root query matches exactly the live entities carrying the tracking-root marker, each once |
| `TrackerProperties.AddedTrackerQueryMatchesNewTrackers` | src/xr_input/trackers.rs:25 | the added-tracker query matches exactly the live entities that carry the tracker marker and were tagged since the last run |
| `TrackerProperties.ControllerQueryMatchesControllers` | src/xr_input/trackers.rs:44-53 | each hand's controller query matches exactly the live entities with a transform that pass that hand's `With`/`Without` filter, each once |
| `Trackers.Reparent` | src/xr_input/trackers.rs:33-36 | after `add_child(root, c)` for each tracker `c` in order, every tracker's parent is the root, no other edge changes, and the only new keys are the trackers |
| `Trackers.RootLookup` | src/xr_input/trackers.rs:27-29 | a successful root lookup yields a live entity that carries the tracking-root marker |
| `Trackers.AdoptedParents` | src/xr_input/trackers.rs:29-39 | adoption keeps every existing parent edge's key, and when the root lookup fails it leaves the parent map exactly as it was |
| `Trackers.WritePose` | src/xr_input/trackers.rs:67-73 | writing a pose sets the entity's translation to the pose's position and its rotation to the pose's orientation; its scale and every other transform are kept |
| `Trackers.ControllerLookup` | src/xr_input/trackers.rs:44-53 | a successful controller lookup yields an entity that has a transform, carries the hand's marker and does not carry the other hand's |
| `Trackers.Sync` | src/xr_input/trackers.rs:59-86 | an update pass adds or removes no transform, and completes exactly when both hands' lookups succeed |
| `Trackers.World.constructor` | src/xr_input/trackers.rs:24-27 | a scene built from entities, markers, transforms, the added set and the frame state is well formed, holds exactly those and has no parent edges yet |
| `Trackers.World.AdoptTrackers` | src/xr_input/trackers.rs:24-40 | the method returns the root lookup, sets the parent map to the adopted parents of the old one, empties the added-tracker set on both branches, writes no transform and keeps the world well formed |
| `Trackers.World.WriteControllerPose` | src/xr_input/trackers.rs:64-73 | it returns the hand's lookup; on success the controller's transform takes the pose, first by translation and then by rotation through a second lookup; on failure nothing is written |
| `Trackers.World.UpdateControllers` | src/xr_input/trackers.rs:42-86 | the outcome and the new transforms are those of `Sync` on the old transforms, with both hands sampled from the same single copy of the frame state |
| `TrackerProperties.RootLookupIffUniqueRoot` | src/xr_input/trackers.rs:29 | the root lookup yields `root` exactly when `root` is the only entity carrying the tracking-root marker |
| `TrackerProperties.AdoptionParentsEveryNewTracker` | src/xr_input/trackers.rs:29-36 | with exactly one root, every newly tagged tracker has that root as its parent after adoption |
| `TrackerProperties.AdoptionWithoutRootChangesNothing` | src/xr_input/trackers.rs:29-38 | with no root the lookup fails with `NoEntities` and no parent edge changes |
| `TrackerProperties.AdoptionWithSeveralRootsChangesNothing` | src/xr_input/trackers.rs:29-38 | with two or more roots the lookup fails with `MultipleEntities` and no parent edge changes |
| `TrackerProperties.AdoptionKeepsOtherParents` | src/xr_input/trackers.rs:33-35 | an entity that is not a newly tagged tracker keeps its parent edge, or keeps having none |
| `TrackerProperties.AdoptionOfNothingChangesNothing` | src/xr_input/trackers.rs:25-36 | with no newly added trackers, adoption is a no-op |
| `TrackerProperties.AdoptionIsIdempotent` | src/xr_input/trackers.rs:33-36 | adopting the same trackers a second time changes no edge; no tracker gets a second parent |
| `TrackerProperties.ControllerQueriesAreDisjoint` | src/xr_input/trackers.rs:44-53 | no entity matches both the left and the right controller query |
| `TrackerProperties.DoublyTaggedControllerMatchesNeither` | src/xr_input/trackers.rs:44-53 | an entity carrying both hand markers matches neither query |
| `TrackerProperties.ControllerLookupIffUnique` | src/xr_input/trackers.rs:67-80 | a hand's controller lookup finds `e` exactly when `e` is the only entity with a transform that passes that hand's filter |
| `TrackerProperties.SyncSucceedsIffUniqueControllers` | src/xr_input/trackers.rs:67-80 | a pass completes exactly when each hand's query matches one entity; otherwise the unwrap panics |
| `TrackerProperties.SyncWritesGripPose` | src/xr_input/trackers.rs:60-85 | after a completed pass, each hand's controller carries that hand's grip position and orientation from the pass's frame state, with its old scale; the other hand's write does not touch it |
| `TrackerProperties.SyncWritesUniqueControllers` | src/xr_input/trackers.rs:60-85 | with exactly one left-only controller and one right-only controller, the pass completes and each takes its hand's grip position and orientation from the one frame-state copy, keeping its scale |
| `TrackerProperties.SyncWritesOnlyControllers` | src/xr_input/trackers.rs:67-85 | no transform other than the two controllers' changes, and none is added or removed |
| `TrackerProperties.SyncKeepsScale` | src/xr_input/trackers.rs:71-84 | only `translation` and `rotation` are written: no entity's scale changes |
| `TrackerProperties.LeftPanicWritesNothing` | src/xr_input/trackers.rs:67-69 | a failed left lookup panics before any transform is written |
| `TrackerProperties.RightPanicKeepsLeftWrite` | src/xr_input/trackers.rs:67-80 | a failed right lookup panics after the left controller already took the left grip pose; nothing else has changed |
| `TrackerProperties.SyncIsIdempotent` | src/xr_input/trackers.rs:60-85 | a second pass on the same frame state and pose source has the same outcome and leaves the transforms as they were |
| `TrackerProperties.ScenarioAdoptSpawnedControllers` | examples/xr.rs:92-107 | a root and the two controllers the example spawns: one adoption pass parents both controllers to the root |
| `TrackerProperties.ScenarioUpdateSpawnedControllers` | examples/xr.rs:92-107 | the same controllers: one pass completes; each controller's whole transform becomes its hand's grip position and orientation with the spawned unit scale, and the root's transform is left alone |
| `TrackerProperties.ScenarioNoRoot` | src/xr_input/trackers.rs:24-40 | three runs of `AdoptTrackers` on one rootless scene each fail the root lookup with `NoEntities`, and the tracker stays parentless; the later runs see the added set the first run emptied |
| `TrackerProperties.ScenarioRootSpawnedLate` | src/xr_input/trackers.rs:24-40 | on one scene, a run of `AdoptTrackers` before the root is spawned fails with `NoEntities`; after the scene spawns the root the next run finds it, yet the tracker tagged earlier stays parentless |

## Left out

- The pose source is one abstract function `GripSource` of the runtime handles, the frame state and the hand. It stands for `OculusController::get_ref`, `grip_space` and the `Vec3Conv`/`QuatConv` conversions. Those are foreign calls or defined in files that are not part of this model.
- Positions and orientations are carried as values and never computed with. The systems only copy them, so no floating-point behaviour is modelled.
- The `Mutex` around the frame state is modelled only as the pass taking one by-value copy. The `unwrap` on a poisoned lock is concurrency and is not modelled.
- `info!` logging is not modelled. The message `"root isnt spawned yet?"` corresponds to the failed lookup that `AdoptTrackers` returns.
- Bevy's deferred `Commands` are not modelled: `add_child` is applied as written, in loop order, and only sets the child's parent edge. The parent's `Children` list and Bevy's handling of an entity added as its own child are library internals that are not visible here.
- Bevy's change detection is modelled only as the `trackerAdded` set: the scene fills it when a tracker marker is inserted, and `AdoptTrackers` empties it on every run. Change ticks themselves are not modelled.
- The markers `OpenXRLeftEye`, `OpenXRRightEye`, `OpenXRHMD` and `OpenXRController` are declared, but no query in these systems uses them.
- The demo application in `examples/xr.rs` (plugin wiring, meshes, keyboard input, cube grid) is not modelled. Only the marker sets that `spawn_controllers_example` attaches appear, in the scenario lemmas.
