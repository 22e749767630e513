# Crowd-simulation scenario model

A Dafny model of the domain core of the crowd-simulation visualiser: the
topography builder and the simulation step log.

- **Topography** (`topography.dfy`, module `TopographyModel`). A fixed
  `width x height` area holds three ordered lists of rectangular objects:
  sources, targets and obstacles. It also holds the set `objectIds` of every
  registered id. `WithSources`, `WithTargets` and `WithObstacles` feed objects
  in one at a time. Each object gets the geometry check, then the id check
  against the global id set, and is then appended. There is no rollback on
  failure. `ToDict` and `FromDict` convert to and from the dictionary form, in
  which every object carries the type tag `"RECTANGULAR"`. The class is the
  packaged `src/cms_visualizer/topography.py`. The earlier draft
  `src/topography.py` is the same class without the dictionary conversion and
  the type tag, so the same model covers it. The draft's unit tests are
  restated in `scenarios.dfy`.
- **Simulation** (`simulation.dfy`, module `SimulationModel`). A simulation
  holds a topography, a roster of pedestrians, a capacity `nSteps` and the list
  of recorded steps. Each step maps pedestrian ids to positions.
  `AddSimulationStep` refuses a step when the log is full. Otherwise it refuses
  an invalid step. Otherwise it appends the step.

How the model is built:

- The builder's loop is the method `Topography.Add`. The three `With*`
  methods delegate to it with their own list. `Add` is proved against the
  pure function `Admit`, which feeds objects one at a time against a set of
  registered ids. The contract of `Add` gives the whole new state: the chosen
  list grows by exactly what `Admit` accepts, the other two lists stay the
  same, the id set grows by the accepted ids, and success returns the same
  instance. The lemmas about `Admit` spell out what it accepts and rejects.
- The object invariant `Topography.Valid()` says three things. Every stored
  object fits the area. No id appears twice, within a list or across lists.
  `objectIds` is exactly the set of stored ids. Every builder call preserves
  it: `old(Valid()) ==> Valid()`.
- Reconstruction is specified by the pure `Reconstruct`. It runs `ParseDict`,
  the key and type-tag checks in the source's order, then `BuildError`, the
  three chained feeds. `FromDict` and its helpers `ParseObjects` and `Build`
  are proved against it. The round trip is proved in both directions
  (`RoundTrip`, `ReconstructEncodes`).
- `IsValidPosition` and `IsValidSimulationStep` are predicates, as the
  source's comprehensions are. The three step lemmas state what they accept.

Two behaviours of the code worth knowing:

- The `Simulation` constructor stores its initial steps as they are, without
  checking them (src/simulation.py:27). So `|simulationSteps| <= nSteps` holds
  only if the caller established it.
- `is_simulation_complete` compares the number of steps with `==`
  (src/simulation.py:44). A log built over capacity is therefore never
  complete and keeps accepting steps (`Scenarios.OverfullLogScenario`).

The obstacle branch of `from_dict` builds objects through the source class
mapping (src/cms_visualizer/topography.py:237). All three role classes have the
same fields, and the model has a single object type, so all three lists are
decoded by the one `DecodeObjects`. The Python field `label` is named
`labelText`, because `label` is a Dafny keyword. Python integers are
unbounded, and so are Dafny's `int`s.

## Model

| member | source | states |
|---|---|---|
| `TopographyModel.TypeFromName` | src/cms_visualizer/topography.py:8-9 | looking up a type name inverts `TypeName`: a name found among the discriminants has that name, and an unknown name matches none |
| `TopographyModel.IsValidObject` | src/cms_visualizer/topography.py:107-126 | the six comparisons on the corners `(x, y)` and `(x + width, y + height)` (the corner accessors of src/cms_visualizer/topography.py:43-47) amount to: an object is accepted iff `0 <= x`, `0 <= y`, `width > 0`, `height > 0`, `x + width < W` and `y + height < H` |
| `TopographyModel.FlushEdgeRejected` | src/cms_visualizer/topography.py:43-47 | an object whose maximum coordinate equals the area's width or height is rejected |
| `TopographyModel.Admit` | src/cms_visualizer/topography.py:141-148 | feeding a list one object at a time (geometry check, then fresh-id check, then append) can stop only with a geometry error or a duplicate-id error |
| `TopographyModel.AdmitAcceptsPrefix` | src/cms_visualizer/topography.py:141-149 | a feed appends a prefix of its input, in order, and the whole input exactly when no error is raised |
| `TopographyModel.AdmitAcceptedAreValidAndFresh` | src/cms_visualizer/topography.py:141-148 | every appended object fits the area, and its id was neither registered before nor used by an earlier appended object |
| `TopographyModel.AdmitFailureNamesFirstRejected` | src/cms_visualizer/topography.py:141-148 | a failed feed stops at the first rejected object. The geometry check comes first: a misfit raises the geometry error naming the object. Otherwise the object's id was already registered or appended, and the duplicate error names that id |
| `TopographyModel.AdmitNext` | src/cms_visualizer/topography.py:141-148 | one step of a feed: a misfit or a registered id stops it with the matching error, and any other object continues it with the id registered |
| `TopographyModel.AdmitSucceedsIff` | src/cms_visualizer/topography.py:141-148 | a feed succeeds iff every object fits, the input's ids are pairwise distinct, and none of them is registered yet |
| `TopographyModel.RegisteredIdIsDuplicate` | src/cms_visualizer/topography.py:144-148 | id uniqueness is global: an id held by any list makes a later feed of a fitting object with that id fail with the duplicate error for that id, whichever list it is fed into |
| `TopographyModel.GloballyUnique` | src/cms_visualizer/topography.py:87-105 | the per-list invariant holds iff every object of sources, targets and obstacles together fits the area and their ids are pairwise distinct |
| `TopographyModel.ExtendKeepsValid` | src/cms_visualizer/topography.py:144-146 | appending a fitting object with an unused id to any list keeps the invariant and adds exactly that id to the stored ids |
| `TopographyModel.Topography.constructor` | src/topography.py:66-72 | a new topography has the given width and height, empty sources, targets and obstacles, an empty id set, and satisfies the invariant |
| `TopographyModel.Topography.Add` | src/cms_visualizer/topography.py:141-149 | the list of the role grows by exactly the objects `Admit` accepts, with nothing rolled back. The other two lists are unchanged. The id set grows by the accepted ids. The result is the same instance on success and the first error otherwise. The invariant is preserved |
| `TopographyModel.Topography.WithSources` | src/cms_visualizer/topography.py:128-149 | `Add` on the sources: only `sources` and `objectIds` change. Returns the same instance or the first geometry or duplicate error. Preserves the invariant |
| `TopographyModel.Topography.WithTargets` | src/cms_visualizer/topography.py:151-172 | `Add` on the targets: only `targets` and `objectIds` change. Returns the same instance or the first geometry or duplicate error. Preserves the invariant |
| `TopographyModel.Topography.WithObstacles` | src/cms_visualizer/topography.py:174-195 | `Add` on the obstacles: only `obstacles` and `objectIds` change. Returns the same instance or the first geometry or duplicate error. Preserves the invariant |
| `TopographyModel.Topography.ToDict` | src/cms_visualizer/topography.py:247-259 | for a valid topography, its dictionary form reconstructs to exactly its width, height and three lists |
| `TopographyModel.Topography.FromDict` | src/cms_visualizer/topography.py:197-245 | returns `Reconstruct`'s error when there is one. Otherwise returns a fresh, valid topography whose contents are the reconstructed layout |
| `TopographyModel.Topography.Build` | src/cms_visualizer/topography.py:245 | `Topography(width, height)` chained through sources, then targets, then obstacles fails with `BuildError`'s error. Otherwise it yields a fresh valid topography holding exactly those lists |
| `TopographyModel.ObjectToDict` | src/cms_visualizer/topography.py:29-32 | the dictionary form of an object carries a type tag that a lookup maps back to the object's type |
| `TopographyModel.EncodeObjects` | src/cms_visualizer/topography.py:256-258 | encoding a list gives one dictionary per object, and every tag in it is a known type name |
| `TopographyModel.DecodeObjects` | src/cms_visualizer/topography.py:214-240 | decoding a list of object dictionaries fails only with an undefined-type error, and on success gives one object per dictionary |
| `TopographyModel.ObjectFromDict` | src/cms_visualizer/topography.py:215-220 | an object dictionary decodes iff its type tag is known; a decoded object re-encodes to the dictionary; an unknown tag raises the undefined-type error naming the tag |
| `TopographyModel.ObjectRoundTrip` | src/cms_visualizer/topography.py:29-41 | an object's dictionary form (its fields plus `type` = `"RECTANGULAR"`) decodes back to the object |
| `TopographyModel.ParseObjects` | src/cms_visualizer/topography.py:214-220 | the list-building loop returns exactly `DecodeObjects` of its input |
| `TopographyModel.DecodeObjectsInvertsEncode` | src/cms_visualizer/topography.py:215-220 | a decoded list re-encodes to its input. A failed decoding names the tag of the first object whose type is unknown, and every earlier tag is known |
| `TopographyModel.DecodeEncodeObjects` | src/cms_visualizer/topography.py:253-259 | encoding a list of objects and decoding it gives the list back |
| `TopographyModel.EncodeLayout` | src/cms_visualizer/topography.py:253-259 | the dictionary form of any layout, valid or not, has every key and every tag the reconstruction checks for, and those checks give the layout back |
| `TopographyModel.ParseDict` | src/cms_visualizer/topography.py:211-243 | the checks before building fail only with a missing-key error or an undefined-type error |
| `TopographyModel.BuildError` | src/cms_visualizer/topography.py:245 | chaining a new topography through the sources, targets and obstacles fails only with a geometry error or a duplicate-id error |
| `TopographyModel.Reconstruct` | src/cms_visualizer/topography.py:211-245 | reconstruction succeeds iff the key and tag checks pass and the parsed lists satisfy the invariant; once the key and tag checks pass, only geometry and duplicate errors arise |
| `TopographyModel.BuildErrorNoneIff` | src/cms_visualizer/topography.py:245 | building from parsed lists fails iff they break the invariant, so geometry and duplicate errors apply to parsed data exactly as to built data |
| `TopographyModel.RoundTrip` | src/cms_visualizer/topography.py:247-259 | `Reconstruct(EncodeLayout(l)) == Success(l)` for every valid layout: same width, height and objects in every list |
| `TopographyModel.ReconstructEncodes` | src/cms_visualizer/topography.py:211-245 | a dictionary that reconstructs is the dictionary form of its result, and that result is valid |
| `TopographyModel.ReconstructErrorPrecedence` | src/cms_visualizer/topography.py:211-243 | missing `sources` is reported first. Missing `targets` is reported iff sources are present and their tags known. Missing `obstacles` likewise after targets. Missing width or height is reported iff all three lists are present and well tagged. An unknown tag among the sources is the error reported; one among the targets is reported once the sources are present and known; one among the obstacles once sources and targets are. Geometry and duplicate errors arise only after every key and tag check has passed |
| `Scenarios.CreationScenario` | src/topography.py:87-118 | a source with id 1, a target with id 2 and an obstacle with id 3 chained into 200 x 200: the chain returns the topography itself, with one object per list, width and height 200, ids {1, 2, 3} and a valid topography |
| `Scenarios.InvalidObjectScenarios` | src/topography.py:74-85 | in 100 x 100, a source at (105, 105), a target at (-21, -21) and an obstacle of width 0 each raise the geometry error naming the object |
| `Scenarios.DuplicateIdScenarios` | src/topography.py:87-117 | reusing id 1 source then target, target then source, and source then obstacle each raise the duplicate error for id 1 |
| `Scenarios.PartialFailureScenario` | src/topography.py:88-95 | when the second source of a call does not fit, or repeats the first one's id, the first source stays appended with its id registered |
| `SimulationModel.Simulation.constructor` | src/simulation.py:23-27 | topography, roster, capacity and initial steps are stored as given, unchecked |
| `SimulationModel.Simulation.AddSimulationStep` | src/simulation.py:43-52 | a log holding exactly `nSteps` steps (the completeness test) refuses as full, even an invalid step. Otherwise an invalid step is refused. A refusal leaves the log unchanged. A success appends the step at the end and keeps the earlier steps. A log within its capacity stays within it. The topography is untouched, and the roster is a constant |
| `SimulationModel.Simulation.IsValidSimulationStep` | src/simulation.py:29-38 | a step is valid iff every roster id is among its keys and every roster id's position is valid; the roster's order and repeated ids do not matter |
| `SimulationModel.ValidObjectHasValidCorners` | src/simulation.py:40-41 | a position is valid by the same half-open test the geometry check applies to an object's corners: an object fits iff both corners are valid positions and its extent is positive |
| `SimulationModel.ValidityIgnoresOtherKeys` | src/simulation.py:29-38 | a step is valid iff its restriction to the roster's ids is valid: extra, non-roster keys are tolerated |
| `SimulationModel.MissingPedestrianInvalid` | src/simulation.py:35 | a step lacking a roster pedestrian's id is invalid |
| `SimulationModel.OutOfBoundsPedestrianInvalid` | src/simulation.py:36-41 | a step placing a roster pedestrian at a negative coordinate, or at or beyond the width or height, is invalid |
| `Scenarios.CapacityScenario` | src/simulation.py:43-52 | roster {11, 12}, capacity 3: three valid steps are accepted, the log is then complete, and a fourth valid step is refused as full |
| `Scenarios.InvalidStepScenario` | src/simulation.py:29-50 | a step missing pedestrian 12, one with x equal to the width and one with a negative y are refused as invalid. A step with an extra pedestrian id is accepted. Only that step is recorded |
| `Scenarios.OverfullLogScenario` | src/simulation.py:23-52 | a log constructed with more steps than its capacity is never complete and accepts a further valid step |

## Left out

- `src/cms_visualizer/visualization.py` and `src/visualization.py` are not part of this model. They are canvas and widget rendering with floating-point scaling.
- `setup.py` is packaging only.
- Exception messages and `__str__` formatting are left out. Errors are modelled by their kind and payload: the object, the id, the missing key or the unknown tag.
- The Python-level failures of `from_dict` are left out, because they are not part of its contract: a `KeyError` when an object dictionary has no `type`, and a `TypeError` when it has extra or missing fields. An object dictionary always has exactly the five fields and a tag.
- `tests/test_simulation.py` calls a `Topography` constructor that takes the object lists, and no source file defines one, so it is not modelled.
- Objects and steps are values in the model. In Python the topography keeps references to the caller's objects, and the simulation keeps the caller's list of initial steps. Aliasing through those references, such as a caller mutating an object after adding it, is not modelled.
- The arguments of `with_*` are iterables in Python and finite sequences here. A generator that raises, or that is infinite, is not modelled.
- The role subclasses (`RectangularSource`, `RectangularTarget`, `RectangularObstacle`) are not modelled: the model has one object type, so `RoundTrip` and `ReconstructEncodes` are round trips of the objects' fields. In Python the class is observable. `RectangularTopographyObject` is a dataclass, so its generated `__eq__` also compares classes. `from_dict` rebuilds obstacles through the source class mapping (src/cms_visualizer/topography.py:237). So reconstructed obstacles are `RectangularSource` instances, and they compare unequal to the original `RectangularObstacle`s; `type()`, `isinstance` and `str()` show the difference too.
- Concurrent use is not modelled, because the code is single-threaded.
