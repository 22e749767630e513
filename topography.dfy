/** The topography builder: a fixed-size area holding rectangular sources, targets
    and obstacles whose ids are unique across all three lists, together with the
    conversion to and from its type-tagged dictionary form. */
module TopographyModel {
  import opened Wrappers

  // ---------------------------------------------------------------------------
  // Topography objects
  // ---------------------------------------------------------------------------

  /** The discriminant of a topography object; rectangles are the only kind. */
  datatype ObjectType = RECTANGULAR

  /** The name under which a discriminant is written in the dictionary form. */
  function TypeName(t: ObjectType): string {
    match t
    case RECTANGULAR => "RECTANGULAR"
  }

  /** Looks a name up among the known discriminants: the inverse of TypeName. */
  function TypeFromName(name: string): (t: Option<ObjectType>)
    ensures t.Some? ==> TypeName(t.value) == name
    ensures t.None? ==> forall k: ObjectType :: TypeName(k) != name
  {
    if name == "RECTANGULAR" then Some(RECTANGULAR) else None
  }

  /** An axis-aligned rectangle with an identity. Sources, targets and obstacles
      all have this shape; which list holds an object decides its role. */
  datatype TopographyObject = Rectangular(id: int, x: int, y: int, width: int, height: int)
  {
    function Type(): ObjectType {
      RECTANGULAR
    }

    function MinCoordinates(): (int, int) {
      (x, y)
    }

    function MaxCoordinates(): (int, int) {
      (x + width, y + height)
    }
  }

  /** The geometry check: both corners lie in the half-open area
      [0, areaWidth) x [0, areaHeight) and the extent is positive. */
  function IsValidObject(areaWidth: int, areaHeight: int, obj: TopographyObject): (valid: bool)
    ensures valid <==>
              && 0 <= obj.x && 0 <= obj.y
              && 0 < obj.width && 0 < obj.height
              && obj.x + obj.width < areaWidth && obj.y + obj.height < areaHeight
  {
    var minimum := obj.MinCoordinates();
    var maximum := obj.MaxCoordinates();
    && 0 <= minimum.0 < areaWidth
    && 0 <= minimum.1 < areaHeight
    && 0 <= maximum.0 < areaWidth
    && 0 <= maximum.1 < areaHeight
    && maximum.0 - minimum.0 > 0
    && maximum.1 - minimum.1 > 0
  }

  /** An object whose far edge touches the border of the area is rejected. */
  lemma FlushEdgeRejected(areaWidth: int, areaHeight: int, obj: TopographyObject)
    requires obj.x + obj.width == areaWidth || obj.y + obj.height == areaHeight
    ensures !IsValidObject(areaWidth, areaHeight, obj)
  {
  }

  // ---------------------------------------------------------------------------
  // Ids and the validity of object lists
  // ---------------------------------------------------------------------------

  /** The ids used by a list of objects. */
  function Ids(objs: seq<TopographyObject>): set<int> {
    set k | 0 <= k < |objs| :: objs[k].id
  }

  /** No two objects of the list share an id. */
  predicate DistinctIds(objs: seq<TopographyObject>) {
    forall i, j :: 0 <= i < j < |objs| ==> objs[i].id != objs[j].id
  }

  /** Every object of the list passes the geometry check. */
  predicate AllValid(areaWidth: int, areaHeight: int, objs: seq<TopographyObject>) {
    forall k :: 0 <= k < |objs| ==> IsValidObject(areaWidth, areaHeight, objs[k])
  }

  lemma IdsConcat(a: seq<TopographyObject>, b: seq<TopographyObject>)
    ensures Ids(a + b) == Ids(a) + Ids(b)
  {
    forall x | x in Ids(a + b) ensures x in Ids(a) + Ids(b) {
      var k :| 0 <= k < |a + b| && (a + b)[k].id == x;
      if k < |a| {
        assert a[k].id == x;
      } else {
        assert b[k - |a|].id == x;
      }
    }
    forall x | x in Ids(a) + Ids(b) ensures x in Ids(a + b) {
      if x in Ids(a) {
        var k :| 0 <= k < |a| && a[k].id == x;
        assert (a + b)[k].id == x;
      } else {
        var k :| 0 <= k < |b| && b[k].id == x;
        assert (a + b)[|a| + k].id == x;
      }
    }
  }

  lemma IdsSingleton(obj: TopographyObject)
    ensures Ids([obj]) == {obj.id}
  {
    assert [obj][0].id == obj.id;
  }

  lemma DistinctConcat(a: seq<TopographyObject>, b: seq<TopographyObject>)
    ensures DistinctIds(a + b) <==> DistinctIds(a) && DistinctIds(b) && Ids(a) !! Ids(b)
  {
    if DistinctIds(a + b) {
      forall i, j | 0 <= i < j < |a| ensures a[i].id != a[j].id {
        assert (a + b)[i] == a[i] && (a + b)[j] == a[j];
      }
      forall i, j | 0 <= i < j < |b| ensures b[i].id != b[j].id {
        assert (a + b)[|a| + i] == b[i] && (a + b)[|a| + j] == b[j];
      }
      forall x | x in Ids(a) ensures x !in Ids(b) {
        var i :| 0 <= i < |a| && a[i].id == x;
        forall j | 0 <= j < |b| ensures b[j].id != x {
          assert (a + b)[i] == a[i] && (a + b)[|a| + j] == b[j];
        }
      }
    }
    if DistinctIds(a) && DistinctIds(b) && Ids(a) !! Ids(b) {
      forall i, j | 0 <= i < j < |a + b| ensures (a + b)[i].id != (a + b)[j].id {
        if j < |a| {
          assert (a + b)[i] == a[i] && (a + b)[j] == a[j];
        } else if |a| <= i {
          assert (a + b)[i] == b[i - |a|] && (a + b)[j] == b[j - |a|];
        } else {
          assert (a + b)[i] == a[i] && (a + b)[j] == b[j - |a|];
          assert a[i].id in Ids(a) && b[j - |a|].id in Ids(b);
        }
      }
    }
  }

  lemma DistinctSingleton(obj: TopographyObject)
    ensures DistinctIds([obj])
  {
  }

  lemma AllValidConcat(areaWidth: int, areaHeight: int, a: seq<TopographyObject>, b: seq<TopographyObject>)
    ensures AllValid(areaWidth, areaHeight, a + b) <==> AllValid(areaWidth, areaHeight, a) && AllValid(areaWidth, areaHeight, b)
  {
    if AllValid(areaWidth, areaHeight, a + b) {
      forall k | 0 <= k < |a| ensures IsValidObject(areaWidth, areaHeight, a[k]) {
        assert (a + b)[k] == a[k];
      }
      forall k | 0 <= k < |b| ensures IsValidObject(areaWidth, areaHeight, b[k]) {
        assert (a + b)[|a| + k] == b[k];
      }
    }
    if AllValid(areaWidth, areaHeight, a) && AllValid(areaWidth, areaHeight, b) {
      forall k | 0 <= k < |a + b| ensures IsValidObject(areaWidth, areaHeight, (a + b)[k]) {
        if k < |a| {
          assert (a + b)[k] == a[k];
        } else {
          assert (a + b)[k] == b[k - |a|];
        }
      }
    }
  }

  // ---------------------------------------------------------------------------
  // The value of a topography
  // ---------------------------------------------------------------------------

  /** The three lists of a topography. */
  datatype Role = Sources | Targets | Obstacles

  /** What a topography holds: its area and its three ordered lists. */
  datatype Layout = Layout(width: int, height: int,
                           sources: seq<TopographyObject>,
                           targets: seq<TopographyObject>,
                           obstacles: seq<TopographyObject>)
  {
    function Objects(role: Role): seq<TopographyObject> {
      match role
      case Sources => sources
      case Targets => targets
      case Obstacles => obstacles
    }

    function AllObjects(): seq<TopographyObject> {
      sources + targets + obstacles
    }

    function AllIds(): set<int> {
      Ids(sources) + Ids(targets) + Ids(obstacles)
    }

    /** The layout with one more object at the end of the list of the given role. */
    function Extend(role: Role, obj: TopographyObject): Layout {
      match role
      case Sources => this.(sources := sources + [obj])
      case Targets => this.(targets := targets + [obj])
      case Obstacles => this.(obstacles := obstacles + [obj])
    }
  }

  /** The invariant of a topography, list by list: every object fits the area,
      and no id occurs twice within a list or in two lists. */
  predicate ValidLayout(l: Layout) {
    && AllValid(l.width, l.height, l.sources) && DistinctIds(l.sources)
    && AllValid(l.width, l.height, l.targets) && DistinctIds(l.targets)
    && Ids(l.sources) !! Ids(l.targets)
    && AllValid(l.width, l.height, l.obstacles) && DistinctIds(l.obstacles)
    && (Ids(l.sources) + Ids(l.targets)) !! Ids(l.obstacles)
  }

  /** The invariant says exactly that every object fits the area and that the ids
      are pairwise distinct across sources, targets and obstacles together. */
  lemma GloballyUnique(l: Layout)
    ensures ValidLayout(l) <==>
              AllValid(l.width, l.height, l.AllObjects()) && DistinctIds(l.AllObjects())
  {
    DistinctConcat(l.sources, l.targets);
    DistinctConcat(l.sources + l.targets, l.obstacles);
    IdsConcat(l.sources, l.targets);
    AllValidConcat(l.width, l.height, l.sources, l.targets);
    AllValidConcat(l.width, l.height, l.sources + l.targets, l.obstacles);
  }

  /** Appending a valid object with an unused id keeps the invariant. */
  lemma ExtendKeepsValid(l: Layout, role: Role, obj: TopographyObject)
    requires ValidLayout(l)
    requires IsValidObject(l.width, l.height, obj) && obj.id !in l.AllIds()
    ensures ValidLayout(l.Extend(role, obj))
    ensures l.Extend(role, obj).AllIds() == l.AllIds() + {obj.id}
  {
    var s := l.Objects(role);
    IdsConcat(s, [obj]);
    IdsSingleton(obj);
    DistinctConcat(s, [obj]);
    DistinctSingleton(obj);
    AllValidConcat(l.width, l.height, s, [obj]);
  }

  // ---------------------------------------------------------------------------
  // Errors
  // ---------------------------------------------------------------------------

  /** The top-level keys whose absence stops a reconstruction; width and height
      are checked together. */
  datatype RequiredKey = SourcesKey | TargetsKey | ObstaclesKey | WidthAndHeightKeys

  datatype TopographyError =
    | InvalidTopographyObject(obj: TopographyObject)
    | DuplicateTopographyObjectId(id: int)
    | TopographyReconstruction(missing: RequiredKey)
    | UndefinedTopographyObjectType(typeName: string)

  // ---------------------------------------------------------------------------
  // Adding objects one at a time
  // ---------------------------------------------------------------------------

  /** What feeding a list of objects into a topography does: the objects that were
      appended, in order, and the error that stopped the feed, if any. */
  datatype Admission = Admission(accepted: seq<TopographyObject>, failure: Option<TopographyError>)

  /** Feeding objs, one at a time, into an area whose registered ids are ids: each
      object is checked for geometry, then for a fresh id, then appended. */
  function Admit(areaWidth: int, areaHeight: int, ids: set<int>, objs: seq<TopographyObject>): (a: Admission)
    ensures a.failure.Some? ==>
              a.failure.value.InvalidTopographyObject? || a.failure.value.DuplicateTopographyObjectId?
    decreases |objs|
  {
    if objs == [] then
      Admission([], None)
    else if !IsValidObject(areaWidth, areaHeight, objs[0]) then
      Admission([], Some(InvalidTopographyObject(objs[0])))
    else if objs[0].id in ids then
      Admission([], Some(DuplicateTopographyObjectId(objs[0].id)))
    else
      var rest := Admit(areaWidth, areaHeight, ids + {objs[0].id}, objs[1..]);
      Admission([objs[0]] + rest.accepted, rest.failure)
  }

  /** The appended objects are a prefix of the input; all of it exactly when
      nothing failed. */
  lemma {:induction false} AdmitAcceptsPrefix(areaWidth: int, areaHeight: int, ids: set<int>, objs: seq<TopographyObject>)
    ensures var a := Admit(areaWidth, areaHeight, ids, objs);
            && |a.accepted| <= |objs|
            && a.accepted == objs[..|a.accepted|]
            && (a.failure.None? <==> |a.accepted| == |objs|)
    decreases |objs|
  {
    if objs != [] && IsValidObject(areaWidth, areaHeight, objs[0]) && objs[0].id !in ids {
      var rest := Admit(areaWidth, areaHeight, ids + {objs[0].id}, objs[1..]);
      AdmitAcceptsPrefix(areaWidth, areaHeight, ids + {objs[0].id}, objs[1..]);
      assert [objs[0]] + objs[1..][..|rest.accepted|] == objs[..|rest.accepted| + 1];
    }
  }

  /** Every appended object fits the area and carries an id that was neither
      registered before nor used by an earlier appended object. */
  lemma {:induction false} AdmitAcceptedAreValidAndFresh(areaWidth: int, areaHeight: int, ids: set<int>, objs: seq<TopographyObject>)
    ensures var a := Admit(areaWidth, areaHeight, ids, objs);
            && AllValid(areaWidth, areaHeight, a.accepted)
            && DistinctIds(a.accepted)
            && Ids(a.accepted) !! ids
    decreases |objs|
  {
    if objs != [] && IsValidObject(areaWidth, areaHeight, objs[0]) && objs[0].id !in ids {
      var obj := objs[0];
      var rest := Admit(areaWidth, areaHeight, ids + {obj.id}, objs[1..]);
      AdmitAcceptedAreValidAndFresh(areaWidth, areaHeight, ids + {obj.id}, objs[1..]);
      IdsConcat([obj], rest.accepted);
      IdsSingleton(obj);
      DistinctConcat([obj], rest.accepted);
      DistinctSingleton(obj);
      AllValidConcat(areaWidth, areaHeight, [obj], rest.accepted);
    }
  }

  /** A failed feed stops at the first rejected object: the geometry error names
      it when it does not fit; otherwise its id was already in use and the
      duplicate error names that id. */
  lemma {:induction false} AdmitFailureNamesFirstRejected(areaWidth: int, areaHeight: int, ids: set<int>, objs: seq<TopographyObject>)
    requires Admit(areaWidth, areaHeight, ids, objs).failure.Some?
    ensures var a := Admit(areaWidth, areaHeight, ids, objs);
            var n := |a.accepted|;
            && n < |objs|
            && if IsValidObject(areaWidth, areaHeight, objs[n]) then
                 && objs[n].id in ids + Ids(a.accepted)
                 && a.failure == Some(DuplicateTopographyObjectId(objs[n].id))
               else
                 a.failure == Some(InvalidTopographyObject(objs[n]))
    decreases |objs|
  {
    if IsValidObject(areaWidth, areaHeight, objs[0]) && objs[0].id !in ids {
      var obj := objs[0];
      var rest := Admit(areaWidth, areaHeight, ids + {obj.id}, objs[1..]);
      AdmitFailureNamesFirstRejected(areaWidth, areaHeight, ids + {obj.id}, objs[1..]);
      IdsConcat([obj], rest.accepted);
      IdsSingleton(obj);
      assert objs[1..][|rest.accepted|] == objs[|rest.accepted| + 1];
    }
  }

  /** One step of a feed that is known to continue as admitted from position i on. */
  lemma AdmitNext(areaWidth: int, areaHeight: int, ids: set<int>, objs: seq<TopographyObject>, i: nat, admitted: Admission)
    requires i < |objs| && i <= |admitted.accepted|
    requires Admit(areaWidth, areaHeight, ids, objs[i..]) == Admission(admitted.accepted[i..], admitted.failure)
    ensures !IsValidObject(areaWidth, areaHeight, objs[i]) ==>
              |admitted.accepted| == i && admitted.failure == Some(InvalidTopographyObject(objs[i]))
    ensures IsValidObject(areaWidth, areaHeight, objs[i]) && objs[i].id in ids ==>
              |admitted.accepted| == i && admitted.failure == Some(DuplicateTopographyObjectId(objs[i].id))
    ensures IsValidObject(areaWidth, areaHeight, objs[i]) && objs[i].id !in ids ==>
              && i < |admitted.accepted|
              && Admit(areaWidth, areaHeight, ids + {objs[i].id}, objs[i + 1..]) == Admission(admitted.accepted[i + 1..], admitted.failure)
  {
    assert objs[i..][0] == objs[i] && objs[i..][1..] == objs[i + 1..];
    if IsValidObject(areaWidth, areaHeight, objs[i]) && objs[i].id !in ids {
      assert admitted.accepted[i..] == [objs[i]] + Admit(areaWidth, areaHeight, ids + {objs[i].id}, objs[i + 1..]).accepted;
      assert admitted.accepted[i..][1..] == admitted.accepted[i + 1..];
    }
  }

  /** A feed succeeds exactly when every object fits, the ids of the input are
      pairwise distinct and none of them is registered yet. */
  lemma AdmitSucceedsIff(areaWidth: int, areaHeight: int, ids: set<int>, objs: seq<TopographyObject>)
    ensures Admit(areaWidth, areaHeight, ids, objs).failure.None? <==>
              AllValid(areaWidth, areaHeight, objs) && DistinctIds(objs) && Ids(objs) !! ids
  {
    var a := Admit(areaWidth, areaHeight, ids, objs);
    AdmitAcceptsPrefix(areaWidth, areaHeight, ids, objs);
    AdmitAcceptedAreValidAndFresh(areaWidth, areaHeight, ids, objs);
    if a.failure.Some? {
      AdmitFailureNamesFirstRejected(areaWidth, areaHeight, ids, objs);
      var n := |a.accepted|;
      if IsValidObject(areaWidth, areaHeight, objs[n]) {
        if objs[n].id in ids {
          assert objs[n].id in Ids(objs);
        } else {
          var k :| 0 <= k < n && a.accepted[k].id == objs[n].id;
          assert objs[k].id == objs[n].id;
        }
      }
    }
  }

  /** Id uniqueness is global: once any list of a layout holds an object with a
      given id, feeding a fitting object with that id fails with the duplicate
      error naming the id, whichever list it is fed into (the feed does not
      depend on the list). */
  lemma RegisteredIdIsDuplicate(l: Layout, holder: Role, k: nat, obj: TopographyObject, rest: seq<TopographyObject>)
    requires k < |l.Objects(holder)| && l.Objects(holder)[k].id == obj.id
    requires IsValidObject(l.width, l.height, obj)
    ensures Admit(l.width, l.height, l.AllIds(), [obj] + rest) == Admission([], Some(DuplicateTopographyObjectId(obj.id)))
  {
    assert obj.id in Ids(l.Objects(holder));
  }

  // ---------------------------------------------------------------------------
  // The topography
  // ---------------------------------------------------------------------------

  class Topography {
    const width: int
    const height: int
    var sources: seq<TopographyObject>
    var targets: seq<TopographyObject>
    var obstacles: seq<TopographyObject>
    var objectIds: set<int>

    function Contents(): Layout
      reads this
    {
      Layout(width, height, sources, targets, obstacles)
    }

    function Objects(role: Role): seq<TopographyObject>
      reads this
    {
      Contents().Objects(role)
    }

    /** Every stored object fits the area, ids are unique across the three lists,
        and the registered ids are exactly the ids of the stored objects. */
    ghost predicate Valid()
      reads this
    {
      ValidLayout(Contents()) && objectIds == Contents().AllIds()
    }

    /** A topography of the given area with nothing in it. */
    constructor (width: int, height: int)
      ensures this.width == width && this.height == height
      ensures sources == [] && targets == [] && obstacles == [] && objectIds == {}
      ensures Valid()
    {
      this.width := width;
      this.height := height;
      sources := [];
      targets := [];
      obstacles := [];
      objectIds := {};
    }

    /** Feeds objs into the list of the given role, one at a time: an object that
        does not fit stops the feed with a geometry error, one whose id is already
        registered stops it with a duplicate error, any other object is appended
        and its id registered. What was appended before a failure stays. On
        success the topography itself is returned, for chaining. */
    method Add(role: Role, objs: seq<TopographyObject>) returns (r: Result<Topography, TopographyError>)
      modifies this
      ensures var admitted := Admit(width, height, old(objectIds), objs);
              && Objects(role) == old(Objects(role)) + admitted.accepted
              && objectIds == old(objectIds) + Ids(admitted.accepted)
              && r == (if admitted.failure.None? then Success(this) else Failure(admitted.failure.value))
      ensures forall other :: other != role ==> Objects(other) == old(Objects(other))
      ensures old(Valid()) ==> Valid()
    {
      ghost var admitted := Admit(width, height, objectIds, objs);
      AdmitAcceptsPrefix(width, height, objectIds, objs);
      var i := 0;
      while i < |objs|
        invariant i <= |admitted.accepted| <= |objs|
        invariant admitted.accepted == objs[..|admitted.accepted|]
        invariant Admit(width, height, objectIds, objs[i..]) == Admission(admitted.accepted[i..], admitted.failure)
        invariant Objects(role) == old(Objects(role)) + objs[..i]
        invariant forall other :: other != role ==> Objects(other) == old(Objects(other))
        invariant objectIds == old(objectIds) + Ids(objs[..i])
        invariant old(Valid()) ==> Valid()
      {
        var obj := objs[i];
        AdmitNext(width, height, objectIds, objs, i, admitted);
        if !IsValidObject(width, height, obj) {
          assert admitted.accepted == objs[..i];
          return Failure(InvalidTopographyObject(obj));
        }
        if obj.id in objectIds {
          assert admitted.accepted == objs[..i];
          return Failure(DuplicateTopographyObjectId(obj.id));
        }
        ghost var before := Contents();
        match role {
          case Sources => sources := sources + [obj];
          case Targets => targets := targets + [obj];
          case Obstacles => obstacles := obstacles + [obj];
        }
        objectIds := objectIds + {obj.id};
        assert Contents() == before.Extend(role, obj);
        if old(Valid()) {
          ExtendKeepsValid(before, role, obj);
        }
        assert objs[..i + 1] == objs[..i] + [obj];
        IdsConcat(objs[..i], [obj]);
        IdsSingleton(obj);
        i := i + 1;
      }
      assert admitted.accepted == objs;
      return Success(this);
    }

    /** Adds sources, as Add does; targets and obstacles are untouched. */
    method WithSources(newSources: seq<TopographyObject>) returns (r: Result<Topography, TopographyError>)
      modifies this
      ensures var admitted := Admit(width, height, old(objectIds), newSources);
              && sources == old(sources) + admitted.accepted
              && targets == old(targets) && obstacles == old(obstacles)
              && objectIds == old(objectIds) + Ids(admitted.accepted)
              && r == (if admitted.failure.None? then Success(this) else Failure(admitted.failure.value))
      ensures old(Valid()) ==> Valid()
    {
      r := Add(Sources, newSources);
      assert Objects(Targets) == old(Objects(Targets)) && Objects(Obstacles) == old(Objects(Obstacles));
    }

    /** Adds targets, as Add does; sources and obstacles are untouched. */
    method WithTargets(newTargets: seq<TopographyObject>) returns (r: Result<Topography, TopographyError>)
      modifies this
      ensures var admitted := Admit(width, height, old(objectIds), newTargets);
              && targets == old(targets) + admitted.accepted
              && sources == old(sources) && obstacles == old(obstacles)
              && objectIds == old(objectIds) + Ids(admitted.accepted)
              && r == (if admitted.failure.None? then Success(this) else Failure(admitted.failure.value))
      ensures old(Valid()) ==> Valid()
    {
      r := Add(Targets, newTargets);
      assert Objects(Sources) == old(Objects(Sources)) && Objects(Obstacles) == old(Objects(Obstacles));
    }

    /** Adds obstacles, as Add does; sources and targets are untouched. */
    method WithObstacles(newObstacles: seq<TopographyObject>) returns (r: Result<Topography, TopographyError>)
      modifies this
      ensures var admitted := Admit(width, height, old(objectIds), newObstacles);
              && obstacles == old(obstacles) + admitted.accepted
              && sources == old(sources) && targets == old(targets)
              && objectIds == old(objectIds) + Ids(admitted.accepted)
              && r == (if admitted.failure.None? then Success(this) else Failure(admitted.failure.value))
      ensures old(Valid()) ==> Valid()
    {
      r := Add(Obstacles, newObstacles);
      assert Objects(Sources) == old(Objects(Sources)) && Objects(Targets) == old(Objects(Targets));
    }

    /** The dictionary form of the topography; for a valid topography it
        reconstructs to exactly the topography's contents. */
    function ToDict(): (d: TopographyDict)
      reads this
      ensures Valid() ==> Reconstruct(d) == Success(Contents())
    {
      RoundTrip(Contents());
      EncodeLayout(Contents())
    }

    /** Rebuilds a topography from its dictionary form: the key and type checks
        of ParseDict, in that order, and then a fresh topography of the given
        area fed the sources, then the targets, then the obstacles. */
    static method FromDict(d: TopographyDict) returns (r: Result<Topography, TopographyError>)
      ensures match Reconstruct(d)
              case Failure(e) => r == Failure(e)
              case Success(l) => r.Success? && fresh(r.value) && r.value.Valid() && r.value.Contents() == l
    {
      if d.sources.None? {
        return Failure(TopographyReconstruction(SourcesKey));
      }
      var sources := ParseObjects(d.sources.value);
      if sources.Failure? {
        return Failure(sources.error);
      }
      if d.targets.None? {
        return Failure(TopographyReconstruction(TargetsKey));
      }
      var targets := ParseObjects(d.targets.value);
      if targets.Failure? {
        return Failure(targets.error);
      }
      if d.obstacles.None? {
        return Failure(TopographyReconstruction(ObstaclesKey));
      }
      var obstacles := ParseObjects(d.obstacles.value);
      if obstacles.Failure? {
        return Failure(obstacles.error);
      }
      if d.width.None? || d.height.None? {
        return Failure(TopographyReconstruction(WidthAndHeightKeys));
      }
      var l := Layout(d.width.value, d.height.value, sources.value, targets.value, obstacles.value);
      assert ParseDict(d) == Success(l);
      r := Build(l);
    }

    /** A fresh topography of l's area fed the sources, then the targets, then
        the obstacles of l, each call chained on the result of the previous one. */
    static method Build(l: Layout) returns (r: Result<Topography, TopographyError>)
      ensures match BuildError(l)
              case Some(e) => r == Failure(e)
              case None => r.Success? && fresh(r.value) && r.value.Valid() && r.value.Contents() == l
    {
      ghost var fromSources := Admit(l.width, l.height, {}, l.sources);
      ghost var fromTargets := Admit(l.width, l.height, Ids(l.sources), l.targets);
      ghost var fromObstacles := Admit(l.width, l.height, Ids(l.sources) + Ids(l.targets), l.obstacles);
      AdmitAcceptsPrefix(l.width, l.height, {}, l.sources);
      AdmitAcceptsPrefix(l.width, l.height, Ids(l.sources), l.targets);
      AdmitAcceptsPrefix(l.width, l.height, Ids(l.sources) + Ids(l.targets), l.obstacles);
      var t := new Topography(l.width, l.height);
      var r1 := t.WithSources(l.sources);
      if r1.Failure? {
        assert BuildError(l) == fromSources.failure;
        return Failure(r1.error);
      }
      assert t.sources == l.sources && r1.value == t && t.objectIds == Ids(l.sources);
      var r2 := r1.value.WithTargets(l.targets);
      if r2.Failure? {
        assert BuildError(l) == fromTargets.failure;
        return Failure(r2.error);
      }
      assert t.targets == l.targets && r2.value == t && t.objectIds == Ids(l.sources) + Ids(l.targets);
      var r3 := r2.value.WithObstacles(l.obstacles);
      if r3.Failure? {
        assert BuildError(l) == fromObstacles.failure;
        return Failure(r3.error);
      }
      assert t.obstacles == l.obstacles && BuildError(l).None?;
      return r3;
    }
  }

  // ---------------------------------------------------------------------------
  // The dictionary form
  // ---------------------------------------------------------------------------

  /** The dictionary form of one object: its fields and its type tag. */
  datatype ObjectDict = ObjectDict(id: int, x: int, y: int, width: int, height: int, typeName: string)

  /** The dictionary form of a topography; None marks a key that is absent. */
  datatype TopographyDict = TopographyDict(width: Option<int>, height: Option<int>,
                                           sources: Option<seq<ObjectDict>>,
                                           targets: Option<seq<ObjectDict>>,
                                           obstacles: Option<seq<ObjectDict>>)

  /** The dictionary form of an object carries a tag that names its type. */
  function ObjectToDict(obj: TopographyObject): (d: ObjectDict)
    ensures TypeFromName(d.typeName) == Some(obj.Type())
  {
    ObjectDict(obj.id, obj.x, obj.y, obj.width, obj.height, TypeName(obj.Type()))
  }

  /** Builds an object from its dictionary form; an unknown type tag is an error
      naming the tag. */
  function ObjectFromDict(d: ObjectDict): (r: Result<TopographyObject, TopographyError>)
    ensures r.Success? <==> TypeFromName(d.typeName).Some?
    ensures r.Success? ==> ObjectToDict(r.value) == d
    ensures r.Failure? ==> r.error == UndefinedTopographyObjectType(d.typeName)
  {
    match TypeFromName(d.typeName)
    case None => Failure(UndefinedTopographyObjectType(d.typeName))
    case Some(RECTANGULAR) => Success(Rectangular(d.id, d.x, d.y, d.width, d.height))
  }

  lemma ObjectRoundTrip(obj: TopographyObject)
    ensures ObjectFromDict(ObjectToDict(obj)) == Success(obj)
  {
  }

  /** One dictionary per object, in order, each with a known type tag. */
  function EncodeObjects(objs: seq<TopographyObject>): (ds: seq<ObjectDict>)
    ensures |ds| == |objs|
    ensures forall k :: 0 <= k < |ds| ==> TypeFromName(ds[k].typeName).Some?
  {
    seq(|objs|, k requires 0 <= k < |objs| => ObjectToDict(objs[k]))
  }

  /** Builds a list of objects from their dictionary forms, stopping at the first
      unknown type tag. */
  function DecodeObjects(ds: seq<ObjectDict>): (r: Result<seq<TopographyObject>, TopographyError>)
    ensures r.Failure? ==> r.error.UndefinedTopographyObjectType?
    ensures r.Success? ==> |r.value| == |ds|
    decreases |ds|
  {
    if ds == [] then
      Success([])
    else
      match ObjectFromDict(ds[0])
      case Failure(e) => Failure(e)
      case Success(obj) =>
        match DecodeObjects(ds[1..])
        case Failure(e) => Failure(e)
        case Success(rest) => Success([obj] + rest)
  }

  /** Puts prefix in front of a successful decoding. */
  function Prepend(prefix: seq<TopographyObject>, r: Result<seq<TopographyObject>, TopographyError>): Result<seq<TopographyObject>, TopographyError> {
    match r
    case Failure(e) => Failure(e)
    case Success(rest) => Success(prefix + rest)
  }

  /** The loop that turns one list of object dictionaries into objects. */
  method ParseObjects(ds: seq<ObjectDict>) returns (r: Result<seq<TopographyObject>, TopographyError>)
    ensures r == DecodeObjects(ds)
  {
    var objs := [];
    var i := 0;
    assert ds[i..] == ds;
    match DecodeObjects(ds) {
      case Success(all) => assert [] + all == all;
      case Failure(_) =>
    }
    while i < |ds|
      invariant 0 <= i <= |ds|
      invariant DecodeObjects(ds) == Prepend(objs, DecodeObjects(ds[i..]))
    {
      assert ds[i..][0] == ds[i] && ds[i..][1..] == ds[i + 1..];
      var decoded := ObjectFromDict(ds[i]);
      if decoded.Failure? {
        return Failure(decoded.error);
      }
      match DecodeObjects(ds[i + 1..]) {
        case Success(rest) => assert objs + ([decoded.value] + rest) == (objs + [decoded.value]) + rest;
        case Failure(_) =>
      }
      objs := objs + [decoded.value];
      i := i + 1;
    }
    assert ds[i..] == [] && objs + [] == objs;
    return Success(objs);
  }

  /** A decoded list re-encodes to its input; a failed decoding names the tag of
      the first object whose type is unknown. */
  lemma {:induction false} DecodeObjectsInvertsEncode(ds: seq<ObjectDict>)
    ensures match DecodeObjects(ds)
            case Success(objs) => EncodeObjects(objs) == ds
            case Failure(e) =>
              exists k :: 0 <= k < |ds| && TypeFromName(ds[k].typeName).None?
                          && (forall j :: 0 <= j < k ==> TypeFromName(ds[j].typeName).Some?)
                          && e == UndefinedTopographyObjectType(ds[k].typeName)
    decreases |ds|
  {
    if ds != [] && ObjectFromDict(ds[0]).Success? {
      DecodeObjectsInvertsEncode(ds[1..]);
      match DecodeObjects(ds[1..]) {
        case Success(rest) =>
          var obj := ObjectFromDict(ds[0]).value;
          assert EncodeObjects([obj] + rest) == [ObjectToDict(obj)] + EncodeObjects(rest);
        case Failure(e) =>
          var k :| 0 <= k < |ds[1..]| && TypeFromName(ds[1..][k].typeName).None?
                   && (forall j :: 0 <= j < k ==> TypeFromName(ds[1..][j].typeName).Some?)
                   && e == UndefinedTopographyObjectType(ds[1..][k].typeName);
          assert ds[k + 1] == ds[1..][k];
          forall j | 0 <= j < k + 1 ensures TypeFromName(ds[j].typeName).Some? {
            if 0 < j {
              assert ds[j] == ds[1..][j - 1];
            }
          }
      }
    } else if ds != [] {
      assert TypeFromName(ds[0].typeName).None?;
    }
  }

  /** Encoding a list of objects and decoding it gives the list back. */
  lemma {:induction false} DecodeEncodeObjects(objs: seq<TopographyObject>)
    ensures DecodeObjects(EncodeObjects(objs)) == Success(objs)
    decreases |objs|
  {
    if objs != [] {
      assert EncodeObjects(objs)[0] == ObjectToDict(objs[0]);
      assert EncodeObjects(objs)[1..] == EncodeObjects(objs[1..]);
      DecodeEncodeObjects(objs[1..]);
      assert [objs[0]] + objs[1..] == objs;
    }
  }

  /** The dictionary form of a layout: every key present, every object tagged.
      Its keys and tags pass every check a reconstruction makes before building. */
  function EncodeLayout(l: Layout): (d: TopographyDict)
    ensures ParseDict(d) == Success(l)
  {
    DecodeEncodeObjects(l.sources);
    DecodeEncodeObjects(l.targets);
    DecodeEncodeObjects(l.obstacles);
    TopographyDict(Some(l.width), Some(l.height),
                   Some(EncodeObjects(l.sources)),
                   Some(EncodeObjects(l.targets)),
                   Some(EncodeObjects(l.obstacles)))
  }

  /** The checks of a reconstruction that precede building, in their order:
      sources present, its tags known; the same for targets, then for
      obstacles; then width and height present. */
  function ParseDict(d: TopographyDict): (r: Result<Layout, TopographyError>)
    ensures r.Failure? ==> r.error.TopographyReconstruction? || r.error.UndefinedTopographyObjectType?
  {
    if d.sources.None? then Failure(TopographyReconstruction(SourcesKey))
    else match DecodeObjects(d.sources.value)
    case Failure(e) => Failure(e)
    case Success(sources) =>
      if d.targets.None? then Failure(TopographyReconstruction(TargetsKey))
      else match DecodeObjects(d.targets.value)
      case Failure(e) => Failure(e)
      case Success(targets) =>
        if d.obstacles.None? then Failure(TopographyReconstruction(ObstaclesKey))
        else match DecodeObjects(d.obstacles.value)
        case Failure(e) => Failure(e)
        case Success(obstacles) =>
          if d.width.None? || d.height.None? then Failure(TopographyReconstruction(WidthAndHeightKeys))
          else Success(Layout(d.width.value, d.height.value, sources, targets, obstacles))
  }

  /** The first error of feeding the sources, then the targets, then the
      obstacles of l into an empty topography of l's area. */
  function BuildError(l: Layout): (e: Option<TopographyError>)
    ensures e.Some? ==> e.value.InvalidTopographyObject? || e.value.DuplicateTopographyObjectId?
  {
    var fromSources := Admit(l.width, l.height, {}, l.sources);
    if fromSources.failure.Some? then fromSources.failure
    else
      var fromTargets := Admit(l.width, l.height, Ids(l.sources), l.targets);
      if fromTargets.failure.Some? then fromTargets.failure
      else Admit(l.width, l.height, Ids(l.sources) + Ids(l.targets), l.obstacles).failure
  }

  /** Building from a layout fails exactly when the layout breaks the invariant. */
  lemma BuildErrorNoneIff(l: Layout)
    ensures BuildError(l).None? <==> ValidLayout(l)
  {
    AdmitSucceedsIff(l.width, l.height, {}, l.sources);
    AdmitSucceedsIff(l.width, l.height, Ids(l.sources), l.targets);
    AdmitSucceedsIff(l.width, l.height, Ids(l.sources) + Ids(l.targets), l.obstacles);
  }

  /** What reconstructing a topography from d yields: its contents, or the first
      error. It succeeds exactly when the keys and tags pass and the parsed lists
      satisfy the invariant; past the key and tag checks only geometry and
      duplicate errors arise. */
  function Reconstruct(d: TopographyDict): (r: Result<Layout, TopographyError>)
    ensures r.Success? <==> ParseDict(d).Success? && ValidLayout(ParseDict(d).value)
    ensures r.Failure? && ParseDict(d).Success? ==>
              r.error.InvalidTopographyObject? || r.error.DuplicateTopographyObjectId?
  {
    match ParseDict(d)
    case Failure(e) => Failure(e)
    case Success(l) =>
      BuildErrorNoneIff(l);
      match BuildError(l)
      case Some(e) => Failure(e)
      case None => Success(l)
  }

  /** Converting a valid topography to its dictionary form and back gives the
      same area and the same objects in every list. */
  lemma RoundTrip(l: Layout)
    ensures ValidLayout(l) ==> Reconstruct(EncodeLayout(l)) == Success(l)
  {
    DecodeEncodeObjects(l.sources);
    DecodeEncodeObjects(l.targets);
    DecodeEncodeObjects(l.obstacles);
    BuildErrorNoneIff(l);
  }

  /** Conversely, a dictionary that reconstructs is the dictionary form of what it
      reconstructs to, and that is a valid topography. */
  lemma ReconstructEncodes(d: TopographyDict)
    requires Reconstruct(d).Success?
    ensures EncodeLayout(Reconstruct(d).value) == d
    ensures ValidLayout(Reconstruct(d).value)
  {
    DecodeObjectsInvertsEncode(d.sources.value);
    DecodeObjectsInvertsEncode(d.targets.value);
    DecodeObjectsInvertsEncode(d.obstacles.value);
    BuildErrorNoneIff(Reconstruct(d).value);
  }

  /** The order of the checks: a missing key is reported only when every list
      before it was present and carried known tags, and geometry and duplicate
      errors arise only from a dictionary that passed every key and tag check. */
  lemma ReconstructErrorPrecedence(d: TopographyDict)
    ensures Reconstruct(d) == Failure(TopographyReconstruction(SourcesKey)) <==> d.sources.None?
    ensures Reconstruct(d) == Failure(TopographyReconstruction(TargetsKey)) <==>
              && d.sources.Some? && DecodeObjects(d.sources.value).Success?
              && d.targets.None?
    ensures Reconstruct(d) == Failure(TopographyReconstruction(ObstaclesKey)) <==>
              && d.sources.Some? && DecodeObjects(d.sources.value).Success?
              && d.targets.Some? && DecodeObjects(d.targets.value).Success?
              && d.obstacles.None?
    ensures Reconstruct(d) == Failure(TopographyReconstruction(WidthAndHeightKeys)) <==>
              && d.sources.Some? && DecodeObjects(d.sources.value).Success?
              && d.targets.Some? && DecodeObjects(d.targets.value).Success?
              && d.obstacles.Some? && DecodeObjects(d.obstacles.value).Success?
              && (d.width.None? || d.height.None?)
    ensures d.sources.Some? && DecodeObjects(d.sources.value).Failure? ==>
              Reconstruct(d) == Failure(DecodeObjects(d.sources.value).error)
    ensures d.sources.Some? && DecodeObjects(d.sources.value).Success?
            && d.targets.Some? && DecodeObjects(d.targets.value).Failure? ==>
              Reconstruct(d) == Failure(DecodeObjects(d.targets.value).error)
    ensures d.sources.Some? && DecodeObjects(d.sources.value).Success?
            && d.targets.Some? && DecodeObjects(d.targets.value).Success?
            && d.obstacles.Some? && DecodeObjects(d.obstacles.value).Failure? ==>
              Reconstruct(d) == Failure(DecodeObjects(d.obstacles.value).error)
    ensures Reconstruct(d).Failure? && !Reconstruct(d).error.TopographyReconstruction?
            && !Reconstruct(d).error.UndefinedTopographyObjectType? ==>
              ParseDict(d).Success?
  {
  }
}
