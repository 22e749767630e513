/** Worked examples of the builder and the step log, stated as methods whose
    postconditions record what each call returns. */
module Scenarios {
  import opened Wrappers
  import opened TopographyModel
  import opened SimulationModel

  /** A source, a target and an obstacle with ids 1, 2 and 3 chained into a
      200 x 200 area: the chain returns the topography itself, with one object
      in each list and the area unchanged. */
  method CreationScenario() returns (t: Topography, r3: Result<Topography, TopographyError>)
    ensures r3 == Success(t)
    ensures t.width == 200 && t.height == 200
    ensures |t.sources| == 1 && |t.targets| == 1 && |t.obstacles| == 1
    ensures t.objectIds == {1, 2, 3} && t.Valid()
  {
    IdsSingleton(Rectangular(1, 5, 5, 1, 1));
    IdsSingleton(Rectangular(2, 95, 95, 1, 1));
    IdsSingleton(Rectangular(3, 50, 50, 1, 1));
    t := new Topography(200, 200);
    var r1 := t.WithSources([Rectangular(1, 5, 5, 1, 1)]);
    assert t.sources == [Rectangular(1, 5, 5, 1, 1)];
    assert t.objectIds == {1};
    var r2 := r1.value.WithTargets([Rectangular(2, 95, 95, 1, 1)]);
    assert t.targets == [Rectangular(2, 95, 95, 1, 1)];
    assert t.objectIds == {1, 2};
    r3 := r2.value.WithObstacles([Rectangular(3, 50, 50, 1, 1)]);
    assert t.obstacles == [Rectangular(3, 50, 50, 1, 1)];
  }

  /** Objects outside a 100 x 100 area, or of zero width, raise the geometry error
      naming the object, whatever list they are meant for. */
  method InvalidObjectScenarios() returns (r1: Result<Topography, TopographyError>,
                                           r2: Result<Topography, TopographyError>,
                                           r3: Result<Topography, TopographyError>)
    ensures r1 == Failure(InvalidTopographyObject(Rectangular(1, 105, 105, 1, 1)))
    ensures r2 == Failure(InvalidTopographyObject(Rectangular(1, -21, -21, 1, 1)))
    ensures r3 == Failure(InvalidTopographyObject(Rectangular(1, 5, 5, 0, 1)))
  {
    var t1 := new Topography(100, 100);
    r1 := t1.WithSources([Rectangular(1, 105, 105, 1, 1)]);
    var t2 := new Topography(100, 100);
    r2 := t2.WithTargets([Rectangular(1, -21, -21, 1, 1)]);
    var t3 := new Topography(100, 100);
    r3 := t3.WithObstacles([Rectangular(1, 5, 5, 0, 1)]);
  }

  /** Id 1 used by a source and then by a target, by a target and then by a
      source, by a source and then by an obstacle: each second use raises the
      duplicate error naming id 1. */
  method DuplicateIdScenarios() returns (r1: Result<Topography, TopographyError>,
                                         r2: Result<Topography, TopographyError>,
                                         r3: Result<Topography, TopographyError>)
    ensures r1 == Failure(DuplicateTopographyObjectId(1))
    ensures r2 == Failure(DuplicateTopographyObjectId(1))
    ensures r3 == Failure(DuplicateTopographyObjectId(1))
  {
    IdsSingleton(Rectangular(1, 5, 5, 1, 1));
    var t1 := new Topography(100, 100);
    var s1 := t1.WithSources([Rectangular(1, 5, 5, 1, 1)]);
    assert t1.sources == [Rectangular(1, 5, 5, 1, 1)];
    r1 := s1.value.WithTargets([Rectangular(1, 25, 25, 1, 1)]);
    var t2 := new Topography(100, 100);
    var s2 := t2.WithTargets([Rectangular(1, 5, 5, 1, 1)]);
    assert t2.targets == [Rectangular(1, 5, 5, 1, 1)];
    r2 := s2.value.WithSources([Rectangular(1, 25, 25, 1, 1)]);
    var t3 := new Topography(100, 100);
    var s3 := t3.WithSources([Rectangular(1, 5, 5, 1, 1)]);
    assert t3.sources == [Rectangular(1, 5, 5, 1, 1)];
    r3 := s3.value.WithObstacles([Rectangular(1, 25, 25, 1, 1)]);
  }

  /** A failing call keeps what it appended before the failing object: the first
      source stays, with its id registered, when the second does not fit, and
      likewise when the second repeats the first one's id. */
  method PartialFailureScenario() returns (t: Topography, r: Result<Topography, TopographyError>,
                                           u: Topography, q: Result<Topography, TopographyError>)
    ensures r == Failure(InvalidTopographyObject(Rectangular(2, 99, 5, 1, 1)))
    ensures t.sources == [Rectangular(1, 5, 5, 1, 1)] && t.objectIds == {1}
    ensures q == Failure(DuplicateTopographyObjectId(1))
    ensures u.sources == [Rectangular(1, 5, 5, 1, 1)] && u.objectIds == {1}
  {
    t := new Topography(100, 100);
    r := t.WithSources([Rectangular(1, 5, 5, 1, 1), Rectangular(2, 99, 5, 1, 1)]);
    u := new Topography(100, 100);
    q := u.WithSources([Rectangular(1, 5, 5, 1, 1), Rectangular(1, 20, 20, 1, 1)]);
  }

  /** A roster of pedestrians 11 and 12 with capacity 3 in a 100 x 100 area:
      three valid steps are accepted in order, the log is then complete, and a
      fourth valid step is refused as full. */
  method CapacityScenario() returns (outcomes: seq<Outcome<SimulationError>>, complete: bool)
    ensures outcomes == [Pass, Pass, Pass, Fail(CannotAddSimulationStep(map[11 := Position(6, 6), 12 := Position(8, 8)]))]
    ensures complete
  {
    var t := new Topography(100, 100);
    var s := new Simulation(t, [Pedestrian(11, None), Pedestrian(12, None)], 3, []);
    var o1 := s.AddSimulationStep(map[11 := Position(4, 3), 12 := Position(6, 5)]);
    var o2 := s.AddSimulationStep(map[11 := Position(4, 4), 12 := Position(6, 6)]);
    var o3 := s.AddSimulationStep(map[11 := Position(5, 4), 12 := Position(7, 6)]);
    complete := s.IsSimulationComplete();
    var o4 := s.AddSimulationStep(map[11 := Position(6, 6), 12 := Position(8, 8)]);
    outcomes := [o1, o2, o3, o4];
  }

  /** Steps that lack pedestrian 12, put a coordinate on the border, or put one
      below zero are refused as invalid and leave the log empty; a step with an
      extra, unknown pedestrian is accepted. */
  method InvalidStepScenario() returns (outcomes: seq<Outcome<SimulationError>>, steps: seq<SimulationStep>)
    ensures outcomes == [Fail(InvalidSimulationStep(map[11 := Position(3, 3)])),
                         Fail(InvalidSimulationStep(map[11 := Position(100, 3), 12 := Position(5, 5)])),
                         Fail(InvalidSimulationStep(map[11 := Position(3, -1), 12 := Position(5, 5)])),
                         Pass]
    ensures steps == [map[11 := Position(3, 3), 12 := Position(5, 5), 99 := Position(-7, 500)]]
  {
    var t := new Topography(100, 100);
    var s := new Simulation(t, [Pedestrian(11, None), Pedestrian(12, None)], 3, []);
    MissingPedestrianInvalid(s, map[11 := Position(3, 3)], 1);
    var o1 := s.AddSimulationStep(map[11 := Position(3, 3)]);
    OutOfBoundsPedestrianInvalid(s, map[11 := Position(100, 3), 12 := Position(5, 5)], 0);
    var o2 := s.AddSimulationStep(map[11 := Position(100, 3), 12 := Position(5, 5)]);
    OutOfBoundsPedestrianInvalid(s, map[11 := Position(3, -1), 12 := Position(5, 5)], 0);
    var o3 := s.AddSimulationStep(map[11 := Position(3, -1), 12 := Position(5, 5)]);
    var o4 := s.AddSimulationStep(map[11 := Position(3, 3), 12 := Position(5, 5), 99 := Position(-7, 500)]);
    outcomes := [o1, o2, o3, o4];
    steps := s.simulationSteps;
  }

  /** The constructor stores its initial steps unchecked: a log built with more
      steps than its capacity is never complete and keeps accepting steps. */
  method OverfullLogScenario() returns (outcome: Outcome<SimulationError>, length: nat)
    ensures outcome == Pass && length == 2
  {
    var t := new Topography(10, 10);
    var s := new Simulation(t, [], 0, [map[]]);
    outcome := s.AddSimulationStep(map[]);
    length := |s.simulationSteps|;
  }
}
