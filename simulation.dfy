/** The simulation step log: a topography, a roster of pedestrians, a capacity
    and the steps recorded so far, each step mapping pedestrian ids to positions. */
module SimulationModel {
  import opened Wrappers
  import opened TopographyModel

  datatype Pedestrian = Pedestrian(id: int, labelText: Option<string>)

  datatype Position = Position(x: int, y: int)

  /** The positions of the pedestrians at one tick, by pedestrian id. */
  type SimulationStep = map<int, Position>

  datatype SimulationError =
    | CannotAddSimulationStep(step: SimulationStep)
    | InvalidSimulationStep(step: SimulationStep)

  class Simulation {
    const topography: Topography
    const pedestrians: seq<Pedestrian>
    const nSteps: int
    var simulationSteps: seq<SimulationStep>

    /** Stores its arguments as they are; the initial steps are not checked. */
    constructor (topography: Topography, pedestrians: seq<Pedestrian>, nSteps: int, simulationSteps: seq<SimulationStep>)
      ensures this.topography == topography && this.pedestrians == pedestrians
      ensures this.nSteps == nSteps && this.simulationSteps == simulationSteps
    {
      this.topography := topography;
      this.pedestrians := pedestrians;
      this.nSteps := nSteps;
      this.simulationSteps := simulationSteps;
    }

    /** The ids of the roster. */
    function RosterIds(): set<int> {
      set k | 0 <= k < |pedestrians| :: pedestrians[k].id
    }

    /** A position lies in the half-open area of the topography. */
    predicate IsValidPosition(position: Position) {
      0 <= position.x < topography.width && 0 <= position.y < topography.height
    }

    /** Every roster pedestrian has a position in the step, and each of those
        positions lies in the area; other keys are not looked at. */
    predicate IsValidSimulationStep(step: SimulationStep): (valid: bool)
      ensures valid <==>
                && RosterIds() <= step.Keys
                && forall id :: id in RosterIds() ==> IsValidPosition(step[id])
    {
      && (forall k :: 0 <= k < |pedestrians| ==> pedestrians[k].id in step)
      && (forall k :: 0 <= k < |pedestrians| ==> IsValidPosition(step[pedestrians[k].id]))
    }

    /** The log is complete when it holds exactly nSteps steps. */
    function IsSimulationComplete(): bool
      reads this
    {
      |simulationSteps| == nSteps
    }

    /** Appends a step: refused when the log holds exactly nSteps steps (checked
        first, so even an invalid step is refused as full), refused when the
        step is invalid, appended otherwise. A refusal changes nothing. */
    method AddSimulationStep(step: SimulationStep) returns (r: Outcome<SimulationError>)
      modifies this
      ensures old(IsSimulationComplete()) ==>
                r == Fail(CannotAddSimulationStep(step)) && simulationSteps == old(simulationSteps)
      ensures !old(IsSimulationComplete()) && !IsValidSimulationStep(step) ==>
                r == Fail(InvalidSimulationStep(step)) && simulationSteps == old(simulationSteps)
      ensures !old(IsSimulationComplete()) && IsValidSimulationStep(step) ==>
                r == Pass && simulationSteps == old(simulationSteps) + [step]
      ensures |old(simulationSteps)| <= nSteps ==> |simulationSteps| <= nSteps
      ensures unchanged(topography)
    {
      if IsSimulationComplete() {
        return Fail(CannotAddSimulationStep(step));
      }
      if !IsValidSimulationStep(step) {
        return Fail(InvalidSimulationStep(step));
      }
      simulationSteps := simulationSteps + [step];
      return Pass;
    }
  }

  /** Only the roster's entries decide whether a step is valid: dropping every
      other key does not change the verdict. */
  lemma ValidityIgnoresOtherKeys(s: Simulation, step: SimulationStep)
    ensures s.IsValidSimulationStep(step) <==>
              s.IsValidSimulationStep(map id | id in step && id in s.RosterIds() :: step[id])
  {
    var restricted := map id | id in step && id in s.RosterIds() :: step[id];
    forall k | 0 <= k < |s.pedestrians|
      ensures s.pedestrians[k].id in step <==> s.pedestrians[k].id in restricted
      ensures s.pedestrians[k].id in step ==> step[s.pedestrians[k].id] == restricted[s.pedestrians[k].id]
    {
      assert s.pedestrians[k].id in s.RosterIds();
    }
  }

  /** A step that lacks a roster pedestrian is invalid. */
  lemma MissingPedestrianInvalid(s: Simulation, step: SimulationStep, k: nat)
    requires k < |s.pedestrians| && s.pedestrians[k].id !in step
    ensures !s.IsValidSimulationStep(step)
  {
  }

  /** A step that places a roster pedestrian on or beyond the far border of the
      area, or at a negative coordinate, is invalid. */
  lemma OutOfBoundsPedestrianInvalid(s: Simulation, step: SimulationStep, k: nat)
    requires k < |s.pedestrians| && s.pedestrians[k].id in step
    requires var p := step[s.pedestrians[k].id];
             p.x < 0 || p.y < 0 || p.x >= s.topography.width || p.y >= s.topography.height
    ensures !s.IsValidSimulationStep(step)
  {
  }

  /** A position is valid by the same half-open test the geometry check applies
      to both corners of an object: an object fits the area exactly when both its
      corners are valid positions and its extent is positive. */
  lemma ValidObjectHasValidCorners(s: Simulation, obj: TopographyObject)
    ensures IsValidObject(s.topography.width, s.topography.height, obj) <==>
              && s.IsValidPosition(Position(obj.MinCoordinates().0, obj.MinCoordinates().1))
              && s.IsValidPosition(Position(obj.MaxCoordinates().0, obj.MaxCoordinates().1))
              && obj.width > 0 && obj.height > 0
  {
  }
}
