/**
 * The test bench's control loop (`Main.py`): the linear actuator is moved in fixed steps
 * toward the current target force, and the next target is fetched once the force
 * reading has met or passed it.
 */
module BenchMain {
  import opened PyRuntime
  import BenchForces
  import BenchLoadCell

  /** `Settings.MAX_FORCE`: a target at or above it ends the program. */
  const MaxForce := 1000
  /** The distance of each `run_motor` call, in mm. */
  const StepMm := 10

  /** One `run_motor(distance, direction)` call: direction 0 extends, 1 retracts. */
  datatype Move = Move(distanceMm: int, direction: int)

  /** What one pass of the loop does with a target below the maximum. */
  datatype Action = Extend | Retract | FetchNext

  /**
   * The motor keeps extending while the target is above the reading and it is extending,
   * keeps retracting while the target is at or below the reading and it is retracting;
   * any other combination means the target has been met or passed.
   */
  function Decide(target: int, current: int, direction: int): (a: Action)
    ensures a == Extend ==> target > current
    ensures a == Retract ==> target <= current
    ensures (direction == 0 || direction == 1) ==> (a == FetchNext <==> (target > current) != (direction == 0))
  {
    if target > current && direction == 0 then Extend
    else if target <= current && direction == 1 then Retract
    else FetchNext
  }

  /** The direction toward a newly fetched target: 0 (extend) if it lies above the reading. */
  function DirectionFor(target: PyValue, current: int): (d: int)
    ensures d == 0 || d == 1
    ensures target.PyInt? ==> (d == 0 <==> target.i > current)
  {
    if Greater(target, current) then 0 else 1
  }

  /** Right after a fetch, an `int` target is pursued: while the reading stays, the motor moves. */
  lemma FetchedTargetIsPursued(target: int, current: int)
    ensures Decide(target, current, DirectionFor(PyInt(target), current)) != FetchNext
    ensures Decide(target, current, DirectionFor(PyInt(target), current)) == Extend <==> target > current
  {
  }

  class Bench {
    const forces: BenchForces.Forces
    const lc: BenchLoadCell.LoadCell
    /** `force`: the current target. */
    var force: PyValue
    /** `direction`: 0 extends the actuator, 1 retracts it. */
    var direction: int
    /** The motor commands issued so far. */
    var moves: seq<Move>

    ghost predicate Valid()
      reads this, forces, forces.store, lc
    {
      forces.Valid() && lc.Valid() && (direction == 0 || direction == 1)
    }

    constructor (targets: BenchForces.Forces, cell: BenchLoadCell.LoadCell)
      requires targets.Valid() && cell.Valid()
      ensures Valid() && forces == targets && lc == cell && direction == 0 && moves == []
    {
      forces := targets;
      lc := cell;
      force := PyInt(0);
      direction := 0;
      moves := [];
    }

    /** The first target, fetched before the loop, with the direction set to extend. */
    method Start() returns (r: Outcome<()>)
      requires Valid()
      modifies this`force, this`direction, forces`index
      ensures Valid() && moves == old(moves)
      ensures |forces.store.values| == 0 ==>
        r == Quit && forces.index == old(forces.index) && force == old(force) && direction == old(direction)
      ensures |forces.store.values| > 0 ==>
        r == Return(()) && direction == 0
        && forces.index == BenchForces.NextCursor(|forces.store.values|, old(forces.index))
        && force == forces.store.values[BenchForces.Position(|forces.store.values|, old(forces.index))]
    {
      var first := forces.GetNextForce();
      if !first.Return? {
        return Quit;
      }
      force := first.value;
      direction := 0;
      r := Return(());
    }

    /**
     * One pass of the `while (True)` loop. The reading comes from the load cell's value
     * list. A target that is not an `int` (a CSV cell is a `str`) or that reaches the
     * maximum ends the program; otherwise the motor steps 10 mm as `Decide` says, or the
     * next target is fetched and the direction turned toward it. The direction stays
     * 0 or 1.
     */
    method Iterate() returns (r: Outcome<()>)
      requires Valid()
      modifies this`force, this`direction, this`moves, forces`index, lc`index
      ensures Valid()
      ensures |lc.forces| > 0 ==> lc.index == BenchLoadCell.NextIndex(|lc.forces|, old(lc.index))
      ensures |lc.forces| == 0 ==>
        r == Raise(AttributeError) && lc.index == old(lc.index) && force == old(force) && direction == old(direction)
        && moves == old(moves) && forces.index == old(forces.index)
      ensures |lc.forces| > 0 && !(old(force).PyInt? && old(force).i < MaxForce) ==>
        r == Quit && force == old(force) && direction == old(direction)
        && moves == old(moves) && forces.index == old(forces.index)
      ensures |lc.forces| > 0 && old(force).PyInt? && old(force).i < MaxForce ==>
        var current := lc.forces[old(lc.index) % |lc.forces|];
        var action := Decide(old(force).i, current, old(direction));
        (action == Extend ==>
          r == Return(()) && moves == old(moves) + [Move(StepMm, 0)]
          && force == old(force) && direction == old(direction) && forces.index == old(forces.index))
        && (action == Retract ==>
          r == Return(()) && moves == old(moves) + [Move(StepMm, 1)]
          && force == old(force) && direction == old(direction) && forces.index == old(forces.index))
        && (action == FetchNext ==>
          moves == old(moves)
          && (|forces.store.values| == 0 ==> r == Quit && forces.index == old(forces.index))
          && (|forces.store.values| > 0 ==>
            r == Return(())
            && forces.index == BenchForces.NextCursor(|forces.store.values|, old(forces.index))
            && force == forces.store.values[BenchForces.Position(|forces.store.values|, old(forces.index))]
            && direction == DirectionFor(force, current)))
    {
      var reading := lc.GetNextForce();
      if !reading.Return? {
        return Raise(AttributeError);
      }
      var current := reading.value;
      if !force.PyInt? {
        return Quit;
      }
      if force.i >= MaxForce {
        return Quit;
      }
      if force.i > current && direction == 0 {
        moves := moves + [Move(StepMm, direction)];
      } else if force.i <= current && direction == 1 {
        moves := moves + [Move(StepMm, direction)];
      } else {
        var next := forces.GetNextForce();
        if !next.Return? {
          return Quit;
        }
        force := next.value;
        direction := DirectionFor(force, current);
      }
      r := Return(());
    }
  }
}
