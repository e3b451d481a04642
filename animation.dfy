/**
 * The simulator's run and playback controls: the run guard, loading a result, auto-advance
 * by timer, manual stepping and scrubbing, and what each step shows.
 */
module Animation {
  import opened Wrappers
  import opened Robot
  import opened TurningCells

  /** The server's answer, with positions already expanded to one pose per animation step. */
  datatype AlgoOutput = AlgoOutput(positions: seq<Pose>, vert: seq<int>, steer: seq<int>)

  /** A result the turning-cell generator can process: the command arrays cover every pose and every turn ends. */
  predicate Loadable(out: AlgoOutput, dirOf: real -> Direction)
  {
    |out.vert| >= |out.positions| && |out.steer| >= |out.positions|
    && AllTransitionsEnd(out.positions, Some(out.vert), Some(out.steer), dirOf)
  }

  /** A step shows a scan, not a move, when its pose sits at (-1, -1). */
  predicate IsScanStep(p: Pose)
  {
    p.x == -1 && p.y == -1
  }

  /** Every field of a `Sequencer` at one moment, so that a new state can be stated whole. */
  datatype View = View(robotPositions: Option<seq<Pose>>, movementVertical: Option<seq<int>>,
                       movementSteer: Option<seq<int>>, currentStep: int, startAnimation: bool,
                       isManualAnimation: bool, isAlgorithmLoading: bool, currentRobotPosition: Option<Pose>,
                       previousRobotPositionIndex: int, nextRobotPositionIndex: int,
                       previousRobotPosition: Option<Pose>, turningArray: seq<seq<Cell>>, turningPath: seq<Cell>)

  /**
   * The state after showing step k: a scan step only highlights its turning list; a move also
   * puts the robot on pose k and shifts the previous/next pointers, reading the previous pose
   * through the pointer as it was before the shift (out of range reads as no pose).
   */
  function Shown(v: View, k: int): View
    requires v.robotPositions.Some? && 0 <= k < |v.robotPositions.value| && k < |v.turningArray|
  {
    var poses := v.robotPositions.value;
    if IsScanStep(poses[k]) then v.(turningPath := v.turningArray[k])
    else
      v.(previousRobotPositionIndex := v.nextRobotPositionIndex,
         previousRobotPosition := if 0 <= v.previousRobotPositionIndex < |poses|
                                  then Some(poses[v.previousRobotPositionIndex]) else None,
         nextRobotPositionIndex := k,
         currentRobotPosition := Some(poses[k]),
         turningPath := v.turningArray[k])
  }

  class Sequencer {
    var robotPositions: Option<seq<Pose>>
    var movementVertical: Option<seq<int>>
    var movementSteer: Option<seq<int>>
    var currentStep: int
    var startAnimation: bool
    var isManualAnimation: bool
    var isAlgorithmLoading: bool
    var currentRobotPosition: Option<Pose>
    var previousRobotPositionIndex: int
    var nextRobotPositionIndex: int
    var previousRobotPosition: Option<Pose>
    var turningArray: seq<seq<Cell>>
    var turningPath: seq<Cell>

    function State(): View
      reads this
    {
      View(robotPositions, movementVertical, movementSteer, currentStep, startAnimation, isManualAnimation,
           isAlgorithmLoading, currentRobotPosition, previousRobotPositionIndex, nextRobotPositionIndex,
           previousRobotPosition, turningArray, turningPath)
    }

    /** `robotPositions?.length ?? 0`. */
    function TotalSteps(): nat
      reads this
    {
      if robotPositions.Some? then |robotPositions.value| else 0
    }

    /** The step is a valid index (or 0 with nothing loaded), and there is one turning list per step. */
    predicate Valid()
      reads this
    {
      && 0 <= currentStep
      && (TotalSteps() == 0 ==> currentStep == 0)
      && (TotalSteps() > 0 ==> currentStep < TotalSteps())
      && |turningArray| == (if TotalSteps() == 0 then 1 else TotalSteps())
    }

    constructor ()
      ensures Valid()
      ensures robotPositions.None? && movementVertical.None? && movementSteer.None?
      ensures currentStep == 0 && !startAnimation && !isManualAnimation && !isAlgorithmLoading
      ensures currentRobotPosition.None? && previousRobotPosition.None?
      ensures previousRobotPositionIndex == 0 && nextRobotPositionIndex == 0
      ensures turningArray == [[]] && turningPath == []
    {
      robotPositions := None;
      movementVertical := None;
      movementSteer := None;
      currentStep := 0;
      startAnimation := false;
      isManualAnimation := false;
      isAlgorithmLoading := false;
      currentRobotPosition := None;
      previousRobotPositionIndex := 0;
      nextRobotPositionIndex := 0;
      previousRobotPosition := None;
      turningArray := [[]];
      turningPath := [];
    }

    /** The run guard: a run is refused while one is loading or the animation is playing. */
    method BeginRun() returns (started: bool)
      modifies this
      ensures started <==> !old(startAnimation) && !old(isAlgorithmLoading)
      ensures !started ==> unchanged(this)
      ensures started ==> State() == old(State()).(isAlgorithmLoading := true)
    {
      if startAnimation || isAlgorithmLoading {
        return false;
      }
      isAlgorithmLoading := true;
      return true;
    }

    /**
     * The end of a run: a result replaces the poses and command arrays, rewinds to step 0 and
     * regenerates the turning lists; a failure keeps everything. Loading ends either way.
     */
    method FinishRun(output: Option<AlgoOutput>, dirOf: real -> Direction)
      requires Valid() && isAlgorithmLoading
      requires output.Some? ==> Loadable(output.value, dirOf)
      modifies this
      ensures Valid()
      ensures output.None? ==> State() == old(State()).(isAlgorithmLoading := false)
      ensures output.Some? ==>
        State() == old(State()).(robotPositions := Some(output.value.positions),
                                 movementVertical := Some(output.value.vert), movementSteer := Some(output.value.steer),
                                 currentStep := 0, isAlgorithmLoading := false, turningArray := turningArray)
      ensures output.Some? ==> turningArray[0] == []
      ensures output.Some? ==> forall i: nat :: i + 1 < TotalSteps() ==>
        turningArray[i + 1] == TurningCellsAt(output.value.positions, movementVertical, movementSteer, dirOf, i)
    {
      if output.Some? {
        robotPositions := Some(output.value.positions);
        movementVertical := Some(output.value.vert);
        movementSteer := Some(output.value.steer);
        currentStep := 0;
        turningArray := GenerateTurningCells(output.value.positions, movementVertical, movementSteer, dirOf);
      }
      isAlgorithmLoading := false;
    }

    /** What showing step k does: a scan step only changes the highlighted turn; a move also shifts the robot. */
    method ShowStep(k: int)
      requires Valid() && robotPositions.Some? && 0 <= k < TotalSteps()
      modifies this
      ensures Valid()
      ensures robotPositions == old(robotPositions) && currentStep == old(currentStep)
        && startAnimation == old(startAnimation) && isManualAnimation == old(isManualAnimation)
        && isAlgorithmLoading == old(isAlgorithmLoading) && turningArray == old(turningArray)
        && movementVertical == old(movementVertical) && movementSteer == old(movementSteer)
      ensures State() == Shown(old(State()), k)
      ensures turningPath == turningArray[k]
      ensures IsScanStep(robotPositions.value[k]) ==>
        currentRobotPosition == old(currentRobotPosition) && previousRobotPosition == old(previousRobotPosition)
        && previousRobotPositionIndex == old(previousRobotPositionIndex) && nextRobotPositionIndex == old(nextRobotPositionIndex)
      ensures !IsScanStep(robotPositions.value[k]) ==>
        currentRobotPosition == Some(robotPositions.value[k])
        && previousRobotPositionIndex == old(nextRobotPositionIndex) && nextRobotPositionIndex == k
        && previousRobotPosition == (if 0 <= old(previousRobotPositionIndex) < TotalSteps()
                                     then Some(robotPositions.value[old(previousRobotPositionIndex)]) else None)
    {
      var poses := robotPositions.value;
      if poses[k].x == -1 && poses[k].y == -1 {
        turningPath := turningArray[k];
      } else {
        var oldPrevious := previousRobotPositionIndex;
        previousRobotPositionIndex := nextRobotPositionIndex;
        previousRobotPosition := if 0 <= oldPrevious < |poses| then Some(poses[oldPrevious]) else None;
        nextRobotPositionIndex := k;
        currentRobotPosition := Some(poses[k]);
        turningPath := turningArray[k];
      }
    }

    /**
     * The animation effect: while playing with a next step, a timer is scheduled (its delay is
     * returned, longer when the next step turns); otherwise, while stepping by hand, the
     * current step is shown at once.
     */
    method AnimationEffect(speed: int) returns (delay: Option<int>)
      requires Valid()
      modifies this
      ensures Valid()
      ensures delay.Some? <==> old(robotPositions).Some? && old(startAnimation) && old(currentStep) + 1 < old(TotalSteps())
      ensures delay.Some? ==>
        (unchanged(this) && delay.value == (if turningArray[currentStep + 1] == [] then speed else speed + 200))
      ensures delay.None? && old(robotPositions.Some? && isManualAnimation && currentStep < TotalSteps()) ==>
        State() == Shown(old(State()), old(currentStep))
      ensures delay.None? && !old(robotPositions.Some? && isManualAnimation && currentStep < TotalSteps()) ==>
        unchanged(this)
    {
      if robotPositions.Some? && startAnimation && currentStep + 1 < TotalSteps() {
        var next := turningArray[currentStep + 1];
        return Some(if next == [] then speed else speed + 200);
      } else if robotPositions.Some? && isManualAnimation && currentStep < TotalSteps() {
        ShowStep(currentStep);
      }
      return None;
    }

    /** The scheduled timer fires: advance exactly one step, show it, and stop on the last step. */
    method TimerFires()
      requires Valid() && robotPositions.Some? && startAnimation && currentStep + 1 < TotalSteps()
      modifies this
      ensures Valid()
      ensures currentStep == old(currentStep) + 1 <= TotalSteps() - 1
      ensures startAnimation <==> currentStep != TotalSteps() - 1
      ensures IsScanStep(robotPositions.value[currentStep]) ==> currentRobotPosition == old(currentRobotPosition)
      ensures !IsScanStep(robotPositions.value[currentStep]) ==> currentRobotPosition == Some(robotPositions.value[currentStep])
      ensures turningPath == turningArray[currentStep]
      ensures State() == Shown(old(State()).(currentStep := currentStep), currentStep)
                           .(startAnimation := currentStep != TotalSteps() - 1)
    {
      var nextStep := currentStep + 1;
      currentStep := nextStep;
      ShowStep(nextStep);
      if nextStep == TotalSteps() - 1 {
        startAnimation := false;
      }
    }

    /** The play/stop button: stops a playing animation; otherwise plays, rewinding to step 0 from the last step. */
    method ToggleAnimation()
      requires Valid() && robotPositions.Some?
      modifies this
      ensures Valid()
      ensures startAnimation == !old(startAnimation)
      ensures old(startAnimation) ==> State() == old(State()).(startAnimation := false)
      ensures !old(startAnimation) && old(currentStep) == TotalSteps() - 1 ==>
        State() == old(State()).(isManualAnimation := false, startAnimation := true,
                                 currentRobotPosition := Some(robotPositions.value[0]), currentStep := 0)
      ensures !old(startAnimation) && old(currentStep) != TotalSteps() - 1 ==>
        State() == old(State()).(isManualAnimation := false, startAnimation := true)
    {
      if startAnimation {
        startAnimation := false;
      } else {
        isManualAnimation := false;
        startAnimation := true;
        if currentStep == TotalSteps() - 1 {
          currentRobotPosition := Some(robotPositions.value[0]);
          currentStep := 0;
        }
      }
    }

    /** The previous-step button: ignored while playing or on step 0. */
    method StepBack()
      requires Valid()
      modifies this
      ensures Valid()
      ensures old(startAnimation) || old(currentStep) == 0 ==> unchanged(this)
      ensures !old(startAnimation) && old(currentStep) > 0 ==>
        State() == old(State()).(isManualAnimation := true, currentStep := old(currentStep) - 1)
    {
      if !startAnimation && currentStep - 1 >= 0 {
        isManualAnimation := true;
        currentStep := currentStep - 1;
      }
    }

    /** The next-step button: ignored while playing or on the last step. */
    method StepForward()
      requires Valid()
      modifies this
      ensures Valid()
      ensures old(startAnimation) || old(currentStep) + 1 >= TotalSteps() ==> unchanged(this)
      ensures !old(startAnimation) && old(currentStep) + 1 < TotalSteps() ==>
        State() == old(State()).(isManualAnimation := true, currentStep := old(currentStep) + 1)
    {
      if !startAnimation && currentStep + 1 < TotalSteps() {
        isManualAnimation := true;
        currentStep := currentStep + 1;
      }
    }

    /** Dragging the step slider, which only offers 0 .. total-1 and is disabled while playing. */
    method Scrub(v: int)
      requires Valid() && !startAnimation && 0 <= v < TotalSteps()
      modifies this
      ensures Valid()
      ensures State() == old(State()).(currentStep := v, isManualAnimation := true)
    {
      currentStep := v;
      isManualAnimation := true;
    }

    /** Releasing the slider leaves manual stepping. */
    method PointerUp()
      requires Valid()
      modifies this
      ensures Valid()
      ensures State() == old(State()).(isManualAnimation := false)
    {
      isManualAnimation := false;
    }

    /**
     * Choosing a preset course: forget the loaded result and go back to step 0 at the initial
     * position; with no poses the turning lists regenerate to the single empty list.
     */
    method SelectTest(initial: Pose)
      requires Valid()
      modifies this
      ensures Valid()
      ensures State() == old(State()).(currentStep := 0, currentRobotPosition := Some(initial), robotPositions := None,
                                       movementVertical := None, movementSteer := None, turningArray := [[]])
    {
      var cells := GenerateTurningCells([], None, None, p => Unknown);
      assert cells == [[]];
      currentStep := 0;
      currentRobotPosition := Some(initial);
      robotPositions := None;
      movementVertical := None;
      movementSteer := None;
      turningArray := cells;
    }
  }
}
