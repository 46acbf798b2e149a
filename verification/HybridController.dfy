/**
 * The hybrid controller: Chebyshev selection of one (path, weight) pair from the planner's
 * Pareto set, and the per-genotype evaluation that drives a fresh agent along that path and
 * scores the run.  The path planner, the genetic algorithm and the network's internals are
 * external: their outputs are inputs here.
 */
module HybridControllers {
  import opened Wrappers
  import opened Numerics
  import opened Destinations
  import opened Agents
  import opened ControllerFeatures
  import opened Episodes

  /** Python's evaluation raises on an empty target path once path following is reached. */
  datatype EvalError = EmptyTargetPath

  class HybridController {
    const lib: Math
    const checkpoints: seq<Point>
    const flag: Destination
    const layers: seq<int>
    /** Objective-space reference point of the external path planner. */
    const referencePoint: (real, real)
    var agentPathIndex: int
    var agentPaths: seq<Path>
    var weights: seq<Weight>
    var fitnesses: seq<real>

    /** The three history lists grow together, one entry per evaluation. */
    ghost predicate Valid()
      reads this
    {
      |agentPaths| == agentPathIndex && |weights| == agentPathIndex && |fitnesses| == agentPathIndex
    }

    /** The arithmetic the evaluation relies on: a lawful library shared with the flag, a usable reference point. */
    ghost predicate Configured() {
      Lawful(lib) && flag.lib == lib && referencePoint.0 != 0.0 && referencePoint.1 != 0.0
    }

    constructor (lib: Math, checkpoints: seq<Point>, layers: seq<int>, flag: Destination, referencePoint: (real, real))
      ensures this.lib == lib && this.checkpoints == checkpoints && this.layers == layers
      ensures this.flag == flag && this.referencePoint == referencePoint
      ensures agentPathIndex == 0 && agentPaths == [] && weights == [] && fitnesses == []
      ensures Valid()
    {
      this.lib := lib;
      this.checkpoints := checkpoints;
      this.flag := flag;
      this.layers := layers;
      this.referencePoint := referencePoint;
      agentPathIndex := 0;
      agentPaths := [];
      weights := [];
      fitnesses := [];
    }

    /** max of the two weighted objectives, each divided by its reference value. */
    function ChebyshevScalar(objectives: Objective, weight: Weight): (r: real)
      requires referencePoint.0 != 0.0 && referencePoint.1 != 0.0
      ensures weight.0 * (objectives.0 / referencePoint.0) <= r
      ensures weight.1 * (objectives.1 / referencePoint.1) <= r
      ensures r == weight.0 * (objectives.0 / referencePoint.0) || r == weight.1 * (objectives.1 / referencePoint.1)
    {
      var normDist := objectives.0 / referencePoint.0;
      var normCheckpoints := objectives.1 / referencePoint.1;
      if weight.1 * normCheckpoints > weight.0 * normDist then weight.1 * normCheckpoints else weight.0 * normDist
    }

    /**
     * The selection loop: over every weight, then every (path, objective) pair of the zip,
     * keep the combination with the largest scalar, replacing only on a strictly larger one.
     * The best scalar starts at minus infinity, written None.
     */
    method SelectBestPath(paths: seq<Path>, objectives: seq<Objective>, plannerWeights: seq<Weight>)
      returns (bestPath: Option<Path>, bestWeight: Option<Weight>, bestScalar: Option<real>)
      requires referencePoint.0 != 0.0 && referencePoint.1 != 0.0
      ensures var n := if |paths| < |objectives| then |paths| else |objectives|;
        && (bestScalar.None? <==> |plannerWeights| == 0 || n == 0)
        && bestPath.None? == bestScalar.None? && bestWeight.None? == bestScalar.None?
        && (bestScalar.Some? ==>
              && (forall i, j :: 0 <= i < |plannerWeights| && 0 <= j < n ==>
                    ChebyshevScalar(objectives[j], plannerWeights[i]) <= bestScalar.value)
              && exists wi, pi ::
                   && 0 <= wi < |plannerWeights| && 0 <= pi < n
                   && bestPath.value == paths[pi] && bestWeight.value == plannerWeights[wi]
                   && bestScalar.value == ChebyshevScalar(objectives[pi], plannerWeights[wi])
                   && (forall i, j :: 0 <= i < |plannerWeights| && 0 <= j < n && (i < wi || (i == wi && j < pi)) ==>
                         ChebyshevScalar(objectives[j], plannerWeights[i]) < bestScalar.value))
    {
      var n := if |paths| < |objectives| then |paths| else |objectives|;
      bestScalar, bestPath, bestWeight := None, None, None;
      ghost var wi, pi := 0, 0;
      for i := 0 to |plannerWeights|
        invariant bestScalar.None? <==> i == 0 || n == 0
        invariant bestPath.None? == bestScalar.None? && bestWeight.None? == bestScalar.None?
        invariant bestScalar.Some? ==>
          && wi < i && pi < n
          && bestPath.value == paths[pi] && bestWeight.value == plannerWeights[wi]
          && bestScalar.value == ChebyshevScalar(objectives[pi], plannerWeights[wi])
          && (forall i', j :: 0 <= i' < i && 0 <= j < n ==>
                ChebyshevScalar(objectives[j], plannerWeights[i']) <= bestScalar.value)
          && (forall i', j :: 0 <= i' < i && 0 <= j < n && (i' < wi || (i' == wi && j < pi)) ==>
                ChebyshevScalar(objectives[j], plannerWeights[i']) < bestScalar.value)
      {
        var weight := plannerWeights[i];
        for j := 0 to n
          invariant bestScalar.None? <==> (i == 0 && j == 0) || n == 0
          invariant bestPath.None? == bestScalar.None? && bestWeight.None? == bestScalar.None?
          invariant bestScalar.Some? ==>
            && (wi < i || (wi == i && pi < j)) && pi < n
            && bestPath.value == paths[pi] && bestWeight.value == plannerWeights[wi]
            && bestScalar.value == ChebyshevScalar(objectives[pi], plannerWeights[wi])
            && (forall i', j' :: 0 <= j' < n && (0 <= i' < i || (i' == i && 0 <= j' < j)) ==>
                  ChebyshevScalar(objectives[j'], plannerWeights[i']) <= bestScalar.value)
            && (forall i', j' ::
                  (0 <= j' < n && (0 <= i' < i || (i' == i && 0 <= j' < j)) && (i' < wi || (i' == wi && j' < pi))) ==>
                  ChebyshevScalar(objectives[j'], plannerWeights[i']) < bestScalar.value)
        {
          var scalar := ChebyshevScalar(objectives[j], weight);
          if bestScalar.None? || scalar > bestScalar.value {
            bestScalar, bestPath, bestWeight := Some(scalar), Some(paths[j]), Some(weight);
            wi, pi := i, j;
          }
        }
      }
    }

    /**
     * One fitness evaluation: a fresh agent follows `targetPath` under `net` for at most Duration
     * ticks, stopping at the first tick whose capture check succeeds; the run is scored and the
     * trajectory, the weight and the fitness are appended to the history.
     */
    method EvaluatePathFollowing(targetPath: Path, weight: Weight, net: Network)
      returns (outcome: Result<real, EvalError>, trajectory: Path)
      requires Valid() && Configured()
      requires DrivesMotors(net, InputWidth(|checkpoints|))
      modifies this, flag`distFromDest
      ensures Valid()
      ensures var s := Scene(lib, flag, targetPath, checkpoints, net);
        outcome.Failure? <==> targetPath == [] && !Captured(s, Origin)
      ensures outcome.Failure? ==>
        agentPaths == old(agentPaths) && weights == old(weights) && fitnesses == old(fitnesses)
      ensures outcome.Success? ==>
        && agentPaths == old(agentPaths) + [trajectory]
        && weights == old(weights) + [weight]
        && fitnesses == old(fitnesses) + [outcome.value]
      ensures outcome.Success? ==>
        var s := Scene(lib, flag, targetPath, checkpoints, net);
        && Simulated(s, trajectory)
        && outcome.value == Fitness(weight,
             NormalizedLength(lib, FinalPathLength(s, trajectory), referencePoint.0),
             NormalizedCoverage(lib, Coverage(BestDistances(lib, trajectory, checkpoints)), referencePoint.1))
      ensures outcome.Failure? ==> flag.distFromDest == Some(flag.DistanceTo(0.0, 0.0))
      ensures outcome.Success? && |trajectory| > 0 ==>
        var s := Scene(lib, flag, targetPath, checkpoints, net);
        var last := Last(trajectory);
        if Captured(s, last) then flag.distFromDest == Some(flag.DistanceTo(last.x, last.y))
        else |targetPath| > 0 && flag.distFromDest == Some(flag.DistanceTo(PoseAt(s, Duration).x, PoseAt(s, Duration).y))
    {
      ghost var s := Scene(lib, flag, targetPath, checkpoints, net);
      var run;
      run, trajectory := RunEpisode(targetPath, net);
      if run.Failure? {
        return Failure(run.error), [];
      }
      var pathLength, best := run.value.0, run.value.1;
      var checkpointScore := CheckpointScore(best);
      agentPaths := agentPaths + [trajectory];
      weights := weights + [weight];
      agentPathIndex := agentPathIndex + 1;
      var normPathLength := NormalizedLength(lib, pathLength, referencePoint.0);
      var normCheckpointScore := NormalizedCoverage(lib, checkpointScore, referencePoint.1);
      var fitness := Fitness(weight, normPathLength, normCheckpointScore);
      fitnesses := fitnesses + [fitness];
      outcome := Success(fitness);
    }

    /**
     * The step loop of an evaluation and the capture correction after it: returns the final path
     * length and the best checkpoint distances, or fails on an empty target path once the agent
     * has to follow it.
     */
    method RunEpisode(targetPath: Path, net: Network)
      returns (run: Result<(real, seq<ExtReal>), EvalError>, trajectory: Path)
      requires 0.0 < MaxDistance(lib) && flag.lib == lib
      requires DrivesMotors(net, InputWidth(|checkpoints|))
      modifies flag`distFromDest
      ensures var s := Scene(lib, flag, targetPath, checkpoints, net);
        run.Failure? <==> targetPath == [] && !Captured(s, Origin)
      ensures run.Success? ==>
        var s := Scene(lib, flag, targetPath, checkpoints, net);
        && Simulated(s, trajectory)
        && run.value.0 == FinalPathLength(s, trajectory)
        && run.value.1 == BestDistances(lib, trajectory, checkpoints)
      ensures run.Failure? ==> flag.distFromDest == Some(flag.DistanceTo(0.0, 0.0))
      ensures run.Success? && |trajectory| > 0 ==>
        var s := Scene(lib, flag, targetPath, checkpoints, net);
        var last := Last(trajectory);
        if Captured(s, last) then flag.distFromDest == Some(flag.DistanceTo(last.x, last.y))
        else |targetPath| > 0 && flag.distFromDest == Some(flag.DistanceTo(PoseAt(s, Duration).x, PoseAt(s, Duration).y))
    {
      ghost var s := Scene(lib, flag, targetPath, checkpoints, net);
      var agent := new Agent(lib, Origin);
      var progress := Progress([], 0.0, seq(|checkpoints|, i => Infinity), Origin);
      var step := 0;
      var reached := false;
      while step < Duration && !reached
        invariant agent.lib == lib && agent.Valid()
        invariant 0 <= step <= Duration && |progress.path| == step
        invariant !reached ==> Running(s, progress, agent.CurrentPose())
        invariant reached ==> Halted(s, progress) && Point(agent.x, agent.y) == Last(progress.path)
      {
        var status;
        progress, status := Tick(s, agent, targetPath, net, progress);
        if status == MissingTarget {
          return Failure(EmptyTargetPath), [];
        }
        step := step + 1;
        reached := status == Reached;
      }
      if reached {
        HaltedRun(s, progress);
      } else {
        ExhaustedRun(s, progress, agent.CurrentPose());
      }
      var currentPath := progress.path;
      var finalVerdict := agent.Sense(flag);
      var pathLength := CorrectForCapture(s, currentPath, progress.pathLength, finalVerdict == DestReached);
      var best := progress.best;
      trajectory := currentPath;
      run := Success((pathLength, best));
    }

    /**
     * One pass of the step loop: record the position, fold it into the path length and the best
     * distances, check for capture, and otherwise feed the network and move.
     */
    method Tick(ghost s: Scene, agent: Agent, targetPath: Path, net: Network, progress: Progress)
      returns (next: Progress, status: TickStatus)
      requires s == Scene(lib, flag, targetPath, checkpoints, net) && Coherent(s)
      requires agent.lib == lib && agent.Valid()
      requires Running(s, progress, agent.CurrentPose())
      modifies agent, flag`distFromDest
      ensures agent.Valid()
      ensures status == Moving ==>
        |next.path| == |progress.path| + 1 && Running(s, next, agent.CurrentPose())
      ensures status == Reached ==>
        && |next.path| == |progress.path| + 1 && Halted(s, next)
        && Point(agent.x, agent.y) == Last(next.path)
      ensures status == MissingTarget ==>
        && targetPath == [] && progress.path == [] && !Captured(s, Origin)
        && flag.distFromDest == Some(flag.DistanceTo(0.0, 0.0))
    {
      ghost var pose := agent.CurrentPose();
      var currentPos := Point(agent.x, agent.y);
      var path := progress.path + [currentPos];
      var pathLength := progress.pathLength + Dist(lib, currentPos, progress.prevPos);
      var best := UpdateCheckpointDistances(progress.best, currentPos);
      assert Recorded(s, progress, Position(pose), path, pathLength, best);
      var verdict := agent.Sense(flag);
      if verdict == DestReached {
        HaltAfterCapture(s, progress, pose, path, pathLength, best);
        return Progress(path, pathLength, best, progress.prevPos), Reached;
      }
      if targetPath == [] {
        return progress, MissingTarget;
      }
      var nnInputs := NetworkInputs(targetPath, net, agent.CurrentPose(), agent.leftSensor, agent.rightSensor);
      agent.Move(net, nnInputs);
      ContinueAfterMove(s, progress, pose, path, pathLength, best, agent.CurrentPose());
      next, status := Progress(path, pathLength + StepPenalty, best, currentPos), Moving;
    }

    /**
     * The correction after the loop: when the final capture check succeeds and the last recorded
     * position is inside the radius, the path length is reduced by how deep inside it lies.
     */
    method CorrectForCapture(ghost s: Scene, trajectory: Path, pathLength: real, reached: bool)
      returns (corrected: real)
      requires s.lib == lib && s.flag == flag && flag.lib == lib && |trajectory| > 0
      requires pathLength == Travelled(lib, trajectory) + StepPenalty * Moves(s, trajectory) as real
      requires Captured(s, Last(trajectory)) ==> reached
      ensures corrected == FinalPathLength(s, trajectory)
    {
      var currentPos := trajectory[|trajectory| - 1];
      corrected := pathLength;
      if reached {
        var finalDist := Dist(lib, currentPos, Point(flag.xpos, flag.ypos));
        DistSymmetric(lib, currentPos, Point(flag.xpos, flag.ypos));
        if finalDist < flag.radius {
          corrected := corrected - (flag.radius - finalDist);
        }
      }
    }

    /** Assembles the network input: the two sensors, the path error and angle, the checkpoint pairs. */
    method NetworkInputs(targetPath: Path, ghost net: Network, pose: Pose, leftSensor: real, rightSensor: real)
      returns (nnInputs: seq<real>)
      requires 0.0 < MaxDistance(lib) && |targetPath| > 0
      requires leftSensor == Activation(lib, LeftSensorLoc(lib, pose), flag)
      requires rightSensor == Activation(lib, RightSensorLoc(lib, pose), flag)
      ensures nnInputs == ControllerInput(Scene(lib, flag, targetPath, checkpoints, net), pose)
    {
      var currentPos := Position(pose);
      var pathDists := PathDistances(lib, currentPos, targetPath);
      var closestIdx := ArgMin(pathDists);
      var pathError := MinOf(pathDists);
      var nextIdx := NextIndex(closestIdx, |targetPath|);
      var pathAngle := Bearing(lib, currentPos, targetPath[nextIdx], pose.direction);
      var checkpointInputs := CheckpointInputs(currentPos, pose.direction);
      nnInputs := [leftSensor, rightSensor, pathError, pathAngle] + checkpointInputs;
    }

    /** The inner update of the step loop: each checkpoint's best distance becomes min(best, dist). */
    method UpdateCheckpointDistances(best: seq<ExtReal>, currentPos: Point) returns (updated: seq<ExtReal>)
      requires |best| == |checkpoints|
      ensures |updated| == |checkpoints|
      ensures forall i :: 0 <= i < |checkpoints| ==>
        updated[i] == MinWith(best[i], Dist(lib, currentPos, checkpoints[i]))
    {
      updated := best;
      for i := 0 to |checkpoints|
        invariant |updated| == |checkpoints|
        invariant forall k :: 0 <= k < i ==> updated[k] == MinWith(best[k], Dist(lib, currentPos, checkpoints[k]))
        invariant forall k :: i <= k < |checkpoints| ==> updated[k] == best[k]
      {
        var dist := Dist(lib, currentPos, checkpoints[i]);
        updated := updated[i := MinWith(updated[i], dist)];
      }
    }

    /** The checkpoint part of the controller input, built by extending a list pair by pair. */
    method CheckpointInputs(currentPos: Point, direction: real) returns (inputs: seq<real>)
      ensures inputs == CheckpointFeatures(lib, currentPos, direction, checkpoints)
    {
      inputs := [];
      for i := 0 to |checkpoints|
        invariant inputs == CheckpointFeatures(lib, currentPos, direction, checkpoints[..i])
      {
        var checkpoint := checkpoints[i];
        var distToCheckpoint := Dist(lib, currentPos, checkpoint);
        var angleToCheckpoint := Bearing(lib, currentPos, checkpoint, direction);
        inputs := inputs + [distToCheckpoint, angleToCheckpoint];
        assert checkpoints[..i + 1][..i] == checkpoints[..i];
      }
      assert checkpoints[..|checkpoints|] == checkpoints;
    }

    /** Sums 1/(1+d) over the best distances, in checkpoint order. */
    method CheckpointScore(best: seq<ExtReal>) returns (score: real)
      requires forall i :: 0 <= i < |best| ==> NonNegative(best[i])
      ensures score == Coverage(best)
    {
      score := 0.0;
      for i := 0 to |best|
        invariant score == Coverage(best[..i])
      {
        score := score + CoverageTerm(best[i]);
        assert best[..i + 1][..i] == best[..i];
      }
      assert best[..|best|] == best;
    }
  }
}
