/**
 * The specification of one evaluation run: the scene it depends on, the controller input in a
 * pose, the pose at every tick, what a recorded trajectory is, and its final path length; and
 * the facts the step loop of the evaluation relies on.
 */
module Episodes {
  import opened Numerics
  import opened Destinations
  import opened Agents
  import opened ControllerFeatures

  /** Everything one evaluation depends on besides the genotype-independent state. */
  datatype Scene = Scene(lib: Math, flag: Destination, target: Path, checkpoints: seq<Point>, net: Network)

  ghost predicate Coherent(s: Scene) {
    0.0 < MaxDistance(s.lib) && s.flag.lib == s.lib && DrivesMotors(s.net, InputWidth(|s.checkpoints|))
  }

  function Captured(s: Scene, pos: Point): bool {
    s.flag.Verdict(pos.x, pos.y) == DestReached
  }

  /** The vector fed to the network in pose p. */
  function ControllerInput(s: Scene, p: Pose): (r: seq<real>)
    requires 0.0 < MaxDistance(s.lib) && |s.target| > 0
    ensures |r| == InputWidth(|s.checkpoints|)
  {
    var pos := Position(p);
    var pathDists := PathDistances(s.lib, pos, s.target);
    var next := NextIndex(ArgMin(pathDists), |s.target|);
    [Activation(s.lib, LeftSensorLoc(s.lib, p), s.flag),
     Activation(s.lib, RightSensorLoc(s.lib, p), s.flag),
     MinOf(pathDists),
     Bearing(s.lib, pos, s.target[next], p.direction)]
    + CheckpointFeatures(s.lib, pos, p.direction, s.checkpoints)
  }

  /** The layout of the controller input: sensors, path error at the closest point, angle, checkpoint pairs. */
  lemma ControllerInputLayout(s: Scene, p: Pose)
    requires 0.0 < MaxDistance(s.lib) && |s.target| > 0
    ensures |ControllerInput(s, p)| == 4 + 2 * |s.checkpoints|
    ensures ControllerInput(s, p)[0] == Activation(s.lib, LeftSensorLoc(s.lib, p), s.flag)
    ensures ControllerInput(s, p)[1] == Activation(s.lib, RightSensorLoc(s.lib, p), s.flag)
    ensures var closest := ArgMin(PathDistances(s.lib, Position(p), s.target));
      && ControllerInput(s, p)[2] == Dist(s.lib, Position(p), s.target[closest])
      && ControllerInput(s, p)[3] == Bearing(s.lib, Position(p), s.target[NextIndex(closest, |s.target|)], p.direction)
    ensures forall k :: 0 <= k < |s.checkpoints| ==>
      && ControllerInput(s, p)[4 + 2 * k] == Dist(s.lib, Position(p), s.checkpoints[k])
      && ControllerInput(s, p)[5 + 2 * k] == Bearing(s.lib, Position(p), s.checkpoints[k], p.direction)
  {
    var r := ControllerInput(s, p);
    var pathDists := PathDistances(s.lib, Position(p), s.target);
    var features := CheckpointFeatures(s.lib, Position(p), p.direction, s.checkpoints);
    MinIsAtArgMin(pathDists);
    CheckpointFeaturesLayout(s.lib, Position(p), p.direction, s.checkpoints);
    assert r[4..] == features;
    forall k | 0 <= k < |s.checkpoints|
      ensures r[4 + 2 * k] == Dist(s.lib, Position(p), s.checkpoints[k])
      ensures r[5 + 2 * k] == Bearing(s.lib, Position(p), s.checkpoints[k], p.direction)
    {
      assert r[4 + 2 * k] == features[2 * k];
      assert r[5 + 2 * k] == features[2 * k + 1];
    }
  }

  /** The agent's pose at the start of tick k, when no earlier tick captured it. */
  ghost function PoseAt(s: Scene, k: nat): Pose
    requires Coherent(s) && (k == 0 || |s.target| > 0)
    decreases k, 0
  {
    if k == 0 then Pose(0.0, 0.0, 0.0)
    else
      var row := s.net(InputAt(s, k - 1))[0];
      Advance(s.lib, PoseAt(s, k - 1), row[0], row[1])
  }

  /** The network input at tick k: the controller input in the pose of that tick. */
  ghost function InputAt(s: Scene, k: nat): (r: seq<real>)
    requires Coherent(s) && |s.target| > 0
    ensures |r| == InputWidth(|s.checkpoints|)
    decreases k, 1
  {
    ControllerInput(s, PoseAt(s, k))
  }

  /** Each recorded position is where the agent stands at the start of its tick. */
  ghost predicate Follows(s: Scene, trajectory: Path)
    requires Coherent(s)
    decreases |trajectory|
  {
    if trajectory == [] then true
    else
      && Follows(s, trajectory[..|trajectory| - 1])
      && (|trajectory| == 1 || |s.target| > 0)
      && Last(trajectory) == Position(PoseAt(s, |trajectory| - 1))
  }

  /** Position k of a followed trajectory is the pose at tick k. */
  lemma {:induction false} FollowsAt(s: Scene, trajectory: Path, k: nat)
    requires Coherent(s) && Follows(s, trajectory) && k < |trajectory|
    ensures k == 0 || |s.target| > 0
    ensures trajectory[k] == Position(PoseAt(s, k))
    decreases |trajectory|
  {
    if k < |trajectory| - 1 {
      var init := trajectory[..|trajectory| - 1];
      FollowsAt(s, init, k);
      assert init[k] == trajectory[k];
    }
  }

  /** No recorded position is inside the capture radius. */
  predicate Uncaptured(s: Scene, positions: Path) {
    forall k :: 0 <= k < |positions| ==> !Captured(s, positions[k])
  }

  /** `trajectory` is the recorded run: one position per tick, stopping at the first capture or the budget. */
  ghost predicate Simulated(s: Scene, trajectory: Path)
    requires Coherent(s)
  {
    && 1 <= |trajectory| <= Duration
    && Follows(s, trajectory)
    && Uncaptured(s, trajectory[..|trajectory| - 1])
    && (|trajectory| < Duration ==> Captured(s, Last(trajectory)))
  }

  /** Recording the pose of the next tick keeps the trajectory in step with the poses. */
  lemma FollowsAppend(s: Scene, trajectory: Path, pos: Point)
    requires Coherent(s) && Follows(s, trajectory)
    requires |trajectory| == 0 || |s.target| > 0
    requires pos == Position(PoseAt(s, |trajectory|))
    ensures Follows(s, trajectory + [pos])
  {
    var longer := trajectory + [pos];
    assert longer[..|longer| - 1] == trajectory;
    assert Last(longer) == pos;
  }

  /** The bookkeeping values of the step loop. */
  datatype Progress = Progress(path: Path, pathLength: real, best: seq<ExtReal>, prevPos: Point)

  /** How a tick ended: with a move, with a capture, or on an empty target path. */
  datatype TickStatus = Moving | Reached | MissingTarget

  /** The loop state before a tick, with no capture so far and `pose` the agent's pose. */
  ghost predicate Running(s: Scene, p: Progress, pose: Pose)
    requires Coherent(s)
  {
    && (|p.path| > 0 ==> |s.target| > 0)
    && pose == PoseAt(s, |p.path|)
    && Follows(s, p.path)
    && Uncaptured(s, p.path)
    && p.best == BestDistances(s.lib, p.path, s.checkpoints)
    && p.prevPos == (if p.path == [] then Origin else Last(p.path))
    && p.pathLength == Travelled(s.lib, p.path) + StepPenalty * |p.path| as real
  }

  /** The loop state after the tick whose capture check succeeded. */
  ghost predicate Halted(s: Scene, p: Progress)
    requires Coherent(s)
  {
    && |p.path| > 0
    && Follows(s, p.path)
    && Uncaptured(s, p.path[..|p.path| - 1])
    && Captured(s, Last(p.path))
    && p.best == BestDistances(s.lib, p.path, s.checkpoints)
    && p.pathLength == Travelled(s.lib, p.path) + StepPenalty * (|p.path| - 1) as real
  }

  /** The bookkeeping of a tick that records the agent at `pos` after the positions of `p`. */
  ghost predicate Recorded(s: Scene, p: Progress, pos: Point, path: Path, pathLength: real, best: seq<ExtReal>) {
    && path == p.path + [pos]
    && pathLength == p.pathLength + Dist(s.lib, pos, p.prevPos)
    && |best| == |s.checkpoints| && |p.best| == |s.checkpoints|
    && (forall i :: 0 <= i < |s.checkpoints| ==> best[i] == MinWith(p.best[i], Dist(s.lib, pos, s.checkpoints[i])))
  }

  /** Recording a position keeps the best distances and the path length in step with the longer trajectory. */
  lemma RecordedTotals(s: Scene, p: Progress, pos: Point, path: Path, pathLength: real, best: seq<ExtReal>)
    requires Recorded(s, p, pos, path, pathLength, best)
    requires p.best == BestDistances(s.lib, p.path, s.checkpoints)
    requires p.prevPos == (if p.path == [] then Origin else Last(p.path))
    requires p.pathLength == Travelled(s.lib, p.path) + StepPenalty * |p.path| as real
    ensures best == BestDistances(s.lib, path, s.checkpoints)
    ensures pathLength == Travelled(s.lib, path) + StepPenalty * |p.path| as real
  {
    TravelledAppend(s.lib, p.path, pos);
    BestDistancesAppend(s.lib, p.path, pos, s.checkpoints);
  }

  /** One tick of the dynamics: the next pose is the current one advanced by the network's answer. */
  lemma PoseAtNext(s: Scene, k: nat)
    requires Coherent(s) && |s.target| > 0
    ensures var row := s.net(ControllerInput(s, PoseAt(s, k)))[0];
      PoseAt(s, k + 1) == Advance(s.lib, PoseAt(s, k), row[0], row[1])
  {
    assert InputAt(s, k) == ControllerInput(s, PoseAt(s, k));
  }

  /** A tick whose capture check succeeds ends the loop in the halted state. */
  lemma HaltAfterCapture(s: Scene, p: Progress, pose: Pose, path: Path, pathLength: real, best: seq<ExtReal>)
    requires Coherent(s) && Running(s, p, pose)
    requires Recorded(s, p, Position(pose), path, pathLength, best)
    requires Captured(s, Position(pose))
    ensures Halted(s, Progress(path, pathLength, best, p.prevPos))
  {
    FollowsAppend(s, p.path, Position(pose));
    RecordedTotals(s, p, Position(pose), path, pathLength, best);
    assert path[..|path| - 1] == p.path;
  }

  /** A tick that moves the agent by the network's answer to the controller input keeps the loop running. */
  lemma ContinueAfterMove(s: Scene, p: Progress, pose: Pose, path: Path, pathLength: real, best: seq<ExtReal>, newPose: Pose)
    requires Coherent(s) && Running(s, p, pose) && |s.target| > 0
    requires Recorded(s, p, Position(pose), path, pathLength, best)
    requires !Captured(s, Position(pose))
    requires var row := s.net(ControllerInput(s, pose))[0];
      newPose == Advance(s.lib, pose, row[0], row[1])
    ensures Running(s, Progress(path, pathLength + StepPenalty, best, Position(pose)), newPose)
  {
    FollowsAppend(s, p.path, Position(pose));
    RecordedTotals(s, p, Position(pose), path, pathLength, best);
    PoseAtNext(s, |p.path|);
    UncapturedAppend(s, p.path, Position(pose));
  }

  /** Appending a position outside the capture radius keeps a trajectory uncaptured. */
  lemma UncapturedAppend(s: Scene, t: Path, pos: Point)
    requires Uncaptured(s, t) && !Captured(s, pos)
    ensures Uncaptured(s, t + [pos])
  {
    var longer := t + [pos];
    forall k | 0 <= k < |longer| ensures !Captured(s, longer[k]) {
      if k < |t| {
        assert longer[k] == t[k];
      }
    }
  }

  /** A loop stopped by a capture has recorded a run whose path length lacks only the capture correction. */
  lemma HaltedRun(s: Scene, p: Progress)
    requires Coherent(s) && Halted(s, p) && |p.path| <= Duration
    ensures Simulated(s, p.path)
    ensures p.pathLength == Travelled(s.lib, p.path) + StepPenalty * Moves(s, p.path) as real
    ensures s.target == [] ==> Captured(s, Origin)
  {
    FollowsAt(s, p.path, 0);
    if |p.path| > 1 {
      FollowsAt(s, p.path, 1);
    }
  }

  /** A loop that used up the step budget has recorded a run of Duration positions, none of them captured. */
  lemma ExhaustedRun(s: Scene, p: Progress, pose: Pose)
    requires Coherent(s) && Running(s, p, pose) && |p.path| == Duration
    ensures Simulated(s, p.path)
    ensures p.pathLength == Travelled(s.lib, p.path) + StepPenalty * Moves(s, p.path) as real
    ensures !Captured(s, Last(p.path)) && |s.target| > 0
  {
    UncapturedInit(s, p.path);
  }

  /** Dropping the last position keeps a trajectory uncaptured. */
  lemma UncapturedInit(s: Scene, t: Path)
    requires |t| > 0 && Uncaptured(s, t)
    ensures Uncaptured(s, t[..|t| - 1]) && !Captured(s, Last(t))
  {
    var init := t[..|t| - 1];
    forall k | 0 <= k < |init| ensures !Captured(s, init[k]) {
      assert init[k] == t[k];
    }
  }

  /** Ticks that ended with a move: all of them, except the capturing one. */
  function Moves(s: Scene, trajectory: Path): nat
    requires |trajectory| > 0
  {
    if Captured(s, Last(trajectory)) then |trajectory| - 1 else |trajectory|
  }

  /**
   * The path length of a recorded run: the displacements, plus StepPenalty per move, minus
   * the depth of the capture when the run ended inside the radius.
   */
  function FinalPathLength(s: Scene, trajectory: Path): real
    requires |trajectory| > 0
  {
    var raw := Travelled(s.lib, trajectory) + StepPenalty * Moves(s, trajectory) as real;
    var last := Last(trajectory);
    if Captured(s, last) then raw - (s.flag.radius - s.flag.DistanceTo(last.x, last.y)) else raw
  }

  /**
   * The capture correction only shortens the path, by at most the radius (the whole radius when
   * the last position is the flag's centre).
   */
  lemma CaptureCorrectionBounds(s: Scene, trajectory: Path)
    requires Lawful(s.flag.lib) && |trajectory| > 0
    ensures var raw := Travelled(s.lib, trajectory) + StepPenalty * Moves(s, trajectory) as real;
      && FinalPathLength(s, trajectory) <= raw
      && (Captured(s, Last(trajectory)) ==>
            raw - s.flag.radius <= FinalPathLength(s, trajectory) < raw)
      && (!Captured(s, Last(trajectory)) ==> FinalPathLength(s, trajectory) == raw)
  {
    var last := Last(trajectory);
    NormFacts(s.flag.lib, s.flag.xpos - last.x, s.flag.ypos - last.y);
  }

  /** A controller that always answers with the equal motor pair (v, v). */
  ghost predicate ConstantMotors(s: Scene, v: real) {
    forall inp: seq<real> :: s.net(inp) == [[v, v]]
  }

  /** Under constant equal motors the pose at tick k is that of k equal-motor updates. */
  lemma {:induction false} ConstantMotorsPose(s: Scene, v: real, k: nat)
    requires Coherent(s) && |s.target| > 0 && ConstantMotors(s, v)
    ensures PoseAt(s, k) == StraightPose(s.lib, v, k)
  {
    if k > 0 {
      ConstantMotorsPose(s, v, k - 1);
      PoseAtNext(s, k - 1);
      var inp := ControllerInput(s, PoseAt(s, k - 1));
      assert s.net(inp) == [[v, v]];
    }
  }

  /**
   * Under constant equal motors the recorded run lies on the straight line along heading 0, and
   * every tick after the first adds |2*Alpha*v|: n positions have travelled (n - 1) * |2*Alpha*v|.
   */
  lemma ConstantMotorsTravelled(s: Scene, v: real, t: Path)
    requires Coherent(s) && Lawful(s.lib) && |s.target| > 0 && ConstantMotors(s, v)
    requires Follows(s, t) && |t| > 0
    ensures Travelled(s.lib, t) == (|t| - 1) as real * Abs(2.0 * Alpha * v)
    ensures forall k :: 0 <= k < |t| ==> PoseAt(s, k).direction == 0.0
  {
    ConstantMotorsRun(s, v, t);
    StraightTravelled(s.lib, v, t);
  }

  /** A trajectory of equal-motor updates from the origin has travelled |2*Alpha*v| per tick. */
  lemma StraightTravelled(lib: Math, v: real, t: Path)
    requires Lawful(lib) && |t| > 0
    requires OnStraightLine(lib, v, t)
    ensures Travelled(lib, t) == (|t| - 1) as real * Abs(2.0 * Alpha * v)
  {
    StraightRun(lib, v, t);
    UniformStepsTravelled(lib, t, Abs(2.0 * Alpha * v));
  }

  /** Under constant equal motors every recorded position lies on the straight line along heading 0. */
  lemma ConstantMotorsRun(s: Scene, v: real, t: Path)
    requires Coherent(s) && |s.target| > 0 && ConstantMotors(s, v) && Follows(s, t)
    ensures OnStraightLine(s.lib, v, t)
    ensures forall k :: 0 <= k < |t| ==> PoseAt(s, k).direction == 0.0
  {
    forall k | 0 <= k < |t|
      ensures t[k] == Position(StraightPose(s.lib, v, k)) && PoseAt(s, k).direction == 0.0
    {
      FollowsAt(s, t, k);
      ConstantMotorsPose(s, v, k);
      StraightPoseClosedForm(s.lib, v, k);
    }
  }
}
