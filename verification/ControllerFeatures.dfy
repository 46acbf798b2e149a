/**
 * The arithmetic of one evaluation of the hybrid controller: running checkpoint minima, the
 * coverage score, the travelled length, the two normalised objectives and their weighted sum,
 * and the pieces of the controller input (path error, path angle, checkpoint features).
 */
module ControllerFeatures {
  import opened Numerics
  import opened Agents

  type Weight = (real, real)
  /** (path distance, checkpoint score), as the planner reports it. */
  type Objective = (real, real)
  type Path = seq<Point>

  /** Step budget of one evaluation. */
  const Duration: nat := 1000
  /** Added to the path length on every tick that ends with a move. */
  const StepPenalty: real := 1000.0

  /** Controller input width: two sensors, path error, path angle, then (distance, bearing) per checkpoint. */
  function InputWidth(checkpointCount: nat): nat { 4 + 2 * checkpointCount }

  /** The network answers every input of the right width with a first row of two motor values. */
  ghost predicate DrivesMotors(net: Network, width: nat) {
    forall v: seq<real> :: |v| == width ==> |net(v)| > 0 && |net(v)[0]| == 2
  }

  function Last<T>(s: seq<T>): T
    requires |s| > 0
  {
    s[|s| - 1]
  }

  // ---------------------------------------------------------------------------------------
  // Checkpoint bookkeeping

  /** A running minimum that starts at float('inf'). */
  datatype ExtReal = Infinity | Finite(value: real)

  predicate NonNegative(e: ExtReal) { e.Infinity? || 0.0 <= e.value }

  /** a <= b in the extended order. */
  predicate AtMost(a: ExtReal, b: ExtReal) { b.Infinity? || (a.Finite? && a.value <= b.value) }

  /** Python's min(best, d): d replaces best only when it is strictly smaller. */
  function MinWith(best: ExtReal, d: real): (r: ExtReal)
    ensures AtMost(r, best) && r.Finite? && r.value <= d
    ensures r == best || r == Finite(d)
  {
    if best.Infinity? || d < best.value then Finite(d) else best
  }

  /** The smallest distance from any recorded position to the checkpoint; Infinity before the first. */
  function BestDistance(lib: Math, trajectory: seq<Point>, checkpoint: Point): (r: ExtReal)
    ensures Lawful(lib) ==> NonNegative(r)
  {
    if trajectory == [] then Infinity
    else MinWith(BestDistance(lib, trajectory[..|trajectory| - 1], checkpoint),
                 Dist(lib, Last(trajectory), checkpoint))
  }

  function BestDistances(lib: Math, trajectory: seq<Point>, checkpoints: seq<Point>): (r: seq<ExtReal>)
    ensures |r| == |checkpoints|
    ensures Lawful(lib) ==> forall i :: 0 <= i < |r| ==> NonNegative(r[i])
  {
    seq(|checkpoints|, i requires 0 <= i < |checkpoints| => BestDistance(lib, trajectory, checkpoints[i]))
  }

  /** After at least one tick the best distance is the minimum over the recorded positions, and is attained. */
  lemma {:induction false} BestDistanceIsMinimum(lib: Math, trajectory: seq<Point>, checkpoint: Point)
    requires |trajectory| > 0
    ensures BestDistance(lib, trajectory, checkpoint).Finite?
    ensures forall k :: 0 <= k < |trajectory| ==>
              BestDistance(lib, trajectory, checkpoint).value <= Dist(lib, trajectory[k], checkpoint)
    ensures exists k :: 0 <= k < |trajectory| &&
              BestDistance(lib, trajectory, checkpoint).value == Dist(lib, trajectory[k], checkpoint)
  {
    var n := |trajectory|;
    var init := trajectory[..n - 1];
    var b := BestDistance(lib, trajectory, checkpoint);
    var d := Dist(lib, trajectory[n - 1], checkpoint);
    if n == 1 {
      assert init == [];
      assert BestDistance(lib, init, checkpoint) == Infinity;
      assert b.value == d;
    } else {
      BestDistanceIsMinimum(lib, init, checkpoint);
      var bi := BestDistance(lib, init, checkpoint);
      var k :| 0 <= k < n - 1 && bi.value == Dist(lib, init[k], checkpoint);
      assert init[k] == trajectory[k];
      forall j | 0 <= j < n ensures b.value <= Dist(lib, trajectory[j], checkpoint) {
        if j < n - 1 {
          assert init[j] == trajectory[j];
        }
      }
      if b.value == d {
        assert b.value == Dist(lib, trajectory[n - 1], checkpoint);
      } else {
        assert b.value == Dist(lib, trajectory[k], checkpoint);
      }
    }
  }

  /** Recording more positions never increases a checkpoint's best distance. */
  lemma {:induction false} BestDistanceNonIncreasing(lib: Math, trajectory: seq<Point>, n: nat, checkpoint: Point)
    requires n <= |trajectory|
    ensures AtMost(BestDistance(lib, trajectory, checkpoint), BestDistance(lib, trajectory[..n], checkpoint))
  {
    if n == |trajectory| {
      assert trajectory[..n] == trajectory;
    } else {
      var init := trajectory[..|trajectory| - 1];
      BestDistanceNonIncreasing(lib, init, n, checkpoint);
      assert init[..n] == trajectory[..n];
    }
  }

  /** One checkpoint's share of the coverage score: 1/(1+d), and 0 for a checkpoint never measured. */
  function CoverageTerm(e: ExtReal): real
    requires NonNegative(e)
  {
    if e.Infinity? then 0.0 else 1.0 / (1.0 + e.value)
  }

  /** The checkpoint score: the sum of the coverage terms, in checkpoint order. */
  function Coverage(es: seq<ExtReal>): real
    requires forall i :: 0 <= i < |es| ==> NonNegative(es[i])
  {
    if es == [] then 0.0 else Coverage(es[..|es| - 1]) + CoverageTerm(Last(es))
  }

  lemma CoverageTermRange(e: ExtReal)
    requires NonNegative(e)
    ensures 0.0 <= CoverageTerm(e) <= 1.0
    ensures e.Finite? ==> 0.0 < CoverageTerm(e)
  {
    if e.Finite? {
      var t := 1.0 / (1.0 + e.value);
      assert t * (1.0 + e.value) == 1.0;
      assert 0.0 < t;
      assert t <= t * (1.0 + e.value);
    }
  }

  /** The checkpoint score lies between 0 and the number of checkpoints. */
  lemma {:induction false} CoverageBounds(es: seq<ExtReal>)
    requires forall i :: 0 <= i < |es| ==> NonNegative(es[i])
    ensures 0.0 <= Coverage(es) <= |es| as real
  {
    if es != [] {
      CoverageBounds(es[..|es| - 1]);
      CoverageTermRange(Last(es));
    }
  }

  // ---------------------------------------------------------------------------------------
  // Path length and fitness

  /** Where the agent was before tick k: the origin before the first tick. */
  function Previous(trajectory: seq<Point>, k: nat): Point
    requires k < |trajectory|
  {
    if k == 0 then Origin else trajectory[k - 1]
  }

  /** Sum of the per-tick displacements np.linalg.norm(current_pos - prev_pos). */
  function Travelled(lib: Math, trajectory: seq<Point>): (r: real)
    ensures Lawful(lib) ==> 0.0 <= r
  {
    if trajectory == [] then 0.0
    else
      var k := |trajectory| - 1;
      Travelled(lib, trajectory[..k]) + Dist(lib, trajectory[k], Previous(trajectory, k))
  }

  /** The first tick adds nothing: the agent is recorded at the origin and prev_pos starts there. */
  lemma FirstTickAddsNothing(lib: Math)
    requires Lawful(lib)
    ensures Travelled(lib, [Origin]) == 0.0
  {
    NormFacts(lib, 0.0, 0.0);
    assert [Origin][..0] == [];
  }

  /** Recording one more position adds its displacement from the previous one. */
  lemma TravelledAppend(lib: Math, trajectory: seq<Point>, pos: Point)
    ensures Travelled(lib, trajectory + [pos])
      == Travelled(lib, trajectory) + Dist(lib, pos, if trajectory == [] then Origin else Last(trajectory))
  {
    assert (trajectory + [pos])[..|trajectory|] == trajectory;
  }

  /** How far the k-th recorded position lies from the one before it. */
  function Displacement(lib: Math, t: Path, k: nat): real
    requires 0 < k < |t|
  {
    Dist(lib, t[k], t[k - 1])
  }

  /** A non-empty trajectory that starts at the origin and then moves by `a` each tick. */
  ghost predicate UniformRun(lib: Math, t: Path, a: real) {
    && |t| > 0 && t[0] == Origin && Dist(lib, Origin, Origin) == 0.0
    && forall k :: 0 < k < |t| ==> Displacement(lib, t, k) == a
  }

  /** A trajectory that starts at the origin and moves by `a` each tick has travelled (n - 1) * a. */
  lemma {:induction false} UniformStepsTravelled(lib: Math, t: Path, a: real)
    requires UniformRun(lib, t, a)
    ensures Travelled(lib, t) == (|t| - 1) as real * a
    decreases |t|
  {
    var n := |t|;
    var init := t[..n - 1];
    if n == 1 {
      assert init == [];
    } else {
      forall k | 0 < k < |init| ensures Displacement(lib, init, k) == a {
        assert init[k] == t[k] && init[k - 1] == t[k - 1];
        assert Displacement(lib, t, k) == a;
      }
      UniformStepsTravelled(lib, init, a);
      var m := (n - 2) as real;
      assert Travelled(lib, t) == Travelled(lib, init) + Displacement(lib, t, n - 1);
      assert m * a + a == (m + 1.0) * a;
    }
  }

  /** A trajectory of equal-motor updates from the origin moves by |2*Alpha*v| each tick. */
  lemma StraightRun(lib: Math, v: real, t: Path)
    requires Lawful(lib) && |t| > 0
    requires OnStraightLine(lib, v, t)
    ensures UniformRun(lib, t, Abs(2.0 * Alpha * v))
  {
    StraightSteps(lib, v, t);
    StraightStart(lib, v, t);
  }

  /** An equal-motor trajectory is recorded first at the origin, which is at distance 0 from itself. */
  lemma StraightStart(lib: Math, v: real, t: Path)
    requires Lawful(lib) && |t| > 0
    requires OnStraightLine(lib, v, t)
    ensures t[0] == Origin && Dist(lib, Origin, Origin) == 0.0
  {
    assert t[0] == Position(StraightPose(lib, v, 0));
    NormFacts(lib, 0.0, 0.0);
  }

  /** Consecutive positions of an equal-motor trajectory are |2*Alpha*v| apart. */
  lemma StraightSteps(lib: Math, v: real, t: Path)
    requires Lawful(lib)
    requires OnStraightLine(lib, v, t)
    ensures forall k :: 0 < k < |t| ==> Displacement(lib, t, k) == Abs(2.0 * Alpha * v)
  {
    forall k | 0 < k < |t| ensures Displacement(lib, t, k) == Abs(2.0 * Alpha * v) {
      var j: nat := k - 1;
      assert t[j + 1] == Position(StraightPose(lib, v, j + 1));
      assert t[j] == Position(StraightPose(lib, v, j));
      StraightStepLength(lib, v, j);
    }
  }

  /** Recording one more position folds its distance into every running minimum. */
  lemma BestDistancesAppend(lib: Math, trajectory: seq<Point>, pos: Point, checkpoints: seq<Point>)
    ensures forall i :: 0 <= i < |checkpoints| ==>
      BestDistances(lib, trajectory + [pos], checkpoints)[i]
        == MinWith(BestDistances(lib, trajectory, checkpoints)[i], Dist(lib, pos, checkpoints[i]))
  {
    assert (trajectory + [pos])[..|trajectory|] == trajectory;
  }

  function NormalizedLength(lib: Math, pathLength: real, reference: real): real
    requires reference != 0.0
  {
    lib.exp(-pathLength / reference)
  }

  function NormalizedCoverage(lib: Math, score: real, reference: real): real
    requires reference != 0.0
  {
    1.0 - lib.exp(-score / reference)
  }

  /** The weighted sum (not the Chebyshev form) of the two normalised objectives. */
  function Fitness(weight: Weight, normLength: real, normCoverage: real): real {
    weight.0 * normLength + weight.1 * normCoverage
  }

  /** With a positive reference point and non-negative objectives, both normalised terms are in [0, 1]. */
  lemma NormalizedTermsInUnitInterval(lib: Math, pathLength: real, score: real, reference: (real, real))
    requires Lawful(lib) && 0.0 < reference.0 && 0.0 < reference.1
    requires 0.0 <= pathLength && 0.0 <= score
    ensures 0.0 < NormalizedLength(lib, pathLength, reference.0) <= 1.0
    ensures 0.0 <= NormalizedCoverage(lib, score, reference.1) < 1.0
  {
    var a := pathLength / reference.0;
    var b := score / reference.1;
    assert a * reference.0 == pathLength;
    assert b * reference.1 == score;
    assert 0.0 <= a && 0.0 <= b;
    assert lib.exp(-a) <= 1.0 && 0.0 < lib.exp(-b);
  }

  /** Convex weights and normalised terms in [0, 1] give a fitness in [0, 1]. */
  lemma FitnessInUnitInterval(weight: Weight, normLength: real, normCoverage: real)
    requires 0.0 <= weight.0 && 0.0 <= weight.1 && weight.0 + weight.1 <= 1.0
    requires 0.0 <= normLength <= 1.0 && 0.0 <= normCoverage <= 1.0
    ensures 0.0 <= Fitness(weight, normLength, normCoverage) <= 1.0
  {
    var (w0, w1) := weight;
    ScaledAtMost(w0, normLength);
    ScaledAtMost(w1, normCoverage);
    var p, q := w0 * normLength, w1 * normCoverage;
    assert p <= w0 && q <= w1;
    assert p + q <= w0 + w1;
  }

  lemma ScaledAtMost(w: real, t: real)
    requires 0.0 <= w && 0.0 <= t <= 1.0
    ensures 0.0 <= w * t <= w
  {
    assert w * t <= w * 1.0;
  }

  // ---------------------------------------------------------------------------------------
  // Path tracking and the controller input

  /** Distances from the current position to every point of the target path. */
  function PathDistances(lib: Math, pos: Point, target: Path): (r: seq<real>)
    ensures |r| == |target|
  {
    seq(|target|, k requires 0 <= k < |target| => Dist(lib, pos, target[k]))
  }

  /** np.argmin: the first index holding the smallest value. */
  function ArgMin(ds: seq<real>): (r: nat)
    requires |ds| > 0
    ensures r < |ds|
    ensures forall j :: 0 <= j < |ds| ==> ds[r] <= ds[j]
    ensures forall j :: 0 <= j < r ==> ds[r] < ds[j]
  {
    if |ds| == 1 then 0
    else
      var k := ArgMin(ds[..|ds| - 1]);
      assert forall j :: 0 <= j < |ds| - 1 ==> ds[..|ds| - 1][j] == ds[j];
      if Last(ds) < ds[k] then |ds| - 1 else k
  }

  /** Python's min over a non-empty list. */
  function MinOf(ds: seq<real>): real
    requires |ds| > 0
  {
    if |ds| == 1 then ds[0]
    else
      var m := MinOf(ds[..|ds| - 1]);
      if Last(ds) < m then Last(ds) else m
  }

  /** The path error min(path_dists) is the distance at the closest index np.argmin(path_dists). */
  lemma {:induction false} MinIsAtArgMin(ds: seq<real>)
    requires |ds| > 0
    ensures MinOf(ds) == ds[ArgMin(ds)]
  {
    if |ds| > 1 {
      var init := ds[..|ds| - 1];
      MinIsAtArgMin(init);
      assert init[ArgMin(init)] == ds[ArgMin(init)];
    }
  }

  /** min(closest_idx + 1, len(target_path) - 1): the point after the closest, or the last one. */
  function NextIndex(closest: nat, n: nat): (r: nat)
    requires closest < n
    ensures r < n
    ensures closest < n - 1 ==> r == closest + 1
    ensures closest == n - 1 ==> r == closest
  {
    if closest + 1 <= n - 1 then closest + 1 else n - 1
  }

  /** arctan2 of the vector from `from` to `to`, relative to the agent's heading. */
  function Bearing(lib: Math, from: Point, to: Point, direction: real): real {
    lib.atan2(to.y - from.y, to.x - from.x) - direction
  }

  /** The (distance, bearing) pairs of all checkpoints, in list order. */
  function CheckpointFeatures(lib: Math, pos: Point, direction: real, checkpoints: seq<Point>): (r: seq<real>)
    ensures |r| == 2 * |checkpoints|
  {
    if checkpoints == [] then []
    else
      var n := |checkpoints| - 1;
      CheckpointFeatures(lib, pos, direction, checkpoints[..n])
        + [Dist(lib, pos, checkpoints[n]), Bearing(lib, pos, checkpoints[n], direction)]
  }

  lemma {:induction false} CheckpointFeaturesLayout(lib: Math, pos: Point, direction: real, checkpoints: seq<Point>)
    ensures forall k :: 0 <= k < |checkpoints| ==>
      && CheckpointFeatures(lib, pos, direction, checkpoints)[2 * k] == Dist(lib, pos, checkpoints[k])
      && CheckpointFeatures(lib, pos, direction, checkpoints)[2 * k + 1] == Bearing(lib, pos, checkpoints[k], direction)
  {
    if checkpoints != [] {
      var n := |checkpoints| - 1;
      var init := checkpoints[..n];
      CheckpointFeaturesLayout(lib, pos, direction, init);
      forall k | 0 <= k < n ensures init[k] == checkpoints[k] { }
    }
  }
}
