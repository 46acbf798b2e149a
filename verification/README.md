# Hybrid controller for a Braitenberg agent — a Dafny model

The system evolves a neural controller for a two-wheeled Braitenberg agent in the plane.
A multi-objective path planner proposes candidate paths through a list of checkpoints towards a
goal flag. The hybrid controller picks one (path, weight) pair by Chebyshev scalarisation. A
genetic algorithm then scores genotypes of the network by letting a fresh agent follow that path
for at most 1000 ticks. Each run is scored by its path length and its checkpoint coverage. The
experiment driver derives the network's layer widths from the checkpoints and, afterwards, finds
the evaluation with the highest fitness.

This project models that core:

- `Destination.dfy` (module `Destinations`): the goal flag and its strict capture test.
- `Agent.dfy` (module `Agents`): the agent as a class whose `Sense`, `Move` and `Update` assign
  its fields in the source's order.
- `ControllerFeatures.dfy` (module `ControllerFeatures`): the arithmetic of one evaluation.
  It covers the running checkpoint minima, the coverage score, the travelled length, the
  normalised objectives and fitness, and the path-tracking pieces of the controller input.
- `Episode.dfy` (module `Episodes`): what a run *is*. This is the pose at every tick
  (`PoseAt`), the trajectory a run records (`Simulated`) and the final path length
  (`FinalPathLength`), together with the facts the step loop needs.
- `HybridController.dfy` (module `HybridControllers`): the controller class.
  - The selection loop is a method.
  - The evaluation is a method with a `while` loop, proved against the `Episodes` specification.
  - The evaluation appends to the three history lists.
- `HybridControllerSim.dfy` (module `HybridControllerSim`): the layer-width rule and the search
  for the best evaluation.
- `Wrappers.dfy`, `Numerics.dfy`: `Option`/`Result`; points, and the numeric library as a record
  of function values.

Square root, cosine, sine, `arctan2`, `exp` and π cannot be defined in Dafny. They are the fields
of a `Math` record that every operation receives. `Lawful(lib)` grants only facts that hold over
the reals:
- `sqrt` is non-negative and squares back;
- cos² + sin² = 1;
- `exp` is positive, and at most 1 on non-positive arguments.

Contracts that depend on those facts require `Lawful`. The neural network's forward pass is a
function value `Network` from the input vector to the output matrix. The path planner's Pareto
set, its weight vectors and its reference point are inputs.

Two behaviours of the evaluation deserve a note, and the model follows the code in both:

- **Empty target path.** An empty target path is not rejected up front. The code fails only at
  `np.argmin` of an empty list, and it reaches that call only on a tick whose capture check
  failed. So an evaluation with an empty target path still succeeds when the origin is already
  inside the capture radius. `EvaluatePathFollowing` returns `Failure(EmptyTargetPath)` exactly
  when `targetPath == []` and the origin is not captured. On failure the history is unchanged.
- **The post-loop capture check.** A second `sense` at the agent's *current* pose decides
  whether to correct. After 1000 ticks that pose has moved on from the last recorded position.
  `final_dist`, however, is measured from the last *recorded* position, and the correction needs
  `final_dist < radius`. So the correction applies exactly when the last recorded position is
  inside the radius. `FinalPathLength` states this, and `CorrectForCapture` is proved equal to it.
  The second `sense` still leaves its distance in the flag's `distFromDest`. Afterwards that field
  holds the distance of the last recorded position after a capture, and the distance of the pose
  after the last move when the ticks ran out. `RunEpisode` and `EvaluatePathFollowing` state both.

## Model

| member | source | states |
|---|---|---|
| Numerics.Dist | hybrid_controller.py:113 | `np.linalg.norm(p - q)` is non-negative under a lawful library |
| Destinations.Destination.constructor | Destination.py:16-20 | stores `xpos`, `ypos`, `radius` as given, sets `maxPoints` to 10, and no distance has been computed yet |
| Destinations.Destination.Verdict | Destination.py:22-27 | the verdict is always one of the two constants; it is `DestReached` if and only if the distance to the flag is strictly below the radius |
| Destinations.Destination.DestinationReached | Destination.py:22-27 | writes only `distFromDest`, which then holds the distance just computed; returns the verdict for that distance |
| Destinations.CaptureBySquaredDistance | Destination.py:23-24 | for a non-negative radius, capture holds exactly when the squared distance is below the squared radius |
| Destinations.BoundaryIsNotReached | Destination.py:24-27 | a point at distance exactly `radius` is not captured |
| Agents.MaxDistance | Agent.py:43 | the normalisation range sqrt(100²+100²) is positive |
| Agents.Agent.constructor | Agent.py:17-36 | the agent starts at the origin with heading 0 and zero motors, sensors and velocity, whatever `start` is; its sensor locations are those of that pose |
| Agents.Agent.Sense | Agent.py:42-49 | each activation is 1 − (sensor-to-flag distance)/MaxDistance, unclamped; the verdict is the flag's verdict on the agent's own (x, y); the flag records that distance |
| Agents.Agent.Move | Agent.py:51-54 | the motors are the first output row of the network for the given input; then exactly one update; the sensor readings are untouched |
| Agents.Agent.Update | Agent.py:56-64 | velocity = α(LM+RM); the heading turns by β(RM−LM) first, then the position advances along the new heading; the sensor locations follow the new pose; motors and readings are unchanged |
| Agents.StepLength | Agent.py:57-60 | one update moves the agent by exactly the absolute value of its velocity, whatever the heading |
| Agents.EqualMotorsDriveStraight | Agent.py:57-60 | equal motor values leave the heading unchanged and move the agent 2αv along it |
| Agents.SensorsAtFixedRadius | Agent.py:61-64 | both sensor locations lie at distance 1 from the agent's position |
| Agents.ActivationIsOneIffAtFlag | Agent.py:43-47 | an activation is 1 if and only if the sensor sits on the flag |
| Agents.ActivationIsZeroAtMaxRange | Agent.py:43-47 | a sensor at distance MaxDistance from the flag reads 0 |
| ControllerFeatures.MinWith | hybrid_controller.py:119 | `min(best, d)` is at most both arguments, is finite, and is one of them |
| ControllerFeatures.BestDistance | hybrid_controller.py:103-119 | a checkpoint's running minimum is non-negative or still infinite |
| ControllerFeatures.BestDistances | hybrid_controller.py:103-119 | there is one running minimum per checkpoint, each non-negative or infinite |
| ControllerFeatures.BestDistanceIsMinimum | hybrid_controller.py:117-119 | after at least one tick the best distance is finite, at most the distance from every recorded position, and attained by one of them |
| ControllerFeatures.BestDistanceNonIncreasing | hybrid_controller.py:117-119 | a checkpoint's best distance never increases as positions are recorded |
| ControllerFeatures.BestDistancesAppend | hybrid_controller.py:117-119 | recording one position folds its distance into every checkpoint's minimum |
| ControllerFeatures.CoverageTermRange | hybrid_controller.py:163-165 | each term 1/(1+d) lies in (0, 1] for a measured checkpoint, and is 0 for one never measured |
| ControllerFeatures.CoverageBounds | hybrid_controller.py:163-165 | the checkpoint score lies in [0, number of checkpoints], and is 0 with no checkpoints |
| ControllerFeatures.Travelled | hybrid_controller.py:105-114 | the sum of the per-tick displacements is non-negative |
| ControllerFeatures.FirstTickAddsNothing | hybrid_controller.py:105-114 | the first tick adds 0, because the agent is recorded at the origin where `prev_pos` starts |
| ControllerFeatures.TravelledAppend | hybrid_controller.py:112-114 | each tick adds its displacement from the previous recorded position (the origin before the first) |
| ControllerFeatures.NormalizedTermsInUnitInterval | hybrid_controller.py:171-172 | with a positive reference point and non-negative objectives, `exp(−L/r0)` lies in (0, 1] and `1 − exp(−S/r1)` in [0, 1) |
| ControllerFeatures.FitnessInUnitInterval | hybrid_controller.py:174 | non-negative weights with sum at most 1, applied to terms in [0, 1], give a fitness in [0, 1] |
| ControllerFeatures.PathDistances | hybrid_controller.py:125 | there is one distance per point of the target path |
| ControllerFeatures.ArgMin | hybrid_controller.py:126 | `np.argmin` is a valid index holding the smallest distance, and no earlier index holds one as small |
| ControllerFeatures.MinIsAtArgMin | hybrid_controller.py:126-127 | the path error `min(path_dists)` is the distance at `closest_idx` |
| ControllerFeatures.NextIndex | hybrid_controller.py:129 | the next index is valid: the point after the closest one, or the last point when the closest is last |
| ControllerFeatures.CheckpointFeatures | hybrid_controller.py:134-142 | two entries per checkpoint |
| ControllerFeatures.CheckpointFeaturesLayout | hybrid_controller.py:134-142 | entry 2k is the distance to checkpoint k and entry 2k+1 the bearing to it relative to the heading, in list order |
| Episodes.ControllerInput | hybrid_controller.py:145-151 | the input vector has width 4 + 2·(number of checkpoints) |
| Episodes.ControllerInputLayout | hybrid_controller.py:125-151 | the input vector is: left sensor, right sensor, distance to the closest path point, bearing to the next path point, then a (distance, bearing) pair per checkpoint |
| Episodes.InputAt | hybrid_controller.py:145-153 | the network input at every tick has the width the network expects |
| Episodes.FollowsAt | hybrid_controller.py:107-110 | position k of a recorded trajectory is where the agent stands at the start of tick k |
| Episodes.FollowsAppend | hybrid_controller.py:108-110 | appending the current position keeps the trajectory in step with the ticks |
| Episodes.RecordedTotals | hybrid_controller.py:108-119 | one tick's bookkeeping keeps the best distances and the path length equal to their definitions over the longer trajectory |
| Episodes.PoseAtNext | hybrid_controller.py:153 | the pose of the next tick is the current pose advanced by the network's first output row for the current input |
| Episodes.UncapturedAppend | hybrid_controller.py:121-122 | a tick that did not break adds an uncaptured position |
| Episodes.UncapturedInit | hybrid_controller.py:121-122 | every recorded position before the last is uncaptured |
| Episodes.HaltAfterCapture | hybrid_controller.py:121-122 | the tick whose capture check succeeds ends the loop with a halted state: every earlier position uncaptured, the last one captured, and no step penalty for it |
| Episodes.ContinueAfterMove | hybrid_controller.py:124-156 | a tick that moves keeps the loop invariant: the pose is the next tick's, and the path length gains the displacement plus 1000 |
| Episodes.HaltedRun | hybrid_controller.py:107-122 | a loop stopped by capture recorded a run of 1 to 1000 positions, stopping at the first capture; its length counts 1000 per move; an empty target path is only possible if the origin is captured |
| Episodes.ExhaustedRun | hybrid_controller.py:107-156 | a loop that used all 1000 ticks recorded 1000 positions, none captured, with 1000 added per tick; the target path was non-empty |
| Agents.StraightPoseClosedForm | Agent.py:56-60 | k updates with equal motor values v from the origin keep heading 0 and place the agent at (k·2αv·cos 0, k·2αv·sin 0) |
| Agents.StraightStepLength | Agent.py:56-60 | each equal-motor update moves the agent by exactly abs(2αv) |
| ControllerFeatures.UniformStepsTravelled | hybrid_controller.py:105-114 | a trajectory that starts at the origin and moves the same distance a at every tick has a summed displacement of (n − 1)·a |
| ControllerFeatures.StraightRun | hybrid_controller.py:105-114 | the positions of successive equal-motor updates start at the origin and are abs(2αv) apart |
| Episodes.ConstantMotorsPose | hybrid_controller.py:153 | when the network always answers (v, v), the pose at tick k is that of k equal-motor updates from the origin |
| Episodes.ConstantMotorsRun | hybrid_controller.py:107-154 | under such a network every recorded position lies on the line of heading 0 and every pose keeps heading 0 |
| Episodes.ConstantMotorsTravelled | hybrid_controller.py:105-154 | under such a network a run of n recorded positions has a summed displacement of (n − 1)·abs(2αv), and the heading stays 0 throughout |
| Episodes.CaptureCorrectionBounds | hybrid_controller.py:158-161 | the capture correction never increases the path length; when the last recorded position is captured it removes more than nothing and at most the radius (the whole radius when the last position is the flag's centre); otherwise it changes nothing |
| HybridControllers.HybridController.constructor | hybrid_controller.py:26-47 | stores checkpoints, layers and flag; the index is 0 and the three history lists are empty |
| HybridControllers.HybridController.ChebyshevScalar | hybrid_controller.py:89-93 | the scalar is the larger of the two weighted normalised objectives: at least both, and equal to one |
| HybridControllers.HybridController.SelectBestPath | hybrid_controller.py:58-68 | no selection if and only if there are no weights or no (path, objective) pairs; otherwise the selected pair has the largest scalar over all weights and zipped pairs, and it is the first such pair in weight-major order |
| HybridControllers.HybridController.EvaluatePathFollowing | hybrid_controller.py:95-178 | fails exactly on an empty target path with the origin uncaptured, leaving the history alone; otherwise it records a run of the agent under the network, appends exactly one path, weight and fitness, and returns the weighted sum of exp(−final length/r0) and 1 − exp(−coverage/r1); the flag's cached distance is that of the final pose (the origin on failure) |
| HybridControllers.HybridController.RunEpisode | hybrid_controller.py:97-161 | the step loop records the run the dynamics determine, stopping at the first capture or after 1000 ticks; it returns that run's final path length and best checkpoint distances; the flag's cached distance is that of the last recorded position after a capture, of the pose after the 1000th move otherwise, and of the origin on failure |
| HybridControllers.HybridController.Tick | hybrid_controller.py:107-156 | one pass of the loop: it either moves and keeps the loop invariant, breaks on capture in the halted state, or fails at the first tick on an empty target path, with the origin's distance cached in the flag |
| HybridControllers.HybridController.CorrectForCapture | hybrid_controller.py:158-161 | the corrected length equals the run's final path length, given the post-loop verdict |
| HybridControllers.HybridController.NetworkInputs | hybrid_controller.py:124-151 | the assembled vector is the controller input of the current pose |
| HybridControllers.HybridController.UpdateCheckpointDistances | hybrid_controller.py:116-119 | every checkpoint's best distance becomes min(best, distance from the current position) |
| HybridControllers.HybridController.CheckpointInputs | hybrid_controller.py:133-142 | the extended list is the (distance, bearing) pairs of all checkpoints in order |
| HybridControllers.HybridController.CheckpointScore | hybrid_controller.py:163-165 | the loop sums to the coverage score of the best distances |
| HybridControllerSim.LayersMatchControllerInput | hybrid_controller_sim.py:20 | the input layer width 4 + 2·(number of checkpoints) equals the length of the controller input, and the output layer has the two motors |
| HybridControllerSim.FindIndexOfBestInd | hybrid_controller_sim.py:30-37 | None if and only if no fitness is positive, including an empty history; otherwise a valid index of a positive, maximal fitness, strictly above every earlier one, and a valid index into the recorded paths |

## Left out

- Plotting, `print`, timestamps and file saving (hybrid_controller.py:52-55, 79-85; hybrid_controller_sim.py:41-66), and the module-level script of the driver apart from line 20 and `find_index_of_best_ind`.
- The genetic-algorithm wiring of `train_hybrid_system`: the fitness closure, the gene-size computation, `ea.MGA` and the returned genotype (hybrid_controller.py:70-77, 87). The modules `fnn`, `ea` and `moea` are not part of this model. The planner's paths, objectives, weights and reference point are inputs, and the network is a function value.
- The planner construction in the constructor (hybrid_controller.py:30-38), and the fields `num_generations`, `cycles`, `final_checkpoint_score` and `final_path_score`, which the core never reads.
- The network object `self.nn` (hybrid_controller.py:41, 71, 153): its construction from `layers` and its `setParams` are not modelled. The network in use is the `net` argument of `EvaluatePathFollowing` and `RunEpisode`, one function value per genotype.
- `DrivesMotors` (ControllerFeatures.dfy) assumes that for every input of the controller's width, the network's first output row holds exactly two values. Agent.py:53 raises on any other row, and the model does not represent that error.
- The stored `layers` of `HybridController` is not tied to the network's input width. Only `HybridControllerSim.LayersMatchControllerInput` relates the width rule of hybrid_controller_sim.py:20 to the controller input. A mismatched `layers` would make numpy raise inside the forward pass, and the model does not represent that error.
- `Agent.distanceBetweenTwoPoints`: it is unused by the core.
- Floating point: all arithmetic is over the reals. IEEE rounding, overflow, `inf` arithmetic and NaN are not modelled. `float('inf')` for the running minima is `ExtReal.Infinity`, and `float('-inf')` for the best scalar is `None`.
- The transcendental functions are uninterpreted beyond `Lawful`. Properties such as atan2 ranges or exp monotonicity beyond 1 are not stated.
- The agent's `alpha`, `beta` and `radius` are module constants and `sensOffset` is π/4. The source stores them as fields it never reassigns.
- `Agents.Agent.Update` computes the new pose through `Advance` and assigns it as one step. The intermediate states between the source's field assignments are not observable.
- The step loop's `for … break` is a `while` loop with a `reached` flag. An empty target path ends the run through `Failure`, where Python raises.
- `ControllerFeatures.FitnessInUnitInterval` assumes non-negative weights with sum at most 1. The planner's weight vectors are not part of this model, so the source gives no such guarantee.
- `ControllerFeatures.NormalizedTermsInUnitInterval` assumes a positive reference point and a non-negative path length. Neither is guaranteed by the source. When the origin is already inside the capture radius, the run has no move and no displacement, and the correction makes the final path length negative. `exp` of it then exceeds 1.
- `HybridControllers.HybridController.ChebyshevScalar` requires both coordinates of the reference point to be non-zero. Python would divide by zero otherwise (hybrid_controller.py:91-92).
- `HybridControllers.HybridController.SelectBestPath` requires the same, because it calls `ChebyshevScalar` for every weight and pair.
- `HybridControllers.HybridController.EvaluatePathFollowing` requires the same, through `Configured()`. Python would divide by zero otherwise (hybrid_controller.py:171-172).
