# Two-link planar arm: kinematics and trajectory engine

This project models the core of `robot.js`, the browser simulator of a
two-link planar robot arm, and proves properties of the model in Dafny. The
core has four parts:

- **Workspace validator** (`isReachable`): decides whether a target point lies
  in the annulus the two links can sweep. It compares the squared distance with
  the squared inner radius |l1 − l2| and the squared outer radius l1 + l2.
- **Inverse-kinematics solver** (`calculateIK`): uses the law of cosines and
  always returns the same elbow branch, or no answer.
- **Trajectory generator** (`generatePath` with `easingBezier`): produces 101
  samples from the current pose to the target pose. Each sample has a
  timestamp, smoothstep-eased joint angles and the end-effector position that
  forward kinematics gives for those angles.
- **Move transition** (`moveRobot`, `goHome`): updates the `robot` record (pose,
  recorded position, end-effector trace). Every refusal leaves it unchanged.

The modules follow that structure:

- `Numeric`: the reals helpers and the math library.
- `Arm`: the configuration, points, poses and forward kinematics.
- `Workspace`: the validator.
- `InverseKinematics`: the solver.
- `Trajectory`: the path generator.
- `RobotState`: the robot record and the move commands.
- `Optional`: the `Option` type.

The model works on exact reals, not on floating point.

- **Math library.** `Math.sqrt`, `Math.atan2`, `Math.acos`, `Math.cos` and
  `Math.sin` are not computed. They are fields of a `Transcendental` record
  that each operation takes as a parameter. The predicate `Numeric.Lawful`
  states the only facts the proofs use:
  - the square root of a non-negative number is non-negative and squares back
    to it;
  - `atan2` lies in [−π, π];
  - `acos` maps [−1, 1] into [0, π];
  - `cos` and `sin` lie in [−1, 1].
- **Configuration.** The link lengths are a `Config` parameter. `Arm.RobotConfig`
  holds the shipped values: links of 0.12, gripper 0.02, home point (0.14, 0.14).
  `Numeric.Pi` is a decimal stand-in for π: the 16 digits the platform prints,
  slightly below both `Math.PI` and π itself.
- **Move input.** The two text fields of a move arrive already parsed, as an
  `Option<Point>`. `None` stands for the case where either field is not a number.

Two points where the code decides and the model follows it:

- **Recorded position.** After a move the robot records the typed target as
  its position, not the forward-kinematics point of the solved pose. The
  start-up record likewise holds the pose (π/2, 0) next to the position
  (0.14, 0.14).
- **Solver guards.** The solver keeps its checks `|cosBeta| > 1` and
  `|cosAlpha| > 1` after the range check. `InverseKinematics.CosinesInUnitRange`
  proves that in exact arithmetic neither can fire once the range check has
  passed. They only guard against rounding, so a move can never end in
  `NoSolution` under lawful math functions.

## Model

| member | source | states |
|---|---|---|
| Workspace.IsReachable | robot.js:126-134 | A point is accepted exactly when its squared distance from the shoulder lies between (l1 − l2)² and (l1 + l2)², both bounds included. |
| Workspace.ReachableIffDistanceInAnnulus | robot.js:126-134 | The squared test accepts exactly the points whose distance lies between \|l1 − l2\| and l1 + l2, because radii and distance are non-negative. |
| Workspace.ReachabilityBoundary | robot.js:126-134 | With links of 0.12, (0.24, 0), the shoulder (0, 0) and the home point (0.14, 0.14) are accepted, and (0.2401, 0) is rejected. |
| Workspace.EqualLinksGiveDisk | robot.js:126-134 | With equal links the workspace is the full disk of radius l1 + l2. |
| Arm.ForwardWithinReach | robot.js:176-177 | The forward-kinematics point of any pose lies within l1 + l2 of the shoulder on each axis. |
| InverseKinematics.CalculateIK | robot.js:92-123 | An answer is returned exactly when the range check passes and both cosines lie in [−1, 1]. The answer gives theta1 = atan2(y, x) − acos(cosBeta) and theta2 = π − acos(cosAlpha). |
| InverseKinematics.CosinesInUnitRange | robot.js:107-118 | For any distance that passes the range check, both law-of-cosines values lie in [−1, 1], so neither guard can reject. |
| InverseKinematics.WithinLinksIffReachable | robot.js:96-104 | The solver's square-root range check and the validator's squared check accept the same points. |
| InverseKinematics.SolverAgreesWithValidator | robot.js:92-134 | The solver returns a pose exactly for the points the validator accepts. |
| InverseKinematics.ElbowBranch | robot.js:107-120 | Every solution has theta2 in [0, π] (one fixed elbow branch) and theta1 in [−2π, π]. |
| InverseKinematics.CalculateIKAsWritten | robot.js:92-123 | The solver as written answers only after the range check passes. Its shoulder angle is not a number only at distance 0. |
| InverseKinematics.OriginYieldsNaN | robot.js:105-120 | With links of 0.12 the shoulder point is accepted, yet the solver as written returns a shoulder angle that is not a number there. |
| InverseKinematics.AsWrittenAgreesOffOrigin | robot.js:92-123 | Away from the shoulder point, the solver as written and the corrected solver refuse the same points and return the same angles. |
| Trajectory.Ease | robot.js:155-157 | The easing fixes 0 and 1 and maps [0, 1] into [0, 1]. |
| Trajectory.EaseMonotone | robot.js:155-157 | The easing is non-decreasing on [0, 1]. |
| Trajectory.LerpBetween | robot.js:172-173 | An angle interpolated with progress in [0, 1] lies between the start angle and the target angle. |
| Trajectory.LerpMonotone | robot.js:172-173 | Interpolated angles move monotonically towards the target as progress grows. |
| Trajectory.Duration | robot.js:160-163 | The duration is at least 15, and at least 15 + 10 × each joint's move. It equals one of those two values. It equals 15 exactly when the move is zero. |
| Trajectory.DurationExamples | robot.js:160-163 | A zero move lasts 15. A move of one radian on one joint, with the other moving no further, lasts 25. |
| Trajectory.GeneratePath | robot.js:150-187 | The path has five parallel sequences of 101 entries. Each (x[i], y[i]) is the forward-kinematics point of (theta1[i], theta2[i]). |
| Trajectory.PathEndpoints | robot.js:165-173 | Sample 0 has exactly the start angles and sample 100 exactly the target angles. |
| Trajectory.PathTiming | robot.js:160-167 | The first timestamp is 0 and the last is the move's duration. |
| Trajectory.PathAt | robot.js:165-173 | Sample i carries the eased pose of step i, timed at i/100 of the duration. |
| Trajectory.JointsStayBetween | robot.js:165-173 | Every sampled angle lies between that joint's start and target angles. |
| Trajectory.JointsMonotone | robot.js:165-173 | Each joint moves monotonically from its start angle towards its target, never backwards. |
| Trajectory.TimeStrictlyIncreasing | robot.js:160-167 | Timestamps strictly increase along the 101 samples. |
| Trajectory.ZeroMoveStandsStill | robot.js:150-187 | A move to the current pose lasts 15. Every sample keeps the pose and its end-effector point. |
| Trajectory.PathWithinReach | robot.js:176-177 | With lawful math functions, every sampled end-effector point lies within l1 + l2 of the shoulder on each axis. |
| Trajectory.BuildPath | robot.js:165-184 | The loop that appends one sample per step builds exactly the generated path. |
| RobotState.PathPoints | robot.js:332 | The trace pairs the path's x and y sequences, point by point, with one point per sample. |
| RobotState.Trace | robot.js:331-332 | The trace of a move has 101 points, each the forward-kinematics point of the eased pose of its step. |
| RobotState.MoveRobot | robot.js:309-341 | Each refusal leaves the robot unchanged. Invalid input is reported exactly when the input is missing. Out of workspace is reported exactly when a given point is rejected by the validator. No solution is reported exactly when a given point is accepted but the solver returns no pose, so every other present, reachable point is moved to. A success stores the solver's pose, the input point as the position, and the trace from the old pose to the new. |
| RobotState.GoHome | robot.js:343-347 | Going home is a move to the configured home point, so it never reports invalid input. |
| RobotState.MoveSucceedsIffReachable | robot.js:318-329 | With lawful math functions a move never ends in NoSolution. It succeeds exactly when the input is present and reachable. |
| RobotState.MovedTraceShape | robot.js:331-336 | After a success the trace has 101 points. It starts at the old pose's end-effector point and ends at the new pose's. |
| RobotState.GoHomeSucceeds | robot.js:343-347 | The shipped arm reaches its home point from any state and records it as its position. |
| RobotState.HomeFromStart | robot.js:10-15 | From the start-up record, going home succeeds with theta2 in [0, π]. The trace leaves from the pose (π/2, 0) and arrives at the solved pose. |
| RobotState.FarTargetRefused | robot.js:318-321 | A move to (10, 10) reports out of workspace and leaves the robot unchanged. |
| RobotState.RepeatedMoveStandsStill | robot.js:309-341 | Repeating a successful move keeps pose and position. Its trace stands still at the current end-effector point. |

## Left out

- Page set-up and event listeners (robot.js:22-44, 364): browser glue.
- The `load` start-up hook (robot.js:366-373): after a timer, it sets `robot.path` to the trace of a zero move from the start-up pose (π/2, 0). That is the standing-still trace `Trajectory.ZeroMoveStandsStill` describes, applied to (π/2, 0). `RobotState.InitialRobot`, with its empty path, is the record before this hook runs. The hook is timer and page-load wiring, so it is not a command of the model.
- Chart configuration and updates (robot.js:47-89, 299-307): a foreign charting library.
- Canvas drawing, alerts and the text display with `toFixed` (robot.js:190-296, 349-362): presentation only. The model reports the alert as the `MoveStatus` of the outcome.
- `checkInput` and the `parseFloat`/`isNaN` parsing (robot.js:137-140, 310-316): the input arrives as `Option<Point>`.
- Floating-point rounding and exact values of the trigonometric functions. The model uses exact reals and only the range facts of the math library, so no forward/inverse kinematics round trip is stated.
- Arm.ForwardWithinReach: states a bound per axis, not the Euclidean bound √(x² + y²) ≤ l1 + l2, because cosine and sine are only known to lie in [−1, 1], not to satisfy cos² + sin² = 1.
- InverseKinematics.CalculateIK: differs from the program at the shoulder point with equal links, where it uses the corrected cosine (see Findings). Everywhere else it agrees with the program, as `InverseKinematics.AsWrittenAgreesOffOrigin` states.
- RobotState.MoveRobot: differs from the program at (0, 0) with equal links. There the program stores a shoulder angle that is not a number. `generatePath` then gives a duration and samples that are not numbers, so the stored trace is not numbers either. The model's move uses the corrected solver and stores its finite pose and a finite trace.

## Findings

| source | as written | input that shows it | evidently intended | confidence | as-written member | corrected member |
|---|---|---|---|---|---|---|
| robot.js:105-114 | With l1 == l2 the range check accepts the shoulder point (distance 0). cosBeta is then 0 / 0, which is NaN. The guard `Math.abs(cosBeta) > 1` is false for NaN, so theta1 = atan2(0, 0) − acos(NaN) is NaN and `moveRobot` stores it. | moveRobot with x = 0, y = 0 under the shipped links 0.12 and 0.12 | A finite pose for every accepted point. Here cosBeta takes its limit 0 as the distance shrinks to 0, which with theta2 = π folds the arm back onto the shoulder. | not executed | InverseKinematics.OriginYieldsNaN | InverseKinematics.SolverAgreesWithValidator |
