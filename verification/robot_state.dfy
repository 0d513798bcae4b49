/** The robot's state and the two commands that change it: a move to a typed
    target and a move to the home point. */
module RobotState {
  import opened Numeric
  import opened Optional
  import opened Arm
  import opened Workspace
  import opened InverseKinematics
  import opened Trajectory

  /** The arm's current pose, the target point it was last sent to, and the
      end-effector trace of its last move. */
  datatype Robot = Robot(theta1: real, theta2: real, pos: Point, path: seq<Point>) {
    function Pose(): Joints {
      Joints(theta1, theta2)
    }
  }

  /** The state the program starts in: upper arm vertical, elbow straight,
      position recorded as the home point, no trace yet. */
  const InitialRobot: Robot := Robot(Pi / 2.0, 0.0, Point(0.14, 0.14), [])

  /** Why a move did or did not happen; each failure shows its own alert. */
  datatype MoveStatus = Moved | InvalidInput | OutOfWorkspace | NoSolution

  datatype MoveOutcome = MoveOutcome(robot: Robot, status: MoveStatus)

  /** The trace of a path: its x and y sequences paired up sample by sample. */
  function PathPoints(p: Path): (pts: seq<Point>)
    requires |p.x| <= |p.y|
    ensures |pts| == |p.x|
    ensures forall i :: 0 <= i < |pts| ==> pts[i] == Point(p.x[i], p.y[i])
  {
    seq(|p.x|, i requires 0 <= i < |p.x| => Point(p.x[i], p.y[i]))
  }

  /** The trace of the path the arm follows from pose `from` to pose `to`. */
  function Trace(cfg: Config, m: Transcendental, from: Joints, to: Joints): (pts: seq<Point>)
    ensures |pts| == SampleCount
    ensures forall i :: 0 <= i < SampleCount ==> pts[i] == Forward(cfg, m, Sample(from, to, i))
  {
    var p := GeneratePath(cfg, m, from, to);
    forall i | 0 <= i < SampleCount
      ensures Joints(p.theta1[i], p.theta2[i]) == Sample(from, to, i)
    {
      PathAt(cfg, m, from, to, i);
    }
    PathPoints(p)
  }

  /** A move command. `input` is the parsed pair of coordinates, None when
      either field is not a number. The move is refused, leaving the robot as
      it was, when the input is invalid, the point is outside the workspace,
      or the solver finds no pose; otherwise the robot takes the solved pose,
      records the input as its position and keeps the trace from its old pose. */
  function MoveRobot(cfg: Config, m: Transcendental, robot: Robot, input: Option<Point>): (r: MoveOutcome)
    requires cfg.Valid()
    ensures r.status != Moved ==> r.robot == robot
    ensures r.status == InvalidInput <==> input.None?
    ensures r.status == OutOfWorkspace <==> input.Some? && !IsReachable(cfg, input.value.x, input.value.y)
    ensures r.status == NoSolution <==>
      input.Some? && IsReachable(cfg, input.value.x, input.value.y)
      && CalculateIK(cfg, m, input.value.x, input.value.y).None?
    ensures r.status == Moved ==>
      && input.Some?
      && IsReachable(cfg, input.value.x, input.value.y)
      && CalculateIK(cfg, m, input.value.x, input.value.y) == Some(r.robot.Pose())
      && r.robot.pos == input.value
      && r.robot.path == Trace(cfg, m, robot.Pose(), r.robot.Pose())
  {
    if input.None? then
      MoveOutcome(robot, InvalidInput)
    else
      var x, y := input.value.x, input.value.y;
      if !IsReachable(cfg, x, y) then
        MoveOutcome(robot, OutOfWorkspace)
      else
        var ik := CalculateIK(cfg, m, x, y);
        if ik.None? then
          MoveOutcome(robot, NoSolution)
        else
          var path := GeneratePath(cfg, m, robot.Pose(), ik.value);
          var moved := Robot(ik.value.theta1, ik.value.theta2, Point(x, y), PathPoints(path));
          assert PathPoints(path) == Trace(cfg, m, robot.Pose(), ik.value);
          MoveOutcome(moved, Moved)
  }

  /** The home command: a move to the configured home point. */
  function GoHome(cfg: Config, m: Transcendental, robot: Robot): (r: MoveOutcome)
    requires cfg.Valid()
    ensures r == MoveRobot(cfg, m, robot, Some(cfg.home))
    ensures r.status != InvalidInput
  {
    MoveRobot(cfg, m, robot, Some(cfg.home))
  }

  /** With lawful math functions the solver never refuses a point the
      validator accepts, so a move with valid input succeeds exactly when
      the point is reachable. */
  lemma MoveSucceedsIffReachable(cfg: Config, m: Transcendental, robot: Robot, input: Option<Point>)
    requires cfg.Valid() && Lawful(m)
    ensures MoveRobot(cfg, m, robot, input).status != NoSolution
    ensures MoveRobot(cfg, m, robot, input).status == Moved <==>
      input.Some? && IsReachable(cfg, input.value.x, input.value.y)
  {
    if input.Some? {
      SolverAgreesWithValidator(cfg, m, input.value.x, input.value.y);
    }
  }

  /** After a successful move the trace has 101 points, starts where the arm
      was and ends where the solved pose puts the end effector. */
  lemma MovedTraceShape(cfg: Config, m: Transcendental, robot: Robot, input: Option<Point>)
    requires cfg.Valid()
    requires MoveRobot(cfg, m, robot, input).status == Moved
    ensures var moved := MoveRobot(cfg, m, robot, input).robot;
      && |moved.path| == SampleCount
      && moved.path[0] == Forward(cfg, m, robot.Pose())
      && moved.path[Steps] == Forward(cfg, m, moved.Pose())
  {
    var moved := MoveRobot(cfg, m, robot, input).robot;
    SampleStart(robot.Pose(), moved.Pose());
    SampleEnd(robot.Pose(), moved.Pose());
  }

  /** The shipped arm reaches its home point from any state, and ends up
      with the home point as its recorded position. */
  lemma GoHomeSucceeds(m: Transcendental, robot: Robot)
    requires Lawful(m)
    ensures GoHome(RobotConfig, m, robot).status == Moved
    ensures GoHome(RobotConfig, m, robot).robot.pos == RobotConfig.home
  {
    ReachabilityBoundary();
    MoveSucceedsIffReachable(RobotConfig, m, robot, Some(RobotConfig.home));
  }

  /** The opening scenario: from the start-up state, sending the arm home
      succeeds on the fixed elbow branch, with a trace that leaves from the
      start-up pose and arrives at the solved pose. */
  lemma HomeFromStart(m: Transcendental)
    requires Lawful(m)
    ensures var r := GoHome(RobotConfig, m, InitialRobot);
      && r.status == Moved
      && r.robot.pos == Point(0.14, 0.14)
      && 0.0 <= r.robot.theta2 <= Pi
      && |r.robot.path| == SampleCount
      && r.robot.path[0] == Forward(RobotConfig, m, Joints(Pi / 2.0, 0.0))
      && r.robot.path[Steps] == Forward(RobotConfig, m, r.robot.Pose())
  {
    GoHomeSucceeds(m, InitialRobot);
    ElbowBranch(RobotConfig, m, 0.14, 0.14);
    MovedTraceShape(RobotConfig, m, InitialRobot, Some(RobotConfig.home));
  }

  /** A target far outside the workspace is refused and nothing changes. */
  lemma FarTargetRefused(m: Transcendental, robot: Robot)
    ensures MoveRobot(RobotConfig, m, robot, Some(Point(10.0, 10.0))) == MoveOutcome(robot, OutOfWorkspace)
  {
    assert !IsReachable(RobotConfig, 10.0, 10.0);
  }

  /** Repeating a successful move leaves the pose and position where they are
      and leaves a trace that stands still at the current end-effector point. */
  lemma RepeatedMoveStandsStill(cfg: Config, m: Transcendental, robot: Robot, target: Point)
    requires cfg.Valid()
    requires MoveRobot(cfg, m, robot, Some(target)).status == Moved
    ensures var first := MoveRobot(cfg, m, robot, Some(target)).robot;
      var again := MoveRobot(cfg, m, first, Some(target));
      && again.status == Moved
      && again.robot.Pose() == first.Pose()
      && again.robot.pos == first.pos
      && forall i :: 0 <= i < SampleCount ==> again.robot.path[i] == Forward(cfg, m, first.Pose())
  {
    var first := MoveRobot(cfg, m, robot, Some(target)).robot;
    var again := MoveRobot(cfg, m, first, Some(target));
    forall i | 0 <= i < SampleCount
      ensures again.robot.path[i] == Forward(cfg, m, first.Pose())
    {
      SampleStill(first.Pose(), i);
    }
  }

  /** Interpolating from a pose to itself yields that pose. */
  lemma SampleStill(q: Joints, i: int)
    ensures Sample(q, q, i) == q
  {
    LerpConstant(q.theta1, Ease(Progress(i)));
    LerpConstant(q.theta2, Ease(Progress(i)));
  }
}
