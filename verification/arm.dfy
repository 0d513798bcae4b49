/** The arm's fixed geometry and its forward kinematics. */
module Arm {
  import opened Numeric

  /** A Cartesian point of the plane, in metres. */
  datatype Point = Point(x: real, y: real)

  /** One pose of the arm: the shoulder angle and the elbow angle, in radians.
      No joint limits are enforced. */
  datatype Joints = Joints(theta1: real, theta2: real)

  /** The arm's configuration: the two link lengths, the gripper length (used
      only for drawing) and the named home point. */
  datatype Config = Config(l1: real, l2: real, gripper: real, home: Point) {
    predicate Valid() {
      0.0 < l1 && 0.0 < l2
    }
  }

  /** The configuration the program ships with. */
  const RobotConfig: Config := Config(0.12, 0.12, 0.02, Point(0.14, 0.14))

  /** The end-effector position reached by a pose: each link contributes its
      length along the sum of the angles of the joints before it. */
  function Forward(cfg: Config, m: Transcendental, q: Joints): Point {
    Point(cfg.l1 * m.cos(q.theta1) + cfg.l2 * m.cos(q.theta1 + q.theta2),
          cfg.l1 * m.sin(q.theta1) + cfg.l2 * m.sin(q.theta1 + q.theta2))
  }

  /** Wherever the joints point, the end effector stays inside the square of
      half-side l1 + l2 around the shoulder. */
  lemma ForwardWithinReach(cfg: Config, m: Transcendental, q: Joints)
    requires cfg.Valid() && Lawful(m)
    ensures -(cfg.l1 + cfg.l2) <= Forward(cfg, m, q).x <= cfg.l1 + cfg.l2
    ensures -(cfg.l1 + cfg.l2) <= Forward(cfg, m, q).y <= cfg.l1 + cfg.l2
  {
    var reach := cfg.l1 + cfg.l2;
    var c1, c12 := m.cos(q.theta1), m.cos(q.theta1 + q.theta2);
    var s1, s12 := m.sin(q.theta1), m.sin(q.theta1 + q.theta2);
    LinkTermBounded(cfg.l1, c1);
    LinkTermBounded(cfg.l2, c12);
    LinkTermBounded(cfg.l1, s1);
    LinkTermBounded(cfg.l2, s12);
    assert Forward(cfg, m, q) == Point(cfg.l1 * c1 + cfg.l2 * c12, cfg.l1 * s1 + cfg.l2 * s12);
  }

  lemma LinkTermBounded(l: real, c: real)
    requires 0.0 < l && -1.0 <= c <= 1.0
    ensures -l <= l * c <= l
  {
    assert l * c - (-l) == l * (c + 1.0);
    assert l - l * c == l * (1.0 - c);
  }
}
