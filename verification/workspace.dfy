/** The workspace validator: whether a target point lies in the annulus the
    two links can sweep. */
module Workspace {
  import opened Numeric
  import opened Arm

  /** Compares the squared distance of (x, y) from the shoulder with the squared
      inner radius |l1 - l2| and the squared outer radius l1 + l2, bounds included. */
  function IsReachable(cfg: Config, x: real, y: real): (ok: bool)
    ensures ok <==> Sq(cfg.l1 - cfg.l2) <= Sq(x) + Sq(y) <= Sq(cfg.l1 + cfg.l2)
  {
    var distSq := Sq(x) + Sq(y);
    var sum := cfg.l1 + cfg.l2;
    var diff := Abs(cfg.l1 - cfg.l2);
    AbsSquare(cfg.l1 - cfg.l2);
    distSq <= Sq(sum) && distSq >= Sq(diff)
  }

  /** The squared test agrees with the unsquared one on the distance itself,
      because both radii and the distance are non-negative. */
  lemma ReachableIffDistanceInAnnulus(cfg: Config, m: Transcendental, x: real, y: real)
    requires cfg.Valid() && Lawful(m)
    ensures IsReachable(cfg, x, y) <==>
      Abs(cfg.l1 - cfg.l2) <= m.sqrt(Sq(x) + Sq(y)) <= cfg.l1 + cfg.l2
  {
    SquareNonNegative(x);
    SquareNonNegative(y);
    SqrtLaw(m, Sq(x) + Sq(y));
    var dist := m.sqrt(Sq(x) + Sq(y));
    AbsSquare(cfg.l1 - cfg.l2);
    SquareMonotone(dist, cfg.l1 + cfg.l2);
    SquareMonotone(Abs(cfg.l1 - cfg.l2), dist);
  }

  /** With two links of 0.12, the outer boundary point (0.24, 0) and the
      shoulder (0, 0) are accepted, and (0.2401, 0) just outside is rejected. */
  lemma ReachabilityBoundary()
    ensures IsReachable(RobotConfig, 0.24, 0.0)
    ensures IsReachable(RobotConfig, 0.0, 0.0)
    ensures !IsReachable(RobotConfig, 0.2401, 0.0)
    ensures IsReachable(RobotConfig, RobotConfig.home.x, RobotConfig.home.y)
  {
  }

  /** When both links have the same length the annulus degenerates to a disk:
      every point within l1 + l2 of the shoulder is accepted. */
  lemma EqualLinksGiveDisk(cfg: Config, x: real, y: real)
    requires cfg.Valid() && cfg.l1 == cfg.l2
    ensures IsReachable(cfg, x, y) <==> Sq(x) + Sq(y) <= Sq(cfg.l1 + cfg.l2)
  {
    SquareNonNegative(x);
    SquareNonNegative(y);
  }
}
