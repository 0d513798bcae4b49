/** The inverse-kinematics solver: law-of-cosines angles for a target point,
    always on the same elbow branch, or no answer. */
module InverseKinematics {
  import opened Numeric
  import opened Optional
  import opened Arm
  import opened Workspace

  /** Distance of (x, y) from the shoulder, as the solver computes it. */
  function Distance(m: Transcendental, x: real, y: real): real {
    m.sqrt(Sq(x) + Sq(y))
  }

  /** The solver's range check on the unsquared distance. */
  predicate WithinLinks(cfg: Config, dist: real) {
    !(dist > cfg.l1 + cfg.l2 || dist < Abs(cfg.l1 - cfg.l2))
  }

  /** Cosine of the angle at the shoulder between the target direction and the
      first link, by the law of cosines. At distance 0 (which the range check
      admits only when l1 == l2) the quotient is 0 / 0; its limit as the
      distance shrinks, 0, is used instead. */
  function CosBeta(cfg: Config, dist: real): real
    requires cfg.Valid() && 0.0 <= dist
  {
    if dist == 0.0 then 0.0
    else
      ProductPositive(2.0 * dist, cfg.l1);
      (Sq(dist) + Sq(cfg.l1) - Sq(cfg.l2)) / (2.0 * dist * cfg.l1)
  }

  /** Cosine of the angle at the elbow between the two links, by the law of cosines. */
  function CosAlpha(cfg: Config, dist: real): real
    requires cfg.Valid()
  {
    ProductPositive(2.0 * cfg.l1, cfg.l2);
    (Sq(cfg.l1) + Sq(cfg.l2) - Sq(dist)) / (2.0 * cfg.l1 * cfg.l2)
  }

  /** Solves for the pose reaching (x, y): theta1 is the target's polar angle
      minus the shoulder angle, theta2 is pi minus the elbow angle. `None` when
      the distance is out of range or either cosine leaves [-1, 1]; the caller
      is not told which. */
  function CalculateIK(cfg: Config, m: Transcendental, x: real, y: real): (r: Option<Joints>)
    requires cfg.Valid()
    ensures r.Some? ==> WithinLinks(cfg, Distance(m, x, y))
    ensures r.Some? ==>
      && -1.0 <= CosBeta(cfg, Distance(m, x, y)) <= 1.0
      && -1.0 <= CosAlpha(cfg, Distance(m, x, y)) <= 1.0
      && r.value.theta1 == m.atan2(y, x) - m.acos(CosBeta(cfg, Distance(m, x, y)))
      && r.value.theta2 == Pi - m.acos(CosAlpha(cfg, Distance(m, x, y)))
    ensures !WithinLinks(cfg, Distance(m, x, y)) ==> r == None
    ensures (&& WithinLinks(cfg, Distance(m, x, y))
             && Abs(CosBeta(cfg, Distance(m, x, y))) <= 1.0
             && Abs(CosAlpha(cfg, Distance(m, x, y))) <= 1.0)
      ==> r.Some?
  {
    var dist := Distance(m, x, y);
    var sum := cfg.l1 + cfg.l2;
    var diff := Abs(cfg.l1 - cfg.l2);
    if dist > sum || dist < diff then None
    else
      var gamma := m.atan2(y, x);
      var cosBeta := CosBeta(cfg, dist);
      if Abs(cosBeta) > 1.0 then None
      else
        var theta1 := gamma - m.acos(cosBeta);
        var cosAlpha := CosAlpha(cfg, dist);
        if Abs(cosAlpha) > 1.0 then None
        else Some(Joints(theta1, Pi - m.acos(cosAlpha)))
  }

  /** In exact arithmetic the two cosine guards never fire once the range
      check has passed: both cosines of a triangle with sides l1, l2 and a
      distance between |l1 - l2| and l1 + l2 lie in [-1, 1]. The guards only
      defend against rounding. */
  lemma CosinesInUnitRange(cfg: Config, dist: real)
    requires cfg.Valid()
    requires Abs(cfg.l1 - cfg.l2) <= dist <= cfg.l1 + cfg.l2
    ensures -1.0 <= CosBeta(cfg, dist) <= 1.0
    ensures -1.0 <= CosAlpha(cfg, dist) <= 1.0
  {
    CosBetaInUnitRange(cfg, dist);
    CosAlphaInUnitRange(cfg, dist);
  }

  lemma CosBetaInUnitRange(cfg: Config, dist: real)
    requires cfg.Valid()
    requires Abs(cfg.l1 - cfg.l2) <= dist <= cfg.l1 + cfg.l2
    ensures -1.0 <= CosBeta(cfg, dist) <= 1.0
  {
    if dist != 0.0 {
      CosBetaValue(cfg, dist);
      CosBetaNumeratorBounds(cfg.l1, cfg.l2, dist);
      ProductPositive(2.0 * dist, cfg.l1);
      RatioInUnit(Sq(dist) + Sq(cfg.l1) - Sq(cfg.l2), 2.0 * dist * cfg.l1);
    }
  }

  lemma CosBetaValue(cfg: Config, dist: real)
    requires cfg.Valid() && 0.0 < dist
    ensures CosBeta(cfg, dist) == (Sq(dist) + Sq(cfg.l1) - Sq(cfg.l2)) / (2.0 * dist * cfg.l1)
  {
  }

  lemma CosAlphaValue(cfg: Config, dist: real)
    requires cfg.Valid()
    ensures CosAlpha(cfg, dist) == (Sq(cfg.l1) + Sq(cfg.l2) - Sq(dist)) / (2.0 * cfg.l1 * cfg.l2)
  {
  }

  /** |d - l1| <= l2 bounds (d - l1)^2 by l2^2, and d + l1 >= l2 bounds
      (d + l1)^2 from below by l2^2; expanded, these are the two bounds. */
  lemma CosBetaNumeratorBounds(l1: real, l2: real, d: real)
    requires 0.0 < l1 && 0.0 < l2
    requires Abs(l1 - l2) <= d <= l1 + l2
    ensures Sq(d) + Sq(l1) - Sq(l2) <= 2.0 * d * l1
    ensures -(2.0 * d * l1) <= Sq(d) + Sq(l1) - Sq(l2)
  {
    SquareMonotone(Abs(d - l1), l2);
    AbsSquare(d - l1);
    assert Sq(d - l1) == Sq(d) - 2.0 * d * l1 + Sq(l1);
    SquareMonotone(l2, d + l1);
    assert Sq(d + l1) == Sq(d) + 2.0 * d * l1 + Sq(l1);
  }

  lemma CosAlphaInUnitRange(cfg: Config, dist: real)
    requires cfg.Valid()
    requires Abs(cfg.l1 - cfg.l2) <= dist <= cfg.l1 + cfg.l2
    ensures -1.0 <= CosAlpha(cfg, dist) <= 1.0
  {
    CosAlphaValue(cfg, dist);
    CosAlphaNumeratorBounds(cfg.l1, cfg.l2, dist);
    ProductPositive(2.0 * cfg.l1, cfg.l2);
    RatioInUnit(Sq(cfg.l1) + Sq(cfg.l2) - Sq(dist), 2.0 * cfg.l1 * cfg.l2);
  }

  /** |l1 - l2| <= d <= l1 + l2 squares to (l1 - l2)^2 <= d^2 <= (l1 + l2)^2;
      expanded, these are the two bounds. */
  lemma CosAlphaNumeratorBounds(l1: real, l2: real, d: real)
    requires 0.0 < l1 && 0.0 < l2
    requires Abs(l1 - l2) <= d <= l1 + l2
    ensures Sq(l1) + Sq(l2) - Sq(d) <= 2.0 * l1 * l2
    ensures -(2.0 * l1 * l2) <= Sq(l1) + Sq(l2) - Sq(d)
  {
    SquareMonotone(Abs(l1 - l2), d);
    AbsSquare(l1 - l2);
    assert Sq(l1 - l2) == Sq(l1) - 2.0 * l1 * l2 + Sq(l2);
    SquareMonotone(d, l1 + l2);
    assert Sq(l1 + l2) == Sq(l1) + 2.0 * l1 * l2 + Sq(l2);
  }

  /** The solver's unsquared range check and the validator's squared one agree. */
  lemma WithinLinksIffReachable(cfg: Config, m: Transcendental, x: real, y: real)
    requires cfg.Valid() && Lawful(m)
    ensures WithinLinks(cfg, Distance(m, x, y)) <==> IsReachable(cfg, x, y)
  {
    ReachableIffDistanceInAnnulus(cfg, m, x, y);
  }

  /** The solver answers exactly for the points the validator accepts. */
  lemma SolverAgreesWithValidator(cfg: Config, m: Transcendental, x: real, y: real)
    requires cfg.Valid() && Lawful(m)
    ensures CalculateIK(cfg, m, x, y).Some? <==> IsReachable(cfg, x, y)
  {
    WithinLinksIffReachable(cfg, m, x, y);
    if IsReachable(cfg, x, y) {
      var dist := Distance(m, x, y);
      CosinesInUnitRange(cfg, dist);
    }
  }

  /** A solution always takes the same elbow branch: theta2 lies in [0, pi],
      and theta1 lies in [-2 pi, pi]. */
  lemma ElbowBranch(cfg: Config, m: Transcendental, x: real, y: real)
    requires cfg.Valid() && Lawful(m)
    requires CalculateIK(cfg, m, x, y).Some?
    ensures 0.0 <= CalculateIK(cfg, m, x, y).value.theta2 <= Pi
    ensures -2.0 * Pi <= CalculateIK(cfg, m, x, y).value.theta1 <= Pi
  {
    var dist := Distance(m, x, y);
    assert 0.0 <= m.acos(CosAlpha(cfg, dist)) <= Pi;
    assert 0.0 <= m.acos(CosBeta(cfg, dist)) <= Pi;
    assert -Pi <= m.atan2(y, x) <= Pi;
  }

  /** The solver's result as the program computes it, where a shoulder angle of
      `None` stands for the not-a-number value the program produces. */
  datatype RawJoints = RawJoints(theta1: Option<real>, theta2: real)

  /** The solver exactly as written: at distance 0 the shoulder-angle cosine is
      the quotient 0 / 0, which is not a number; the guard `|cosBeta| > 1` is
      false for it, so the program goes on and returns a shoulder angle that is
      not a number. */
  function CalculateIKAsWritten(cfg: Config, m: Transcendental, x: real, y: real): (r: Option<RawJoints>)
    requires cfg.Valid()
    ensures r.Some? ==> WithinLinks(cfg, Distance(m, x, y))
    ensures r.Some? && r.value.theta1.None? ==> Distance(m, x, y) == 0.0
  {
    var dist := Distance(m, x, y);
    var sum := cfg.l1 + cfg.l2;
    var diff := Abs(cfg.l1 - cfg.l2);
    if dist > sum || dist < diff then None
    else
      var gamma := m.atan2(y, x);
      var cosBeta: Option<real> := if dist == 0.0 then None else Some(CosBeta(cfg, dist));
      if cosBeta.Some? && Abs(cosBeta.value) > 1.0 then None
      else
        var theta1 := if cosBeta.Some? then Some(gamma - m.acos(cosBeta.value)) else None;
        var cosAlpha := CosAlpha(cfg, dist);
        if Abs(cosAlpha) > 1.0 then None
        else Some(RawJoints(theta1, Pi - m.acos(cosAlpha)))
  }

  /** With two links of 0.12 the shoulder itself is reachable, yet the solver
      as written returns a shoulder angle that is not a number for it. */
  lemma OriginYieldsNaN(m: Transcendental)
    requires Lawful(m)
    ensures IsReachable(RobotConfig, 0.0, 0.0)
    ensures CalculateIKAsWritten(RobotConfig, m, 0.0, 0.0) == Some(RawJoints(None, Pi - m.acos(1.0)))
  {
    SqrtZero(m);
    assert Distance(m, 0.0, 0.0) == 0.0;
    CosAlphaValue(RobotConfig, 0.0);
    assert CosAlpha(RobotConfig, 0.0) == 1.0;
  }

  /** Away from the shoulder the corrected solver and the solver as written
      give the same answer. */
  lemma AsWrittenAgreesOffOrigin(cfg: Config, m: Transcendental, x: real, y: real)
    requires cfg.Valid() && Lawful(m)
    requires x != 0.0 || y != 0.0
    ensures CalculateIK(cfg, m, x, y).None? <==> CalculateIKAsWritten(cfg, m, x, y).None?
    ensures CalculateIK(cfg, m, x, y).Some? ==>
      CalculateIKAsWritten(cfg, m, x, y).value ==
        RawJoints(Some(CalculateIK(cfg, m, x, y).value.theta1), CalculateIK(cfg, m, x, y).value.theta2)
  {
    DistancePositiveOffOrigin(m, x, y);
  }

  lemma DistancePositiveOffOrigin(m: Transcendental, x: real, y: real)
    requires Lawful(m)
    requires x != 0.0 || y != 0.0
    ensures Distance(m, x, y) != 0.0
  {
    SumOfSquaresPositive(x, y);
    SqrtPositive(m, Sq(x) + Sq(y));
  }
}
