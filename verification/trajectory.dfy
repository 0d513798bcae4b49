/** The trajectory generator: 101 eased samples of the joint angles from the
    current pose to a target pose, with their timestamps and the end-effector
    positions they produce. */
module Trajectory {
  import opened Numeric
  import opened Arm

  /** Number of intervals between samples; the path has `Steps + 1` samples. */
  const Steps: nat := 100
  const SampleCount: nat := Steps + 1

  /** A generated path as five parallel sequences, in playback order. */
  datatype Path = Path(time: seq<real>, theta1: seq<real>, theta2: seq<real>, x: seq<real>, y: seq<real>) {
    /** All five sequences have `n` entries. */
    predicate HasLength(n: nat) {
      |time| == n && |theta1| == n && |theta2| == n && |x| == n && |y| == n
    }
  }

  /** Smoothstep easing t^2 (3 - 2t): it starts and ends at rest and fixes 0 and 1. */
  function Ease(t: real): (e: real)
    ensures t == 0.0 ==> e == 0.0
    ensures t == 1.0 ==> e == 1.0
    ensures 0.0 <= t <= 1.0 ==> 0.0 <= e <= 1.0
  {
    EaseBounds(t);
    Sq(t) * (3.0 - 2.0 * t)
  }

  lemma EaseBounds(t: real)
    ensures t == 0.0 ==> Sq(t) * (3.0 - 2.0 * t) == 0.0
    ensures t == 1.0 ==> Sq(t) * (3.0 - 2.0 * t) == 1.0
    ensures 0.0 <= t <= 1.0 ==> 0.0 <= Sq(t) * (3.0 - 2.0 * t) <= 1.0
  {
    if 0.0 <= t <= 1.0 {
      SquareNonNegative(t);
      ProductNonNegative(Sq(t), 3.0 - 2.0 * t);
      // 1 - t^2 (3 - 2t) factors as (1 - t)^2 (1 + 2t)
      assert 1.0 - Sq(t) * (3.0 - 2.0 * t) == Sq(1.0 - t) * (1.0 + 2.0 * t);
      SquareNonNegative(1.0 - t);
      ProductNonNegative(Sq(1.0 - t), 1.0 + 2.0 * t);
    }
  }

  /** The easing never moves backwards on [0, 1]. */
  lemma EaseMonotone(a: real, b: real)
    requires 0.0 <= a <= b <= 1.0
    ensures Ease(a) <= Ease(b)
  {
    // Ease(b) - Ease(a) = (b - a) (3 (a + b) - 2 (a^2 + a b + b^2)), and the
    // second factor is a (3 - 2a - b) + b (3 - a - 2b), a sum of non-negative products
    var slope := a * (3.0 - 2.0 * a - b) + b * (3.0 - a - 2.0 * b);
    ProductNonNegative(a, 3.0 - 2.0 * a - b);
    ProductNonNegative(b, 3.0 - a - 2.0 * b);
    EaseDifference(a, b);
    ProductNonNegative(b - a, slope);
  }

  lemma EaseDifference(a: real, b: real)
    ensures Ease(b) - Ease(a) == (b - a) * (a * (3.0 - 2.0 * a - b) + b * (3.0 - a - 2.0 * b))
  {
    assert Ease(a) == Sq(a) * (3.0 - 2.0 * a);
    assert Ease(b) == Sq(b) * (3.0 - 2.0 * b);
  }

  /** Linear interpolation from `a` (at e = 0) to `b` (at e = 1). */
  function Lerp(a: real, b: real, e: real): real {
    a + (b - a) * e
  }

  /** For e in [0, 1] the interpolated value lies between the two ends. */
  lemma LerpBetween(a: real, b: real, e: real)
    requires 0.0 <= e <= 1.0
    ensures Min(a, b) <= Lerp(a, b, e) <= Max(a, b)
  {
    assert (b - a) - (b - a) * e == (b - a) * (1.0 - e);
    if a <= b {
      ProductNonNegative(b - a, e);
      ProductNonNegative(b - a, 1.0 - e);
    } else {
      ProductNonNegative(a - b, e);
      ProductNonNegative(a - b, 1.0 - e);
      assert (a - b) * e == -((b - a) * e);
      assert (a - b) * (1.0 - e) == -((b - a) * (1.0 - e));
    }
  }

  /** Interpolation moves monotonically towards `b` as e grows. */
  lemma LerpMonotone(a: real, b: real, e1: real, e2: real)
    requires e1 <= e2
    ensures a <= b ==> Lerp(a, b, e1) <= Lerp(a, b, e2)
    ensures b <= a ==> Lerp(a, b, e2) <= Lerp(a, b, e1)
  {
    assert Lerp(a, b, e2) - Lerp(a, b, e1) == (b - a) * (e2 - e1);
    if a <= b {
      ProductNonNegative(b - a, e2 - e1);
    } else {
      ProductNonNegative(a - b, e2 - e1);
      assert (a - b) * (e2 - e1) == -((b - a) * (e2 - e1));
    }
  }

  /** Linear progress of sample i. */
  function Progress(i: int): real {
    i as real / Steps as real
  }

  /** Time budget of a move: 15 plus 10 per radian of the larger joint move. */
  function Duration(from: Joints, to: Joints): (d: real)
    ensures d >= 15.0 + 10.0 * Abs(to.theta1 - from.theta1)
    ensures d >= 15.0 + 10.0 * Abs(to.theta2 - from.theta2)
    ensures d == 15.0 + 10.0 * Abs(to.theta1 - from.theta1) || d == 15.0 + 10.0 * Abs(to.theta2 - from.theta2)
    ensures d >= 15.0
    ensures d == 15.0 <==> from == to
  {
    var dist1 := Abs(to.theta1 - from.theta1);
    var dist2 := Abs(to.theta2 - from.theta2);
    var maxDist := Max(dist1, dist2);
    15.0 + maxDist * 10.0
  }

  /** A move of zero lasts 15; a one-radian move of one joint, with the other
      joint moving no further, lasts 25. */
  lemma DurationExamples(q: Joints, target: Joints)
    ensures Duration(q, q) == 15.0
    ensures Abs(target.theta1 - q.theta1) == 1.0 && Abs(target.theta2 - q.theta2) <= 1.0 ==>
      Duration(q, target) == 25.0
    ensures Abs(target.theta2 - q.theta2) == 1.0 && Abs(target.theta1 - q.theta1) <= 1.0 ==>
      Duration(q, target) == 25.0
  {
  }

  /** The eased pose of sample i. */
  function Sample(from: Joints, to: Joints, i: int): Joints {
    var progress := Ease(Progress(i));
    Joints(Lerp(from.theta1, to.theta1, progress), Lerp(from.theta2, to.theta2, progress))
  }

  /** The first sample is the start pose. */
  lemma SampleStart(from: Joints, to: Joints)
    ensures Sample(from, to, 0) == from
  {
    assert Progress(0) == 0.0;
    assert Ease(Progress(0)) == 0.0;
    LerpEndpoints(from.theta1, to.theta1);
    LerpEndpoints(from.theta2, to.theta2);
  }

  /** The last sample is the target pose. */
  lemma SampleEnd(from: Joints, to: Joints)
    ensures Sample(from, to, Steps) == to
  {
    assert Progress(Steps) == 1.0;
    assert Ease(Progress(Steps)) == 1.0;
    LerpEndpoints(from.theta1, to.theta1);
    LerpEndpoints(from.theta2, to.theta2);
  }

  /** The first timestamp is 0 and the last is the whole duration. */
  lemma TimeEndpoints(duration: real)
    ensures Progress(0) * duration == 0.0
    ensures Progress(Steps) * duration == duration
  {
    assert Progress(0) == 0.0;
    assert Progress(Steps) == 1.0;
  }

  lemma LerpEndpoints(a: real, b: real)
    ensures Lerp(a, b, 0.0) == a && Lerp(a, b, 1.0) == b
  {
  }

  /** The eased poses of the whole path, start and target included. */
  function Samples(from: Joints, to: Joints): (qs: seq<Joints>)
    ensures |qs| == SampleCount
    ensures forall i :: 0 <= i < SampleCount ==> qs[i] == Sample(from, to, i)
  {
    seq(SampleCount, i => Sample(from, to, i))
  }

  /** The sampled poses start at the start pose and end at the target pose. */
  lemma SamplesEndpoints(from: Joints, to: Joints, qs: seq<Joints>)
    requires |qs| == SampleCount
    requires forall i :: 0 <= i < SampleCount ==> qs[i] == Sample(from, to, i)
    ensures qs[0] == from && qs[Steps] == to
  {
    SampleStart(from, to);
    SampleEnd(from, to);
  }

  /** The timestamps of the whole path for a move lasting `duration`. */
  function Times(duration: real): (ts: seq<real>)
    ensures |ts| == SampleCount
    ensures forall i :: 0 <= i < SampleCount ==> ts[i] == Progress(i) * duration
  {
    seq(SampleCount, i => Progress(i) * duration)
  }

  /** The timestamps start at 0 and end at the whole duration. */
  lemma TimesEndpoints(duration: real, ts: seq<real>)
    requires |ts| == SampleCount
    requires forall i :: 0 <= i < SampleCount ==> ts[i] == Progress(i) * duration
    ensures ts[0] == 0.0 && ts[Steps] == duration
  {
    TimeEndpoints(duration);
  }

  /** The shoulder angles of a sequence of poses. */
  function Shoulders(qs: seq<Joints>): (r: seq<real>)
    ensures |r| == |qs|
    ensures forall i :: 0 <= i < |qs| ==> r[i] == qs[i].theta1
  {
    seq(|qs|, i requires 0 <= i < |qs| => qs[i].theta1)
  }

  /** The elbow angles of a sequence of poses. */
  function Elbows(qs: seq<Joints>): (r: seq<real>)
    ensures |r| == |qs|
    ensures forall i :: 0 <= i < |qs| ==> r[i] == qs[i].theta2
  {
    seq(|qs|, i requires 0 <= i < |qs| => qs[i].theta2)
  }

  /** The end-effector positions a sequence of poses produces. */
  function Positions(cfg: Config, m: Transcendental, qs: seq<Joints>): (r: seq<Point>)
    ensures |r| == |qs|
    ensures forall i :: 0 <= i < |qs| ==> r[i] == Forward(cfg, m, qs[i])
  {
    seq(|qs|, i requires 0 <= i < |qs| => Forward(cfg, m, qs[i]))
  }

  /** The x coordinates of a sequence of points. */
  function Xs(ps: seq<Point>): (r: seq<real>)
    ensures |r| == |ps|
    ensures forall i :: 0 <= i < |ps| ==> r[i] == ps[i].x
  {
    seq(|ps|, i requires 0 <= i < |ps| => ps[i].x)
  }

  /** The y coordinates of a sequence of points. */
  function Ys(ps: seq<Point>): (r: seq<real>)
    ensures |r| == |ps|
    ensures forall i :: 0 <= i < |ps| ==> r[i] == ps[i].y
  {
    seq(|ps|, i requires 0 <= i < |ps| => ps[i].y)
  }

  /** The 101-sample path from `from` to `to`: sample i has time
      (i / 100) * duration, eased joint angles, and the end-effector position
      those angles produce. */
  function GeneratePath(cfg: Config, m: Transcendental, from: Joints, to: Joints): (p: Path)
    ensures p.HasLength(SampleCount)
    ensures forall i :: 0 <= i < SampleCount ==>
      Point(p.x[i], p.y[i]) == Forward(cfg, m, Joints(p.theta1[i], p.theta2[i]))
  {
    var qs := Samples(from, to);
    var ts := Times(Duration(from, to));
    var points := Positions(cfg, m, qs);
    Path(ts, Shoulders(qs), Elbows(qs), Xs(points), Ys(points))
  }

  /** The path starts at the start pose and reaches the target pose exactly. */
  lemma PathEndpoints(cfg: Config, m: Transcendental, from: Joints, to: Joints)
    ensures var p := GeneratePath(cfg, m, from, to);
      && p.theta1[0] == from.theta1 && p.theta2[0] == from.theta2
      && p.theta1[Steps] == to.theta1 && p.theta2[Steps] == to.theta2
  {
    SamplesEndpoints(from, to, Samples(from, to));
  }

  /** The path starts at time 0 and ends at the full duration of the move. */
  lemma PathTiming(cfg: Config, m: Transcendental, from: Joints, to: Joints)
    ensures var p := GeneratePath(cfg, m, from, to);
      p.time[0] == 0.0 && p.time[Steps] == Duration(from, to)
  {
    TimesEndpoints(Duration(from, to), Times(Duration(from, to)));
  }

  /** Sample i of the path is the eased pose of step i, at its share of the duration. */
  lemma PathAt(cfg: Config, m: Transcendental, from: Joints, to: Joints, i: int)
    requires 0 <= i < SampleCount
    ensures var p := GeneratePath(cfg, m, from, to);
      && p.theta1[i] == Sample(from, to, i).theta1
      && p.theta2[i] == Sample(from, to, i).theta2
      && p.time[i] == Progress(i) * Duration(from, to)
  {
  }

  /** Every sampled angle lies between that joint's start and target angles. */
  lemma JointsStayBetween(cfg: Config, m: Transcendental, from: Joints, to: Joints)
    ensures var p := GeneratePath(cfg, m, from, to);
      forall i :: 0 <= i < SampleCount ==>
        && Min(from.theta1, to.theta1) <= p.theta1[i] <= Max(from.theta1, to.theta1)
        && Min(from.theta2, to.theta2) <= p.theta2[i] <= Max(from.theta2, to.theta2)
  {
    var p := GeneratePath(cfg, m, from, to);
    forall i | 0 <= i < SampleCount
      ensures Min(from.theta1, to.theta1) <= p.theta1[i] <= Max(from.theta1, to.theta1)
      ensures Min(from.theta2, to.theta2) <= p.theta2[i] <= Max(from.theta2, to.theta2)
    {
      PathAt(cfg, m, from, to, i);
      SampleBetween(from, to, i);
    }
  }

  lemma SampleBetween(from: Joints, to: Joints, i: int)
    requires 0 <= i < SampleCount
    ensures Min(from.theta1, to.theta1) <= Sample(from, to, i).theta1 <= Max(from.theta1, to.theta1)
    ensures Min(from.theta2, to.theta2) <= Sample(from, to, i).theta2 <= Max(from.theta2, to.theta2)
  {
    var e := Ease(Progress(i));
    LerpBetween(from.theta1, to.theta1, e);
    LerpBetween(from.theta2, to.theta2, e);
  }

  /** Each joint moves monotonically towards its target: never backwards and
      never past it. */
  lemma JointsMonotone(cfg: Config, m: Transcendental, from: Joints, to: Joints)
    ensures var p := GeneratePath(cfg, m, from, to);
      forall i, j :: 0 <= i <= j < SampleCount ==>
        && (from.theta1 <= to.theta1 ==> p.theta1[i] <= p.theta1[j])
        && (to.theta1 <= from.theta1 ==> p.theta1[j] <= p.theta1[i])
        && (from.theta2 <= to.theta2 ==> p.theta2[i] <= p.theta2[j])
        && (to.theta2 <= from.theta2 ==> p.theta2[j] <= p.theta2[i])
  {
    var p := GeneratePath(cfg, m, from, to);
    forall i, j | 0 <= i <= j < SampleCount
      ensures from.theta1 <= to.theta1 ==> p.theta1[i] <= p.theta1[j]
      ensures to.theta1 <= from.theta1 ==> p.theta1[j] <= p.theta1[i]
      ensures from.theta2 <= to.theta2 ==> p.theta2[i] <= p.theta2[j]
      ensures to.theta2 <= from.theta2 ==> p.theta2[j] <= p.theta2[i]
    {
      PathAt(cfg, m, from, to, i);
      PathAt(cfg, m, from, to, j);
      SamplesMonotone(from, to, i, j);
    }
  }

  lemma SamplesMonotone(from: Joints, to: Joints, i: int, j: int)
    requires 0 <= i <= j < SampleCount
    ensures from.theta1 <= to.theta1 ==> Sample(from, to, i).theta1 <= Sample(from, to, j).theta1
    ensures to.theta1 <= from.theta1 ==> Sample(from, to, j).theta1 <= Sample(from, to, i).theta1
    ensures from.theta2 <= to.theta2 ==> Sample(from, to, i).theta2 <= Sample(from, to, j).theta2
    ensures to.theta2 <= from.theta2 ==> Sample(from, to, j).theta2 <= Sample(from, to, i).theta2
  {
    EaseMonotone(Progress(i), Progress(j));
    var ei, ej := Ease(Progress(i)), Ease(Progress(j));
    LerpMonotone(from.theta1, to.theta1, ei, ej);
    LerpMonotone(from.theta2, to.theta2, ei, ej);
  }

  /** Timestamps strictly increase along the path. */
  lemma TimeStrictlyIncreasing(cfg: Config, m: Transcendental, from: Joints, to: Joints)
    ensures var p := GeneratePath(cfg, m, from, to);
      forall i, j :: 0 <= i < j < SampleCount ==> p.time[i] < p.time[j]
  {
    var duration := Duration(from, to);
    TimesIncreasing(duration, Times(duration));
  }

  lemma TimesIncreasing(duration: real, ts: seq<real>)
    requires 0.0 < duration
    requires |ts| == SampleCount
    requires forall i :: 0 <= i < SampleCount ==> ts[i] == Progress(i) * duration
    ensures forall i, j :: 0 <= i < j < SampleCount ==> ts[i] < ts[j]
  {
    forall i, j | 0 <= i < j < SampleCount
      ensures ts[i] < ts[j]
    {
      ProgressScalesStrictly(i, j, duration);
    }
  }

  lemma ProgressScalesStrictly(i: int, j: int, duration: real)
    requires i < j && 0.0 < duration
    ensures Progress(i) * duration < Progress(j) * duration
  {
    var pi, pj := Progress(i), Progress(j);
    assert pi < pj;
    assert pj * duration - pi * duration == (pj - pi) * duration;
    ProductPositive(pj - pi, duration);
  }

  /** A move to the current pose stands still for the minimum 15 time units. */
  lemma ZeroMoveStandsStill(cfg: Config, m: Transcendental, q: Joints)
    ensures var p := GeneratePath(cfg, m, q, q);
      && p.time[Steps] == 15.0
      && forall i :: 0 <= i < SampleCount ==>
           p.theta1[i] == q.theta1 && p.theta2[i] == q.theta2 && Point(p.x[i], p.y[i]) == Forward(cfg, m, q)
  {
    var p := GeneratePath(cfg, m, q, q);
    PathTiming(cfg, m, q, q);
    forall i | 0 <= i < SampleCount
      ensures p.theta1[i] == q.theta1 && p.theta2[i] == q.theta2
    {
      PathAt(cfg, m, q, q, i);
      LerpConstant(q.theta1, Ease(Progress(i)));
      LerpConstant(q.theta2, Ease(Progress(i)));
    }
  }

  lemma LerpConstant(a: real, e: real)
    ensures Lerp(a, a, e) == a
  {
  }

  /** Every sampled end-effector position lies within l1 + l2 of the shoulder
      along each axis. */
  lemma PathWithinReach(cfg: Config, m: Transcendental, from: Joints, to: Joints)
    requires cfg.Valid() && Lawful(m)
    ensures var p := GeneratePath(cfg, m, from, to);
      forall i :: 0 <= i < SampleCount ==>
        && -(cfg.l1 + cfg.l2) <= p.x[i] <= cfg.l1 + cfg.l2
        && -(cfg.l1 + cfg.l2) <= p.y[i] <= cfg.l1 + cfg.l2
  {
    var p := GeneratePath(cfg, m, from, to);
    forall i | 0 <= i < SampleCount
      ensures -(cfg.l1 + cfg.l2) <= p.x[i] <= cfg.l1 + cfg.l2
      ensures -(cfg.l1 + cfg.l2) <= p.y[i] <= cfg.l1 + cfg.l2
    {
      ForwardWithinReach(cfg, m, Joints(p.theta1[i], p.theta2[i]));
    }
  }

  /** The generator written as the loop that appends one sample per step. */
  method BuildPath(cfg: Config, m: Transcendental, from: Joints, to: Joints) returns (p: Path)
    ensures p == GeneratePath(cfg, m, from, to)
  {
    var duration := Duration(from, to);
    var time, theta1, theta2, xs, ys := [], [], [], [], [];
    for i := 0 to SampleCount
      invariant |time| == |theta1| == |theta2| == |xs| == |ys| == i
      invariant forall k :: 0 <= k < i ==> time[k] == Progress(k) * duration
      invariant forall k :: 0 <= k < i ==> Joints(theta1[k], theta2[k]) == Sample(from, to, k)
      invariant forall k :: 0 <= k < i ==> Point(xs[k], ys[k]) == Forward(cfg, m, Joints(theta1[k], theta2[k]))
    {
      var t, q, point := StepAt(cfg, m, from, to, duration, i);
      time := time + [t];
      theta1 := theta1 + [q.theta1];
      theta2 := theta2 + [q.theta2];
      xs := xs + [point.x];
      ys := ys + [point.y];
    }
    p := Path(time, theta1, theta2, xs, ys);
    SameAsGenerated(cfg, m, from, to, p);
  }

  /** One iteration of the generator: the timestamp, eased pose and
      end-effector position of sample i. */
  method StepAt(cfg: Config, m: Transcendental, from: Joints, to: Joints, duration: real, i: int)
    returns (t: real, q: Joints, point: Point)
    ensures t == Progress(i) * duration
    ensures q == Sample(from, to, i)
    ensures point == Forward(cfg, m, q)
  {
    var progress := Ease(Progress(i));
    t := Progress(i) * duration;
    q := Joints(Lerp(from.theta1, to.theta1, progress), Lerp(from.theta2, to.theta2, progress));
    point := Forward(cfg, m, q);
  }

  /** A path that agrees with the generator sample by sample is the generated path. */
  lemma SameAsGenerated(cfg: Config, m: Transcendental, from: Joints, to: Joints, p: Path)
    requires p.HasLength(SampleCount)
    requires forall k :: 0 <= k < SampleCount ==> p.time[k] == Progress(k) * Duration(from, to)
    requires forall k :: 0 <= k < SampleCount ==> Joints(p.theta1[k], p.theta2[k]) == Sample(from, to, k)
    requires forall k :: 0 <= k < SampleCount ==> Point(p.x[k], p.y[k]) == Forward(cfg, m, Joints(p.theta1[k], p.theta2[k]))
    ensures p == GeneratePath(cfg, m, from, to)
  {
    var g := GeneratePath(cfg, m, from, to);
    var qs := Samples(from, to);
    var points := Positions(cfg, m, qs);
    var ts := Times(Duration(from, to));
    assert g == Path(ts, Shoulders(qs), Elbows(qs), Xs(points), Ys(points));
    assert |p.time| == |ts|;
    assert forall k :: 0 <= k < SampleCount ==> p.time[k] == ts[k];
    assert p.time == g.time;
    assert p.theta1 == g.theta1;
    assert p.theta2 == g.theta2;
    assert p.x == g.x;
    assert p.y == g.y;
  }
}
