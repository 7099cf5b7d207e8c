/** The arithmetic of one differential-drive robot step: clamping a
    (v, omega) command, the unicycle-to-differential-drive transform and its
    inverse, the Euler pose step driven by the wheel angles, and the placement
    of proximity sensors on the body circle.

    Everything is over `real`. The math library (cos, sin and the heading
    normaliser) is not interpreted: it is a `Trig` value supplied by the
    caller, so every property below holds for any choice of those functions. */
module DriveKinematics {

  /** Read-only constants of one robot. */
  datatype Geometry = Geometry(
    wheelRadius: real,  // r
    robotBase: real,    // l, the distance between the two wheels
    radius: real,       // body radius, where the proximity sensors sit
    maxSpeed: real,
    maxAngSpeed: real)

  /** A body motion: linear and angular, as rates (speeds) or as amounts
      (a distance and a turn). */
  datatype Twist = Twist(v: real, omega: real)

  /** A (left, right) pair of wheel quantities: angular speeds or angles. */
  datatype WheelPair = WheelPair(left: real, right: real)

  /** Position and heading in the world frame. */
  datatype PoseState = PoseState(x: real, y: real, theta: real)

  /** cos, sin and the heading normaliser, left uninterpreted. */
  datatype Trig = Trig(cos: real -> real, sin: real -> real, normalizeAngle: real -> real)

  /** The divisions of the step are defined: non-zero wheel radius and base. */
  predicate WellFormed(g: Geometry)
  {
    g.wheelRadius != 0.0 && g.robotBase != 0.0
  }

  function Min(a: real, b: real): real { if a <= b then a else b }
  function Max(a: real, b: real): real { if a >= b then a else b }

  /** `max(min(v, bound), -bound)`: a hard clamp to [-bound, bound]. */
  function Clamp(v: real, bound: real): (c: real)
    ensures 0.0 <= bound ==> -bound <= c <= bound
    ensures -bound <= v <= bound ==> c == v
    ensures 0.0 <= bound < v ==> c == bound
    ensures 0.0 <= bound && v < -bound ==> c == -bound
    ensures bound < 0.0 ==> c == -bound
  {
    Max(Min(v, bound), -bound)
  }

  /** Clamping an already clamped value changes nothing, whatever the bound. */
  lemma ClampIdempotent(v: real, bound: real)
    ensures Clamp(Clamp(v, bound), bound) == Clamp(v, bound)
  {
  }

  /** Unicycle to differential drive: the left and right wheel angular speeds
      that give linear speed `t.v` and angular speed `t.omega`. */
  function InverseKinematics(r: real, l: real, t: Twist): (w: WheelPair)
    requires r != 0.0
    ensures r * (w.left + w.right) / 2.0 == t.v
    ensures r * (w.right - w.left) == t.omega * l
    ensures t.omega == 0.0 ==> w.left == w.right
    ensures t.v == 0.0 ==> w.left == -w.right
  {
    WheelPair((2.0 * t.v - t.omega * l) / (2.0 * r), (2.0 * t.v + t.omega * l) / (2.0 * r))
  }

  /** Differential drive to unicycle: the body motion produced by wheel
      rotations `w` (speeds give speeds, angles give a distance and a turn). */
  function ForwardKinematics(r: real, l: real, w: WheelPair): (t: Twist)
    requires l != 0.0
    ensures t.omega * l == r * (w.right - w.left)
    ensures w.left == w.right ==> t.omega == 0.0
    ensures w.left == -w.right ==> t.v == 0.0
  {
    Twist(r * (w.left + w.right) / 2.0, r * (w.right - w.left) / l)
  }

  /** The two transforms are inverse to each other, in both directions:
      the forward transform of the wheel speeds of a twist is that twist, ... */
  lemma ForwardOfInverse(r: real, l: real, t: Twist)
    requires r != 0.0 && l != 0.0
    ensures ForwardKinematics(r, l, InverseKinematics(r, l, t)) == t
  {
  }

  /** ... and the wheel values behind the forward transform of `w` are `w`. */
  lemma InverseOfForward(r: real, l: real, w: WheelPair)
    requires r != 0.0 && l != 0.0
    ensures InverseKinematics(r, l, ForwardKinematics(r, l, w)) == w
  {
  }

  /** What `move` hands to the drive: the wheel speeds of the command after
      clamping v to the speed bound and omega to the angular-speed bound.
      These wheel speeds produce exactly the clamped command. */
  function Command(g: Geometry, v: real, omega: real): (w: WheelPair)
    requires WellFormed(g)
    ensures ForwardKinematics(g.wheelRadius, g.robotBase, w)
         == Twist(Clamp(v, g.maxSpeed), Clamp(omega, g.maxAngSpeed))
    ensures Clamp(omega, g.maxAngSpeed) == 0.0 ==> w.left == w.right
    ensures Clamp(v, g.maxSpeed) == 0.0 ==> w.left == -w.right
  {
    var t := Twist(Clamp(v, g.maxSpeed), Clamp(omega, g.maxAngSpeed));
    ForwardOfInverse(g.wheelRadius, g.robotBase, t);
    InverseKinematics(g.wheelRadius, g.robotBase, t)
  }

  /** Reference motion: move `d.v` along the heading held before the step,
      then turn by `d.omega` and normalise. */
  function EulerStep(math: Trig, p: PoseState, d: Twist): PoseState
  {
    PoseState(p.x + d.v * math.cos(p.theta),
              p.y + d.v * math.sin(p.theta),
              math.normalizeAngle(p.theta + d.omega))
  }

  /** The pose update of one tick from the wheel angles read from the drive:
      wheel arc lengths, the centre displacement along the old heading, the
      heading change (dr - dl) / l, then normalisation. */
  function NextPose(g: Geometry, math: Trig, p: PoseState, angles: WheelPair): (q: PoseState)
    requires g.robotBase != 0.0
    ensures q == EulerStep(math, p, ForwardKinematics(g.wheelRadius, g.robotBase, angles))
  {
    var r := g.wheelRadius;
    var l := g.robotBase;
    var dl := angles.left * r;
    var dr := angles.right * r;
    var dc := (dl + dr) / 2.0;
    var thetaNew := p.theta + (dr - dl) / l;
    assert dc == r * (angles.left + angles.right) / 2.0;
    assert dr - dl == r * (angles.right - angles.left);
    assert (dr - dl) / l == ForwardKinematics(r, l, angles).omega;
    PoseState(p.x + dc * math.cos(p.theta), p.y + dc * math.sin(p.theta), math.normalizeAngle(thetaNew))
  }

  /** Equal wheel angles move the robot straight along its old heading by
      r * angle and only normalise the heading. */
  lemma EqualWheelAngles(g: Geometry, math: Trig, p: PoseState, angles: WheelPair)
    requires g.robotBase != 0.0 && angles.left == angles.right
    ensures NextPose(g, math, p, angles)
         == PoseState(p.x + g.wheelRadius * angles.left * math.cos(p.theta),
                      p.y + g.wheelRadius * angles.left * math.sin(p.theta),
                      math.normalizeAngle(p.theta))
  {
    assert ForwardKinematics(g.wheelRadius, g.robotBase, angles) == Twist(g.wheelRadius * angles.left, 0.0);
  }

  /** Opposite wheel angles turn the robot on the spot by 2 r angle_r / l. */
  lemma OppositeWheelAngles(g: Geometry, math: Trig, p: PoseState, angles: WheelPair)
    requires g.robotBase != 0.0 && angles.left == -angles.right
    ensures NextPose(g, math, p, angles)
         == PoseState(p.x, p.y, math.normalizeAngle(p.theta + 2.0 * g.wheelRadius * angles.right / g.robotBase))
  {
    var r := g.wheelRadius;
    assert r * (angles.left + angles.right) / 2.0 == 0.0;
    assert r * (angles.right - angles.left) == 2.0 * r * angles.right;
    assert ForwardKinematics(r, g.robotBase, angles) == Twist(0.0, 2.0 * r * angles.right / g.robotBase);
  }

  /** Wheel angles reached by turning at speeds `w` for `dt` from zero. */
  function Integrated(w: WheelPair, dt: real): WheelPair
  {
    WheelPair(w.left * dt, w.right * dt)
  }

  /** The forward transform is linear: turning for `dt` at speeds `w`
      moves the body by the twist of `w` times `dt`. */
  lemma ForwardOfIntegrated(r: real, l: real, w: WheelPair, dt: real)
    requires l != 0.0
    ensures ForwardKinematics(r, l, Integrated(w, dt))
         == Twist(ForwardKinematics(r, l, w).v * dt, ForwardKinematics(r, l, w).omega * dt)
  {
  }

  /** One tick from zero wheel angles, assuming the drive turns each wheel by
      speed * dt: the pose moves by the clamped v * dt along the old heading
      and turns by the clamped omega * dt. */
  lemma CommandedTick(g: Geometry, math: Trig, p: PoseState, v: real, omega: real, dt: real)
    requires WellFormed(g)
    ensures NextPose(g, math, p, Integrated(Command(g, v, omega), dt))
         == EulerStep(math, p, Twist(Clamp(v, g.maxSpeed) * dt, Clamp(omega, g.maxAngSpeed) * dt))
  {
    var w := Command(g, v, omega);
    ForwardOfIntegrated(g.wheelRadius, g.robotBase, w, dt);
    assert ForwardKinematics(g.wheelRadius, g.robotBase, w)
        == Twist(Clamp(v, g.maxSpeed), Clamp(omega, g.maxAngSpeed));
    var a := Integrated(w, dt);
    assert ForwardKinematics(g.wheelRadius, g.robotBase, a)
        == Twist(Clamp(v, g.maxSpeed) * dt, Clamp(omega, g.maxAngSpeed) * dt);
    assert NextPose(g, math, p, a) == EulerStep(math, p, ForwardKinematics(g.wheelRadius, g.robotBase, a));
  }

  /** Pose of a proximity sensor: at the normalised heading of the robot
      plus the sensor's fixed offset, on the body circle of radius `radius`
      wherever cos and sin agree with cos^2 + sin^2 = 1 at that heading. */
  function SensorPose(math: Trig, radius: real, heading: real, initialPos: real): (s: PoseState)
    ensures s.theta == math.normalizeAngle(heading + initialPos)
    ensures math.cos(s.theta) * math.cos(s.theta) + math.sin(s.theta) * math.sin(s.theta) == 1.0
            ==> s.x * s.x + s.y * s.y == radius * radius
  {
    var thetaS := math.normalizeAngle(heading + initialPos);
    PoseState(radius * math.cos(thetaS), radius * math.sin(thetaS), thetaS)
  }

  /** Straight-line scenario, with r = 0.02, l = 0.1 and bounds 0.5 and
      5.0: move(0.1, 0) gives both wheels 5.0 rad/s. */
  lemma StraightCommand(radius: real)
    ensures Command(Geometry(0.02, 0.1, radius, 0.5, 5.0), 0.1, 0.0) == WheelPair(5.0, 5.0)
  {
  }

  /** Straight-line scenario: both wheels turned by 5.0 rad from the origin
      put the robot 0.1 along its heading, which is only normalised. */
  lemma StraightTick(math: Trig, radius: real)
    ensures NextPose(Geometry(0.02, 0.1, radius, 0.5, 5.0), math, PoseState(0.0, 0.0, 0.0), WheelPair(5.0, 5.0))
         == PoseState(0.1 * math.cos(0.0), 0.1 * math.sin(0.0), math.normalizeAngle(0.0))
  {
  }

  /** Rotation scenario, same geometry: move(0, 1.0) gives wheel speeds
      (-2.5, 2.5). */
  lemma RotationCommand(radius: real)
    ensures Command(Geometry(0.02, 0.1, radius, 0.5, 5.0), 0.0, 1.0) == WheelPair(-2.5, 2.5)
  {
  }

  /** Rotation scenario: wheel angles (-2.5, 2.5) from the origin leave the
      position and turn the heading by 1.0 rad before normalisation. */
  lemma RotationTick(math: Trig, radius: real)
    ensures NextPose(Geometry(0.02, 0.1, radius, 0.5, 5.0), math, PoseState(0.0, 0.0, 0.0), WheelPair(-2.5, 2.5))
         == PoseState(0.0, 0.0, math.normalizeAngle(1.0))
  {
  }
}
