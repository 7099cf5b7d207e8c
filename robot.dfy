/** The differential-drive robot object: construction, `move`, the private
    pose update and the per-tick `update`.

    The robot's collaborators (its pose, the drive, the encoders and the
    proximity sensors) are objects that share one `CallLog`; every call the
    robot makes on them appends one `Event`, so the contracts below can say
    which calls are made, with which arguments and in which order. */
module DdRobot {
  import opened DriveKinematics

  /** One call made on a collaborator. */
  datatype Event =
    | DriveSpeedsSet(left: real, right: real)
    | DriveUpdated(dt: real)
    | EncoderUpdated(encoder: Encoder, angle: real)
    | PoseSet(pose: Pose, to: PoseState)
    | SensorIdSet(sensor: ProximitySensor, id: int)
    | SensorPointsComputed(sensor: ProximitySensor, x: real, y: real, radius: real)

  /** The calls made so far, oldest first. */
  class CallLog {
    var events: seq<Event>

    constructor ()
      ensures events == []
    {
      events := [];
    }

    method Append(e: Event)
      modifies this
      ensures events == old(events) + [e]
    {
      events := events + [e];
    }
  }

  /** A mutable position and heading. */
  class Pose {
    var x: real
    var y: real
    var theta: real
    const log: CallLog

    constructor (x: real, y: real, theta: real, log: CallLog)
      ensures State() == PoseState(x, y, theta) && this.log == log
    {
      this.x, this.y, this.theta := x, y, theta;
      this.log := log;
    }

    function State(): PoseState
      reads this
    {
      PoseState(x, y, theta)
    }

    /** Writes all three fields in one call. */
    method SetPose(x: real, y: real, theta: real)
      modifies this, log
      ensures State() == PoseState(x, y, theta)
      ensures log.events == old(log.events) + [PoseSet(this, PoseState(x, y, theta))]
    {
      this.x, this.y, this.theta := x, y, theta;
      log.Append(PoseSet(this, PoseState(x, y, theta)));
    }
  }

  /** The drive: target wheel speeds set by `move` and the wheel angles that
      its own update advances. How it advances them is not modelled: it is
      the function `integrate` given at construction. */
  class DifferentialDrive {
    var speedLeft: real
    var speedRight: real
    var angleLeft: real
    var angleRight: real
    const integrate: (WheelPair, WheelPair, real) -> WheelPair
    const log: CallLog

    constructor (log: CallLog, integrate: (WheelPair, WheelPair, real) -> WheelPair)
      ensures Speeds() == WheelPair(0.0, 0.0) && Angles() == WheelPair(0.0, 0.0)
      ensures this.log == log && this.integrate == integrate
    {
      speedLeft, speedRight, angleLeft, angleRight := 0.0, 0.0, 0.0, 0.0;
      this.log, this.integrate := log, integrate;
    }

    function Speeds(): WheelPair
      reads this
    {
      WheelPair(speedLeft, speedRight)
    }

    /** What `get_wheel_angles` returns. */
    function Angles(): WheelPair
      reads this
    {
      WheelPair(angleLeft, angleRight)
    }

    method SetDriveSpeeds(wl: real, wr: real)
      modifies this, log
      ensures Speeds() == WheelPair(wl, wr) && Angles() == old(Angles())
      ensures log.events == old(log.events) + [DriveSpeedsSet(wl, wr)]
    {
      speedLeft, speedRight := wl, wr;
      log.Append(DriveSpeedsSet(wl, wr));
    }

    method Update(dt: real)
      modifies this, log
      ensures Angles() == integrate(old(Angles()), old(Speeds()), dt)
      ensures Speeds() == old(Speeds())
      ensures log.events == old(log.events) + [DriveUpdated(dt)]
    {
      var a := integrate(Angles(), Speeds(), dt);
      angleLeft, angleRight := a.left, a.right;
      log.Append(DriveUpdated(dt));
    }
  }

  /** A wheel encoder; only the calls it receives are modelled. */
  class Encoder {
    const log: CallLog

    constructor (log: CallLog)
      ensures this.log == log
    {
      this.log := log;
    }

    method Update(angle: real)
      modifies log
      ensures log.events == old(log.events) + [EncoderUpdated(this, angle)]
    {
      log.Append(EncoderUpdated(this, angle));
    }
  }

  /** A proximity sensor: a fixed angular offset on the body, its own pose,
      and an id. Its detection geometry is not modelled, only the call that
      recomputes it. */
  class ProximitySensor {
    var id: int
    const initialPos: real
    const pose: Pose
    const log: CallLog

    constructor (initialPos: real, pose: Pose, log: CallLog)
      ensures this.initialPos == initialPos && this.pose == pose && this.log == log
    {
      id := 0;
      this.initialPos, this.pose, this.log := initialPos, pose, log;
    }

    method SetId(i: int)
      modifies this, log
      ensures id == i
      ensures log.events == old(log.events) + [SensorIdSet(this, i)]
    {
      id := i;
      log.Append(SensorIdSet(this, i));
    }

    method ComputeSensorsPoints(x: real, y: real, radius: real)
      modifies log
      ensures log.events == old(log.events) + [SensorPointsComputed(this, x, y, radius)]
    {
      log.Append(SensorPointsComputed(this, x, y, radius));
    }
  }

  /** The class-level counter `next_id` shared by all robots. */
  class RobotIds {
    var nextId: int

    constructor (first: int)
      ensures nextId == first
    {
      nextId := first;
    }
  }

  /** The calls made on sensor `s` during a pose update: its pose is set from
      the robot's new heading, then its detection points are recomputed. */
  function SensorUpdateEvents(s: ProximitySensor, math: Trig, radius: real, heading: real, x: real, y: real): seq<Event>
  {
    [PoseSet(s.pose, SensorPose(math, radius, heading, s.initialPos)), SensorPointsComputed(s, x, y, radius)]
  }

  /** The calls a pose update makes on the sensors `ss`, in list order. */
  function SensorEvents(ss: seq<ProximitySensor>, math: Trig, radius: real, heading: real, x: real, y: real): (es: seq<Event>)
    ensures |es| == 2 * |ss|
  {
    if ss == [] then []
    else SensorEvents(ss[..|ss| - 1], math, radius, heading, x, y)
         + SensorUpdateEvents(ss[|ss| - 1], math, radius, heading, x, y)
  }

  /** The calls construction makes on the sensors `ss`, in list order: the
      i-th gets id i, then recomputes its points at the initial position. */
  function InitEvents(ss: seq<ProximitySensor>, x: real, y: real, radius: real): (es: seq<Event>)
    ensures |es| == 2 * |ss|
  {
    if ss == [] then []
    else InitEvents(ss[..|ss| - 1], x, y, radius)
         + [SensorIdSet(ss[|ss| - 1], |ss| - 1), SensorPointsComputed(ss[|ss| - 1], x, y, radius)]
  }

  /** Sensor k's two calls of a pose update are at positions 2k and 2k + 1. */
  lemma {:induction false} SensorEventsAt(ss: seq<ProximitySensor>, math: Trig, radius: real, heading: real, x: real, y: real, k: int)
    requires 0 <= k < |ss|
    ensures SensorEvents(ss, math, radius, heading, x, y)[2 * k]
         == PoseSet(ss[k].pose, SensorPose(math, radius, heading, ss[k].initialPos))
    ensures SensorEvents(ss, math, radius, heading, x, y)[2 * k + 1]
         == SensorPointsComputed(ss[k], x, y, radius)
  {
    if k < |ss| - 1 {
      var init := ss[..|ss| - 1];
      SensorEventsAt(init, math, radius, heading, x, y, k);
      assert init[k] == ss[k];
    }
  }

  /** Construction's calls for sensor k are at positions 2k and 2k + 1. */
  lemma {:induction false} InitEventsAt(ss: seq<ProximitySensor>, x: real, y: real, radius: real, k: int)
    requires 0 <= k < |ss|
    ensures InitEvents(ss, x, y, radius)[2 * k] == SensorIdSet(ss[k], k)
    ensures InitEvents(ss, x, y, radius)[2 * k + 1] == SensorPointsComputed(ss[k], x, y, radius)
  {
    if k < |ss| - 1 {
      var init := ss[..|ss| - 1];
      InitEventsAt(init, x, y, radius, k);
      assert init[k] == ss[k];
    }
  }

  /** In a pose update, the detection points of each of a list of distinct
      sensors are recomputed exactly once, at the given position. */
  lemma SensorPointsComputedOnce(ss: seq<ProximitySensor>, math: Trig, radius: real, heading: real, x: real, y: real, k: int, j: int)
    requires forall i, i' :: 0 <= i < i' < |ss| ==> ss[i] != ss[i']
    requires 0 <= k < |ss|
    requires 0 <= j < 2 * |ss|
    ensures var e := SensorEvents(ss, math, radius, heading, x, y)[j];
            e.SensorPointsComputed? && e.sensor == ss[k] <==> j == 2 * k + 1
    ensures SensorEvents(ss, math, radius, heading, x, y)[2 * k + 1] == SensorPointsComputed(ss[k], x, y, radius)
  {
    SensorEventsAt(ss, math, radius, heading, x, y, k);
    SensorEventsAt(ss, math, radius, heading, x, y, j / 2);
  }

  /** At construction, each of a list of distinct sensors gets exactly one
      id, its position in the list. */
  lemma SensorIdSetOnce(ss: seq<ProximitySensor>, x: real, y: real, radius: real, k: int, j: int)
    requires forall i, i' :: 0 <= i < i' < |ss| ==> ss[i] != ss[i']
    requires 0 <= k < |ss|
    requires 0 <= j < 2 * |ss|
    ensures var e := InitEvents(ss, x, y, radius)[j];
            e.SensorIdSet? && e.sensor == ss[k] <==> j == 2 * k
    ensures InitEvents(ss, x, y, radius)[2 * k] == SensorIdSet(ss[k], k)
  {
    InitEventsAt(ss, x, y, radius, k);
    InitEventsAt(ss, x, y, radius, j / 2);
  }

  /** The sensor loop of construction: the i-th sensor gets id i and then
      recomputes its detection points at (x, y) with the body radius. */
  method InitSensors(proximity: seq<ProximitySensor>, log: CallLog, x: real, y: real, radius: real)
    requires forall i :: 0 <= i < |proximity| ==> proximity[i].log == log
    requires forall i, j :: 0 <= i < j < |proximity| ==> proximity[i] != proximity[j]
    modifies log, set s | s in proximity
    ensures forall i :: 0 <= i < |proximity| ==> proximity[i].id == i
    ensures log.events == old(log.events) + InitEvents(proximity, x, y, radius)
  {
    for i := 0 to |proximity|
      invariant forall k :: 0 <= k < i ==> proximity[k].id == k
      invariant log.events == old(log.events) + InitEvents(proximity[..i], x, y, radius)
    {
      var s := proximity[i];
      s.SetId(i);
      s.ComputeSensorsPoints(x, y, radius);
      assert proximity[..i + 1][..i] == proximity[..i];
    }
    assert proximity[..|proximity|] == proximity;
  }

  /** The sensor loop of the pose update: each sensor's pose is set on the
      body circle from the new heading, then the sensor recomputes its
      detection points at (x, y). */
  method PlaceSensors(proximity: seq<ProximitySensor>, log: CallLog, math: Trig,
                      radius: real, heading: real, x: real, y: real)
    requires forall i :: 0 <= i < |proximity| ==> proximity[i].log == log && proximity[i].pose.log == log
    requires forall i, j :: 0 <= i < j < |proximity| ==> proximity[i].pose != proximity[j].pose
    modifies log, set s | s in proximity :: s.pose
    ensures forall i :: 0 <= i < |proximity| ==>
              proximity[i].pose.State() == SensorPose(math, radius, heading, proximity[i].initialPos)
    ensures log.events == old(log.events) + SensorEvents(proximity, math, radius, heading, x, y)
  {
    for i := 0 to |proximity|
      invariant log.events == old(log.events) + SensorEvents(proximity[..i], math, radius, heading, x, y)
      invariant forall k :: 0 <= k < i ==>
                  proximity[k].pose.State() == SensorPose(math, radius, heading, proximity[k].initialPos)
    {
      var s := proximity[i];
      var sp := SensorPose(math, radius, heading, s.initialPos);
      ghost var before := log.events;
      s.pose.SetPose(sp.x, sp.y, sp.theta);
      s.ComputeSensorsPoints(x, y, radius);
      assert log.events == before + SensorUpdateEvents(s, math, radius, heading, x, y);
      assert proximity[..i + 1][..i] == proximity[..i];
    }
    assert proximity[..|proximity|] == proximity;
  }

  class DifferentialDriveRobot {
    const geometry: Geometry
    const kinematics: DifferentialDrive
    const pose: Pose
    const proximity: seq<ProximitySensor>
    const encoders: seq<Encoder>
    const log: CallLog
    const id: int
    const math: Trig  // cos, sin and the heading normaliser the robot uses

    /** The collaborators share the robot's log, the sensors are distinct
        and each has a pose object of its own. */
    ghost predicate Valid()
    {
      WellFormed(geometry)
      && kinematics.log == log && pose.log == log
      && (forall i :: 0 <= i < |proximity| ==>
            proximity[i].log == log && proximity[i].pose.log == log && proximity[i].pose != pose)
      && (forall i, j :: 0 <= i < j < |proximity| ==>
            proximity[i] != proximity[j] && proximity[i].pose != proximity[j].pose)
      && (forall i :: 0 <= i < |encoders| ==> encoders[i].log == log)
    }

    ghost function SensorPoses(): set<Pose>
    {
      set s | s in proximity :: s.pose
    }

    constructor (ids: RobotIds, log: CallLog, geometry: Geometry, proximity: seq<ProximitySensor>,
                 encoders: seq<Encoder>, integrate: (WheelPair, WheelPair, real) -> WheelPair,
                 math: Trig, x: real := 0.0, y: real := 0.0, theta: real := 0.0)
      requires WellFormed(geometry)
      requires forall i :: 0 <= i < |proximity| ==> proximity[i].log == log && proximity[i].pose.log == log
      requires forall i, j :: 0 <= i < j < |proximity| ==>
                 proximity[i] != proximity[j] && proximity[i].pose != proximity[j].pose
      requires forall i :: 0 <= i < |encoders| ==> encoders[i].log == log
      modifies ids, log, set s | s in proximity
      ensures Valid()
      ensures this.geometry == geometry && this.log == log
      ensures this.proximity == proximity && this.encoders == encoders && this.math == math
      ensures fresh(pose) && fresh(kinematics) && kinematics.integrate == integrate
      ensures pose.State() == PoseState(x, y, theta)
      ensures kinematics.Speeds() == WheelPair(0.0, 0.0) && kinematics.Angles() == WheelPair(0.0, 0.0)
      ensures id == old(ids.nextId) && ids.nextId == old(ids.nextId) + 1
      ensures forall i :: 0 <= i < |proximity| ==> proximity[i].id == i
      ensures log.events == old(log.events) + InitEvents(proximity, x, y, geometry.radius)
    {
      this.geometry := geometry;
      this.log := log;
      this.proximity := proximity;
      this.encoders := encoders;
      this.math := math;
      kinematics := new DifferentialDrive(log, integrate);
      pose := new Pose(x, y, theta, log);
      id := ids.nextId;
      new;
      ids.nextId := ids.nextId + 1;

      InitSensors(proximity, log, x, y, geometry.radius);
    }

    /** Clamp the command and hand the resulting wheel speeds to the drive;
        nothing else changes. */
    method Move(v: real, omega: real)
      requires Valid()
      modifies kinematics, log
      ensures kinematics.Speeds() == Command(geometry, v, omega)
      ensures kinematics.Angles() == old(kinematics.Angles())
      ensures log.events == old(log.events)
              + [DriveSpeedsSet(Command(geometry, v, omega).left, Command(geometry, v, omega).right)]
    {
      var w := Command(geometry, v, omega);
      kinematics.SetDriveSpeeds(w.left, w.right);
    }

    /** Integrate the drive's wheel angles into the pose, then place every
        proximity sensor from the new heading and have it recompute its
        points at the position held before the update. */
    method UpdatePose()
      requires Valid()
      modifies log, pose, SensorPoses()
      ensures pose.State() == NextPose(geometry, math, old(pose.State()), kinematics.Angles())
      ensures forall i :: 0 <= i < |proximity| ==>
                proximity[i].pose.State() == SensorPose(math, geometry.radius, pose.theta, proximity[i].initialPos)
      ensures log.events == old(log.events) + [PoseSet(pose, pose.State())]
              + SensorEvents(proximity, math, geometry.radius, pose.theta, old(pose.x), old(pose.y))
    {
      var p := pose.State();
      var q := NextPose(geometry, math, p, kinematics.Angles());
      pose.SetPose(q.x, q.y, q.theta);
      PlaceSensors(proximity, log, math, geometry.radius, q.theta, p.x, p.y);
    }

    /** One tick: advance the drive, notify the two encoders of the new
        wheel angles, then update the pose and the sensors. */
    method Update(dt: real)
      requires Valid() && 0.0 <= dt && |encoders| >= 2
      modifies kinematics, log, pose, SensorPoses()
      ensures kinematics.Angles() == kinematics.integrate(old(kinematics.Angles()), old(kinematics.Speeds()), dt)
      ensures kinematics.Speeds() == old(kinematics.Speeds())
      ensures pose.State() == NextPose(geometry, math, old(pose.State()), kinematics.Angles())
      ensures forall i :: 0 <= i < |proximity| ==>
                proximity[i].pose.State() == SensorPose(math, geometry.radius, pose.theta, proximity[i].initialPos)
      ensures log.events == old(log.events)
              + [DriveUpdated(dt),
                 EncoderUpdated(encoders[0], kinematics.angleLeft),
                 EncoderUpdated(encoders[1], kinematics.angleRight),
                 PoseSet(pose, pose.State())]
              + SensorEvents(proximity, math, geometry.radius, pose.theta, old(pose.x), old(pose.y))
    {
      ghost var p := pose.State();
      kinematics.Update(dt);
      var a := kinematics.Angles();
      encoders[0].Update(a.left);
      encoders[1].Update(a.right);
      ghost var notified := log.events;
      assert notified == old(log.events) + [DriveUpdated(dt), EncoderUpdated(encoders[0], a.left), EncoderUpdated(encoders[1], a.right)];
      assert pose.State() == p;
      UpdatePose();
    }
  }
}
