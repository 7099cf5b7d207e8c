# Differential-drive robot step, modelled in Dafny

This project models `DifferentialDriveRobot` from the multi-robot 2D
simulator. That class is the kinematic core of a two-wheeled robot:

- `move(v, omega)` clamps a commanded linear and angular speed to the
  robot's bounds. It turns the clamped command into left and right wheel
  angular speeds with the unicycle-to-differential-drive transform,
  `wl = (2v - omega*l) / (2r)` and `wr = (2v + omega*l) / (2r)`, and hands
  them to the drive.
- `update(dt)` advances the drive. It notifies the two wheel encoders of the
  new wheel angles. It then integrates the wheel angles into the pose: the
  centre moves along the old heading, the heading turns by `(dr - dl) / l`
  and is normalised. Finally every proximity sensor's pose is set from the
  new heading, and the sensor recomputes its detection points.
- Construction sets the initial pose. It takes the robot id from the
  class-wide counter and increments the counter. It numbers the proximity
  sensors 0..N-1 in list order.

The model has two modules:

- `kinematics.dfy`, module `DriveKinematics`, holds the arithmetic as pure
  functions over `real`. This covers clamping, the wheel-speed transform and
  its inverse, the pose step and the sensor pose. `cos`, `sin` and
  `normalize_angle` are not interpreted: they are the three fields of a
  `Trig` value given by the caller. Every property therefore holds for any
  choice of those functions.
- `robot.dfy`, module `DdRobot`, holds the robot as a class.
  - Its collaborators are classes too: the pose, the drive, the encoders and
    the proximity sensors.
  - All collaborators share one `CallLog`. Each call the robot makes on one
    of them appends an `Event`.
  - Because of this, the contracts of `move`, `update`, the pose update and
    the constructor give the exact sequence of calls, their arguments and
    their order.
  - The class-level counter `Robot.next_id` is an object of its own,
    `RobotIds`. It is passed to the constructor.

Points of the code the model keeps as written:

- `compute_sensors_points` receives the robot position read *before* the
  pose is updated: (x, y) is read at
  `components/robots/models/ddrobot.py:80` and passed at `:99`, after
  `set_pose` at `:92`.
- With r = 0.02 and l = 0.1, the code's formula turns `move(0, 1.0)` into
  wheel speeds (-2.5, 2.5). Wheel angles (-2.5, 2.5) turn the heading by
  1.0 rad. `RotationCommand` and `RotationTick` state these values.
- The code checks neither the wheel radius nor the wheel base for zero, and
  does not check the sign of `world_unit_time`. The model takes a non-zero
  radius and base (`WellFormed`) and `0.0 <= dt` (on `Update`) as
  preconditions.
- The code does not bound the normalised heading, because `normalize_angle`
  lives outside this file. The model claims no range for it.
- The robot always uses the same `math.cos`, `math.sin` and
  `utilities.normalize_angle`. The model fixes them per robot as the
  constant `math`, which the constructor sets.

## Model

| member | source | states |
|---|---|---|
| `DriveKinematics.Clamp` | components/robots/models/ddrobot.py:41-42 | With a non-negative bound, the result lies in [-bound, bound]. A value already in range is unchanged. A value above the bound becomes the bound, and one below -bound becomes -bound. A negative bound always yields -bound. |
| `DriveKinematics.ClampIdempotent` | components/robots/models/ddrobot.py:41-42 | Clamping twice with the same bound equals clamping once, for every bound. |
| `DriveKinematics.InverseKinematics` | components/robots/models/ddrobot.py:52-53 | The wheel speeds satisfy r*(wl+wr)/2 == v and r*(wr-wl) == omega*l. omega == 0 gives wl == wr. v == 0 gives wl == -wr. |
| `DriveKinematics.ForwardKinematics` | components/robots/models/ddrobot.py:74-76 | The body motion of wheel rotations w: omega*l == r*(w.right - w.left), so equal wheel values give no turn and opposite wheel values give no linear motion. This is the reference `Command` and `NextPose` are stated against (dc and (dr - dl)/l of lines 76 and 86). |
| `DriveKinematics.ForwardOfInverse` | components/robots/models/ddrobot.py:52-53 | With r and l non-zero, the forward transform of the wheel speeds computed for a twist gives back that twist. |
| `DriveKinematics.InverseOfForward` | components/robots/models/ddrobot.py:52-53 | With r and l non-zero, the wheel speeds computed for the forward transform of w are w, so the transform of lines 52-53 is a bijection. |
| `DriveKinematics.Command` | components/robots/models/ddrobot.py:41-53 | The wheel speeds `move` hands to the drive produce exactly the clamped (v, omega): r*(wl+wr)/2 is the clamped v and r*(wr-wl)/l is the clamped omega. A clamped omega of 0 gives wl == wr. A clamped v of 0 gives wl == -wr. |
| `DriveKinematics.NextPose` | components/robots/models/ddrobot.py:73-89 | The new pose is an Euler step of the unicycle driven by the forward transform of the wheel angles. The centre moves (angle_l*r + angle_r*r)/2 along the *old* heading. The heading becomes normalize(theta + (dr - dl)/l). |
| `DriveKinematics.EqualWheelAngles` | components/robots/models/ddrobot.py:74-89 | Equal wheel angles move the robot r*angle along its old heading, and the new heading is normalize(theta). |
| `DriveKinematics.OppositeWheelAngles` | components/robots/models/ddrobot.py:74-89 | angle_l == -angle_r leaves x and y unchanged, and the new heading is normalize(theta + 2*r*angle_r/l). |
| `DriveKinematics.ForwardOfIntegrated` | components/robots/models/ddrobot.py:74-86 | Scaling both wheel angles by dt scales the centre displacement and the heading change by dt. |
| `DriveKinematics.CommandedTick` | components/robots/models/ddrobot.py:41-89 | Take `move(v, omega)` and then wheel angles of speed*dt from zero. The pose then moves clamped v*dt along the old heading and turns by clamped omega*dt, so a clamped omega of 0 keeps the heading up to normalisation and a clamped v of 0 keeps the position. With a negative bound, a zero command clamps to a non-zero one, as `Clamp` states. |
| `DriveKinematics.SensorPose` | components/robots/models/ddrobot.py:95-98 | A sensor's heading is normalize(robot heading + the sensor's initial_pos). Wherever cos^2 + sin^2 = 1 at that heading, the sensor lies at distance `geometry.radius` from the robot centre, on the body circle. |
| `DriveKinematics.StraightCommand` | components/robots/models/ddrobot.py:41-53 | With r = 0.02, l = 0.1 and bounds 0.5 and 5.0, `move(0.1, 0)` gives both wheels 5.0 rad/s. |
| `DriveKinematics.StraightTick` | components/robots/models/ddrobot.py:74-89 | Wheel angles (5.0, 5.0) from the origin give the pose (0.1*cos 0, 0.1*sin 0, normalize(0)). |
| `DriveKinematics.RotationCommand` | components/robots/models/ddrobot.py:41-53 | In the same geometry, `move(0, 1.0)` gives wheel speeds (-2.5, 2.5). |
| `DriveKinematics.RotationTick` | components/robots/models/ddrobot.py:74-89 | Wheel angles (-2.5, 2.5) from the origin leave the position at (0, 0), and the heading becomes normalize(1.0). |
| `DdRobot.SensorEvents` | components/robots/models/ddrobot.py:96-99 | A pose update makes exactly two calls per proximity sensor. |
| `DdRobot.SensorEventsAt` | components/robots/models/ddrobot.py:96-99 | Sensor k's pose is set at call 2k, from the new heading and its own offset. Its points are recomputed at call 2k+1, with the pre-update (x, y) and the body radius. |
| `DdRobot.SensorPointsComputedOnce` | components/robots/models/ddrobot.py:96-99 | For distinct sensors, each sensor's detection points are recomputed exactly once per pose update. |
| `DdRobot.InitEvents` | components/robots/models/ddrobot.py:26-28 | Construction makes exactly two calls per proximity sensor. |
| `DdRobot.InitEventsAt` | components/robots/models/ddrobot.py:26-28 | At construction, sensor k gets id k at call 2k. It recomputes its points at the initial (x, y) with the body radius at call 2k+1. |
| `DdRobot.SensorIdSetOnce` | components/robots/models/ddrobot.py:26-28 | For distinct sensors, each sensor's id is set exactly once at construction, to its position in the list. |
| `DdRobot.Pose.SetPose` | components/robots/models/ddrobot.py:92 | All three pose fields are written by one call. |
| `DdRobot.DifferentialDrive.constructor` | components/robots/models/ddrobot.py:20 | A fresh drive starts with zero target speeds and zero wheel angles (an assumption, see "Left out"). |
| `DdRobot.DifferentialDrive.SetDriveSpeeds` | components/robots/models/ddrobot.py:55 | The target speeds are set and the wheel angles are untouched. |
| `DdRobot.DifferentialDrive.Update` | components/robots/models/ddrobot.py:106 | The wheel angles advance by the drive's own (unmodelled) rule and the target speeds are kept (an assumption, see "Left out"). |
| `DdRobot.Encoder.Update` | components/robots/models/ddrobot.py:111-112 | The call is recorded with the angle it is given. |
| `DdRobot.ProximitySensor.SetId` | components/robots/models/ddrobot.py:27 | The sensor's id becomes the given index. |
| `DdRobot.ProximitySensor.ComputeSensorsPoints` | components/robots/models/ddrobot.py:28 | The call is recorded with the position and radius it is given. |
| `DdRobot.PlaceSensors` | components/robots/models/ddrobot.py:95-99 | Each sensor's pose becomes `SensorPose` of the given heading. The calls on the sensors are exactly `SensorEvents`, in list order. |
| `DdRobot.InitSensors` | components/robots/models/ddrobot.py:25-28 | Sensor i gets id i. The calls on the sensors are exactly `InitEvents`, in list order. |
| `DdRobot.DifferentialDriveRobot.constructor` | components/robots/models/ddrobot.py:19-28 | The initial pose is (x, y, theta), each defaulting to 0.0 as in the code, and the robot keeps the geometry, sensors and math functions it is given. The id is the old `next_id`, and the counter grows by exactly 1. Sensor i gets id i. The calls on the sensors are exactly `InitEvents`, in list order. |
| `DdRobot.DifferentialDriveRobot.Move` | components/robots/models/ddrobot.py:34-55 | The drive's target speeds become `Command(geometry, v, omega)` through one `set_drive_speeds` call. The wheel angles stay the same. Nothing outside the drive and the log is modified. |
| `DdRobot.DifferentialDriveRobot.UpdatePose` | components/robots/models/ddrobot.py:68-99 | The pose becomes `NextPose` of the old pose and the drive's current angles, under the robot's own `math`, written by one `set_pose`. Each sensor's pose becomes `SensorPose` of the new heading. The calls are this `set_pose` followed by `SensorEvents`, using the pre-update position. |
| `DdRobot.DifferentialDriveRobot.Update` | components/robots/models/ddrobot.py:102-115 | The calls run in this order: one drive update with dt; the left and right encoders with the angles read after that update; the pose's `set_pose`; then the sensor calls. The pose and the sensor poses are those of `UpdatePose`, and the target speeds are kept. |

## Left out

- Floating point: the model is over exact reals, so rounding is not modelled.
- `math.cos`, `math.sin` and `utilities.normalize_angle` are not
  interpreted. They are supplied as a `Trig` value, so no range of the
  normalised heading and no trigonometric identity is assumed. The one
  exception is the body-circle clause of `SensorPose`, which takes
  cos^2 + sin^2 = 1 as a hypothesis.
- How `DifferentialDrive.update` advances the wheel angles is not modelled.
  It is a function fixed when the drive is built. Whether
  `get_wheel_angles` gives cumulative or per-tick angles is therefore not
  modelled either. `CommandedTick` assumes angles of speed * dt from zero;
  results over several ticks are not stated.
- `components/robots/models/differential_drive.py` is not part of this
  model. What the model says about the drive is assumed, not derived:
- DdRobot.DifferentialDrive.constructor: assumes that a fresh
  `DifferentialDrive()` holds zero target speeds and zero wheel angles.
- DdRobot.DifferentialDrive.Update: assumes that `update` changes only the
  wheel angles, by a rule fixed when the drive is built, and keeps the target
  speeds.
- `components/robots/interfaces/robot.py` and
  `components/robots/models/pose.py` are not part of this model. The base
  constructor is taken to store the geometry, the drive and the sensors.
  `Pose` is taken to hold three fields written by `set_pose`.
- Encoder internals and the sensors' detection geometry are not modelled.
  Only the calls they receive and the arguments of those calls are recorded.
- Aliasing: the constructor requires distinct sensor objects, each with a
  pose object of its own. The code does not check this. With shared
  objects, later writes would overwrite earlier ones.
- `Update` requires at least two encoders. The code indexes `encoders[0]`
  and `encoders[1]` without a check.
- `neigh_list`, the commented-out alternative clamping (lines 43-49) and the
  unused `CONFIG` import are not modelled.
