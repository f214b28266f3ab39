# Mirror server: a Dafny model of the Baxter mirroring controller

This project models the mirroring node of the gesture-based interface for the
Baxter robot (`BaxterGBI_pbr/scripts/mirror_server.py`). The node lets a
tracked human hand steer one arm of the robot. It keeps a small amount of
module-level state: the arm flag `start`, the `calibrated` flag, the two hand
reference lists (`init_pose_hand`, `init_orient_hand`), the two robot
reference lists (`init_pose_baxter`, `init_orient_baxter`), and the arm object
`arm` with its name `limb`. Three handlers read and change that state:

- `calibrate` (the `calibrate_mirroring` service) checks the arm name. It then
  appends the hand pose of the request to the hand lists, overwrites the robot
  reference with the arm's current endpoint pose, and marks the node calibrated.
- `enableMirroring` (the `enable_mirroring` service) starts mirroring (mode 1)
  or stops it (mode 0). It answers 0 for success and 1 for an error. Stopping
  also drops the calibration.
- `mirror_callback` (the subscriber of `mirror_end_effector`) acts only while
  mirroring is started. For each component it computes the robot reference plus
  the distance of the sample from the hand reference. It asks the IK service
  for a left-arm solution and moves the arm only when the solver reports no
  error.

The model has three files:

- `mirror_state.dfy` (module `MirrorState`) holds the globals as one value
  (`Globals`), the invariant they keep (`Inv`), and each handler as a function
  on that value: `CalibrateStep`, `EnableStep` and `Relay`. The offset transform
  is `Target`. `Step` and `Run` cover one serialised call and a sequence of them.
- `mirror_server.dfy` (module `MirrorServer`) is the node as a class `Server`.
  Its fields are the globals. Its methods update them in place, with the same
  successive appends as the Python code. Each method is proved to produce
  exactly the state and answer of the matching function.
- `mirror_properties.dfy` (module `MirrorProperties`) holds lemmas over
  sequences of calls. They cover what stopping does to the calibration, which
  hand reference stays in effect after a recalibration, the offset transform,
  and a complete calibrate, start, sample scenario.

Everything outside the node is a parameter or a recorded result:

- the endpoint pose that `arm.endpoint_pose()` returns is an input `ArmPose`
  (a point and a quaternion, as the SDK reports them);
- the answer of `ik_tracking` is an input `IkOutcome`: either a solution record
  with `isError` and the joint map, or a `rospy.ServiceException`;
- the IK request and the move command are returned as an `Effect` value;
- Python floats are idealised as `real`.

Request and sample arrays are sequences of any length. The Python code indexes
them one component at a time, so a short array raises `IndexError`. The model
keeps that behaviour. In `calibrate`, the appends made before the failing index
remain and the reply is `Raised`. In `mirror_callback`, the sample is rejected
before any IK request.

Two consequences of the code are worth stating, because they are easy to
miss when reading it:

- A new calibration does not replace the hand reference. The code overwrites
  only the robot reference (lines 79-80). It appends the hand pose to the hand
  lists (lines 68-74), and the relay reads only their first 3 and 4 entries
  (lines 110-112, 124-127). So the hand reference in effect is made of the
  first 3 and 4 values ever appended: those of the first successful
  calibration, unless an earlier request raised part-way and left some of its
  own values behind. After a stop and a recalibration, the old hand reference
  is paired with the new arm pose. `HandReferenceFixedOnceSet`,
  `HandReferenceIsFirstCalibration`, `PartialCalibrationSetsHandPosition` and
  `RecalibrationKeepsOldOffset` state this.
- The move is sent to `arm`, the arm named by the latest calibrate request
  with a valid arm name, including one that raised (lines 63-64 set it before
  the appends that can raise). IK is always solved for `"left"` (lines 133,
  139). The model keeps both: `Moved` records the requested limb and the moved
  arm separately. `RaisedCalibrationSwitchesArm` shows a failed request for the
  right arm making a started node move the right arm with the left arm's
  reference.

## Model

| member | source | states |
|---|---|---|
| `MirrorState.CalibrateStep` | BaxterGBI_pbr/scripts/mirror_server.py:47-88 | ERROR exactly for an arm name other than "left"/"right", with no state change. OK exactly for a valid name with at least 3 position and 4 quaternion values: the node is calibrated, the 3 and 4 values are appended in request order, the robot reference becomes the endpoint pose, and the arm is selected. Otherwise the handler raises: the values appended are the leading values of the request's arrays, up to the first missing index (the quaternion is not touched when the position is short), and `start`, `calibrated` and the robot reference are unchanged. The hand lists only grow and the invariant is kept. |
| `MirrorState.EnableStep` | BaxterGBI_pbr/scripts/mirror_server.py:144-176 | Answers OK exactly when mode 1 finds mirroring stopped and the node calibrated (then `start` becomes 1), or when mode 0 finds it started (then `start` becomes 0 and `calibrated` false). Every other case, including any other mode, answers ERROR and changes nothing. The invariant is kept. |
| `MirrorState.Target` | BaxterGBI_pbr/scripts/mirror_server.py:108-127 | Each target component differs from the robot reference by exactly as much as the sample differs from the hand reference. |
| `MirrorState.Relay` | BaxterGBI_pbr/scripts/mirror_server.py:91-141 | Nothing happens exactly when `start != 1`. An IK request is made exactly when mirroring is started and the sample has 3 position and 4 quaternion values. The request is for "left", and each of its 3 + 4 components satisfies target - robot reference = sample - hand reference. A move happens exactly when the solver answers with `isError != 1`, and no service exception occurred; it uses the solver's joints and the arm named by the latest calibrate request with a valid arm name, including one that raised (lines 63-64). |
| `MirrorState.Step` | BaxterGBI_pbr/scripts/mirror_server.py:191-198 | One call of any of the three handlers keeps the invariant, and a pose sample never changes the globals. |
| `MirrorState.Run` | BaxterGBI_pbr/scripts/mirror_server.py:191-207 | Any sequence of calls keeps the invariant and gives one output per call. |
| `MirrorServer.Server.constructor` | BaxterGBI_pbr/scripts/mirror_server.py:38-44 | The node starts stopped and uncalibrated, with all reference lists empty; the invariant holds. |
| `MirrorServer.Server.Calibrate` | BaxterGBI_pbr/scripts/mirror_server.py:47-88 | Updating the fields by successive appends and overwrites gives exactly the state and reply of `CalibrateStep`, and keeps the invariant. |
| `MirrorServer.Server.EnableMirroring` | BaxterGBI_pbr/scripts/mirror_server.py:144-176 | Gives exactly the state and status code of `EnableStep`, and keeps the invariant. |
| `MirrorServer.Server.MirrorCallback` | BaxterGBI_pbr/scripts/mirror_server.py:91-141 | Changes no field. Building the target lists by successive appends gives exactly the effect of `Relay`. |
| `MirrorProperties.NoCalibrationKeepsStopped` | BaxterGBI_pbr/scripts/mirror_server.py:153-173 | While no calibration arrives, an uncalibrated node stays stopped and uncalibrated, and every enable request it gets is answered with ERROR. |
| `MirrorProperties.StartStopUncalibrates` | BaxterGBI_pbr/scripts/mirror_server.py:153-170 | A start followed by a stop leaves the node uncalibrated, from any state. |
| `MirrorProperties.StartStopStartFails` | BaxterGBI_pbr/scripts/mirror_server.py:153-173 | Start, stop, any calls without a calibration, then start: the last start answers ERROR, from any state. |
| `MirrorProperties.RunOnlyAppends` | BaxterGBI_pbr/scripts/mirror_server.py:68-74 | Over any sequence of calls, the hand lists keep their earlier contents as a prefix. |
| `MirrorProperties.HandReferenceFixedOnceSet` | BaxterGBI_pbr/scripts/mirror_server.py:68-74 | Once the hand lists hold 3 and 4 entries, their first 3 and 4 entries stay the same through any later calls. |
| `MirrorProperties.HandReferenceIsFirstCalibration` | BaxterGBI_pbr/scripts/mirror_server.py:67-74 | When the node's first calibrate call succeeds, then after any later calls, including further calibrations, the first 3 and 4 hand-list entries are still the hand pose of that calibration. |
| `MirrorProperties.PartialCalibrationSetsHandPosition` | BaxterGBI_pbr/scripts/mirror_server.py:68-74 | On a fresh node, a request with a full position and an empty quaternion raises after appending the position. A later successful calibration then leaves that failed request's position as the hand position in effect, with its own quaternion as the hand orientation. |
| `MirrorProperties.RaisedCalibrationSwitchesArm` | BaxterGBI_pbr/scripts/mirror_server.py:62-74 | Calibrate the left arm, start, then send a calibrate request for the right arm with empty arrays. It raises, and the node stays started and calibrated with the left arm's pose as robot reference. The next sample asks IK for the left arm but moves the right arm. |
| `MirrorProperties.RelayUsesFirstCalibration` | BaxterGBI_pbr/scripts/mirror_server.py:108-127 | When the node's first calibrate call succeeds, then after any later calls, every IK target differs from the current robot reference by the distance of the sample from that calibration's hand pose. |
| `MirrorProperties.SecondCalibrationKeepsFirstHandPose` | BaxterGBI_pbr/scripts/mirror_server.py:68-80 | Two successful calibrations on a fresh node: the robot reference is the second arm pose, the hand lists hold both hand poses in order, and the first hand pose is the one in effect. |
| `MirrorProperties.RelayAfterHandMoved` | BaxterGBI_pbr/scripts/mirror_server.py:107-112 | When mirroring is started, the target position is the robot reference position shifted by the distance of the sample's position from the hand reference position. It is the robot reference position itself exactly when the sample's position equals the hand reference position. |
| `MirrorProperties.RecalibrationKeepsOldOffset` | BaxterGBI_pbr/scripts/mirror_server.py:68-112 | Calibrate twice, start, and send the second calibration's hand pose. The target position is the second arm position shifted by how far the hand position moved between the calibrations. It equals the second arm position exactly when the hand position did not move. |
| `MirrorProperties.EndToEndScenario` | BaxterGBI_pbr/scripts/mirror_server.py:91-139 | Calibrate the left arm with the hand at the origin and the arm at (1, 1, 1), start, and send a sample 0.1 along x. Both services answer 0, IK is asked for (1.1, 1, 1) with the orientation unchanged, and the left arm is moved to the solver's joints. |
| `MirrorProperties.TargetAtHandReference` | BaxterGBI_pbr/scripts/mirror_server.py:110-112 | A sample equal to the hand reference is sent to the robot reference. |
| `MirrorProperties.TargetInverse` | BaxterGBI_pbr/scripts/mirror_server.py:110-112 | Applying the transform with the two references exchanged maps a target back to its sample. |

## Left out

- `mirror_server()` (lines 178-210) is not modelled: node start-up, enabling and disabling the robot, service and subscriber registration, `rospy.spin` and the shutdown hook are middleware plumbing.
- `Limb(...)`, `arm.endpoint_pose()`, `arm.joint_angles()`, `ik_tracking` and `arm.move_to_joint_positions` are SDK and service calls. They become inputs (`ArmPose`, `IkOutcome`) and a recorded `Effect`. The `arm.joint_angles()` read only feeds a log line and is dropped.
- `IkOutcome` is a free input. The model does not relate the solver's answer to the request the node sends; the solver is not part of this model.
- Exceptions other than `IndexError` on a short request or sample and `rospy.ServiceException` from the IK call are not modelled. This includes a failing `Limb(...)` constructor and errors raised by the move command.
- Logging (`rospy.loginfo`, `logwarn`, `logerr`) is not modelled.
- Floating-point rounding is not modelled: the offset arithmetic is over `real`. The quaternion offset is applied component by component and is not renormalised, as in the code.
- Concurrent dispatch of callbacks is not modelled: the handlers are serialised method calls on one object.
- When `start` is neither 0 nor 1, the Python handler `enableMirroring` falls through and returns `None` for mode 1 (lines 153-164) and for mode 0 (lines 165-173). The invariant rules that state out, so the model has no such case.
- `baxter_gbi_core/src/gbi_states/PlayState.py` is not modelled. It is a thin adapter over an action client, a service proxy and a state-machine base class that is not part of this model. Its only local logic is fixed goal fields and a status string.
