/**
  The mirroring node's global state and its three handlers (calibrate,
  enableMirroring, mirror_callback), written as functions on a value of that
  state. The class in MirrorServer is proved to behave as these functions say;
  the lemmas in MirrorProperties reason about sequences of calls with them.

  Everything outside the node is a parameter: the arm's endpoint pose that
  calibrate reads, the answer of the inverse-kinematics service, and the move
  command, which is recorded as an Effect instead of being performed.
*/
module MirrorState {

  datatype Option<T> = None | Some(value: T)

  /** Status codes returned by the two services. */
  const OK: int := 0
  const ERROR: int := 1

  /** The `mode` field of an EnableMirroring request is an unsigned byte. */
  newtype uint8 = x: int | 0 <= x < 256

  predicate IsLimbName(s: string) {
    s == "left" || s == "right"
  }

  /** A CalibrateMirror request. Its two arrays may have any length. */
  datatype CalibrateRequest = CalibrateRequest(limb: string, position: seq<real>, quaternion: seq<real>)

  /** An arm's endpoint pose as the robot SDK reports it. */
  datatype EndpointPose = EndpointPose(position: seq<real>, orientation: seq<real>)

  /** The SDK always reports a point (x, y, z) and a quaternion (x, y, z, w). */
  type ArmPose = p: EndpointPose | |p.position| == 3 && |p.orientation| == 4
    witness EndpointPose([0.0, 0.0, 0.0], [0.0, 0.0, 0.0, 1.0])

  /** One message of the `mirror_end_effector` topic. Its arrays may have any length. */
  datatype HandSample = HandSample(position: seq<real>, quaternion: seq<real>)

  /** What the inverse-kinematics service answers: a solution record, or a service exception. */
  datatype IkOutcome = Solution(isError: int, limbJoints: map<string, real>) | ServiceFailure

  datatype IkRequest = IkRequest(limb: string, position: seq<real>, orientation: seq<real>)

  /** What one pose sample causes outside the node. */
  datatype Effect =
    | Ignored                                       // mirroring is not started
    | SampleRejected                                // the sample is too short: IndexError, no request
    | Unreachable(request: IkRequest)               // the solver reported isError == 1
    | IkServiceError(request: IkRequest)            // the service call raised
    | Moved(request: IkRequest, arm: string, joints: map<string, real>)
  {
    /** An inverse-kinematics request was sent. */
    predicate Requested() {
      Unreachable? || IkServiceError? || Moved?
    }
  }

  /** A service reply: a status code, or an exception raised inside the handler. */
  datatype Reply = Status(code: int) | Raised

  /** The module-level globals of the node. `limb` is the arm that `arm` was built for. */
  datatype Globals = Globals(
    start: int,
    calibrated: bool,
    initPoseHand: seq<real>,
    initOrientHand: seq<real>,
    initPoseBaxter: seq<real>,
    initOrientBaxter: seq<real>,
    limb: Option<string>)

  /** The globals as the module initialises them. */
  const Initial: Globals := Globals(0, false, [], [], [], [], None)

  /**
    What every handler keeps: `start` is 0 or 1, mirroring runs only when
    calibrated, and being calibrated means both references and the arm exist.
  */
  predicate Inv(g: Globals) {
    (g.start == 0 || g.start == 1)
    && (g.start == 1 ==> g.calibrated)
    && (g.limb.Some? ==> IsLimbName(g.limb.value))
    && (g.calibrated ==>
          |g.initPoseHand| >= 3 && |g.initOrientHand| >= 4
          && |g.initPoseBaxter| == 3 && |g.initOrientBaxter| == 4
          && g.limb.Some?)
  }

  /** The first n elements of s, or all of s when it is shorter. */
  function UpTo(s: seq<real>, n: nat): (p: seq<real>)
    ensures p <= s
    ensures |p| == if |s| < n then |s| else n
  {
    if |s| < n then s else s[..n]
  }

  /**
    calibrate: an unknown arm name fails with ERROR and changes nothing.
    Otherwise the arm is selected, the request's hand position and quaternion
    are APPENDED to the hand lists one component at a time (an index past the
    end of the request raises and stops there), the robot reference is
    OVERWRITTEN with the arm's endpoint pose, and the node is calibrated.
    A request that raises part-way leaves behind the values it appended, which
    are the leading values of its own arrays.
  */
  function CalibrateStep(g: Globals, req: CalibrateRequest, pose: ArmPose): (r: (Globals, Reply))
    requires Inv(g)
    ensures Inv(r.0)
    ensures r.1 == Status(ERROR) <==> !IsLimbName(req.limb)
    ensures r.1 == Status(OK) <==> IsLimbName(req.limb) && |req.position| >= 3 && |req.quaternion| >= 4
    ensures r.1 == Status(ERROR) || r.1 == Status(OK) || r.1 == Raised
    ensures !IsLimbName(req.limb) ==> r.0 == g
    ensures r.1 == Status(OK) ==>
              r.0 == g.(calibrated := true,
                        initPoseHand := g.initPoseHand + req.position[..3],
                        initOrientHand := g.initOrientHand + req.quaternion[..4],
                        initPoseBaxter := pose.position,
                        initOrientBaxter := pose.orientation,
                        limb := Some(req.limb))
    ensures r.1 == Raised ==>
              r.0.start == g.start && r.0.calibrated == g.calibrated
              && r.0.initPoseBaxter == g.initPoseBaxter && r.0.initOrientBaxter == g.initOrientBaxter
              && r.0.limb == Some(req.limb)
              && |r.0.initPoseHand| + |r.0.initOrientHand| < |g.initPoseHand| + |g.initOrientHand| + 7
    ensures r.1 == Raised && |req.position| < 3 ==>
              r.0.initPoseHand == g.initPoseHand + req.position && r.0.initOrientHand == g.initOrientHand
    ensures r.1 == Raised && |req.position| >= 3 ==>
              r.0.initPoseHand == g.initPoseHand + req.position[..3]
              && r.0.initOrientHand == g.initOrientHand + req.quaternion
    ensures r.0.start == g.start
    ensures g.initPoseHand <= r.0.initPoseHand && g.initOrientHand <= r.0.initOrientHand
    ensures r.1 == Raised ==>
              r.0.initPoseHand[|g.initPoseHand|..] <= req.position
              && r.0.initOrientHand[|g.initOrientHand|..] <= req.quaternion
  {
    if !IsLimbName(req.limb) then
      (g, Status(ERROR))
    else
      var handPose := g.initPoseHand + UpTo(req.position, 3);
      var handOrient :=
        if |req.position| < 3 then g.initOrientHand else g.initOrientHand + UpTo(req.quaternion, 4);
      var appended := g.(limb := Some(req.limb), initPoseHand := handPose, initOrientHand := handOrient);
      if |req.position| < 3 || |req.quaternion| < 4 then
        (appended, Raised)
      else
        (appended.(initPoseBaxter := pose.position,
                   initOrientBaxter := pose.orientation,
                   calibrated := true),
         Status(OK))
  }

  /**
    enableMirroring: mode 1 starts mirroring when it is stopped and the node
    is calibrated; mode 0 stops it when it is started and drops the
    calibration. Every other case answers ERROR and changes nothing.
  */
  function EnableStep(g: Globals, mode: uint8): (r: (Globals, int))
    requires Inv(g)
    ensures Inv(r.0)
    ensures r.1 == OK || r.1 == ERROR
    ensures r.1 == OK <==> (mode == 1 && g.start == 0 && g.calibrated) || (mode == 0 && g.start == 1)
    ensures r.1 == ERROR ==> r.0 == g
    ensures r.1 == OK && mode == 1 ==> r.0 == g.(start := 1)
    ensures r.1 == OK && mode == 0 ==> r.0 == g.(start := 0, calibrated := false)
  {
    if mode == 1 then
      if g.start == 0 then
        if !g.calibrated then (g, ERROR) else (g.(start := 1), OK)
      else
        (g, ERROR)
    else if mode == 0 then
      if g.start == 1 then (g.(start := 0, calibrated := false), OK) else (g, ERROR)
    else
      (g, ERROR)
  }

  /**
    The offset-compensated target: each component is the robot reference
    moved by as much as the sample has moved away from the hand reference.
    Quaternion components are treated like any other number (no
    renormalisation).
  */
  function Target(robotRef: seq<real>, sample: seq<real>, handRef: seq<real>, n: nat): (t: seq<real>)
    requires n <= |robotRef| && n <= |sample| && n <= |handRef|
    ensures |t| == n
    ensures forall i :: 0 <= i < n ==> t[i] - robotRef[i] == sample[i] - handRef[i]
  {
    seq(n, i requires 0 <= i < n => robotRef[i] + (sample[i] - handRef[i]))
  }

  /**
    mirror_callback: nothing happens unless mirroring is started. Then the
    target pose is computed from the first 3 and 4 entries of the hand lists,
    IK is requested for the left arm, and a move of the arm named by the
    latest calibrate request with a valid arm name (even one that raised) is
    issued exactly when the solver answers without isError == 1.
  */
  function Relay(g: Globals, data: HandSample, ik: IkOutcome): (e: Effect)
    requires Inv(g)
    ensures e.Ignored? <==> g.start != 1
    ensures e.Requested() <==> g.start == 1 && |data.position| >= 3 && |data.quaternion| >= 4
    ensures e.Requested() ==>
              e.request.limb == "left"
              && |e.request.position| == 3 && |e.request.orientation| == 4
              && (forall i :: 0 <= i < 3 ==>
                    e.request.position[i] - g.initPoseBaxter[i] == data.position[i] - g.initPoseHand[i])
              && (forall i :: 0 <= i < 4 ==>
                    e.request.orientation[i] - g.initOrientBaxter[i] == data.quaternion[i] - g.initOrientHand[i])
    ensures e.Moved? <==> e.Requested() && ik.Solution? && ik.isError != 1
    ensures e.Unreachable? <==> e.Requested() && ik.Solution? && ik.isError == 1
    ensures e.Moved? ==> e.joints == ik.limbJoints && g.limb == Some(e.arm)
  {
    if g.start != 1 then
      Ignored
    else if |data.position| < 3 || |data.quaternion| < 4 then
      SampleRejected
    else
      var pos := Target(g.initPoseBaxter, data.position, g.initPoseHand, 3);
      var orient := Target(g.initOrientBaxter, data.quaternion, g.initOrientHand, 4);
      var request := IkRequest("left", pos, orient);
      match ik
      case ServiceFailure => IkServiceError(request)
      case Solution(isError, joints) =>
        if isError == 1 then Unreachable(request) else Moved(request, g.limb.value, joints)
  }

  /** One call into the node: a service request or a topic message. */
  datatype Event =
    | CalibrateCall(req: CalibrateRequest, pose: ArmPose)
    | EnableCall(mode: uint8)
    | SampleArrival(data: HandSample, ik: IkOutcome)

  datatype Output = Replied(reply: Reply) | Relayed(effect: Effect)

  /** One serialised call. A pose sample never changes the globals. */
  function Step(g: Globals, e: Event): (r: (Globals, Output))
    requires Inv(g)
    ensures Inv(r.0)
    ensures e.SampleArrival? ==> r.0 == g
  {
    match e
    case CalibrateCall(req, pose) =>
      var (g', reply) := CalibrateStep(g, req, pose);
      (g', Replied(reply))
    case EnableCall(mode) =>
      var (g', status) := EnableStep(g, mode);
      (g', Replied(Status(status)))
    case SampleArrival(data, ik) =>
      (g, Relayed(Relay(g, data, ik)))
  }

  /** A sequence of serialised calls, with one output per call; the invariant holds at the end. */
  function Run(g: Globals, evs: seq<Event>): (r: (Globals, seq<Output>))
    requires Inv(g)
    ensures Inv(r.0)
    ensures |r.1| == |evs|
    decreases |evs|
  {
    if evs == [] then
      (g, [])
    else
      var (g1, o) := Step(g, evs[0]);
      var (g2, os) := Run(g1, evs[1..]);
      (g2, [o] + os)
  }
}
