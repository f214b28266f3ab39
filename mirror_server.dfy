/**
  The mirroring node as an object: its fields are the module-level globals of
  the node, and its three methods are the handlers, updating those fields in
  place. Each method is proved to do what the matching function of
  MirrorState says; the properties of those functions carry over.
*/
module MirrorServer {
  import opened MirrorState

  class Server {
    var start: int
    var calibrated: bool
    var initPoseHand: seq<real>
    var initOrientHand: seq<real>
    var initPoseBaxter: seq<real>
    var initOrientBaxter: seq<real>
    /** The arm that `arm` controls, once a calibration has named one. */
    var limb: Option<string>

    /** The globals as one value. */
    function State(): Globals
      reads this
    {
      Globals(start, calibrated, initPoseHand, initOrientHand, initPoseBaxter, initOrientBaxter, limb)
    }

    ghost predicate Valid()
      reads this
    {
      Inv(State())
    }

    /** Module initialisation: stopped, not calibrated, all reference lists empty. */
    constructor ()
      ensures Valid() && State() == Initial
    {
      start := 0;
      calibrated := false;
      initPoseHand := [];
      initOrientHand := [];
      initPoseBaxter := [];
      initOrientBaxter := [];
      limb := None;
    }

    /** The calibrate_mirroring service; `pose` is what the arm reports as its endpoint pose. */
    method Calibrate(req: CalibrateRequest, pose: ArmPose) returns (reply: Reply)
      requires Valid()
      modifies this
      ensures Valid()
      ensures (State(), reply) == CalibrateStep(old(State()), req, pose)
    {
      if !IsLimbName(req.limb) {
        return Status(ERROR);
      }
      limb := Some(req.limb);
      ghost var pose0, orient0 := initPoseHand, initOrientHand;

      if |req.position| < 1 {
        assert initPoseHand == pose0 + req.position;
        return Raised;
      }
      initPoseHand := initPoseHand + [req.position[0]];
      if |req.position| < 2 {
        assert req.position == [req.position[0]];
        assert initPoseHand == pose0 + req.position;
        return Raised;
      }
      initPoseHand := initPoseHand + [req.position[1]];
      if |req.position| < 3 {
        assert req.position == [req.position[0], req.position[1]];
        assert initPoseHand == pose0 + req.position;
        return Raised;
      }
      initPoseHand := initPoseHand + [req.position[2]];
      assert initPoseHand == pose0 + req.position[..3];

      if |req.quaternion| < 1 {
        assert initOrientHand == orient0 + req.quaternion;
        return Raised;
      }
      initOrientHand := initOrientHand + [req.quaternion[0]];
      if |req.quaternion| < 2 {
        assert req.quaternion == [req.quaternion[0]];
        assert initOrientHand == orient0 + req.quaternion;
        return Raised;
      }
      initOrientHand := initOrientHand + [req.quaternion[1]];
      if |req.quaternion| < 3 {
        assert req.quaternion == [req.quaternion[0], req.quaternion[1]];
        assert initOrientHand == orient0 + req.quaternion;
        return Raised;
      }
      initOrientHand := initOrientHand + [req.quaternion[2]];
      if |req.quaternion| < 4 {
        assert req.quaternion == [req.quaternion[0], req.quaternion[1], req.quaternion[2]];
        assert initOrientHand == orient0 + req.quaternion;
        return Raised;
      }
      initOrientHand := initOrientHand + [req.quaternion[3]];
      assert initOrientHand == orient0 + req.quaternion[..4];

      initPoseBaxter := pose.position;
      initOrientBaxter := pose.orientation;
      calibrated := true;
      return Status(OK);
    }

    /** The enable_mirroring service: mode 1 starts, mode 0 stops. */
    method EnableMirroring(mode: uint8) returns (status: int)
      requires Valid()
      modifies this
      ensures Valid()
      ensures (State(), status) == EnableStep(old(State()), mode)
    {
      if mode == 1 {
        if start == 0 {
          if !calibrated {
            return ERROR;
          } else {
            start := 1;
            return OK;
          }
        } else {
          return ERROR;
        }
      } else if mode == 0 {
        if start == 1 {
          start := 0;
          calibrated := false;
          return OK;
        } else {
          return ERROR;
        }
      } else {
        return ERROR;
      }
    }

    /**
      The subscriber of `mirror_end_effector`. `ik` is what the IK service
      answers for the request this call makes; the effect records the request
      and the move. The globals are only read.
    */
    method MirrorCallback(data: HandSample, ik: IkOutcome) returns (effect: Effect)
      requires Valid()
      ensures effect == Relay(State(), data, ik)
    {
      if start != 1 {
        return Ignored;
      }
      if |data.position| < 3 || |data.quaternion| < 4 {
        return SampleRejected;
      }
      var pos := [];
      pos := pos + [initPoseBaxter[0] + (data.position[0] - initPoseHand[0])];
      pos := pos + [initPoseBaxter[1] + (data.position[1] - initPoseHand[1])];
      pos := pos + [initPoseBaxter[2] + (data.position[2] - initPoseHand[2])];

      var orient := [];
      orient := orient + [initOrientBaxter[0] + (data.quaternion[0] - initOrientHand[0])];
      orient := orient + [initOrientBaxter[1] + (data.quaternion[1] - initOrientHand[1])];
      orient := orient + [initOrientBaxter[2] + (data.quaternion[2] - initOrientHand[2])];
      orient := orient + [initOrientBaxter[3] + (data.quaternion[3] - initOrientHand[3])];

      assert pos == Target(initPoseBaxter, data.position, initPoseHand, 3);
      assert orient == Target(initOrientBaxter, data.quaternion, initOrientHand, 4);
      var request := IkRequest("left", pos, orient);
      match ik {
        case ServiceFailure =>
          effect := IkServiceError(request);
        case Solution(isError, joints) =>
          if isError == 1 {
            effect := Unreachable(request);
          } else {
            effect := Moved(request, limb.value, joints);
          }
      }
    }
  }
}
