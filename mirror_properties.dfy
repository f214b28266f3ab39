/**
  Properties of the mirroring node over sequences of serialised calls: what
  stopping does to the calibration, which hand reference the relay uses after
  recalibration, and the offset transform itself.
*/
module MirrorProperties {
  import opened MirrorState

  /** No calibrate request among the calls. */
  predicate NoCalibration(evs: seq<Event>) {
    forall i :: 0 <= i < |evs| ==> !evs[i].CalibrateCall?
  }

  /**
    Without a calibration, an uncalibrated node stays stopped and uncalibrated,
    and every enable_mirroring request it receives is answered with ERROR.
  */
  lemma {:induction false} NoCalibrationKeepsStopped(g: Globals, evs: seq<Event>)
    requires Inv(g) && !g.calibrated && NoCalibration(evs)
    ensures !Run(g, evs).0.calibrated && Run(g, evs).0.start == 0
    ensures forall i :: 0 <= i < |evs| && evs[i].EnableCall? ==> Run(g, evs).1[i] == Replied(Status(ERROR))
    decreases |evs|
  {
    if evs != [] {
      var g1 := Step(g, evs[0]).0;
      NoCalibrationKeepsStopped(g1, evs[1..]);
      forall i | 0 < i < |evs| && evs[i].EnableCall?
        ensures Run(g, evs).1[i] == Replied(Status(ERROR))
      {
        assert evs[1..][i - 1] == evs[i];
      }
    }
  }

  /**
    Start, stop, any calls without a calibration, start again: the second
    start fails, whatever state the node was in. Stopping drops the
    calibration, so the node must be calibrated again before it can restart.
  */
  lemma StartStopStartFails(g: Globals, mid: seq<Event>)
    requires Inv(g) && NoCalibration(mid)
    ensures Run(g, [EnableCall(1), EnableCall(0)] + (mid + [EnableCall(1)])).1[|mid| + 2]
            == Replied(Status(ERROR))
  {
    var tail := mid + [EnableCall(1)];
    StartStopUncalibrates(g);
    var g2 := Step(Step(g, EnableCall(1)).0, EnableCall(0)).0;
    assert NoCalibration(tail) by {
      forall i | 0 <= i < |tail| ensures !tail[i].CalibrateCall? {
        if i < |mid| { assert tail[i] == mid[i]; }
      }
    }
    NoCalibrationKeepsStopped(g2, tail);
    assert tail[|mid|].EnableCall?;
    RunOutputAfterTwo(g, EnableCall(1), EnableCall(0), tail, |mid|);
  }

  /**
    A start followed by a stop leaves the node uncalibrated, whatever its
    state: either the start succeeds and the stop drops the calibration, or
    mirroring was already started and the stop drops it, or the node was
    never calibrated.
  */
  lemma StartStopUncalibrates(g: Globals)
    requires Inv(g)
    ensures !Step(Step(g, EnableCall(1)).0, EnableCall(0)).0.calibrated
  {
    var g1 := Step(g, EnableCall(1)).0;
    if g.start == 1 {
      assert g1 == g;
    } else if g.calibrated {
      assert g1 == g.(start := 1);
    } else {
      assert g1 == g;
    }
  }

  /** The output of a call after two others is the output it has when run after their state. */
  lemma RunOutputAfterTwo(g: Globals, e1: Event, e2: Event, rest: seq<Event>, k: nat)
    requires Inv(g) && k < |rest|
    ensures Run(g, [e1, e2] + rest).1[k + 2] == Run(Step(Step(g, e1).0, e2).0, rest).1[k]
  {
    var g1 := Step(g, e1).0;
    assert ([e1, e2] + rest)[1..] == [e2] + rest;
    assert ([e2] + rest)[1..] == rest;
    assert Run(g, [e1, e2] + rest).1 == [Step(g, e1).1] + Run(g1, [e2] + rest).1;
  }

  /** Running a call and then the rest is running the whole sequence. */
  lemma RunCons(g: Globals, e: Event, rest: seq<Event>)
    requires Inv(g)
    ensures Run(g, [e] + rest).0 == Run(Step(g, e).0, rest).0
    ensures Run(g, [e] + rest).1 == [Step(g, e).1] + Run(Step(g, e).0, rest).1
  {
    assert ([e] + rest)[0] == e;
    assert ([e] + rest)[1..] == rest;
  }

  /** Three calls in a row, one step at a time. */
  lemma RunThree(g: Globals, e1: Event, e2: Event, e3: Event)
    requires Inv(g)
    ensures var s1 := Step(g, e1); var s2 := Step(s1.0, e2); var s3 := Step(s2.0, e3);
            Run(g, [e1, e2, e3]) == (s3.0, [s1.1, s2.1, s3.1])
  {
    var s1 := Step(g, e1);
    var s2 := Step(s1.0, e2);
    var s3 := Step(s2.0, e3);
    RunCons(s2.0, e3, []);
    assert [e3] + [] == [e3];
    assert [s3.1] + [] == [s3.1];
    RunCons(s1.0, e2, [e3]);
    assert [e2] + [e3] == [e2, e3];
    RunCons(g, e1, [e2, e3]);
    assert [e1] + [e2, e3] == [e1, e2, e3];
    assert [s1.1] + ([s2.1] + [s3.1]) == [s1.1, s2.1, s3.1];
  }

  /** The hand lists only ever grow: every call keeps what they held as a prefix. */
  lemma {:induction false} RunOnlyAppends(g: Globals, evs: seq<Event>)
    requires Inv(g)
    ensures g.initPoseHand <= Run(g, evs).0.initPoseHand
    ensures g.initOrientHand <= Run(g, evs).0.initOrientHand
    decreases |evs|
  {
    if evs != [] {
      var g1 := Step(g, evs[0]).0;
      RunOnlyAppends(g1, evs[1..]);
      PrefixTransitive(g.initPoseHand, g1.initPoseHand, Run(g, evs).0.initPoseHand);
      PrefixTransitive(g.initOrientHand, g1.initOrientHand, Run(g, evs).0.initOrientHand);
    }
  }

  lemma PrefixTransitive(a: seq<real>, b: seq<real>, c: seq<real>)
    requires a <= b && b <= c
    ensures a <= c
  {
    assert b[..|a|] == a;
    assert c[..|b|][..|a|] == c[..|a|];
  }

  /**
    After a successful first calibration, whatever calls follow (further
    calibrations included), the hand reference the relay reads, the first 3
    and 4 entries of the hand lists, is still the one that calibration gave.
  */
  lemma HandReferenceIsFirstCalibration(req: CalibrateRequest, pose: ArmPose, evs: seq<Event>)
    requires IsLimbName(req.limb) && |req.position| >= 3 && |req.quaternion| >= 4
    ensures var g := Run(CalibrateStep(Initial, req, pose).0, evs).0;
            |g.initPoseHand| >= 3 && |g.initOrientHand| >= 4
            && g.initPoseHand[..3] == req.position[..3]
            && g.initOrientHand[..4] == req.quaternion[..4]
  {
    var g0 := CalibrateStep(Initial, req, pose).0;
    RunOnlyAppends(g0, evs);
    assert g0.initPoseHand == req.position[..3];
    assert g0.initOrientHand == req.quaternion[..4];
  }

  /**
    Once the hand lists hold a complete reference (3 and 4 entries), no
    sequence of calls changes it: the relay keeps reading the first values
    ever appended.
  */
  lemma HandReferenceFixedOnceSet(g: Globals, evs: seq<Event>)
    requires Inv(g) && |g.initPoseHand| >= 3 && |g.initOrientHand| >= 4
    ensures var g' := Run(g, evs).0;
            |g'.initPoseHand| >= 3 && |g'.initOrientHand| >= 4
            && g'.initPoseHand[..3] == g.initPoseHand[..3]
            && g'.initOrientHand[..4] == g.initOrientHand[..4]
  {
    var g' := Run(g, evs).0;
    RunOnlyAppends(g, evs);
    assert g'.initPoseHand[..|g.initPoseHand|] == g.initPoseHand;
    assert g'.initPoseHand[..|g.initPoseHand|][..3] == g'.initPoseHand[..3];
    assert g'.initOrientHand[..|g.initOrientHand|] == g.initOrientHand;
    assert g'.initOrientHand[..|g.initOrientHand|][..4] == g'.initOrientHand[..4];
  }

  /**
    A calibrate request that raises part-way still fixes part of the hand
    reference. On a fresh node, a request with a full position and an empty
    quaternion appends the position and raises; a later successful
    calibration then leaves the failed request's position as the hand
    position in effect, paired with its own quaternion.
  */
  lemma PartialCalibrationSetsHandPosition(a: real, b: real, c: real, p1: ArmPose,
                                           r2: CalibrateRequest, p2: ArmPose)
    requires IsLimbName(r2.limb) && |r2.position| >= 3 && |r2.quaternion| >= 4
    ensures var s1 := CalibrateStep(Initial, CalibrateRequest("left", [a, b, c], []), p1);
            var s2 := CalibrateStep(s1.0, r2, p2);
            s1.1 == Raised && s2.1 == Status(OK)
            && s2.0.initPoseHand[..3] == [a, b, c]
            && s2.0.initOrientHand == r2.quaternion[..4]
  {
    var s1 := CalibrateStep(Initial, CalibrateRequest("left", [a, b, c], []), p1);
    var s2 := CalibrateStep(s1.0, r2, p2);
    assert s1.0.initPoseHand == [a, b, c];
    assert s2.0.initPoseHand[..3] == ([a, b, c] + r2.position[..3])[..3];
  }

  /**
    A calibrate request with a valid arm name selects that arm before it reads
    the request's arrays, so one that raises still changes the arm that is
    moved. Calibrate the left arm, start, then send a request for the right
    arm with empty arrays: it raises, the node stays started and calibrated
    with the left arm's pose as robot reference, and the next sample asks IK
    for the left arm but moves the right one.
  */
  lemma RaisedCalibrationSwitchesArm(r1: CalibrateRequest, p1: ArmPose, p2: ArmPose,
                                     data: HandSample, joints: map<string, real>)
    requires r1.limb == "left" && |r1.position| >= 3 && |r1.quaternion| >= 4
    requires |data.position| >= 3 && |data.quaternion| >= 4
    ensures var g1 := CalibrateStep(Initial, r1, p1).0;
            var g2 := EnableStep(g1, 1).0;
            var s3 := CalibrateStep(g2, CalibrateRequest("right", [], []), p2);
            var e := Relay(s3.0, data, Solution(0, joints));
            s3.1 == Raised
            && s3.0.start == 1 && s3.0.calibrated
            && s3.0.initPoseBaxter == p1.position && s3.0.initOrientBaxter == p1.orientation
            && e.Moved? && e.request.limb == "left" && e.arm == "right"
  {
    var g1 := CalibrateStep(Initial, r1, p1).0;
    assert EnableStep(g1, 1).0 == g1.(start := 1);
  }

  /**
    When the node's first calibrate call succeeds, then after any later calls,
    whenever the relay sends an IK request, each target component differs
    from the robot reference in effect by exactly as much as the sample
    differs from the hand pose of that first calibration.
  */
  lemma RelayUsesFirstCalibration(req: CalibrateRequest, pose: ArmPose, evs: seq<Event>,
                                  data: HandSample, ik: IkOutcome)
    requires IsLimbName(req.limb) && |req.position| >= 3 && |req.quaternion| >= 4
    ensures var g := Run(CalibrateStep(Initial, req, pose).0, evs).0;
            var e := Relay(g, data, ik);
            e.Requested() ==>
              (forall i :: 0 <= i < 3 ==>
                 e.request.position[i] - g.initPoseBaxter[i] == data.position[i] - req.position[i])
              && (forall i :: 0 <= i < 4 ==>
                    e.request.orientation[i] - g.initOrientBaxter[i] == data.quaternion[i] - req.quaternion[i])
  {
    var g := Run(CalibrateStep(Initial, req, pose).0, evs).0;
    HandReferenceIsFirstCalibration(req, pose, evs);
    assert forall i :: 0 <= i < 3 ==> g.initPoseHand[i] == g.initPoseHand[..3][i];
    assert forall i :: 0 <= i < 4 ==> g.initOrientHand[i] == g.initOrientHand[..4][i];
  }

  /**
    Two successful calibrations in a row on a fresh node: the robot reference
    is the second arm pose, the hand lists hold both hand poses one after the
    other, and the first hand pose is the one in effect.
  */
  lemma SecondCalibrationKeepsFirstHandPose(r1: CalibrateRequest, p1: ArmPose, r2: CalibrateRequest, p2: ArmPose)
    requires IsLimbName(r1.limb) && |r1.position| >= 3 && |r1.quaternion| >= 4
    requires IsLimbName(r2.limb) && |r2.position| >= 3 && |r2.quaternion| >= 4
    ensures var g := CalibrateStep(CalibrateStep(Initial, r1, p1).0, r2, p2).0;
            g.calibrated && g.limb == Some(r2.limb)
            && g.initPoseBaxter == p2.position && g.initOrientBaxter == p2.orientation
            && g.initPoseHand == r1.position[..3] + r2.position[..3]
            && g.initOrientHand == r1.quaternion[..4] + r2.quaternion[..4]
            && g.initPoseHand[..3] == r1.position[..3]
            && g.initOrientHand[..4] == r1.quaternion[..4]
  {
    var g := CalibrateStep(CalibrateStep(Initial, r1, p1).0, r2, p2).0;
    assert g.initPoseHand[..3] == (r1.position[..3] + r2.position[..3])[..3];
    assert g.initOrientHand[..4] == (r1.quaternion[..4] + r2.quaternion[..4])[..4];
  }

  /**
    Recalibrating does not make the new hand pose map onto the new arm pose.
    Calibrate twice, start, and send exactly the hand pose of the second
    calibration: the target is the second arm position shifted by how far the
    hand moved between the two calibrations, so it is the second arm position
    only if the hand had not moved.
  */
  lemma RecalibrationKeepsOldOffset(r1: CalibrateRequest, p1: ArmPose, r2: CalibrateRequest, p2: ArmPose,
                                    ik: IkOutcome)
    requires IsLimbName(r1.limb) && |r1.position| >= 3 && |r1.quaternion| >= 4
    requires IsLimbName(r2.limb) && |r2.position| >= 3 && |r2.quaternion| >= 4
    ensures var g := Run(Initial, [CalibrateCall(r1, p1), CalibrateCall(r2, p2), EnableCall(1)]).0;
            var e := Relay(g, HandSample(r2.position, r2.quaternion), ik);
            e.Requested()
            && (forall i :: 0 <= i < 3 ==> e.request.position[i] == p2.position[i] + (r2.position[i] - r1.position[i]))
            && (e.request.position == p2.position <==> r1.position[..3] == r2.position[..3])
  {
    var g2 := CalibrateStep(CalibrateStep(Initial, r1, p1).0, r2, p2).0;
    SecondCalibrationKeepsFirstHandPose(r1, p1, r2, p2);
    var g3 := g2.(start := 1);
    assert EnableStep(g2, 1).0 == g3;
    RunThree(Initial, CalibrateCall(r1, p1), CalibrateCall(r2, p2), EnableCall(1));
    RelayAfterHandMoved(g3, r1.position, p2, HandSample(r2.position, r2.quaternion), ik);
  }

  /**
    With mirroring started, a hand reference position h and the robot
    reference at arm pose p, a sample's position is sent to p's position
    shifted by how far it is from h, and so to p's position itself exactly
    when it is at h.
  */
  lemma RelayAfterHandMoved(g: Globals, h: seq<real>, p: ArmPose, data: HandSample, ik: IkOutcome)
    requires Inv(g) && g.start == 1 && |h| >= 3
    requires g.initPoseHand[..3] == h[..3] && g.initPoseBaxter == p.position
    requires |data.position| >= 3 && |data.quaternion| >= 4
    ensures var e := Relay(g, data, ik);
            e.Requested()
            && (forall i :: 0 <= i < 3 ==> e.request.position[i] == p.position[i] + (data.position[i] - h[i]))
            && (e.request.position == p.position <==> h[..3] == data.position[..3])
  {
    var e := Relay(g, data, ik);
    forall i | 0 <= i < 3
      ensures g.initPoseHand[i] == h[i] && h[..3][i] == h[i] && data.position[..3][i] == data.position[i]
    {
      assert g.initPoseHand[i] == g.initPoseHand[..3][i];
    }
    if e.request.position == p.position {
      assert h[..3] == data.position[..3];
    }
    if h[..3] == data.position[..3] {
      assert e.request.position == p.position;
    }
  }

  /**
    End to end: calibrate the left arm with the hand at the origin and the arm
    at (1, 1, 1), start, and send a sample 0.1 further along x. The relay asks
    IK for (1.1, 1, 1) with the orientation unchanged and moves the left arm
    to the joints the solver returns.
  */
  lemma EndToEndScenario(joints: map<string, real>)
    ensures var q := [0.0, 0.0, 0.0, 1.0];
            var evs := [CalibrateCall(CalibrateRequest("left", [0.0, 0.0, 0.0], q),
                                      EndpointPose([1.0, 1.0, 1.0], q)),
                        EnableCall(1),
                        SampleArrival(HandSample([0.1, 0.0, 0.0], q), Solution(0, joints))];
            Run(Initial, evs).1
            == [Replied(Status(OK)), Replied(Status(OK)),
                Relayed(Moved(IkRequest("left", [1.1, 1.0, 1.0], q), "left", joints))]
  {
    var q := [0.0, 0.0, 0.0, 1.0];
    var req := CalibrateRequest("left", [0.0, 0.0, 0.0], q);
    var pose: ArmPose := EndpointPose([1.0, 1.0, 1.0], q);
    var data := HandSample([0.1, 0.0, 0.0], q);
    var g1 := CalibrateStep(Initial, req, pose).0;
    var g2 := EnableStep(g1, 1).0;
    RunThree(Initial, CalibrateCall(req, pose), EnableCall(1), SampleArrival(data, Solution(0, joints)));
    assert g2.initPoseHand == [0.0, 0.0, 0.0] && g2.initOrientHand == q;
    assert g2.initPoseBaxter == [1.0, 1.0, 1.0] && g2.initOrientBaxter == q;
    assert Relay(g2, data, Solution(0, joints))
           == Moved(IkRequest("left", [1.1, 1.0, 1.0], q), "left", joints);
  }

  /** A sample at the hand reference is sent to the robot reference itself. */
  lemma TargetAtHandReference(robotRef: seq<real>, handRef: seq<real>, n: nat)
    requires n <= |robotRef| && n <= |handRef|
    ensures Target(robotRef, handRef, handRef, n) == robotRef[..n]
  {
  }

  /**
    The transform is invertible: mapping a target back with the roles of the
    two references exchanged gives the sample again.
  */
  lemma TargetInverse(robotRef: seq<real>, sample: seq<real>, handRef: seq<real>, n: nat)
    requires n <= |robotRef| && n <= |sample| && n <= |handRef|
    ensures Target(handRef, Target(robotRef, sample, handRef, n), robotRef, n) == sample[..n]
  {
  }
}
