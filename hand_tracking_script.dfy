/**
 * The stand-alone script `hand_traking.bak.py`: connect, read the base once,
 * go to the initial pose, then follow the hand until Ctrl-C. Its targets are
 * the raw hand readings in metres: the base it computes is never used.
 */
module HandTrackingScript {
  import opened Wrappers
  import opened Vectors
  import opened Calibration
  import opened Robot
  import opened TrackingController

  /** `convert_vicon_to_robot_coords`: millimetres to metres. */
  function ConvertViconToRobotCoords(v: Vec3): Vec3 {
    ToMetres(v)
  }

  /** The conversion loses nothing, and maps exactly the all-zero reading to all zeros. */
  lemma ConvertViconToRobotCoordsInverse(v: Vec3)
    ensures ToMillimetres(ConvertViconToRobotCoords(v)) == v
    ensures IsZero(ConvertViconToRobotCoords(v)) <==> IsZero(v)
  {
    MetresRoundTrip(v);
    MetresZero(v);
  }

  /** The targets the loop moves to: every reading in metres that is not all zeros. */
  function ScriptTargets(hands: seq<Vec3>): seq<Vec3>
    decreases |hands|
  {
    if hands == [] then []
    else
      var target := ConvertViconToRobotCoords(hands[|hands| - 1]);
      ScriptTargets(hands[..|hands| - 1]) + (if IsZero(target) then [] else [target])
  }

  /** One more reading: an all-zero target adds no move, any other adds the move to it. */
  lemma ScriptMovesStep(hands: seq<Vec3>, i: nat, target: Vec3)
    requires i < |hands| && target == ConvertViconToRobotCoords(hands[i])
    ensures MoveEvents(ScriptTargets(hands[..i + 1])) ==
      MoveEvents(ScriptTargets(hands[..i])) +
      (if target.x == 0.0 && target.y == 0.0 && target.z == 0.0 then [] else [MoveCartesian(target, RobotInitRot)])
  {
    assert hands[..i + 1][..i] == hands[..i];
    var prev := ScriptTargets(hands[..i]);
    if !IsZero(target) {
      MoveEventsSnoc(prev, target);
    } else {
      assert ScriptTargets(hands[..i + 1]) == prev + [];
      assert prev + [] == prev;
    }
  }

  /** What the script sends to the robot, for a connection result and the readings before Ctrl-C. */
  function ScriptEvents(connectOk: bool, hands: seq<Vec3>): seq<Event> {
    ConnectEvents(connectOk, 20.0) +
    if connectOk then
      [MoveCartesian(RobotInitPose, RobotInitRot)] + MoveEvents(ScriptTargets(hands)) + [MoveStop, Disconnect, Uninitialize]
    else
      [Uninitialize]
  }

  /**
   * The `while True` loop of `main`, over `hands`, the readings taken before
   * the operator's Ctrl-C: convert each to metres, skip an all-zero one,
   * otherwise move there.
   */
  method FollowHand(hands: seq<Vec3>) returns (moves: seq<Event>)
    ensures moves == MoveEvents(ScriptTargets(hands))
  {
    moves := [];
    var i := 0;
    assert hands[..0] == [];
    while i < |hands|
      invariant i <= |hands|
      invariant moves == MoveEvents(ScriptTargets(hands[..i]))
    {
      var target := ConvertViconToRobotCoords(hands[i]);
      ScriptMovesStep(hands, i, target);
      if target.x == 0.0 && target.y == 0.0 && target.z == 0.0 {
        i := i + 1;
        continue;
      }
      moves := moves + [MoveCartesian(target, RobotInitRot)];
      i := i + 1;
    }
    assert hands[..i] == hands;
  }

  /**
   * `main`: the SDK calls it makes, and the base origin it computes from the
   * one base frame it reads (`None` when the connection failed first).
   */
  method HandTracking(connectOk: bool, baseFrame: BaseMarkers, hands: seq<Vec3>)
    returns (events: seq<Event>, base: Option<Vec3>)
    ensures events == ScriptEvents(connectOk, hands)
    ensures base == if connectOk then Some(BaseOrigin(baseFrame)) else None
  {
    events := [Initialize];
    events := events + [Connect(connectOk)];
    base := None;
    if !connectOk {
      // `RobotError` is logged; `robot.connected` is false, so no disconnect
      events := events + [Uninitialize];
      return;
    }
    events := events + [Configure(20.0, JointMaxAcc)];
    base := Some(BaseOrigin(baseFrame));
    events := events + [MoveCartesian(RobotInitPose, RobotInitRot)];
    var moves := FollowHand(hands);
    events := events + moves;
    // KeyboardInterrupt
    events := events + [MoveStop];
    events := events + [Disconnect];
    events := events + [Uninitialize];
  }

  /** The script's targets are the controller's with the base pinned at the origin. */
  lemma {:induction false} ScriptIgnoresBase(hands: seq<Vec3>)
    ensures ScriptTargets(hands) == ReaderTargets(hands, Zero)
    decreases |hands|
  {
    if hands != [] {
      ScriptIgnoresBase(hands[..|hands| - 1]);
      assert Sub(hands[|hands| - 1], Zero) == hands[|hands| - 1];
      MetresZero(hands[|hands| - 1]);
    }
  }

  /**
   * Once connected, the script goes to the initial pose and then to each
   * visible reading in metres, in reading order, whatever the base frame.
   */
  lemma ScriptFollowsHand(hands: seq<Vec3>)
    ensures Goals(ScriptEvents(true, hands)) == [RobotInitPose] + ReaderTargets(hands, Zero)
    ensures |ReaderTargets(hands, Zero)| == |VisibleHands(hands)|
    ensures forall i :: 0 <= i < |ReaderTargets(hands, Zero)| ==>
      ToMillimetres(ReaderTargets(hands, Zero)[i]) == VisibleHands(hands)[i]
  {
    var moves := MoveEvents(ScriptTargets(hands));
    var stops := [MoveStop, Disconnect, Uninitialize];
    ConnectEventsMoveNothing(true, 20.0);
    ScriptIgnoresBase(hands);
    MoveEventsGoals(ScriptTargets(hands));
    StopEventsOrder(true);
    SingleEvent(MoveCartesian(RobotInitPose, RobotInitRot));
    GoalsAppend([MoveCartesian(RobotInitPose, RobotInitRot)], moves);
    GoalsAppend([MoveCartesian(RobotInitPose, RobotInitRot)] + moves, stops);
    GoalsAppend(ConnectEvents(true, 20.0), [MoveCartesian(RobotInitPose, RobotInitRot)] + moves + stops);
    ReaderTargetsAreVisibleHands(hands, Zero);
    forall i | 0 <= i < |ReaderTargets(hands, Zero)|
      ensures ToMillimetres(ReaderTargets(hands, Zero)[i]) == VisibleHands(hands)[i]
    {
      assert Add(ToMillimetres(ReaderTargets(hands, Zero)[i]), Zero) ==
        ToMillimetres(ReaderTargets(hands, Zero)[i]);
    }
  }

  /** A refused connection moves nothing, never stops motion and never disconnects. */
  lemma FailedConnectionOnlyReleases(hands: seq<Vec3>)
    ensures ScriptEvents(false, hands) == [Initialize, Connect(false), Uninitialize]
    ensures Goals(ScriptEvents(false, hands)) == []
    ensures Count(ScriptEvents(false, hands), MoveStop) == 0
    ensures Count(ScriptEvents(false, hands), Disconnect) == 0
  {
    assert ScriptEvents(false, hands) == ConnectEvents(false, 20.0) + [Uninitialize];
    ReleaseMovesNothing();
  }

  /** Initialising, a refused connection and releasing the SDK move nothing, stop nothing, disconnect nothing. */
  lemma ReleaseMovesNothing()
    ensures var es := [Initialize, Connect(false), Uninitialize];
      Goals(es) == [] && Count(es, MoveStop) == 0 && Count(es, Disconnect) == 0
  {
    var es := [Initialize, Connect(false), Uninitialize];
    assert es == [Initialize] + ([Connect(false)] + [Uninitialize]);
    SingleEvent(Initialize);
    SingleEvent(Connect(false));
    SingleEvent(Uninitialize);
    GoalsAppend([Connect(false)], [Uninitialize]);
    GoalsAppend([Initialize], [Connect(false)] + [Uninitialize]);
  }
}
