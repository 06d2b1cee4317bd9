/**
 * The robot SDK and gripper as seen by the controllers: the calls they issue
 * are recorded as events, and inverse kinematics is an opaque oracle that may
 * find no solution.
 */
module Robot {
  import opened Wrappers
  import opened Vectors

  /** Joint angles (radians) as the SDK reports and accepts them. */
  type Joints = seq<real>

  /**
   * `get_ik_result`: a joint solution for a position (metres) and an RPY
   * rotation (degrees), starting from the current waypoint; `None` when the
   * solver finds none.
   */
  type IkSolver = (Joints, Vec3, Vec3) -> Option<Joints>

  const RobotInitPose := Vec3(0.410444, 0.080962, 0.547597)
  const RobotReturnPose := Vec3(0.0, 0.6, 0.25)
  const RobotInitRot := Vec3(179.99847, -0.000170, 84.27533)

  /** Per-joint acceleration limit, `17.308779 / 2.5`, set on connection. */
  const JointMaxAcc: real := 17.308779 / 2.5

  /**
   * One command to the robot SDK or gripper (set-up calls grouped as noted),
   * or one write of `robot_moving` by the mover. IK queries and state polls
   * are not recorded.
   */
  datatype Event =
    | Initialize                              // `Auboi5Robot.initialize()` and `create_context()`
    | Connect(ok: bool)                       // `connect(ip, port)` and whether it succeeded
    | Configure(maxVelc: real, maxAcc: real)  // robot events, profile, joint limits
    | MoveCartesian(pos: Vec3, rot: Vec3)     // `move_to_target_in_cartesian`
    | MoveJoint(goal: Vec3, joints: Joints)   // `move_joint` with the IK solution for `goal`
    | SetGripper(value: int)                  // `gripper.set_pos`
    | MovingFlag(on: bool)                    // `robot_moving = on`
    | MoveStop                                // `move_stop()`
    | Disconnect                              // `disconnect()`
    | Uninitialize                            // `Auboi5Robot.uninitialize()`

  predicate IsMotion(e: Event) {
    e.MoveCartesian? || e.MoveJoint?
  }

  /** The positions the robot was sent to, in order. */
  function Goals(es: seq<Event>): seq<Vec3> {
    if es == [] then []
    else (match es[0]
          case MoveCartesian(p, _) => [p]
          case MoveJoint(g, _) => [g]
          case _ => []) + Goals(es[1..])
  }

  /** The gripper positions commanded, in order. */
  function GripperValues(es: seq<Event>): seq<int> {
    if es == [] then []
    else (if es[0].SetGripper? then [es[0].value] else []) + GripperValues(es[1..])
  }

  /** How many times `e` occurs in `es`. */
  function Count(es: seq<Event>, e: Event): nat {
    if es == [] then 0 else (if es[0] == e then 1 else 0) + Count(es[1..], e)
  }

  /** Goals, gripper values and counts of a single event. */
  lemma SingleEvent(x: Event)
    ensures Goals([x]) == (match x
                           case MoveCartesian(p, _) => [p]
                           case MoveJoint(g, _) => [g]
                           case _ => [])
    ensures GripperValues([x]) == if x.SetGripper? then [x.value] else []
    ensures forall e :: Count([x], e) == if x == e then 1 else 0
  {
    assert [x][1..] == [];
  }

  lemma {:induction false} GoalsAppend(a: seq<Event>, b: seq<Event>)
    ensures Goals(a + b) == Goals(a) + Goals(b)
    ensures GripperValues(a + b) == GripperValues(a) + GripperValues(b)
    ensures forall e :: Count(a + b, e) == Count(a, e) + Count(b, e)
  {
    if a != [] {
      GoalsAppend(a[1..], b);
      assert (a + b)[1..] == a[1..] + b;
    } else {
      assert a + b == b;
    }
  }

  /** The shutdown sequence of `stop()`: disconnect only while connected. */
  function StopEvents(connected: bool): seq<Event> {
    if connected then [MoveStop, Disconnect, Uninitialize] else [MoveStop, Uninitialize]
  }

  /** `stop()` stops motion first and releases the SDK last, each exactly once, and moves nothing. */
  lemma StopEventsOrder(connected: bool)
    ensures StopEvents(connected)[0] == MoveStop
    ensures StopEvents(connected)[|StopEvents(connected)| - 1] == Uninitialize
    ensures Count(StopEvents(connected), MoveStop) == 1
    ensures Count(StopEvents(connected), Uninitialize) == 1
    ensures Count(StopEvents(connected), Disconnect) == if connected then 1 else 0
    ensures Goals(StopEvents(connected)) == []
  {
    var es := StopEvents(connected);
    var tail := [Uninitialize];
    assert tail[1..] == [];
    assert Goals(tail) == [] && forall e :: Count(tail, e) == if e == Uninitialize then 1 else 0;
    if connected {
      var mid := [Disconnect] + tail;
      assert mid[1..] == tail;
      assert Goals(mid) == [] && forall e :: Count(mid, e) == Count(tail, e) + if e == Disconnect then 1 else 0;
      assert es == [MoveStop] + mid && es[1..] == mid;
    } else {
      assert es == [MoveStop] + tail && es[1..] == tail;
    }
  }

  /** The connection sequence of `initialize_robot` up to the joint limits. */
  function ConnectEvents(connectOk: bool, maxVelc: real): seq<Event> {
    [Initialize, Connect(connectOk)] + (if connectOk then [Configure(maxVelc, JointMaxAcc)] else [])
  }
}
