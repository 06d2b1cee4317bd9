/**
 * The threaded controller class of `robot_controller/robot_controller.py`:
 * base calibration, the IK-then-`move_joint` mover with its `robot_moving`
 * flag, the scripted grasp and the shutdown sequence. The Vicon queue, which
 * the class uses but never creates, is passed to the mover.
 */
module ArmController {
  import opened Wrappers
  import opened Vectors
  import opened Calibration
  import opened Robot
  import opened Channel

  // ---------------------------------------------------------------------
  // The mover, specified on values
  // ---------------------------------------------------------------------

  /** Commands issued so far and the waypoint the robot is left at. */
  datatype Dispatched = Dispatched(events: seq<Event>, waypoint: Joints)

  /** One dequeued target: skipped without a solution, else flag up, move, flag down. */
  function DispatchOne(ik: IkSolver, w: Joints, t: Vec3): Dispatched {
    match ik(w, t, RobotInitRot)
    case None => Dispatched([], w)
    case Some(j) => Dispatched([MovingFlag(true), MoveJoint(t, j), MovingFlag(false)], j)
  }

  /** The targets `ts`, dequeued in order and dispatched one after the other. */
  function Dispatch(ik: IkSolver, w: Joints, ts: seq<Vec3>): Dispatched
    decreases |ts|
  {
    if ts == [] then Dispatched([], w)
    else
      var d := Dispatch(ik, w, ts[..|ts| - 1]);
      var e := DispatchOne(ik, d.waypoint, ts[|ts| - 1]);
      Dispatched(d.events + e.events, e.waypoint)
  }

  /** Moves started (`robot_moving = True`) minus moves completed (`robot_moving = False`). */
  function InFlight(es: seq<Event>): int {
    Count(es, MovingFlag(true)) - Count(es, MovingFlag(false))
  }

  lemma InFlightAppend(a: seq<Event>, b: seq<Event>)
    ensures InFlight(a + b) == InFlight(a) + InFlight(b)
  {
    GoalsAppend(a, b);
  }

  /** Within one dispatch at most one move is in flight, and none after it. */
  lemma DispatchOneInFlight(ik: IkSolver, w: Joints, t: Vec3)
    ensures InFlight(DispatchOne(ik, w, t).events) == 0
    ensures forall k :: 0 <= k <= |DispatchOne(ik, w, t).events| ==>
      0 <= InFlight(DispatchOne(ik, w, t).events[..k]) <= 1
  {
    var es := DispatchOne(ik, w, t).events;
    if es != [] {
      BracketInFlight(MoveJoint(t, ik(w, t, RobotInitRot).value));
    } else {
      assert forall k :: 0 <= k <= |es| ==> es[..k] == [];
    }
  }

  /** A move bracketed by raising and lowering `robot_moving`: in flight once, and settled at the end. */
  lemma BracketInFlight(move: Event)
    requires move.MoveJoint?
    ensures var es := [MovingFlag(true), move, MovingFlag(false)];
      InFlight(es) == 0 && forall k :: 0 <= k <= |es| ==> 0 <= InFlight(es[..k]) <= 1
  {
    var up, mv, down := [MovingFlag(true)], [move], [MovingFlag(false)];
    var es := up + mv + down;
    assert es == [MovingFlag(true), move, MovingFlag(false)];
    SingleEvent(MovingFlag(true));
    SingleEvent(move);
    SingleEvent(MovingFlag(false));
    InFlightAppend(up, mv);
    InFlightAppend(up + mv, down);
    assert es[..0] == [] && es[..1] == up && es[..2] == up + mv && es[..3] == es;
  }

  /**
   * The busy flag brackets every move: at every point of the mover's command
   * history, moves started exceed moves completed by 0 or 1, and by 0 at the end.
   */
  lemma {:induction false} DispatchAtMostOneInFlight(ik: IkSolver, w: Joints, ts: seq<Vec3>)
    ensures InFlight(Dispatch(ik, w, ts).events) == 0
    ensures forall k :: 0 <= k <= |Dispatch(ik, w, ts).events| ==>
      0 <= InFlight(Dispatch(ik, w, ts).events[..k]) <= 1
  {
    if ts != [] {
      var d := Dispatch(ik, w, ts[..|ts| - 1]);
      var e := DispatchOne(ik, d.waypoint, ts[|ts| - 1]);
      var es := d.events + e.events;
      DispatchAtMostOneInFlight(ik, w, ts[..|ts| - 1]);
      DispatchOneInFlight(ik, d.waypoint, ts[|ts| - 1]);
      InFlightAppend(d.events, e.events);
      forall k | 0 <= k <= |es| ensures 0 <= InFlight(es[..k]) <= 1 {
        if k <= |d.events| {
          assert es[..k] == d.events[..k];
        } else {
          assert es[..k] == d.events + e.events[..k - |d.events|];
          InFlightAppend(d.events, e.events[..k - |d.events|]);
        }
      }
    }
  }

  /** `a` can be obtained from `b` by deleting elements. */
  predicate Subsequence(a: seq<Vec3>, b: seq<Vec3>)
    decreases |b|
  {
    if a == [] then true
    else if b == [] then false
    else (a[|a| - 1] == b[|b| - 1] && Subsequence(a[..|a| - 1], b[..|b| - 1]))
         || Subsequence(a, b[..|b| - 1])
  }

  /** One dispatch moves to its target exactly when IK solves it. */
  lemma DispatchOneGoals(ik: IkSolver, w: Joints, t: Vec3)
    ensures Goals(DispatchOne(ik, w, t).events) == if ik(w, t, RobotInitRot).Some? then [t] else []
  {
    if ik(w, t, RobotInitRot).Some? {
      var j := ik(w, t, RobotInitRot).value;
      var up, mv, down := [MovingFlag(true)], [MoveJoint(t, j)], [MovingFlag(false)];
      assert DispatchOne(ik, w, t).events == up + mv + down;
      SingleEvent(MovingFlag(true));
      SingleEvent(MoveJoint(t, j));
      SingleEvent(MovingFlag(false));
      GoalsAppend(up, mv);
      GoalsAppend(up + mv, down);
    }
  }

  /**
   * Moves go out in queue order: the goals moved to are the dequeued targets
   * with the unsolvable ones left out, so never more moves than targets.
   */
  lemma {:induction false} DispatchInOrder(ik: IkSolver, w: Joints, ts: seq<Vec3>)
    ensures Subsequence(Goals(Dispatch(ik, w, ts).events), ts)
    ensures |Goals(Dispatch(ik, w, ts).events)| <= |ts|
    decreases |ts|
  {
    if ts != [] {
      var front, t := ts[..|ts| - 1], ts[|ts| - 1];
      var d := Dispatch(ik, w, front);
      var e := DispatchOne(ik, d.waypoint, t);
      DispatchInOrder(ik, w, front);
      GoalsAppend(d.events, e.events);
      DispatchOneGoals(ik, d.waypoint, t);
      var g := Goals(d.events);
      if ik(d.waypoint, t, RobotInitRot).None? {
        assert Goals(Dispatch(ik, w, ts).events) == g;
      } else {
        assert Goals(Dispatch(ik, w, ts).events) == g + [t];
        assert (g + [t])[..|g + [t]| - 1] == g;
      }
    }
  }

  /** When every target is solvable, the robot moves to every target, in order. */
  lemma {:induction false} DispatchAllSolvable(ik: IkSolver, w: Joints, ts: seq<Vec3>)
    requires forall w', t :: ik(w', t, RobotInitRot).Some?
    ensures Goals(Dispatch(ik, w, ts).events) == ts
    decreases |ts|
  {
    if ts != [] {
      var front, t := ts[..|ts| - 1], ts[|ts| - 1];
      var d := Dispatch(ik, w, front);
      var e := DispatchOne(ik, d.waypoint, t);
      DispatchAllSolvable(ik, w, front);
      GoalsAppend(d.events, e.events);
      DispatchOneGoals(ik, d.waypoint, t);
      assert ts == front + [t];
    }
  }

  /** A target with no IK solution issues nothing and leaves the robot where it was. */
  lemma DispatchSkipsUnsolvable(ik: IkSolver, w: Joints, ts: seq<Vec3>, t: Vec3)
    requires ik(Dispatch(ik, w, ts).waypoint, t, RobotInitRot).None?
    ensures Dispatch(ik, w, ts + [t]) == Dispatch(ik, w, ts)
  {
    assert (ts + [t])[..|ts|] == ts;
    assert Dispatch(ik, w, ts).events + [] == Dispatch(ik, w, ts).events;
  }

  /** How many targets `rounds` iterations of the mover take off a queue holding `queued`. */
  function Consumed(running: bool, rounds: nat, queued: nat): (k: nat)
    ensures k <= queued && k <= rounds
    ensures running && rounds >= queued ==> k == queued
    ensures !running ==> k == 0
  {
    if !running then 0 else if rounds < queued then rounds else queued
  }

  // ---------------------------------------------------------------------
  // The grasp, specified on values
  // ---------------------------------------------------------------------

  /** One step of the grasp: where to go, with which rotation, and the gripper command after it. */
  datatype GraspStep = GraspStep(goal: Vec3, rot: Vec3, gripper: Option<int>)

  /**
   * `grab_object`: to the object and close the gripper, lift by 0.2, over the
   * return pose lifted by 0.1, down to the return pose and open, then home.
   */
  function GraspPlan(targetPos: Vec3, targetRot: Vec3): seq<GraspStep> {
    [GraspStep(targetPos, targetRot, Some(20)),
     GraspStep(Lift(targetPos, 0.2), targetRot, None),
     GraspStep(Lift(RobotReturnPose, 0.1), targetRot, None),
     GraspStep(RobotReturnPose, RobotInitRot, Some(900)),
     GraspStep(RobotInitPose, RobotInitRot, None)]
  }

  function StepEvents(s: GraspStep, j: Joints): seq<Event> {
    [MoveJoint(s.goal, j)] + (if s.gripper.Some? then [SetGripper(s.gripper.value)] else [])
  }

  /** Commands of a run, the waypoint it ends at, and whether every step was solved. */
  datatype GraspRun = GraspRun(events: seq<Event>, waypoint: Joints, completed: bool)

  /** Steps run in order; the first step without an IK solution aborts the run. */
  function RunSteps(ik: IkSolver, w: Joints, steps: seq<GraspStep>): GraspRun
    decreases |steps|
  {
    if steps == [] then GraspRun([], w, true)
    else match ik(w, steps[0].goal, steps[0].rot)
      case None => GraspRun([], w, false)
      case Some(j) =>
        var rest := RunSteps(ik, j, steps[1..]);
        GraspRun(StepEvents(steps[0], j) + rest.events, rest.waypoint, rest.completed)
  }

  function StepGoals(steps: seq<GraspStep>): seq<Vec3> {
    if steps == [] then [] else [steps[0].goal] + StepGoals(steps[1..])
  }

  function StepGrippers(steps: seq<GraspStep>): seq<int> {
    if steps == [] then []
    else (if steps[0].gripper.Some? then [steps[0].gripper.value] else []) + StepGrippers(steps[1..])
  }

  lemma StepEventsShape(s: GraspStep, j: Joints)
    ensures Goals(StepEvents(s, j)) == [s.goal]
    ensures GripperValues(StepEvents(s, j)) == if s.gripper.Some? then [s.gripper.value] else []
  {
    SingleEvent(MoveJoint(s.goal, j));
    if s.gripper.Some? {
      SingleEvent(SetGripper(s.gripper.value));
      GoalsAppend([MoveJoint(s.goal, j)], [SetGripper(s.gripper.value)]);
    } else {
      assert StepEvents(s, j) == [MoveJoint(s.goal, j)];
    }
  }

  /** A run that completes moves to every step's goal and issues every gripper command, in plan order. */
  lemma {:induction false} CompletedRunFollowsPlan(ik: IkSolver, w: Joints, steps: seq<GraspStep>)
    requires RunSteps(ik, w, steps).completed
    ensures Goals(RunSteps(ik, w, steps).events) == StepGoals(steps)
    ensures GripperValues(RunSteps(ik, w, steps).events) == StepGrippers(steps)
    decreases |steps|
  {
    if steps != [] {
      var j := ik(w, steps[0].goal, steps[0].rot).value;
      CompletedRunFollowsPlan(ik, j, steps[1..]);
      StepEventsShape(steps[0], j);
      GoalsAppend(StepEvents(steps[0], j), RunSteps(ik, j, steps[1..]).events);
    }
  }

  /**
   * A run that aborts is exactly the completed run of the steps before the
   * first unsolvable one: nothing after the failure is issued.
   */
  lemma {:induction false} AbortedRunIsPrefix(ik: IkSolver, w: Joints, steps: seq<GraspStep>)
    requires !RunSteps(ik, w, steps).completed
    ensures exists k :: (0 <= k < |steps| &&
      RunSteps(ik, w, steps[..k]).completed &&
      RunSteps(ik, w, steps).events == RunSteps(ik, w, steps[..k]).events &&
      ik(RunSteps(ik, w, steps[..k]).waypoint, steps[k].goal, steps[k].rot).None?)
    decreases |steps|
  {
    match ik(w, steps[0].goal, steps[0].rot)
    case None =>
      assert steps[..0] == [];
      assert RunSteps(ik, w, steps[..0]).events == [];
    case Some(j) =>
      AbortedRunIsPrefix(ik, j, steps[1..]);
      var k :| 0 <= k < |steps[1..]| &&
        RunSteps(ik, j, steps[1..][..k]).completed &&
        RunSteps(ik, j, steps[1..]).events == RunSteps(ik, j, steps[1..][..k]).events &&
        ik(RunSteps(ik, j, steps[1..][..k]).waypoint, steps[1..][k].goal, steps[1..][k].rot).None?;
      var pre := steps[..k + 1];
      assert pre[0] == steps[0] && pre[1..] == steps[1..][..k];
      assert steps[1..][k] == steps[k + 1];
      assert RunSteps(ik, w, pre).events == StepEvents(steps[0], j) + RunSteps(ik, j, steps[1..][..k]).events;
  }

  /** Unfolding a run at step `k`. */
  lemma RunStepsAt(ik: IkSolver, w: Joints, steps: seq<GraspStep>, k: nat)
    requires k < |steps|
    ensures RunSteps(ik, w, steps[k..]) ==
      match ik(w, steps[k].goal, steps[k].rot)
      case None => GraspRun([], w, false)
      case Some(j) =>
        var rest := RunSteps(ik, j, steps[k + 1..]);
        GraspRun(StepEvents(steps[k], j) + rest.events, rest.waypoint, rest.completed)
  {
    assert steps[k..][0] == steps[k];
    assert steps[k..][1..] == steps[k + 1..];
  }

  lemma StepGrippersAt(steps: seq<GraspStep>, k: nat)
    requires k < |steps|
    ensures StepGrippers(steps[k..]) ==
      (if steps[k].gripper.Some? then [steps[k].gripper.value] else []) + StepGrippers(steps[k + 1..])
    ensures StepGoals(steps[k..]) == [steps[k].goal] + StepGoals(steps[k + 1..])
  {
    assert steps[k..][0] == steps[k];
    assert steps[k..][1..] == steps[k + 1..];
  }

  /** A run abandoned at step `k` has issued `done` and nothing more. */
  lemma StepAborts(ik: IkSolver, w0: Joints, plan: seq<GraspStep>, k: nat, done: seq<Event>, w: Joints)
    requires k < |plan|
    requires RunSteps(ik, w0, plan) == var r := RunSteps(ik, w, plan[k..]); GraspRun(done + r.events, r.waypoint, r.completed)
    requires ik(w, plan[k].goal, plan[k].rot).None?
    ensures RunSteps(ik, w0, plan) == GraspRun(done, w, false)
  {
    RunStepsAt(ik, w, plan, k);
    assert done + [] == done;
  }

  /** Step `k` solved: its move and gripper command join what was issued. */
  lemma StepAdvances(ik: IkSolver, w0: Joints, plan: seq<GraspStep>, k: nat, done: seq<Event>, w: Joints)
    requires k < |plan|
    requires RunSteps(ik, w0, plan) == var r := RunSteps(ik, w, plan[k..]); GraspRun(done + r.events, r.waypoint, r.completed)
    requires ik(w, plan[k].goal, plan[k].rot).Some?
    ensures var j := ik(w, plan[k].goal, plan[k].rot).value;
      RunSteps(ik, w0, plan) == var r := RunSteps(ik, j, plan[k + 1..]);
        GraspRun(done + StepEvents(plan[k], j) + r.events, r.waypoint, r.completed)
  {
    RunStepsAt(ik, w, plan, k);
    var j := ik(w, plan[k].goal, plan[k].rot).value;
    var r := RunSteps(ik, j, plan[k + 1..]);
    assert done + (StepEvents(plan[k], j) + r.events) == done + StepEvents(plan[k], j) + r.events;
  }

  /** The plan visits five poses and commands the gripper twice, closing then opening. */
  lemma GraspPlanContents(targetPos: Vec3, targetRot: Vec3)
    ensures StepGoals(GraspPlan(targetPos, targetRot)) ==
      [targetPos, Lift(targetPos, 0.2), Lift(RobotReturnPose, 0.1), RobotReturnPose, RobotInitPose]
    ensures StepGrippers(GraspPlan(targetPos, targetRot)) == [20, 900]
  {
    var plan := GraspPlan(targetPos, targetRot);
    assert plan[0..] == plan && plan[5..] == [];
    StepGrippersAt(plan, 0);
    StepGrippersAt(plan, 1);
    StepGrippersAt(plan, 2);
    StepGrippersAt(plan, 3);
    StepGrippersAt(plan, 4);
  }

  /** A completed grasp issues seven commands, the gripper ones second and sixth. */
  lemma GraspEventLayout(ik: IkSolver, w: Joints, targetPos: Vec3, targetRot: Vec3)
    requires RunSteps(ik, w, GraspPlan(targetPos, targetRot)).completed
    ensures var es := RunSteps(ik, w, GraspPlan(targetPos, targetRot)).events;
      |es| == 7 && es[1] == SetGripper(20) && es[5] == SetGripper(900)
  {
    var plan := GraspPlan(targetPos, targetRot);
    assert plan[0..] == plan;
    RunStepsAt(ik, w, plan, 0);
    var j0 := ik(w, plan[0].goal, plan[0].rot).value;
    RunStepsAt(ik, j0, plan, 1);
    var j1 := ik(j0, plan[1].goal, plan[1].rot).value;
    var r1 := RunSteps(ik, j0, plan[1..]);
    var r2 := RunSteps(ik, j1, plan[2..]);
    GraspTailLayout(ik, j1, plan);
    assert r1.events == [MoveJoint(plan[1].goal, j1)] + r2.events;
  }

  /** The last three steps of a completed grasp: three moves with the opening command after the second. */
  lemma GraspTailLayout(ik: IkSolver, w: Joints, plan: seq<GraspStep>)
    requires |plan| == 5 && plan[2].gripper.None? && plan[3].gripper == Some(900) && plan[4].gripper.None?
    requires RunSteps(ik, w, plan[2..]).completed
    ensures var es := RunSteps(ik, w, plan[2..]).events;
      |es| == 4 && es[2] == SetGripper(900)
  {
    assert plan[5..] == [];
    RunStepsAt(ik, w, plan, 2);
    var j2 := ik(w, plan[2].goal, plan[2].rot).value;
    RunStepsAt(ik, j2, plan, 3);
    var j3 := ik(j2, plan[3].goal, plan[3].rot).value;
    RunStepsAt(ik, j3, plan, 4);
    var j4 := ik(j3, plan[4].goal, plan[4].rot).value;
    var r4 := RunSteps(ik, j3, plan[4..]);
    var r3 := RunSteps(ik, j2, plan[3..]);
    assert r4.events == [MoveJoint(plan[4].goal, j4)];
    assert r3.events == [MoveJoint(plan[3].goal, j3), SetGripper(900)] + r4.events;
  }

  /**
   * A grasp whose every IK solve succeeds issues exactly five moves, to the
   * object, 0.2 above it, 0.1 above the return pose, the return pose and home,
   * closing the gripper (20) right after the first and opening it (900) right
   * after the fourth.
   */
  lemma GraspSequence(ik: IkSolver, w: Joints, targetPos: Vec3, targetRot: Vec3)
    requires RunSteps(ik, w, GraspPlan(targetPos, targetRot)).completed
    ensures var es := RunSteps(ik, w, GraspPlan(targetPos, targetRot)).events;
      Goals(es) == [targetPos, Lift(targetPos, 0.2), Lift(RobotReturnPose, 0.1), RobotReturnPose, RobotInitPose] &&
      GripperValues(es) == [20, 900] &&
      |es| == 7 && es[1] == SetGripper(20) && es[5] == SetGripper(900)
  {
    CompletedRunFollowsPlan(ik, w, GraspPlan(targetPos, targetRot));
    GraspPlanContents(targetPos, targetRot);
    GraspEventLayout(ik, w, targetPos, targetRot);
  }

  // ---------------------------------------------------------------------
  // The controller
  // ---------------------------------------------------------------------

  /**
   * The `while self.robot_base:` test in `initialize_robot`: `None` is false,
   * so the loop is skipped; a numpy array makes the test raise `ValueError`.
   */
  function CalibrationLoopEntered(base: Option<Vec3>): Result<bool> {
    if base.None? then Success(false) else Failure(ValueError)
  }

  /** As written, a fresh controller never calibrates, whatever the rig reports. */
  lemma CalibrationSkippedWitness()
    ensures var frames := [BaseMarkers(Vec3(1.0, 2.0, 3.0), Vec3(3.0, 2.0, 1.0), Vec3(1.0, 4.0, 0.0),
                                       Vec3(3.0, 4.0, 0.0), Vec3(0.0, 0.0, 5.0))];
      CalibrationLoopEntered(None) == Success(false) &&
      FirstUsableBase(frames) == Some(Vec3(2.0, 3.0, 5.0))
  {
    var frames := [BaseMarkers(Vec3(1.0, 2.0, 3.0), Vec3(3.0, 2.0, 1.0), Vec3(1.0, 4.0, 0.0),
                               Vec3(3.0, 4.0, 0.0), Vec3(0.0, 0.0, 5.0))];
    assert !Degenerate(frames[0]);
  }

  /** The commands issued since `t0` and the waypoint reached, read back as the run they make up. */
  lemma RunOutcome(ik: IkSolver, w0: Joints, t0: seq<Event>, plan: seq<GraspStep>, trace: seq<Event>, w: Joints, completed: bool)
    requires |t0| <= |trace| && trace[..|t0|] == t0
    requires RunSteps(ik, w0, plan) == GraspRun(trace[|t0|..], w, completed)
    ensures var run := RunSteps(ik, w0, plan);
      trace == t0 + run.events && w == run.waypoint && run.completed == completed
  {
    assert trace == trace[..|t0|] + trace[|t0|..];
  }

  class RobotController {
    const ik: IkSolver
    var controllerRunning: bool
    var robotMoving: bool
    var gripperClosed: bool
    var currentTarget: Option<Vec3>
    var robotBase: Option<Vec3>
    /** `robot.connected` */
    var connected: bool
    /** `robot.get_current_waypoint()`: where the last joint move left the arm */
    var waypoint: Joints
    /** Every SDK and gripper call, and every write of `robot_moving`, in order */
    ghost var trace: seq<Event>

    constructor (ik: IkSolver, home: Joints)
      ensures this.ik == ik && waypoint == home
      ensures !controllerRunning && !robotMoving && !gripperClosed && !connected
      ensures currentTarget == None && robotBase == None && trace == []
    {
      this.ik := ik;
      waypoint := home;
      controllerRunning, robotMoving, gripperClosed, connected := false, false, false, false;
      currentTarget, robotBase := None, None;
      trace := [];
    }

    /**
     * `initialize_robot` as written: connect (a failure raises `RobotError`),
     * configure, then the calibration loop, whose `while self.robot_base:`
     * test is false for the initial `None`, so the base is never set.
     */
    method InitializeRobot(connectOk: bool) returns (raised: Option<PyError>)
      modifies this`connected, this`trace
      ensures trace == old(trace) + ConnectEvents(connectOk, 10.0)
      ensures connected == connectOk
      ensures raised == if !connectOk then Some(RobotError)
                        else if CalibrationLoopEntered(robotBase).Failure? then Some(ValueError)
                        else None
    {
      trace := trace + [Initialize, Connect(connectOk)];
      connected := connectOk;
      if !connectOk {
        return Some(RobotError);
      }
      trace := trace + [Configure(10.0, JointMaxAcc)];
      var entered := CalibrationLoopEntered(robotBase);
      if entered.Failure? {
        return Some(entered.error);
      }
      return None;
    }

    /**
     * The body of the calibration loop: a frame whose `XYPlane1` reads all
     * zeros is skipped; otherwise the base becomes the mean of the four planes
     * with `Zbase`'s height.
     */
    method CalibrateFromFrame(m: BaseMarkers) returns (used: bool)
      modifies this`robotBase
      ensures used == !Degenerate(m)
      ensures robotBase == if used then Some(WithZ(Mean(Planes(m)), m.zBase.z)) else old(robotBase)
    {
      if IsZero(m.xyPlane1) {
        return false;
      }
      robotBase := Some(WithZ(Mean(Planes(m)), m.zBase.z));
      return true;
    }

    /**
     * The calibration loop as evidently intended, `while self.robot_base is
     * None`: poll until a usable frame sets the base.
     */
    method CalibrateBase(frames: seq<BaseMarkers>) returns (polled: nat)
      modifies this`robotBase
      ensures old(robotBase).Some? ==> robotBase == old(robotBase) && polled == 0
      ensures old(robotBase).None? ==> robotBase == FirstUsableBase(frames)
      ensures polled <= |frames|
    {
      polled := 0;
      while robotBase.None? && polled < |frames|
        invariant polled <= |frames|
        invariant old(robotBase).Some? ==> robotBase == old(robotBase) && polled == 0
        invariant old(robotBase).None? && robotBase.None? ==>
          FirstUsableBase(frames) == FirstUsableBase(frames[polled..])
        invariant old(robotBase).None? && robotBase.Some? ==> robotBase == FirstUsableBase(frames)
      {
        var m := frames[polled];
        assert frames[polled..][0] == m && frames[polled..][1..] == frames[polled + 1..];
        var used := CalibrateFromFrame(m);
        polled := polled + 1;
      }
    }

    /** Record `move_joint(joints)` issued for `goal`; the call returns once the arm is there. */
    method IssueMoveJoint(goal: Vec3, joints: Joints)
      modifies this`waypoint, this`trace
      ensures waypoint == joints && trace == old(trace) + [MoveJoint(goal, joints)]
    {
      trace := trace + [MoveJoint(goal, joints)];
      waypoint := joints;
    }

    /** One target off the queue: solve IK, and move with `robot_moving` raised around the call. */
    method DispatchTarget(t: Vec3)
      requires !robotMoving
      modifies this`currentTarget, this`robotMoving, this`waypoint, this`trace
      ensures currentTarget == Some(t) && !robotMoving
      ensures trace == old(trace) + DispatchOne(ik, old(waypoint), t).events
      ensures waypoint == DispatchOne(ik, old(waypoint), t).waypoint
    {
      currentTarget := Some(t);
      var solution := ik(waypoint, t, RobotInitRot);
      if solution.None? {
        return;
      }
      robotMoving := true;
      trace := trace + [MovingFlag(true)];
      IssueMoveJoint(t, solution.value);
      robotMoving := false;
      trace := trace + [MovingFlag(false)];
    }

    /**
     * `robot_mover` for `rounds` iterations of `while self.controller_running`:
     * each takes the front target (a timeout when the queue is empty) and
     * dispatches it.
     */
    method RobotMover(q: TargetQueue, rounds: nat)
      requires !robotMoving
      modifies this`currentTarget, this`robotMoving, this`waypoint, this`trace, q
      ensures !robotMoving
      ensures var k := Consumed(old(controllerRunning), rounds, |old(q.items)|);
        q.items == old(q.items)[k..] &&
        trace == old(trace) + Dispatch(ik, old(waypoint), old(q.items)[..k]).events &&
        waypoint == Dispatch(ik, old(waypoint), old(q.items)[..k]).waypoint &&
        (k > 0 ==> currentTarget == Some(old(q.items)[k - 1])) &&
        (k == 0 ==> currentTarget == old(currentTarget))
    {
      ghost var queued := q.items;
      ghost var consumed := 0;
      var round := 0;
      while controllerRunning && round < rounds
        invariant round <= rounds
        invariant consumed == Consumed(controllerRunning, round, |queued|)
        invariant q.items == queued[consumed..]
        invariant trace == old(trace) + Dispatch(ik, old(waypoint), queued[..consumed]).events
        invariant waypoint == Dispatch(ik, old(waypoint), queued[..consumed]).waypoint
        invariant !robotMoving
        invariant controllerRunning == old(controllerRunning)
        invariant consumed > 0 ==> currentTarget == Some(queued[consumed - 1])
        invariant consumed == 0 ==> currentTarget == old(currentTarget)
      {
        var next := q.Get();
        if next.Some? {
          assert queued[..consumed + 1][..consumed] == queued[..consumed];
          assert queued[consumed] == next.value;
          DispatchTarget(next.value);
          consumed := consumed + 1;
          assert queued[consumed..] == queued[consumed - 1..][1..];
        }
        round := round + 1;
      }
    }

    /** One IK-then-move step of the grasp; `false` when IK finds no solution. */
    method GraspMove(goal: Vec3, rot: Vec3) returns (ok: bool)
      modifies this`waypoint, this`trace
      ensures ok == ik(old(waypoint), goal, rot).Some?
      ensures ok ==> waypoint == ik(old(waypoint), goal, rot).value &&
                     trace == old(trace) + [MoveJoint(goal, waypoint)]
      ensures !ok ==> waypoint == old(waypoint) && trace == old(trace)
    {
      var solution := ik(waypoint, goal, rot);
      if solution.None? {
        return false;
      }
      IssueMoveJoint(goal, solution.value);
      return true;
    }

    /** `gripper.set_pos(value)` */
    method SetGripperPos(value: int)
      modifies this`trace
      ensures trace == old(trace) + [SetGripper(value)]
    {
      trace := trace + [SetGripper(value)];
    }

    /** The commands issued since `t0` followed by the rest of `plan` from step `k` make up the whole run. */
    ghost predicate OnPlan(w0: Joints, t0: seq<Event>, plan: seq<GraspStep>, k: nat)
      reads this
    {
      k <= |plan| && |t0| <= |trace| && trace[..|t0|] == t0 &&
      var r := RunSteps(ik, waypoint, plan[k..]);
      RunSteps(ik, w0, plan) == GraspRun(trace[|t0|..] + r.events, r.waypoint, r.completed)
    }

    /** The run has been abandoned: what was issued since `t0` is all of it. */
    ghost predicate Abandoned(w0: Joints, t0: seq<Event>, plan: seq<GraspStep>)
      reads this
    {
      |t0| <= |trace| && trace[..|t0|] == t0 &&
      RunSteps(ik, w0, plan) == GraspRun(trace[|t0|..], waypoint, false)
    }

    /**
     * One paragraph of `grab_object`: solve IK for `goal`, move there, then
     * command the gripper when the step has a gripper value.
     */
    method GraspPhase(goal: Vec3, rot: Vec3, grip: Option<int>,
                      ghost w0: Joints, ghost t0: seq<Event>, ghost plan: seq<GraspStep>, ghost k: nat)
      returns (ok: bool)
      requires k < |plan| && plan[k] == GraspStep(goal, rot, grip) && OnPlan(w0, t0, plan, k)
      modifies this`waypoint, this`trace
      ensures ok == ik(old(waypoint), goal, rot).Some?
      ensures ok ==> OnPlan(w0, t0, plan, k + 1)
      ensures !ok ==> Abandoned(w0, t0, plan)
    {
      ghost var w, done := waypoint, trace[|t0|..];
      ok := GraspMove(goal, rot);
      if !ok {
        StepAborts(ik, w0, plan, k, done, w);
        return;
      }
      if grip.Some? {
        SetGripperPos(grip.value);
      }
      StepAdvances(ik, w0, plan, k, done, w);
      assert trace == t0 + (done + StepEvents(plan[k], waypoint));
    }

    /**
     * `grab_object`: the five fixed IK-then-move steps with the two gripper
     * commands. When a solve returns `None`, `ik_result["joint"]` raises
     * `TypeError` and nothing further runs.
     */
    method GrabObject(targetPos: Vec3, targetRot: Vec3) returns (raised: Option<PyError>)
      modifies this`waypoint, this`trace
      ensures var run := RunSteps(ik, old(waypoint), GraspPlan(targetPos, targetRot));
        trace == old(trace) + run.events && waypoint == run.waypoint &&
        raised == if run.completed then None else Some(TypeError)
    {
      ghost var plan := GraspPlan(targetPos, targetRot);
      ghost var w0, t0 := waypoint, trace;
      assert plan[0..] == plan && trace[..|t0|] == t0 && trace[|t0|..] == [];
      assert [] + RunSteps(ik, w0, plan).events == RunSteps(ik, w0, plan).events;

      var ok := GraspAndLift(targetPos, targetRot, w0, t0, plan);
      if !ok {
        RunOutcome(ik, w0, t0, plan, trace, waypoint, false);
        return Some(TypeError);
      }
      ok := ReturnAndRelease(targetPos, targetRot, w0, t0, plan);
      if !ok {
        RunOutcome(ik, w0, t0, plan, trace, waypoint, false);
        return Some(TypeError);
      }
      assert plan[5..] == [];
      assert trace[|t0|..] + [] == trace[|t0|..];
      RunOutcome(ik, w0, t0, plan, trace, waypoint, true);
      return None;
    }

    /** The first two paragraphs of `grab_object`: reach the target and close the gripper, then lift by 0.2. */
    method GraspAndLift(targetPos: Vec3, targetRot: Vec3, ghost w0: Joints, ghost t0: seq<Event>, ghost plan: seq<GraspStep>)
      returns (ok: bool)
      requires plan == GraspPlan(targetPos, targetRot) && OnPlan(w0, t0, plan, 0)
      modifies this`waypoint, this`trace
      ensures ok ==> OnPlan(w0, t0, plan, 2)
      ensures !ok ==> Abandoned(w0, t0, plan)
    {
      ok := GraspPhase(targetPos, targetRot, Some(20), w0, t0, plan, 0);
      if !ok {
        return;
      }
      var liftedPos := Lift(targetPos, 0.2);
      ok := GraspPhase(liftedPos, targetRot, None, w0, t0, plan, 1);
    }

    /**
     * The last three paragraphs: over the return pose, down onto it and open
     * the gripper, then back to the initial pose.
     */
    method ReturnAndRelease(targetPos: Vec3, targetRot: Vec3, ghost w0: Joints, ghost t0: seq<Event>, ghost plan: seq<GraspStep>)
      returns (ok: bool)
      requires plan == GraspPlan(targetPos, targetRot) && OnPlan(w0, t0, plan, 2)
      modifies this`waypoint, this`trace
      ensures ok ==> OnPlan(w0, t0, plan, 5)
      ensures !ok ==> Abandoned(w0, t0, plan)
    {
      var liftedReturnPos := Lift(RobotReturnPose, 0.1);
      ok := GraspPhase(liftedReturnPos, targetRot, None, w0, t0, plan, 2);
      if !ok {
        return;
      }
      ok := GraspPhase(RobotReturnPose, RobotInitRot, Some(900), w0, t0, plan, 3);
      if !ok {
        return;
      }
      ok := GraspPhase(RobotInitPose, RobotInitRot, None, w0, t0, plan, 4);
    }

    /** `stop`: clear the running flag, stop motion, disconnect if connected, release the SDK. */
    method Stop()
      modifies this`controllerRunning, this`connected, this`trace
      ensures !controllerRunning && !connected
      ensures trace == old(trace) + StopEvents(old(connected))
    {
      controllerRunning := false;
      trace := trace + [MoveStop];
      if connected {
        trace := trace + [Disconnect];
        connected := false;
      }
      trace := trace + [Uninitialize];
    }

    /**
     * `start`: a connection failure (`RobotError`) or the calibration test's
     * `ValueError` is caught and `stop` runs in the handler and again in
     * `finally`; otherwise creating the reader thread from the undefined
     * `vicon_reader` raises `AttributeError`, which propagates after the
     * `finally` stop.
     */
    method Start(connectOk: bool) returns (raised: Option<PyError>)
      modifies this`controllerRunning, this`connected, this`trace
      ensures raised == if connectOk && robotBase.None? then Some(AttributeError) else None
      ensures !controllerRunning && !connected
      ensures trace == old(trace) + ConnectEvents(connectOk, 10.0) +
        (if raised.Some? then StopEvents(true) else StopEvents(connectOk) + StopEvents(false))
    {
      controllerRunning := true;
      var err := InitializeRobot(connectOk);
      if err.Some? {
        Stop();
        Stop();
        return None;
      }
      Stop();
      return Some(AttributeError);
    }
  }
}
