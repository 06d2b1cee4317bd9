/**
 * The Vicon-following controller of `robot_controller.py`: a reader thread
 * turns hand readings into targets and queues them, a mover thread sends the
 * robot to each queued target. The two threads are modelled by their loop
 * bodies and an explicit interleaving of them.
 */
module TrackingController {
  import opened Wrappers
  import opened Vectors
  import opened Calibration
  import opened Robot
  import opened Channel

  // ---------------------------------------------------------------------
  // The reader's output
  // ---------------------------------------------------------------------

  /** The target of one reading, as a list: empty when the hand is occluded. */
  function TargetOf(hand: Vec3, base: Vec3): seq<Vec3> {
    match ToTarget(hand, base)
    case None => []
    case Some(t) => [t]
  }

  /** The targets the reader queues for a sequence of hand readings. */
  function ReaderTargets(hands: seq<Vec3>, base: Vec3): seq<Vec3>
    decreases |hands|
  {
    if hands == [] then []
    else ReaderTargets(hands[..|hands| - 1], base) + TargetOf(hands[|hands| - 1], base)
  }

  /** The readings that are not all zeros, in order. */
  function VisibleHands(hands: seq<Vec3>): seq<Vec3>
    decreases |hands|
  {
    if hands == [] then []
    else VisibleHands(hands[..|hands| - 1]) + (if IsZero(hands[|hands| - 1]) then [] else [hands[|hands| - 1]])
  }

  lemma {:induction false} ReaderTargetsAppend(a: seq<Vec3>, b: seq<Vec3>, base: Vec3)
    ensures ReaderTargets(a + b, base) == ReaderTargets(a, base) + ReaderTargets(b, base)
    decreases |b|
  {
    if b == [] {
      assert a + b == a;
    } else {
      var front := b[..|b| - 1];
      ReaderTargetsAppend(a, front, base);
      assert (a + b)[..|a + b| - 1] == a + front;
    }
  }

  /**
   * Every visible reading yields exactly one target, in reading order, and
   * that target is the reading's offset from the base in metres.
   */
  lemma {:induction false} ReaderTargetsAreVisibleHands(hands: seq<Vec3>, base: Vec3)
    ensures |ReaderTargets(hands, base)| == |VisibleHands(hands)| <= |hands|
    ensures forall i :: 0 <= i < |ReaderTargets(hands, base)| ==>
      Add(ToMillimetres(ReaderTargets(hands, base)[i]), base) == VisibleHands(hands)[i]
    decreases |hands|
  {
    if hands != [] {
      var front, h := hands[..|hands| - 1], hands[|hands| - 1];
      ReaderTargetsAreVisibleHands(front, base);
      var ts, vs := ReaderTargets(front, base), VisibleHands(front);
      if !IsZero(h) {
        var t := ToTarget(h, base).value;
        TargetInverse(h, base);
        assert ReaderTargets(hands, base) == ts + [t];
        assert VisibleHands(hands) == vs + [h];
      }
    }
  }

  /** With no occluded reading, every reading is queued. */
  lemma {:induction false} ReaderTargetsAllVisible(hands: seq<Vec3>, base: Vec3)
    requires forall i :: 0 <= i < |hands| ==> !IsZero(hands[i])
    ensures |ReaderTargets(hands, base)| == |hands|
    decreases |hands|
  {
    if hands != [] {
      ReaderTargetsAllVisible(hands[..|hands| - 1], base);
    }
  }

  // ---------------------------------------------------------------------
  // The mover's output
  // ---------------------------------------------------------------------

  /** The Cartesian moves the mover issues for dequeued targets, all at the fixed rotation. */
  function MoveEvents(ts: seq<Vec3>): seq<Event>
    decreases |ts|
  {
    if ts == [] then []
    else MoveEvents(ts[..|ts| - 1]) + [MoveCartesian(ts[|ts| - 1], RobotInitRot)]
  }

  /** The mover sends the robot to the dequeued targets and nowhere else. */
  lemma {:induction false} MoveEventsGoals(ts: seq<Vec3>)
    ensures Goals(MoveEvents(ts)) == ts
    ensures |MoveEvents(ts)| == |ts|
    ensures forall i :: 0 <= i < |ts| ==> MoveEvents(ts)[i] == MoveCartesian(ts[i], RobotInitRot)
    decreases |ts|
  {
    if ts != [] {
      var front := ts[..|ts| - 1];
      MoveEventsGoals(front);
      SingleEvent(MoveCartesian(ts[|ts| - 1], RobotInitRot));
      GoalsAppend(MoveEvents(front), [MoveCartesian(ts[|ts| - 1], RobotInitRot)]);
      assert front + [ts[|ts| - 1]] == ts;
    }
  }

  lemma MoveEventsSnoc(ts: seq<Vec3>, t: Vec3)
    ensures MoveEvents(ts + [t]) == MoveEvents(ts) + [MoveCartesian(t, RobotInitRot)]
  {
    assert (ts + [t])[..|ts + [t]| - 1] == ts;
  }

  // ---------------------------------------------------------------------
  // The two threads interleaved
  // ---------------------------------------------------------------------

  /** One turn of a thread: the reader takes a hand reading, or the mover polls the queue. */
  datatype Turn = Read(hand: Vec3) | Move

  /** The hand readings of a schedule, in order. */
  function Hands(schedule: seq<Turn>): seq<Vec3>
    decreases |schedule|
  {
    if schedule == [] then []
    else
      var last := match schedule[|schedule| - 1] case Read(h) => [h] case Move => [];
      Hands(schedule[..|schedule| - 1]) + last
  }

  /** The mover's turns in a schedule. */
  function MoveTurns(schedule: seq<Turn>): nat
    decreases |schedule|
  {
    if schedule == [] then 0
    else MoveTurns(schedule[..|schedule| - 1]) + (if schedule[|schedule| - 1].Move? then 1 else 0)
  }

  /** The targets moved to and the targets still queued after a schedule. */
  datatype Handoff = Handoff(moved: seq<Vec3>, queued: seq<Vec3>)

  /**
   * A schedule run against a queue holding `queued`: a reading appends its
   * target at the back, a poll takes the front one (or times out when empty).
   */
  function Interleave(queued: seq<Vec3>, base: Vec3, schedule: seq<Turn>): Handoff
    decreases |schedule|
  {
    if schedule == [] then Handoff([], queued)
    else
      var h := Interleave(queued, base, schedule[..|schedule| - 1]);
      match schedule[|schedule| - 1]
      case Read(hand) => Handoff(h.moved, h.queued + TargetOf(hand, base))
      case Move => if h.queued == [] then h else Handoff(h.moved + [h.queued[0]], h.queued[1..])
  }

  /** One more turn of the schedule: a read queues its target, a move takes the front of the queue. */
  lemma InterleaveStep(queued: seq<Vec3>, base: Vec3, schedule: seq<Turn>, i: nat)
    requires i < |schedule|
    ensures var h, n := Interleave(queued, base, schedule[..i]), Interleave(queued, base, schedule[..i + 1]);
      match schedule[i]
      case Read(hand) => n.queued == h.queued + TargetOf(hand, base) && n.moved == h.moved
      case Move =>
        (h.queued == [] ==> n == h) &&
        (h.queued != [] ==>
          n.queued == h.queued[1..] &&
          MoveEvents(n.moved) == MoveEvents(h.moved) + [MoveCartesian(h.queued[0], RobotInitRot)])
  {
    assert schedule[..i + 1][..i] == schedule[..i];
    var h := Interleave(queued, base, schedule[..i]);
    if schedule[i].Move? && h.queued != [] {
      MoveEventsSnoc(h.moved, h.queued[0]);
    }
  }

  /** The targets moved to, then those still queued, are the queue before followed by the reader's output. */
  lemma {:induction false} InterleaveStream(queued: seq<Vec3>, base: Vec3, schedule: seq<Turn>)
    ensures var h := Interleave(queued, base, schedule);
      h.moved + h.queued == queued + ReaderTargets(Hands(schedule), base) &&
      |h.moved| <= MoveTurns(schedule)
    decreases |schedule|
  {
    if schedule != [] {
      var front := schedule[..|schedule| - 1];
      InterleaveStream(queued, base, front);
      if schedule[|schedule| - 1].Read? {
        StreamRead(queued, base, schedule);
      } else {
        assert Hands(schedule) == Hands(front) + [] == Hands(front);
        StreamMove(queued, base, schedule, ReaderTargets(Hands(front), base));
      }
    }
  }

  /** The inductive step of `InterleaveStream` for a final reader turn. */
  lemma StreamRead(queued: seq<Vec3>, base: Vec3, schedule: seq<Turn>)
    requires schedule != [] && schedule[|schedule| - 1].Read?
    requires var h := Interleave(queued, base, schedule[..|schedule| - 1]);
      h.moved + h.queued == queued + ReaderTargets(Hands(schedule[..|schedule| - 1]), base) &&
      |h.moved| <= MoveTurns(schedule[..|schedule| - 1])
    ensures var h := Interleave(queued, base, schedule);
      h.moved + h.queued == queued + ReaderTargets(Hands(schedule), base) &&
      |h.moved| <= MoveTurns(schedule)
  {
    var front := schedule[..|schedule| - 1];
    var hand := schedule[|schedule| - 1].hand;
    var h := Interleave(queued, base, front);
    var t := TargetOf(hand, base);
    var hs := Hands(front) + [hand];
    assert Hands(schedule) == hs;
    assert hs[..|hs| - 1] == Hands(front);
    assert ReaderTargets(hs, base) == ReaderTargets(Hands(front), base) + t;
    assert Interleave(queued, base, schedule) == Handoff(h.moved, h.queued + t);
    assert h.moved + (h.queued + t) == (h.moved + h.queued) + t;
    assert queued + (ReaderTargets(Hands(front), base) + t) == (queued + ReaderTargets(Hands(front), base)) + t;
  }

  /**
   * The inductive step of `InterleaveStream` for a final mover turn, over
   * any reader output `out`: taking the front of the queue keeps the stream.
   */
  lemma StreamMove(queued: seq<Vec3>, base: Vec3, schedule: seq<Turn>, out: seq<Vec3>)
    requires schedule != [] && schedule[|schedule| - 1].Move?
    requires var h := Interleave(queued, base, schedule[..|schedule| - 1]);
      h.moved + h.queued == queued + out && |h.moved| <= MoveTurns(schedule[..|schedule| - 1])
    ensures var h := Interleave(queued, base, schedule);
      h.moved + h.queued == queued + out && |h.moved| <= MoveTurns(schedule)
  {
    var front := schedule[..|schedule| - 1];
    var h := Interleave(queued, base, front);
    assert MoveTurns(schedule) == MoveTurns(front) + 1;
    if h.queued != [] {
      assert (h.moved + [h.queued[0]]) + h.queued[1..] == h.moved + h.queued;
    }
  }

  /**
   * Nothing is lost, duplicated or reordered between the threads: the targets
   * moved to, followed by those still queued, are exactly what was queued
   * before followed by what the reader produced. In particular the moves are
   * a prefix of that stream, and there are no more of them than mover turns.
   */
  lemma InterleaveConserves(queued: seq<Vec3>, base: Vec3, schedule: seq<Turn>)
    ensures var h := Interleave(queued, base, schedule);
      h.moved + h.queued == queued + ReaderTargets(Hands(schedule), base) &&
      h.moved == (queued + ReaderTargets(Hands(schedule), base))[..|h.moved|] &&
      |h.moved| <= MoveTurns(schedule)
  {
    InterleaveStream(queued, base, schedule);
    var h := Interleave(queued, base, schedule);
    var all := queued + ReaderTargets(Hands(schedule), base);
    assert all[..|h.moved|] == (h.moved + h.queued)[..|h.moved|];
  }

  /** Once the reader stops, enough mover turns drain the queue, moving to every target in order. */
  lemma {:induction false} InterleaveDrains(queued: seq<Vec3>, base: Vec3, n: nat)
    ensures Interleave(queued, base, seq(n, _ => Move)) ==
      Handoff(queued[..if n < |queued| then n else |queued|], queued[if n < |queued| then n else |queued|..])
  {
    if n > 0 {
      var s := seq(n, _ => Move);
      assert s[..n - 1] == seq(n - 1, _ => Move);
      InterleaveDrains(queued, base, n - 1);
      var k := if n - 1 < |queued| then n - 1 else |queued|;
      if k < |queued| {
        assert queued[..k] + [queued[k..][0]] == queued[..k + 1];
        assert queued[k..][1..] == queued[k + 1..];
      }
    } else {
      assert queued[..0] == [] && queued[0..] == queued;
    }
  }

  // ---------------------------------------------------------------------
  // The controller
  // ---------------------------------------------------------------------

  /** The outcome of `start()`: the SDK calls, for a given connection result, calibration frames and schedule. */
  function StartEvents(connectOk: bool, frames: seq<BaseMarkers>, queued: seq<Vec3>,
                       schedule: seq<Turn>, wasConnected: bool): seq<Event>
  {
    ConnectEvents(connectOk, 20.0) + StartMoves(connectOk, frames, queued, schedule) +
    StopEvents(connectOk || wasConnected) + StopEvents(false)
  }

  /** Connecting moves nothing and stops nothing. */
  lemma ConnectEventsMoveNothing(connectOk: bool, maxVelc: real)
    ensures Goals(ConnectEvents(connectOk, maxVelc)) == []
    ensures Count(ConnectEvents(connectOk, maxVelc), MoveStop) == 0
  {
    var cfg := if connectOk then [Configure(maxVelc, JointMaxAcc)] else [];
    var tail := [Connect(connectOk)] + cfg;
    assert ConnectEvents(connectOk, maxVelc) == [Initialize] + tail;
    SingleEvent(Initialize);
    SingleEvent(Connect(connectOk));
    if connectOk {
      SingleEvent(Configure(maxVelc, JointMaxAcc));
    }
    GoalsAppend([Connect(connectOk)], cfg);
    GoalsAppend([Initialize], tail);
  }

  /** The motion part of `start()`: the initial pose once connected, then the targets the mover reached. */
  function StartMoves(connectOk: bool, frames: seq<BaseMarkers>, queued: seq<Vec3>, schedule: seq<Turn>): seq<Event> {
    if connectOk then
      [MoveCartesian(RobotInitPose, RobotInitRot)] +
      (match FirstUsableBase(frames)
       case None => []
       case Some(base) => MoveEvents(Interleave(queued, base, schedule).moved))
    else []
  }

  lemma StartEventsParts(connectOk: bool, frames: seq<BaseMarkers>, queued: seq<Vec3>, schedule: seq<Turn>, wasConnected: bool)
    ensures var stops := StopEvents(connectOk || wasConnected) + StopEvents(false);
      StartEvents(connectOk, frames, queued, schedule, wasConnected) ==
        ConnectEvents(connectOk, 20.0) + StartMoves(connectOk, frames, queued, schedule) + stops &&
      Goals(stops) == [] && Count(stops, MoveStop) == 2
  {
    StopEventsOrder(connectOk || wasConnected);
    StopEventsOrder(false);
    GoalsAppend(StopEvents(connectOk || wasConnected), StopEvents(false));
  }

  /** Goals of the motion part: the initial pose, then a prefix of the targets read. */
  lemma StartMovesGoals(connectOk: bool, frames: seq<BaseMarkers>, schedule: seq<Turn>)
    ensures var g := Goals(StartMoves(connectOk, frames, [], schedule));
      (!connectOk ==> g == []) &&
      (connectOk && FirstUsableBase(frames).None? ==> g == [RobotInitPose]) &&
      (connectOk && FirstUsableBase(frames).Some? ==>
        |g| >= 1 && g[0] == RobotInitPose && g[1..] <= ReaderTargets(Hands(schedule), FirstUsableBase(frames).value))
    ensures Count(StartMoves(connectOk, frames, [], schedule), MoveStop) == 0
  {
    if connectOk {
      var moves: seq<Vec3> := match FirstUsableBase(frames)
        case None => []
        case Some(base) => Interleave([], base, schedule).moved;
      MoveEventsGoals(moves);
      MoveEventsNoStop(moves);
      SingleEvent(MoveCartesian(RobotInitPose, RobotInitRot));
      GoalsAppend([MoveCartesian(RobotInitPose, RobotInitRot)], MoveEvents(moves));
      assert StartMoves(connectOk, frames, [], schedule) == [MoveCartesian(RobotInitPose, RobotInitRot)] + MoveEvents(moves);
      if FirstUsableBase(frames).Some? {
        var base := FirstUsableBase(frames).value;
        InterleaveConserves([], base, schedule);
        assert [] + ReaderTargets(Hands(schedule), base) == ReaderTargets(Hands(schedule), base);
      }
    }
  }

  /**
   * A fresh controller goes to the initial pose once connected, then to the
   * targets read from the hand, in reading order (a prefix of them: those the
   * mover got to before the interrupt), and stops motion twice at the end.
   */
  lemma StartMovesToReadTargets(connectOk: bool, frames: seq<BaseMarkers>, schedule: seq<Turn>, wasConnected: bool)
    ensures var g := Goals(StartEvents(connectOk, frames, [], schedule, wasConnected));
      (!connectOk ==> g == []) &&
      (connectOk && FirstUsableBase(frames).None? ==> g == [RobotInitPose]) &&
      (connectOk && FirstUsableBase(frames).Some? ==>
        |g| >= 1 && g[0] == RobotInitPose && g[1..] <= ReaderTargets(Hands(schedule), FirstUsableBase(frames).value))
    ensures Count(StartEvents(connectOk, frames, [], schedule, wasConnected), MoveStop) == 2
  {
    var conn := ConnectEvents(connectOk, 20.0);
    var body := StartMoves(connectOk, frames, [], schedule);
    var stops := StopEvents(connectOk || wasConnected) + StopEvents(false);
    StartEventsParts(connectOk, frames, [], schedule, wasConnected);
    ConnectEventsMoveNothing(connectOk, 20.0);
    StartMovesGoals(connectOk, frames, schedule);
    GoalsAppend(conn, body);
    GoalsAppend(conn + body, stops);
  }

  /** The mover issues Cartesian moves only. */
  lemma {:induction false} MoveEventsNoStop(ts: seq<Vec3>)
    ensures forall e :: Count(MoveEvents(ts), e) == 0 || e.MoveCartesian?
    decreases |ts|
  {
    if ts != [] {
      MoveEventsNoStop(ts[..|ts| - 1]);
      SingleEvent(MoveCartesian(ts[|ts| - 1], RobotInitRot));
      GoalsAppend(MoveEvents(ts[..|ts| - 1]), [MoveCartesian(ts[|ts| - 1], RobotInitRot)]);
    }
  }

  /** Regrouping a trace built from four appended parts. */
  lemma AppendAssociates(t: seq<Event>, a: seq<Event>, b: seq<Event>, c: seq<Event>, d: seq<Event>)
    ensures t + (a + b + c + d) == t + a + b + c + d
  {
  }

  class TrackingController {
    /** `vicon_queue` */
    const viconQueue: TargetQueue
    var running: bool
    /** `robot_moving`: initialised to `False` and never assigned again */
    var robotMoving: bool
    /** `robot_base`: unset until calibration */
    var robotBase: Option<Vec3>
    /** `robot.connected` */
    var connected: bool
    /** Every SDK call, in order */
    ghost var trace: seq<Event>

    constructor ()
      ensures fresh(viconQueue) && viconQueue.items == []
      ensures !running && !robotMoving && robotBase == None && !connected && trace == []
    {
      viconQueue := new TargetQueue();
      running, robotMoving, robotBase, connected := false, false, None, false;
      trace := [];
    }

    /**
     * `initialize_robot`: connect (a failure raises `RobotError`), configure
     * with joint velocity 20, move to the initial pose, then poll `frames`
     * until one has a usable base. When every frame is degenerate the loop
     * would poll forever; the operator's Ctrl-C ends it.
     */
    method InitializeRobot(connectOk: bool, frames: seq<BaseMarkers>) returns (raised: Option<PyError>)
      modifies this`connected, this`trace, this`robotBase
      ensures !connectOk ==> (raised == Some(RobotError) && connected == old(connected) &&
        robotBase == old(robotBase) && trace == old(trace) + ConnectEvents(false, 20.0))
      ensures connectOk ==> (connected &&
        trace == old(trace) + ConnectEvents(true, 20.0) + [MoveCartesian(RobotInitPose, RobotInitRot)] &&
        (raised.None? <==> FirstUsableBase(frames).Some?) &&
        (raised.Some? ==> raised == Some(KeyboardInterrupt) && robotBase == old(robotBase)) &&
        (raised.None? ==> robotBase == FirstUsableBase(frames)))
    {
      trace := trace + [Initialize, Connect(connectOk)];
      if !connectOk {
        return Some(RobotError);
      }
      connected := true;
      trace := trace + [Configure(20.0, JointMaxAcc)];
      trace := trace + [MoveCartesian(RobotInitPose, RobotInitRot)];
      var base, polled := PollBase(frames);
      if base.None? {
        return Some(KeyboardInterrupt);
      }
      robotBase := base;
      return None;
    }

    /**
     * One pass of `vicon_reader`: skip while the robot moves, skip an
     * all-zero hand reading, otherwise queue the offset from the base in metres.
     */
    method ReaderIteration(hand: Vec3)
      requires robotBase.Some?
      modifies viconQueue
      ensures viconQueue.items == old(viconQueue.items) + (if robotMoving then [] else TargetOf(hand, robotBase.value))
    {
      if robotMoving {
        return;
      }
      var target := ToTarget(hand, robotBase.value);
      if target.None? {
        return;
      }
      viconQueue.Put(target.value);
    }

    /** One pass of `robot_mover`: take the front target and move there; a timeout moves nothing. */
    method MoverIteration()
      modifies viconQueue, this`trace
      ensures old(viconQueue.items) == [] ==> viconQueue.items == [] && trace == old(trace)
      ensures old(viconQueue.items) != [] ==> (viconQueue.items == old(viconQueue.items)[1..] &&
        trace == old(trace) + [MoveCartesian(old(viconQueue.items)[0], RobotInitRot)])
    {
      var target := viconQueue.Get();
      if target.None? {
        return;
      }
      trace := trace + [MoveCartesian(target.value, RobotInitRot)];
    }

    /** `vicon_reader` on its own, over the readings it gets while running. */
    method ViconReader(hands: seq<Vec3>)
      requires robotBase.Some? && !robotMoving
      modifies viconQueue
      ensures viconQueue.items == old(viconQueue.items) + (if running then ReaderTargets(hands, robotBase.value) else [])
    {
      var i := 0;
      while running && i < |hands|
        invariant i <= |hands|
        invariant !running ==> i == 0
        invariant viconQueue.items == old(viconQueue.items) + ReaderTargets(hands[..i], robotBase.value)
      {
        assert hands[..i + 1][..i] == hands[..i];
        ReaderIteration(hands[i]);
        i := i + 1;
      }
      if running {
        assert hands[..i] == hands;
      } else {
        assert hands[..0] == [];
      }
    }

    /** `robot_mover` on its own for `rounds` polls: it moves to the front targets in order. */
    method RobotMover(rounds: nat)
      modifies viconQueue, this`trace
      ensures var k := if !running then 0 else if rounds < |old(viconQueue.items)| then rounds else |old(viconQueue.items)|;
        viconQueue.items == old(viconQueue.items)[k..] &&
        trace == old(trace) + MoveEvents(old(viconQueue.items)[..k])
    {
      ghost var queued := viconQueue.items;
      ghost var k := 0;
      var round := 0;
      while running && round < rounds
        invariant round <= rounds
        invariant !running ==> round == 0
        invariant k == if round < |queued| then round else |queued|
        invariant viconQueue.items == queued[k..]
        invariant trace == old(trace) + MoveEvents(queued[..k])
      {
        if k < |queued| {
          assert queued[k..][0] == queued[k] && queued[k..][1..] == queued[k + 1..];
          MoveEventsSnoc(queued[..k], queued[k]);
          assert queued[..k] + [queued[k]] == queued[..k + 1];
        }
        MoverIteration();
        if k < |queued| {
          k := k + 1;
        }
        round := round + 1;
      }
      assert queued[0..] == queued && queued[..0] == [];
    }

    /** Both threads while running, their passes taken in the order `schedule` gives. */
    method Run(schedule: seq<Turn>)
      requires robotBase.Some? && !robotMoving
      modifies viconQueue, this`trace
      ensures var h := Interleave(old(viconQueue.items), robotBase.value, schedule);
        viconQueue.items == h.queued && trace == old(trace) + MoveEvents(h.moved)
    {
      var i := 0;
      while i < |schedule|
        invariant i <= |schedule|
        invariant var h := Interleave(old(viconQueue.items), robotBase.value, schedule[..i]);
          viconQueue.items == h.queued && trace == old(trace) + MoveEvents(h.moved)
      {
        InterleaveStep(old(viconQueue.items), robotBase.value, schedule, i);
        match schedule[i] {
          case Read(hand) =>
            ReaderIteration(hand);
          case Move =>
            MoverIteration();
        }
        i := i + 1;
      }
      assert schedule[..i] == schedule;
    }

    /** `stop()`: clear the running flag, stop motion, disconnect if connected, release the SDK. */
    method Stop()
      modifies this`running, this`connected, this`trace
      ensures !running && !connected
      ensures trace == old(trace) + StopEvents(old(connected))
    {
      running := false;
      trace := trace + [MoveStop];
      if connected {
        trace := trace + [Disconnect];
        connected := false;
      }
      trace := trace + [Uninitialize];
    }

    /** The `try` body of `start()`: initialise, then both threads until the operator's Ctrl-C. */
    method InitializeAndRun(connectOk: bool, frames: seq<BaseMarkers>, schedule: seq<Turn>)
      requires !robotMoving
      modifies viconQueue, this`connected, this`robotBase, this`trace
      ensures connected == (connectOk || old(connected))
      ensures trace == old(trace) + ConnectEvents(connectOk, 20.0) +
        StartMoves(connectOk, frames, old(viconQueue.items), schedule)
    {
      ghost var t0 := trace;
      ghost var queued := viconQueue.items;
      var raised := InitializeRobot(connectOk, frames);
      if raised.None? {
        ghost var t1 := trace;
        ghost var base := robotBase.value;
        assert FirstUsableBase(frames) == Some(base);
        Run(schedule);
        ghost var rest := MoveEvents(Interleave(queued, base, schedule).moved);
        assert StartMoves(connectOk, frames, queued, schedule) == [MoveCartesian(RobotInitPose, RobotInitRot)] + rest;
        assert trace == t1 + rest;
      } else {
        assert StartMoves(connectOk, frames, queued, schedule) ==
          if connectOk then [MoveCartesian(RobotInitPose, RobotInitRot)] else [];
      }
    }

    /**
     * `start()`: every way out of the `try` body (`RobotError` from
     * connecting, the interrupt during calibration or while running) passes
     * through an `except` that calls `stop()` and then the `finally` that
     * calls it again.
     */
    method Start(connectOk: bool, frames: seq<BaseMarkers>, schedule: seq<Turn>)
      requires !robotMoving
      modifies viconQueue, this`running, this`connected, this`robotBase, this`trace
      ensures !running && !connected
      ensures trace == old(trace) + StartEvents(connectOk, frames, old(viconQueue.items), schedule, old(connected))
    {
      ghost var head := trace + ConnectEvents(connectOk, 20.0) +
        StartMoves(connectOk, frames, viconQueue.items, schedule);
      ghost var wasConnected := connected;
      running := true;
      InitializeAndRun(connectOk, frames, schedule);
      assert trace == head;
      Stop();
      assert trace == head + StopEvents(connectOk || wasConnected);
      Stop();
      AppendAssociates(old(trace), ConnectEvents(connectOk, 20.0),
        StartMoves(connectOk, frames, old(viconQueue.items), schedule),
        StopEvents(connectOk || wasConnected), StopEvents(false));
    }
  }
}
