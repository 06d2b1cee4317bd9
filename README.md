# vicon-robot: the tracking-to-motion core, in Dafny

vicon-robot drives an AUBO i5 arm from Vicon motion capture. The rig reports
marker positions in millimetres. A `Base` subject (four `XYPlane` markers and
a `Zbase` marker) locates the robot base. A `Hand` subject's `Center` marker
is the point the robot should follow. This project models the arithmetic and
control logic between those readings and the robot commands:

- **Base calibration and coordinate conversion** (`vectors.dfy`,
  `calibration.dfy`, `origin.dfy`).
  - The base origin is the mean of the four plane markers in X/Y, with the
    height of `Zbase`.
  - A hand reading of all zeros means the marker is occluded, and is dropped.
  - Any other reading becomes the target `(hand - base) / 1000`, in metres.
- **The threaded tracking controller** of `robot_controller.py`
  (`tracking_controller.dfy`, `channel.dfy`).
  - A reader turns hand readings into targets and puts them on a FIFO queue.
  - A mover takes targets off the queue and moves the robot to them.
  - The two threads are modelled as their loop bodies plus an explicit
    schedule that interleaves them.
- **The grasp-capable controller** of `robot_controller/robot_controller.py`
  (`arm_controller.dfy`).
  - Base calibration.
  - The IK-then-`move_joint` mover, with its `robot_moving` busy flag.
  - The scripted five-step grasp `grab_object`.
  - The shutdown sequence `stop`.
- **The stand-alone script** `hand_traking.bak.py`
  (`hand_tracking_script.dfy`).
- **Recorded-session tools** `csv_helper.py` and `session_extract.py`
  (`frames.dfy`, `csv_helper.dfy`, `session_extract.dfy`).
  - A small model of the pandas frames they build, with NaN as `None`.
  - Column labels made by pairing the header rows.
  - Forward fill of marker names.
  - Coordinates relative to the first row, and relative to a reference marker.

How the model represents the system:

- Coordinates are exact `real` triples.
- The commands sent to the robot SDK and gripper are a ghost trace of `Event`s.
  - `Initialize` stands for `Auboi5Robot.initialize()` followed by `create_context()`.
  - `Connect` stands for `connect`, and records whether it succeeded.
  - `Configure` stands for `enable_robot_event`, `init_profile`, `set_joint_maxacc` and
    `set_joint_maxvelc`, and records the two limits.
  - `MoveCartesian`, `MoveJoint`, `SetGripper`, `MoveStop`, `Disconnect` and
    `Uninitialize` each stand for the one call of that name.
  - `MovingFlag` records each write of `robot_moving` inside the grasp
    controller's mover. The constructors' initial `False` is not recorded.
  - The IK queries (`rpy_to_quaternion`, `get_current_waypoint`,
    `inverse_kin`), `get_robot_state` polls and logging record nothing.
- Inverse kinematics is an uninterpreted oracle `IkSolver`. It takes the
  current waypoint, a position and a rotation, and returns `Option<Joints>`.
  `move_joint` leaves the arm at the commanded joints.
- Device input is a parameter. This covers Vicon frames, the connection
  result, and the hand readings taken before the operator presses Ctrl-C.

## Model

| member | source | states |
|---|---|---|
| Vectors.Lift | robot_controller/robot_controller.py:154-155 | the lifted pose differs from the original by exactly `dz` in height and nothing else |
| Vectors.MetresRoundTrip | hand_traking.bak.py:20-21 | dividing by 1000 loses nothing: multiplying back recovers the reading |
| Vectors.MetresZero | hand_traking.bak.py:97-98 | a reading is all zeros in metres exactly when it is all zeros in millimetres, so the occlusion test may be applied before or after conversion |
| Vectors.MeanOfFour | robot_controller.py:82-84 | `np.mean` over four markers equals `(xy1 + xy2 + xy3 + xy4) / 4`, so the two controllers' formulas agree |
| Vectors.SumPermutation | robot_controller/robot_controller.py:77-80 | the componentwise sum of marker readings does not depend on their order |
| Vectors.MeanPermutation | robot_controller/robot_controller.py:77-80 | the componentwise mean of marker readings does not depend on their order |
| Calibration.BaseOrigin | robot_controller.py:77-85 | the sum-divided-by-four with the height overwritten is the mean of the four planes in X/Y, with `Zbase`'s height |
| Calibration.BaseOriginPlaneOrder | robot_controller/robot_controller.py:77-81 | relabelling the four plane markers leaves the origin unchanged |
| Calibration.BaseOriginIgnores | robot_controller.py:82-85 | the origin depends only on the planes' X/Y and on `Zbase`'s height: the other coordinates are ignored |
| Calibration.BaseOriginShift | robot_controller.py:77-85 | moving every base marker by `d` moves the origin by `d` |
| Calibration.Calibrate | robot_controller/robot_controller.py:74-81 | a frame yields no origin exactly when `XYPlane1` reads all zeros; otherwise it yields the planes' mean with `Zbase`'s height |
| Calibration.FirstUsableBaseSpec | robot_controller.py:69-88 | polling yields nothing exactly when every frame is degenerate; otherwise it yields the origin of the first usable frame, and every earlier frame is degenerate |
| Calibration.PollBase | robot_controller.py:69-88 | the polling loop skips degenerate frames, stops at the first usable one and returns its origin; it has polled every frame exactly when none was usable |
| Calibration.ToTarget | robot_controller.py:113-117 | a hand reading gives no target exactly when it is all zeros |
| Calibration.TargetInverse | robot_controller.py:117 | a target converted back to millimetres and added to the base is the hand reading: no tool or height offset is applied |
| Calibration.TargetShift | robot_controller.py:77-85 | moving the whole rig (hand and base markers) by the same offset leaves every target unchanged |
| Calibration.TargetExample | robot_controller.py:113-117 | a worked reading over the origin gives the same numbers in metres; an all-zero reading gives no target |
| Origin.GetAuboCoords | utils/coordinate/origin.py:9-24 | with every cell it reads present, the result is the mean of the four planes in X and Y with `Zbase`'s Z; a missing cell raises `KeyError` |
| Origin.PlaneOrderIrrelevant | utils/coordinate/origin.py:10-21 | permuting the four planes' readings leaves the result unchanged |
| Origin.AgreesWithCalibration | utils/coordinate/origin.py:10-24 | for the same readings the table's origin equals the live calibration's origin |
| Robot.StopEventsOrder | robot_controller/robot_controller.py:174-180 | shutdown stops motion first and releases the SDK last, each exactly once; it disconnects once if connected and otherwise not at all; it moves nothing |
| Channel.TargetQueue.constructor | robot_controller.py:31 | a new queue is empty |
| Channel.TargetQueue.Put | robot_controller.py:119 | `put` appends at the back |
| Channel.TargetQueue.Get | robot_controller.py:126 | `get` takes the front target; on an empty queue it reports `queue.Empty` and changes nothing |
| TrackingController.ReaderTargetsAppend | robot_controller.py:104-119 | the reader's output for two batches of readings is the output for the first batch followed by the output for the second |
| TrackingController.ReaderTargetsAreVisibleHands | robot_controller.py:113-119 | each non-zero reading yields exactly one queued target, in reading order, and that target is the reading's offset from the base in metres; no other target is queued |
| TrackingController.ReaderTargetsAllVisible | robot_controller.py:113-119 | when no reading is occluded, every reading is queued |
| TrackingController.MoveEventsGoals | robot_controller.py:126-128 | the mover sends the robot to exactly the dequeued targets, one Cartesian move each, at the fixed initial rotation |
| TrackingController.MoveEventsNoStop | robot_controller.py:121-138 | the mover issues only Cartesian moves |
| TrackingController.InterleaveStream | robot_controller.py:119-126 | the targets moved to, followed by those still queued, are the earlier queue followed by the reader's output; there are no more moves than mover turns |
| TrackingController.InterleaveConserves | robot_controller.py:119-126 | under any interleaving of the threads nothing is lost, duplicated or reordered: the moves are a prefix of the earlier queue followed by the reader's output |
| TrackingController.InterleaveDrains | robot_controller.py:123-138 | once the reader stops, `n` mover turns move to the first `n` queued targets in order, and the rest stay queued; a timeout moves nothing |
| TrackingController.ConnectEventsMoveNothing | robot_controller.py:41-60 | connecting and configuring neither moves nor stops the robot |
| TrackingController.StartEventsParts | robot_controller.py:156-166 | the commands of `start` are connection, then motion, then `stop` twice; the second `stop` does not disconnect |
| TrackingController.StartMovesGoals | robot_controller.py:65-67 | the motion part of `start` goes to the initial pose once connected, then to a prefix of the targets read, and never stops motion |
| TrackingController.StartMovesToReadTargets | robot_controller.py:140-174 | a fresh controller goes to the initial pose once connected, then to a prefix of the hand targets in reading order, and stops motion exactly twice |
| TrackingController.TrackingController.constructor | robot_controller.py:28-35 | the controller starts idle, disconnected and uncalibrated, with an empty queue and no commands issued |
| TrackingController.TrackingController.InitializeRobot | robot_controller.py:41-88 | a refused connection raises `RobotError` after `Initialize` and `Connect` only; otherwise the controller configures with velocity 20 and moves to the initial pose; it then sets the base from the first usable frame, or is interrupted while polling when no frame is usable |
| TrackingController.TrackingController.ReaderIteration | robot_controller.py:104-119 | one reader pass queues nothing while the robot is moving or the hand is occluded; otherwise it queues `(hand - base) / 1000` |
| TrackingController.TrackingController.MoverIteration | robot_controller.py:123-138 | one mover pass takes the front target and issues one Cartesian move to it; on an empty queue it issues nothing |
| TrackingController.TrackingController.ViconReader | robot_controller.py:102-119 | the reader thread queues exactly the reader's output for its readings, or nothing when the controller is not running |
| TrackingController.TrackingController.RobotMover | robot_controller.py:121-138 | `rounds` mover passes consume the first `min(rounds, queued)` targets and move to them in queue order; a controller that is not running consumes nothing |
| TrackingController.TrackingController.Run | robot_controller.py:146-154 | both threads, interleaved by any schedule, leave the queue and the commands exactly as the interleaving specification says |
| TrackingController.TrackingController.Stop | robot_controller.py:168-175 | `stop` clears `running`, ends disconnected, and issues exactly the shutdown sequence for the connection state it found |
| TrackingController.TrackingController.InitializeAndRun | robot_controller.py:142-154 | the `try` body issues the connection commands, then the initial move and the mover's moves when calibration succeeded |
| TrackingController.TrackingController.Start | robot_controller.py:140-166 | `start` always ends stopped and disconnected; its commands are connection, motion, then `stop` in the handler and again in `finally` |
| ArmController.InFlightAppend | robot_controller/robot_controller.py:103-105 | the moves in flight over two stretches of commands are the sums for each stretch |
| ArmController.DispatchOneInFlight | robot_controller/robot_controller.py:103-105 | within one dispatch at most one move is in flight at any point, and none at its end |
| ArmController.DispatchAtMostOneInFlight | robot_controller/robot_controller.py:94-105 | over the whole mover history, moves started exceed moves completed by 0 or 1 at every point, and by 0 at the end |
| ArmController.DispatchOneGoals | robot_controller/robot_controller.py:98-104 | a dequeued target is moved to exactly when IK solves it |
| ArmController.DispatchInOrder | robot_controller/robot_controller.py:94-104 | the goals moved to are a subsequence of the dequeued targets, in queue order, and there are never more moves than targets |
| ArmController.DispatchAllSolvable | robot_controller/robot_controller.py:94-104 | when IK always succeeds the robot moves to every target, in order |
| ArmController.DispatchSkipsUnsolvable | robot_controller/robot_controller.py:98-101 | a target without an IK solution issues nothing, leaves `robot_moving` untouched and leaves the arm where it was |
| ArmController.Consumed | robot_controller/robot_controller.py:94-97 | the mover takes at most one target per round and never more than were queued; while running, enough rounds empty the queue; when not running it takes none |
| ArmController.CompletedRunFollowsPlan | robot_controller/robot_controller.py:149-172 | a run whose every IK solve succeeds moves to every step's goal and issues every gripper command, in plan order |
| ArmController.AbortedRunIsPrefix | robot_controller/robot_controller.py:149-172 | a run with a failed IK solve is exactly the completed run of the steps before the first failing one: nothing after the failure is issued |
| ArmController.GraspPlanContents | robot_controller/robot_controller.py:149-172 | the grasp visits the target, the target raised by 0.2, the return pose raised by 0.1, the return pose and the initial pose; it closes the gripper (20), then opens it (900) |
| ArmController.GraspEventLayout | robot_controller/robot_controller.py:150-151 | a completed grasp issues seven commands, with the gripper commands second and sixth |
| ArmController.GraspSequence | robot_controller/robot_controller.py:149-172 | a grasp whose every IK solve succeeds issues exactly five moves, in the order above, with `set_pos(20)` right after the first and `set_pos(900)` right after the fourth, and no other command |
| ArmController.CalibrationSkippedWitness | robot_controller/robot_controller.py:70 | even when the rig reports a usable frame, a fresh controller does not enter the calibration loop, while the intended loop would compute a base from that frame |
| ArmController.RobotController.constructor | robot_controller/robot_controller.py:27-36 | the controller starts not running, not moving, gripper open, disconnected, with no current target and no base |
| ArmController.RobotController.InitializeRobot | robot_controller/robot_controller.py:42-84 | as written: a refused connection raises `RobotError`; otherwise the controller configures with velocity 10 and leaves the base as it was: an unset base skips the calibration loop, and a set one makes the loop test raise `ValueError` |
| ArmController.RobotController.CalibrateFromFrame | robot_controller/robot_controller.py:74-81 | a frame whose `XYPlane1` is all zeros leaves the base untouched; otherwise the base becomes the planes' mean in X/Y with `Zbase`'s height |
| ArmController.RobotController.CalibrateBase | robot_controller/robot_controller.py:70-84 | the intended loop keeps a base that is already set; otherwise it sets the base to the origin of the first usable frame |
| ArmController.RobotController.IssueMoveJoint | robot_controller/robot_controller.py:104 | `move_joint` records one command and leaves the arm at the commanded joints |
| ArmController.RobotController.DispatchTarget | robot_controller/robot_controller.py:97-105 | one mover pass records the current target, issues exactly the dispatch specification's commands, and ends with `robot_moving` false |
| ArmController.RobotController.RobotMover | robot_controller/robot_controller.py:92-108 | the mover consumes the front targets round by round and issues exactly the dispatch of the consumed targets; `robot_moving` is false at the end; `current_target` is the last target consumed, or unchanged when every round timed out |
| ArmController.RobotController.GraspMove | robot_controller/robot_controller.py:149-150 | one IK-then-move step succeeds exactly when IK solves it; on failure nothing is issued and the arm stays put |
| ArmController.RobotController.SetGripperPos | robot_controller/robot_controller.py:151 | `set_pos` records exactly one gripper command |
| ArmController.RobotController.GraspPhase | robot_controller/robot_controller.py:149-151 | one paragraph of the grasp either advances the run by one step of the plan or abandons it with nothing more issued |
| ArmController.RobotController.GraspAndLift | robot_controller/robot_controller.py:148-157 | the first two paragraphs either leave the run at step 2 of the plan or abandon it |
| ArmController.RobotController.ReturnAndRelease | robot_controller/robot_controller.py:159-172 | the last three paragraphs either complete the plan or abandon it |
| ArmController.RobotController.GrabObject | robot_controller/robot_controller.py:138-172 | the commands issued are exactly the plan's run; the method raises `TypeError` exactly when an IK solve failed, and the arm ends where the run left it |
| ArmController.RobotController.Stop | robot_controller/robot_controller.py:174-180 | `stop` clears `controller_running`, ends disconnected, and issues exactly the shutdown sequence for the connection state it found |
| ArmController.RobotController.Start | robot_controller/robot_controller.py:110-136 | a refused connection or the loop test's `ValueError` runs `stop` twice (in the handler and in `finally`); otherwise the undefined `vicon_reader` raises `AttributeError` after one `stop` in `finally`; it always ends stopped and disconnected |
| HandTrackingScript.ConvertViconToRobotCoordsInverse | hand_traking.bak.py:20-21 | the conversion to metres can be undone, and it maps exactly the all-zero reading to all zeros |
| HandTrackingScript.ScriptMovesStep | hand_traking.bak.py:97-115 | one more reading adds no move when its target is all zeros, and otherwise adds one move to that target at `ROBOT_INIT_ROT` |
| HandTrackingScript.FollowHand | hand_traking.bak.py:94-115 | the `while True` loop issues exactly one move per non-zero reading, in metres, in reading order |
| HandTrackingScript.HandTracking | hand_traking.bak.py:24-129 | the script's commands are exactly the script specification for the connection result and readings; it computes the base from its single frame only when connected |
| HandTrackingScript.ScriptIgnoresBase | hand_traking.bak.py:97 | the script's targets are the tracking controller's with the base pinned at the origin: the base it computes is unused and no flange offset is added |
| HandTrackingScript.ScriptFollowsHand | hand_traking.bak.py:92-115 | once connected, the script goes to the initial pose, then to every visible reading in metres, in reading order |
| HandTrackingScript.FailedConnectionOnlyReleases | hand_traking.bak.py:43-50 | a refused connection moves nothing, never stops motion and never disconnects: it only initialises, connects and releases the SDK |
| Frames.Zip | csv_helper.py:14 | there is one label per column, and label `i` is `(marker_row[i], axis_row[i])`; there are as many labels as the shorter header row has cells |
| Frames.Find | csv_helper.py:33 | a label lookup fails exactly when the label is absent; otherwise it finds the first column with that label |
| CsvHelper.GetHandDf | csv_helper.py:7-19 | an empty file raises `ValueError` and a one-row file `IndexError`; otherwise the labels pair header rows 0 and 1, and the data are the rows from index 3 on, each cell coerced to a number or NaN |
| CsvHelper.GetHandTrackingCoords | csv_helper.py:22-44 | a missing column raises `KeyError`; otherwise there is one triple per data row |
| CsvHelper.HandCoordsFailWhen | csv_helper.py:33-44 | the generator fails exactly when the `Hand:Center` marker is missing, or when data rows exist and one of its X/Y/Z columns is missing |
| CsvHelper.FirstRowIsInitPose | csv_helper.py:37-44 | the first data row yields `ROBOT_INIT_POSE` axis by axis: each axis whose row-0 reading is a number yields that axis of the pose, and an axis whose row-0 reading is NaN yields NaN |
| CsvHelper.HandCoordsFollowX | csv_helper.py:37-39 | a yielded X is NaN exactly when its row's or row 0's reading is NaN; two yielded X values differ by their readings' difference in metres, so, by `FirstRowIsInitPose`, when row 0's X is a number each non-NaN X is `(x - x0) / 1000 + init_x` |
| CsvHelper.HandCoordsFollowY | csv_helper.py:40-41 | a yielded Y is NaN exactly when its row's or row 0's reading is NaN; two yielded Y values differ by their readings' difference in metres, so, by `FirstRowIsInitPose`, when row 0's Y is a number each non-NaN Y is `(y - y0) / 1000 + init_y` |
| CsvHelper.HandCoordsFollowZ | csv_helper.py:42-43 | a yielded Z is NaN exactly when its row's or row 0's reading is NaN; two yielded Z values differ by their readings' difference in metres, so, by `FirstRowIsInitPose`, when row 0's Z is a number each non-NaN Z is `(z - z0) / 1000 + init_z` |
| CsvHelper.ShiftInvariance | csv_helper.py:37-44 | adding the same constant to every value of one column leaves every yielded triple unchanged |
| CsvHelper.UnrepeatedMarkerFails | csv_helper.py:14 | when the header names the marker only above its X column, the Y lookup raises `KeyError`: this helper does not forward-fill |
| SessionExtract.KeptColumns | session_extract.py:22 | `dropna(axis=1, how="all")` keeps exactly the columns with a non-null cell, in their order |
| SessionExtract.SessionGrid | session_extract.py:21-22 | a file with at most two lines raises `ValueError`; dropping columns 0 and 1 from a narrower file raises `KeyError`; otherwise the grid has one line per file line after the first two, and cell `(i, k)` is cell `k` of that line's kept columns, the kept columns being, in their order, every column after the first two that has a non-empty cell on some of those lines |
| SessionExtract.FillForwardAt | session_extract.py:36-41 | the filled name at column `i` is the last non-null name at or before `i` |
| SessionExtract.LastNonNullIsNearest | session_extract.py:35-40 | the fill value is `None` exactly when every name so far is null; otherwise it is the nearest non-null name to the left |
| SessionExtract.FillKeepsNamed | session_extract.py:39-40 | a non-null marker name is kept as it is |
| SessionExtract.FillTakesNearestLeft | session_extract.py:35-38 | a null name stays `None` exactly when no name precedes it; otherwise it takes the nearest non-null name to its left |
| SessionExtract.FillCarriesLeft | session_extract.py:37-38 | a null name takes the same filled name as its left neighbour |
| SessionExtract.FillForwardPrefix | session_extract.py:36-41 | filling a prefix gives the prefix of the fill: no name depends on a column to its right |
| SessionExtract.FillMarkerNames | session_extract.py:34-41 | the label loop builds the zip of the forward-filled marker row with the axis row |
| SessionExtract.ReadSessionCsv | session_extract.py:21-46 | the grid's errors are passed through, and a grid without an axis row raises `IndexError`; otherwise the labels are the filled markers paired with the axes, and the data are the rows from index 3 on, coerced |
| SessionExtract.RelativeToReference | session_extract.py:52-58 | a missing reference column raises `KeyError`; otherwise the frame is made relative to the reference marker per axis, and then its last 9 columns are dropped |
| SessionExtract.RelativeValues | session_extract.py:52-55 | each X/Y/Z value becomes itself minus the reference marker's same-axis value in that row; other columns are untouched |
| SessionExtract.ReferenceBecomesZero | session_extract.py:55 | the reference marker's own columns become zero, or stay NaN |
| SessionExtract.DropKeepsLeadingColumns | session_extract.py:58 | dropping keeps every column but the last 9, in order, with its values unchanged |
| SessionExtract.RelativeIgnoresOrigin | session_extract.py:52-55 | moving one row's readings by the same amount on one axis leaves the relative frame unchanged |

## Left out

- Device and network I/O is not modelled. This covers the Vicon SDK, the AUBO RPC, the serial gripper, Redis, OpenAI, logging and `print`. Frames and readings are parameters, and SDK calls become events.
- Threads are not modelled as real concurrency. The reader and mover loops of `robot_controller.py` are run under an explicit schedule of their passes.
  - The daemon threads, the 0.1 s status loop and the 1 s queue timeout are not modelled.
  - An empty queue is a timeout. No producer can run during the wait.
- Ctrl-C, which ends every infinite loop in these programs, is modelled as the end of the input sequences.
  - A calibration poll over frames that are all degenerate ends in `KeyboardInterrupt`.
- `get_ik_result` internals are not modelled: degree-to-radian conversion, `rpy_to_quaternion`, `inverse_kin` and the current waypoint query. IK is an uninterpreted oracle.
  - The broken top-level `get_ik_result` (robot_controller.py:90-100) is never called and is not part of this model.
- `time.sleep` delays, joint velocity and acceleration limits and float rounding are not modelled. Coordinates are exact reals.
  - The limits appear only as constants inside the configuration event.
- The `robot_running` property is not modelled, because nothing in the core calls it.
- `get_origin_coords` (utils/coordinate/origin.py:27-32) only prints three cells and is not part of this model.
- The code adds no vertical tool offset. `flange_offset` (hand_traking.bak.py:90) is used only in a comment, and the model follows the code.
- `start` in `robot_controller.py` calls `stop` twice on every exit, once in the `except` handler and once in `finally`. The model keeps both calls.
- The grasp controller uses `self.vicon_queue`, `self.vicon_client` and `self.vicon_reader` (robot_controller/robot_controller.py:71, 97, 116) but never defines them.
  - The queue and the frames are passed as parameters.
  - Creating the reader thread raises `AttributeError`.
- main.py's call to `hard_coded_grasp` names a method that does not exist, and is not part of this model.
- hand_traking.py is not part of this model. It only reads and prints a frame with the pairing already modelled for csv_helper.py.
- The pandas model has these limits:
  - Duplicate column labels resolve to the first match, where pandas would return several columns.
  - `read_csv` pads short rows with NaN, so the raw grids are required to be rectangular.
  - `pd.to_numeric` is a `Parser` parameter.
  - `print(df.head())` is left out.
- CsvHelper.GetHandTrackingCoords: the generator is modelled as the list it yields. A missing column therefore raises before the first triple, where Python raises when iteration starts.

## Findings

| source | as written | input that shows it | evidently intended | confidence | as-written member | corrected member |
|---|---|---|---|---|---|---|
| robot_controller/robot_controller.py:70 | `while self.robot_base:` with `robot_base` initialised to `None` (line 36): the loop test is false at once, so calibration never runs and the base stays `None` | a fresh controller whose rig reports a usable base frame, e.g. planes at (1,2), (3,2), (1,4), (3,4) and `Zbase` at height 5 | `while self.robot_base is None:`, polling until a usable frame sets the base (here (2,3,5)) | not executed | ArmController.RobotController.InitializeRobot | ArmController.RobotController.CalibrateBase |
