/**
 * The hand calibration reader: a header-less CSV whose first two lines name
 * the marker and the axis of each column, turned into robot positions that
 * move with the hand relative to its first recorded position.
 */
module CsvHelper {
  import opened Wrappers
  import opened Vectors
  import opened Frames
  import Robot

  const HandRefMarker := "Hand:Center"

  /** Metres per millimetre of hand movement: the divisor applied to every offset. */
  const MillimetresPerMetre: real := 1000.0

  /**
   * `get_hand_df`: line 0 gives the markers, line 1 the axes, line 2 is
   * skipped and the data start at line 3, coerced to numbers.
   */
  function GetHandDf(raw: seq<seq<Cell>>, parse: Parser): (r: Result<Frame>)
    requires Rectangular(raw)
    ensures r.Success? <==> |raw| >= 2
    ensures raw == [] ==> r == Failure(ValueError)
    ensures |raw| == 1 ==> r == Failure(IndexError)
    ensures r.Success? ==> WellFormed(r.value) && |r.value.labels| == |raw[0]|
    ensures r.Success? ==> forall j :: 0 <= j < |r.value.labels| ==>
      r.value.labels[j] == Label(raw[0][j], raw[1][j])
    ensures r.Success? ==> |r.value.rows| == (if |raw| < 3 then 0 else |raw| - 3)
    ensures r.Success? ==> forall i, j :: 0 <= i < |r.value.rows| && 0 <= j < |raw[0]| ==>
      r.value.rows[i][j] == Coerce(parse, raw[i + 3][j])
  {
    if raw == [] then Failure(ValueError)
    else if |raw| == 1 then Failure(IndexError)
    else
      var data := if |raw| < 3 then [] else raw[3..];
      assert forall i :: 0 <= i < |data| ==> |data[i]| == |raw[0]| by {
        forall i | 0 <= i < |data| ensures |data[i]| == |raw[0]| {
          assert data[i] == raw[i + 3];
        }
      }
      Success(Frame(Zip(raw[0], raw[1]), CoerceRows(parse, data)))
  }

  /** One coordinate of a yielded triple: the offset from the first row, in metres, over the initial pose. */
  function RelativeAxis(v: Num, v0: Num, origin: real): Num {
    if v.Some? && v0.Some? then Some((v.value - v0.value) / MillimetresPerMetre + origin) else None
  }

  /** A triple of coordinates, each possibly NaN. */
  datatype NumVec = NumVec(x: Num, y: Num, z: Num)

  /** The column of the reference marker on `axis`, if the header has one. */
  function AxisColumn(df: Frame, axis: string): Option<nat> {
    Find(df.labels, Label(Some(HandRefMarker), Some(axis)))
  }

  /**
   * Everything `get_hand_tracking_coords` yields, or the error it raises
   * before its first yield. `df[marker]` fails at once; the axis lookups run
   * only inside the row loop, so a frame without data rows yields nothing.
   */
  function GetHandTrackingCoords(df: Frame): (r: Result<seq<NumVec>>)
    requires WellFormed(df)
    ensures r.Failure? ==> r.error == KeyError
    ensures r.Success? ==> |r.value| == |df.rows|
  {
    if !HasMarker(df.labels, Some(HandRefMarker)) then Failure(KeyError)
    else if df.rows == [] then Success([])
    else
      var xi, yi, zi := AxisColumn(df, "X"), AxisColumn(df, "Y"), AxisColumn(df, "Z");
      if xi.None? || yi.None? || zi.None? then Failure(KeyError)
      else
        var row0 := df.rows[0];
        Success(seq(|df.rows|, i requires 0 <= i < |df.rows| =>
          NumVec(RelativeAxis(df.rows[i][xi.value], row0[xi.value], Robot.RobotInitPose.x),
                 RelativeAxis(df.rows[i][yi.value], row0[yi.value], Robot.RobotInitPose.y),
                 RelativeAxis(df.rows[i][zi.value], row0[zi.value], Robot.RobotInitPose.z))))
  }

  /** The three columns of the reference marker exist. */
  predicate HasHandColumns(df: Frame) {
    AxisColumn(df, "X").Some? && AxisColumn(df, "Y").Some? && AxisColumn(df, "Z").Some?
  }

  /** When the generator raises: no reference marker at all, or data rows but a missing axis. */
  lemma HandCoordsFailWhen(df: Frame)
    requires WellFormed(df)
    ensures GetHandTrackingCoords(df).Failure? <==>
      !HasMarker(df.labels, Some(HandRefMarker)) || (df.rows != [] && !HasHandColumns(df))
  {
    if HasHandColumns(df) {
      var j := AxisColumn(df, "X").value;
      assert df.labels[j].marker == Some(HandRefMarker);
    }
  }

  /**
   * The first data row is mapped onto the robot's initial pose, axis by axis:
   * an axis whose first reading is NaN yields NaN.
   */
  lemma FirstRowIsInitPose(df: Frame)
    requires WellFormed(df) && df.rows != [] && HasHandColumns(df)
    ensures GetHandTrackingCoords(df).Success?
    ensures var r0, row0 := GetHandTrackingCoords(df).value[0], df.rows[0];
      r0.x == (if row0[AxisColumn(df, "X").value].Some? then Some(Robot.RobotInitPose.x) else None) &&
      r0.y == (if row0[AxisColumn(df, "Y").value].Some? then Some(Robot.RobotInitPose.y) else None) &&
      r0.z == (if row0[AxisColumn(df, "Z").value].Some? then Some(Robot.RobotInitPose.z) else None)
  {
    HandCoordsFailWhen(df);
  }

  /**
   * Between any two rows the yielded X coordinate moves by the hand's X
   * displacement in metres; NaN on either side gives NaN.
   */
  lemma HandCoordsFollowX(df: Frame, i: nat, k: nat)
    requires WellFormed(df) && HasHandColumns(df) && i < |df.rows| && k < |df.rows|
    ensures GetHandTrackingCoords(df).Success?
    ensures var r, c := GetHandTrackingCoords(df).value, AxisColumn(df, "X").value;
      var v0 := df.rows[0][c];
      (r[i].x.Some? <==> df.rows[i][c].Some? && v0.Some?) &&
      (r[i].x.Some? && r[k].x.Some? ==>
        r[i].x.value - r[k].x.value == (df.rows[i][c].value - df.rows[k][c].value) / MillimetresPerMetre)
  {
    HandCoordsFailWhen(df);
  }

  /** The same for the Y coordinate. */
  lemma HandCoordsFollowY(df: Frame, i: nat, k: nat)
    requires WellFormed(df) && HasHandColumns(df) && i < |df.rows| && k < |df.rows|
    ensures GetHandTrackingCoords(df).Success?
    ensures var r, c := GetHandTrackingCoords(df).value, AxisColumn(df, "Y").value;
      var v0 := df.rows[0][c];
      (r[i].y.Some? <==> df.rows[i][c].Some? && v0.Some?) &&
      (r[i].y.Some? && r[k].y.Some? ==>
        r[i].y.value - r[k].y.value == (df.rows[i][c].value - df.rows[k][c].value) / MillimetresPerMetre)
  {
    HandCoordsFailWhen(df);
  }

  /** The same for the Z coordinate. */
  lemma HandCoordsFollowZ(df: Frame, i: nat, k: nat)
    requires WellFormed(df) && HasHandColumns(df) && i < |df.rows| && k < |df.rows|
    ensures GetHandTrackingCoords(df).Success?
    ensures var r, c := GetHandTrackingCoords(df).value, AxisColumn(df, "Z").value;
      var v0 := df.rows[0][c];
      (r[i].z.Some? <==> df.rows[i][c].Some? && v0.Some?) &&
      (r[i].z.Some? && r[k].z.Some? ==>
        r[i].z.value - r[k].z.value == (df.rows[i][c].value - df.rows[k][c].value) / MillimetresPerMetre)
  {
    HandCoordsFailWhen(df);
  }

  /** Column `col` with `c` added to every number in it. */
  function ShiftColumn(df: Frame, col: nat, c: real): (s: Frame)
    requires WellFormed(df)
    ensures WellFormed(s) && s.labels == df.labels && |s.rows| == |df.rows|
  {
    Frame(df.labels, seq(|df.rows|, i requires 0 <= i < |df.rows| =>
      seq(|df.labels|, j requires 0 <= j < |df.labels| =>
        if j == col && df.rows[i][j].Some? then Some(df.rows[i][j].value + c) else df.rows[i][j])))
  }

  /** Offsetting every raw value of one column (a recalibrated rig, say) changes nothing yielded. */
  lemma ShiftInvariance(df: Frame, col: nat, c: real)
    requires WellFormed(df)
    ensures GetHandTrackingCoords(ShiftColumn(df, col, c)) == GetHandTrackingCoords(df)
  {
    var s := ShiftColumn(df, col, c);
    assert AxisColumn(s, "X") == AxisColumn(df, "X") && AxisColumn(s, "Y") == AxisColumn(df, "Y");
    assert AxisColumn(s, "Z") == AxisColumn(df, "Z");
    if HasMarker(df.labels, Some(HandRefMarker)) && df.rows != [] && HasHandColumns(df) {
      var a := GetHandTrackingCoords(s).value;
      var b := GetHandTrackingCoords(df).value;
      forall i | 0 <= i < |df.rows|
        ensures a[i] == b[i]
      {
        ShiftedRow(df, s, col, c, i);
      }
      assert a == b;
    }
  }

  /** One yielded triple under a column shift. */
  lemma ShiftedRow(df: Frame, s: Frame, col: nat, c: real, i: nat)
    requires WellFormed(df) && s == ShiftColumn(df, col, c) && HasHandColumns(df) && i < |df.rows|
    ensures var xi, yi, zi := AxisColumn(df, "X").value, AxisColumn(df, "Y").value, AxisColumn(df, "Z").value;
      RelativeAxis(s.rows[i][xi], s.rows[0][xi], Robot.RobotInitPose.x) == RelativeAxis(df.rows[i][xi], df.rows[0][xi], Robot.RobotInitPose.x) &&
      RelativeAxis(s.rows[i][yi], s.rows[0][yi], Robot.RobotInitPose.y) == RelativeAxis(df.rows[i][yi], df.rows[0][yi], Robot.RobotInitPose.y) &&
      RelativeAxis(s.rows[i][zi], s.rows[0][zi], Robot.RobotInitPose.z) == RelativeAxis(df.rows[i][zi], df.rows[0][zi], Robot.RobotInitPose.z)
  {
    ShiftedAxis(df, s, col, c, i, AxisColumn(df, "X").value, Robot.RobotInitPose.x);
    ShiftedAxis(df, s, col, c, i, AxisColumn(df, "Y").value, Robot.RobotInitPose.y);
    ShiftedAxis(df, s, col, c, i, AxisColumn(df, "Z").value, Robot.RobotInitPose.z);
  }

  /** One coordinate under a column shift: the offset cancels. */
  lemma ShiftedAxis(df: Frame, s: Frame, col: nat, c: real, i: nat, j: nat, origin: real)
    requires WellFormed(df) && s == ShiftColumn(df, col, c) && i < |df.rows| && j < |df.labels|
    ensures RelativeAxis(s.rows[i][j], s.rows[0][j], origin) == RelativeAxis(df.rows[i][j], df.rows[0][j], origin)
  {
    var v, v0 := df.rows[i][j], df.rows[0][j];
    assert s.rows[i][j] == if j == col && v.Some? then Some(v.value + c) else v;
    assert s.rows[0][j] == if j == col && v0.Some? then Some(v0.value + c) else v0;
  }

  /**
   * A header that names the marker only above its X column, as motion-capture
   * exports lay it out, is not filled in here: with a data row present the
   * Y lookup raises.
   */
  lemma UnrepeatedMarkerFails(parse: Parser)
    ensures var raw := [[Some(HandRefMarker), None, None],
                        [Some("X"), Some("Y"), Some("Z")],
                        [Some("mm"), Some("mm"), Some("mm")],
                        [Some("1"), Some("2"), Some("3")]];
      GetHandDf(raw, parse).Success? &&
      GetHandTrackingCoords(GetHandDf(raw, parse).value) == Failure(KeyError)
  {
    var raw := [[Some(HandRefMarker), None, None],
                [Some("X"), Some("Y"), Some("Z")],
                [Some("mm"), Some("mm"), Some("mm")],
                [Some("1"), Some("2"), Some("3")]];
    var df := GetHandDf(raw, parse).value;
    assert df.labels[0] == Label(Some(HandRefMarker), Some("X"));
    assert df.labels == [Label(Some(HandRefMarker), Some("X")), Label(None, Some("Y")), Label(None, Some("Z"))];
    assert AxisColumn(df, "Y").None?;
  }
}
