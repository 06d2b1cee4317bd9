/**
 * The session exporter: a motion-capture session CSV whose marker names
 * appear only above the first column of each marker, rebuilt into
 * (marker, axis) columns and re-expressed relative to a reference marker.
 */
module SessionExtract {
  import opened Wrappers
  import opened Frames

  /** The marker every position is made relative to. */
  const RefMarker := "ArmJoint6:ToEnd2"

  /** The axes the subtraction runs over, in order. */
  const Axes: seq<string> := ["X", "Y", "Z"]

  /** How many trailing columns the exporter throws away. */
  const DroppedColumns: nat := 9

  // ---------------------------------------------------------------------------
  // Reading the grid: skip two lines, drop the frame/sub-frame columns, drop
  // columns that are empty throughout.
  // ---------------------------------------------------------------------------

  /** Column `j` has a non-empty cell somewhere (`dropna(axis=1, how="all")` keeps it). */
  predicate NonEmptyColumn(g: seq<seq<Cell>>, j: nat)
    requires forall i :: 0 <= i < |g| ==> j < |g[i]|
  {
    exists i :: 0 <= i < |g| && g[i][j].Some?
  }

  /** The columns below `w` that `dropna(axis=1, how="all")` keeps, in order. */
  function KeptColumns(g: seq<seq<Cell>>, w: nat): (cols: seq<nat>)
    requires forall i :: 0 <= i < |g| ==> w <= |g[i]|
    ensures forall k :: 0 <= k < |cols| ==> cols[k] < w
    ensures forall k, l :: 0 <= k < l < |cols| ==> cols[k] < cols[l]
    ensures forall j :: 0 <= j < w ==> (j in cols <==> NonEmptyColumn(g, j))
  {
    if w == 0 then []
    else KeptColumns(g, w - 1) + (if NonEmptyColumn(g, w - 1) then [w - 1] else [])
  }

  /** Every row of `g` restricted to the columns `cols`, in that order. */
  function SelectColumns(g: seq<seq<Cell>>, cols: seq<nat>): (s: seq<seq<Cell>>)
    requires forall i, k :: 0 <= i < |g| && 0 <= k < |cols| ==> cols[k] < |g[i]|
    ensures |s| == |g| && Rectangular(s)
    ensures forall i :: 0 <= i < |s| ==> |s[i]| == |cols|
  {
    seq(|g|, i requires 0 <= i < |g| =>
      seq(|cols|, k requires 0 <= k < |cols| => g[i][cols[k]]))
  }

  /** The lines after the first two, each without its first two cells. */
  function CutLines(raw: seq<seq<Cell>>): (cut: seq<seq<Cell>>)
    requires |raw| > 2 && Rectangular(raw[2..]) && |raw[2]| >= 2
    ensures |cut| == |raw| - 2
    ensures forall i :: 0 <= i < |cut| ==> |cut[i]| == |raw[2]| - 2 && cut[i] == raw[i + 2][2..]
  {
    assert forall i :: 0 <= i < |raw| - 2 ==> |raw[i + 2]| == |raw[2..][i]| == |raw[2..][0]|;
    seq(|raw| - 2, i requires 0 <= i < |raw| - 2 => raw[i + 2][2..])
  }

  /**
   * The grid `read_session_csv` takes its header rows and data from:
   * `read_csv(skiprows=2)` (nothing left to parse is an error),
   * `drop(columns=[0, 1])` (a missing column label is an error), then
   * `dropna(axis=1, how="all")`.
   */
  function SessionGrid(raw: seq<seq<Cell>>): (r: Result<seq<seq<Cell>>>)
    requires |raw| > 2 ==> Rectangular(raw[2..])
    ensures |raw| <= 2 ==> r == Failure(ValueError)
    ensures |raw| > 2 && |raw[2]| < 2 ==> r == Failure(KeyError)
    ensures |raw| > 2 && |raw[2]| >= 2 ==> r.Success? && |r.value| == |raw| - 2 && Rectangular(r.value)
    ensures |raw| > 2 && |raw[2]| >= 2 ==>
      var cols := KeptColumns(CutLines(raw), |raw[2]| - 2);
      forall i, k :: 0 <= i < |r.value| && 0 <= k < |cols| ==>
        |r.value[i]| == |cols| && r.value[i][k] == raw[i + 2][cols[k] + 2]
  {
    if |raw| <= 2 then Failure(ValueError)
    else if |raw[2]| < 2 then Failure(KeyError)
    else
      var cut := CutLines(raw);
      Success(SelectColumns(cut, KeptColumns(cut, |raw[2]| - 2)))
  }

  // ---------------------------------------------------------------------------
  // Forward-filling the marker names.
  // ---------------------------------------------------------------------------

  /** The last non-empty cell of `ms`, or `None` when every cell is empty. */
  function LastNonNull(ms: seq<Cell>): Cell {
    if ms == [] then None
    else if ms[|ms| - 1].Some? then ms[|ms| - 1]
    else LastNonNull(ms[..|ms| - 1])
  }

  /** The marker row with each empty cell replaced by the name to its left. */
  function FillForward(ms: seq<Cell>): (r: seq<Cell>)
    ensures |r| == |ms|
  {
    if ms == [] then [] else FillForward(ms[..|ms| - 1]) + [LastNonNull(ms)]
  }

  /** Position `i` of the filled row is the last name seen up to and including `i`. */
  lemma {:induction false} FillForwardAt(ms: seq<Cell>, i: nat)
    requires i < |ms|
    ensures FillForward(ms)[i] == LastNonNull(ms[..i + 1])
    decreases |ms|
  {
    if i < |ms| - 1 {
      var front := ms[..|ms| - 1];
      FillForwardAt(front, i);
      assert front[..i + 1] == ms[..i + 1];
    } else {
      assert ms[..i + 1] == ms;
    }
  }

  /** `LastNonNull` is empty exactly when every cell is, and otherwise names the rightmost non-empty cell. */
  lemma {:induction false} LastNonNullIsNearest(ms: seq<Cell>)
    ensures LastNonNull(ms).None? <==> forall k :: 0 <= k < |ms| ==> ms[k].None?
    ensures LastNonNull(ms).Some? ==>
      exists j :: 0 <= j < |ms| && ms[j] == LastNonNull(ms) && (forall k :: j < k < |ms| ==> ms[k].None?)
    decreases |ms|
  {
    if ms != [] && ms[|ms| - 1].None? {
      var front := ms[..|ms| - 1];
      LastNonNullIsNearest(front);
      assert forall k :: 0 <= k < |front| ==> front[k] == ms[k];
      if LastNonNull(front).Some? {
        var j :| 0 <= j < |front| && front[j] == LastNonNull(front) &&
          (forall k :: j < k < |front| ==> front[k].None?);
        assert ms[j] == LastNonNull(ms);
      }
    }
  }

  /** A named cell keeps its name. */
  lemma FillKeepsNamed(ms: seq<Cell>, i: nat)
    requires i < |ms| && ms[i].Some?
    ensures FillForward(ms)[i] == ms[i]
  {
    FillForwardAt(ms, i);
    assert ms[..i + 1][i] == ms[i];
  }

  /**
   * An empty cell takes the nearest name to its left, and stays empty when
   * no cell up to it has a name.
   */
  lemma FillTakesNearestLeft(ms: seq<Cell>, i: nat)
    requires i < |ms| && ms[i].None?
    ensures (forall k :: 0 <= k <= i ==> ms[k].None?) <==> FillForward(ms)[i].None?
    ensures FillForward(ms)[i].Some? ==>
      exists j :: 0 <= j < i && ms[j] == FillForward(ms)[i] && (forall k :: j < k <= i ==> ms[k].None?)
  {
    FillForwardAt(ms, i);
    var pre := ms[..i + 1];
    LastNonNullIsNearest(pre);
    assert forall k :: 0 <= k <= i ==> pre[k] == ms[k];
  }

  /** An empty cell repeats the filled value of its left neighbour. */
  lemma FillCarriesLeft(ms: seq<Cell>, i: nat)
    requires 0 < i < |ms| && ms[i].None?
    ensures FillForward(ms)[i] == FillForward(ms)[i - 1]
  {
    FillForwardAt(ms, i);
    FillForwardAt(ms, i - 1);
    assert ms[..i + 1][..i] == ms[..i];
  }

  /** Filling a prefix gives the prefix of the filling. */
  lemma {:induction false} FillForwardPrefix(ms: seq<Cell>, n: nat)
    requires n <= |ms|
    ensures FillForward(ms[..n]) == FillForward(ms)[..n]
    decreases |ms|
  {
    if n == |ms| {
      assert ms[..n] == ms;
    } else {
      var front := ms[..|ms| - 1];
      FillForwardPrefix(front, n);
      assert front[..n] == ms[..n];
      assert FillForward(ms)[..n] == FillForward(front)[..n];
    }
  }

  /** One more header cell: the fill value it gets, and the label it appends. */
  lemma FillStep(markers: seq<Cell>, axes: seq<Cell>, i: nat)
    requires i < |markers| && i < |axes|
    ensures LastNonNull(markers[..i + 1]) ==
      if markers[i].Some? then markers[i] else LastNonNull(markers[..i])
    ensures Zip(FillForward(markers[..i + 1]), axes[..i + 1]) ==
      Zip(FillForward(markers[..i]), axes[..i]) + [Label(LastNonNull(markers[..i + 1]), axes[i])]
  {
    var pre := markers[..i + 1];
    assert pre[..i] == markers[..i];
    assert FillForward(pre) == FillForward(markers[..i]) + [LastNonNull(pre)];
    ZipSnoc(FillForward(markers[..i]), axes[..i], LastNonNull(pre), axes[i]);
    assert axes[..i] + [axes[i]] == axes[..i + 1];
  }

  /** Zipping stops at the shorter row, so cutting both to that length changes nothing. */
  lemma ZipTruncate(a: seq<Cell>, b: seq<Cell>, n: nat)
    requires n == Min(|a|, |b|)
    ensures Zip(a[..n], b[..n]) == Zip(a, b)
  {
  }

  /**
   * The label loop of `read_session_csv`: walks both header rows together,
   * carrying the last marker name over empty cells.
   */
  method FillMarkerNames(markers: seq<Cell>, axes: seq<Cell>) returns (columns: seq<Label>)
    ensures columns == Zip(FillForward(markers), axes)
  {
    columns := [];
    var previous: Cell := None;
    var i := 0;
    while i < |markers| && i < |axes|
      invariant i <= |markers| && i <= |axes|
      invariant previous == LastNonNull(markers[..i])
      invariant columns == Zip(FillForward(markers[..i]), axes[..i])
    {
      FillStep(markers, axes, i);
      var marker := markers[i];
      if marker.None? {
        marker := previous;
      } else {
        previous := marker;
      }
      columns := columns + [Label(marker, axes[i])];
      i := i + 1;
    }
    FillForwardPrefix(markers, i);
    ZipTruncate(FillForward(markers), axes, i);
  }

  /**
   * `read_session_csv`: header rows 0 and 1 of the grid give the labels,
   * row 2 (the units) is skipped and the rest is the numeric data.
   */
  method ReadSessionCsv(raw: seq<seq<Cell>>, parse: Parser) returns (r: Result<Frame>)
    requires |raw| > 2 ==> Rectangular(raw[2..])
    ensures SessionGrid(raw).Failure? ==> r == Failure(SessionGrid(raw).error)
    ensures SessionGrid(raw).Success? && |SessionGrid(raw).value| < 2 ==> r == Failure(IndexError)
    ensures SessionGrid(raw).Success? && |SessionGrid(raw).value| >= 2 ==>
      var g := SessionGrid(raw).value;
      r.Success? && WellFormed(r.value) &&
      r.value.labels == Zip(FillForward(g[0]), g[1]) &&
      r.value.rows == CoerceRows(parse, if |g| < 3 then [] else g[3..])
  {
    var grid := SessionGrid(raw);
    if grid.Failure? {
      return Failure(grid.error);
    }
    var g := grid.value;
    if |g| < 2 {
      return Failure(IndexError);
    }
    var data := if |g| < 3 then [] else g[3..];
    var columns := FillMarkerNames(g[0], g[1]);
    assert |columns| == |g[0]|;
    assert forall i :: 0 <= i < |data| ==> |data[i]| == |g[0]| by {
      forall i | 0 <= i < |data| ensures |data[i]| == |g[0]| {
        assert data[i] == g[i + 3];
      }
    }
    r := Success(Frame(columns, CoerceRows(parse, data)));
  }

  // ---------------------------------------------------------------------------
  // `main`: subtract the reference marker per axis, then drop trailing columns.
  // ---------------------------------------------------------------------------

  /** The position of a column's axis in `Axes`, if it is one of them. */
  function AxisIndex(a: Cell): (k: Option<nat>)
    ensures k.Some? ==> k.value < |Axes| && a == Some(Axes[k.value])
    ensures k.None? ==> forall m :: 0 <= m < |Axes| ==> a != Some(Axes[m])
  {
    if a == Some("X") then Some(0)
    else if a == Some("Y") then Some(1)
    else if a == Some("Z") then Some(2)
    else None
  }

  /** The reference marker's column on axis `Axes[k]`. */
  function RefColumn(df: Frame, k: nat): Option<nat>
    requires k < |Axes|
  {
    Find(df.labels, Label(Some(RefMarker), Some(Axes[k])))
  }

  /** The reference marker has a column on every axis. */
  predicate HasReferences(df: Frame) {
    RefColumn(df, 0).Some? && RefColumn(df, 1).Some? && RefColumn(df, 2).Some?
  }

  /**
   * One step of the loop in `main`: every column on axis `Axes[k]` loses, row
   * by row, the value in column `ref`, all read before any is written.
   */
  function SubtractAxis(df: Frame, k: nat, ref: nat): (s: Frame)
    requires WellFormed(df) && k < |Axes| && ref < |df.labels|
    ensures WellFormed(s) && s.labels == df.labels && |s.rows| == |df.rows|
  {
    Frame(df.labels, seq(|df.rows|, i requires 0 <= i < |df.rows| =>
      seq(|df.labels|, j requires 0 <= j < |df.labels| =>
        if df.labels[j].axis == Some(Axes[k]) then NumSub(df.rows[i][j], df.rows[i][ref])
        else df.rows[i][j])))
  }

  /**
   * The value at row `i`, column `j` once the axes before `Axes[k]` have been
   * made relative to the reference marker.
   */
  function RelativeUpTo(df: Frame, k: nat, i: nat, j: nat): Num
    requires WellFormed(df) && i < |df.rows| && j < |df.labels|
  {
    var a := AxisIndex(df.labels[j].axis);
    if a.Some? && a.value < k && RefColumn(df, a.value).Some? then
      NumSub(df.rows[i][j], df.rows[i][RefColumn(df, a.value).value])
    else df.rows[i][j]
  }

  /** The frame once the axes before `Axes[k]` have been made relative. */
  function RelativeFrame(df: Frame, k: nat): (s: Frame)
    requires WellFormed(df)
    ensures WellFormed(s) && s.labels == df.labels && |s.rows| == |df.rows|
  {
    Frame(df.labels, seq(|df.rows|, i requires 0 <= i < |df.rows| =>
      seq(|df.labels|, j requires 0 <= j < |df.labels| => RelativeUpTo(df, k, i, j))))
  }

  /** Every position re-expressed relative to the reference marker, all axes at once. */
  function Relative(df: Frame): (s: Frame)
    requires WellFormed(df)
    ensures WellFormed(s) && s.labels == df.labels && |s.rows| == |df.rows|
  {
    RelativeFrame(df, |Axes|)
  }

  /** `df.iloc[:, :-n]`: all but the last `n` columns, none when there are fewer. */
  function DropTrailing(df: Frame, n: nat): (s: Frame)
    requires WellFormed(df)
    ensures WellFormed(s)
  {
    var keep := if |df.labels| <= n then 0 else |df.labels| - n;
    Frame(df.labels[..keep], seq(|df.rows|, i requires 0 <= i < |df.rows| => df.rows[i][..keep]))
  }

  /**
   * The body of `main` after reading: the axis loop, raising `KeyError` when
   * the reference marker lacks an axis, then the column drop.
   */
  method RelativeToReference(df: Frame) returns (r: Result<Frame>)
    requires WellFormed(df)
    ensures r == if HasReferences(df) then Success(DropTrailing(Relative(df), DroppedColumns))
                 else Failure(KeyError)
  {
    var cur := df;
    var k := 0;
    NothingRelativeYet(df);
    while k < |Axes|
      invariant k <= |Axes|
      invariant forall m :: 0 <= m < k ==> RefColumn(df, m).Some?
      invariant cur == RelativeFrame(df, k)
    {
      var ref := Find(cur.labels, Label(Some(RefMarker), Some(Axes[k])));
      if ref.None? {
        return Failure(KeyError);
      }
      SubtractAxisStep(df, k, ref.value);
      cur := SubtractAxis(cur, k, ref.value);
      k := k + 1;
    }
    r := Success(DropTrailing(cur, DroppedColumns));
  }

  /** Before the loop nothing has been subtracted. */
  lemma NothingRelativeYet(df: Frame)
    requires WellFormed(df)
    ensures RelativeFrame(df, 0) == df
  {
    var s := RelativeFrame(df, 0);
    forall i | 0 <= i < |df.rows|
      ensures s.rows[i] == df.rows[i]
    {
    }
  }

  /** One turn of the axis loop advances the frame from `k` axes made relative to `k + 1`. */
  lemma SubtractAxisStep(df: Frame, k: nat, c: nat)
    requires WellFormed(df) && k < |Axes| && RefColumn(df, k) == Some(c)
    requires forall m :: 0 <= m < k ==> RefColumn(df, m).Some?
    ensures SubtractAxis(RelativeFrame(df, k), k, c) == RelativeFrame(df, k + 1)
  {
    var cur, next := RelativeFrame(df, k), RelativeFrame(df, k + 1);
    var sub := SubtractAxis(cur, k, c);
    assert AxisIndex(df.labels[c].axis) == Some(k);
    forall i | 0 <= i < |df.rows|
      ensures sub.rows[i] == next.rows[i]
    {
      assert cur.rows[i][c] == df.rows[i][c];
      forall j | 0 <= j < |df.labels|
        ensures sub.rows[i][j] == next.rows[i][j]
      {
      }
    }
  }

  /**
   * After the subtraction every X, Y or Z value is the original minus the
   * reference marker's value on that axis in the same row; other columns are
   * untouched.
   */
  lemma RelativeValues(df: Frame, i: nat, j: nat)
    requires WellFormed(df) && HasReferences(df) && i < |df.rows| && j < |df.labels|
    ensures var a := df.labels[j].axis;
      (forall k :: 0 <= k < |Axes| && a == Some(Axes[k]) ==>
        Relative(df).rows[i][j] == NumSub(df.rows[i][j], df.rows[i][RefColumn(df, k).value])) &&
      (a !in {Some("X"), Some("Y"), Some("Z")} ==> Relative(df).rows[i][j] == df.rows[i][j])
  {
  }

  /** So the reference marker's own columns become zero (or stay NaN). */
  lemma ReferenceBecomesZero(df: Frame, i: nat, k: nat)
    requires WellFormed(df) && HasReferences(df) && i < |df.rows| && k < |Axes|
    ensures var c := RefColumn(df, k).value;
      Relative(df).rows[i][c] == if df.rows[i][c].Some? then Some(0.0) else None
  {
    var c := RefColumn(df, k).value;
    assert AxisIndex(df.labels[c].axis) == Some(k);
  }

  /** The drop keeps all but the last nine columns, labels and values, in their order. */
  lemma DropKeepsLeadingColumns(df: Frame)
    requires WellFormed(df)
    ensures var s := DropTrailing(df, DroppedColumns);
      |s.labels| == (if |df.labels| <= DroppedColumns then 0 else |df.labels| - DroppedColumns) &&
      s.labels == df.labels[..|s.labels|] && |s.rows| == |df.rows| &&
      forall i :: 0 <= i < |s.rows| ==> s.rows[i] == df.rows[i][..|s.labels|]
  {
  }

  /**
   * Moving the whole scene by the same offset on one axis in some row changes
   * nothing after the subtraction: the output does not depend on where the
   * capture volume's origin is.
   */
  lemma RelativeIgnoresOrigin(df: Frame, i: nat, k: nat, c: real)
    requires WellFormed(df) && HasReferences(df) && i < |df.rows| && k < |Axes|
    ensures var moved := Frame(df.labels, df.rows[i := MoveAxis(df, df.rows[i], k, c)]);
      WellFormed(moved) && Relative(moved) == Relative(df)
  {
    var moved := Frame(df.labels, df.rows[i := MoveAxis(df, df.rows[i], k, c)]);
    var a, b := Relative(moved), Relative(df);
    forall i' | 0 <= i' < |df.rows|
      ensures a.rows[i'] == b.rows[i']
    {
      if i' == i {
        forall j | 0 <= j < |df.labels|
          ensures a.rows[i][j] == b.rows[i][j]
        {
          MovedCell(df, moved, i, k, c, j);
        }
      }
    }
  }

  /** One cell of the moved row: the offset is added to the value and to its reference alike. */
  lemma MovedCell(df: Frame, moved: Frame, i: nat, k: nat, c: real, j: nat)
    requires WellFormed(df) && HasReferences(df) && i < |df.rows| && k < |Axes| && j < |df.labels|
    requires moved == Frame(df.labels, df.rows[i := MoveAxis(df, df.rows[i], k, c)])
    ensures RelativeUpTo(moved, |Axes|, i, j) == RelativeUpTo(df, |Axes|, i, j)
  {
    var a := AxisIndex(df.labels[j].axis);
    if a.Some? {
      var rc := RefColumn(df, a.value).value;
      assert AxisIndex(df.labels[rc].axis) == a;
    }
  }

  /** `row` with `c` added to every number on axis `Axes[k]`. */
  function MoveAxis(df: Frame, row: seq<Num>, k: nat, c: real): (r: seq<Num>)
    requires |row| == |df.labels| && k < |Axes|
    ensures |r| == |row|
  {
    seq(|row|, j requires 0 <= j < |row| =>
      if df.labels[j].axis == Some(Axes[k]) && row[j].Some? then Some(row[j].value + c) else row[j])
  }
}
