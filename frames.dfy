/**
 * The slice of pandas the CSV tools use: a header-less CSV read as a grid of
 * optional strings, numeric coercion with NaN, and frames whose columns carry
 * a (marker, axis) label.
 */
module Frames {
  import opened Wrappers

  /** One CSV field as `read_csv(header=None)` gives it: its text, or `None` for an empty field (NaN). */
  type Cell = Option<string>

  /** A value after `pd.to_numeric(errors="coerce")`: `None` stands for NaN. */
  type Num = Option<real>

  /** `pd.to_numeric` on one string: `None` when the string is not a number. */
  type Parser = string -> Option<real>

  /** A column label of the two-level `MultiIndex`: (marker, axis). */
  datatype Label = Label(marker: Cell, axis: Cell)

  /** A frame: labelled columns and the data rows under them. */
  datatype Frame = Frame(labels: seq<Label>, rows: seq<seq<Num>>)

  /** Every row as wide as the first, as `read_csv` pads short lines with NaN. */
  predicate Rectangular<T>(g: seq<seq<T>>) {
    forall i :: 0 <= i < |g| ==> |g[i]| == |g[0]|
  }

  /** Each data row holds one value per column label. */
  predicate WellFormed(f: Frame) {
    forall i :: 0 <= i < |f.rows| ==> |f.rows[i]| == |f.labels|
  }

  function Min(a: nat, b: nat): nat {
    if a < b then a else b
  }

  function Coerce(parse: Parser, c: Cell): Num {
    match c
    case None => None
    case Some(s) => parse(s)
  }

  /** `.apply(pd.to_numeric, errors="coerce")` over a block of rows. */
  function CoerceRows(parse: Parser, rows: seq<seq<Cell>>): seq<seq<Num>> {
    seq(|rows|, i requires 0 <= i < |rows| =>
      seq(|rows[i]|, j requires 0 <= j < |rows[i]| => Coerce(parse, rows[i][j])))
  }

  /**
   * `[(marker, axis) for marker, axis in zip(marker_row, axis_row)]`: one
   * label per position, as many as the shorter row.
   */
  function Zip(markers: seq<Cell>, axes: seq<Cell>): (r: seq<Label>)
    ensures |r| == Min(|markers|, |axes|)
    ensures forall i :: 0 <= i < |r| ==> r[i] == Label(markers[i], axes[i])
  {
    if markers == [] || axes == [] then []
    else [Label(markers[0], axes[0])] + Zip(markers[1..], axes[1..])
  }

  /** Zipping one more pair appends one label. */
  lemma ZipSnoc(markers: seq<Cell>, axes: seq<Cell>, m: Cell, a: Cell)
    requires |markers| == |axes|
    ensures Zip(markers + [m], axes + [a]) == Zip(markers, axes) + [Label(m, a)]
  {
  }

  /** The first column carrying label `l`, as a label lookup in pandas resolves it. */
  function Find(labels: seq<Label>, l: Label): (r: Option<nat>)
    ensures r.None? <==> l !in labels
    ensures r.Some? ==> r.value < |labels| && labels[r.value] == l
    ensures r.Some? ==> forall j :: 0 <= j < r.value ==> labels[j] != l
  {
    if labels == [] then None
    else if labels[0] == l then Some(0)
    else match Find(labels[1..], l)
      case None => None
      case Some(k) => Some(k + 1)
  }

  /** Whether some column belongs to `marker` (`df[marker]` succeeds). */
  predicate HasMarker(labels: seq<Label>, marker: Cell) {
    exists j :: 0 <= j < |labels| && labels[j].marker == marker
  }

  /** Subtraction with NaN propagation. */
  function NumSub(a: Num, b: Num): Num {
    if a.Some? && b.Some? then Some(a.value - b.value) else None
  }
}
