/**
 * `get_aubo_coords`: the robot-base origin read from the first row of a
 * recorded trial table, `df[marker][axis][0]`.
 */
module Origin {
  import opened Wrappers
  import opened Vectors
  import opened Calibration

  /** A trial table: one column of samples per (marker, axis) pair. */
  type Table = map<(string, string), seq<real>>

  const Plane1 := "Base:XYPlane1"
  const Plane2 := "Base:XYPlane2"
  const Plane3 := "Base:XYPlane3"
  const Plane4 := "Base:XYPlane4"
  const ZBaseMarker := "Base:Zbase"

  /** `df[marker][axis][0]` exists: the column is there and has a row 0. */
  predicate Has(df: Table, marker: string, axis: string) {
    (marker, axis) in df && |df[(marker, axis)]| > 0
  }

  function At(df: Table, marker: string, axis: string): real
    requires Has(df, marker, axis)
  {
    df[(marker, axis)][0]
  }

  /** Every cell `get_aubo_coords` reads is present. */
  predicate Readable(df: Table) {
    Has(df, Plane1, "X") && Has(df, Plane2, "X") && Has(df, Plane3, "X") && Has(df, Plane4, "X") &&
    Has(df, Plane1, "Y") && Has(df, Plane2, "Y") && Has(df, Plane3, "Y") && Has(df, Plane4, "Y") &&
    Has(df, ZBaseMarker, "Z")
  }

  /** The four plane markers' row-0 readings in X/Y (height left at zero). */
  function PlaneXY(df: Table): seq<Vec3>
    requires Readable(df)
  {
    [Vec3(At(df, Plane1, "X"), At(df, Plane1, "Y"), 0.0),
     Vec3(At(df, Plane2, "X"), At(df, Plane2, "Y"), 0.0),
     Vec3(At(df, Plane3, "X"), At(df, Plane3, "Y"), 0.0),
     Vec3(At(df, Plane4, "X"), At(df, Plane4, "Y"), 0.0)]
  }

  /**
   * `(base_x, base_y, base_z)`: the mean of the four planes in X and in Y,
   * and `Zbase`'s own Z. A missing cell raises `KeyError`.
   */
  function GetAuboCoords(df: Table): (r: Result<Vec3>)
    ensures r.Success? <==> Readable(df)
    ensures r.Failure? ==> r.error == KeyError
    ensures r.Success? ==> r.value == WithZ(Mean(PlaneXY(df)), At(df, ZBaseMarker, "Z"))
  {
    if !Readable(df) then Failure(KeyError)
    else
      var baseX := (At(df, Plane1, "X") + At(df, Plane2, "X") + At(df, Plane3, "X") + At(df, Plane4, "X")) / 4.0;
      var baseY := (At(df, Plane1, "Y") + At(df, Plane2, "Y") + At(df, Plane3, "Y") + At(df, Plane4, "Y")) / 4.0;
      var baseZ := At(df, ZBaseMarker, "Z");
      var ps := PlaneXY(df);
      MeanOfFour(ps[0], ps[1], ps[2], ps[3]);
      Success(Vec3(baseX, baseY, baseZ))
  }

  /** Swapping which plane marker holds which reading does not change the origin. */
  lemma PlaneOrderIrrelevant(df: Table, df': Table)
    requires Readable(df) && Readable(df')
    requires multiset(PlaneXY(df)) == multiset(PlaneXY(df'))
    requires At(df, ZBaseMarker, "Z") == At(df', ZBaseMarker, "Z")
    ensures GetAuboCoords(df) == GetAuboCoords(df')
  {
    MeanPermutation(PlaneXY(df), PlaneXY(df'));
  }

  /** The table's origin is the one the live calibration computes from the same readings. */
  lemma AgreesWithCalibration(df: Table, m: BaseMarkers)
    requires Readable(df)
    requires forall i :: 0 <= i < 4 ==> Planes(m)[i].x == PlaneXY(df)[i].x && Planes(m)[i].y == PlaneXY(df)[i].y
    requires m.zBase.z == At(df, ZBaseMarker, "Z")
    ensures GetAuboCoords(df) == Success(BaseOrigin(m))
  {
    var ps, qs := PlaneXY(df), Planes(m);
    assert qs[0].x == ps[0].x && qs[1].x == ps[1].x && qs[2].x == ps[2].x && qs[3].x == ps[3].x;
    assert qs[0].y == ps[0].y && qs[1].y == ps[1].y && qs[2].y == ps[2].y && qs[3].y == ps[3].y;
    MeanOfFour(ps[0], ps[1], ps[2], ps[3]);
    MeanOfFour(qs[0], qs[1], qs[2], qs[3]);
  }
}
