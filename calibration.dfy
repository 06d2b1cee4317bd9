/**
 * Base calibration and the marker-to-target conversion shared by the
 * tracking controllers: the robot-base origin is the mean of the four
 * `XYPlane` markers in X/Y with the height of the `Zbase` marker, and a hand
 * reading becomes a target as `(hand - base) / 1000`.
 */
module Calibration {
  import opened Wrappers
  import opened Vectors

  /** One frame of the `Base` subject: four planar markers and a height marker. */
  datatype BaseMarkers = BaseMarkers(
    xyPlane1: Vec3, xyPlane2: Vec3, xyPlane3: Vec3, xyPlane4: Vec3, zBase: Vec3)

  function Planes(m: BaseMarkers): seq<Vec3> {
    [m.xyPlane1, m.xyPlane2, m.xyPlane3, m.xyPlane4]
  }

  /** Every marker of the frame moved by `d`. */
  function Shift(m: BaseMarkers, d: Vec3): BaseMarkers {
    BaseMarkers(Add(m.xyPlane1, d), Add(m.xyPlane2, d), Add(m.xyPlane3, d),
                Add(m.xyPlane4, d), Add(m.zBase, d))
  }

  /**
   * The base origin as `(xy1 + xy2 + xy3 + xy4) / 4` with the height then
   * overwritten by `Zbase`'s height: the mean of the planes in X/Y.
   */
  function BaseOrigin(m: BaseMarkers): (b: Vec3)
    ensures b == WithZ(Mean(Planes(m)), m.zBase.z)
  {
    MeanOfFour(m.xyPlane1, m.xyPlane2, m.xyPlane3, m.xyPlane4);
    WithZ(Div(Add(Add(Add(m.xyPlane1, m.xyPlane2), m.xyPlane3), m.xyPlane4), 4.0), m.zBase.z)
  }

  /** Which plane marker is which does not matter to the origin. */
  lemma BaseOriginPlaneOrder(m: BaseMarkers, m': BaseMarkers)
    requires multiset(Planes(m)) == multiset(Planes(m'))
    requires m.zBase.z == m'.zBase.z
    ensures BaseOrigin(m) == BaseOrigin(m')
  {
    MeanPermutation(Planes(m), Planes(m'));
  }

  /** The heights of the plane markers and the X/Y of `Zbase` are ignored. */
  lemma BaseOriginIgnores(m: BaseMarkers, m': BaseMarkers)
    requires forall i :: 0 <= i < 4 ==> Planes(m)[i].x == Planes(m')[i].x && Planes(m)[i].y == Planes(m')[i].y
    requires m.zBase.z == m'.zBase.z
    ensures BaseOrigin(m) == BaseOrigin(m')
  {
    assert Planes(m)[0].x == Planes(m')[0].x && Planes(m)[1].x == Planes(m')[1].x;
    assert Planes(m)[2].y == Planes(m')[2].y && Planes(m)[3].y == Planes(m')[3].y;
  }

  /** Moving the whole rig by `d` moves the computed origin by `d`. */
  lemma BaseOriginShift(m: BaseMarkers, d: Vec3)
    ensures BaseOrigin(Shift(m, d)) == Add(BaseOrigin(m), d)
  {
  }

  /** A frame is unusable when `XYPlane1` reads all zeros (the only marker checked). */
  predicate Degenerate(m: BaseMarkers) {
    IsZero(m.xyPlane1)
  }

  /** One pass of the calibration loop: no origin from a degenerate frame. */
  function Calibrate(m: BaseMarkers): (b: Option<Vec3>)
    ensures b.None? <==> Degenerate(m)
    ensures b.Some? ==> b.value == WithZ(Mean(Planes(m)), m.zBase.z)
  {
    if Degenerate(m) then None else Some(BaseOrigin(m))
  }

  /** The origin the polling loop settles on: that of the first usable frame. */
  function FirstUsableBase(frames: seq<BaseMarkers>): Option<Vec3> {
    if frames == [] then None
    else if Degenerate(frames[0]) then FirstUsableBase(frames[1..])
    else Some(BaseOrigin(frames[0]))
  }

  /** `FirstUsableBase` finds the first non-degenerate frame, or none if there is none. */
  lemma {:induction false} FirstUsableBaseSpec(frames: seq<BaseMarkers>)
    ensures FirstUsableBase(frames).None? <==> forall i :: 0 <= i < |frames| ==> Degenerate(frames[i])
    ensures FirstUsableBase(frames).Some? ==>
      exists k :: 0 <= k < |frames| && !Degenerate(frames[k]) &&
        (forall i :: 0 <= i < k ==> Degenerate(frames[i])) &&
        FirstUsableBase(frames) == Some(BaseOrigin(frames[k]))
  {
    if frames != [] {
      FirstUsableBaseSpec(frames[1..]);
      if Degenerate(frames[0]) {
        if FirstUsableBase(frames).Some? {
          var k :| 0 <= k < |frames[1..]| && !Degenerate(frames[1..][k]) &&
            (forall i :: 0 <= i < k ==> Degenerate(frames[1..][i])) &&
            FirstUsableBase(frames[1..]) == Some(BaseOrigin(frames[1..][k]));
          assert forall i :: 0 <= i < k + 1 ==> Degenerate(frames[i]) by {
            forall i | 0 <= i < k + 1 ensures Degenerate(frames[i]) {
              if i > 0 { assert frames[i] == frames[1..][i - 1]; }
            }
          }
          assert !Degenerate(frames[k + 1]);
        } else {
          forall i | 0 <= i < |frames| ensures Degenerate(frames[i]) {
            if i > 0 { assert frames[i] == frames[1..][i - 1]; }
          }
        }
      }
    }
  }

  /**
   * The calibration loop: poll frames until one is usable. `polled` is the
   * index of the frame that was used, or `|frames|` when every frame was
   * degenerate (the loop would go on polling).
   */
  method PollBase(frames: seq<BaseMarkers>) returns (base: Option<Vec3>, polled: nat)
    ensures base == FirstUsableBase(frames)
    ensures polled <= |frames|
    ensures forall i :: 0 <= i < polled ==> Degenerate(frames[i])
    ensures base.None? <==> polled == |frames|
    ensures base.Some? ==> !Degenerate(frames[polled]) && base.value == BaseOrigin(frames[polled])
  {
    base, polled := None, 0;
    var baseFound := false;
    while !baseFound && polled < |frames|
      invariant polled <= |frames|
      invariant forall i :: 0 <= i < polled ==> Degenerate(frames[i])
      invariant !baseFound ==> base.None? && FirstUsableBase(frames) == FirstUsableBase(frames[polled..])
      invariant baseFound ==> polled < |frames| && !Degenerate(frames[polled])
      invariant baseFound ==> base == Some(BaseOrigin(frames[polled])) == FirstUsableBase(frames[polled..])
      invariant baseFound ==> FirstUsableBase(frames) == FirstUsableBase(frames[polled..])
      decreases |frames| - polled, !baseFound
    {
      var m := frames[polled];
      if Degenerate(m) {
        assert frames[polled..][1..] == frames[polled + 1..];
        polled := polled + 1;
        continue;
      }
      base := Some(BaseOrigin(m));
      baseFound := true;
    }
  }

  /**
   * A hand reading as a robot target: nothing for an occluded (all-zero)
   * reading, otherwise the offset from the base in metres. No tool offset is
   * added.
   */
  function ToTarget(hand: Vec3, base: Vec3): (t: Option<Vec3>)
    ensures t.None? <==> IsZero(hand)
  {
    if IsZero(hand) then None else Some(ToMetres(Sub(hand, base)))
  }

  /** A target converted back to millimetres and put back over the base is the hand reading. */
  lemma TargetInverse(hand: Vec3, base: Vec3)
    requires !IsZero(hand)
    ensures Add(ToMillimetres(ToTarget(hand, base).value), base) == hand
  {
    MetresRoundTrip(Sub(hand, base));
  }

  /** Targets do not depend on where the rig's own origin lies. */
  lemma TargetShift(hand: Vec3, m: BaseMarkers, d: Vec3)
    requires !IsZero(hand) && !IsZero(Add(hand, d))
    ensures ToTarget(Add(hand, d), BaseOrigin(Shift(m, d))) == ToTarget(hand, BaseOrigin(m))
  {
    BaseOriginShift(m, d);
    assert Sub(Add(hand, d), Add(BaseOrigin(m), d)) == Sub(hand, BaseOrigin(m));
  }

  /** A hand at (596.527, 47.547, 270) mm over a zero origin is the target (0.596527, 0.047547, 0.27) m. */
  lemma TargetExample()
    ensures ToTarget(Vec3(596.527, 47.547, 270.0), Zero) == Some(Vec3(0.596527, 0.047547, 0.27))
    ensures ToTarget(Zero, Zero) == None
  {
  }
}
