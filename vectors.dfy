/** Exact 3-D vectors: marker positions (millimetres) and robot targets (metres). */
module Vectors {

  datatype Vec3 = Vec3(x: real, y: real, z: real)

  const Zero := Vec3(0.0, 0.0, 0.0)

  /** An all-zero reading: the rig's way of reporting an occluded marker. */
  predicate IsZero(v: Vec3) {
    v.x == 0.0 && v.y == 0.0 && v.z == 0.0
  }

  function Add(a: Vec3, b: Vec3): Vec3 {
    Vec3(a.x + b.x, a.y + b.y, a.z + b.z)
  }

  function Sub(a: Vec3, b: Vec3): Vec3 {
    Vec3(a.x - b.x, a.y - b.y, a.z - b.z)
  }

  /** Metres to millimetres: the motion-capture rig reports millimetres, the robot takes metres. */
  function ToMillimetres(v: Vec3): Vec3 {
    Vec3(v.x * 1000.0, v.y * 1000.0, v.z * 1000.0)
  }

  function Div(v: Vec3, d: real): Vec3
    requires d != 0.0
  {
    Vec3(v.x / d, v.y / d, v.z / d)
  }

  /** `v` with its height replaced, as `a[2] = h` does on a numpy position. */
  function WithZ(v: Vec3, h: real): Vec3 {
    Vec3(v.x, v.y, h)
  }

  /** `v` raised by `dz` along the vertical axis. */
  function Lift(v: Vec3, dz: real): (r: Vec3)
    ensures Sub(r, v) == Vec3(0.0, 0.0, dz)
  {
    Vec3(v.x, v.y, v.z + dz)
  }

  /** Millimetres to metres, as numpy's `v / 1000`. */
  function ToMetres(v: Vec3): Vec3 {
    Vec3(v.x / 1000.0, v.y / 1000.0, v.z / 1000.0)
  }

  /** Converting to metres and back recovers the reading. */
  lemma MetresRoundTrip(v: Vec3)
    ensures ToMillimetres(ToMetres(v)) == v
  {
    MetresComponent(v.x);
    MetresComponent(v.y);
    MetresComponent(v.z);
  }

  /** Only an all-zero reading converts to all zeros. */
  lemma MetresZero(v: Vec3)
    ensures IsZero(ToMetres(v)) <==> IsZero(v)
  {
    MetresComponent(v.x);
    MetresComponent(v.y);
    MetresComponent(v.z);
  }

  lemma MetresComponent(c: real)
    ensures (c / 1000.0) * 1000.0 == c
    ensures c / 1000.0 == 0.0 <==> c == 0.0
  {
  }

  /** Componentwise sum of a sequence of vectors (numpy's `a + b + ...`). */
  function Sum(vs: seq<Vec3>): Vec3 {
    if vs == [] then Zero else Add(vs[0], Sum(vs[1..]))
  }

  /** Componentwise mean, as `np.mean(vs, axis=0)`. */
  function Mean(vs: seq<Vec3>): Vec3
    requires vs != []
  {
    Div(Sum(vs), |vs| as real)
  }

  /** The mean of four vectors is their sum divided by four. */
  lemma MeanOfFour(a: Vec3, b: Vec3, c: Vec3, d: Vec3)
    ensures Mean([a, b, c, d]) == Div(Add(Add(Add(a, b), c), d), 4.0)
  {
    var vs := [a, b, c, d];
    assert vs[1..][1..][1..] == [d] && vs[1..][1..][1..][1..] == [];
    assert Sum(vs[1..][1..][1..]) == Add(d, Zero);
    assert Sum(vs[1..][1..]) == Add(c, Add(d, Zero));
    assert Sum(vs[1..]) == Add(b, Add(c, Add(d, Zero)));
  }

  /** Taking one element out of a sum leaves the sum of the rest. */
  lemma {:induction false} SumRemove(vs: seq<Vec3>, i: nat)
    requires i < |vs|
    ensures Sum(vs) == Add(vs[i], Sum(vs[..i] + vs[i + 1..]))
  {
    if i > 0 {
      SumRemove(vs[1..], i - 1);
      assert vs[1..][..i - 1] + vs[1..][i..] == (vs[..i] + vs[i + 1..])[1..];
    } else {
      assert vs[..i] + vs[i + 1..] == vs[1..];
    }
  }

  /** The sum does not depend on the order of the summands. */
  lemma {:induction false} SumPermutation(a: seq<Vec3>, b: seq<Vec3>)
    requires multiset(a) == multiset(b)
    ensures Sum(a) == Sum(b)
    decreases |a|
  {
    if a == [] {
      assert |b| == |multiset(b)| == 0;
    } else {
      var i := MatchFirst(a, b);
      SumPermutation(a[1..], b[..i] + b[i + 1..]);
      SumRemove(b, i);
    }
  }

  /** Where the first element of `a` sits in its permutation `b`, and what is left of both. */
  lemma MatchFirst(a: seq<Vec3>, b: seq<Vec3>) returns (i: nat)
    requires a != [] && multiset(a) == multiset(b)
    ensures i < |b| && b[i] == a[0]
    ensures multiset(a[1..]) == multiset(b[..i] + b[i + 1..])
  {
    var v := a[0];
    assert v in multiset(b) by { assert v in multiset(a); }
    i :| 0 <= i < |b| && b[i] == v;
    assert b == b[..i] + [b[i]] + b[i + 1..];
    assert a == [a[0]] + a[1..];
    calc {
      multiset(a[1..]);
      multiset(a) - multiset{v};
      multiset(b) - multiset{v};
      multiset(b[..i]) + multiset(b[i + 1..]);
      multiset(b[..i] + b[i + 1..]);
    }
  }

  /** The mean does not depend on the order of the vectors either. */
  lemma MeanPermutation(a: seq<Vec3>, b: seq<Vec3>)
    requires a != [] && multiset(a) == multiset(b)
    ensures b != [] && Mean(a) == Mean(b)
  {
    assert |a| == |multiset(a)| == |multiset(b)| == |b|;
    SumPermutation(a, b);
  }
}
