/** _convert_to_8bit: the global min/max rescale of a whole volume to 0..255,
    in exact real arithmetic, including the branch taken when the global
    minimum is negative (shift by |min|, negate, take min/max again). */
module Rescale {

  /** slices[s][i][j]: plane s, column i, row j. */
  type Volume<T> = seq<seq<seq<T>>>

  function Abs(x: real): real
  {
    if x < 0.0 then -x else x
  }

  /** np.min of a non-empty array. */
  function SeqMin(xs: seq<real>): (m: real)
    requires |xs| > 0
    ensures forall k :: 0 <= k < |xs| ==> m <= xs[k]
  {
    if |xs| == 1 then xs[0]
    else
      var t := SeqMin(xs[1..]);
      if xs[0] <= t then xs[0] else t
  }

  /** np.max of a non-empty array. */
  function SeqMax(xs: seq<real>): (m: real)
    requires |xs| > 0
    ensures forall k :: 0 <= k < |xs| ==> xs[k] <= m
  {
    if |xs| == 1 then xs[0]
    else
      var t := SeqMax(xs[1..]);
      if xs[0] >= t then xs[0] else t
  }

  /** The minimum and the maximum are attained. */
  lemma {:induction false} ExtremaAttained(xs: seq<real>)
    requires |xs| > 0
    ensures SeqMin(xs) in xs && SeqMax(xs) in xs
  {
    if |xs| > 1 {
      ExtremaAttained(xs[1..]);
    }
  }

  /** Concatenation of a sequence of sequences. */
  function Flat<T>(xss: seq<seq<T>>): seq<T>
  {
    if xss == [] then [] else Flat(xss[..|xss| - 1]) + xss[|xss| - 1]
  }

  /** Every element of every inner sequence occurs in the concatenation, and
      nothing else does. */
  lemma {:induction false} FlatMembers<T>(xss: seq<seq<T>>)
    ensures forall i, j :: 0 <= i < |xss| && 0 <= j < |xss[i]| ==> xss[i][j] in Flat(xss)
    ensures forall x :: x in Flat(xss) ==> exists i, j :: 0 <= i < |xss| && 0 <= j < |xss[i]| && xss[i][j] == x
  {
    if xss != [] {
      var n := |xss| - 1;
      FlatMembers(xss[..n]);
      assert forall i :: 0 <= i < n ==> xss[..n][i] == xss[i];
      forall x | x in Flat(xss)
        ensures exists i, j :: 0 <= i < |xss| && 0 <= j < |xss[i]| && xss[i][j] == x
      {
        if x !in Flat(xss[..n]) {
          var j :| 0 <= j < |xss[n]| && xss[n][j] == x;
        }
      }
    }
  }

  /** Applying f element-wise commutes with concatenation. */
  lemma {:induction false} FlatMap<A, B>(xss: seq<seq<A>>, yss: seq<seq<B>>, f: A -> B)
    requires |yss| == |xss|
    requires forall i :: 0 <= i < |xss| ==> |yss[i]| == |xss[i]| && forall j :: 0 <= j < |xss[i]| ==> yss[i][j] == f(xss[i][j])
    ensures |Flat(yss)| == |Flat(xss)| && forall k :: 0 <= k < |Flat(xss)| ==> Flat(yss)[k] == f(Flat(xss)[k])
  {
    if xss != [] {
      var n := |xss| - 1;
      FlatMap(xss[..n], yss[..n], f);
    }
  }

  /** Every sample of the volume, plane by plane (np.array(slices) flattened). */
  function Values(vol: Volume<real>): seq<real>
  {
    Flat(seq(|vol|, s requires 0 <= s < |vol| => Flat(vol[s])))
  }

  lemma ValuesMembers(vol: Volume<real>)
    ensures forall s, i, j :: 0 <= s < |vol| && 0 <= i < |vol[s]| && 0 <= j < |vol[s][i]| ==> vol[s][i][j] in Values(vol)
  {
    var planes := seq(|vol|, s requires 0 <= s < |vol| => Flat(vol[s]));
    FlatMembers(planes);
    forall s, i, j | 0 <= s < |vol| && 0 <= i < |vol[s]| && 0 <= j < |vol[s][i]|
      ensures vol[s][i][j] in Values(vol)
    {
      FlatMembers(vol[s]);
      assert planes[s] == Flat(vol[s]);
      var x := vol[s][i][j];
      assert x in planes[s];
      var k :| 0 <= k < |planes[s]| && planes[s][k] == x;
      assert planes[s][k] in Flat(planes);
    }
  }

  /** Each sample lies between the global minimum and maximum. */
  lemma WithinRange(vol: Volume<real>, s: nat, i: nat, j: nat)
    requires |Values(vol)| > 0
    requires s < |vol| && i < |vol[s]| && j < |vol[s][i]|
    ensures SeqMin(Values(vol)) <= vol[s][i][j] <= SeqMax(Values(vol))
  {
    ValuesMembers(vol);
    var k :| 0 <= k < |Values(vol)| && Values(vol)[k] == vol[s][i][j];
  }

  predicate SameShape<A, B>(a: Volume<A>, b: Volume<B>)
  {
    |a| == |b| && forall s :: 0 <= s < |a| ==>
      |a[s]| == |b[s]| && forall i :: 0 <= i < |a[s]| ==> |a[s][i]| == |b[s][i]|
  }

  /** The samples of a volume mapped element-wise by f are the mapped samples. */
  lemma ValuesMap(vol: Volume<real>, out: Volume<real>, f: real -> real)
    requires SameShape(vol, out)
    requires forall s, i, j :: 0 <= s < |vol| && 0 <= i < |vol[s]| && 0 <= j < |vol[s][i]| ==> out[s][i][j] == f(vol[s][i][j])
    ensures |Values(out)| == |Values(vol)|
    ensures forall k :: 0 <= k < |Values(vol)| ==> Values(out)[k] == f(Values(vol)[k])
  {
    var xs := seq(|vol|, s requires 0 <= s < |vol| => Flat(vol[s]));
    var ys := seq(|out|, s requires 0 <= s < |out| => Flat(out[s]));
    forall s | 0 <= s < |vol|
      ensures |ys[s]| == |xs[s]| && forall j :: 0 <= j < |xs[s]| ==> ys[s][j] == f(xs[s][j])
    {
      FlatMap(vol[s], out[s], f);
    }
    FlatMap(xs, ys, f);
  }

  /** ((v - lo) / (hi - lo)) * 255, then .astype(np.uint8), which truncates
      the non-negative quotient. */
  function Scale8(v: real, lo: real, hi: real): int
    requires lo < hi
  {
    Trunc255(v - lo, hi - lo)
  }

  /** (num / den) * 255 truncated to an integer, as astype(np.uint8) does
      for a quotient in [0, 1]. */
  function Trunc255(num: real, den: real): int
    requires den > 0.0
  {
    (num / den * 255.0).Floor
  }

  /** A quotient in [0, 1] lands in 0..255, with 0 for 0 and 255 for 1. */
  lemma Trunc255Range(num: real, den: real)
    requires den > 0.0 && 0.0 <= num <= den
    ensures 0 <= Trunc255(num, den) <= 255
    ensures num == 0.0 ==> Trunc255(num, den) == 0
    ensures num == den ==> Trunc255(num, den) == 255
  {
    assert 0.0 / den <= num / den <= den / den;
    assert den / den == 1.0;
  }

  /** The 8-bit value grows with the numerator. */
  lemma Trunc255Monotone(a: real, b: real, den: real)
    requires den > 0.0 && a <= b
    ensures Trunc255(a, den) <= Trunc255(b, den)
  {
    assert a / den <= b / den;
  }

  /** The preconditions np.min/np.max and the division need: a non-empty
      volume that is not constant. */
  predicate Rescalable(vol: Volume<real>)
  {
    |Values(vol)| > 0 && SeqMin(Values(vol)) < SeqMax(Values(vol))
  }

  /** arr + abs(global_min), then * -1. */
  function Reflect(v: real, lo: real): real
  {
    -(v + Abs(lo))
  }

  /** Reflecting a volume with a negative minimum lo and maximum hi gives
      minimum lo - hi and maximum 0. */
  lemma ReflectRange(xs: seq<real>, ys: seq<real>, lo: real, hi: real)
    requires |xs| > 0 && lo == SeqMin(xs) && hi == SeqMax(xs) && lo < 0.0
    requires |ys| == |xs| && forall k :: 0 <= k < |xs| ==> ys[k] == Reflect(xs[k], lo)
    ensures SeqMin(ys) == lo - hi && SeqMax(ys) == 0.0
  {
    ExtremaAttained(xs);
    ExtremaAttained(ys);
    var kmax :| 0 <= kmax < |xs| && xs[kmax] == hi;
    var kmin :| 0 <= kmin < |xs| && xs[kmin] == lo;
    assert ys[kmax] == lo - hi && ys[kmin] == 0.0;
  }

  /** Rescaling a reflected sample over the reflected range [lo - hi, 0]. */
  lemma ScaleReflected(v: real, lo: real, hi: real)
    requires lo < 0.0 && lo < hi
    ensures Scale8(Reflect(v, lo), lo - hi, 0.0) == Trunc255(hi - v, hi - lo)
  {
    assert Reflect(v, lo) - (lo - hi) == hi - v;
    assert 0.0 - (lo - hi) == hi - lo;
  }

  /** arr + abs(lo), then * -1, element-wise. */
  function ReflectAll(vol: Volume<real>, lo: real): (refl: Volume<real>)
    ensures SameShape(vol, refl)
    ensures forall s, i, j :: 0 <= s < |vol| && 0 <= i < |vol[s]| && 0 <= j < |vol[s][i]| ==>
      refl[s][i][j] == Reflect(vol[s][i][j], lo)
  {
    seq(|vol|, s requires 0 <= s < |vol| =>
      seq(|vol[s]|, i requires 0 <= i < |vol[s]| =>
        seq(|vol[s][i]|, j requires 0 <= j < |vol[s][i]| => Reflect(vol[s][i][j], lo))))
  }

  /** ((arr - lo) / (hi - lo)) * 255 cast to uint8, element-wise. */
  function ScaleAll(vol: Volume<real>, lo: real, hi: real): (out: Volume<int>)
    requires lo < hi
    ensures SameShape(vol, out)
    ensures forall s, i, j :: 0 <= s < |vol| && 0 <= i < |vol[s]| && 0 <= j < |vol[s][i]| ==>
      out[s][i][j] == Scale8(vol[s][i][j], lo, hi)
  {
    seq(|vol|, s requires 0 <= s < |vol| =>
      seq(|vol[s]|, i requires 0 <= i < |vol[s]| =>
        seq(|vol[s][i]|, j requires 0 <= j < |vol[s][i]| => Scale8(vol[s][i][j], lo, hi))))
  }

  /** The reflected volume has minimum lo - hi and maximum 0. */
  lemma ReflectAllRange(vol: Volume<real>)
    requires Rescalable(vol) && SeqMin(Values(vol)) < 0.0
    ensures var refl := ReflectAll(vol, SeqMin(Values(vol)));
      |Values(refl)| > 0
      && SeqMin(Values(refl)) == SeqMin(Values(vol)) - SeqMax(Values(vol))
      && SeqMax(Values(refl)) == 0.0
  {
    var lo := SeqMin(Values(vol));
    var refl := ReflectAll(vol, lo);
    ValuesMap(vol, refl, v => Reflect(v, lo));
    ReflectRange(Values(vol), Values(refl), lo, SeqMax(Values(vol)));
  }

  /** _convert_to_8bit(slices): rescales to 0..255 over the global range;
      with a negative minimum the data are reflected first and the range is
      taken again on the reflected data. */
  function Convert8Bit(vol: Volume<real>): (out: Volume<int>)
    requires Rescalable(vol)
    ensures SameShape(vol, out)
  {
    var lo, hi := SeqMin(Values(vol)), SeqMax(Values(vol));
    if lo < 0.0 then
      var refl := ReflectAll(vol, lo);
      ReflectAllRange(vol);
      ScaleAll(refl, SeqMin(Values(refl)), SeqMax(Values(refl)))
    else
      ScaleAll(vol, lo, hi)
  }

  /** Non-negative minimum: sample v becomes trunc(255 * (v - min) / (max - min)),
      so the minimum becomes 0 and the maximum 255. */
  lemma Convert8BitNonNegative(vol: Volume<real>, s: nat, i: nat, j: nat)
    requires Rescalable(vol) && SeqMin(Values(vol)) >= 0.0
    requires s < |vol| && i < |vol[s]| && j < |vol[s][i]|
    ensures Convert8Bit(vol)[s][i][j] == Trunc255(vol[s][i][j] - SeqMin(Values(vol)), SeqMax(Values(vol)) - SeqMin(Values(vol)))
  {
  }

  /** Negative minimum: sample v becomes trunc(255 * (max - v) / (max - min)),
      so the order is reversed: the minimum becomes 255 and the maximum 0. */
  lemma Convert8BitNegative(vol: Volume<real>, s: nat, i: nat, j: nat)
    requires Rescalable(vol) && SeqMin(Values(vol)) < 0.0
    requires s < |vol| && i < |vol[s]| && j < |vol[s][i]|
    ensures Convert8Bit(vol)[s][i][j] == Trunc255(SeqMax(Values(vol)) - vol[s][i][j], SeqMax(Values(vol)) - SeqMin(Values(vol)))
  {
    var lo, hi := SeqMin(Values(vol)), SeqMax(Values(vol));
    var refl := ReflectAll(vol, lo);
    ReflectAllRange(vol);
    var v := vol[s][i][j];
    assert Convert8Bit(vol)[s][i][j] == Scale8(Reflect(v, lo), lo - hi, 0.0);
    ScaleReflected(v, lo, hi);
  }

  /** Every output byte lies in 0..255. */
  lemma Convert8BitRange(vol: Volume<real>, s: nat, i: nat, j: nat)
    requires Rescalable(vol)
    requires s < |vol| && i < |vol[s]| && j < |vol[s][i]|
    ensures 0 <= Convert8Bit(vol)[s][i][j] <= 255
  {
    WithinRange(vol, s, i, j);
    Convert8BitPixel(vol, s, i, j);
    Byte8Range(vol[s][i][j], SeqMin(Values(vol)), SeqMax(Values(vol)));
  }

  /** The byte _convert_to_8bit gives a sample v of a volume whose range is
      [lo, hi]: trunc(255 * (v - lo) / (hi - lo)), or, when lo is negative,
      trunc(255 * (hi - v) / (hi - lo)). */
  function Byte8(v: real, lo: real, hi: real): int
    requires lo < hi
  {
    if lo < 0.0 then Trunc255(hi - v, hi - lo) else Trunc255(v - lo, hi - lo)
  }

  /** Every output byte is Byte8 of its sample over the global range. */
  lemma Convert8BitPixel(vol: Volume<real>, s: nat, i: nat, j: nat)
    requires Rescalable(vol)
    requires s < |vol| && i < |vol[s]| && j < |vol[s][i]|
    ensures Convert8Bit(vol)[s][i][j] == Byte8(vol[s][i][j], SeqMin(Values(vol)), SeqMax(Values(vol)))
  {
    if SeqMin(Values(vol)) < 0.0 {
      Convert8BitNegative(vol, s, i, j);
    } else {
      Convert8BitNonNegative(vol, s, i, j);
    }
  }

  /** A sample within [lo, hi] gives a byte in 0..255. */
  lemma Byte8Range(v: real, lo: real, hi: real)
    requires lo <= v <= hi && lo < hi
    ensures 0 <= Byte8(v, lo, hi) <= 255
  {
    if lo < 0.0 {
      Trunc255Range(hi - v, hi - lo);
    } else {
      Trunc255Range(v - lo, hi - lo);
    }
  }

  /** The global minimum becomes 0 and the maximum 255, or the reverse when
      the minimum is negative. */
  lemma Byte8Extremes(lo: real, hi: real)
    requires lo < hi
    ensures Byte8(lo, lo, hi) == if lo < 0.0 then 255 else 0
    ensures Byte8(hi, lo, hi) == if lo < 0.0 then 0 else 255
  {
    Trunc255Range(0.0, hi - lo);
    Trunc255Range(hi - lo, hi - lo);
  }

  /** Which branch decides the order: with a non-negative minimum a larger
      sample never gets a smaller byte; with a negative one it never gets a
      larger byte. */
  lemma Byte8Order(v: real, w: real, lo: real, hi: real)
    requires lo < hi && v <= w
    ensures lo >= 0.0 ==> Byte8(v, lo, hi) <= Byte8(w, lo, hi)
    ensures lo < 0.0 ==> Byte8(v, lo, hi) >= Byte8(w, lo, hi)
  {
    if lo >= 0.0 {
      Trunc255Monotone(v - lo, w - lo, hi - lo);
    } else {
      Trunc255Monotone(hi - w, hi - v, hi - lo);
    }
  }
}
