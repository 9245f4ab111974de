/*
 * Profile geometry of plotPro.py: the strike and normal directions of a
 * profile, the change to profile coordinates, the swath every dataset is cut
 * to, and the columns the GNSS step derives from the swath selection. The
 * sine and cosine of the strike angle are inputs.
 */
module Profile {
  import opened Common

  /** The horizontal directions of a profile with strike angle `str`:
      `s = [sin str, cos str]` along strike and `n = [cos str, -sin str]`
      along the profile line (both third, vertical, components are zero). */
  datatype Basis = Basis(s0: real, s1: real, n0: real, n1: real)

  /** Whether both directions have unit length. */
  predicate Unit(b: Basis)
  {
    b.s0 * b.s0 + b.s1 * b.s1 == 1.0 && b.n0 * b.n0 + b.n1 * b.n1 == 1.0
  }

  /** The basis built from `sin str` and `cos str`: the two directions are
      perpendicular, `n` is `s` turned a quarter clockwise, and both are unit
      vectors when the sine and cosine are those of one angle. */
  function StrikeBasis(sinStr: real, cosStr: real): (b: Basis)
    ensures b.s0 * b.n0 + b.s1 * b.n1 == 0.0
    ensures b.n0 == b.s1 && b.n1 == -b.s0
    ensures sinStr * sinStr + cosStr * cosStr == 1.0 ==> Unit(b)
  {
    Basis(sinStr, cosStr, cosStr, -sinStr)
  }

  /** The swath of a profile of length `l` and width `w`, in profile
      coordinates (offset across, distance along): `xpmin, xpmax = -w/2, w/2`
      and `ypmin, ypmax = -l/2, l/2`. */
  function Extent(l: real, w: real): (e: Box)
    ensures e.x1 - e.x0 == w && e.x0 + e.x1 == 0.0
    ensures e.y1 - e.y0 == l && e.y0 + e.y1 == 0.0
  {
    Box(-w / 2.0, w / 2.0, -l / 2.0, l / 2.0)
  }

  /** `ypp`: the coordinate along the profile line, `(x - x0)*n0 + (y - y0)*n1`. */
  function Distance(b: Basis, x0: real, y0: real, xs: seq<real>, ys: seq<real>): (r: seq<real>)
    requires |ys| == |xs|
    ensures |r| == |xs|
  {
    seq(|xs|, i requires 0 <= i < |xs| => Along(b.n0, b.n1, xs[i] - x0, ys[i] - y0))
  }

  /** `xpp`: the coordinate along strike, `(x - x0)*s0 + (y - y0)*s1`. */
  function Offset(b: Basis, x0: real, y0: real, xs: seq<real>, ys: seq<real>): (r: seq<real>)
    requires |ys| == |xs|
    ensures |r| == |xs|
  {
    seq(|xs|, i requires 0 <= i < |xs| => Along(b.s0, b.s1, xs[i] - x0, ys[i] - y0))
  }

  /** The component of the vector `(dx, dy)` along the direction `(d0, d1)`. */
  function Along(d0: real, d1: real, dx: real, dy: real): real
  {
    dx * d0 + dy * d1
  }

  /** The profile coordinates are a change of basis: for a unit strike basis
      the map position is recovered from them, `p - p0 = xpp*s + ypp*n`. */
  lemma ProjectionInverts(sinStr: real, cosStr: real, x0: real, y0: real, xs: seq<real>, ys: seq<real>, i: int)
    requires sinStr * sinStr + cosStr * cosStr == 1.0
    requires |ys| == |xs| && 0 <= i < |xs|
    ensures var b := StrikeBasis(sinStr, cosStr);
      var o, d := Offset(b, x0, y0, xs, ys)[i], Distance(b, x0, y0, xs, ys)[i];
      xs[i] - x0 == o * b.s0 + d * b.n0 && ys[i] - y0 == o * b.s1 + d * b.n1
  {
    var b := StrikeBasis(sinStr, cosStr);
    var dx, dy := xs[i] - x0, ys[i] - y0;
    var o, d := Offset(b, x0, y0, xs, ys)[i], Distance(b, x0, y0, xs, ys)[i];
    assert o == dx * sinStr + dy * cosStr && d == dx * cosStr - dy * sinStr;
    assert o * sinStr + d * cosStr == dx * (sinStr * sinStr + cosStr * cosStr);
    assert o * cosStr - d * sinStr == dy * (sinStr * sinStr + cosStr * cosStr);
  }

  /** Whether a point in profile coordinates lies in the closed swath. */
  predicate Inside(l: real, w: real, o: real, d: real)
  {
    -w / 2.0 <= o <= w / 2.0 && -l / 2.0 <= d <= l / 2.0
  }

  /** The points `np.delete(..., index)` keeps, where `index` holds the points
      with `xpp > xpmax`, `xpp < xpmin`, `ypp > ypmax` or `ypp < ypmin`. */
  function SwathMask(l: real, w: real, xpp: seq<real>, ypp: seq<real>): (m: seq<bool>)
    requires |ypp| == |xpp|
    ensures |m| == |xpp|
  {
    BoxMask(xpp, ypp, Extent(l, w))
  }

  /** Any co-array filtered with the swath mask holds, in the original order,
      exactly the entries of the points inside the closed swath. */
  lemma SwathSelects<T>(l: real, w: real, xpp: seq<real>, ypp: seq<real>, col: seq<T>)
    requires |ypp| == |xpp| && |col| == |xpp|
    ensures var idx := Kept(SwathMask(l, w, xpp, ypp));
      |Keep(col, SwathMask(l, w, xpp, ypp))| == |idx| &&
      (forall k :: 0 <= k < |idx| ==>
        0 <= idx[k] < |xpp| && Keep(col, SwathMask(l, w, xpp, ypp))[k] == col[idx[k]] &&
        Inside(l, w, xpp[idx[k]], ypp[idx[k]])) &&
      (forall k1, k2 :: 0 <= k1 < k2 < |idx| ==> idx[k1] < idx[k2]) &&
      (forall i :: 0 <= i < |xpp| && Inside(l, w, xpp[i], ypp[i]) ==> i in idx)
  {
    var m := SwathMask(l, w, xpp, ypp);
    forall k | 0 <= k < Count(m)
      ensures 0 <= Kept(m)[k] < |xpp| && Keep(col, m)[k] == col[Kept(m)[k]]
    {
      KeepAt(col, m, k);
    }
    forall i | 0 <= i < |xpp| && Inside(l, w, xpp[i], ypp[i])
      ensures i in Kept(m)
    {
      KeptComplete(m, i);
    }
  }

  /** The velocity and sigma columns of the stations in the swath:
      `uux, uuy, sigmaxx, sigmayy` are `ux, uy, sigmax, sigmay` under the mask. */
  predicate GpsMotionSelected(m: seq<bool>, ux: seq<real>, uy: seq<real>, sx: seq<real>, sy: seq<real>,
                              uux: seq<real>, uuy: seq<real>, sxx: seq<real>, syy: seq<real>)
  {
    |ux| == |m| && |uy| == |m| && |sx| == |m| && |sy| == |m| &&
    uux == Keep(ux, m) && uuy == Keep(uy, m) && sxx == Keep(sx, m) && syy == Keep(sy, m)
  }

  /** The positions of the stations in the swath, on the map (`xx, yy`) and
      in profile coordinates (`xxp, yyp`). */
  predicate GpsPlaceSelected(m: seq<bool>, x: seq<real>, y: seq<real>, xpp: seq<real>, ypp: seq<real>,
                             xx: seq<real>, yy: seq<real>, xxp: seq<real>, yyp: seq<real>)
  {
    |x| == |m| && |y| == |m| && |xpp| == |m| && |ypp| == |m| &&
    xx == Keep(x, m) && yy == Keep(y, m) && xxp == Keep(xpp, m) && yyp == Keep(ypp, m)
  }

  /** The squares under the roots of `sigmaperp`/`sigmapar`: `(sa*ka)^2 + (sb*kb)^2`. */
  function SigmaSquares(sa: seq<real>, sb: seq<real>, ka: real, kb: real): (r: seq<real>)
    requires |sb| == |sa|
    ensures |r| == |sa|
  {
    seq(|sa|, i requires 0 <= i < |sa| => SigmaSquare(sa[i], sb[i], ka, kb))
  }

  /** `(a*ka)^2 + (c*kb)^2`. */
  function SigmaSquare(a: real, c: real, ka: real, kb: real): real
  {
    (a * ka) * (a * ka) + (c * kb) * (c * kb)
  }

  /** `**0.5` of each entry. */
  function Roots(num: Numerics, s: seq<real>): (r: seq<real>)
    ensures |r| == |s|
  {
    seq(|s|, i requires 0 <= i < |s| => num.sqrt(s[i]))
  }

  /** The fault-parallel and fault-perpendicular parts of the velocities in
      the swath and their sigmas, with `cos str = s1` and `sin str = s0`. */
  predicate GpsComponentsSet(b: Basis, num: Numerics, uux: seq<real>, uuy: seq<real>, sxx: seq<real>, syy: seq<real>,
                             upar: seq<real>, uperp: seq<real>, sperp: seq<real>, spar: seq<real>)
  {
    |uuy| == |uux| && |syy| == |sxx| &&
    upar == Offset(b, 0.0, 0.0, uux, uuy) && uperp == Distance(b, 0.0, 0.0, uux, uuy) &&
    sperp == Roots(num, SigmaSquares(sxx, syy, b.s1, b.s0)) &&
    spar == Roots(num, SigmaSquares(sxx, syy, b.s0, b.s1))
  }

  /** The vertical and LOS columns of the stations in the swath. */
  predicate GpsVerticalSelected(m: seq<bool>, uv: Option<seq<real>>, sv: Option<seq<real>>, ulos: seq<Value>, slos: seq<real>,
                                uuv: seq<real>, svv: seq<real>, uu: seq<Value>, sl: seq<real>)
  {
    uv.Some? && sv.Some? &&
    |uv.value| == |m| && |sv.value| == |m| && |ulos| == |m| && |slos| == |m| &&
    uuv == Keep(uv.value, m) && svv == Keep(sv.value, m) && uu == Keep(ulos, m) && sl == Keep(slos, m)
  }

  /** The decomposition into fault-parallel and fault-perpendicular parts
      loses nothing: for a unit strike basis `upar^2 + uperp^2` is the
      squared horizontal speed, and `upar*s + uperp*n` is the velocity. */
  lemma ComponentsPreserveVelocity(sinStr: real, cosStr: real, ux: seq<real>, uy: seq<real>, i: int)
    requires sinStr * sinStr + cosStr * cosStr == 1.0
    requires |uy| == |ux| && 0 <= i < |ux|
    ensures var b := StrikeBasis(sinStr, cosStr);
      var par, perp := Offset(b, 0.0, 0.0, ux, uy)[i], Distance(b, 0.0, 0.0, ux, uy)[i];
      par * par + perp * perp == ux[i] * ux[i] + uy[i] * uy[i] &&
      ux[i] == par * b.s0 + perp * b.n0 && uy[i] == par * b.s1 + perp * b.n1
  {
    ProjectionInverts(sinStr, cosStr, 0.0, 0.0, ux, uy, i);
    var b := StrikeBasis(sinStr, cosStr);
    var par, perp := Offset(b, 0.0, 0.0, ux, uy)[i], Distance(b, 0.0, 0.0, ux, uy)[i];
    var u, v := ux[i], uy[i];
    assert par == u * sinStr + v * cosStr && perp == u * cosStr - v * sinStr;
    assert par * par + perp * perp == (u * u + v * v) * (sinStr * sinStr + cosStr * cosStr);
  }

  /** The squares under the two sigma roots share out the squared sigmas:
      for `sin^2 + cos^2 = 1` they add up to `sigmax^2 + sigmay^2`, and
      neither is negative. */
  lemma SigmaSquaresShare(sinStr: real, cosStr: real, sx: seq<real>, sy: seq<real>, i: int)
    requires sinStr * sinStr + cosStr * cosStr == 1.0
    requires |sy| == |sx| && 0 <= i < |sx|
    ensures var perp, par := SigmaSquares(sx, sy, cosStr, sinStr)[i], SigmaSquares(sx, sy, sinStr, cosStr)[i];
      perp >= 0.0 && par >= 0.0 && perp + par == sx[i] * sx[i] + sy[i] * sy[i]
  {
    var a, c := sx[i], sy[i];
    assert (a * cosStr) * (a * cosStr) + (c * sinStr) * (c * sinStr) + (a * sinStr) * (a * sinStr) + (c * cosStr) * (c * cosStr)
        == (a * a + c * c) * (sinStr * sinStr + cosStr * cosStr);
  }
}
