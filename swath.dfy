/*
 * The per-dataset steps of the profile loop of plotPro.py: every dataset is
 * projected onto the strike and normal directions of a profile, and only the
 * points inside the profile's swath are kept, every co-array filtered with
 * the same index set.
 */
module Swath {
  import opened Common
  import opened Model2d
  import opened Network2d
  import opened Profile

  // ------------------------------------------------------------- topography

  /** The topography step of the profile loop: `plot.ypp`, `plot.xpp` and the
      swath selection `plotxpp, plotypp, plotz`. */
  method ProjectTopo(t: Topo, b: Basis, x0: real, y0: real, l: real, w: real)
    returns (plotxpp: seq<real>, plotypp: seq<real>, plotz: seq<real>)
    requires |t.y| == |t.x| && |t.z| == |t.x|
    modifies t`ypp, t`xpp
    ensures t.ypp == Distance(b, x0, y0, t.x, t.y) && t.xpp == Offset(b, x0, y0, t.x, t.y)
    ensures var m := SwathMask(l, w, t.xpp, t.ypp);
      plotxpp == Keep(t.xpp, m) && plotypp == Keep(t.ypp, m) && plotz == Keep(t.z, m)
  {
    t.ypp := Distance(b, x0, y0, t.x, t.y);
    t.xpp := Offset(b, x0, y0, t.x, t.y);
    var m := SwathMask(l, w, t.xpp, t.ypp);
    plotxpp, plotypp, plotz := Keep(t.xpp, m), Keep(t.ypp, m), Keep(t.z, m);
  }

  // ------------------------------------------------------------- seismicity

  /** Marker sizes of the earthquakes: `(mag - min(mag)) * width * 5`, with a
      zero minimum when there is no earthquake (`nanmin` of an empty array
      raises and the handler sets `smin = 0`). */
  function MagnitudeSizes(mags: seq<real>, width: real): (r: seq<real>)
    ensures |r| == |mags|
  {
    var smin := if |mags| == 0 then 0.0 else SeqMin(mags);
    seq(|mags|, i requires 0 <= i < |mags| => MarkerSize(mags[i], smin, width))
  }

  /** The marker size of one earthquake. */
  function MarkerSize(mag: real, smin: real, width: real): real {
    (mag - smin) * width * 5.0
  }

  /** With a non-negative width no size is negative and the smallest
      earthquake gets size zero; sizes keep the order of magnitudes. */
  lemma MagnitudeSizesOrder(mags: seq<real>, width: real)
    requires width >= 0.0
    ensures forall i :: 0 <= i < |mags| ==> MagnitudeSizes(mags, width)[i] >= 0.0
    ensures |mags| > 0 ==> exists i :: 0 <= i < |mags| && MagnitudeSizes(mags, width)[i] == 0.0
    ensures forall i, j :: 0 <= i < |mags| && 0 <= j < |mags| && mags[i] <= mags[j] ==>
      MagnitudeSizes(mags, width)[i] <= MagnitudeSizes(mags, width)[j]
  {
    if |mags| > 0 {
      forall i | 0 <= i < |mags|
        ensures MagnitudeSizes(mags, width)[i] >= 0.0
      {
        SizePair(mags, width, i, i);
      }
      var i0 :| 0 <= i0 < |mags| && mags[i0] == SeqMin(mags);
      SizePair(mags, width, i0, i0);
      forall i, j | 0 <= i < |mags| && 0 <= j < |mags| && mags[i] <= mags[j]
        ensures MagnitudeSizes(mags, width)[i] <= MagnitudeSizes(mags, width)[j]
      {
        SizePair(mags, width, i, j);
      }
    }
  }

  /** The sizes of two earthquakes of the catalogue, compared. */
  lemma SizePair(mags: seq<real>, width: real, i: int, j: int)
    requires width >= 0.0 && 0 <= i < |mags| && 0 <= j < |mags|
    ensures MagnitudeSizes(mags, width)[i] >= 0.0
    ensures mags[i] == SeqMin(mags) ==> MagnitudeSizes(mags, width)[i] == 0.0
    ensures mags[i] <= mags[j] ==> MagnitudeSizes(mags, width)[i] <= MagnitudeSizes(mags, width)[j]
  {
    var smin := SeqMin(mags);
    SizeOrder(smin, mags[i], smin, width);
    if mags[i] <= mags[j] {
      SizeOrder(mags[i], mags[j], smin, width);
    }
  }

  /** The size formula is monotone in the magnitude for a non-negative width. */
  lemma SizeOrder(x: real, y: real, smin: real, width: real)
    requires x <= y && width >= 0.0
    ensures MarkerSize(x, smin, width) <= MarkerSize(y, smin, width)
    ensures x == smin ==> MarkerSize(x, smin, width) == 0.0
  {
    ScaleWeak(x - smin, y - smin, width);
  }

  /** The seismicity step of the profile loop. The coordinates are read from
      the catalogue `src` but stored on `seismi`, the catalogue the loading
      loop left in that variable: the two are the same object only for the
      last catalogue. A catalogue whose depths were never rescaled has no
      `depth` attribute, and the selection stops there. */
  method ProjectSeismicity(seismi: Seismicity, src: Seismicity, b: Basis, x0: real, y0: real, l: real, w: real, width: real)
    returns (st: Status, depth: seq<real>, size: seq<real>)
    requires |src.y| == |src.x| && |src.mag| == |src.x|
    requires src.depth.Some? ==> |src.depth.value| == |src.x|
    modifies seismi`ypp, seismi`xpp, seismi`xp, seismi`yp
    ensures seismi.ypp == Distance(b, x0, y0, src.x, src.y) && seismi.xpp == Offset(b, x0, y0, src.x, src.y)
    ensures st.Ok? <==> src.depth.Some?
    ensures st.Stop? ==> st.crash == MissingAttribute && seismi.xp == old(seismi.xp) && seismi.yp == old(seismi.yp)
    ensures st.Ok? ==> var m := SwathMask(l, w, seismi.xpp, seismi.ypp);
      seismi.xp == Keep(seismi.xpp, m) && seismi.yp == Keep(seismi.ypp, m) &&
      depth == Keep(src.depth.value, m) && size == MagnitudeSizes(Keep(src.mag, m), width)
  {
    var xs, ys, mag, dep := src.x, src.y, src.mag, src.depth;
    seismi.ypp := Distance(b, x0, y0, xs, ys);
    seismi.xpp := Offset(b, x0, y0, xs, ys);
    var m := SwathMask(l, w, seismi.xpp, seismi.ypp);
    if dep.None? {
      return Stop(MissingAttribute), [], [];
    }
    seismi.xp, seismi.yp := Keep(seismi.xpp, m), Keep(seismi.ypp, m);
    depth := Keep(dep.value, m);
    size := MagnitudeSizes(Keep(mag, m), width);
    st := Ok;
  }

  // ------------------------------------------------------------- networks

  /** `ypp`, `xpp` of a GNSS network or an InSAR scene. */
  method ProjectNetwork(g: Network, b: Basis, x0: real, y0: real)
    requires |g.y| == |g.x|
    modifies g`ypp, g`xpp
    ensures g.ypp == Distance(b, x0, y0, old(g.x), old(g.y)) && g.xpp == Offset(b, x0, y0, old(g.x), old(g.y))
  {
    g.ypp := Distance(b, x0, y0, g.x, g.y);
    g.xpp := Offset(b, x0, y0, g.x, g.y);
  }

  /** What the GNSS step needs of a loaded network: one entry per station in
      every column it filters. */
  predicate GpsColumnsAligned(g: Network)
    reads g`x, g`y, g`ux, g`uy, g`sigmax, g`sigmay, g`dim, g`ulos, g`sigmalos, g`uv, g`sigmav
  {
    |g.y| == |g.x| && |g.ux| == |g.x| && |g.uy| == |g.x| && |g.sigmax| == |g.x| && |g.sigmay| == |g.x| &&
    (g.dim == 3 ==> |g.ulos| == |g.x| && |g.sigmalos| == |g.x| &&
                    (g.uv.Some? ==> |g.uv.value| == |g.x|) && (g.sigmav.Some? ==> |g.sigmav.value| == |g.x|))
  }

  /** The GNSS step of the profile loop: profile coordinates, the swath
      selection of every column with one mask, parallel and perpendicular
      components, and for a three-dimensional network the vertical and LOS
      columns (a network without them stops the run). */
  method ProjectGps(g: Network, b: Basis, x0: real, y0: real, l: real, w: real, num: Numerics) returns (st: Status)
    requires GpsColumnsAligned(g)
    modifies g`ypp, g`xpp, g`uux, g`uuy, g`sigmaxx, g`sigmayy, g`xx, g`yy, g`xxp, g`yyp
    modifies g`upar, g`uperp, g`sigmaperp, g`sigmapar, g`uuv, g`sigmavv, g`uu, g`slos
    ensures g.ypp == Distance(b, x0, y0, old(g.x), old(g.y)) && g.xpp == Offset(b, x0, y0, old(g.x), old(g.y))
    ensures st.Ok? <==> old(g.dim) != 3 || (old(g.uv).Some? && old(g.sigmav).Some?)
    ensures st.Stop? ==> st.crash == MissingAttribute
    ensures var m := SwathMask(l, w, g.xpp, g.ypp);
      GpsMotionSelected(m, old(g.ux), old(g.uy), old(g.sigmax), old(g.sigmay), g.uux, g.uuy, g.sigmaxx, g.sigmayy) &&
      GpsPlaceSelected(m, old(g.x), old(g.y), g.xpp, g.ypp, g.xx, g.yy, g.xxp, g.yyp) &&
      GpsComponentsSet(b, num, g.uux, g.uuy, g.sigmaxx, g.sigmayy, g.upar, g.uperp, g.sigmaperp, g.sigmapar) &&
      (st.Ok? && old(g.dim) == 3 ==> GpsVerticalSelected(m, old(g.uv), old(g.sigmav), old(g.ulos), old(g.sigmalos), g.uuv, g.sigmavv, g.uu, g.slos))
  {
    ProjectNetwork(g, b, x0, y0);
    var m := SwathMask(l, w, g.xpp, g.ypp);
    st := SelectGps(g, m, b, num);
  }

  /** The swath selection and what is derived from it; the vertical columns
      come last, as in the source. */
  method SelectGps(g: Network, m: seq<bool>, b: Basis, num: Numerics) returns (st: Status)
    requires GpsColumnsAligned(g) && |m| == |g.x| && |g.xpp| == |g.x| && |g.ypp| == |g.x|
    modifies g`uux, g`uuy, g`sigmaxx, g`sigmayy, g`xx, g`yy, g`xxp, g`yyp
    modifies g`upar, g`uperp, g`sigmaperp, g`sigmapar, g`uuv, g`sigmavv, g`uu, g`slos
    ensures st.Ok? <==> old(g.dim) != 3 || (old(g.uv).Some? && old(g.sigmav).Some?)
    ensures st.Stop? ==> st.crash == MissingAttribute
    ensures GpsMotionSelected(m, old(g.ux), old(g.uy), old(g.sigmax), old(g.sigmay), g.uux, g.uuy, g.sigmaxx, g.sigmayy)
    ensures GpsPlaceSelected(m, old(g.x), old(g.y), old(g.xpp), old(g.ypp), g.xx, g.yy, g.xxp, g.yyp)
    ensures GpsComponentsSet(b, num, g.uux, g.uuy, g.sigmaxx, g.sigmayy, g.upar, g.uperp, g.sigmaperp, g.sigmapar)
    ensures st.Ok? && old(g.dim) == 3 ==> GpsVerticalSelected(m, old(g.uv), old(g.sigmav), old(g.ulos), old(g.sigmalos), g.uuv, g.sigmavv, g.uu, g.slos)
  {
    SelectGpsColumns(g, m, b, num);
    st := SelectGpsVertical(g, m);
  }

  /** The horizontal columns in the swath and their components. */
  method SelectGpsColumns(g: Network, m: seq<bool>, b: Basis, num: Numerics)
    requires |g.ux| == |m| && |g.uy| == |m| && |g.sigmax| == |m| && |g.sigmay| == |m|
    requires |g.x| == |m| && |g.y| == |m| && |g.xpp| == |m| && |g.ypp| == |m|
    modifies g`uux, g`uuy, g`sigmaxx, g`sigmayy, g`xx, g`yy, g`xxp, g`yyp
    modifies g`upar, g`uperp, g`sigmaperp, g`sigmapar
    ensures GpsMotionSelected(m, old(g.ux), old(g.uy), old(g.sigmax), old(g.sigmay), g.uux, g.uuy, g.sigmaxx, g.sigmayy)
    ensures GpsPlaceSelected(m, old(g.x), old(g.y), old(g.xpp), old(g.ypp), g.xx, g.yy, g.xxp, g.yyp)
    ensures GpsComponentsSet(b, num, g.uux, g.uuy, g.sigmaxx, g.sigmayy, g.upar, g.uperp, g.sigmaperp, g.sigmapar)
  {
    SelectGpsMotion(g, m);
    DeriveGpsColumns(g, m, b, num);
  }

  /** The positions in the swath, then the components of the velocities. */
  method DeriveGpsColumns(g: Network, m: seq<bool>, b: Basis, num: Numerics)
    requires |g.x| == |m| && |g.y| == |m| && |g.xpp| == |m| && |g.ypp| == |m|
    requires |g.uuy| == |g.uux| && |g.sigmayy| == |g.sigmaxx|
    modifies g`xx, g`yy, g`xxp, g`yyp, g`upar, g`uperp, g`sigmaperp, g`sigmapar
    ensures GpsPlaceSelected(m, old(g.x), old(g.y), old(g.xpp), old(g.ypp), g.xx, g.yy, g.xxp, g.yyp)
    ensures GpsComponentsSet(b, num, old(g.uux), old(g.uuy), old(g.sigmaxx), old(g.sigmayy), g.upar, g.uperp, g.sigmaperp, g.sigmapar)
  {
    SelectGpsPlace(g, m);
    SetGpsComponents(g, b, num);
  }

  method SelectGpsMotion(g: Network, m: seq<bool>)
    requires |g.ux| == |m| && |g.uy| == |m| && |g.sigmax| == |m| && |g.sigmay| == |m|
    modifies g`uux, g`uuy, g`sigmaxx, g`sigmayy
    ensures GpsMotionSelected(m, old(g.ux), old(g.uy), old(g.sigmax), old(g.sigmay), g.uux, g.uuy, g.sigmaxx, g.sigmayy)
  {
    g.uux, g.uuy := Keep(g.ux, m), Keep(g.uy, m);
    g.sigmaxx, g.sigmayy := Keep(g.sigmax, m), Keep(g.sigmay, m);
  }

  method SelectGpsPlace(g: Network, m: seq<bool>)
    requires |g.x| == |m| && |g.y| == |m| && |g.xpp| == |m| && |g.ypp| == |m|
    modifies g`xx, g`yy, g`xxp, g`yyp
    ensures GpsPlaceSelected(m, old(g.x), old(g.y), old(g.xpp), old(g.ypp), g.xx, g.yy, g.xxp, g.yyp)
  {
    g.xx, g.yy := Keep(g.x, m), Keep(g.y, m);
    g.xxp, g.yyp := Keep(g.xpp, m), Keep(g.ypp, m);
  }

  method SetGpsComponents(g: Network, b: Basis, num: Numerics)
    requires |g.uuy| == |g.uux| && |g.sigmayy| == |g.sigmaxx|
    modifies g`upar, g`uperp, g`sigmaperp, g`sigmapar
    ensures GpsComponentsSet(b, num, old(g.uux), old(g.uuy), old(g.sigmaxx), old(g.sigmayy), g.upar, g.uperp, g.sigmaperp, g.sigmapar)
  {
    g.upar := Offset(b, 0.0, 0.0, g.uux, g.uuy);
    g.uperp := Distance(b, 0.0, 0.0, g.uux, g.uuy);
    g.sigmaperp := Roots(num, SigmaSquares(g.sigmaxx, g.sigmayy, b.s1, b.s0));
    g.sigmapar := Roots(num, SigmaSquares(g.sigmaxx, g.sigmayy, b.s0, b.s1));
  }

  /** `if 3 == gps.dim`: the vertical velocities and sigmas and the LOS
      columns of the stations in the swath. */
  method SelectGpsVertical(g: Network, m: seq<bool>) returns (st: Status)
    requires g.dim == 3 ==> (|g.ulos| == |m| && |g.sigmalos| == |m| &&
      (g.uv.Some? ==> |g.uv.value| == |m|) && (g.sigmav.Some? ==> |g.sigmav.value| == |m|))
    modifies g`uuv, g`sigmavv, g`uu, g`slos
    ensures st.Ok? <==> old(g.dim) != 3 || (old(g.uv).Some? && old(g.sigmav).Some?)
    ensures st.Stop? ==> st.crash == MissingAttribute
    ensures st.Ok? && old(g.dim) == 3 ==> GpsVerticalSelected(m, old(g.uv), old(g.sigmav), old(g.ulos), old(g.sigmalos), g.uuv, g.sigmavv, g.uu, g.slos)
  {
    if g.dim == 3 {
      if g.uv.None? || g.sigmav.None? {
        return Stop(MissingAttribute);
      }
      g.uuv, g.sigmavv := Keep(g.uv.value, m), Keep(g.sigmav.value, m);
      g.uu, g.slos := Keep(g.ulos, m), Keep(g.sigmalos, m);
    }
    return Ok;
  }


  // ------------------------------------------------------------- InSAR

  /** The InSAR pixels in the swath: `uu`, `xx`, `yy`, `xxpp`, `yypp`. */
  predicate InsarSelected(s: Network, m: seq<bool>)
    reads s
  {
    |s.ulos| == |m| && |s.x| == |m| && |s.y| == |m| && |s.xpp| == |m| && |s.ypp| == |m| &&
    s.uu == Keep(s.ulos, m) && s.xx == Keep(s.x, m) && s.yy == Keep(s.y, m) &&
    s.xxpp == Keep(s.xpp, m) && s.yypp == Keep(s.ypp, m)
  }

  /** The InSAR step of the profile loop: profile coordinates and the swath
      selection of every column with one mask. */
  method ProjectInsar(s: Network, b: Basis, x0: real, y0: real, l: real, w: real)
    requires |s.y| == |s.x| && |s.ulos| == |s.x|
    modifies s`ypp, s`xpp, s`uu, s`xx, s`yy, s`xxpp, s`yypp
    ensures s.ypp == Distance(b, x0, y0, s.x, s.y) && s.xpp == Offset(b, x0, y0, s.x, s.y)
    ensures InsarSelected(s, SwathMask(l, w, s.xpp, s.ypp))
  {
    ProjectNetwork(s, b, x0, y0);
    var m := SwathMask(l, w, s.xpp, s.ypp);
    s.uu, s.xx, s.yy := Keep(s.ulos, m), Keep(s.x, m), Keep(s.y, m);
    s.xxpp, s.yypp := Keep(s.xpp, m), Keep(s.ypp, m);
  }
}
