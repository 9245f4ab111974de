/*
 * GNSS–InSAR cross-matching (plotPro.py): for every station of a
 * three-dimensional GNSS network, the InSAR pixels of the swath in a square
 * window around the station are summarised by their median and spread and
 * paired with the station's LOS velocity and its uncertainty.
 *
 * The window loop starts with the function `np.isnan` in the median's slot
 * and stops as soon as the slot differs from that function, which it always
 * does after one pass: the window is always the square of half-size 2000.
 * `StationWindow` models that loop as written; `IntendedHalfSize` is the
 * window that widens while the median is NaN, and `WindowStopsEarly` shows
 * the two apart.
 */
module CrossMatch {
  import opened Common
  import opened Network2d

  /** What the variable `moy_los` holds: the function `np.isnan` it starts
      with, or a median. */
  datatype Slot = IsNanFunction | Median(v: Value)

  /** One entry of the four lists `los`, `gpslos`, `sigmalos`, `gpssigmalos`. */
  datatype Match = Match(los: Value, gpslos: Value, sigmalos: Value, gpssigmalos: real)

  /** The pixels in the closed square of half-size `ws` around `(cx, cy)`:
      those the window's `np.delete` keeps. */
  function Window(xxpp: seq<real>, yypp: seq<real>, cx: real, cy: real, ws: real): (m: seq<bool>)
    requires |yypp| == |xxpp|
    ensures |m| == |xxpp|
    ensures forall i :: 0 <= i < |xxpp| ==>
      (m[i] <==> cx - ws <= xxpp[i] <= cx + ws && cy - ws <= yypp[i] <= cy + ws)
  {
    BoxMask(xxpp, yypp, Box(cx - ws, cx + ws, cy - ws, cy + ws))
  }

  /** The valid values of the pixels in a window. */
  function WindowValues(uu: seq<Value>, m: seq<bool>): seq<real>
    requires |m| == |uu|
  {
    Numbers(Keep(uu, m))
  }

  /** A window has a valid value exactly when one of its pixels is not NaN. */
  lemma WindowValid(uu: seq<Value>, m: seq<bool>)
    requires |m| == |uu|
    ensures |WindowValues(uu, m)| > 0 <==> exists i :: 0 <= i < |uu| && m[i] && uu[i].Num?
  {
    var v := Keep(uu, m);
    CountPositive(NotNaN(v));
    if |WindowValues(uu, m)| > 0 {
      var k :| 0 <= k < |v| && NotNaN(v)[k];
      KeepAt(uu, m, k);
      assert m[Kept(m)[k]] && uu[Kept(m)[k]].Num?;
    }
    if i :| 0 <= i < |uu| && m[i] && uu[i].Num? {
      KeptComplete(m, i);
      var k :| 0 <= k < |Kept(m)| && Kept(m)[k] == i;
      KeepAt(uu, m, k);
      assert NotNaN(v)[k];
    }
  }

  /** The window loop for one station: its half-size grows by 2000 while it is
      below 5000, and the loop stops once the slot holds anything but
      `np.isnan`, so after the first pass. Returns the slot, the final `ws`
      and the window of the last pass. */
  method StationWindow(uu: seq<Value>, xxpp: seq<real>, yypp: seq<real>, cx: real, cy: real, num: Numerics)
    returns (moy: Slot, ws: int, m: seq<bool>)
    requires |xxpp| == |uu| && |yypp| == |uu|
    ensures ws == 6000 && m == Window(xxpp, yypp, cx, cy, 2000.0)
    ensures moy == Median(NanMedian(num, WindowValues(uu, m)))
  {
    moy, ws, m := IsNanFunction, 0, [];
    while ws < 5000
      invariant (ws == 0 && moy == IsNanFunction) ||
                (ws == 6000 && m == Window(xxpp, yypp, cx, cy, 2000.0) && moy == Median(NanMedian(num, WindowValues(uu, m))))
      decreases 6000 - ws
    {
      ws := ws + 2000;
      m := Window(xxpp, yypp, cx, cy, ws as real);
      moy := Median(NanMedian(num, WindowValues(uu, m)));
      if moy != IsNanFunction {
        ws := 6000;
      }
    }
  }

  /** The entry of station `jj`: the median and the spread of the valid pixels
      within 2000 of the station, and the station's LOS velocity and
      uncertainty. */
  function MatchAt(uu: seq<Value>, xxpp: seq<real>, yypp: seq<real>,
                   gpsLos: seq<Value>, gpsSigma: seq<real>, xxp: seq<real>, yyp: seq<real>, num: Numerics, jj: int): Match
    requires |xxpp| == |uu| && |yypp| == |uu|
    requires |xxp| == |gpsLos| && |yyp| == |gpsLos| && |gpsSigma| == |gpsLos| && 0 <= jj < |gpsLos|
  {
    var v := WindowValues(uu, Window(xxpp, yypp, xxp[jj], yyp[jj], 2000.0));
    Match(NanMedian(num, v), gpsLos[jj], NanStd(num, v), gpsSigma[jj])
  }

  /** A station's entry has a median exactly when a valid pixel lies in the
      closed square of half-size 2000 around it; the spread is NaN exactly
      when the median is; the GNSS half is the station's own. */
  lemma MatchValid(uu: seq<Value>, xxpp: seq<real>, yypp: seq<real>,
                   gpsLos: seq<Value>, gpsSigma: seq<real>, xxp: seq<real>, yyp: seq<real>, num: Numerics, jj: int)
    requires |xxpp| == |uu| && |yypp| == |uu|
    requires |xxp| == |gpsLos| && |yyp| == |gpsLos| && |gpsSigma| == |gpsLos| && 0 <= jj < |gpsLos|
    ensures var r := MatchAt(uu, xxpp, yypp, gpsLos, gpsSigma, xxp, yyp, num, jj);
      (r.los.Num? <==> exists i :: 0 <= i < |uu| && uu[i].Num? &&
                         xxp[jj] - 2000.0 <= xxpp[i] <= xxp[jj] + 2000.0 &&
                         yyp[jj] - 2000.0 <= yypp[i] <= yyp[jj] + 2000.0) &&
      (r.sigmalos.Num? <==> r.los.Num?) &&
      r.gpslos == gpsLos[jj] && r.gpssigmalos == gpsSigma[jj]
  {
    WindowValid(uu, Window(xxpp, yypp, xxp[jj], yyp[jj], 2000.0));
  }

  /** The loop over the stations of a GNSS network: one entry per station. */
  method MatchStations(insar: Network, gps: Network, num: Numerics) returns (tuples: seq<Match>)
    requires |insar.xxpp| == |insar.uu| && |insar.yypp| == |insar.uu|
    requires |gps.xxp| == |gps.uu| && |gps.yyp| == |gps.uu| && |gps.slos| == |gps.uu|
    ensures |tuples| == |gps.uu|
    ensures forall jj :: 0 <= jj < |tuples| ==>
      tuples[jj] == MatchAt(insar.uu, insar.xxpp, insar.yypp, gps.uu, gps.slos, gps.xxp, gps.yyp, num, jj)
  {
    tuples := [];
    var jj := 0;
    while jj < |gps.uu|
      invariant 0 <= jj <= |gps.uu| && |tuples| == jj
      invariant forall k :: 0 <= k < jj ==>
        tuples[k] == MatchAt(insar.uu, insar.xxpp, insar.yypp, gps.uu, gps.slos, gps.xxp, gps.yyp, num, k)
    {
      var moy, ws, m := StationWindow(insar.uu, insar.xxpp, insar.yypp, gps.xxp[jj], gps.yyp[jj], num);
      var sigma := NanStd(num, WindowValues(insar.uu, m));
      tuples := tuples + [Match(moy.v, gps.uu[jj], sigma, gps.slos[jj])];
      jj := jj + 1;
    }
  }

  /** The entries that are plotted: those whose median is not NaN. */
  function Plotted(tuples: seq<Match>): seq<Match>
  {
    Keep(tuples, HasMedian(tuples))
  }

  /** The mask of the entries whose median is not NaN. */
  function HasMedian(tuples: seq<Match>): (m: seq<bool>)
    ensures |m| == |tuples| && forall i :: 0 <= i < |tuples| ==> (m[i] <==> tuples[i].los.Num?)
  {
    seq(|tuples|, i requires 0 <= i < |tuples| => tuples[i].los.Num?)
  }

  /** The plotted entries are exactly the entries with a median, in station
      order. */
  lemma PlottedExactly(tuples: seq<Match>)
    ensures forall t :: t in Plotted(tuples) <==> t in tuples && t.los.Num?
    ensures forall k1, k2 :: 0 <= k1 < k2 < |Plotted(tuples)| ==>
      exists i1, i2 :: 0 <= i1 < i2 < |tuples| && Plotted(tuples)[k1] == tuples[i1] && Plotted(tuples)[k2] == tuples[i2]
  {
    var m := HasMedian(tuples);
    forall t
      ensures t in Plotted(tuples) <==> t in tuples && t.los.Num?
    {
      KeepMember(tuples, m, t);
      if t in tuples && t.los.Num? {
        var i :| 0 <= i < |tuples| && tuples[i] == t;
        assert m[i];
      }
      if t in Plotted(tuples) {
        var i :| 0 <= i < |tuples| && m[i] && tuples[i] == t;
        assert t in tuples && t.los.Num?;
      }
    }
    forall k1, k2 | 0 <= k1 < k2 < |Plotted(tuples)|
      ensures exists i1, i2 :: 0 <= i1 < i2 < |tuples| && Plotted(tuples)[k1] == tuples[i1] && Plotted(tuples)[k2] == tuples[i2]
    {
      KeepAt(tuples, m, k1);
      KeepAt(tuples, m, k2);
      var i1, i2 := Kept(m)[k1], Kept(m)[k2];
      assert 0 <= i1 < i2 < |tuples| && Plotted(tuples)[k1] == tuples[i1] && Plotted(tuples)[k2] == tuples[i2];
    }
  }

  /** The cross-match of one InSAR scene with one GNSS network of a profile:
      only a three-dimensional network is matched; it yields one entry per
      station and plots those with a median. */
  method MatchNetwork(insar: Network, gps: Network, num: Numerics)
    returns (matched: bool, tuples: seq<Match>, plotted: seq<Match>)
    requires |insar.xxpp| == |insar.uu| && |insar.yypp| == |insar.uu|
    requires gps.dim == 3 ==> |gps.xxp| == |gps.uu| && |gps.yyp| == |gps.uu| && |gps.slos| == |gps.uu|
    ensures matched <==> gps.dim == 3
    ensures !matched ==> tuples == [] && plotted == []
    ensures matched ==> |tuples| == |gps.uu| && plotted == Plotted(tuples)
    ensures matched ==> forall jj :: 0 <= jj < |tuples| ==>
      tuples[jj] == MatchAt(insar.uu, insar.xxpp, insar.yypp, gps.uu, gps.slos, gps.xxp, gps.yyp, num, jj)
  {
    if gps.dim != 3 {
      return false, [], [];
    }
    tuples := MatchStations(insar, gps, num);
    matched, plotted := true, Plotted(tuples);
  }

  // ------------------------------------------------- the widening window

  /** The half-size the window loop evidently meant to reach: the first of
      2000, 4000 and 6000 whose window holds a valid pixel, and 6000 when
      none does. */
  function IntendedHalfSize(uu: seq<Value>, xxpp: seq<real>, yypp: seq<real>, cx: real, cy: real): real
    requires |xxpp| == |uu| && |yypp| == |uu|
  {
    if |WindowValues(uu, Window(xxpp, yypp, cx, cy, 2000.0))| > 0 then 2000.0
    else if |WindowValues(uu, Window(xxpp, yypp, cx, cy, 4000.0))| > 0 then 4000.0
    else 6000.0
  }

  /** A wider window keeps every pixel of a narrower one. */
  lemma WindowGrows(uu: seq<Value>, xxpp: seq<real>, yypp: seq<real>, cx: real, cy: real, w1: real, w2: real)
    requires |xxpp| == |uu| && |yypp| == |uu| && w1 <= w2
    requires |WindowValues(uu, Window(xxpp, yypp, cx, cy, w1))| > 0
    ensures |WindowValues(uu, Window(xxpp, yypp, cx, cy, w2))| > 0
  {
    WindowValid(uu, Window(xxpp, yypp, cx, cy, w1));
    WindowValid(uu, Window(xxpp, yypp, cx, cy, w2));
  }

  /** With the widening window a station's median is NaN only when no valid
      pixel lies within 6000 of it, and it agrees with the loop as written
      whenever the first window already holds a valid pixel. */
  lemma IntendedWindowValid(uu: seq<Value>, xxpp: seq<real>, yypp: seq<real>, cx: real, cy: real, num: Numerics)
    requires |xxpp| == |uu| && |yypp| == |uu|
    ensures var w := IntendedHalfSize(uu, xxpp, yypp, cx, cy);
      (NanMedian(num, WindowValues(uu, Window(xxpp, yypp, cx, cy, w))).Num? <==>
       exists i :: 0 <= i < |uu| && uu[i].Num? && cx - 6000.0 <= xxpp[i] <= cx + 6000.0 && cy - 6000.0 <= yypp[i] <= cy + 6000.0)
    ensures |WindowValues(uu, Window(xxpp, yypp, cx, cy, 2000.0))| > 0 ==> IntendedHalfSize(uu, xxpp, yypp, cx, cy) == 2000.0
  {
    var w := IntendedHalfSize(uu, xxpp, yypp, cx, cy);
    WindowValid(uu, Window(xxpp, yypp, cx, cy, 6000.0));
    if w < 6000.0 {
      WindowGrows(uu, xxpp, yypp, cx, cy, w, 6000.0);
    }
  }

  /** One valid pixel 3000 east of a station: the loop as written reports no
      median for the station, the widening window finds the pixel. */
  lemma WindowStopsEarly(num: Numerics)
    ensures MatchAt([Num(1.0)], [3000.0], [0.0], [Num(0.5)], [0.1], [0.0], [0.0], num, 0).los == NaN
    ensures IntendedHalfSize([Num(1.0)], [3000.0], [0.0], 0.0, 0.0) == 4000.0
    ensures NanMedian(num, WindowValues([Num(1.0)], Window([3000.0], [0.0], 0.0, 0.0, 4000.0))) == Num(num.median([1.0]))
  {
    var uu := [Num(1.0)];
    assert Window([3000.0], [0.0], 0.0, 0.0, 2000.0) == [false];
    assert Window([3000.0], [0.0], 0.0, 0.0, 4000.0) == [true];
    assert Keep(uu, [false]) == [];
    assert Keep(uu, [true]) == uu;
    assert Numbers(uu) == [1.0];
  }
}
