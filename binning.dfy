/*
 * Binning along a profile (plotPro.py): the points of the swath are grouped
 * by their distance along the profile line with `np.digitize`, and every bin
 * that holds enough points is summarised at the bin's centre.
 *
 * The loop over bins pairs the centre of `[bins[j], bins[j+1])` with the
 * points `np.digitize` numbers `j`, which are those of the interval below,
 * `[bins[j-1], bins[j])`. The model bins as the program does (`BinMembers`);
 * `CentredMembers` is the grouping that matches the plotted centres, and
 * `AsWrittenMisplacesPoints` shows the two apart.
 */
module Binning {
  import opened Common
  import opened Model2d
  import opened Network2d
  import opened Swath
  import opened Profile

  /** The bin width `nb`: the profile's own, or when it has none, the width
      that gives one bin per hundred of the `n` points first binned
      (`l / (n/100)`, a division by zero when there is no point). */
  function BinWidth(nb: Option<real>, l: real, n: nat): (r: Outcome<real>)
    ensures r.Fail? <==> nb.None? && n == 0
    ensures r.Fail? ==> r.crash == ZeroDivision
    ensures r.Done? && nb.Some? ==> r.value == nb.value
    ensures r.Done? && nb.None? ==> r.value * (n as real) == 100.0 * l
  {
    if nb.Some? then Done(nb.value)
    else if n == 0 then Fail(ZeroDivision)
    else Done(l / (n as real / 100.0))
  }

  /** The number of bins `range(len(bins) - 1)` visits. */
  function BinCount(bins: seq<real>): nat
  {
    if |bins| == 0 then 0 else |bins| - 1
  }

  /** `bins[j] + (bins[j+1] - bins[j])/2`, the distance a bin is plotted at:
      equally far from both edges of `[bins[j], bins[j+1]]`. */
  function Centre(bins: seq<real>, j: int): (c: real)
    requires 0 <= j < |bins| - 1
    ensures c - bins[j] == bins[j + 1] - c
  {
    bins[j] + (bins[j + 1] - bins[j]) / 2.0
  }

  /** Centres of increasing edges increase with the bin. */
  lemma CentreIncreasing(bins: seq<real>, j: int, i: int)
    requires StrictlyIncreasing(bins) && 0 <= j < i < |bins| - 1
    ensures Centre(bins, j) < Centre(bins, i)
  {
    assert Centre(bins, j) < bins[j + 1] <= bins[i] <= Centre(bins, i);
  }

  /** `np.flatnonzero(inds == j)` as a mask, with `inds = np.digitize(ypp, bins)`. */
  function DigitizedAs(ypp: seq<real>, bins: seq<real>, j: int): (m: seq<bool>)
    ensures |m| == |ypp| && forall i :: 0 <= i < |ypp| ==> (m[i] <==> Digitize(ypp[i], bins) == j)
  {
    seq(|ypp|, i requires 0 <= i < |ypp| => Digitize(ypp[i], bins) == j)
  }

  /** The points the loop averages into the bin it plots at `Centre(bins, j)`:
      those `np.digitize` numbers `j`. */
  function BinMembers(ypp: seq<real>, bins: seq<real>, j: int): (m: seq<bool>)
    ensures |m| == |ypp|
  {
    DigitizedAs(ypp, bins, j)
  }

  /** For increasing edges the points of a bin are those of the interval
      below the bin's lower edge (everything below the first edge for the
      first bin), so none of them lies in the interval the bin is plotted at. */
  lemma BinMembersInterval(ypp: seq<real>, bins: seq<real>, j: int)
    requires StrictlyIncreasing(bins) && 0 <= j < |bins| - 1
    ensures forall i :: 0 <= i < |ypp| ==>
      (BinMembers(ypp, bins, j)[i] <==> (j == 0 || bins[j - 1] <= ypp[i]) && ypp[i] < bins[j])
    ensures forall i :: 0 <= i < |ypp| && BinMembers(ypp, bins, j)[i] ==> ypp[i] < Centre(bins, j) - (bins[j + 1] - bins[j]) / 2.0
  {
    forall i | 0 <= i < |ypp|
      ensures BinMembers(ypp, bins, j)[i] <==> (j == 0 || bins[j - 1] <= ypp[i]) && ypp[i] < bins[j]
    {
      DigitizeInterval(ypp[i], bins, j);
    }
  }

  /** The points that belong to the bin plotted at `Centre(bins, j)`: those
      `np.digitize` numbers `j + 1`. */
  function CentredMembers(ypp: seq<real>, bins: seq<real>, j: int): (m: seq<bool>)
    ensures |m| == |ypp|
  {
    DigitizedAs(ypp, bins, j + 1)
  }

  /** For increasing edges a centred bin holds exactly the points of its
      half-open interval, none of them more than half a bin width from the
      centre it is plotted at. */
  lemma CentredMembersInterval(ypp: seq<real>, bins: seq<real>, j: int)
    requires StrictlyIncreasing(bins) && 0 <= j < |bins| - 1
    ensures forall i :: 0 <= i < |ypp| ==>
      (CentredMembers(ypp, bins, j)[i] <==> bins[j] <= ypp[i] < bins[j + 1])
    ensures forall i :: 0 <= i < |ypp| && CentredMembers(ypp, bins, j)[i] ==>
      -(bins[j + 1] - bins[j]) / 2.0 <= ypp[i] - Centre(bins, j) < (bins[j + 1] - bins[j]) / 2.0
  {
    forall i | 0 <= i < |ypp|
      ensures CentredMembers(ypp, bins, j)[i] <==> bins[j] <= ypp[i] < bins[j + 1]
    {
      DigitizeInterval(ypp[i], bins, j + 1);
    }
  }

  /** A profile of length 4 with topography bins of width 1 (`nb = 2`): the
      edges are `np.arange(-2, 2, 1)`. A point at -1.5 is averaged into the bin
      plotted at -0.5, and a point at 0.5 into none of the three bins, while
      the intended bins are those centred at -1.5 and 0.5. */
  lemma AsWrittenMisplacesPoints()
    ensures Arange(-2.0, 2.0, 1.0) == Done([-2.0, -1.0, 0.0, 1.0])
    ensures var bins := [-2.0, -1.0, 0.0, 1.0];
      BinMembers([-1.5], bins, 1) == [true] && Centre(bins, 1) == -0.5 &&
      BinMembers([0.5], bins, 0) == [false] && BinMembers([0.5], bins, 1) == [false] &&
      BinMembers([0.5], bins, 2) == [false] &&
      CentredMembers([-1.5], bins, 0) == [true] && Centre(bins, 0) == -1.5 &&
      CentredMembers([0.5], bins, 2) == [true] && Centre(bins, 2) == 0.5
  {
    var bins := [-2.0, -1.0, 0.0, 1.0];
    assert Ceil((2.0 - -2.0) / 1.0) == 4;
    assert Arange(-2.0, 2.0, 1.0).value == bins;
    assert bins[1..] == [-1.0, 0.0, 1.0] && bins[1..][1..] == [0.0, 1.0] && bins[1..][1..][1..] == [1.0];
    assert Digitize(-1.5, bins[1..]) == 0;
    assert Digitize(-1.5, bins) == 1;
    assert Digitize(0.5, bins[1..][1..][1..]) == 0;
    assert Digitize(0.5, bins[1..][1..]) == 1;
    assert Digitize(0.5, bins[1..]) == 2;
    assert Digitize(0.5, bins) == 3;
  }

  // ------------------------------------------------------------- topography

  /** What the topography loop collects: a distance, a median height and a
      standard deviation per non-empty bin. */
  datatype TopoProfile = TopoProfile(distance: seq<real>, moy: seq<real>, std: seq<real>)

  /** The loop over the first `n` bins. */
  function TopoUpTo(bins: seq<real>, ypp: seq<real>, z: seq<real>, num: Numerics, n: nat): (r: TopoProfile)
    requires |z| == |ypp| && n <= BinCount(bins)
    ensures |r.distance| == |r.moy| == |r.std| <= n
  {
    if n == 0 then TopoProfile([], [], [])
    else
      var prev := TopoUpTo(bins, ypp, z, num, n - 1);
      var uu := BinMembers(ypp, bins, n - 1);
      if Count(uu) > 0 then
        var h := Keep(z, uu);
        TopoProfile(prev.distance + [Centre(bins, n - 1)], prev.moy + [num.median(h)], prev.std + [num.std(h)])
      else prev
  }

  /** Entry `k` of a topography profile summarises bin `j`: it sits at the
      bin's centre, the bin holds a point, and the entry has the median and
      the spread of the bin's heights. */
  predicate TopoEntry(bins: seq<real>, ypp: seq<real>, z: seq<real>, num: Numerics, r: TopoProfile, k: int, j: int)
    requires |z| == |ypp|
  {
    0 <= j < BinCount(bins) && 0 <= k < |r.distance| && |r.moy| == |r.distance| && |r.std| == |r.distance| &&
    r.distance[k] == Centre(bins, j) && Count(BinMembers(ypp, bins, j)) > 0 &&
    r.moy[k] == num.median(Keep(z, BinMembers(ypp, bins, j))) &&
    r.std[k] == num.std(Keep(z, BinMembers(ypp, bins, j)))
  }

  /** Entry `k` of a topography profile summarises one of the first `n` bins. */
  predicate TopoEntryBelow(bins: seq<real>, ypp: seq<real>, z: seq<real>, num: Numerics, r: TopoProfile, k: int, n: int)
    requires |z| == |ypp|
  {
    exists j :: 0 <= j < n && TopoEntry(bins, ypp, z, num, r, k, j)
  }

  /** Every entry of the topography profile summarises one of the first `n`
      bins, and every occupied one of them has an entry. */
  lemma {:induction false} TopoProfileEntries(bins: seq<real>, ypp: seq<real>, z: seq<real>, num: Numerics, n: nat)
    requires |z| == |ypp| && n <= BinCount(bins)
    ensures forall k :: 0 <= k < |TopoUpTo(bins, ypp, z, num, n).distance| ==>
      TopoEntryBelow(bins, ypp, z, num, TopoUpTo(bins, ypp, z, num, n), k, n)
    ensures forall j :: 0 <= j < n && Count(BinMembers(ypp, bins, j)) > 0 ==>
      Centre(bins, j) in TopoUpTo(bins, ypp, z, num, n).distance
  {
    if n > 0 {
      var m := n - 1;
      TopoProfileEntries(bins, ypp, z, num, m);
      var prev := TopoUpTo(bins, ypp, z, num, m);
      var r := TopoUpTo(bins, ypp, z, num, n);
      if Count(BinMembers(ypp, bins, n - 1)) > 0 {
        forall k | 0 <= k < |r.distance|
          ensures TopoEntryBelow(bins, ypp, z, num, r, k, n)
        {
          if k < |prev.distance| {
            assert TopoEntryBelow(bins, ypp, z, num, prev, k, m);
            var j :| 0 <= j < m && TopoEntry(bins, ypp, z, num, prev, k, j);
            assert r.distance[k] == prev.distance[k] && r.moy[k] == prev.moy[k] && r.std[k] == prev.std[k];
            assert TopoEntry(bins, ypp, z, num, r, k, j);
          } else {
            assert TopoEntry(bins, ypp, z, num, r, k, n - 1);
          }
        }
      } else {
        forall k | 0 <= k < |r.distance|
          ensures TopoEntryBelow(bins, ypp, z, num, r, k, n)
        {
          assert TopoEntryBelow(bins, ypp, z, num, prev, k, m);
          var j :| 0 <= j < m && TopoEntry(bins, ypp, z, num, prev, k, j);
        }
      }
    }
  }

  /** For increasing edges the distances of the topography profile increase. */
  lemma {:induction false} TopoProfileIncreasing(bins: seq<real>, ypp: seq<real>, z: seq<real>, num: Numerics, n: nat)
    requires StrictlyIncreasing(bins) && |z| == |ypp| && n <= BinCount(bins)
    ensures StrictlyIncreasing(TopoUpTo(bins, ypp, z, num, n).distance)
  {
    if n > 0 {
      var m := n - 1;
      TopoProfileIncreasing(bins, ypp, z, num, m);
      var prev := TopoUpTo(bins, ypp, z, num, m);
      if Count(BinMembers(ypp, bins, m)) > 0 {
        TopoProfileEntries(bins, ypp, z, num, m);
        var c := Centre(bins, n - 1);
        forall k | 0 <= k < |prev.distance|
          ensures prev.distance[k] < c
        {
          assert TopoEntryBelow(bins, ypp, z, num, prev, k, m);
          var j :| 0 <= j < m && TopoEntry(bins, ypp, z, num, prev, k, j);
          CentreIncreasing(bins, j, n - 1);
        }
        IncreasingSnoc(prev.distance, c);
      }
    }
  }

  /** The loop over the bins of one topography dataset. */
  method BinTopo(bins: seq<real>, ypp: seq<real>, z: seq<real>, num: Numerics) returns (r: TopoProfile)
    requires |z| == |ypp|
    ensures r == TopoUpTo(bins, ypp, z, num, BinCount(bins))
  {
    r := TopoProfile([], [], []);
    var j := 0;
    while j < BinCount(bins)
      invariant 0 <= j <= BinCount(bins)
      invariant r == TopoUpTo(bins, ypp, z, num, j)
    {
      var uu := BinMembers(ypp, bins, j);
      if Count(uu) > 0 {
        var h := Keep(z, uu);
        r := TopoProfile(r.distance + [Centre(bins, j)], r.moy + [num.median(h)], r.std + [num.std(h)]);
      }
      j := j + 1;
    }
  }

  /** One topography dataset of a profile: projection and swath selection,
      then the binning of the selected points. */
  method ProfileTopo(t: Topo, b: Basis, x0: real, y0: real, l: real, w: real, nb: Option<real>, num: Numerics)
    returns (st: Status, nbOut: Option<real>, r: TopoProfile)
    requires |t.y| == |t.x| && |t.z| == |t.x|
    modifies t`ypp, t`xpp
    ensures t.ypp == Distance(b, x0, y0, t.x, t.y) && t.xpp == Offset(b, x0, y0, t.x, t.y)
    ensures var m := SwathMask(l, w, t.xpp, t.ypp);
      TopoBinned(Keep(t.ypp, m), Keep(t.z, m), l, nb, num, st, nbOut, r)
  {
    var plotxpp, plotypp, plotz := ProjectTopo(t, b, x0, y0, l, w);
    st, nbOut, r := BinTopoColumns(plotypp, plotz, l, nb, num);
  }

  /** What binning the heights `z` at distances `ypp` reports: it stops
      exactly when the bin width is undefined or zero; otherwise it hands the
      width on as `nbOut` and `r` is the loop over the edges every half bin
      width from `-l/2` to `l/2`. */
  predicate TopoBinned(ypp: seq<real>, z: seq<real>, l: real, nb: Option<real>, num: Numerics,
                       st: Status, nbOut: Option<real>, r: TopoProfile)
    requires |z| == |ypp|
  {
    var width := BinWidth(nb, l, |z|);
    (st.Ok? <==> width.Done? && width.value != 0.0) &&
    (st.Stop? ==> st.crash == ZeroDivision) &&
    nbOut == (if width.Done? then Some(width.value) else nb) &&
    (st.Ok? ==> (var bins := Arange(-l / 2.0, l / 2.0, width.value / 2.0).value;
                 r == TopoUpTo(bins, ypp, z, num, BinCount(bins))))
  }

  /** The binning of one topography dataset: the bin width (computed from this
      dataset when the profile has none yet, and handed on to the next
      datasets), edges every half bin width from `-l/2` to `l/2`, and the bin
      loop. */
  method BinTopoColumns(ypp: seq<real>, z: seq<real>, l: real, nb: Option<real>, num: Numerics)
    returns (st: Status, nbOut: Option<real>, r: TopoProfile)
    requires |z| == |ypp|
    ensures TopoBinned(ypp, z, l, nb, num, st, nbOut, r)
  {
    var width := BinWidth(nb, l, |z|);
    if width.Fail? {
      return Stop(width.crash), nb, TopoProfile([], [], []);
    }
    nbOut := Some(width.value);
    var bins := Arange(-l / 2.0, l / 2.0, width.value / 2.0);
    if bins.Fail? {
      return Stop(bins.crash), nbOut, TopoProfile([], [], []);
    }
    r := BinTopo(bins.value, ypp, z, num);
    st := Ok;
  }

  // ------------------------------------------------------------- InSAR

  /** `np.logical_and(_los > np.percentile(_los, 100 - perc), _los < np.percentile(_los, perc))`:
      the values strictly inside the central percentile band. */
  function Clip(num: Numerics, los: seq<real>, perc: real): (m: seq<bool>)
    ensures |m| == |los| && forall i :: 0 <= i < |los| ==>
      (m[i] <==> num.percentile(los, 100.0 - perc) < los[i] < num.percentile(los, perc))
  {
    seq(|los|, i requires 0 <= i < |los| =>
      num.percentile(los, 100.0 - perc) < los[i] && los[i] < num.percentile(los, perc))
  }

  /** What one InSAR bin contributes: its centre, the median and spread of
      the clipped values, and the clipped pixels themselves. */
  datatype InsarBin = InsarBin(distance: real, moy: Value, std: Value, xperp: seq<real>, yperp: seq<real>, los: seq<real>)

  /** The valid (non-NaN) values of a bin, in pixel order. */
  function BinValues(uu: seq<Value>, yypp: seq<real>, bins: seq<real>, j: int): (r: seq<real>)
    requires |yypp| == |uu|
    ensures |r| == Count(NotNaN(Keep(uu, BinMembers(yypp, bins, j))))
  {
    Numbers(Keep(uu, BinMembers(yypp, bins, j)))
  }

  /** The body of the InSAR bin loop: the bin's pixels without NaN, and when
      more than ten remain, the summary of those inside the percentile band. */
  function InsarBinAt(uu: seq<Value>, xxpp: seq<real>, yypp: seq<real>, bins: seq<real>, perc: real, num: Numerics, j: int)
    : (r: Option<InsarBin>)
    requires |xxpp| == |uu| && |yypp| == |uu| && 0 <= j < BinCount(bins)
    ensures r.Some? ==> r.value.distance == Centre(bins, j)
    ensures r.Some? ==> |r.value.xperp| == |r.value.los| && |r.value.yperp| == |r.value.los|
  {
    var m := BinMembers(yypp, bins, j);
    var vals := Keep(uu, m);
    var valid := NotNaN(vals);
    var los := Numbers(vals);
    if |los| > 10 then
      var xp, yp := Keep(Keep(xxpp, m), valid), Keep(Keep(yypp, m), valid);
      var clip := Clip(num, los, perc);
      var kept := Keep(los, clip);
      Some(InsarBin(Centre(bins, j), NanMedian(num, kept), NanStd(num, kept), Keep(xp, clip), Keep(yp, clip), kept))
    else None
  }

  /** A bin is summarised exactly when more than ten of its pixels are valid. */
  lemma InsarBinEmitted(uu: seq<Value>, xxpp: seq<real>, yypp: seq<real>, bins: seq<real>, perc: real, num: Numerics, j: int)
    requires |xxpp| == |uu| && |yypp| == |uu| && 0 <= j < BinCount(bins)
    ensures InsarBinAt(uu, xxpp, yypp, bins, perc, num, j).Some? <==>
      Count(And(BinMembers(yypp, bins, j), NotNaN(uu))) > 10
  {
    var m := BinMembers(yypp, bins, j);
    NotNaNKeep(uu, m);
    KeepKeep(uu, m, NotNaN(uu));
  }

  /** Every pixel a bin keeps is a valid input pixel of the bin's interval,
      with its own coordinates, strictly inside the percentile band of the
      bin's valid values. */
  lemma InsarBinPoint(uu: seq<Value>, xxpp: seq<real>, yypp: seq<real>, bins: seq<real>, perc: real, num: Numerics, j: int, k: int)
    requires StrictlyIncreasing(bins)
    requires |xxpp| == |uu| && |yypp| == |uu| && 0 <= j < BinCount(bins)
    requires InsarBinAt(uu, xxpp, yypp, bins, perc, num, j).Some?
    requires 0 <= k < |InsarBinAt(uu, xxpp, yypp, bins, perc, num, j).value.los|
    ensures var r := InsarBinAt(uu, xxpp, yypp, bins, perc, num, j).value;
      var v := BinValues(uu, yypp, bins, j);
      num.percentile(v, 100.0 - perc) < r.los[k] < num.percentile(v, perc) &&
      exists i :: 0 <= i < |uu| && uu[i] == Num(r.los[k]) && r.xperp[k] == xxpp[i] && r.yperp[k] == yypp[i] &&
        (j == 0 || bins[j - 1] <= yypp[i]) && yypp[i] < bins[j]
  {
    var m := BinMembers(yypp, bins, j);
    var vals := Keep(uu, m);
    var valid := NotNaN(vals);
    var los := Numbers(vals);
    var xp, yp := Keep(Keep(xxpp, m), valid), Keep(Keep(yypp, m), valid);
    var clip := Clip(num, los, perc);
    // the k-th kept pixel is the k1-th valid one, the k2-th in the bin, the i-th overall
    KeepAt(los, clip, k);
    KeepAt(xp, clip, k);
    KeepAt(yp, clip, k);
    var k1 := Kept(clip)[k];
    NumbersIsKeep(vals);
    KeepAt(vals, valid, k1);
    KeepAt(Keep(xxpp, m), valid, k1);
    KeepAt(Keep(yypp, m), valid, k1);
    var k2 := Kept(valid)[k1];
    KeepAt(uu, m, k2);
    KeepAt(xxpp, m, k2);
    KeepAt(yypp, m, k2);
    var i := Kept(m)[k2];
    BinMembersInterval(yypp, bins, j);
    assert uu[i] == Num(los[k1]);
  }

  /** What the InSAR loop collects over its bins (`insar.distance`,
      `insar.moy_los`, `insar.std_los`, and the concatenated `insar.xperp`,
      `insar.yperp`, `insar.uulos`). */
  datatype InsarProfile = InsarProfile(distance: seq<real>, moy: seq<Value>, std: seq<Value>,
                                       xperp: seq<real>, yperp: seq<real>, uulos: seq<real>)

  /** The loop over the first `n` bins. */
  function InsarUpTo(uu: seq<Value>, xxpp: seq<real>, yypp: seq<real>, bins: seq<real>, perc: real, num: Numerics, n: nat)
    : (r: InsarProfile)
    requires |xxpp| == |uu| && |yypp| == |uu| && n <= BinCount(bins)
    ensures |r.distance| == |r.moy| == |r.std| <= n
    ensures |r.xperp| == |r.uulos| && |r.yperp| == |r.uulos|
  {
    if n == 0 then InsarProfile([], [], [], [], [], [])
    else AddBin(InsarUpTo(uu, xxpp, yypp, bins, perc, num, n - 1), InsarBinAt(uu, xxpp, yypp, bins, perc, num, n - 1))
  }

  /** One pass of the bin loop: a summarised bin appends its entry and its
      pixels, an unsummarised one changes nothing. */
  function AddBin(prev: InsarProfile, b: Option<InsarBin>): (r: InsarProfile)
    ensures b.None? ==> r == prev
    ensures b.Some? ==> (r.distance == prev.distance + [b.value.distance] && r.moy == prev.moy + [b.value.moy] &&
                         r.std == prev.std + [b.value.std] && r.xperp == prev.xperp + b.value.xperp &&
                         r.yperp == prev.yperp + b.value.yperp && r.uulos == prev.uulos + b.value.los)
  {
    if b.Some? then
      InsarProfile(prev.distance + [b.value.distance], prev.moy + [b.value.moy], prev.std + [b.value.std],
                   prev.xperp + b.value.xperp, prev.yperp + b.value.yperp, prev.uulos + b.value.los)
    else prev
  }

  /** The bins `0 .. n-1` of an InSAR scene, each summarised or not. */
  function InsarBins(uu: seq<Value>, xxpp: seq<real>, yypp: seq<real>, bins: seq<real>, perc: real, num: Numerics, n: nat)
    : (bs: seq<Option<InsarBin>>)
    requires |xxpp| == |uu| && |yypp| == |uu| && n <= BinCount(bins)
    ensures |bs| == n && forall j :: 0 <= j < n ==> bs[j] == InsarBinAt(uu, xxpp, yypp, bins, perc, num, j)
  {
    seq(n, j requires 0 <= j < n => InsarBinAt(uu, xxpp, yypp, bins, perc, num, j))
  }

  /** Every summarised bin has as many positions as values. */
  predicate BinsAligned(bs: seq<Option<InsarBin>>)
  {
    forall j :: 0 <= j < |bs| && bs[j].Some? ==> |bs[j].value.xperp| == |bs[j].value.los| && |bs[j].value.yperp| == |bs[j].value.los|
  }

  /** What the bin loop collects from a sequence of bins, the summarised ones
      in order. */
  function Collect(bs: seq<Option<InsarBin>>): (r: InsarProfile)
    ensures |r.distance| == |r.moy| == |r.std| <= |bs|
    ensures BinsAligned(bs) ==> |r.xperp| == |r.uulos| && |r.yperp| == |r.uulos|
  {
    if |bs| == 0 then InsarProfile([], [], [], [], [], [])
    else
      assert BinsAligned(bs) ==> BinsAligned(bs[..|bs| - 1]);
      AddBin(Collect(bs[..|bs| - 1]), bs[|bs| - 1])
  }

  /** The bin loop over the first `n` bins is the collection of those bins. */
  lemma {:induction false} InsarUpToCollects(uu: seq<Value>, xxpp: seq<real>, yypp: seq<real>, bins: seq<real>, perc: real, num: Numerics, n: nat)
    requires |xxpp| == |uu| && |yypp| == |uu| && n <= BinCount(bins)
    ensures InsarUpTo(uu, xxpp, yypp, bins, perc, num, n) == Collect(InsarBins(uu, xxpp, yypp, bins, perc, num, n))
  {
    if n > 0 {
      InsarUpToCollects(uu, xxpp, yypp, bins, perc, num, n - 1);
      assert InsarBins(uu, xxpp, yypp, bins, perc, num, n)[..n - 1] == InsarBins(uu, xxpp, yypp, bins, perc, num, n - 1);
    }
  }

  /** Entry `k` of the profile `r` is the summary of bin `j` of `bs`. */
  predicate EntryOf(bs: seq<Option<InsarBin>>, r: InsarProfile, k: int, j: int)
  {
    0 <= j < |bs| && bs[j].Some? && 0 <= k < |r.distance| && k < |r.moy| && k < |r.std| &&
    r.distance[k] == bs[j].value.distance && r.moy[k] == bs[j].value.moy && r.std[k] == bs[j].value.std
  }

  /** Entry `k` of the profile `r` is the summary of some bin of `bs`. */
  predicate EntryAmong(bs: seq<Option<InsarBin>>, r: InsarProfile, k: int)
  {
    exists j :: 0 <= j < |bs| && EntryOf(bs, r, k, j)
  }

  /** Every entry collected is the summary of one of the bins. */
  lemma {:induction false} CollectSound(bs: seq<Option<InsarBin>>)
    ensures forall k :: 0 <= k < |Collect(bs).distance| ==> EntryAmong(bs, Collect(bs), k)
    decreases |bs|
  {
    if |bs| > 0 {
      var p := bs[..|bs| - 1];
      CollectSound(p);
      var prev, r := Collect(p), Collect(bs);
      if bs[|bs| - 1].Some? {
        forall k | 0 <= k < |r.distance|
          ensures EntryAmong(bs, r, k)
        {
          if k < |prev.distance| {
            assert EntryAmong(p, prev, k);
            var j :| 0 <= j < |p| && EntryOf(p, prev, k, j);
            assert r.distance[k] == prev.distance[k] && r.moy[k] == prev.moy[k] && r.std[k] == prev.std[k];
            assert p[j] == bs[j];
            assert EntryOf(bs, r, k, j);
          } else {
            assert EntryOf(bs, r, k, |bs| - 1);
          }
        }
      } else {
        forall k | 0 <= k < |r.distance|
          ensures EntryAmong(bs, r, k)
        {
          assert EntryAmong(p, prev, k);
          var j :| 0 <= j < |p| && EntryOf(p, prev, k, j);
          assert p[j] == bs[j];
          assert EntryOf(bs, r, k, j);
        }
      }
    }
  }

  /** Every summarised bin contributes its distance. */
  lemma {:induction false} CollectComplete(bs: seq<Option<InsarBin>>)
    ensures forall j :: 0 <= j < |bs| && bs[j].Some? ==> bs[j].value.distance in Collect(bs).distance
    decreases |bs|
  {
    if |bs| > 0 {
      var p := bs[..|bs| - 1];
      CollectComplete(p);
      var prev, r := Collect(p), Collect(bs);
      forall j | 0 <= j < |bs| && bs[j].Some?
        ensures bs[j].value.distance in r.distance
      {
        if j < |p| {
          assert p[j] == bs[j];
          assert bs[j].value.distance in prev.distance;
        } else {
          assert r.distance[|prev.distance|] == bs[j].value.distance;
        }
      }
    }
  }

  /** The distances of the summarised bins increase with the bin. */
  predicate DistancesIncrease(bs: seq<Option<InsarBin>>)
  {
    forall j1, j2 :: 0 <= j1 < j2 < |bs| && bs[j1].Some? && bs[j2].Some? ==> bs[j1].value.distance < bs[j2].value.distance
  }

  /** Bins whose distances increase are collected in increasing order. */
  lemma {:induction false} CollectIncreasing(bs: seq<Option<InsarBin>>)
    requires DistancesIncrease(bs)
    ensures StrictlyIncreasing(Collect(bs).distance)
    decreases |bs|
  {
    if |bs| > 0 {
      var p := bs[..|bs| - 1];
      assert DistancesIncrease(p) by {
        forall j1, j2 | 0 <= j1 < j2 < |p| && p[j1].Some? && p[j2].Some?
          ensures p[j1].value.distance < p[j2].value.distance
        {
          assert p[j1] == bs[j1] && p[j2] == bs[j2];
        }
      }
      CollectIncreasing(p);
      var prev := Collect(p);
      if bs[|bs| - 1].Some? {
        CollectSound(p);
        var c := bs[|bs| - 1].value.distance;
        forall k | 0 <= k < |prev.distance|
          ensures prev.distance[k] < c
        {
          assert EntryAmong(p, prev, k);
          var j :| 0 <= j < |p| && EntryOf(p, prev, k, j);
          assert p[j] == bs[j];
        }
        IncreasingSnoc(prev.distance, c);
      }
    }
  }

  /** `(v, x, y)` is a pixel one of the bins of `bs` keeps. */
  predicate PointAmong(bs: seq<Option<InsarBin>>, v: real, x: real, y: real)
  {
    exists j, k :: 0 <= j < |bs| && bs[j].Some? && 0 <= k < |bs[j].value.los| &&
      k < |bs[j].value.xperp| && k < |bs[j].value.yperp| &&
      bs[j].value.los[k] == v && bs[j].value.xperp[k] == x && bs[j].value.yperp[k] == y
  }

  /** Every pixel collected is one of the pixels of a bin, with its position. */
  lemma {:induction false} CollectPoints(bs: seq<Option<InsarBin>>)
    requires BinsAligned(bs)
    ensures forall k :: 0 <= k < |Collect(bs).uulos| ==>
      PointAmong(bs, Collect(bs).uulos[k], Collect(bs).xperp[k], Collect(bs).yperp[k])
    decreases |bs|
  {
    if |bs| > 0 {
      var p := bs[..|bs| - 1];
      assert BinsAligned(p) by {
        forall j | 0 <= j < |p| && p[j].Some?
          ensures |p[j].value.xperp| == |p[j].value.los| && |p[j].value.yperp| == |p[j].value.los|
        {
          assert p[j] == bs[j];
        }
      }
      CollectPoints(p);
      var prev, r := Collect(p), Collect(bs);
      var last := |bs| - 1;
      if bs[last].Some? {
        var b := bs[last].value;
        forall k | 0 <= k < |r.uulos|
          ensures PointAmong(bs, r.uulos[k], r.xperp[k], r.yperp[k])
        {
          if k < |prev.uulos| {
            assert r.uulos[k] == prev.uulos[k] && r.xperp[k] == prev.xperp[k] && r.yperp[k] == prev.yperp[k];
            PointAmongPrefix(bs, prev.uulos[k], prev.xperp[k], prev.yperp[k]);
          } else {
            var k' := k - |prev.uulos|;
            assert r.uulos[k] == b.los[k'] && r.xperp[k] == b.xperp[k'] && r.yperp[k] == b.yperp[k'];
          }
        }
      } else {
        assert r == prev;
        forall k | 0 <= k < |r.uulos|
          ensures PointAmong(bs, r.uulos[k], r.xperp[k], r.yperp[k])
        {
          PointAmongPrefix(bs, r.uulos[k], r.xperp[k], r.yperp[k]);
        }
      }
    }
  }

  /** A pixel of the bins but the last is a pixel of all the bins. */
  lemma PointAmongPrefix(bs: seq<Option<InsarBin>>, v: real, x: real, y: real)
    requires |bs| > 0 && PointAmong(bs[..|bs| - 1], v, x, y)
    ensures PointAmong(bs, v, x, y)
  {
    var p := bs[..|bs| - 1];
    var j, k :| 0 <= j < |p| && p[j].Some? && 0 <= k < |p[j].value.los| &&
      k < |p[j].value.xperp| && k < |p[j].value.yperp| &&
      p[j].value.los[k] == v && p[j].value.xperp[k] == x && p[j].value.yperp[k] == y;
    assert p[j] == bs[j];
  }

  /** Entry `k` of an InSAR profile summarises bin `j`: the bin has more than
      ten valid pixels, and the entry has its centre, median and spread. */
  predicate InsarEntry(uu: seq<Value>, xxpp: seq<real>, yypp: seq<real>, bins: seq<real>, perc: real, num: Numerics,
                       r: InsarProfile, k: int, j: int)
    requires |xxpp| == |uu| && |yypp| == |uu|
  {
    0 <= j < BinCount(bins) && 0 <= k < |r.distance| && |r.moy| == |r.distance| && |r.std| == |r.distance| &&
    var b := InsarBinAt(uu, xxpp, yypp, bins, perc, num, j);
    b.Some? && r.distance[k] == Centre(bins, j) && r.moy[k] == b.value.moy && r.std[k] == b.value.std
  }

  /** Entry `k` of an InSAR profile summarises one of the first `n` bins. */
  predicate InsarEntryBelow(uu: seq<Value>, xxpp: seq<real>, yypp: seq<real>, bins: seq<real>, perc: real, num: Numerics,
                            r: InsarProfile, k: int, n: int)
    requires |xxpp| == |uu| && |yypp| == |uu|
  {
    exists j :: 0 <= j < n && InsarEntry(uu, xxpp, yypp, bins, perc, num, r, k, j)
  }

  /** Every entry of the InSAR profile summarises one of the first `n` bins,
      and every one of them with more than ten valid pixels has an entry. */
  lemma InsarProfileEntries(uu: seq<Value>, xxpp: seq<real>, yypp: seq<real>, bins: seq<real>, perc: real, num: Numerics, n: nat)
    requires |xxpp| == |uu| && |yypp| == |uu| && n <= BinCount(bins)
    ensures forall k :: 0 <= k < |InsarUpTo(uu, xxpp, yypp, bins, perc, num, n).distance| ==>
      InsarEntryBelow(uu, xxpp, yypp, bins, perc, num, InsarUpTo(uu, xxpp, yypp, bins, perc, num, n), k, n)
    ensures forall j :: 0 <= j < n && InsarBinAt(uu, xxpp, yypp, bins, perc, num, j).Some? ==>
      Centre(bins, j) in InsarUpTo(uu, xxpp, yypp, bins, perc, num, n).distance
  {
    var bs := InsarBins(uu, xxpp, yypp, bins, perc, num, n);
    var r := InsarUpTo(uu, xxpp, yypp, bins, perc, num, n);
    InsarUpToCollects(uu, xxpp, yypp, bins, perc, num, n);
    CollectSound(bs);
    CollectComplete(bs);
    forall k | 0 <= k < |r.distance|
      ensures InsarEntryBelow(uu, xxpp, yypp, bins, perc, num, r, k, n)
    {
      assert EntryAmong(bs, r, k);
      var j :| 0 <= j < |bs| && EntryOf(bs, r, k, j);
      InsarEntryOfBin(uu, xxpp, yypp, bins, perc, num, n, r, k, j);
    }
    forall j | 0 <= j < n && InsarBinAt(uu, xxpp, yypp, bins, perc, num, j).Some?
      ensures Centre(bins, j) in r.distance
    {
      assert bs[j].Some?;
    }
  }

  /** An entry that is the summary of one of the first `n` bins is an entry
      of the bin loop. */
  lemma InsarEntryOfBin(uu: seq<Value>, xxpp: seq<real>, yypp: seq<real>, bins: seq<real>, perc: real, num: Numerics, n: nat,
                        r: InsarProfile, k: int, j: int)
    requires |xxpp| == |uu| && |yypp| == |uu| && n <= BinCount(bins)
    requires |r.moy| == |r.distance| && |r.std| == |r.distance|
    requires EntryOf(InsarBins(uu, xxpp, yypp, bins, perc, num, n), r, k, j)
    ensures 0 <= j < n && InsarEntry(uu, xxpp, yypp, bins, perc, num, r, k, j)
  {
  }

  /** For increasing edges the distances of the InSAR profile increase. */
  lemma InsarProfileIncreasing(uu: seq<Value>, xxpp: seq<real>, yypp: seq<real>, bins: seq<real>, perc: real, num: Numerics, n: nat)
    requires StrictlyIncreasing(bins)
    requires |xxpp| == |uu| && |yypp| == |uu| && n <= BinCount(bins)
    ensures StrictlyIncreasing(InsarUpTo(uu, xxpp, yypp, bins, perc, num, n).distance)
  {
    var bs := InsarBins(uu, xxpp, yypp, bins, perc, num, n);
    InsarUpToCollects(uu, xxpp, yypp, bins, perc, num, n);
    forall j1, j2 | 0 <= j1 < j2 < |bs| && bs[j1].Some? && bs[j2].Some?
      ensures bs[j1].value.distance < bs[j2].value.distance
    {
      CentreIncreasing(bins, j1, j2);
    }
    CollectIncreasing(bs);
  }

  /** `(v, x, y)` is a valid input pixel with value `v` at profile coordinates
      `(x, y)` and distance `y` below `hi`. */
  predicate PixelOf(uu: seq<Value>, xxpp: seq<real>, yypp: seq<real>, v: real, x: real, y: real, hi: real)
    requires |xxpp| == |uu| && |yypp| == |uu|
  {
    exists i :: 0 <= i < |uu| && uu[i] == Num(v) && xxpp[i] == x && yypp[i] == y && y < hi
  }

  /** Every pixel of the InSAR profile is a valid input pixel with its own
      coordinates, lying below the lower edge of the last bin visited. */
  lemma InsarProfilePoints(uu: seq<Value>, xxpp: seq<real>, yypp: seq<real>, bins: seq<real>, perc: real, num: Numerics, n: nat)
    requires StrictlyIncreasing(bins)
    requires |xxpp| == |uu| && |yypp| == |uu| && 0 < n <= BinCount(bins)
    ensures forall k :: 0 <= k < |InsarUpTo(uu, xxpp, yypp, bins, perc, num, n).uulos| ==>
      PixelOf(uu, xxpp, yypp, InsarUpTo(uu, xxpp, yypp, bins, perc, num, n).uulos[k],
              InsarUpTo(uu, xxpp, yypp, bins, perc, num, n).xperp[k],
              InsarUpTo(uu, xxpp, yypp, bins, perc, num, n).yperp[k], bins[n - 1])
  {
    var bs := InsarBins(uu, xxpp, yypp, bins, perc, num, n);
    var r := InsarUpTo(uu, xxpp, yypp, bins, perc, num, n);
    InsarUpToCollects(uu, xxpp, yypp, bins, perc, num, n);
    CollectPoints(bs);
    forall k | 0 <= k < |r.uulos|
      ensures PixelOf(uu, xxpp, yypp, r.uulos[k], r.xperp[k], r.yperp[k], bins[n - 1])
    {
      var j, k' :| 0 <= j < |bs| && bs[j].Some? && 0 <= k' < |bs[j].value.los| &&
        k' < |bs[j].value.xperp| && k' < |bs[j].value.yperp| &&
        bs[j].value.los[k'] == r.uulos[k] && bs[j].value.xperp[k'] == r.xperp[k] && bs[j].value.yperp[k'] == r.yperp[k];
      InsarBinPixel(uu, xxpp, yypp, bins, perc, num, n, j, k');
    }
  }

  /** A pixel that bin `j` keeps is a valid input pixel below the upper edge
      of any later bin. */
  lemma InsarBinPixel(uu: seq<Value>, xxpp: seq<real>, yypp: seq<real>, bins: seq<real>, perc: real, num: Numerics, n: int, j: int, k: int)
    requires StrictlyIncreasing(bins)
    requires |xxpp| == |uu| && |yypp| == |uu| && 0 <= j < n <= BinCount(bins)
    requires InsarBinAt(uu, xxpp, yypp, bins, perc, num, j).Some?
    requires 0 <= k < |InsarBinAt(uu, xxpp, yypp, bins, perc, num, j).value.los|
    ensures var b := InsarBinAt(uu, xxpp, yypp, bins, perc, num, j).value;
      PixelOf(uu, xxpp, yypp, b.los[k], b.xperp[k], b.yperp[k], bins[n - 1])
  {
    InsarBinPoint(uu, xxpp, yypp, bins, perc, num, j, k);
    assert bins[j] <= bins[n - 1];
  }

  /** The loop over the bins of one InSAR scene. */
  method BinInsar(uu: seq<Value>, xxpp: seq<real>, yypp: seq<real>, bins: seq<real>, perc: real, num: Numerics)
    returns (r: InsarProfile)
    requires |xxpp| == |uu| && |yypp| == |uu|
    ensures r == InsarUpTo(uu, xxpp, yypp, bins, perc, num, BinCount(bins))
  {
    r := InsarProfile([], [], [], [], [], []);
    var j := 0;
    while j < BinCount(bins)
      invariant 0 <= j <= BinCount(bins)
      invariant r == InsarUpTo(uu, xxpp, yypp, bins, perc, num, j)
    {
      var b := InsarBinAt(uu, xxpp, yypp, bins, perc, num, j);
      if b.Some? {
        var v := b.value;
        r := InsarProfile(r.distance + [v.distance], r.moy + [v.moy], r.std + [v.std],
                          r.xperp + v.xperp, r.yperp + v.yperp, r.uulos + v.los);
      }
      j := j + 1;
    }
  }

  /** Whether the per-profile InSAR results of a scene hold `p`. */
  predicate InsarProfileStored(s: Network, p: InsarProfile)
    reads s
  {
    s.distance == p.distance && s.moyLos == p.moy && s.stdLos == p.std &&
    s.xperp == p.xperp && s.yperp == p.yperp && s.uulos == p.uulos
  }

  /** The binning step of one InSAR scene in a profile: the results are
      reset; a scene of at most fifty pixels in the swath is not binned;
      otherwise the bin width (computed from this scene when the profile has
      none yet), edges every bin width from `-l/2 - 1` to `l/2 + 1`, and the
      bin loop. With fewer than two edges the loop never runs and the
      `del _los` after it names an undefined variable. */
  method ProfileInsar(s: Network, l: real, nb: Option<real>, num: Numerics) returns (st: Status, nbOut: Option<real>)
    requires |s.xxpp| == |s.uu| && |s.yypp| == |s.uu|
    modifies s`distance, s`moyLos, s`stdLos, s`xperp, s`yperp, s`uulos
    ensures |old(s.uu)| <= 50 ==> st.Ok? && nbOut == nb && InsarProfileStored(s, InsarProfile([], [], [], [], [], []))
    ensures |old(s.uu)| > 50 ==>
      var width := BinWidth(nb, l, |old(s.uu)|).value;
      var bins := Arange(-l / 2.0 - 1.0, l / 2.0 + 1.0, width);
      nbOut == Some(width) &&
      (st.Ok? <==> bins.Done? && |bins.value| >= 2) &&
      (st.Stop? ==> (st.crash == (if bins.Fail? then ZeroDivision else UndefinedName) &&
                     InsarProfileStored(s, InsarProfile([], [], [], [], [], [])))) &&
      (st.Ok? ==> InsarProfileStored(s, InsarUpTo(old(s.uu), old(s.xxpp), old(s.yypp), bins.value, old(s.perc), num, BinCount(bins.value))))
  {
    var r;
    st, nbOut, r := SceneProfile(s.uu, s.xxpp, s.yypp, s.perc, l, nb, num);
    s.distance, s.moyLos, s.stdLos, s.xperp, s.yperp, s.uulos := r.distance, r.moy, r.std, r.xperp, r.yperp, r.uulos;
  }

  /** What the binning step of a scene leaves in its per-profile results:
      nothing for a scene it does not bin or one it stops on, else the
      profile of the bin loop. */
  method SceneProfile(uu: seq<Value>, xxpp: seq<real>, yypp: seq<real>, perc: real, l: real, nb: Option<real>, num: Numerics)
    returns (st: Status, nbOut: Option<real>, r: InsarProfile)
    requires |xxpp| == |uu| && |yypp| == |uu|
    ensures |uu| <= 50 ==> st.Ok? && nbOut == nb && r == InsarProfile([], [], [], [], [], [])
    ensures |uu| > 50 ==>
      var width := BinWidth(nb, l, |uu|).value;
      var bins := Arange(-l / 2.0 - 1.0, l / 2.0 + 1.0, width);
      nbOut == Some(width) &&
      (st.Ok? <==> bins.Done? && |bins.value| >= 2) &&
      (st.Stop? ==> st.crash == (if bins.Fail? then ZeroDivision else UndefinedName) && r == InsarProfile([], [], [], [], [], [])) &&
      (st.Ok? ==> r == InsarUpTo(uu, xxpp, yypp, bins.value, perc, num, BinCount(bins.value)))
  {
    r := InsarProfile([], [], [], [], [], []);
    if |uu| <= 50 {
      return Ok, nb, r;
    }
    var width := BinWidth(nb, l, |uu|).value;
    nbOut := Some(width);
    var bins := Arange(-l / 2.0 - 1.0, l / 2.0 + 1.0, width);
    if bins.Fail? {
      return Stop(bins.crash), nbOut, r;
    }
    if |bins.value| < 2 {
      return Stop(UndefinedName), nbOut, r;
    }
    r := BinInsar(uu, xxpp, yypp, bins.value, perc, num);
    st := Ok;
  }
}
