/*
 * Flattening (plotPro.py): a polynomial ramp along the profile is fitted to
 * the binned InSAR medians — to the differences of two tracks where they
 * overlap, or to one side of a single track — and added to every
 * representation of the track `Track` picks (the second of two scenes,
 * otherwise the first), each evaluated at its own distance.
 *
 * The least-squares solver is not modelled: its coefficients `pars` are an
 * input. The residuals `diff` of the two-track histogram subtract the ramp at
 * the wrong bins (`DiffAsWritten`); `DiffIntended` evaluates it at the
 * fitted distances.
 */
module Ramp {
  import opened Common
  import opened Network2d

  /** The ramp's degree: `'quad'`, `'cub'`, and a line for anything else. */
  datatype Shape = Quadratic | Cubic | Linear

  function ShapeOf(flat: string): (s: Shape)
    ensures s.Quadratic? <==> flat == "quad"
    ensures s.Cubic? <==> flat == "cub"
  {
    if flat == "quad" then Quadratic else if flat == "cub" then Cubic else Linear
  }

  /** The number of columns of the design matrix, and of coefficients. */
  function Columns(s: Shape): nat
  {
    match s
    case Quadratic => 3
    case Cubic => 4
    case Linear => 2
  }

  /** The ramp `blos` at distance `x`, highest power first. */
  function Poly(s: Shape, pars: seq<real>, x: real): real
    requires |pars| == Columns(s)
  {
    match s
    case Quadratic => pars[0] * x * x + pars[1] * x + pars[2]
    case Cubic => pars[0] * x * x * x + pars[1] * x * x + pars[2] * x + pars[3]
    case Linear => pars[0] * x + pars[1]
  }

  /** The row of the design matrix `G` for distance `x`. */
  function DesignRow(s: Shape, x: real): (r: seq<real>)
    ensures |r| == Columns(s) && r[|r| - 1] == 1.0
  {
    match s
    case Quadratic => [x * x, x, 1.0]
    case Cubic => [x * x * x, x * x, x, 1.0]
    case Linear => [x, 1.0]
  }

  function Dot(u: seq<real>, v: seq<real>): real
    requires |u| == |v|
  {
    if |u| == 0 then 0.0 else u[0] * v[0] + Dot(u[1..], v[1..])
  }

  /** `np.dot(G, pars)` at a row is the ramp at that row's distance: the model
      the solver fits is the ramp that is removed. */
  lemma DesignRowFits(s: Shape, pars: seq<real>, x: real)
    requires |pars| == Columns(s)
    ensures Dot(DesignRow(s, x), pars) == Poly(s, pars, x)
  {
    var r := DesignRow(s, x);
    var n := |r|;
    assert Dot(r[n - 1..], pars[n - 1..]) == pars[n - 1] by {
      assert r[n - 1..][1..] == [];
    }
    match s
    case Quadratic =>
      assert Dot(r[1..], pars[1..]) == x * pars[1] + pars[2] by {
        assert r[1..][1..] == r[2..] && pars[1..][1..] == pars[2..];
      }
    case Cubic =>
      assert Dot(r[2..], pars[2..]) == x * pars[2] + pars[3] by {
        assert r[2..][1..] == r[3..] && pars[2..][1..] == pars[3..];
      }
      assert Dot(r[1..], pars[1..]) == x * x * pars[1] + x * pars[2] + pars[3] by {
        assert r[1..][1..] == r[2..] && pars[1..][1..] == pars[2..];
      }
    case Linear =>
  }

  /** `G = np.zeros((n, k))` and its columns filled one by one. */
  method BuildDesign(s: Shape, yp: seq<real>) returns (g: array2<real>)
    ensures fresh(g) && g.Length0 == |yp| && g.Length1 == Columns(s)
    ensures forall i, j :: 0 <= i < |yp| && 0 <= j < Columns(s) ==> g[i, j] == DesignRow(s, yp[i])[j]
  {
    g := new real[|yp|, Columns(s)]((i, j) => 0.0);
    match s
    case Quadratic =>
      forall i | 0 <= i < |yp| { g[i, 0] := yp[i] * yp[i]; }
      forall i | 0 <= i < |yp| { g[i, 1] := yp[i]; }
      forall i | 0 <= i < |yp| { g[i, 2] := 1.0; }
    case Cubic =>
      forall i | 0 <= i < |yp| { g[i, 0] := yp[i] * yp[i] * yp[i]; }
      forall i | 0 <= i < |yp| { g[i, 1] := yp[i] * yp[i]; }
      forall i | 0 <= i < |yp| { g[i, 2] := yp[i]; }
      forall i | 0 <= i < |yp| { g[i, 3] := 1.0; }
    case Linear =>
      forall i | 0 <= i < |yp| { g[i, 0] := yp[i]; }
      forall i | 0 <= i < |yp| { g[i, 1] := 1.0; }
  }

  // ------------------------------------------------------------ the support

  /** What the ramp is fitted to: distances, targets and their spreads
      (`temp_yp`, `temp_los`, `temp_std`). */
  datatype Support = Support(yp: seq<real>, los: seq<Value>, std: seq<Value>)

  predicate Aligned(s: Support)
  {
    |s.los| == |s.yp| && |s.std| == |s.yp|
  }

  /** `np.in1d(d, other)`. */
  function Member(d: seq<real>, other: seq<real>): (m: seq<bool>)
    ensures |m| == |d| && forall i :: 0 <= i < |d| ==> (m[i] <==> d[i] in other)
  {
    seq(|d|, i requires 0 <= i < |d| => d[i] in other)
  }

  /** `np.sqrt(a**2 + b**2)`, NaN when either is. */
  function Combined(num: Numerics, a: Value, b: Value): (r: Value)
    ensures r.Num? <==> a.Num? && b.Num?
  {
    if a.Num? && b.Num? then Num(num.sqrt(a.r * a.r + b.r * b.r)) else NaN
  }

  /** Two tracks: the bins of each whose distance the other also has; their
      median differences and combined spreads. Arrays of different lengths do
      not subtract, and the extent of the overlap needs both tracks to have a
      bin. */
  function Overlap(num: Numerics, d1: seq<real>, moy1: seq<Value>, std1: seq<Value>,
                   d2: seq<real>, moy2: seq<Value>, std2: seq<Value>): (r: Outcome<Support>)
    requires |moy1| == |d1| && |std1| == |d1| && |moy2| == |d2| && |std2| == |d2|
    ensures r.Done? ==> Aligned(r.value)
    ensures r.Done? ==> r.value.yp == Keep(d1, Member(d1, d2)) && |r.value.yp| <= |d2|
  {
    var m1, m2 := Member(d1, d2), Member(d2, d1);
    if Count(m1) != Count(m2) then Fail(ShapeMismatch)
    else if |d1| == 0 || |d2| == 0 then Fail(EmptyReduction)
    else
      var a1, a2 := Keep(moy1, m1), Keep(moy2, m2);
      var s1, s2 := Keep(std1, m1), Keep(std2, m2);
      Done(Support(Keep(d1, m1),
                   seq(Count(m1), k requires 0 <= k < Count(m1) => Minus(a1[k], a2[k])),
                   seq(Count(m1), k requires 0 <= k < Count(m1) => Combined(num, s1[k], s2[k]))))
  }

  /** A mask of which no entry is set keeps nothing. */
  lemma KeepNone<T>(s: seq<T>, m: seq<bool>)
    requires |m| == |s| && forall i :: 0 <= i < |m| ==> !m[i]
    ensures Keep(s, m) == []
  {
    CountPositive(m);
  }

  /** For strictly increasing distances, the bins of each track found in the
      other have the same distances, in the same order. */
  lemma {:induction false} CommonDistances(d1: seq<real>, d2: seq<real>)
    requires StrictlyIncreasing(d1) && StrictlyIncreasing(d2)
    ensures Keep(d1, Member(d1, d2)) == Keep(d2, Member(d2, d1))
    decreases |d1| + |d2|
  {
    if |d1| == 0 {
      KeepNone(d2, Member(d2, d1));
    } else if |d2| == 0 {
      KeepNone(d1, Member(d1, d2));
    } else if d1[0] == d2[0] {
      MemberTails(d1, d2);
      MemberTails(d2, d1);
      CommonDistances(d1[1..], d2[1..]);
    } else if d1[0] < d2[0] {
      MemberSkip(d1, d2);
      CommonDistances(d1[1..], d2);
    } else {
      MemberSkip(d2, d1);
      CommonDistances(d1, d2[1..]);
    }
  }

  /** Two increasing tracks that start at the same distance: past the first
      bin, membership in one track is membership in its tail. */
  lemma MemberTails(d1: seq<real>, d2: seq<real>)
    requires StrictlyIncreasing(d1) && StrictlyIncreasing(d2) && |d1| > 0 && |d2| > 0 && d1[0] == d2[0]
    ensures StrictlyIncreasing(d1[1..])
    ensures Member(d1, d2)[0] && Member(d1, d2)[1..] == Member(d1[1..], d2[1..])
  {
    var t1, t2 := d1[1..], d2[1..];
    forall i | 0 <= i < |t1| ensures (t1[i] in d2 <==> t1[i] in t2) {
      assert t1[i] == d1[i + 1] && d1[0] < d1[i + 1];
      assert d2 == [d2[0]] + t2;
    }
  }

  /** When `d1` starts below `d2`, its first bin is not in `d2`, and leaving
      it out of `d1` changes no membership of `d2`. */
  lemma MemberSkip(d1: seq<real>, d2: seq<real>)
    requires StrictlyIncreasing(d1) && StrictlyIncreasing(d2) && |d1| > 0 && |d2| > 0 && d1[0] < d2[0]
    ensures StrictlyIncreasing(d1[1..])
    ensures !Member(d1, d2)[0] && Member(d1, d2)[1..] == Member(d1[1..], d2)
    ensures Member(d2, d1) == Member(d2, d1[1..])
  {
    var t1 := d1[1..];
    assert d1[0] !in d2 by {
      forall j | 0 <= j < |d2| ensures d2[j] != d1[0] {
        assert j == 0 || d2[0] < d2[j];
      }
    }
    forall j | 0 <= j < |d2| ensures (d2[j] in d1 <==> d2[j] in t1) {
      assert j == 0 || d2[0] < d2[j];
      assert d1 == [d1[0]] + t1;
    }
  }

  /** For two binned tracks (strictly increasing distances, both with a bin)
      the overlap is defined, and its entry `k` pairs a bin of each track at
      the same distance: the target is their median difference and the spread
      their combined spread. */
  lemma OverlapMatches(num: Numerics, d1: seq<real>, moy1: seq<Value>, std1: seq<Value>,
                       d2: seq<real>, moy2: seq<Value>, std2: seq<Value>, k: int)
    requires |moy1| == |d1| && |std1| == |d1| && |moy2| == |d2| && |std2| == |d2|
    requires StrictlyIncreasing(d1) && StrictlyIncreasing(d2) && |d1| > 0 && |d2| > 0
    ensures Overlap(num, d1, moy1, std1, d2, moy2, std2).Done?
    ensures var s := Overlap(num, d1, moy1, std1, d2, moy2, std2).value;
      0 <= k < |s.yp| ==>
        exists i1, i2 :: 0 <= i1 < |d1| && 0 <= i2 < |d2| && d1[i1] == s.yp[k] && d2[i2] == s.yp[k] &&
          s.los[k] == Minus(moy1[i1], moy2[i2]) && s.std[k] == Combined(num, std1[i1], std2[i2])
  {
    var m1, m2 := Member(d1, d2), Member(d2, d1);
    CommonDistances(d1, d2);
    var s := Overlap(num, d1, moy1, std1, d2, moy2, std2).value;
    if 0 <= k < |s.yp| {
      KeepAt(d1, m1, k);
      KeepAt(moy1, m1, k);
      KeepAt(std1, m1, k);
      KeepAt(d2, m2, k);
      KeepAt(moy2, m2, k);
      KeepAt(std2, m2, k);
      var i1, i2 := Kept(m1)[k], Kept(m2)[k];
      assert d1[i1] == s.yp[k] && d2[i2] == s.yp[k];
    }
  }

  /** `loc_ramp`: the bins a single-track ramp is fitted to. */
  function Side(loc: Option<string>, d: seq<real>): (m: seq<bool>)
    ensures |m| == |d|
    ensures loc == Some("positive") ==> forall i :: 0 <= i < |d| ==> (m[i] <==> d[i] > 0.0)
    ensures loc == Some("negative") ==> forall i :: 0 <= i < |d| ==> (m[i] <==> d[i] < 0.0)
    ensures loc != Some("positive") && loc != Some("negative") ==> forall i :: 0 <= i < |d| ==> m[i]
  {
    seq(|d|, i requires 0 <= i < |d| =>
      if loc == Some("positive") then d[i] > 0.0 else if loc == Some("negative") then d[i] < 0.0 else true)
  }

  /** One track: the bins the side selects; the extent of the profile needs
      the track to have a bin. */
  function Along(loc: Option<string>, d: seq<real>, moy: seq<Value>, std: seq<Value>): (r: Outcome<Support>)
    requires |moy| == |d| && |std| == |d|
    ensures r.Fail? <==> |d| == 0
    ensures r.Fail? ==> r.crash == EmptyReduction
    ensures r.Done? ==> Aligned(r.value) && |r.value.yp| <= |d|
  {
    if |d| == 0 then Fail(EmptyReduction)
    else
      var m := Side(loc, d);
      Done(Support(Keep(d, m), Keep(moy, m), Keep(std, m)))
  }

  /** The support the solver sees: the entries whose target is not NaN. */
  datatype Fit = Fit(yp: seq<real>, los: seq<real>, std: seq<Value>)

  function DropNaN(s: Support): (f: Fit)
    requires Aligned(s)
    ensures |f.los| == |f.yp| && |f.std| == |f.yp|
  {
    var kk := NotNaN(s.los);
    Fit(Keep(s.yp, kk), Numbers(s.los), Keep(s.std, kk))
  }

  /** The entries that survive are exactly those with a target, in order. */
  lemma DropNaNExactly(s: Support)
    requires Aligned(s)
    ensures forall k :: 0 <= k < |DropNaN(s).yp| ==>
      0 <= Kept(NotNaN(s.los))[k] < |s.yp| && DropNaN(s).yp[k] == s.yp[Kept(NotNaN(s.los))[k]] &&
      s.los[Kept(NotNaN(s.los))[k]] == Num(DropNaN(s).los[k]) && DropNaN(s).std[k] == s.std[Kept(NotNaN(s.los))[k]]
  {
    var f := DropNaN(s);
    var kk := NotNaN(s.los);
    forall k | 0 <= k < |f.yp|
      ensures 0 <= Kept(kk)[k] < |s.yp| && f.yp[k] == s.yp[Kept(kk)[k]] && s.los[Kept(kk)[k]] == Num(f.los[k]) &&
              f.std[k] == s.std[Kept(kk)[k]]
    {
      KeepAt(s.yp, kk, k);
      KeepAt(s.std, kk, k);
      NumbersAt(s.los, k);
    }
  }

  /** A single-track fit uses exactly the bins of the chosen side whose median
      is not NaN, in profile order. */
  lemma AlongExactly(loc: Option<string>, d: seq<real>, moy: seq<Value>, std: seq<Value>)
    requires |moy| == |d| && |std| == |d| && |d| > 0
    ensures var f := DropNaN(Along(loc, d, moy, std).value); var m := And(Side(loc, d), NotNaN(moy));
      f.yp == Keep(d, m) && f.std == Keep(std, m) &&
      |f.los| == |Keep(moy, m)| && forall k :: 0 <= k < |f.los| ==> Keep(moy, m)[k] == Num(f.los[k])
  {
    var side := Side(loc, d);
    var v := Keep(moy, side);
    NotNaNKeep(moy, side);
    KeepKeep(d, side, NotNaN(moy));
    KeepKeep(std, side, NotNaN(moy));
    KeepKeep(moy, side, NotNaN(moy));
    NumbersIsKeep(v);
  }

  // ------------------------------------------------------------ the ramp

  /** `vs + blos` with the ramp evaluated at each entry's own distance. */
  function Ramped(vs: seq<Value>, xs: seq<real>, s: Shape, pars: seq<real>): (r: seq<Value>)
    requires |xs| == |vs| && |pars| == Columns(s)
    ensures |r| == |vs|
  {
    seq(|vs|, i requires 0 <= i < |vs| => AddReal(vs[i], Poly(s, pars, xs[i])))
  }

  /** The same for the arrays without NaN. */
  function RampedReal(vs: seq<real>, xs: seq<real>, s: Shape, pars: seq<real>): (r: seq<real>)
    requires |xs| == |vs| && |pars| == Columns(s)
    ensures |r| == |vs|
  {
    seq(|vs|, i requires 0 <= i < |vs| => vs[i] + Poly(s, pars, xs[i]))
  }

  function Negated(pars: seq<real>): (r: seq<real>)
    ensures |r| == |pars| && forall i :: 0 <= i < |pars| ==> r[i] == -pars[i]
  {
    seq(|pars|, i requires 0 <= i < |pars| => -pars[i])
  }

  /** The ramp is linear in its coefficients. */
  lemma PolyNegated(s: Shape, pars: seq<real>, x: real)
    requires |pars| == Columns(s)
    ensures Poly(s, Negated(pars), x) == -Poly(s, pars, x)
  {
    var n := Negated(pars);
    match s
    case Quadratic =>
      var x2 := x * x;
      assert n[0] * x2 == -(pars[0] * x2);
    case Cubic =>
      var x2 := x * x;
      var x3 := x2 * x;
      assert n[0] * x3 == -(pars[0] * x3);
      assert n[1] * x2 == -(pars[1] * x2);
    case Linear =>
  }

  /** Adding the opposite ramp takes a ramp off again, and the zero ramp
      changes nothing. */
  lemma RampedUndone(vs: seq<Value>, xs: seq<real>, s: Shape, pars: seq<real>)
    requires |xs| == |vs| && |pars| == Columns(s)
    ensures Ramped(Ramped(vs, xs, s, pars), xs, s, Negated(pars)) == vs
    ensures Ramped(vs, xs, s, Zeros(Columns(s))) == vs
  {
    var r := Ramped(Ramped(vs, xs, s, pars), xs, s, Negated(pars));
    forall i | 0 <= i < |vs| ensures r[i] == vs[i] {
      PolyNegated(s, pars, xs[i]);
    }
    var z := Ramped(vs, xs, s, Zeros(Columns(s)));
    forall i | 0 <= i < |vs| ensures z[i] == vs[i] {
      PolyZero(s, xs[i]);
    }
  }

  /** The same two facts for the NaN-free arrays (`uulos`). */
  lemma RampedRealUndone(vs: seq<real>, xs: seq<real>, s: Shape, pars: seq<real>)
    requires |xs| == |vs| && |pars| == Columns(s)
    ensures RampedReal(RampedReal(vs, xs, s, pars), xs, s, Negated(pars)) == vs
    ensures RampedReal(vs, xs, s, Zeros(Columns(s))) == vs
  {
    var r := RampedReal(RampedReal(vs, xs, s, pars), xs, s, Negated(pars));
    forall i | 0 <= i < |vs| ensures r[i] == vs[i] {
      PolyNegated(s, pars, xs[i]);
    }
    var z := RampedReal(vs, xs, s, Zeros(Columns(s)));
    forall i | 0 <= i < |vs| ensures z[i] == vs[i] {
      PolyZero(s, xs[i]);
    }
  }

  /** The zero ramp is zero everywhere. */
  lemma PolyZero(s: Shape, x: real)
    ensures Poly(s, Zeros(Columns(s)), x) == 0.0
  {
    var zs := Zeros(Columns(s));
    match s
    case Quadratic => assert zs[0] * x * x == 0.0;
    case Cubic =>
      assert zs[0] * x * x * x == 0.0;
      assert zs[1] * x * x == 0.0;
    case Linear =>
  }

  /** The ramp added to each entry is the design-matrix row of its own
      coordinate times the coefficients: NaN entries stay NaN, numbers and
      the NaN-free arrays move by `G(x) . pars`. */
  lemma RampedIsDesign(vs: seq<Value>, us: seq<real>, xs: seq<real>, s: Shape, pars: seq<real>)
    requires |xs| == |vs| && |us| == |vs| && |pars| == Columns(s)
    ensures forall i :: 0 <= i < |vs| ==>
      (Ramped(vs, xs, s, pars)[i].Num? <==> vs[i].Num?) &&
      (vs[i].Num? ==> Ramped(vs, xs, s, pars)[i].r == vs[i].r + Dot(DesignRow(s, xs[i]), pars)) &&
      RampedReal(us, xs, s, pars)[i] == us[i] + Dot(DesignRow(s, xs[i]), pars)
  {
    forall i | 0 <= i < |vs|
      ensures Dot(DesignRow(s, xs[i]), pars) == Poly(s, pars, xs[i])
    {
      DesignRowFits(s, pars, xs[i]);
    }
  }

  /** The arrays of a track the ramp is added to, each aligned with the
      distances it is evaluated at. */
  predicate RampAligned(t: Network)
    reads t
  {
    |t.moyLos| == |t.distance| && |t.uulos| == |t.yperp| && |t.uu| == |t.yypp| &&
    |t.ulos| == |t.ypp| && |t.uloscor| == |t.ypp|
  }

  /** Adding the fitted ramp to the flattened track (the second of two
      scenes, otherwise the first, `Track`): the bin medians at the bin
      distances, the clipped pixels and the swath pixels at their own
      distances, and every pixel of the scene, raw and corrected, at its
      distance along the profile. */
  method ApplyRamp(t: Network, s: Shape, pars: seq<real>)
    requires RampAligned(t) && |pars| == Columns(s)
    modifies t`moyLos, t`uulos, t`uu, t`ulos, t`uloscor
    ensures RampAligned(t)
    ensures t.moyLos == Ramped(old(t.moyLos), t.distance, s, pars)
    ensures t.uulos == RampedReal(old(t.uulos), t.yperp, s, pars)
    ensures t.uu == Ramped(old(t.uu), t.yypp, s, pars)
    ensures t.ulos == Ramped(old(t.ulos), t.ypp, s, pars)
    ensures t.uloscor == Ramped(old(t.uloscor), t.ypp, s, pars)
  {
    t.moyLos := Ramped(t.moyLos, t.distance, s, pars);
    t.uulos := RampedReal(t.uulos, t.yperp, s, pars);
    t.uu := Ramped(t.uu, t.yypp, s, pars);
    t.ulos := Ramped(t.ulos, t.ypp, s, pars);
    t.uloscor := Ramped(t.uloscor, t.ypp, s, pars);
  }

  // ------------------------------------------------------------ residuals

  /** `diff = temp_los - blos[kk]`: the ramp over all bins of the flattened track,
      taken at the positions the targets have after NaN removal. */
  function DiffAsWritten(sup: Support, d2: seq<real>, s: Shape, pars: seq<real>): (r: Outcome<seq<real>>)
    requires Aligned(sup) && |pars| == Columns(s)
    ensures r.Done? ==> |r.value| == |DropNaN(sup).los|
    ensures |sup.yp| <= |d2| ==> r.Done?
  {
    var f := DropNaN(sup);
    var kk := Kept(NotNaN(sup.los));
    if exists k :: 0 <= k < |kk| && kk[k] >= |d2| then Fail(IndexOutOfRange)
    else Done(seq(|f.los|, k requires 0 <= k < |f.los| => f.los[k] - Poly(s, pars, d2[kk[k]])))
  }

  /** The residuals the fit leaves: each target less the ramp at its own
      distance. */
  function DiffIntended(f: Fit, s: Shape, pars: seq<real>): (r: seq<real>)
    requires |f.yp| == |f.los| && |pars| == Columns(s)
    ensures |r| == |f.los|
  {
    seq(|f.los|, k requires 0 <= k < |f.los| => f.los[k] - Poly(s, pars, f.yp[k]))
  }

  /** The intended residuals are those of the design matrix,
      `temp_los - np.dot(G, pars)`. */
  lemma DiffIntendedResidual(f: Fit, s: Shape, pars: seq<real>)
    requires |f.yp| == |f.los| && |pars| == Columns(s)
    ensures forall k :: 0 <= k < |f.los| ==> DiffIntended(f, s, pars)[k] == f.los[k] - Dot(DesignRow(s, f.yp[k]), pars)
  {
    forall k | 0 <= k < |f.los|
      ensures DiffIntended(f, s, pars)[k] == f.los[k] - Dot(DesignRow(s, f.yp[k]), pars)
    {
      DesignRowFits(s, pars, f.yp[k]);
    }
  }

  /** Where the ramp is taken over the support's own distances the two
      agree. */
  lemma DiffAgreesOnOwnDistances(sup: Support, s: Shape, pars: seq<real>)
    requires Aligned(sup) && |pars| == Columns(s)
    ensures DiffAsWritten(sup, sup.yp, s, pars) == Done(DiffIntended(DropNaN(sup), s, pars))
  {
    DropNaNExactly(sup);
    var f := DropNaN(sup);
    var kk := Kept(NotNaN(sup.los));
    assert forall k :: 0 <= k < |kk| ==> kk[k] < |sup.yp|;
    var r := seq(|f.los|, k requires 0 <= k < |f.los| => f.los[k] - Poly(s, pars, sup.yp[kk[k]]));
    assert DiffAsWritten(sup, sup.yp, s, pars) == Done(r);
    var v := DiffIntended(f, s, pars);
    forall k | 0 <= k < |r| ensures r[k] == v[k] {
      assert f.yp[k] == sup.yp[kk[k]];
    }
    assert r == v;
  }

  /** Over the whole of a single track the support is the track itself, so
      there the residuals as written are the intended ones. */
  lemma WholeTrack(loc: Option<string>, d: seq<real>, moy: seq<Value>, std: seq<Value>)
    requires |moy| == |d| && |std| == |d| && |d| > 0
    requires loc != Some("positive") && loc != Some("negative")
    ensures Along(loc, d, moy, std) == Done(Support(d, moy, std))
  {
    var side := Side(loc, d);
    KeepAll(d, side);
    KeepAll(moy, side);
    KeepAll(std, side);
  }

  /** A mask of which every entry is set keeps everything. */
  lemma {:induction false} KeepAll<T>(s: seq<T>, m: seq<bool>)
    requires |m| == |s| && forall i :: 0 <= i < |m| ==> m[i]
    ensures Keep(s, m) == s
  {
    if |s| > 0 {
      KeepAll(s[1..], m[1..]);
      assert s == [s[0]] + s[1..];
    }
  }

  /** Two tracks whose medians differ by exactly the line `y = x` where they
      overlap, the second with one more bin before the overlap. */
  lemma OverlapExampleMasks()
    ensures Member([0.5, 1.5], [-0.5, 0.5, 1.5]) == [true, true]
    ensures Member([-0.5, 0.5, 1.5], [0.5, 1.5]) == [false] + [true, true]
  {
    var d1, d2 := [0.5, 1.5], [-0.5, 0.5, 1.5];
    assert d1[0] == d2[1] && d1[1] == d2[2];
    assert d2[0] !in d1;
  }

  lemma OverlapExample(num: Numerics)
    ensures Overlap(num, [0.5, 1.5], [Num(1.0), Num(2.0)], [Num(0.1), Num(0.1)],
                    [-0.5, 0.5, 1.5], [Num(0.0), Num(0.5), Num(0.5)], [Num(0.1), Num(0.1), Num(0.1)]).Done?
    ensures var sup := Overlap(num, [0.5, 1.5], [Num(1.0), Num(2.0)], [Num(0.1), Num(0.1)],
                               [-0.5, 0.5, 1.5], [Num(0.0), Num(0.5), Num(0.5)], [Num(0.1), Num(0.1), Num(0.1)]).value;
      sup.yp == [0.5, 1.5] && sup.los == [Num(0.5), Num(1.5)]
  {
    var d1, d2 := [0.5, 1.5], [-0.5, 0.5, 1.5];
    var moy1, moy2 := [Num(1.0), Num(2.0)], [Num(0.0), Num(0.5), Num(0.5)];
    var m1, m2 := Member(d1, d2), Member(d2, d1);
    OverlapExampleMasks();
    KeepAll(d1, m1);
    KeepAll(moy1, m1);
    KeepAll(moy2[1..], m2[1..]);
    assert Keep(moy2, m2) == Keep(moy2[1..], m2[1..]) == [Num(0.5), Num(0.5)];
  }

  /** On that overlap the line `y = x` leaves no intended residual, while the
      residuals as written, which take the ramp at the second track's first
      two bins, are all 1. */
  lemma DiffMisaligned(num: Numerics)
    ensures var sup := Support([0.5, 1.5], [Num(0.5), Num(1.5)], [Num(0.1), Num(0.1)]);
      DiffIntended(DropNaN(sup), Linear, [1.0, 0.0]) == [0.0, 0.0] &&
      DiffAsWritten(sup, [-0.5, 0.5, 1.5], Linear, [1.0, 0.0]) == Done([1.0, 1.0])
  {
    var sup := Support([0.5, 1.5], [Num(0.5), Num(1.5)], [Num(0.1), Num(0.1)]);
    MisalignedSupport();
    var kk := NotNaN(sup.los);
    var f := DropNaN(sup);
    var d2 := [-0.5, 0.5, 1.5];
    assert !exists k :: 0 <= k < |Kept(kk)| && Kept(kk)[k] >= |d2|;
    var w := seq(|f.los|, k requires 0 <= k < |f.los| => f.los[k] - Poly(Linear, [1.0, 0.0], d2[Kept(kk)[k]]));
    assert w[0] == 1.0 && w[1] == 1.0;
    assert w == [1.0, 1.0];
    var v := DiffIntended(f, Linear, [1.0, 0.0]);
    assert v[0] == 0.0 && v[1] == 0.0;
  }

  /** The overlap of the example has no NaN: both points are kept. */
  lemma MisalignedSupport()
    ensures var sup := Support([0.5, 1.5], [Num(0.5), Num(1.5)], [Num(0.1), Num(0.1)]);
      Kept(NotNaN(sup.los)) == [0, 1] && DropNaN(sup).yp == [0.5, 1.5] && DropNaN(sup).los == [0.5, 1.5]
  {
    var sup := Support([0.5, 1.5], [Num(0.5), Num(1.5)], [Num(0.1), Num(0.1)]);
    var kk := NotNaN(sup.los);
    assert kk == [true, true];
    KeepAll(sup.yp, kk);
    assert Kept(kk) == [0, 1];
    assert Numbers(sup.los) == [0.5, 1.5];
  }

  // ------------------------------------------------------------ flattening

  /** The track the ramp is fitted on and added to: the second of two, and
      otherwise the first. */
  function Track(insars: seq<Network>): Network
    requires |insars| > 0
  {
    if |insars| == 2 then insars[1] else insars[0]
  }

  /** What the binning leaves in a track: one median and one spread per bin,
      and the arrays the ramp is added to aligned with their distances. */
  predicate Binned(t: Network)
    reads t
  {
    |t.moyLos| == |t.distance| && |t.stdLos| == |t.distance| && RampAligned(t)
  }

  /** The support of the ramp: the overlap of two tracks, or the chosen side
      of the track. */
  function FitSupport(insars: seq<Network>, loc: Option<string>, num: Numerics): (r: Outcome<Support>)
    requires |insars| > 0 && Binned(insars[0]) && Binned(Track(insars))
    reads insars[0], Track(insars)
    ensures r.Done? ==> Aligned(r.value) && |r.value.yp| <= |Track(insars).distance|
  {
    var t := Track(insars);
    if |insars| == 2 then
      var i1 := insars[0];
      Overlap(num, i1.distance, i1.moyLos, i1.stdLos, t.distance, t.moyLos, t.stdLos)
    else Along(loc, t.distance, t.moyLos, t.stdLos)
  }

  /** Fitting and removing the ramp on a track once its support is known: the
      design matrix for the solver, the ramp added to every representation of
      the track, and the residuals as the histogram computes them. */
  method FlattenTrack(t: Network, sup: Support, s: Shape, pars: seq<real>)
    returns (fit: Fit, diff: seq<real>)
    requires Binned(t) && Aligned(sup) && |sup.yp| <= |t.distance| && |pars| == Columns(s)
    modifies t`moyLos, t`uulos, t`uu, t`ulos, t`uloscor
    ensures fit == DropNaN(sup) && diff == DiffAsWritten(sup, t.distance, s, pars).value
    ensures Binned(t)
    ensures t.moyLos == Ramped(old(t.moyLos), t.distance, s, pars)
    ensures t.uulos == RampedReal(old(t.uulos), t.yperp, s, pars)
    ensures t.uu == Ramped(old(t.uu), t.yypp, s, pars)
    ensures t.ulos == Ramped(old(t.ulos), t.ypp, s, pars)
    ensures t.uloscor == Ramped(old(t.uloscor), t.ypp, s, pars)
  {
    fit := DropNaN(sup);
    var g := BuildDesign(s, fit.yp);
    ApplyRamp(t, s, pars);
    diff := DiffAsWritten(sup, t.distance, s, pars).value;
  }

  /** The flattening step of a profile: nothing without `flat`; otherwise the
      support (two scenes: their overlap; otherwise the side of the first
      scene that `loc_ramp` names), then the ramp with the solver's
      coefficients `pars` added to `Track` — the second of two scenes,
      otherwise the first — and to no other scene. */
  method Flatten(insars: seq<Network>, flat: Option<string>, loc: Option<string>, pars: seq<real>, num: Numerics)
    returns (st: Status, fit: Option<Fit>, diff: seq<real>)
    requires flat.Some? ==> |pars| == Columns(ShapeOf(flat.value))
    requires |insars| > 0 ==> Binned(insars[0]) && Binned(Track(insars))
    modifies if |insars| == 0 then {} else {Track(insars)}
    ensures flat.None? ==> st == Ok && fit == None && diff == []
    ensures flat.Some? && |insars| == 0 ==> st == Stop(IndexOutOfRange)
    ensures flat.Some? && |insars| > 0 ==>
      (st.Ok? <==> old(FitSupport(insars, loc, num)).Done?) &&
      (st.Stop? ==> st.crash == old(FitSupport(insars, loc, num)).crash) &&
      (st.Ok? ==> fit == Some(DropNaN(old(FitSupport(insars, loc, num)).value)))
    ensures |insars| > 0 && (flat.None? || st.Stop?) ==> unchanged(Track(insars))
    ensures |insars| > 0 && flat.Some? && st.Ok? ==>
      var t, s := Track(insars), ShapeOf(flat.value);
      Binned(t) && t.distance == old(t.distance) && t.yperp == old(t.yperp) && t.yypp == old(t.yypp) && t.ypp == old(t.ypp) &&
      t.moyLos == Ramped(old(t.moyLos), t.distance, s, pars) &&
      t.uulos == RampedReal(old(t.uulos), t.yperp, s, pars) &&
      t.uu == Ramped(old(t.uu), t.yypp, s, pars) &&
      t.ulos == Ramped(old(t.ulos), t.ypp, s, pars) &&
      t.uloscor == Ramped(old(t.uloscor), t.ypp, s, pars)
  {
    if flat.None? {
      return Ok, None, [];
    }
    if |insars| == 0 {
      return Stop(IndexOutOfRange), None, [];
    }
    var sup := FitSupport(insars, loc, num);
    if sup.Fail? {
      return Stop(sup.crash), None, [];
    }
    var f;
    f, diff := FlattenTrack(Track(insars), sup.value, ShapeOf(flat.value), pars);
    st, fit := Ok, Some(f);
  }
}
