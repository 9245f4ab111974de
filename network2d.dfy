/** GNSS and InSAR datasets (network2d.py): the object that loads a point
    network, converts its units and positions, and later carries the
    per-profile selections the driver computes. */
module Network2d {
  import opened Common
  import opened Reference

  /** The columns `np.loadtxt(..., unpack=True)` returns for a GNSS file:
      position, east/north/up velocity, their sigmas, station names. A
      two-dimensional file has no up columns; `vu` and `su` are then unused. */
  datatype GpsColumns = GpsColumns(c0: seq<real>, c1: seq<real>, ve: seq<real>, vn: seq<real>, vu: seq<real>,
                                   se: seq<real>, sn: seq<real>, su: seq<real>, names: seq<string>)
  {
    predicate Aligned()
    {
      |c1| == |c0| && |ve| == |c0| && |vn| == |c0| && |vu| == |c0| &&
      |se| == |c0| && |sn| == |c0| && |su| == |c0| && |names| == |c0|
    }
  }

  /** The columns of an InSAR file: position, line-of-sight displacement (NaN
      allowed) and, with `theta`, the incidence angle. */
  datatype InsarColumns = InsarColumns(c0: seq<real>, c1: seq<real>, ulos: seq<Value>, los: seq<real>)
  {
    predicate Aligned()
    {
      |c1| == |c0| && |ulos| == |c0| && |los| == |c0|
    }
  }

  /** The `proj=[east, north, up]` line-of-sight vector. */
  datatype LosVector = LosVector(e: real, n: real, u: real)

  /** `ux * p[0] + uy * p[1] + uv * p[2]`, station by station. */
  function LosProject(p: LosVector, ux: seq<real>, uy: seq<real>, uv: seq<real>): (r: seq<real>)
    requires |uy| == |ux| && |uv| == |ux|
    ensures |r| == |ux|
    ensures forall i :: 0 <= i < |ux| ==> r[i] == ux[i] * p.e + uy[i] * p.n + uv[i] * p.u
  {
    seq(|ux|, i requires 0 <= i < |ux| => ux[i] * p.e + uy[i] * p.n + uv[i] * p.u)
  }

  /** Projecting velocities scaled by `scale` onto the line of sight is the
      same as scaling the projection of the raw velocities. */
  lemma LosProjectScale(p: LosVector, ve: seq<real>, vn: seq<real>, vu: seq<real>, scale: real)
    requires |vn| == |ve| && |vu| == |ve|
    ensures LosProject(p, Scale(ve, scale), Scale(vn, scale), Scale(vu, scale)) == Scale(LosProject(p, ve, vn, vu), scale)
  {
    var l := LosProject(p, Scale(ve, scale), Scale(vn, scale), Scale(vu, scale));
    var r := Scale(LosProject(p, ve, vn, vu), scale);
    forall i | 0 <= i < |ve| ensures l[i] == r[i] {
      calc {
        l[i];
        ve[i] * scale * p.e + vn[i] * scale * p.n + vu[i] * scale * p.u;
        (ve[i] * p.e + vn[i] * p.n + vu[i] * p.u) * scale;
      }
    }
  }

  /** Reals as IEEE values (never NaN). */
  function AsValues(s: seq<real>): (r: seq<Value>)
    ensures |r| == |s| && forall i :: 0 <= i < |s| ==> r[i] == Num(s[i])
  {
    seq(|s|, i requires 0 <= i < |s| => Num(s[i]))
  }

  /** `ulos * scale + cst`: NaN stays NaN, numbers are scaled then offset. */
  function ScaleOffset(vs: seq<Value>, scale: real, cst: real): (r: seq<Value>)
    ensures |r| == |vs|
    ensures forall i :: 0 <= i < |vs| ==> (r[i].Num? <==> vs[i].Num?)
    ensures forall i :: 0 <= i < |vs| && vs[i].Num? ==> r[i].r == vs[i].r * scale + cst
  {
    seq(|vs|, i requires 0 <= i < |vs| => if vs[i].Num? then Num(vs[i].r * scale + cst) else NaN)
  }

  /** Offsetting by `cst` keeps the NaN pattern and shifts every number by the
      same amount, so differences between pixels depend only on `scale`. */
  lemma ScaleOffsetDifference(vs: seq<Value>, scale: real, cst: real, i: int, j: int)
    requires 0 <= i < |vs| && 0 <= j < |vs| && vs[i].Num? && vs[j].Num?
    ensures ScaleOffset(vs, scale, cst)[i].r - ScaleOffset(vs, scale, cst)[j].r == (vs[i].r - vs[j].r) * scale
  {
  }

  /** The smallest element. */
  function SeqMin(s: seq<real>): (m: real)
    requires |s| > 0
    ensures m in s
    ensures forall i :: 0 <= i < |s| ==> m <= s[i]
  {
    if |s| == 1 then s[0]
    else
      var rest := SeqMin(s[1..]);
      assert forall i :: 1 <= i < |s| ==> s[i] == s[1..][i - 1];
      if s[0] <= rest then s[0] else rest
  }

  /** The largest element. */
  function SeqMax(s: seq<real>): (m: real)
    requires |s| > 0
    ensures m in s
    ensures forall i :: 0 <= i < |s| ==> s[i] <= m
  {
    if |s| == 1 then s[0]
    else
      var rest := SeqMax(s[1..]);
      assert forall i :: 1 <= i < |s| ==> s[i] == s[1..][i - 1];
      if s[0] >= rest then s[0] else rest
  }

  /** `((lmin or lmax) is None)`: `lmin or lmax` is `lmax` when `lmin` is
      None or zero, and `lmin` otherwise, which is never None. */
  predicate NeedsLimits(lmin: Option<real>, lmax: Option<real>)
  {
    (lmin.None? || lmin == Some(0.0)) && lmax.None?
  }

  /** The default colour-scale limits of a GNSS network: one below the
      smallest and one above the largest horizontal velocity component.
      `np.min` of an empty network stops the run. */
  function DefaultLimits(ux: seq<real>, uy: seq<real>): (r: Outcome<(real, real)>)
    ensures r.Fail? <==> |ux| + |uy| == 0
    ensures r.Fail? ==> r.crash == EmptyReduction
  {
    var all := ux + uy;
    if |all| == 0 then Fail(EmptyReduction)
    else Done((SeqMin(all) - 1.0, SeqMax(all) + 1.0))
  }

  /** The default limits lie one unit outside the extreme velocity
      components, so every component is strictly inside them. */
  lemma DefaultLimitsBracket(ux: seq<real>, uy: seq<real>)
    requires |ux| + |uy| > 0
    ensures var r := DefaultLimits(ux, uy);
      r.Done? && r.value.0 < r.value.1 &&
      r.value.0 + 1.0 in ux + uy && r.value.1 - 1.0 in ux + uy &&
      forall v :: v in ux + uy ==> r.value.0 < v < r.value.1
  {
    var all := ux + uy;
    assert SeqMin(all) in all && SeqMax(all) in all;
  }

  /** The positions a loader stores. With an EPSG code: `UTM(lon, lat)` minus
      the reference. Without one: the native columns, multiplied by 1e3 when
      `toMetres` holds and never translated by the reference. */
  function LoadedPositions(c0: seq<real>, c1: seq<real>, utmProj: Option<int>, toMetres: bool, f: Frame, svc: ProjectionService)
    : (p: (seq<real>, seq<real>))
    requires |c1| == |c0|
    ensures |p.0| == |c0| && |p.1| == |c0|
  {
    if utmProj.Some? then ProjectColumns(svc, utmProj.value, f, c0, c1)
    else if toMetres then (Scale(c0, KmToM), Scale(c1, KmToM))
    else (c0, c1)
  }

  /** Point by point: a projected position plus the reference is the
      projection of the geographic point; a native one is the file's value,
      in metres when converted. */
  lemma LoadedPositionsAt(c0: seq<real>, c1: seq<real>, utmProj: Option<int>, toMetres: bool, f: Frame, svc: ProjectionService, i: int)
    requires |c1| == |c0| && 0 <= i < |c0|
    ensures var p := LoadedPositions(c0, c1, utmProj, toMetres, f, svc);
      (utmProj.None? && toMetres ==> p.0[i] == c0[i] * KmToM && p.1[i] == c1[i] * KmToM) &&
      (utmProj.None? && !toMetres ==> p.0[i] == c0[i] && p.1[i] == c1[i]) &&
      (utmProj.Some? ==> (p.0[i] + f.refX, p.1[i] + f.refY) == svc.forward(utmProj.value, c0[i], c1[i]))
  {
  }

  /** The `ulos`, `sigmalos` columns of a GNSS network: projections of the
      velocities and of the sigmas when `proj` is set, zeros of length `Npoint`
      otherwise. Reading `uv` on a network that has none stops the run, and so
      does combining columns of different lengths. */
  function GpsLos(proj: Option<LosVector>, ux: seq<real>, uy: seq<real>, sx: seq<real>, sy: seq<real>,
                  uv: Option<seq<real>>, sv: Option<seq<real>>): (r: Outcome<(seq<Value>, seq<real>)>)
    requires |uy| == |ux| && |sx| == |ux| && |sy| == |ux|
    ensures r.Fail? <==> proj.Some? && (uv.None? || sv.None? || |uv.value| != |ux| || |sv.value| != |ux|)
    ensures r.Fail? && (uv.None? || sv.None?) ==> r.crash == MissingAttribute
    ensures r.Done? ==> |r.value.0| == |ux| && |r.value.1| == |ux|
  {
    if proj.None? then Done((AsValues(Zeros(|ux|)), Zeros(|ux|)))
    else if uv.None? || sv.None? then Fail(MissingAttribute)
    else if |uv.value| != |ux| || |sv.value| != |ux| then Fail(ShapeMismatch)
    else Done((AsValues(LosProject(proj.value, ux, uy, uv.value)), LosProject(proj.value, sx, sy, sv.value)))
  }

  /** Station by station: with a LOS vector, `ulos` is the projection of the
      velocity and `sigmalos` that of the sigmas; without one both are zero. */
  lemma GpsLosAt(proj: Option<LosVector>, ux: seq<real>, uy: seq<real>, sx: seq<real>, sy: seq<real>,
                 uv: Option<seq<real>>, sv: Option<seq<real>>, i: int)
    requires |uy| == |ux| && |sx| == |ux| && |sy| == |ux| && 0 <= i < |ux|
    requires GpsLos(proj, ux, uy, sx, sy, uv, sv).Done?
    ensures var r := GpsLos(proj, ux, uy, sx, sy, uv, sv).value;
      (proj.Some? ==>
        r.0[i] == Num(ux[i] * proj.value.e + uy[i] * proj.value.n + uv.value[i] * proj.value.u) &&
        r.1[i] == sx[i] * proj.value.e + sy[i] * proj.value.n + sv.value[i] * proj.value.u) &&
      (proj.None? ==> r.0[i] == Num(0.0) && r.1[i] == 0.0)
  {
  }

  /** Whether `GpsLos` can read the vertical columns it needs for `n` stations. */
  predicate LosReadable(proj: Option<LosVector>, n: int, uv: Option<seq<real>>, sv: Option<seq<real>>)
  {
    proj.Some? ==> uv.Some? && sv.Some? && |uv.value| == n && |sv.value| == n
  }

  /** What `loadinsar` leaves in the dataset when it finishes. */
  datatype InsarLoaded = InsarLoaded(frame: Frame, x: seq<real>, y: seq<real>, lon: seq<real>, lat: seq<real>,
                                     los: Option<seq<real>>, ulos: seq<Value>)

  /** `network.loadinsar()`: every column is cut with the same slice
      `[::samp]` (a zero step stops the run); positions as `LoadedPositions`,
      converted from kilometres only when `theta` is off; the incidence column
      kept with `theta`; the displacement becomes `ulos * scale + cst`. */
  function InsarLoad(c: InsarColumns, samp: int, theta: bool, scale: real, cst: real, utmProj: Option<int>, ref: Option<Pair>,
                     f0: Frame, lon0: seq<real>, lat0: seq<real>, los0: Option<seq<real>>, svc: ProjectionService)
    : (r: Outcome<InsarLoaded>)
    requires c.Aligned()
    ensures var f := UpdateFrame(f0, utmProj, ref, svc);
      r.Done? <==> f.Done? && samp != 0 && (utmProj.Some? ==> f.value.utmSet)
    ensures r.Fail? && UpdateFrame(f0, utmProj, ref, svc).Done? && samp == 0 ==> r.crash == SliceStepZero
    ensures r.Done? ==> r.value.frame == UpdateFrame(f0, utmProj, ref, svc).value
    ensures r.Done? ==> ((r.value.x, r.value.y) ==
      LoadedPositions(Stride(c.c0, samp), Stride(c.c1, samp), utmProj, !theta, r.value.frame, svc))
    ensures r.Done? ==> ((r.value.lon, r.value.lat) ==
      if utmProj.Some? then (Stride(c.c0, samp), Stride(c.c1, samp)) else (lon0, lat0))
    ensures r.Done? ==> r.value.los == if theta then Some(Stride(c.los, samp)) else los0
    ensures r.Done? ==> r.value.ulos == ScaleOffset(Stride(c.ulos, samp), scale, cst)
  {
    var f := UpdateFrame(f0, utmProj, ref, svc);
    if f.Fail? then Fail(f.crash)
    else if samp == 0 then Fail(SliceStepZero)
    else if utmProj.Some? && !f.value.utmSet then Fail(MissingAttribute)
    else
      var c0, c1 := Stride(c.c0, samp), Stride(c.c1, samp);
      var los := if theta then Some(Stride(c.los, samp)) else los0;
      var ulos := ScaleOffset(Stride(c.ulos, samp), scale, cst);
      var p := LoadedPositions(c0, c1, utmProj, !theta, f.value, svc);
      var lon := if utmProj.None? then lon0 else c0;
      var lat := if utmProj.None? then lat0 else c1;
      Done(InsarLoaded(f.value, p.0, p.1, lon, lat, los, ulos))
  }

  /** `network`: an InSAR track (`dim == 1`) or a GNSS network (`dim` 2 or 3). */
  class Network {
    var network: string
    var dim: int
    var scale: real
    var theta: bool
    var samp: int
    var perc: real
    var lmin: Option<real>
    var lmax: Option<real>
    var cst: real
    var utmProj: Option<int>
    var ref: Option<Pair>
    var frame: Frame
    var proj: Option<LosVector>

    // loaded columns
    var npoint: int
    var x: seq<real>
    var y: seq<real>
    var lon: seq<real>
    var lat: seq<real>
    var names: seq<string>
    var ux: seq<real>
    var uy: seq<real>
    var uv: Option<seq<real>>
    var sigmax: seq<real>
    var sigmay: seq<real>
    var sigmav: Option<seq<real>>
    var ulos: seq<Value>
    var sigmalos: seq<real>
    var los: Option<seq<real>>
    var uloscor: seq<Value>

    // per-profile selections (set by the profile loop)
    var ypp: seq<real>
    var xpp: seq<real>
    var uu: seq<Value>
    var xx: seq<real>
    var yy: seq<real>
    var xxpp: seq<real>
    var yypp: seq<real>
    var distance: seq<real>
    var moyLos: seq<Value>
    var stdLos: seq<Value>
    var xperp: seq<real>
    var yperp: seq<real>
    var uulos: seq<real>
    var uux: seq<real>
    var uuy: seq<real>
    var sigmaxx: seq<real>
    var sigmayy: seq<real>
    var xxp: seq<real>
    var yyp: seq<real>
    var upar: seq<real>
    var uperp: seq<real>
    var sigmapar: seq<real>
    var sigmaperp: seq<real>
    var uuv: seq<real>
    var sigmavv: seq<real>
    var slos: seq<real>

    /** `network.__init__`: stores the options; no point is loaded yet and the
        reference offsets are zero. */
    constructor (network: string, dim: int, scale: real, theta: bool, samp: int, perc: real,
                 lmin: Option<real>, lmax: Option<real>, utmProj: Option<int>, ref: Option<Pair>,
                 cst: real, proj: Option<LosVector>)
      ensures this.network == network && this.dim == dim && this.scale == scale && this.theta == theta
      ensures this.samp == samp && this.perc == perc && this.lmin == lmin && this.lmax == lmax
      ensures this.utmProj == utmProj && this.ref == ref && this.cst == cst && this.proj == proj
      ensures this.frame == Initial && this.npoint == 0 && this.x == [] && this.y == []
      ensures this.uv.None? && this.sigmav.None? && this.los.None?
    {
      this.network, this.dim, this.scale, this.theta := network, dim, scale, theta;
      this.samp, this.perc, this.lmin, this.lmax := samp, perc, lmin, lmax;
      this.utmProj, this.ref, this.cst, this.proj := utmProj, ref, cst, proj;
      this.frame := Initial;
      this.npoint := 0;
      this.x, this.y, this.lon, this.lat, this.names := [], [], [], [], [];
      this.ux, this.uy, this.sigmax, this.sigmay := [], [], [], [];
      this.uv, this.sigmav, this.los := None, None, None;
      this.ulos, this.sigmalos, this.uloscor := [], [], [];
      this.ypp, this.xpp, this.uu, this.xx, this.yy, this.xxpp, this.yypp := [], [], [], [], [], [], [];
      this.distance, this.moyLos, this.stdLos, this.xperp, this.yperp, this.uulos := [], [], [], [], [], [];
      this.uux, this.uuy, this.sigmaxx, this.sigmayy, this.xxp, this.yyp := [], [], [], [], [], [];
      this.upar, this.uperp, this.sigmapar, this.sigmaperp := [], [], [], [];
      this.uuv, this.sigmavv, this.slos := [], [], [];
    }

    /** The attributes `loadinsar` sets, as one record. */
    function InsarState(): InsarLoaded
      reads this
    {
      InsarLoaded(frame, x, y, lon, lat, los, ulos)
    }

    /** `network.update_proj(ref)`. */
    method UpdateProj(ref: Option<Pair>, svc: ProjectionService) returns (st: Status)
      modifies this`ref, this`frame
      ensures this.ref == ref
      ensures var f := UpdateFrame(old(frame), utmProj, ref, svc);
        (st.Ok? <==> f.Done?) && frame == (if f.Done? then f.value else old(frame))
    {
      this.ref := ref;
      var f := UpdateFrame(frame, utmProj, ref, svc);
      if f.Fail? {
        return Stop(f.crash);
      }
      frame := f.value;
      return Ok;
    }

    /** After the position step of `loadgps`: positions as `LoadedPositions`
        (converted from kilometres), `lon`, `lat` kept with an EPSG code, and
        the station names. */
    predicate GpsPositionsLoaded(c: GpsColumns, code: Option<int>, f: Frame, lon0: seq<real>, lat0: seq<real>, svc: ProjectionService)
      requires c.Aligned()
      reads this
    {
      (x, y) == LoadedPositions(c.c0, c.c1, code, true, f, svc) &&
      (lon, lat) == (if code.Some? then (c.c0, c.c1) else (lon0, lat0)) &&
      names == c.names
    }

    /** After the velocity step of `loadgps`: every velocity and sigma is the
        file's multiplied by `k`; the vertical columns exist for a
        three-dimensional network and are otherwise left as they were. */
    predicate GpsVelocitiesLoaded(c: GpsColumns, k: real, vertical: bool, uv0: Option<seq<real>>, sv0: Option<seq<real>>)
      reads this
    {
      ux == Scale(c.ve, k) && uy == Scale(c.vn, k) && sigmax == Scale(c.se, k) && sigmay == Scale(c.sn, k) &&
      (uv, sigmav) == if vertical then (Some(Scale(c.vu, k)), Some(Scale(c.su, k))) else (uv0, sv0)
    }

    /** After the LOS step of `loadgps`: one count per station, and `ulos`,
        `sigmalos` as `GpsLos`. */
    predicate GpsLosLoaded(p: Option<LosVector>)
      reads this
    {
      npoint == |names| && |uy| == |ux| && |sigmax| == |ux| && |sigmay| == |ux| &&
      Done((ulos, sigmalos)) == GpsLos(p, ux, uy, sigmax, sigmay, uv, sigmav)
    }

    /** After the limit step of `loadgps`: when `lmin` is missing or zero and
        `lmax` is missing, both limits are replaced by `DefaultLimits` of the
        velocities (a given `lmin` of 0 is overwritten too); otherwise both are
        kept as they were, even a missing `lmin` beside a given `lmax`. */
    predicate GpsLimitsLoaded(lmin0: Option<real>, lmax0: Option<real>)
      reads this
    {
      (NeedsLimits(lmin0, lmax0) ==> lmin.Some? && lmax.Some? && Done((lmin.value, lmax.value)) == DefaultLimits(ux, uy)) &&
      (!NeedsLimits(lmin0, lmax0) ==> lmin == lmin0 && lmax == lmax0)
    }

    /** `network.loadgps()` on the columns of the file: the reference first,
        then the dimension check (other than 2 or 3 exits), then the columns. */
    method LoadGps(c: GpsColumns, svc: ProjectionService) returns (st: Status)
      requires c.Aligned()
      modifies this`ref, this`frame, this`x, this`y, this`lon, this`lat, this`names, this`npoint
      modifies this`ux, this`uy, this`sigmax, this`sigmay, this`uv, this`sigmav, this`ulos, this`sigmalos, this`lmin, this`lmax
      ensures ref == old(ref)
      ensures var f := UpdateFrame(old(frame), utmProj, ref, svc);
        st.Ok? <==>
          f.Done? && (dim == 2 || dim == 3) && (utmProj.Some? ==> f.value.utmSet) &&
          LosReadable(proj, |c.c0|, if dim == 3 then Some(c.vu) else old(uv), if dim == 3 then Some(c.su) else old(sigmav)) &&
          (NeedsLimits(old(lmin), old(lmax)) ==> |c.c0| > 0)
      ensures st.Ok? ==> frame == UpdateFrame(old(frame), utmProj, ref, svc).value
      ensures st.Ok? ==> GpsPositionsLoaded(c, utmProj, frame, old(lon), old(lat), svc)
      ensures st.Ok? ==> GpsVelocitiesLoaded(c, scale, dim == 3, old(uv), old(sigmav))
      ensures st.Ok? ==> GpsLosLoaded(proj) && GpsLimitsLoaded(old(lmin), old(lmax))
    {
      st := UpdateProj(ref, svc);
      if st.Stop? {
        return;
      }
      if dim != 2 && dim != 3 {
        return Stop(ConfigExit);
      }
      st := LoadGpsColumns(c, svc);
    }

    /** The column part of `loadgps`, in the frame already set. */
    method LoadGpsColumns(c: GpsColumns, svc: ProjectionService) returns (st: Status)
      requires c.Aligned()
      modifies this`x, this`y, this`lon, this`lat, this`names, this`npoint
      modifies this`ux, this`uy, this`sigmax, this`sigmay, this`uv, this`sigmav, this`ulos, this`sigmalos, this`lmin, this`lmax
      ensures st.Ok? <==>
        (utmProj.Some? ==> frame.utmSet) &&
        LosReadable(proj, |c.c0|, if dim == 3 then Some(c.vu) else old(uv), if dim == 3 then Some(c.su) else old(sigmav)) &&
        (NeedsLimits(old(lmin), old(lmax)) ==> |c.c0| > 0)
      ensures st.Ok? ==> GpsPositionsLoaded(c, utmProj, frame, old(lon), old(lat), svc)
      ensures st.Ok? ==> GpsVelocitiesLoaded(c, scale, dim == 3, old(uv), old(sigmav))
      ensures st.Ok? ==> GpsLosLoaded(proj) && GpsLimitsLoaded(old(lmin), old(lmax))
    {
      st := SetGpsPositions(c, svc);
      if st.Stop? {
        return;
      }
      ghost var placed := (x, y, lon, lat, names);
      st := LoadGpsMotion(c);
      assert (x, y, lon, lat, names) == placed;
    }

    /** The velocity part of `loadgps`: velocities, then what is derived from them. */
    method LoadGpsMotion(c: GpsColumns) returns (st: Status)
      requires c.Aligned() && |names| == |c.c0|
      modifies this`npoint, this`ux, this`uy, this`sigmax, this`sigmay, this`uv, this`sigmav, this`ulos, this`sigmalos, this`lmin, this`lmax
      ensures st.Ok? <==>
        LosReadable(proj, |c.c0|, if dim == 3 then Some(c.vu) else old(uv), if dim == 3 then Some(c.su) else old(sigmav)) &&
        (NeedsLimits(old(lmin), old(lmax)) ==> |c.c0| > 0)
      ensures st.Ok? ==> GpsVelocitiesLoaded(c, scale, dim == 3, old(uv), old(sigmav))
      ensures st.Ok? ==> GpsLosLoaded(proj) && GpsLimitsLoaded(old(lmin), old(lmax))
    {
      SetGpsVelocities(c);
      ghost var moved := (ux, uy, sigmax, sigmay, uv, sigmav);
      st := LoadGpsDerived();
      assert (ux, uy, sigmax, sigmay, uv, sigmav) == moved;
    }

    /** The derived part of `loadgps`: station count and LOS columns, then the colour limits. */
    method LoadGpsDerived() returns (st: Status)
      requires |uy| == |ux| && |sigmax| == |ux| && |sigmay| == |ux| && |names| == |ux|
      modifies this`npoint, this`ulos, this`sigmalos, this`lmin, this`lmax
      ensures st.Ok? <==> LosReadable(proj, |ux|, uv, sigmav) && (NeedsLimits(old(lmin), old(lmax)) ==> |ux| > 0)
      ensures st.Ok? ==> GpsLosLoaded(proj) && GpsLimitsLoaded(old(lmin), old(lmax))
    {
      st := SetGpsLos();
      if st.Stop? {
        return;
      }
      ghost var projected := (npoint, ulos, sigmalos);
      st := SetGpsLimits();
      assert (npoint, ulos, sigmalos) == projected;
    }

    /** The position step of `loadgps`: an EPSG code keeps the geographic
        columns and needs the projector, which a failed creation left unset. */
    method SetGpsPositions(c: GpsColumns, svc: ProjectionService) returns (st: Status)
      requires c.Aligned()
      modifies this`x, this`y, this`lon, this`lat, this`names
      ensures st.Ok? <==> utmProj.None? || frame.utmSet
      ensures st.Ok? ==> GpsPositionsLoaded(c, utmProj, frame, old(lon), old(lat), svc)
    {
      names := c.names;
      if utmProj.Some? {
        lon, lat := c.c0, c.c1;
        if !frame.utmSet {
          return Stop(MissingAttribute);
        }
      }
      var p := LoadedPositions(c.c0, c.c1, utmProj, true, frame, svc);
      x, y := p.0, p.1;
      return Ok;
    }

    /** The velocity step of `loadgps`. */
    method SetGpsVelocities(c: GpsColumns)
      modifies this`ux, this`uy, this`sigmax, this`sigmay, this`uv, this`sigmav
      ensures GpsVelocitiesLoaded(c, scale, dim == 3, old(uv), old(sigmav))
      ensures |ux| == |c.ve| && |uy| == |c.vn| && |sigmax| == |c.se| && |sigmay| == |c.sn|
    {
      ux, uy := Scale(c.ve, scale), Scale(c.vn, scale);
      sigmax, sigmay := Scale(c.se, scale), Scale(c.sn, scale);
      if dim == 3 {
        uv, sigmav := Some(Scale(c.vu, scale)), Some(Scale(c.su, scale));
      }
    }

    /** The LOS step of `loadgps`. */
    method SetGpsLos() returns (st: Status)
      requires |uy| == |ux| && |sigmax| == |ux| && |sigmay| == |ux|
      modifies this`npoint, this`ulos, this`sigmalos
      ensures st.Ok? <==> LosReadable(proj, |ux|, uv, sigmav)
      ensures st.Ok? ==> GpsLosLoaded(proj)
    {
      npoint := |names|;
      var r := GpsLos(proj, ux, uy, sigmax, sigmay, uv, sigmav);
      if r.Fail? {
        return Stop(r.crash);
      }
      ulos, sigmalos := r.value.0, r.value.1;
      return Ok;
    }

    /** The colour-limit step of `loadgps`: `(lmin or lmax) is None`. */
    method SetGpsLimits() returns (st: Status)
      modifies this`lmin, this`lmax
      ensures st.Ok? <==> !NeedsLimits(old(lmin), old(lmax)) || |ux| + |uy| > 0
      ensures st.Ok? ==> GpsLimitsLoaded(old(lmin), old(lmax))
    {
      if NeedsLimits(lmin, lmax) {
        var d := DefaultLimits(ux, uy);
        if d.Fail? {
          return Stop(d.crash);
        }
        lmin, lmax := Some(d.value.0), Some(d.value.1);
      }
      return Ok;
    }

    /** `network.loadinsar()` on the columns of the file: the dataset takes the
        columns `InsarLoad` computes, or the run stops with its crash. */
    method LoadInsar(c: InsarColumns, svc: ProjectionService) returns (st: Status)
      requires c.Aligned()
      modifies this`frame, this`x, this`y, this`lon, this`lat, this`los, this`ulos, this`npoint
      ensures var r := old(InsarLoad(c, samp, theta, scale, cst, utmProj, ref, frame, lon, lat, los, svc));
        (st.Ok? <==> r.Done?) &&
        (st.Ok? ==> InsarState() == r.value && npoint == |ulos|)
    {
      var r := InsarLoad(c, samp, theta, scale, cst, utmProj, ref, frame, lon, lat, los, svc);
      if r.Fail? {
        return Stop(r.crash);
      }
      frame, x, y, lon, lat := r.value.frame, r.value.x, r.value.y, r.value.lon, r.value.lat;
      los, ulos := r.value.los, r.value.ulos;
      npoint := |ulos|;
      return Ok;
    }

    /** The driver's line-of-sight correction after `loadinsar`: with `theta`
        each displacement is multiplied by its pixel's ratio
        `sin(mean incidence) / sin(incidence)` (the trigonometry is an input
        here); without `theta`, `uloscor` is `ulos` itself. */
    method CorrectLos(ratio: seq<real>)
      requires theta ==> |ratio| == |ulos|
      modifies this`uloscor
      ensures !theta ==> uloscor == ulos
      ensures theta ==> |uloscor| == |ulos| && forall i :: 0 <= i < |ulos| ==>
        (uloscor[i].Num? <==> ulos[i].Num?) && (ulos[i].Num? ==> uloscor[i].r == ulos[i].r * ratio[i])
    {
      if theta {
        var u := ulos;
        uloscor := seq(|u|, i requires 0 <= i < |u| => if u[i].Num? then Num(u[i].r * ratio[i]) else NaN);
      } else {
        uloscor := ulos;
      }
    }
  }

  /** A kept InSAR sample carries the position, displacement and incidence of
      one and the same line of the file: for a positive step, line `i * samp`. */
  lemma InsarSampleAligned(c: InsarColumns, samp: int, i: int)
    requires c.Aligned() && samp > 0 && 0 <= i < |Stride(c.ulos, samp)|
    ensures |Stride(c.c0, samp)| == |Stride(c.c1, samp)| == |Stride(c.ulos, samp)| == |Stride(c.los, samp)|
    ensures i * samp < |c.c0|
    ensures Stride(c.c0, samp)[i] == c.c0[i * samp] && Stride(c.c1, samp)[i] == c.c1[i * samp]
    ensures Stride(c.ulos, samp)[i] == c.ulos[i * samp] && Stride(c.los, samp)[i] == c.los[i * samp]
  {
  }

  /** With a negative step the file is read back to front: sample `i` is line
      `|file| - 1 - i * (-samp)`. */
  lemma InsarSampleReversed(c: InsarColumns, samp: int, i: int)
    requires c.Aligned() && samp < 0 && 0 <= i < |Stride(c.ulos, samp)|
    ensures |Stride(c.c0, samp)| == |Stride(c.ulos, samp)|
    ensures 0 <= |c.c0| - 1 - i * (-samp) < |c.c0|
    ensures Stride(c.c0, samp)[i] == c.c0[|c.c0| - 1 - i * (-samp)]
    ensures Stride(c.ulos, samp)[i] == c.ulos[|c.c0| - 1 - i * (-samp)]
  {
  }
}
