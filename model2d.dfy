/** Profiles, faults, topography and seismicity datasets (model2d.py).

    Each class keeps the attributes its methods update in place; a Python
    constructor that calls `sys.exit()` becomes a static `Create` that returns
    `Fail(ConfigExit)` instead of an object. */
module Model2d {
  import opened Common
  import opened Reference

  /** `strike - 180` for a positive strike, otherwise the strike itself. The
      profile line keeps its orientation and is given a non-positive direction. */
  function NormalizeStrike(strike: real): (r: real)
    ensures r == strike || r == strike - 180.0
    ensures r < strike <==> strike > 0.0
    ensures strike <= 180.0 ==> r <= 0.0
  {
    if strike > 0.0 then strike - 180.0 else strike
  }

  /** Normalising a strike of at most 180 degrees twice changes nothing. */
  lemma NormalizeStrikeIdempotent(strike: real)
    requires strike <= 180.0
    ensures NormalizeStrike(NormalizeStrike(strike)) == NormalizeStrike(strike)
  {
  }

  /** Where a fault or profile reference point ends up after `update_proj`:
      translated and converted to metres from native kilometres without an EPSG
      code, projected and translated with one. */
  datatype Placement = Placement(frame: Frame, x: Option<real>, y: Option<real>)

  // ================================================================= fault2d

  /** `fault2d`: a fault trace reference point, used for plotting only. */
  class Fault2d {
    var name: string
    var x: real
    var y: real
    var xx: real
    var yy: real
    var lon: Option<real>
    var lat: Option<real>
    var strike: Option<real>
    var utmProj: Option<int>
    var ref: Option<Pair>
    var frame: Frame

    /** `fault2d.__init__` once its exit check has passed: both `x` and `xx` (and
        `y`, `yy`) start at the given position. */
    constructor (name: string, x: real, y: real, lon: Option<real>, lat: Option<real>,
                 strike: Option<real>, utmProj: Option<int>, ref: Option<Pair>)
      ensures this.name == name && this.x == x && this.xx == x && this.y == y && this.yy == y
      ensures this.lon == lon && this.lat == lat && this.utmProj == utmProj && this.ref == ref
      ensures this.frame == Initial
      ensures this.strike == if strike.Some? then Some(NormalizeStrike(strike.value)) else None
    {
      this.name := name;
      this.x, this.xx := x, x;
      this.y, this.yy := y, y;
      this.lon, this.lat := lon, lat;
      this.utmProj := utmProj;
      this.ref := ref;
      this.frame := Initial;
      this.strike := if strike.Some? then Some(NormalizeStrike(strike.value)) else None;
    }

    /** `fault2d.__init__`: the run exits when `x` or `y` is missing. */
    static method Create(name: string, x: Option<real>, y: Option<real>, lon: Option<real>, lat: Option<real>,
                         strike: Option<real>, utmProj: Option<int>, ref: Option<Pair>)
      returns (r: Outcome<Fault2d>)
      ensures r.Fail? <==> x.None? || y.None?
      ensures r.Fail? ==> r.crash == ConfigExit
      ensures r.Done? ==> (fresh(r.value) && r.value.x == x.value && r.value.xx == x.value
        && r.value.y == y.value && r.value.yy == y.value && r.value.frame == Initial
        && r.value.strike == (if strike.Some? then Some(NormalizeStrike(strike.value)) else None))
    {
      if x.None? || y.None? {
        return Fail(ConfigExit);
      }
      var f := new Fault2d(name, x.value, y.value, lon, lat, strike, utmProj, ref);
      return Done(f);
    }

    /** `fault2d.update_proj(ref)`. */
    method UpdateProj(ref: Option<Pair>, svc: ProjectionService) returns (st: Status)
      modifies this`ref, this`frame, this`x, this`y
      ensures this.ref == ref
      ensures var p := FaultPlacement(old(frame), old(utmProj), ref, old(xx), old(yy), old(lon), old(lat), svc);
        (st.Ok? <==> p.Done?) && (p.Done? ==> frame == p.value.frame && x == p.value.x.value && y == p.value.y.value)
      ensures st.Stop? ==> frame == old(frame) && x == old(x) && y == old(y)
    {
      var p := FaultPlacement(frame, utmProj, ref, xx, yy, lon, lat, svc);
      this.ref := ref;
      if p.Fail? {
        return Stop(p.crash);
      }
      frame, x, y := p.value.frame, p.value.x.value, p.value.y.value;
      return Ok;
    }
  }

  /** The effect of `fault2d.update_proj`: without an EPSG code the stored
      position is translated by the reference and turned from kilometres into
      metres; with one, `(lon, lat)` is projected and translated. */
  function FaultPlacement(f: Frame, utmProj: Option<int>, ref: Option<Pair>, xx: real, yy: real,
                          lon: Option<real>, lat: Option<real>, svc: ProjectionService): (r: Outcome<Placement>)
    ensures r.Done? ==> r.value.x.Some? && r.value.y.Some?
    ensures r.Done? ==> UpdateFrameStrict(f, utmProj, ref, svc).Done? && r.value.frame == UpdateFrameStrict(f, utmProj, ref, svc).value
    ensures utmProj.None? ==> (r.Done? &&
      r.value.x.value == (xx - r.value.frame.refX) * KmToM && r.value.y.value == (yy - r.value.frame.refY) * KmToM)
    ensures utmProj.Some? && svc.known(utmProj.value) ==> (r.Fail? <==> lon.None? || lat.None?)
    ensures utmProj.Some? && r.Done? ==> (lon.Some? && lat.Some? &&
      (r.value.x.value + r.value.frame.refX, r.value.y.value + r.value.frame.refY)
        == svc.forward(utmProj.value, lon.value, lat.value))
  {
    var fr := UpdateFrameStrict(f, utmProj, ref, svc);
    if fr.Fail? then Fail(fr.crash)
    else if utmProj.None? then
      Done(Placement(fr.value, Some((xx - fr.value.refX) * KmToM), Some((yy - fr.value.refY) * KmToM)))
    else if lon.None? || lat.None? then Fail(NoneArithmetic)
    else
      var p := svc.forward(utmProj.value, lon.value, lat.value);
      Done(Placement(fr.value, Some(p.0 - fr.value.refX), Some(p.1 - fr.value.refY)))
  }

  // ================================================================= profile

  /** `profile`: a swath centred on `(x, y)`, `l` long and `w` wide (metres). */
  class Profile {
    var name: string
    var l: real
    var w: real
    var lbins: real
    var strike: real
    var typ: Option<string>
    var flat: Option<string>
    var locRamp: Option<string>
    var x: Option<real>
    var y: Option<real>
    var xx: Option<real>
    var yy: Option<real>
    var lon: Option<real>
    var lat: Option<real>
    var utmProj: Option<int>
    var ref: Option<Pair>
    var frame: Frame

    /** `profile.__init__` once its checks have passed: the length, width and
        bin width are stored in metres and the strike normalised. */
    constructor (name: string, l: real, w: real, strike: real, typ: Option<string>, flat: Option<string>,
                 lbins: real, locRamp: Option<string>, x: Option<real>, y: Option<real>,
                 lat: Option<real>, lon: Option<real>, utmProj: Option<int>, ref: Option<Pair>)
      ensures this.l == l * KmToM && this.w == w * KmToM && this.lbins == lbins * KmToM
      ensures this.strike == NormalizeStrike(strike)
      ensures this.x == x && this.xx == x && this.y == y && this.yy == y
      ensures this.lat == lat && this.lon == lon && this.utmProj == utmProj && this.ref == ref
      ensures this.flat == flat && this.locRamp == locRamp && this.typ == typ && this.name == name
      ensures this.frame == Initial
    {
      this.name := name;
      this.x, this.xx := x, x;
      this.y, this.yy := y, y;
      this.l := l * KmToM;
      this.w := w * KmToM;
      this.flat := flat;
      this.lbins := lbins * KmToM;
      this.locRamp := locRamp;
      this.strike := NormalizeStrike(strike);
      this.typ := typ;
      this.utmProj := utmProj;
      this.ref := ref;
      this.frame := Initial;
      this.lon, this.lat := lon, lat;
    }

    /** `profile.__init__`: `lbins * 1e3` raises when `lbins` is None; the run
        exits when neither or both of `x` and `lat` are given. */
    static method Create(name: string, l: real, w: real, strike: real, typ: Option<string>, flat: Option<string>,
                         lbins: Option<real>, locRamp: Option<string>, x: Option<real>, y: Option<real>,
                         lat: Option<real>, lon: Option<real>, utmProj: Option<int>, ref: Option<Pair>)
      returns (r: Outcome<Profile>)
      ensures lbins.None? ==> r == Fail(NoneArithmetic)
      ensures lbins.Some? ==> (r.Fail? <==> x.None? == lat.None?)
      ensures lbins.Some? && r.Fail? ==> r.crash == ConfigExit
      ensures r.Done? ==> (fresh(r.value) && r.value.l == l * KmToM && r.value.w == w * KmToM
        && r.value.lbins == lbins.value * KmToM && r.value.strike == NormalizeStrike(strike)
        && r.value.x == x && r.value.xx == x && r.value.y == y && r.value.yy == y
        && r.value.lat == lat && r.value.lon == lon && r.value.utmProj == utmProj && r.value.ref == ref
        && r.value.flat == flat && r.value.locRamp == locRamp && r.value.frame == Initial)
    {
      if lbins.None? {
        return Fail(NoneArithmetic);
      }
      if x.None? && lat.None? {
        return Fail(ConfigExit);
      }
      if x.Some? && lat.Some? {
        return Fail(ConfigExit);
      }
      var p := new Profile(name, l, w, strike, typ, flat, lbins.value, locRamp, x, y, lat, lon, utmProj, ref);
      return Done(p);
    }

    /** `profile.update_proj(ref)`. */
    method UpdateProj(ref: Option<Pair>, svc: ProjectionService) returns (st: Status)
      modifies this`ref, this`frame, this`x, this`y
      ensures this.ref == ref
      ensures var p := ProfilePlacement(Placement(old(frame), old(x), old(y)), old(utmProj), ref, old(xx), old(yy), old(lon), old(lat), svc);
        (st.Ok? <==> p.Done?) && (p.Done? ==> frame == p.value.frame && x == p.value.x && y == p.value.y)
      ensures st.Stop? ==> frame == old(frame) && x == old(x) && y == old(y)
    {
      var p := ProfilePlacement(Placement(frame, x, y), utmProj, ref, xx, yy, lon, lat, svc);
      this.ref := ref;
      if p.Fail? {
        return Stop(p.crash);
      }
      frame, x, y := p.value.frame, p.value.x, p.value.y;
      return Ok;
    }
  }

  /** The effect of `profile.update_proj`: without an EPSG code the centre is
      recomputed from `xx`, `yy`, translated and converted to metres; with one it
      is recomputed from `(lon, lat)` when `lat` is given and left alone when not. */
  function ProfilePlacement(p: Placement, utmProj: Option<int>, ref: Option<Pair>, xx: Option<real>, yy: Option<real>,
                            lon: Option<real>, lat: Option<real>, svc: ProjectionService): (r: Outcome<Placement>)
    ensures r.Done? ==> UpdateFrame(p.frame, utmProj, ref, svc).Done? && r.value.frame == UpdateFrame(p.frame, utmProj, ref, svc).value
    ensures utmProj.None? ==> (r.Fail? <==> xx.None? || yy.None?)
    ensures utmProj.None? && r.Done? ==> (xx.Some? && yy.Some? &&
      r.value.x == Some((xx.value - r.value.frame.refX) * KmToM) && r.value.y == Some((yy.value - r.value.frame.refY) * KmToM))
    ensures var fr := UpdateFrame(p.frame, utmProj, ref, svc);
      utmProj.Some? ==> (r.Fail? <==> fr.Fail? || (lat.Some? && (!fr.value.utmSet || lon.None?)))
    ensures var fr := UpdateFrame(p.frame, utmProj, ref, svc);
      r.Fail? ==> r.crash == (if fr.Fail? || (utmProj.Some? && !fr.value.utmSet) then MissingAttribute else NoneArithmetic)
    ensures utmProj.Some? && lat.None? && r.Done? ==> r.value.x == p.x && r.value.y == p.y
    ensures utmProj.Some? && lat.Some? && r.Done? ==> (lon.Some? && r.value.frame.utmSet &&
      r.value.x.Some? && r.value.y.Some? &&
      (r.value.x.value + r.value.frame.refX, r.value.y.value + r.value.frame.refY)
        == svc.forward(utmProj.value, lon.value, lat.value))
  {
    var fr := UpdateFrame(p.frame, utmProj, ref, svc);
    if fr.Fail? then Fail(fr.crash)
    else if utmProj.None? then
      if xx.None? || yy.None? then Fail(NoneArithmetic)
      else Done(Placement(fr.value, Some((xx.value - fr.value.refX) * KmToM), Some((yy.value - fr.value.refY) * KmToM)))
    else if lat.None? then Done(Placement(fr.value, p.x, p.y))
    else if !fr.value.utmSet then Fail(MissingAttribute)
    else if lon.None? then Fail(NoneArithmetic)
    else
      var q := svc.forward(utmProj.value, lon.value, lat.value);
      Done(Placement(fr.value, Some(q.0 - fr.value.refX), Some(q.1 - fr.value.refY)))
  }

  /** `profile.update_proj` recomputes the centre from inputs it never changes,
      so calling it twice with the same reference is the same as calling it once. */
  lemma ProfilePlacementIdempotent(p: Placement, utmProj: Option<int>, ref: Option<Pair>, xx: Option<real>, yy: Option<real>,
                                   lon: Option<real>, lat: Option<real>, svc: ProjectionService)
    requires ProfilePlacement(p, utmProj, ref, xx, yy, lon, lat, svc).Done?
    ensures var once := ProfilePlacement(p, utmProj, ref, xx, yy, lon, lat, svc).value;
      ProfilePlacement(once, utmProj, ref, xx, yy, lon, lat, svc) == Done(once)
  {
    UpdateFrameIdempotent(p.frame, utmProj, ref, svc);
  }

  /** A freshly built profile placed without an EPSG code and without a
      reference keeps its native kilometres, only converted to metres. */
  lemma ProfilePlacementNoReference(xx: real, yy: real, svc: ProjectionService)
    ensures ProfilePlacement(Placement(Initial, Some(xx), Some(yy)), None, None, Some(xx), Some(yy), None, None, svc)
      == Done(Placement(Initial, Some(xx * KmToM), Some(yy * KmToM)))
  {
  }

  // ================================================================= topo

  /** One parsed line of a topography file: `x y z` or `lon lat z`. */
  datatype TopoRow = TopoRow(c0: real, c1: real, z: real)

  /** `topo`: a topography grid read as points. */
  class Topo {
    var name: string
    var scale: real
    var utmProj: Option<int>
    var ref: Option<Pair>
    var frame: Frame
    var x: seq<real>
    var y: seq<real>
    var z: seq<real>
    var lon: seq<real>
    var lat: seq<real>
    // along-profile distance and across-profile offset, set by the profile loop
    var ypp: seq<real>
    var xpp: seq<real>

    constructor (name: string, scale: real, utmProj: Option<int>, ref: Option<Pair>)
      ensures this.name == name && this.scale == scale && this.utmProj == utmProj && this.ref == ref
      ensures this.frame == Initial && this.x == [] && this.y == [] && this.z == []
    {
      this.name := name;
      this.scale := scale;
      this.utmProj := utmProj;
      this.ref := ref;
      this.frame := Initial;
      this.x, this.y, this.z := [], [], [];
      this.lon, this.lat := [], [];
      this.ypp, this.xpp := [], [];
    }

    /** `topo.update_proj(ref)`. */
    method UpdateProj(ref: Option<Pair>, svc: ProjectionService) returns (st: Status)
      modifies this`ref, this`frame
      ensures this.ref == ref
      ensures var f := UpdateFrame(old(frame), old(utmProj), ref, svc);
        (st.Ok? <==> f.Done?) && frame == (if f.Done? then f.value else old(frame))
    {
      var f := UpdateFrame(frame, utmProj, ref, svc);
      this.ref := ref;
      if f.Fail? {
        return Stop(f.crash);
      }
      frame := f.value;
      return Ok;
    }

    /** `topo.load(xlim, ylim)` on the parsed rows of the file: translate (and
        convert from kilometres) or project the positions, scale the heights, then
        keep the points inside the map limits when both limits are given. */
    method Load(rows: seq<TopoRow>, lim: Option<Box>, svc: ProjectionService) returns (st: Status)
      modifies this`ref, this`frame, this`x, this`y, this`z, this`lon, this`lat
      ensures ref == old(ref)
      ensures var f := UpdateFrame(old(frame), old(utmProj), old(ref), svc);
        var t := TopoPoints(rows, old(utmProj), if f.Done? then f.value else old(frame), old(scale), lim, svc);
        (st.Ok? <==> f.Done? && t.Done?) &&
        (st.Ok? ==> frame == f.value && x == t.value.0 && y == t.value.1 && z == t.value.2) &&
        (st.Stop? ==> x == old(x) && y == old(y) && z == old(z))
      ensures UpdateFrame(old(frame), old(utmProj), old(ref), svc).Done? && old(utmProj).Some? ==>
        lon == seq(|rows|, i requires 0 <= i < |rows| => rows[i].c0) &&
        lat == seq(|rows|, i requires 0 <= i < |rows| => rows[i].c1)
      ensures UpdateFrame(old(frame), old(utmProj), old(ref), svc).Fail? || old(utmProj).None? ==>
        lon == old(lon) && lat == old(lat)
    {
      var utmProj, scale := utmProj, scale;  // fields the load does not change
      st := UpdateProj(ref, svc);
      if st.Stop? {
        return;
      }
      if utmProj.Some? {
        lon := seq(|rows|, i requires 0 <= i < |rows| => rows[i].c0);
        lat := seq(|rows|, i requires 0 <= i < |rows| => rows[i].c1);
      }
      var t := TopoPoints(rows, utmProj, frame, scale, lim, svc);
      if t.Fail? {
        return Stop(t.crash);
      }
      x, y, z := t.value.0, t.value.1, t.value.2;
    }
  }

  /** The columns `topo.load` computes from the rows, before its map-limit filter. */
  function TopoColumns(rows: seq<TopoRow>, utmProj: Option<int>, f: Frame, scale: real, svc: ProjectionService)
    : (r: Outcome<(seq<real>, seq<real>, seq<real>)>)
    ensures r.Fail? <==> utmProj.Some? && !f.utmSet
    ensures r.Done? ==> |r.value.0| == |rows| && |r.value.1| == |rows| && |r.value.2| == |rows|
    ensures r.Done? ==> forall i :: 0 <= i < |rows| ==> r.value.2[i] == rows[i].z * scale
    ensures r.Done? && utmProj.None? ==> forall i :: 0 <= i < |rows| ==>
      r.value.0[i] == (rows[i].c0 - f.refX) * KmToM && r.value.1[i] == (rows[i].c1 - f.refY) * KmToM
    ensures r.Done? && utmProj.Some? ==> forall i :: 0 <= i < |rows| ==>
      (r.value.0[i] + f.refX, r.value.1[i] + f.refY) == svc.forward(utmProj.value, rows[i].c0, rows[i].c1)
  {
    var c0 := seq(|rows|, i requires 0 <= i < |rows| => rows[i].c0);
    var c1 := seq(|rows|, i requires 0 <= i < |rows| => rows[i].c1);
    var z := seq(|rows|, i requires 0 <= i < |rows| => rows[i].z * scale);
    if utmProj.None? then Done((ShiftScale(c0, f.refX, KmToM), ShiftScale(c1, f.refY, KmToM), z))
    else if !f.utmSet then Fail(MissingAttribute)
    else
      var p := ProjectColumns(svc, utmProj.value, f, c0, c1);
      Done((p.0, p.1, z))
  }

  /** The columns `topo.load` stores: `TopoColumns`, cut to the closed map box
      when limits are given, with one index set for all three columns. */
  function TopoPoints(rows: seq<TopoRow>, utmProj: Option<int>, f: Frame, scale: real, lim: Option<Box>, svc: ProjectionService)
    : (r: Outcome<(seq<real>, seq<real>, seq<real>)>)
    ensures r.Done? <==> TopoColumns(rows, utmProj, f, scale, svc).Done?
    ensures r.Done? ==> |r.value.0| == |r.value.1| == |r.value.2|
    ensures r.Done? && lim.None? ==> r == TopoColumns(rows, utmProj, f, scale, svc)
  {
    var c := TopoColumns(rows, utmProj, f, scale, svc);
    if c.Fail? || lim.None? then c
    else
      var m := BoxMask(c.value.0, c.value.1, lim.value);
      Done((Keep(c.value.0, m), Keep(c.value.1, m), Keep(c.value.2, m)))
  }

  /** With map limits, `topo.load` keeps exactly the points inside the closed
      box, in file order, and the k-th kept height belongs to the k-th kept position. */
  lemma TopoPointsInBox(rows: seq<TopoRow>, utmProj: Option<int>, f: Frame, scale: real, b: Box, svc: ProjectionService)
    requires TopoColumns(rows, utmProj, f, scale, svc).Done?
    ensures var c := TopoColumns(rows, utmProj, f, scale, svc).value;
      var t := TopoPoints(rows, utmProj, f, scale, Some(b), svc).value;
      var idx := Kept(BoxMask(c.0, c.1, b));
      |t.0| == |idx| &&
      (forall k :: 0 <= k < |idx| ==> (0 <= idx[k] < |rows| &&
         t.0[k] == c.0[idx[k]] && t.1[k] == c.1[idx[k]] && t.2[k] == c.2[idx[k]] &&
         b.x0 <= t.0[k] <= b.x1 && b.y0 <= t.1[k] <= b.y1)) &&
      (forall i :: 0 <= i < |rows| && b.x0 <= c.0[i] <= b.x1 && b.y0 <= c.1[i] <= b.y1 ==> i in idx)
  {
    var c := TopoColumns(rows, utmProj, f, scale, svc).value;
    var m := BoxMask(c.0, c.1, b);
    forall k | 0 <= k < Count(m)
      ensures 0 <= Kept(m)[k] < |rows|
      ensures Keep(c.0, m)[k] == c.0[Kept(m)[k]] && Keep(c.1, m)[k] == c.1[Kept(m)[k]] && Keep(c.2, m)[k] == c.2[Kept(m)[k]]
    {
      KeepAt(c.0, m, k);
      KeepAt(c.1, m, k);
      KeepAt(c.2, m, k);
    }
    forall i | 0 <= i < |rows| && b.x0 <= c.0[i] <= b.x1 && b.y0 <= c.1[i] <= b.y1
      ensures i in Kept(m)
    {
      KeptComplete(m, i);
    }
  }

  // ================================================================= seismicity

  /** One parsed catalogue line: the columns `latitude`, `longitude`, `depth`,
      `mag` of a csv file, or `mag, lat, lon, depth` of a txt file. */
  datatype QuakeRow = QuakeRow(lat: real, lon: real, depth: real, mag: real)

  /** Mean of |d| over a non-empty column. */
  function MeanAbs(d: seq<real>): real
    requires |d| > 0
  {
    SumAbs(d) / |d| as real
  }

  function SumAbs(d: seq<real>): (s: real)
    ensures s >= 0.0
  {
    if |d| == 0 then 0.0 else (if d[0] < 0.0 then -d[0] else d[0]) + SumAbs(d[1..])
  }

  /** The depth column `seismicity.load` stores in `self.depth`: multiplied by
      1000 (kilometres to metres) when the mean absolute depth is below 100,
      and not set at all otherwise (`np.nanmean` of no values is NaN, which is
      not below 100). */
  function RescaledDepth(depth: seq<real>): (r: Option<seq<real>>)
    ensures r.Some? <==> |depth| > 0 && MeanAbs(depth) < 100.0
    ensures r.Some? ==> |r.value| == |depth| && forall i :: 0 <= i < |depth| ==> r.value[i] == depth[i] * KmToM
  {
    if |depth| > 0 && MeanAbs(depth) < 100.0 then Some(Scale(depth, KmToM)) else None
  }

  /** A catalogue whose depths lie within 100 km on average holds every
      hypocentre shallower than 100 km in absolute value ... and is rescaled. */
  lemma ShallowCatalogueRescaled(depth: seq<real>)
    requires |depth| > 0
    requires forall i :: 0 <= i < |depth| ==> -100.0 < depth[i] < 100.0
    ensures RescaledDepth(depth).Some?
  {
    SumAbsBelow(depth);
  }

  lemma {:induction false} SumAbsBelow(d: seq<real>)
    requires forall i :: 0 <= i < |d| ==> -100.0 < d[i] < 100.0
    ensures |d| > 0 ==> SumAbs(d) < 100.0 * |d| as real
    decreases |d|
  {
    if |d| > 1 {
      SumAbsBelow(d[1..]);
    }
  }

  /** `seismicity`: an earthquake catalogue. */
  class Seismicity {
    var name: string
    var fmt: string
    var utmProj: Option<int>
    var ref: Option<Pair>
    var frame: Frame
    var x: seq<real>
    var y: seq<real>
    var z: seq<real>
    var mag: seq<real>
    var depth: Option<seq<real>>
    // profile coordinates and the swath selection, set by the profile loop
    var ypp: seq<real>
    var xpp: seq<real>
    var xp: seq<real>
    var yp: seq<real>

    constructor (name: string, fmt: string, utmProj: Option<int>, ref: Option<Pair>)
      ensures this.name == name && this.fmt == fmt && this.utmProj == utmProj && this.ref == ref
      ensures this.frame == Initial && this.depth.None?
    {
      this.name, this.fmt := name, fmt;
      this.utmProj, this.ref := utmProj, ref;
      this.frame := Initial;
      this.x, this.y, this.z, this.mag := [], [], [], [];
      this.depth := None;
      this.ypp, this.xpp, this.xp, this.yp := [], [], [], [];
    }

    /** `seismicity.update_proj(ref)`. */
    method UpdateProj(ref: Option<Pair>, svc: ProjectionService) returns (st: Status)
      modifies this`ref, this`frame
      ensures this.ref == ref
      ensures var f := UpdateFrame(old(frame), old(utmProj), ref, svc);
        (st.Ok? <==> f.Done?) && frame == (if f.Done? then f.value else old(frame))
    {
      var f := UpdateFrame(frame, utmProj, ref, svc);
      this.ref := ref;
      if f.Fail? {
        return Stop(f.crash);
      }
      frame := f.value;
      return Ok;
    }

    /** `seismicity.load()` on the parsed rows. A csv catalogue without an EPSG
        code keeps raw longitude and latitude as positions; a txt catalogue is
        translated and converted from kilometres; with an EPSG code both are
        projected. Any other format leaves `depth` undefined, which stops the run. */
    method Load(rows: seq<QuakeRow>, svc: ProjectionService) returns (st: Status)
      modifies this`ref, this`frame, this`x, this`y, this`z, this`mag, this`depth
      ensures ref == old(ref)
      ensures var f := UpdateFrame(old(frame), utmProj, old(ref), svc);
        var lon := seq(|rows|, i requires 0 <= i < |rows| => rows[i].lon);
        var lat := seq(|rows|, i requires 0 <= i < |rows| => rows[i].lat);
        var dep := seq(|rows|, i requires 0 <= i < |rows| => rows[i].depth);
        (st.Ok? <==> f.Done? && (fmt == "csv" || fmt == "txt") && (utmProj.Some? ==> f.value.utmSet)) &&
        (st.Ok? ==>
          frame == f.value &&
          mag == seq(|rows|, i requires 0 <= i < |rows| => rows[i].mag) &&
          (utmProj.Some? ==> (x, y) == ProjectColumns(svc, utmProj.value, f.value, lon, lat)) &&
          (utmProj.None? && fmt == "csv" ==> x == lon && y == lat) &&
          (utmProj.None? && fmt == "txt" ==> x == ShiftScale(lon, f.value.refX, KmToM) && y == ShiftScale(lat, f.value.refY, KmToM)) &&
          (fmt == "csv" ==> z == dep) && (fmt == "txt" ==> z == old(z)) &&
          depth == (if RescaledDepth(dep).Some? then RescaledDepth(dep) else old(depth))) &&
        (st.Stop? ==> x == old(x) && y == old(y) && z == old(z) && depth == old(depth)) &&
        (st.Stop? ==> mag == if f.Done? && fmt == "txt" then seq(|rows|, i requires 0 <= i < |rows| => rows[i].mag) else old(mag))
    {
      st := UpdateProj(ref, svc);
      if st.Stop? {
        return;
      }
      st := ReadCatalogue(rows, svc);
    }

    /** The part of `seismicity.load()` after the projection update. */
    method ReadCatalogue(rows: seq<QuakeRow>, svc: ProjectionService) returns (st: Status)
      modifies this`x, this`y, this`z, this`mag, this`depth
      ensures var lon := seq(|rows|, i requires 0 <= i < |rows| => rows[i].lon);
        var lat := seq(|rows|, i requires 0 <= i < |rows| => rows[i].lat);
        var dep := seq(|rows|, i requires 0 <= i < |rows| => rows[i].depth);
        (st.Ok? <==> (old(fmt) == "csv" || old(fmt) == "txt") && (old(utmProj).Some? ==> old(frame).utmSet)) &&
        (st.Ok? ==>
          mag == seq(|rows|, i requires 0 <= i < |rows| => rows[i].mag) &&
          (old(utmProj).Some? ==> (x, y) == ProjectColumns(svc, old(utmProj).value, old(frame), lon, lat)) &&
          (old(utmProj).None? && old(fmt) == "csv" ==> x == lon && y == lat) &&
          (old(utmProj).None? && old(fmt) == "txt" ==> x == ShiftScale(lon, old(frame).refX, KmToM) && y == ShiftScale(lat, old(frame).refY, KmToM)) &&
          (old(fmt) == "csv" ==> z == dep) && (old(fmt) == "txt" ==> z == old(z)) &&
          depth == (if RescaledDepth(dep).Some? then RescaledDepth(dep) else old(depth))) &&
        (st.Stop? ==> st.crash == (if old(fmt) == "csv" || old(fmt) == "txt" then MissingAttribute else UndefinedName)) &&
        (st.Stop? ==> x == old(x) && y == old(y) && z == old(z) && depth == old(depth)) &&
        (st.Stop? ==> mag == if old(fmt) == "txt" then seq(|rows|, i requires 0 <= i < |rows| => rows[i].mag) else old(mag))
    {
      var fmt, utmProj, frame := fmt, utmProj, frame;  // fields the reader does not change
      var lon := seq(|rows|, i requires 0 <= i < |rows| => rows[i].lon);
      var lat := seq(|rows|, i requires 0 <= i < |rows| => rows[i].lat);
      var dep := seq(|rows|, i requires 0 <= i < |rows| => rows[i].depth);
      if fmt != "csv" && fmt != "txt" {
        return Stop(UndefinedName);
      }
      var mags := seq(|rows|, i requires 0 <= i < |rows| => rows[i].mag);
      if fmt == "txt" {
        // the text reader unpacks the magnitudes before the positions are projected
        mag := mags;
      }
      if utmProj.Some? && !frame.utmSet {
        return Stop(MissingAttribute);
      }
      mag := mags;
      if utmProj.Some? {
        var p := ProjectColumns(svc, utmProj.value, frame, lon, lat);
        x, y := p.0, p.1;
      } else if fmt == "csv" {
        x, y := lon, lat;
      } else {
        x, y := ShiftScale(lon, frame.refX, KmToM), ShiftScale(lat, frame.refY, KmToM);
      }
      if fmt == "csv" {
        z := dep;
      }
      st := Ok;
      var d := RescaledDepth(dep);
      if d.Some? {
        depth := d;
      }
    }
  }
}
