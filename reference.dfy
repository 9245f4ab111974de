/** The reference-point logic that every dataset's `update_proj` repeats
    (model2d.py, network2d.py, readgmt.py): it creates the projection object
    `self.UTM` for the dataset's EPSG code and sets the offsets `ref_x`, `ref_y`. */
module Reference {
  import opened Common

  /** The projection attributes of a dataset: whether `self.UTM` exists, and
      `ref_x`, `ref_y`. Every constructor starts from `Initial`. */
  datatype Frame = Frame(utmSet: bool, refX: real, refY: real)

  const Initial: Frame := Frame(false, 0.0, 0.0)

  /** `update_proj` with the CRS creation inside `try`: a CRS error is printed and
      swallowed, so `self.UTM` keeps whatever it held, and the later call
      `self.UTM(ref)` fails when it was never created. Without an EPSG code the
      reference is copied. A missing `ref` leaves `ref_x`, `ref_y` as they were. */
  function UpdateFrame(f: Frame, utmProj: Option<int>, ref: Option<Pair>, svc: ProjectionService): (r: Outcome<Frame>)
    ensures utmProj.None? ==> r.Done? && r.value.utmSet == f.utmSet
    ensures utmProj.None? && ref.Some? ==> r.value.refX == ref.value.0 && r.value.refY == ref.value.1
    ensures utmProj.Some? ==> (r.Fail? <==> ref.Some? && !f.utmSet && !svc.known(utmProj.value))
    ensures utmProj.Some? && r.Done? ==> r.value.utmSet == (f.utmSet || svc.known(utmProj.value))
    ensures utmProj.Some? && ref.Some? && r.Done? ==>
      (r.value.refX, r.value.refY) == svc.forward(utmProj.value, ref.value.0, ref.value.1)
    ensures ref.None? ==> r.Done? && r.value.refX == f.refX && r.value.refY == f.refY
    ensures r.Fail? ==> r.crash == MissingAttribute
  {
    if utmProj.Some? then
      var created := f.utmSet || svc.known(utmProj.value);
      if ref.None? then Done(Frame(created, f.refX, f.refY))
      else if !created then Fail(MissingAttribute)
      else
        var p := svc.forward(utmProj.value, ref.value.0, ref.value.1);
        Done(Frame(true, p.0, p.1))
    else if ref.Some? then Done(Frame(f.utmSet, ref.value.0, ref.value.1))
    else Done(f)
  }

  /** `fault2d.update_proj`: the same, except that the CRS is created outside any
      `try`, so an unknown EPSG code stops the run. */
  function UpdateFrameStrict(f: Frame, utmProj: Option<int>, ref: Option<Pair>, svc: ProjectionService): (r: Outcome<Frame>)
    ensures utmProj.Some? && !svc.known(utmProj.value) ==> r == Fail(ProjectionFailure)
    ensures utmProj.Some? && svc.known(utmProj.value) ==> r.Done? && r.value.utmSet
    ensures utmProj.Some? && svc.known(utmProj.value) && ref.Some? ==>
      (r.value.refX, r.value.refY) == svc.forward(utmProj.value, ref.value.0, ref.value.1)
    ensures utmProj.None? ==> r == UpdateFrame(f, utmProj, ref, svc)
    ensures ref.None? && r.Done? ==> r.value.refX == f.refX && r.value.refY == f.refY
  {
    if utmProj.Some? && !svc.known(utmProj.value) then Fail(ProjectionFailure)
    else UpdateFrame(f, utmProj, ref, svc)
  }

  /** Calling `update_proj` twice with the same reference gives the same frame as
      calling it once. */
  lemma UpdateFrameIdempotent(f: Frame, utmProj: Option<int>, ref: Option<Pair>, svc: ProjectionService)
    requires UpdateFrame(f, utmProj, ref, svc).Done?
    ensures UpdateFrame(UpdateFrame(f, utmProj, ref, svc).value, utmProj, ref, svc) == UpdateFrame(f, utmProj, ref, svc)
  {
  }

  /** `UTM(lon, lat) - (ref_x, ref_y)` column by column. */
  function ProjectColumns(svc: ProjectionService, code: int, f: Frame, lon: seq<real>, lat: seq<real>): (r: (seq<real>, seq<real>))
    requires |lon| == |lat|
    ensures |r.0| == |lon| && |r.1| == |lon|
    ensures forall i :: 0 <= i < |lon| ==>
      r.0[i] + f.refX == svc.forward(code, lon[i], lat[i]).0 && r.1[i] + f.refY == svc.forward(code, lon[i], lat[i]).1
  {
    (seq(|lon|, i requires 0 <= i < |lon| => svc.forward(code, lon[i], lat[i]).0 - f.refX),
     seq(|lon|, i requires 0 <= i < |lon| => svc.forward(code, lon[i], lat[i]).1 - f.refY))
  }
}
