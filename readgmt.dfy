/*
 * GMT multi-segment files: the `gmt` dataset of readgmt.py, which splits a
 * text file into segments at every line holding a `>` and keeps, in each
 * segment, the points that fall inside an open map window.
 */
module ReadGmt {
  import opened Common
  import opened Reference

  /** A line of the file as `load` sees it: one that contains `>` anywhere
      (a separator), one whose whitespace-separated tokens all parse as
      floats, or one with a token `float` rejects. */
  datatype Line = Separator | Numbers(values: seq<real>) | Garbled

  /** A `xlim` or `ylim` argument: absent, or a pair of bounds. */
  type Limits = Option<(real, real)>

  /** The segments read so far: the `x` and `y` lists of lists. */
  type Segs = (seq<seq<real>>, seq<seq<real>>)

  /** What `load` reads besides the lines: the EPSG code, the frame left by
      `update_proj`, the window arguments and the projection. */
  datatype Reader = Reader(utmProj: Option<int>, frame: Frame, xlim: Limits, ylim: Limits, svc: ProjectionService)

  /** The position of a point line: with an EPSG code, the projection of
      `(lon, lat)` minus the reference; without one, the native coordinates
      minus the reference, converted from kilometres. */
  function PointOf(r: Reader, a: real, b: real): (p: (real, real))
    ensures r.utmProj.Some? ==> (p.0 + r.frame.refX, p.1 + r.frame.refY) == r.svc.forward(r.utmProj.value, a, b)
    ensures r.utmProj.None? ==> p.0 / KmToM + r.frame.refX == a && p.1 / KmToM + r.frame.refY == b
  {
    if r.utmProj.Some? then
      var q := r.svc.forward(r.utmProj.value, a, b);
      (q.0 - r.frame.refX, q.1 - r.frame.refY)
    else
      ((a - r.frame.refX) * KmToM, (b - r.frame.refY) * KmToM)
  }

  /** Whether a point lies strictly inside both window ranges. */
  predicate InWindow(xlim: (real, real), ylim: (real, real), p: (real, real))
  {
    xlim.0 < p.0 < xlim.1 && ylim.0 < p.1 < ylim.1
  }

  /** Whether a line stops `load`: a token that is not a float, fewer than
      two numbers, an EPSG code without the projector, or
      an x inside `xlim` when `ylim` is None (its comparison indexes None). */
  predicate Breaks(r: Reader, l: Line)
  {
    match l
    case Separator => false
    case Garbled => true
    case Numbers(v) =>
      |v| < 2 || (r.utmProj.Some? && !r.frame.utmSet) ||
      (r.xlim.Some? && r.ylim.None? && r.xlim.value.0 < PointOf(r, v[0], v[1]).0 < r.xlim.value.1)
  }

  /** Whether a well-formed point line is kept: always without `xlim`,
      otherwise when it lies inside the open window. */
  predicate Keeps(r: Reader, l: Line)
  {
    l.Numbers? && !Breaks(r, l) &&
    (r.xlim.Some? ==> r.ylim.Some? && InWindow(r.xlim.value, r.ylim.value, PointOf(r, l.values[0], l.values[1])))
  }

  /** Whether a line contains a `>`, as a count. */
  function Markers(ls: seq<Line>): (n: nat)
    ensures n <= |ls|
  {
    if |ls| == 0 then 0 else Markers(ls[..|ls| - 1]) + if ls[|ls| - 1].Separator? then 1 else 0
  }

  /** Adds a point at the end of the last segment. */
  function Append(acc: Segs, p: (real, real)): (r: Segs)
    requires |acc.0| > 0 && |acc.1| > 0
    ensures |r.0| == |acc.0| && |r.1| == |acc.1|
    ensures r.0[..|acc.0| - 1] == acc.0[..|acc.0| - 1] && r.1[..|acc.1| - 1] == acc.1[..|acc.1| - 1]
    ensures r.0[|acc.0| - 1] == acc.0[|acc.0| - 1] + [p.0] && r.1[|acc.1| - 1] == acc.1[|acc.1| - 1] + [p.1]
  {
    (acc.0[|acc.0| - 1 := acc.0[|acc.0| - 1] + [p.0]], acc.1[|acc.1| - 1 := acc.1[|acc.1| - 1] + [p.1]])
  }

  /** `gmt.load` over the lines of a file: one segment to start with, a new
      one at every separator, and each kept point appended to the current
      segment; the first line that breaks stops the run. */
  function Segments(r: Reader, ls: seq<Line>): (o: Outcome<Segs>)
    ensures o.Done? ==> |o.value.0| > 0 && |o.value.1| > 0
    decreases |ls|
  {
    if |ls| == 0 then Done(([[]], [[]]))
    else
      match Segments(r, ls[..|ls| - 1])
      case Fail(c) => Fail(c)
      case Done(acc) => LineStep(r, acc, ls[|ls| - 1])
  }

  /** What one line does to the segments read so far. */
  function LineStep(r: Reader, acc: Segs, l: Line): (o: Outcome<Segs>)
    requires |acc.0| > 0 && |acc.1| > 0
    ensures o.Done? ==> |o.value.0| > 0 && |o.value.1| > 0
  {
    if l.Separator? then Done((acc.0 + [[]], acc.1 + [[]]))
    else if Breaks(r, l) then Fail(if l.Garbled? || |l.values| < 2 then ParseError
                                   else if r.utmProj.Some? && !r.frame.utmSet then MissingAttribute
                                   else NoneArithmetic)
    else if Keeps(r, l) then Done(Append(acc, PointOf(r, l.values[0], l.values[1])))
    else Done(acc)
  }

  /** Reading one more line of a prefix. */
  lemma SegmentsPrefix(r: Reader, ls: seq<Line>, k: int)
    requires 0 <= k < |ls|
    ensures Segments(r, ls[..k]).Fail? ==> Segments(r, ls[..k + 1]) == Segments(r, ls[..k])
    ensures Segments(r, ls[..k]).Done? ==> Segments(r, ls[..k + 1]) == LineStep(r, Segments(r, ls[..k]).value, ls[k])
  {
    assert ls[..k + 1][..k] == ls[..k];
  }

  /** The points `load` keeps, in file order, as a reference sequence of
      coordinates. */
  function Kept(r: Reader, ls: seq<Line>): (k: (seq<real>, seq<real>))
    ensures |k.0| == |k.1| <= |ls|
  {
    if |ls| == 0 then ([], [])
    else
      var k := Kept(r, ls[..|ls| - 1]);
      var l := ls[|ls| - 1];
      if Keeps(r, l) then
        var p := PointOf(r, l.values[0], l.values[1]);
        (k.0 + [p.0], k.1 + [p.1])
      else k
  }

  /** All segments one after another. */
  function Flatten(s: seq<seq<real>>): (f: seq<real>)
  {
    if |s| == 0 then [] else Flatten(s[..|s| - 1]) + s[|s| - 1]
  }

  lemma FlattenLast(s: seq<seq<real>>, t: seq<real>)
    ensures Flatten(s + [t]) == Flatten(s) + t
  {
    assert (s + [t])[..|s|] == s;
  }

  lemma FlattenAppendLast(s: seq<seq<real>>, v: real)
    requires |s| > 0
    ensures Flatten(s[|s| - 1 := s[|s| - 1] + [v]]) == Flatten(s) + [v]
  {
    var u := s[|s| - 1 := s[|s| - 1] + [v]];
    assert u[..|s| - 1] == s[..|s| - 1];
  }

  /** The file yields one segment more than it has separators, the same in
      `x` and `y`, and every segment has as many x as y values. */
  lemma {:induction false} SegmentsShape(r: Reader, ls: seq<Line>)
    requires Segments(r, ls).Done?
    ensures var s := Segments(r, ls).value;
      |s.0| == |s.1| == 1 + Markers(ls) && forall i :: 0 <= i < |s.0| ==> |s.0[i]| == |s.1[i]|
  {
    if |ls| > 0 {
      SegmentsShape(r, ls[..|ls| - 1]);
      var acc := Segments(r, ls[..|ls| - 1]).value;
      var l := ls[|ls| - 1];
      if Keeps(r, l) {
        var p := PointOf(r, l.values[0], l.values[1]);
        var s := Append(acc, p);
        forall i | 0 <= i < |s.0|
          ensures |s.0[i]| == |s.1[i]|
        {
          if i < |acc.0| - 1 {
            assert s.0[i] == s.0[..|acc.0| - 1][i] && s.1[i] == s.1[..|acc.1| - 1][i];
          }
        }
      }
    }
  }

  /** Whether every point of every segment lies strictly inside the window. */
  predicate AllInWindow(xlim: (real, real), ylim: (real, real), s: Segs)
  {
    forall i, j :: 0 <= i < |s.0| && i < |s.1| && 0 <= j < |s.0[i]| && j < |s.1[i]| ==>
      InWindow(xlim, ylim, (s.0[i][j], s.1[i][j]))
  }

  /** With both windows, every kept point lies strictly inside them; with
      `xlim` but no `ylim` a file that loads keeps no point at all. */
  lemma {:induction false} SegmentsInWindow(r: Reader, ls: seq<Line>)
    requires Segments(r, ls).Done? && r.xlim.Some?
    ensures r.ylim.Some? ==> AllInWindow(r.xlim.value, r.ylim.value, Segments(r, ls).value)
    ensures r.ylim.None? ==> Kept(r, ls) == ([], [])
  {
    if |ls| > 0 {
      SegmentsInWindow(r, ls[..|ls| - 1]);
      SegmentsShape(r, ls[..|ls| - 1]);
      var acc := Segments(r, ls[..|ls| - 1]).value;
      var l := ls[|ls| - 1];
      if r.ylim.Some? {
        var xl, yl := r.xlim.value, r.ylim.value;
        if Keeps(r, l) {
          var p := PointOf(r, l.values[0], l.values[1]);
          var s := Append(acc, p);
          forall i, j | 0 <= i < |s.0| && i < |s.1| && 0 <= j < |s.0[i]| && j < |s.1[i]|
            ensures InWindow(xl, yl, (s.0[i][j], s.1[i][j]))
          {
            if i < |acc.0| - 1 {
              assert s.0[i] == s.0[..|acc.0| - 1][i] && s.1[i] == s.1[..|acc.1| - 1][i];
            } else if j < |acc.0[i]| {
              assert s.0[i][j] == acc.0[i][j] && s.1[i][j] == acc.1[i][j];
            }
          }
        } else if l.Separator? {
          var s := (acc.0 + [[]], acc.1 + [[]]);
          forall i, j | 0 <= i < |s.0| && i < |s.1| && 0 <= j < |s.0[i]| && j < |s.1[i]|
            ensures InWindow(xl, yl, (s.0[i][j], s.1[i][j]))
          {
            assert s.0[i] == acc.0[i] && s.1[i] == acc.1[i];
          }
        }
      }
    }
  }

  /** Read one after another, the segments hold exactly the kept points of
      the file, in file order. */
  lemma {:induction false} SegmentsKeepFileOrder(r: Reader, ls: seq<Line>)
    requires Segments(r, ls).Done?
    ensures var s := Segments(r, ls).value; (Flatten(s.0), Flatten(s.1)) == Kept(r, ls)
  {
    if |ls| > 0 {
      SegmentsKeepFileOrder(r, ls[..|ls| - 1]);
      var acc := Segments(r, ls[..|ls| - 1]).value;
      var l := ls[|ls| - 1];
      if l.Separator? {
        FlattenLast(acc.0, []);
        FlattenLast(acc.1, []);
        assert Flatten(acc.0) + [] == Flatten(acc.0) && Flatten(acc.1) + [] == Flatten(acc.1);
      } else if Keeps(r, l) {
        var p := PointOf(r, l.values[0], l.values[1]);
        FlattenAppendLast(acc.0, p.0);
        FlattenAppendLast(acc.1, p.1);
      }
    }
  }

  /** `load` stops exactly when some line breaks it, whatever the lines
      around it. */
  lemma {:induction false} SegmentsFail(r: Reader, ls: seq<Line>)
    ensures Segments(r, ls).Fail? <==> exists j :: 0 <= j < |ls| && Breaks(r, ls[j])
  {
    if |ls| > 0 {
      var init := ls[..|ls| - 1];
      SegmentsFail(r, init);
      if exists j :: 0 <= j < |init| && Breaks(r, init[j]) {
        var j :| 0 <= j < |init| && Breaks(r, init[j]);
        assert ls[j] == init[j];
      }
      if exists j :: 0 <= j < |ls| && Breaks(r, ls[j]) {
        var j :| 0 <= j < |ls| && Breaks(r, ls[j]);
        if j < |init| {
          assert init[j] == ls[j];
        }
      }
    }
  }

  /** Once a prefix of the file stops `load`, the whole file stops it with
      the same error: later lines are never read. */
  lemma {:induction false} SegmentsStopEarly(r: Reader, ls: seq<Line>, n: int)
    requires 0 <= n <= |ls| && Segments(r, ls[..n]).Fail?
    ensures Segments(r, ls) == Segments(r, ls[..n])
    decreases |ls|
  {
    if n < |ls| {
      assert ls[..|ls| - 1][..n] == ls[..n];
      SegmentsStopEarly(r, ls[..|ls| - 1], n);
    } else {
      assert ls[..n] == ls;
    }
  }

  /** The `gmt` dataset: a file of line segments drawn over the maps. */
  class Gmt {
    var name: string
    var filename: string
    var utmProj: Option<int>
    var ref: Option<Pair>
    var frame: Frame
    var x: seq<seq<real>>
    var y: seq<seq<real>>

    /** `gmt(name, wdir, filename, utm_proj=..., ref=...)`: no segments, no
        projector and a zero reference until `update_proj`. */
    constructor (name: string, filename: string, utmProj: Option<int>, ref: Option<Pair>)
      ensures this.name == name && this.filename == filename && this.utmProj == utmProj && this.ref == ref
      ensures frame == Initial && x == [] && y == []
    {
      this.name, this.filename, this.utmProj, this.ref := name, filename, utmProj, ref;
      frame, x, y := Initial, [], [];
    }

    /** `gmt.update_proj(ref)`. */
    method UpdateProj(ref: Option<Pair>, svc: ProjectionService) returns (st: Status)
      modifies this`ref, this`frame
      ensures this.ref == ref
      ensures var f := UpdateFrame(old(frame), utmProj, ref, svc);
        (st.Ok? <==> f.Done?) && frame == (if f.Done? then f.value else old(frame))
    {
      this.ref := ref;
      var f := UpdateFrame(frame, utmProj, ref, svc);
      if f.Fail? {
        return Stop(f.crash);
      }
      frame := f.value;
      return Ok;
    }

    /** `gmt.load(xlim=..., ylim=...)` over the lines of the file: returns the
        segments rather than storing them. */
    method Load(lines: seq<Line>, xlim: Limits, ylim: Limits, svc: ProjectionService) returns (st: Status, xs: seq<seq<real>>, ys: seq<seq<real>>)
      ensures Segments(Reader(utmProj, frame, xlim, ylim, svc), lines) == if st.Ok? then Done((xs, ys)) else Fail(st.crash)
    {
      var r := Reader(utmProj, frame, xlim, ylim, svc);
      xs, ys := [[]], [[]];
      var i := 0;
      var k := 0;
      while k < |lines|
        invariant 0 <= k <= |lines|
        invariant Segments(r, lines[..k]) == Done((xs, ys))
        invariant i == |xs| - 1 == |ys| - 1
        decreases |lines| - k
      {
        SegmentsPrefix(r, lines, k);
        match lines[k] {
          case Separator =>
            i := i + 1;
            xs, ys := xs + [[]], ys + [[]];
          case Garbled =>
            SegmentsStopEarly(r, lines, k + 1);
            return Stop(ParseError), [], [];
          case Numbers(v) =>
            if |v| < 2 {
              SegmentsStopEarly(r, lines, k + 1);
              return Stop(ParseError), [], [];
            }
            if utmProj.Some? && !frame.utmSet {
              SegmentsStopEarly(r, lines, k + 1);
              return Stop(MissingAttribute), [], [];
            }
            var p := PointOf(r, v[0], v[1]);
            if xlim.Some? {
              if xlim.value.0 < p.0 < xlim.value.1 {
                if ylim.None? {
                  SegmentsStopEarly(r, lines, k + 1);
                  return Stop(NoneArithmetic), [], [];
                }
                if ylim.value.0 < p.1 < ylim.value.1 {
                  assert Keeps(r, lines[k]);
                  xs, ys := xs[i := xs[i] + [p.0]], ys[i := ys[i] + [p.1]];
                } else {
                  assert !Breaks(r, lines[k]) && !Keeps(r, lines[k]);
                }
              } else {
                assert !Breaks(r, lines[k]) && !Keeps(r, lines[k]);
              }
            } else {
              assert Keeps(r, lines[k]);
              xs, ys := xs[i := xs[i] + [p.0]], ys[i := ys[i] + [p.1]];
            }
        }
        k := k + 1;
      }
      assert lines[..k] == lines;
      return Ok, xs, ys;
    }
  }
}
